// What the critical sections of LockSections do, one by one, and that no frame and
// no clean-up ends before it has done all that it began.

module SectionDebts {
  import opened Wrappers
  import opened LockSections
  import Presence

  // Sections of a leave, a sweep or a ghost removal take exactly the user out of
  // exactly the room they name, an insertion enters exactly the user in exactly the
  // room that is joined, and all others leave every room as it is.
  lemma SectionEffect(s: State, c: ConnId, x: Section, q: RoomId, v: UserId)
    requires Enabled(s, Act(c, x))
    ensures var t := Step(s, Act(c, x)); var u := s.sessions[c].user;
      if x.LeaveNext? || x.SweepNext? || x.GhostNext? then Lists(t, q, v) <==> Lists(s, q, v) && !(q == x.room && v == u)
      else if x.Inserted? then Lists(t, q, v) <==> Lists(s, q, v) || (q == s.sessions[c].reader.room && v == u)
      else Lists(t, q, v) <==> Lists(s, q, v)
  {
  }

  // A creation adds an empty room under its trimmed name, exactly if that has 1 to 50
  // characters and is new up to case, and there are fewer rooms than the cap.
  lemma CreateEffect(s: State, id: RoomId, raw: string)
    requires Enabled(s, Create(id, raw))
    ensures var t := Step(s, Create(id, raw)); var name := Presence.TrimSpace(raw);
      var ok := && 0 < |name| <= 50 && |s.rooms| < s.limits.maxRooms
                && forall r :: r in s.rooms ==> !Presence.SameName(s.rooms[r].name, name, s.limits.fold);
      t == s.(rooms := if ok then s.rooms[id := Room(name, map[])] else s.rooms)
  {
    var name := Presence.TrimSpace(raw);
    var fold := s.limits.fold;
    forall r | r in s.rooms
      ensures Presence.EqualFold(s.rooms[r].name, name, fold) <==> Presence.SameName(s.rooms[r].name, name, fold)
    {
      Presence.EqualFoldMeans(s.rooms[r].name, name, fold);
    }
  }

  // What a reader or a closer has taken upon itself.
  datatype Debt =
    | ToLeave(room: RoomId)
    | ToEnter(room: RoomId)
    | ToSweep(room: RoomId)
    | ToVisit(room: RoomId)
    | ToRemove(room: RoomId)

  ghost predicate Owes(k: Session, d: Debt) {
    match d
    case ToLeave(r) => (k.reader.Leaving? || k.reader.Dropping?) && r in k.reader.todo
    case ToEnter(r) =>
      k.reader == Inserting(r) || ((k.reader.Leaving? || k.reader.Dropping?) && k.reader.target == Some(r))
    case ToSweep(r) => (k.closer.Sweeping? || k.closer.SweepDropping?) && r in k.closer.todo
    case ToVisit(r) => k.closer.Scanning? && r in k.closer.unvisited
    case ToRemove(r) =>
      || (k.closer.Scanning? && r in k.closer.ghosts)
      || ((k.closer.Ghosting? || k.closer.GhostDropping?) && r in k.closer.todo)
  }

  // Event e makes c begin: a leave of r; a join, which is to leave every room held and
  // then to enter r; a sweep of every room held; a scan of every room there is; the
  // removal of a user that the scan found listed.
  ghost predicate Begins(s: State, e: Event, c: ConnId, d: Debt) {
    && e.Act? && e.conn == c && c in s.sessions
    && match d
       case ToLeave(r) => e.section == BeginLeave(r) || (e.section.BeginJoin? && r in s.sessions[c].rooms)
       case ToEnter(r) => e.section == BeginJoin(r)
       case ToSweep(r) => e.section == Sweep && r in s.sessions[c].rooms
       case ToVisit(r) => e.section == Scan && r in s.rooms
       case ToRemove(r) => e.section == Visit(r) && Lists(s, r, s.sessions[c].user)
  }

  // Section x of session k does it. A room may refuse who is to enter.
  ghost predicate Does(k: Session, x: Section, d: Debt) {
    match d
    case ToLeave(r) => x == LeaveNext(r)
    case ToEnter(r) => k.reader == Inserting(r) && (x.Inserted? || x.Refused?)
    case ToSweep(r) => x == SweepNext(r)
    case ToVisit(r) => x == Visit(r)
    case ToRemove(r) => x == GhostNext(r)
  }

  // With this section c is past it: a leave or a join is over, the next frame is
  // begun, the scan is begun or over, the clean-up is over.
  predicate Past(x: Section, d: Debt) {
    match d
    case ToLeave(_) => x.LeaveDone? || x.Inserted? || x.BeginJoin? || x.BeginLeave?
    case ToEnter(_) => x.BeginJoin? || x.BeginLeave?
    case ToSweep(_) => x.Scan? || x.Finish?
    case ToVisit(_) => x.ScanDone? || x.Finish?
    case ToRemove(_) => x.Finish?
  }

  ghost predicate Owing(s: State, c: ConnId, d: Debt) {
    c in s.sessions && Owes(s.sessions[c], d)
  }

  // Event e is a section of c that does it.
  ghost predicate DoneBy(s: State, e: Event, c: ConnId, d: Debt) {
    e.Act? && e.conn == c && c in s.sessions && Does(s.sessions[c], e.section, d)
  }

  lemma BeginsOwing(s: State, e: Event, c: ConnId, d: Debt)
    requires Enabled(s, e) && Begins(s, e, c, d)
    ensures Owing(Step(s, e), c, d)
  {
  }

  lemma AdvanceOwes(m: set<RoomId>, k: Session, all: set<RoomId>, x: Section, d: Debt)
    requires Ready(m, k, all, x) && Owes(k, d) && !Does(k, x, d)
    ensures Owes(Advance(m, k, all, x), d)
  {
  }

  lemma StillOwes(s: State, e: Event, c: ConnId, d: Debt)
    requires Enabled(s, e) && Owing(s, c, d) && !DoneBy(s, e, c, d)
    ensures Owing(Step(s, e), c, d)
  {
    if e.Act? && e.conn == c {
      AdvanceOwes(In(s.rooms, s.sessions[c].user), s.sessions[c], s.rooms.Keys, e.section, d);
    }
  }

  lemma NotPast(s: State, c: ConnId, x: Section, d: Debt)
    requires Enabled(s, Act(c, x)) && Owes(s.sessions[c], d)
    ensures !Past(x, d)
  {
  }

  // A run, with the states it goes through.
  ghost predicate Run(limits: Presence.Limits, states: seq<State>, es: seq<Event>) {
    && |states| == |es| + 1 && states[0] == State(map[], map[], 0, limits)
    && (forall i :: 0 <= i < |es| ==> Enabled(states[i], es[i]) && states[i + 1] == Step(states[i], es[i]))
  }

  lemma {:induction false} RunReaches(limits: Presence.Limits, states: seq<State>, es: seq<Event>, i: nat)
    requires Run(limits, states, es) && i <= |es|
    ensures Reaches(limits, es[..i], states[i])
  {
    if i > 0 {
      RunReaches(limits, states, es, i - 1);
      assert es[..i][..i - 1] == es[..i - 1];
    }
  }

  lemma {:induction false} OwedUntilDone(limits: Presence.Limits, states: seq<State>, es: seq<Event>,
                                        i: nat, j: nat, c: ConnId, d: Debt)
    requires Run(limits, states, es) && i < j <= |es| && Begins(states[i], es[i], c, d)
    requires forall k :: i < k < j ==> !DoneBy(states[k], es[k], c, d)
    ensures Owing(states[j], c, d)
    decreases j
  {
    if i == j - 1 {
      BeginsOwing(states[i], es[i], c, d);
    } else {
      OwedUntilDone(limits, states, es, i, j - 1, c, d);
      StillOwes(states[j - 1], es[j - 1], c, d);
    }
  }

  // Whatever else happens meanwhile, between its begin and the point where the
  // connection is past it, it was done.
  lemma WhatIsBegunIsDone(limits: Presence.Limits, states: seq<State>, es: seq<Event>,
                          i: nat, j: nat, c: ConnId, d: Debt)
    requires Run(limits, states, es) && i < j < |es| && Begins(states[i], es[i], c, d)
    requires es[j].Act? && es[j].conn == c && Past(es[j].section, d)
    ensures exists k :: i < k < j && DoneBy(states[k], es[k], c, d)
  {
    if forall k :: i < k < j ==> !DoneBy(states[k], es[k], c, d) {
      OwedUntilDone(limits, states, es, i, j, c, d);
      NotPast(states[j], c, es[j].section, d);
    }
  }
}
