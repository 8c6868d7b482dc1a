// The registry at the granularity of its critical sections: every section is
// one step, any number of connections interleave, of one user or of several, and
// each connection has a reader routing frames and a closer cleaning up.

module LockSections {
  import opened Wrappers
  import Presence

  type ConnId = nat
  type UserId = string
  type RoomId = string

  // What the reader has still to do for the frame it is routing: leave the rooms
  // of `todo`, then perhaps join `target`.
  datatype Reader =
    | Idle
    | Leaving(todo: set<RoomId>, target: Option<RoomId>)
    | Dropping(room: RoomId, todo: set<RoomId>, target: Option<RoomId>)
    | Inserting(room: RoomId)
    | Adding(room: RoomId)

  // Where handleDisconnect is. Scanning holds the registry lock throughout.
  datatype Closer =
    | Open
    | Closing
    | Sweeping(todo: set<RoomId>)
    | SweepDropping(room: RoomId, todo: set<RoomId>)
    | Scanning(unvisited: set<RoomId>, ghosts: set<RoomId>)
    | Ghosting(todo: set<RoomId>)
    | GhostDropping(room: RoomId, todo: set<RoomId>)
    | Finished

  // One connection, logged in as `user`. `joins` and `leaves` count its successful
  // joins, and its Leave calls that removed the user; each of the latter announces
  // one departure. `leaked` holds rooms entered behind the back of its closer.
  datatype Session = Session(
    user: UserId,
    rooms: set<RoomId>,
    reader: Reader,
    closer: Closer,
    leaked: set<RoomId>,
    joins: map<RoomId, nat>,
    leaves: map<RoomId, nat>)

  function Newcomer(user: UserId): Session {
    Session(user, {}, Idle, Open, {}, map[], map[])
  }

  // One presence in a room, and the stays its join snapshot listed.
  datatype Stay = Stay(id: nat, snapshot: map<UserId, nat>)

  datatype Room = Room(name: string, members: map<UserId, Stay>)

  datatype State = State(
    rooms: map<RoomId, Room>,
    sessions: map<ConnId, Session>,
    nextStay: nat,
    limits: Presence.Limits)

  function Count(m: map<RoomId, nat>, r: RoomId): nat {
    if r in m then m[r] else 0
  }

  // ---------------------------------------------------------- one connection

  // The sections of one connection, over the set of rooms whose maps list it.
  // `all` are the rooms that exist.
  datatype Section =
    | BeginJoin(room: RoomId)
    | BeginLeave(room: RoomId)
    | LeaveNext(room: RoomId)
    | LeaveDrop
    | LeaveDone
    | Refused
    | Inserted
    | Added
    | Close
    | Sweep
    | SweepNext(room: RoomId)
    | SweepDrop
    | Scan
    | Visit(room: RoomId)
    | ScanDone
    | GhostNext(room: RoomId)
    | GhostDrop
    | Finish

  // Closed connections route no further frames; the one under way goes on.
  predicate Ready(m: set<RoomId>, k: Session, all: set<RoomId>, x: Section) {
    match x
    case BeginJoin(_) => k.reader.Idle? && k.closer.Open?
    case BeginLeave(r) => k.reader.Idle? && k.closer.Open? && r in all
    case LeaveNext(r) => k.reader.Leaving? && r in k.reader.todo
    case LeaveDrop => k.reader.Dropping?
    case LeaveDone => k.reader.Leaving? && k.reader.todo == {}
    case Refused => k.reader.Inserting?
    case Inserted => k.reader.Inserting? && k.reader.room in all
    case Added => k.reader.Adding?
    case Close => k.closer.Open?
    case Sweep => k.closer.Closing?
    case SweepNext(r) => k.closer.Sweeping? && r in k.closer.todo
    case SweepDrop => k.closer.SweepDropping?
    case Scan => k.closer.Sweeping? && k.closer.todo == {}
    case Visit(r) => k.closer.Scanning? && r in k.closer.unvisited
    case ScanDone => k.closer.Scanning? && k.closer.unvisited == {}
    case GhostNext(r) => k.closer.Ghosting? && r in k.closer.todo
    case GhostDrop => k.closer.GhostDropping?
    case Finish => k.closer.Ghosting? && k.closer.todo == {}
  }

  // The closer has passed r by: it will not take the user out of r any more.
  predicate Passed(c: Closer, r: RoomId) {
    match c
    case Scanning(unvisited, ghosts) => r !in unvisited && r !in ghosts
    case Ghosting(todo) => r !in todo
    case GhostDropping(_, todo) => r !in todo
    case Finished => true
    case _ => false
  }

  function Left(k: Session, r: RoomId): Session {
    k.(leaves := k.leaves[r := Count(k.leaves, r) + 1])
  }

  function Advance(m: set<RoomId>, k: Session, all: set<RoomId>, x: Section): Session
    requires Ready(m, k, all, x)
  {
    match x
    case BeginJoin(r) => k.(reader := Leaving(k.rooms, Some(r)))
    case BeginLeave(r) => k.(reader := Leaving({r}, None))
    case LeaveNext(r) =>
      var todo := k.reader.todo - {r};
      if r in m then Left(k, r).(reader := Dropping(r, todo, k.reader.target))
      else k.(reader := Leaving(todo, k.reader.target))
    case LeaveDrop => k.(rooms := k.rooms - {k.reader.room}, reader := Leaving(k.reader.todo, k.reader.target))
    case LeaveDone => k.(reader := if k.reader.target.Some? then Inserting(k.reader.target.value) else Idle)
    case Refused => k.(reader := Idle)
    case Inserted =>
      var r := k.reader.room;
      k.(reader := Adding(r), joins := k.joins[r := Count(k.joins, r) + 1],
         leaked := if Passed(k.closer, r) then k.leaked + {r} else k.leaked)
    case Added => k.(rooms := k.rooms + {k.reader.room}, reader := Idle)
    case Close => k.(closer := Closing)
    case Sweep => k.(closer := Sweeping(k.rooms))
    case SweepNext(r) =>
      var todo := k.closer.todo - {r};
      if r in m then Left(k, r).(closer := SweepDropping(r, todo)) else k.(closer := Sweeping(todo))
    case SweepDrop => k.(rooms := k.rooms - {k.closer.room}, closer := Sweeping(k.closer.todo))
    case Scan => k.(closer := Scanning(all, {}))
    case Visit(r) =>
      k.(closer := Scanning(k.closer.unvisited - {r}, k.closer.ghosts + if r in m then {r} else {}))
    case ScanDone => k.(closer := Ghosting(k.closer.ghosts))
    case GhostNext(r) =>
      var todo := k.closer.todo - {r};
      if r in m then Left(k, r).(closer := GhostDropping(r, todo)) else k.(closer := Ghosting(todo))
    case GhostDrop => k.(rooms := k.rooms - {k.closer.room}, closer := Ghosting(k.closer.todo))
    case Finish => k.(closer := Finished)
  }

  // The rooms listing the user afterwards.
  function Listed(m: set<RoomId>, k: Session, all: set<RoomId>, x: Section): set<RoomId>
    requires Ready(m, k, all, x)
  {
    match x
    case LeaveNext(r) => m - {r}
    case SweepNext(r) => m - {r}
    case GhostNext(r) => m - {r}
    case Inserted => m + {k.reader.room}
    case _ => m
  }

  ghost predicate ReaderOk(m: set<RoomId>, reader: Reader) {
    match reader
    case Leaving(todo, target) => target.Some? ==> m <= todo
    case Dropping(room, todo, target) => room !in m && (target.Some? ==> m <= todo)
    case Inserting(_) => m == {}
    case _ => true
  }

  ghost predicate CloserOk(m: set<RoomId>, k: Session) {
    && (forall r :: r in m ==> r in k.leaked || !Passed(k.closer, r))
    && (forall r :: r in k.leaked ==> r in m && Passed(k.closer, r))
    && (k.leaked != {} ==> k.reader.Idle? || k.reader.Adding?)
  }

  // There is one room at most, and until the connection closes its own set is the
  // rooms listing its user, but for the room that a section is still to drop or add.
  ghost predicate SetsOk(m: set<RoomId>, k: Session) {
    && (forall q, r :: q in m && r in m ==> q == r)
    && (k.closer.Open? ==>
          match k.reader
          case Dropping(room, _, _) => room in k.rooms && m == k.rooms - {room}
          case Adding(room) => m == k.rooms + {room}
          case _ => m == k.rooms)
  }

  ghost predicate SessionOk(m: set<RoomId>, k: Session) {
    && (forall r :: Count(k.joins, r) == Count(k.leaves, r) + if r in m then 1 else 0)
    && ReaderOk(m, k.reader)
    && CloserOk(m, k)
    && SetsOk(m, k)
  }

  // Each section keeps the four parts of SessionOk.
  lemma SectionCounts(m: set<RoomId>, k: Session, all: set<RoomId>, x: Section, r: RoomId)
    requires SessionOk(m, k) && Ready(m, k, all, x)
    ensures var v := Advance(m, k, all, x);
            Count(v.joins, r) == Count(v.leaves, r) + if r in Listed(m, k, all, x) then 1 else 0
  {
  }

  lemma SectionReader(m: set<RoomId>, k: Session, all: set<RoomId>, x: Section)
    requires SessionOk(m, k) && Ready(m, k, all, x)
    ensures ReaderOk(Listed(m, k, all, x), Advance(m, k, all, x).reader)
  {
  }

  lemma SectionCloser(m: set<RoomId>, k: Session, all: set<RoomId>, x: Section)
    requires SessionOk(m, k) && m <= all && Ready(m, k, all, x)
    ensures CloserOk(Listed(m, k, all, x), Advance(m, k, all, x))
  {
  }

  lemma SectionSets(m: set<RoomId>, k: Session, all: set<RoomId>, x: Section)
    requires SessionOk(m, k) && Ready(m, k, all, x)
    ensures SetsOk(Listed(m, k, all, x), Advance(m, k, all, x))
  {
  }

  lemma SectionOk(m: set<RoomId>, k: Session, all: set<RoomId>, x: Section)
    requires SessionOk(m, k) && m <= all && Ready(m, k, all, x)
    ensures SessionOk(Listed(m, k, all, x), Advance(m, k, all, x))
  {
    forall r ensures var v := Advance(m, k, all, x);
                     Count(v.joins, r) == Count(v.leaves, r) + if r in Listed(m, k, all, x) then 1 else 0 {
      SectionCounts(m, k, all, x, r);
    }
    SectionReader(m, k, all, x);
    SectionCloser(m, k, all, x);
    SectionSets(m, k, all, x);
  }

  // ------------------------------------------------------------- the system

  datatype Event =
    | Connect(conn: ConnId, user: UserId)
    | Create(id: RoomId, name: string)
    | Act(conn: ConnId, section: Section)

  // The rooms whose maps list u.
  function In(rooms: map<RoomId, Room>, u: UserId): set<RoomId> {
    set r | r in rooms && u in rooms[r].members
  }

  // A closer scanning for ghosts holds the registry's read lock throughout, so
  // no room is created meanwhile.
  ghost predicate Enabled(s: State, e: Event) {
    match e
    case Connect(c, _) => c !in s.sessions
    case Create(id, _) => id !in s.rooms && forall c :: c in s.sessions ==> !s.sessions[c].closer.Scanning?
    case Act(c, x) =>
      && c in s.sessions
      && Ready(In(s.rooms, s.sessions[c].user), s.sessions[c], s.rooms.Keys, x)
      && (x.Inserted? ==> HasSpace(s, s.sessions[c].reader.room))
      && (x.Refused? ==> !HasSpace(s, s.sessions[c].reader.room))
  }

  predicate HasSpace(s: State, r: RoomId) {
    r in s.rooms && |s.rooms[r].members| < s.limits.maxRoomSize
  }

  predicate Taken(rooms: map<RoomId, Room>, name: string, fold: char -> char) {
    exists r :: r in rooms && Presence.EqualFold(rooms[r].name, name, fold)
  }

  function Removed(rooms: map<RoomId, Room>, r: RoomId, u: UserId): map<RoomId, Room> {
    if r in rooms then rooms[r := rooms[r].(members := rooms[r].members - {u})] else rooms
  }

  function Entered(rooms: map<RoomId, Room>, r: RoomId, u: UserId, id: nat): map<RoomId, Room>
    requires r in rooms
  {
    var snapshot := map v | v in rooms[r].members :: rooms[r].members[v].id;
    rooms[r := rooms[r].(members := rooms[r].members[u := Stay(id, snapshot)])]
  }

  // A section goes by user where it touches a room.
  function RoomsAfter(rooms: map<RoomId, Room>, k: Session, x: Section, next: nat): map<RoomId, Room>
    requires x.Inserted? ==> k.reader.Inserting? && k.reader.room in rooms
  {
    match x
    case LeaveNext(r) => Removed(rooms, r, k.user)
    case SweepNext(r) => Removed(rooms, r, k.user)
    case GhostNext(r) => Removed(rooms, r, k.user)
    case Inserted => Entered(rooms, k.reader.room, k.user, next)
    case _ => rooms
  }

  ghost function Step(s: State, e: Event): State
    requires Enabled(s, e)
  {
    match e
    case Connect(c, u) => s.(sessions := s.sessions[c := Newcomer(u)])
    case Create(id, raw) =>
      var name := Presence.TrimSpace(raw);
      if 0 < |name| <= Presence.MAX_ROOM_NAME && |s.rooms| < s.limits.maxRooms && !Taken(s.rooms, name, s.limits.fold)
      then s.(rooms := s.rooms[id := Room(name, map[])])
      else s
    case Act(c, x) =>
      var k := s.sessions[c];
      s.(sessions := s.sessions[c := Advance(In(s.rooms, k.user), k, s.rooms.Keys, x)],
         rooms := RoomsAfter(s.rooms, k, x, s.nextStay),
         nextStay := s.nextStay + if x.Inserted? then 1 else 0)
  }

  // --------------------------------------------------------------- invariant

  // c is the only connection its user ever had.
  ghost predicate Only(s: State, c: ConnId)
    requires c in s.sessions
  {
    forall d :: d in s.sessions && s.sessions[d].user == s.sessions[c].user ==> d == c
  }

  ghost predicate HasSession(s: State, u: UserId) {
    exists c :: c in s.sessions && s.sessions[c].user == u
  }

  ghost predicate SessionsOk(s: State) {
    && (forall c :: c in s.sessions && Only(s, c) ==> SessionOk(In(s.rooms, s.sessions[c].user), s.sessions[c]))
    && (forall r, u :: r in s.rooms && u in s.rooms[r].members ==> HasSession(s, u))
  }

  ghost predicate SizesOk(rooms: map<RoomId, Room>, limits: Presence.Limits) {
    forall r :: r in rooms ==>
      && |rooms[r].members| <= limits.maxRoomSize
      && 0 < |rooms[r].name| <= Presence.MAX_ROOM_NAME
  }

  ghost predicate NamesDiffer(rooms: map<RoomId, Room>, fold: char -> char) {
    forall q, r :: q in rooms && r in rooms && q != r ==> !Presence.EqualFold(rooms[q].name, rooms[r].name, fold)
  }

  // The caps, and names unique up to case.
  ghost predicate Bounded(s: State) {
    && |s.rooms| <= s.limits.maxRooms
    && SizesOk(s.rooms, s.limits)
    && NamesDiffer(s.rooms, s.limits.fold)
  }

  // The join snapshot of `later` lists the very stay `earlier` of u.
  predicate ListsStay(later: Stay, u: UserId, earlier: Stay) {
    u in later.snapshot && later.snapshot[u] == earlier.id
  }

  ghost predicate StaysOk(members: map<UserId, Stay>, next: nat) {
    && (forall u :: u in members ==>
          && members[u].id < next
          && (forall v :: v in members[u].snapshot ==> members[u].snapshot[v] < members[u].id))
    && (forall u, v :: u in members && v in members && u != v ==>
          && members[u].id != members[v].id
          && (members[u].id < members[v].id ==> ListsStay(members[v], u, members[u])))
  }

  ghost predicate AllStaysOk(rooms: map<RoomId, Room>, next: nat) {
    forall r :: r in rooms ==> StaysOk(rooms[r].members, next)
  }

  ghost predicate Inv(s: State) {
    SessionsOk(s) && Bounded(s) && AllStaysOk(s.rooms, s.nextStay)
  }

  // What a section does to the rooms: only the acting user's entries move.
  lemma RoomsMoved(rooms: map<RoomId, Room>, k: Session, x: Section, next: nat)
    requires Ready(In(rooms, k.user), k, rooms.Keys, x)
    ensures var after := RoomsAfter(rooms, k, x, next);
            && after.Keys == rooms.Keys
            && In(after, k.user) == Listed(In(rooms, k.user), k, rooms.Keys, x)
            && (forall v :: v != k.user ==> In(after, v) == In(rooms, v))
  {
  }

  // Sessions keep their users.
  lemma OnlyBefore(s: State, e: Event, d: ConnId)
    requires Enabled(s, e) && d in s.sessions && d in Step(s, e).sessions && Only(Step(s, e), d)
    ensures Only(s, d) && Step(s, e).sessions[d].user == s.sessions[d].user
  {
    assert forall c :: c in s.sessions ==> c in Step(s, e).sessions && Step(s, e).sessions[c].user == s.sessions[c].user;
  }

  lemma HasSessionStill(s: State, e: Event, u: UserId)
    requires Enabled(s, e) && HasSession(s, u)
    ensures HasSession(Step(s, e), u)
  {
    var c :| c in s.sessions && s.sessions[c].user == u;
    assert c in Step(s, e).sessions && Step(s, e).sessions[c].user == u;
  }

  lemma CreateSessions(s: State, e: Event)
    requires SessionsOk(s) && Enabled(s, e) && e.Create?
    ensures SessionsOk(Step(s, e))
  {
    var t := Step(s, e);
    assert forall u :: In(t.rooms, u) == In(s.rooms, u);
    forall d | d in t.sessions && Only(t, d) ensures SessionOk(In(t.rooms, t.sessions[d].user), t.sessions[d]) {
      OnlyBefore(s, e, d);
    }
    forall r, u | r in t.rooms && u in t.rooms[r].members ensures HasSession(t, u) {
      HasSessionStill(s, e, u);
    }
  }

  lemma ConnectSessions(s: State, c: ConnId, u: UserId)
    requires SessionsOk(s) && Enabled(s, Connect(c, u))
    ensures SessionsOk(Step(s, Connect(c, u)))
  {
    var t := Step(s, Connect(c, u));
    forall d | d in t.sessions && Only(t, d) ensures SessionOk(In(t.rooms, t.sessions[d].user), t.sessions[d]) {
      if d == c {
        assert forall e :: e in s.sessions ==> e in t.sessions && t.sessions[e] == s.sessions[e];
        assert !HasSession(s, u);
        assert In(s.rooms, u) == {};
      } else {
        OnlyBefore(s, Connect(c, u), d);
      }
    }
    forall r, v | r in t.rooms && v in t.rooms[r].members ensures HasSession(t, v) {
      HasSessionStill(s, Connect(c, u), v);
    }
  }

  lemma ActSessions(s: State, c: ConnId, x: Section)
    requires SessionsOk(s) && Enabled(s, Act(c, x))
    ensures SessionsOk(Step(s, Act(c, x)))
  {
    var t := Step(s, Act(c, x));
    var k := s.sessions[c];
    RoomsMoved(s.rooms, k, x, s.nextStay);
    assert t.sessions == s.sessions[c := Advance(In(s.rooms, k.user), k, s.rooms.Keys, x)];
    forall d | d in t.sessions && Only(t, d) ensures SessionOk(In(t.rooms, t.sessions[d].user), t.sessions[d]) {
      OnlyBefore(s, Act(c, x), d);
      if d == c {
        SectionOk(In(s.rooms, k.user), k, s.rooms.Keys, x);
      } else {
        assert s.sessions[d].user != k.user;
      }
    }
    forall r, v | r in t.rooms && v in t.rooms[r].members ensures HasSession(t, v) {
      assert v != k.user ==> r in In(t.rooms, v);
      assert HasSession(s, v);
      HasSessionStill(s, Act(c, x), v);
    }
  }

  lemma SessionsStep(s: State, e: Event)
    requires SessionsOk(s) && Enabled(s, e)
    ensures SessionsOk(Step(s, e))
  {
    match e
    case Connect(c, u) => ConnectSessions(s, c, u);
    case Create(_, _) => CreateSessions(s, e);
    case Act(c, x) => ActSessions(s, c, x);
  }

  lemma NamesKept(rooms: map<RoomId, Room>, after: map<RoomId, Room>, fold: char -> char)
    requires NamesDiffer(rooms, fold) && after.Keys == rooms.Keys
    requires forall r :: r in rooms ==> after[r].name == rooms[r].name
    ensures NamesDiffer(after, fold)
  {
  }

  lemma RemovedSmaller(rooms: map<RoomId, Room>, r: RoomId, u: UserId, limits: Presence.Limits)
    requires SizesOk(rooms, limits)
    ensures SizesOk(Removed(rooms, r, u), limits)
  {
    if r in rooms {
      assert (rooms[r].members - {u}).Keys <= rooms[r].members.Keys;
    }
  }

  lemma EnteredFits(s: State, r: RoomId, u: UserId)
    requires SizesOk(s.rooms, s.limits) && HasSpace(s, r)
    ensures SizesOk(Entered(s.rooms, r, u, s.nextStay), s.limits)
  {
  }

  lemma CreateBounded(s: State, e: Event)
    requires Bounded(s) && Enabled(s, e) && e.Create?
    ensures Bounded(Step(s, e))
  {
  }

  lemma RoomsStay(rooms: map<RoomId, Room>, k: Session, x: Section, next: nat)
    requires x.Inserted? ==> k.reader.Inserting? && k.reader.room in rooms
    ensures var after := RoomsAfter(rooms, k, x, next);
            after.Keys == rooms.Keys && |after| == |rooms| && forall r :: r in rooms ==> after[r].name == rooms[r].name
  {
    var after := RoomsAfter(rooms, k, x, next);
    assert after.Keys == rooms.Keys;
    assert |after| == |after.Keys| && |rooms| == |rooms.Keys|;
  }

  lemma ActSizes(s: State, k: Session, x: Section)
    requires SizesOk(s.rooms, s.limits) && (x.Inserted? ==> k.reader.Inserting? && HasSpace(s, k.reader.room))
    ensures SizesOk(RoomsAfter(s.rooms, k, x, s.nextStay), s.limits)
  {
    if x.LeaveNext? || x.SweepNext? || x.GhostNext? {
      RemovedSmaller(s.rooms, x.room, k.user, s.limits);
    } else if x.Inserted? {
      EnteredFits(s, k.reader.room, k.user);
    }
  }

  lemma ActBounded(s: State, k: Session, x: Section)
    requires Bounded(s) && (x.Inserted? ==> k.reader.Inserting? && HasSpace(s, k.reader.room))
    ensures Bounded(s.(rooms := RoomsAfter(s.rooms, k, x, s.nextStay)))
  {
    RoomsStay(s.rooms, k, x, s.nextStay);
    NamesKept(s.rooms, RoomsAfter(s.rooms, k, x, s.nextStay), s.limits.fold);
    ActSizes(s, k, x);
  }

  lemma BoundedStep(s: State, e: Event)
    requires Bounded(s) && Enabled(s, e)
    ensures Bounded(Step(s, e))
  {
    if e.Create? {
      CreateBounded(s, e);
    } else if e.Act? {
      ActBounded(s, s.sessions[e.conn], e.section);
    }
  }

  lemma RemovedStays(rooms: map<RoomId, Room>, r: RoomId, u: UserId, next: nat)
    requires AllStaysOk(rooms, next)
    ensures AllStaysOk(Removed(rooms, r, u), next)
  {
  }

  // The newcomer's stay has the highest number and lists all the others; it
  // takes the place of any stay of the same user.
  lemma NewestStay(rooms: map<RoomId, Room>, r: RoomId, u: UserId, next: nat)
    requires r in rooms && StaysOk(rooms[r].members, next)
    ensures StaysOk(Entered(rooms, r, u, next)[r].members, next + 1)
  {
  }

  lemma StaysLater(members: map<UserId, Stay>, next: nat)
    requires StaysOk(members, next)
    ensures StaysOk(members, next + 1)
  {
  }

  lemma EnteredStays(rooms: map<RoomId, Room>, r: RoomId, u: UserId, next: nat)
    requires AllStaysOk(rooms, next) && r in rooms
    ensures AllStaysOk(Entered(rooms, r, u, next), next + 1)
  {
    NewestStay(rooms, r, u, next);
    forall q | q in rooms ensures StaysOk(rooms[q].members, next + 1) {
      StaysLater(rooms[q].members, next);
    }
  }

  lemma CreateStays(s: State, e: Event)
    requires AllStaysOk(s.rooms, s.nextStay) && Enabled(s, e) && e.Create?
    ensures AllStaysOk(Step(s, e).rooms, Step(s, e).nextStay)
  {
  }

  lemma ActStays(rooms: map<RoomId, Room>, k: Session, x: Section, next: nat)
    requires AllStaysOk(rooms, next) && (x.Inserted? ==> k.reader.Inserting? && k.reader.room in rooms)
    ensures AllStaysOk(RoomsAfter(rooms, k, x, next), next + if x.Inserted? then 1 else 0)
  {
    if x.LeaveNext? || x.SweepNext? || x.GhostNext? {
      RemovedStays(rooms, x.room, k.user, next);
    } else if x.Inserted? {
      EnteredStays(rooms, k.reader.room, k.user, next);
    }
  }

  lemma StaysStep(s: State, e: Event)
    requires AllStaysOk(s.rooms, s.nextStay) && Enabled(s, e)
    ensures AllStaysOk(Step(s, e).rooms, Step(s, e).nextStay)
  {
    if e.Create? {
      CreateStays(s, e);
    } else if e.Act? {
      ActStays(s.rooms, s.sessions[e.conn], e.section, s.nextStay);
    }
  }

  // -------------------------------------------------------------------- runs

  // The state after any allowed interleaving of events, from an empty registry.
  ghost predicate Allowed(limits: Presence.Limits, es: seq<Event>)
    decreases |es|, 0
  {
    es == [] || (Allowed(limits, es[..|es| - 1]) && Enabled(After(limits, es[..|es| - 1]), es[|es| - 1]))
  }

  ghost function After(limits: Presence.Limits, es: seq<Event>): State
    requires Allowed(limits, es)
    decreases |es|, 1
  {
    if es == [] then State(map[], map[], 0, limits)
    else Step(After(limits, es[..|es| - 1]), es[|es| - 1])
  }

  ghost predicate Reaches(limits: Presence.Limits, es: seq<Event>, s: State) {
    Allowed(limits, es) && After(limits, es) == s
  }

  lemma {:induction false} RunOk(limits: Presence.Limits, es: seq<Event>)
    requires Allowed(limits, es)
    ensures Inv(After(limits, es)) && After(limits, es).limits == limits
  {
    if es != [] {
      var s := After(limits, es[..|es| - 1]);
      RunOk(limits, es[..|es| - 1]);
      SessionsStep(s, es[|es| - 1]);
      BoundedStep(s, es[|es| - 1]);
      StaysStep(s, es[|es| - 1]);
    }
  }

  // Caps and case-insensitive uniqueness of names hold however sections interleave,
  // of one connection for each user or of many.
  lemma CapacityAndNames(limits: Presence.Limits, es: seq<Event>, s: State)
    requires Reaches(limits, es, s)
    ensures |s.rooms| <= limits.maxRooms
    ensures forall r :: r in s.rooms ==> |s.rooms[r].members| <= limits.maxRoomSize
    ensures forall r :: r in s.rooms ==> 0 < |s.rooms[r].name| <= 50
    ensures forall q, r :: q in s.rooms && r in s.rooms && q != r ==>
              var a, b := s.rooms[q].name, s.rooms[r].name;
              |a| != |b| || exists i :: 0 <= i < |a| && limits.fold(a[i]) != limits.fold(b[i])
  {
    RunOk(limits, es);
    forall q, r | q in s.rooms && r in s.rooms && q != r
      ensures !Presence.SameName(s.rooms[q].name, s.rooms[r].name, limits.fold)
    {
      Presence.EqualFoldMeans(s.rooms[q].name, s.rooms[r].name, limits.fold);
    }
  }

  ghost predicate Lists(s: State, r: RoomId, u: UserId) {
    r in s.rooms && u in s.rooms[r].members
  }

  // For a user with one connection: between frames, and until it closes, the
  // connection's own set is exactly the rooms that list the user, one at most.
  lemma SetsAgree(limits: Presence.Limits, es: seq<Event>, s: State, c: ConnId, r: RoomId)
    requires Reaches(limits, es, s) && c in s.sessions && Only(s, c)
    requires s.sessions[c].reader.Idle? && s.sessions[c].closer.Open?
    ensures Lists(s, r, s.sessions[c].user) <==> r in s.sessions[c].rooms
    ensures r in s.sessions[c].rooms ==> s.sessions[c].rooms == {r}
  {
    RunOk(limits, es);
    assert SessionOk(In(s.rooms, s.sessions[c].user), s.sessions[c]);
  }

  // For a user with one connection, joins minus removals is 1 for a member and 0
  // otherwise: however a leave, a sweep and a ghost removal race, each stay ends in
  // exactly one departure notice.
  lemma Conservation(limits: Presence.Limits, es: seq<Event>, s: State, c: ConnId, r: RoomId)
    requires Reaches(limits, es, s) && c in s.sessions && Only(s, c)
    ensures var k := s.sessions[c];
            Count(k.joins, r) - Count(k.leaves, r) == if Lists(s, r, k.user) then 1 else 0
  {
    RunOk(limits, es);
    assert SessionOk(In(s.rooms, s.sessions[c].user), s.sessions[c]);
  }

  // Of two current members, the earlier stay is in the later one's snapshot and
  // not the other way round: exactly one side is told to initiate.
  lemma OneInitiator(limits: Presence.Limits, es: seq<Event>, s: State, r: RoomId, u: UserId, v: UserId)
    requires Reaches(limits, es, s) && Lists(s, r, u) && Lists(s, r, v) && u != v
    ensures var m := s.rooms[r].members;
            && (ListsStay(m[v], u, m[u]) <==> m[u].id < m[v].id)
            && (ListsStay(m[u], v, m[v]) <==> !ListsStay(m[v], u, m[u]))
  {
    RunOk(limits, es);
  }

  // ----------------------------------------------------------- ghost cleanup

  // Event e inserts the user of d into r, through any connection of theirs, although
  // the ghost scan of d is past r: it has visited r in vain, or dealt with it.
  ghost predicate LateStep(s: State, e: Event, d: ConnId, r: RoomId) {
    && d in s.sessions && e.Act? && e.conn in s.sessions && s.sessions[e.conn].user == s.sessions[d].user
    && e.section == Inserted && s.sessions[e.conn].reader == Inserting(r) && Passed(s.sessions[d].closer, r)
  }

  ghost predicate Late(limits: Presence.Limits, before: seq<Event>, e: Event, d: ConnId, r: RoomId) {
    Allowed(limits, before) && LateStep(After(limits, before), e, d, r)
  }

  // The scan of d is past r, and r lists the user all the same.
  ghost predicate Stale(s: State, d: ConnId, r: RoomId) {
    d in s.sessions && Passed(s.sessions[d].closer, r) && Lists(s, r, s.sessions[d].user)
  }

  lemma StepStale(s: State, e: Event, d: ConnId, r: RoomId)
    requires Enabled(s, e) && Stale(Step(s, e), d, r)
    ensures Stale(s, d, r) || LateStep(s, e, d, r)
  {
    if e.Act? {
      var t := Step(s, e);
      RoomsMoved(s.rooms, s.sessions[e.conn], e.section, s.nextStay);
      assert r in In(t.rooms, t.sessions[d].user);
    }
  }

  // An insertion before the scan's visit is undone: whoever is still listed in a
  // room their disconnect has passed was inserted there afterwards, whatever the
  // user's other connections and other users do.
  lemma {:induction false} GhostCleanup(limits: Presence.Limits, es: seq<Event>, s: State, d: ConnId, r: RoomId)
    requires Reaches(limits, es, s) && Stale(s, d, r)
    ensures exists i :: 0 <= i < |es| && Late(limits, es[..i], es[i], d, r)
    decreases |es|
  {
    if es != [] {
      var n := |es| - 1;
      var before := After(limits, es[..n]);
      StepStale(before, es[n], d, r);
      if Stale(before, d, r) {
        GhostCleanup(limits, es[..n], before, d, r);
        assert forall i :: 0 <= i < n ==> es[..n][..i] == es[..i] && es[..n][i] == es[i];
      } else {
        assert Late(limits, es[..n], es[n], d, r);
      }
    }
  }

  lemma StepLeaked(s: State, e: Event, c: ConnId, r: RoomId)
    requires Enabled(s, e) && c in Step(s, e).sessions && Only(Step(s, e), c)
    ensures c in s.sessions ==> Only(s, c)
    ensures var was := c in s.sessions && r in s.sessions[c].leaked;
            r in Step(s, e).sessions[c].leaked <==> was || LateStep(s, e, c, r)
  {
    if c in s.sessions {
      OnlyBefore(s, e, c);
    }
  }

  lemma SessionStill(s: State, e: Event, c: ConnId)
    requires Enabled(s, e) && c in s.sessions
    ensures c in Step(s, e).sessions
  {
  }

  lemma {:induction false} SessionsStay(limits: Presence.Limits, es: seq<Event>, i: nat, c: ConnId)
    requires Allowed(limits, es) && i <= |es| && Allowed(limits, es[..i]) && c in After(limits, es[..i]).sessions
    ensures c in After(limits, es).sessions
    decreases |es|
  {
    if i < |es| {
      var n := |es| - 1;
      assert es[..n][..i] == es[..i];
      SessionsStay(limits, es[..n], i, c);
      SessionStill(After(limits, es[..n]), es[n], c);
    } else {
      assert es[..i] == es;
    }
  }

  lemma {:induction false} LeakedIffLate(limits: Presence.Limits, es: seq<Event>, c: ConnId, r: RoomId)
    requires Allowed(limits, es) && c in After(limits, es).sessions && Only(After(limits, es), c)
    ensures r in After(limits, es).sessions[c].leaked <==> exists i :: 0 <= i < |es| && Late(limits, es[..i], es[i], c, r)
    decreases |es|
  {
    if es != [] {
      var n := |es| - 1;
      var before := es[..n];
      var s := After(limits, before);
      StepLeaked(s, es[n], c, r);
      assert forall i :: 0 <= i < n ==> before[..i] == es[..i] && before[i] == es[i];
      if c in s.sessions {
        LeakedIffLate(limits, before, c, r);
      } else {
        forall i | 0 <= i < n ensures !Late(limits, es[..i], es[i], c, r) {
          if Late(limits, es[..i], es[i], c, r) {
            SessionsStay(limits, before, i, c);
          }
        }
      }
    }
  }

  // For a user with one connection: once its disconnect is done, the user is left
  // in a room exactly if it was inserted there behind the ghost scan.
  lemma GhostsExactly(limits: Presence.Limits, es: seq<Event>, s: State, c: ConnId, r: RoomId)
    requires Reaches(limits, es, s) && c in s.sessions && Only(s, c) && s.sessions[c].closer.Finished?
    ensures Lists(s, r, s.sessions[c].user) <==> exists i :: 0 <= i < |es| && Late(limits, es[..i], es[i], c, r)
  {
    RunOk(limits, es);
    FinishedListed(s, c, r);
    LeakedIffLate(limits, es, c, r);
  }

  lemma FinishedListed(s: State, c: ConnId, r: RoomId)
    requires SessionsOk(s) && c in s.sessions && Only(s, c) && s.sessions[c].closer.Finished?
    ensures Lists(s, r, s.sessions[c].user) <==> r in s.sessions[c].leaked
  {
    var m := In(s.rooms, s.sessions[c].user);
    assert CloserOk(m, s.sessions[c]) && (Lists(s, r, s.sessions[c].user) <==> r in m);
  }

  lemma Extend(limits: Presence.Limits, es: seq<Event>, e: Event)
    requires Allowed(limits, es) && Enabled(After(limits, es), e)
    ensures Allowed(limits, es + [e]) && After(limits, es + [e]) == Step(After(limits, es), e)
  {
    assert (es + [e])[..|es + [e]| - 1] == es;
  }

  // One connection, alone with an empty room.
  ghost predicate Alone(limits: Presence.Limits, es: seq<Event>, k: Session) {
    Allowed(limits, es) && k.user == "u" &&
    After(limits, es) == State(map["r" := Room("a", map[])], map[0 := k], 0, limits)
  }

  lemma AloneStep(limits: Presence.Limits, es: seq<Event>, k: Session, x: Section)
    requires Alone(limits, es, k) && Ready({}, k, {"r"}, x) && !x.Inserted? && !x.Refused?
    ensures Alone(limits, es + [Act(0, x)], Advance({}, k, {"r"}, x))
  {
    var s := After(limits, es);
    assert In(s.rooms, "u") == {} && s.rooms.Keys == {"r"};
    Extend(limits, es, Act(0, x));
    assert s.rooms["r"].members - {"u"} == map[];
    assert Removed(s.rooms, "r", "u") == s.rooms;
  }

  lemma AloneStart(limits: Presence.Limits) returns (es: seq<Event>)
    requires limits.maxRooms > 0
    ensures Alone(limits, es, Newcomer("u"))
  {
    assert Presence.TrimSpace("a") == "a";
    Extend(limits, [], Connect(0, "u"));
    es := [] + [Connect(0, "u")];
    Extend(limits, es, Create("r", "a"));
    es := es + [Create("r", "a")];
  }

  // The frame being routed has got to the point of entering the room.
  lemma AloneInserting(limits: Presence.Limits) returns (es: seq<Event>)
    requires limits.maxRooms > 0
    ensures Alone(limits, es, Newcomer("u").(reader := Inserting("r")))
  {
    es := AloneStart(limits);
    var k := Newcomer("u");
    AloneStep(limits, es, k, BeginJoin("r"));
    AloneStep(limits, es + [Act(0, BeginJoin("r"))], k.(reader := Leaving({}, Some("r"))), LeaveDone);
    es := es + [Act(0, BeginJoin("r"))] + [Act(0, LeaveDone)];
  }

  lemma AloneScanned(limits: Presence.Limits) returns (es: seq<Event>)
    requires limits.maxRooms > 0
    ensures Alone(limits, es, Newcomer("u").(reader := Inserting("r"), closer := Finished))
  {
    es := AloneInserting(limits);
    var k := Newcomer("u").(reader := Inserting("r"));
    AloneStep(limits, es, k, Close);
    es := es + [Act(0, Close)];
    AloneStep(limits, es, k.(closer := Closing), Sweep);
    es := es + [Act(0, Sweep)];
    AloneStep(limits, es, k.(closer := Sweeping({})), Scan);
    es := es + [Act(0, Scan)];
    AloneStep(limits, es, k.(closer := Scanning({"r"}, {})), Visit("r"));
    es := es + [Act(0, Visit("r"))];
    assert {"r"} - {"r"} == {};
    AloneStep(limits, es, k.(closer := Scanning({}, {})), ScanDone);
    es := es + [Act(0, ScanDone)];
    AloneStep(limits, es, k.(closer := Ghosting({})), Finish);
    es := es + [Act(0, Finish)];
  }

  // Such a leak can happen: a frame still being routed while the connection
  // closes may insert the user after the scan has visited the room.
  lemma LeakHappens(limits: Presence.Limits) returns (es: seq<Event>, s: State, c: ConnId, r: RoomId)
    requires limits.maxRooms > 0 && limits.maxRoomSize > 0
    ensures Reaches(limits, es, s) && c in s.sessions && s.sessions[c].closer.Finished?
    ensures Lists(s, r, s.sessions[c].user)
  {
    var before := AloneScanned(limits);
    c, r := 0, "r";
    assert In(After(limits, before).rooms, "u") == {};
    Extend(limits, before, Act(c, Inserted));
    es := before + [Act(c, Inserted)];
    s := After(limits, es);
  }
}
