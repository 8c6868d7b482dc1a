// Blocking: goroutines that run the hub's handlers and connection clean-ups,
// under Go's read-write locks, whose waiting writers hold up new readers, and
// under the sync.Once of each connection.

module Deadlock {
  import opened Wrappers

  type ConnId = nat
  type RoomId = string

  // Once is held by the goroutine running the clean-up of that connection.
  datatype Lock =
    | Once(conn: ConnId)
    | Registry
    | RoomMu(room: RoomId)
    | RoomsMu(conn: ConnId)
    | MessageMu(conn: ConnId)

  // The order in which nested locks are taken.
  function Rank(l: Lock): nat {
    match l
    case Once(_) => 0
    case Registry => 1
    case RoomMu(_) => 2
    case RoomsMu(_) => 3
    case MessageMu(_) => 3
  }

  datatype Op =
    | Acquire(lock: Lock)
    | Release(lock: Lock)
    | AcquireRead(lock: Lock)
    | ReleaseRead(lock: Lock)
    | DoOnce(conn: ConnId)
    | EndOnce(conn: ConnId)
    | TrySend
    | GoClose(conn: ConnId)

  // ------------------------------------------------------------ the programs

  // What the hub's code is made of: a critical section, the sweep of all rooms
  // under the registry's read lock, a push, and an eviction.
  datatype Block =
    | Write(lock: Lock)
    | Read(lock: Lock)
    | SweepRooms(rooms: seq<RoomId>)
    | Push
    | Evict(conn: ConnId)

  function ReadEach(rooms: seq<RoomId>): seq<Op> {
    if rooms == [] then [] else [AcquireRead(RoomMu(rooms[0])), ReleaseRead(RoomMu(rooms[0]))] + ReadEach(rooms[1..])
  }

  function BlockOps(b: Block): seq<Op> {
    match b
    case Write(l) => [Acquire(l), Release(l)]
    case Read(l) => [AcquireRead(l), ReleaseRead(l)]
    case SweepRooms(rooms) => [AcquireRead(Registry)] + ReadEach(rooms) + [ReleaseRead(Registry)]
    case Push => [TrySend]
    case Evict(c) => [GoClose(c)]
  }

  function Ops(p: seq<Block>): seq<Op> {
    if p == [] then [] else BlockOps(p[0]) + Ops(p[1..])
  }

  function Pushes(n: nat): (p: seq<Block>)
    ensures NoOnces(p)
  {
    seq(n, _ => Push)
  }

  // Blocks leave each Once to close.
  ghost predicate NoOnce(b: Block) {
    (b.Write? || b.Read?) ==> !b.lock.Once?
  }

  ghost predicate NoOnces(p: seq<Block>) {
    forall b :: b in p ==> NoOnce(b)
  }

  // A room visited by a loop over rooms, whether its map listed the user, and
  // how many members a push to it reaches.
  datatype Visit = Visit(room: RoomId, listed: bool, reached: nat)

  function BroadcastRoomList(rooms: seq<RoomId>, others: nat): (p: seq<Block>)
    ensures NoOnces(p)
  {
    [SweepRooms(rooms), Read(Registry)] + Pushes(others)
  }

  function Leave(c: ConnId, v: Visit): (p: seq<Block>)
    ensures NoOnces(p)
  {
    [Write(RoomMu(v.room))] + if v.listed then [Write(RoomsMu(c))] + Pushes(v.reached) else []
  }

  function LeaveEach(c: ConnId, visits: seq<Visit>): (p: seq<Block>)
    ensures NoOnces(p)
  {
    if visits == [] then [] else Leave(c, visits[0]) + LeaveEach(c, visits[1..])
  }

  function RoomsOf(c: ConnId): (p: seq<Block>)
    ensures NoOnces(p)
  {
    [Read(RoomsMu(c)), Read(Registry)]
  }

  function BroadcastEach(visits: seq<Visit>): (p: seq<Block>)
    ensures NoOnces(p)
  {
    if visits == [] then [] else [Read(RoomMu(visits[0].room))] + Pushes(visits[0].reached) + BroadcastEach(visits[1..])
  }

  function PeekEach(rooms: seq<RoomId>): (p: seq<Block>)
    ensures NoOnces(p)
  {
    if rooms == [] then [] else [Read(RoomMu(rooms[0]))] + PeekEach(rooms[1..])
  }

  // The lengths and choices that depend on the state are left open: `rooms` and
  // `others` feed the room-list broadcast, `visits` and `ghosts` the leave loops.
  datatype Handler =
    | Authenticate(evicted: Option<ConnId>)
    | ListRooms(rooms: seq<RoomId>)
    | CreateRoom(created: bool, rooms: seq<RoomId>, others: nat)
    | JoinRoom(conn: ConnId, visits: seq<Visit>, room: Option<RoomId>, joined: bool, existing: nat,
               rooms: seq<RoomId>, others: nat)
    | LeaveRoom(conn: ConnId, found: Option<Visit>, rooms: seq<RoomId>, others: nat)
    | Text(conn: ConnId, room: Option<RoomId>, member: bool, allowed: bool, stored: bool, reached: nat)
    | Signal(conn: ConnId, connected: bool, looked: seq<RoomId>, relayed: bool)
    | VideoStopped(conn: ConnId, visits: seq<Visit>)
    | Upload(connected: bool, room: Option<RoomId>, member: bool, stored: bool, reached: nat)
    | ReportError
    | ClosePump(conn: ConnId)

  datatype Cleanup = Cleanup(visits: seq<Visit>, rooms: seq<RoomId>, ghosts: seq<Visit>, others: nat)

  // The blocks of a handler; ClosePump has none, it only calls close.
  function Blocks(h: Handler): seq<Block> {
    match h
    case Authenticate(prior) => [Write(Registry)] + (if prior.Some? then [Evict(prior.value)] else []) + [Push]
    case ListRooms(rooms) => [SweepRooms(rooms), Push]
    case CreateRoom(created, rooms, others) =>
      [Write(Registry), Push] + if created then BroadcastRoomList(rooms, others) else []
    case JoinRoom(c, visits, room, joined, existing, rooms, others) =>
      RoomsOf(c) + LeaveEach(c, visits) + [Read(Registry)] +
      (if room == None then [Push]
       else if !joined then [Write(RoomMu(room.value)), Push]
       else [Write(RoomMu(room.value)), Write(RoomsMu(c)), Push] + Pushes(existing) + BroadcastRoomList(rooms, others))
    case LeaveRoom(c, found, rooms, others) =>
      [Read(Registry)] +
      (if found == None then []
       else Leave(c, found.value) + if found.value.listed then [Push] + BroadcastRoomList(rooms, others) else [])
    case Text(c, room, member, allowed, stored, reached) =>
      [Read(Registry)] +
      (if room == None then [Push]
       else if !member then [Read(RoomMu(room.value)), Push]
       else [Read(RoomMu(room.value)), Write(MessageMu(c))] +
            if !allowed then [] else if !stored then [Push] else [Read(RoomMu(room.value))] + Pushes(reached))
    case Signal(c, connected, looked, relayed) =>
      [Read(Registry)] +
      (if connected then RoomsOf(c) + PeekEach(looked) + if relayed then [Push] else [] else [])
    case VideoStopped(c, visits) => RoomsOf(c) + BroadcastEach(visits)
    case Upload(connected, room, member, stored, reached) =>
      [Read(Registry)] +
      (if !connected then []
       else [Read(Registry)] +
            if room == None then []
            else [Read(RoomMu(room.value))] +
                 if member && stored then [Read(RoomMu(room.value))] + Pushes(reached) else [])
    case ReportError => [Push]
    case ClosePump(_) => []
  }

  function Script(h: Handler): seq<Op> {
    if h.ClosePump? then [DoOnce(h.conn)] else Ops(Blocks(h))
  }

  // handleDisconnect, run inside close.
  function Disconnect(c: ConnId, d: Cleanup): seq<Block> {
    [Write(Registry)] + RoomsOf(c) + LeaveEach(c, d.visits) + [SweepRooms(d.rooms)] + LeaveEach(c, d.ghosts) +
    BroadcastRoomList(d.rooms, d.others)
  }

  // -------------------------------------------------------------- the system

  // `asked`: the goroutine has called Lock and waits for the lock at the head of `todo`.
  datatype Goroutine = Goroutine(todo: seq<Op>, writing: set<Lock>, reading: set<Lock>, asked: bool)

  datatype State = State(gs: map<nat, Goroutine>, next: nat, closed: set<ConnId>)

  datatype Event =
    | Begin(handler: Handler)
    | Ask(g: nat)
    | Run(g: nat)
    | Spawn(g: nat, conn: ConnId)
    | Enter(g: nat, cleanup: Cleanup)

  ghost predicate Waiting(s: State, g: nat, l: Lock) {
    g in s.gs && s.gs[g].asked && s.gs[g].todo != [] && s.gs[g].todo[0] == Acquire(l)
  }

  ghost predicate Holds(s: State, g: nat, l: Lock) {
    g in s.gs && (l in s.gs[g].writing || l in s.gs[g].reading)
  }

  ghost predicate CanWrite(s: State, l: Lock) {
    forall h :: !Holds(s, h, l)
  }

  // A writer that waits keeps new readers out.
  ghost predicate CanRead(s: State, l: Lock) {
    (forall h :: h in s.gs ==> l !in s.gs[h].writing) && (forall h :: !Waiting(s, h, l))
  }

  // g is not blocked: what it does next may be done now.
  ghost predicate Runnable(s: State, g: nat) {
    && g in s.gs && s.gs[g].todo != []
    && match s.gs[g].todo[0]
       case Acquire(l) => !s.gs[g].asked || CanWrite(s, l)
       case AcquireRead(l) => CanRead(s, l)
       case DoOnce(c) => c in s.closed || CanWrite(s, Once(c))
       case _ => true
  }

  // A push finds room in the buffer (Run) or not (Spawn, for the client it was for).
  ghost predicate Enabled(s: State, e: Event) {
    match e
    case Begin(_) => true
    case Ask(g) => Runnable(s, g) && s.gs[g].todo[0].Acquire? && !s.gs[g].asked
    case Run(g) =>
      && Runnable(s, g) && !s.gs[g].todo[0].GoClose?
      && (s.gs[g].todo[0].Acquire? ==> s.gs[g].asked)
      && (s.gs[g].todo[0].DoOnce? ==> s.gs[g].todo[0].conn in s.closed)
    case Spawn(g, c) => Runnable(s, g) && (s.gs[g].todo[0].TrySend? || s.gs[g].todo[0] == GoClose(c))
    case Enter(g, _) => Runnable(s, g) && s.gs[g].todo[0].DoOnce? && s.gs[g].todo[0].conn !in s.closed
  }

  function Closer(c: ConnId): Goroutine {
    Goroutine([DoOnce(c)], {}, {}, false)
  }

  function Advance(k: Goroutine): Goroutine
    requires k.todo != []
  {
    var rest := k.(todo := k.todo[1..], asked := false);
    match k.todo[0]
    case Acquire(l) => rest.(writing := k.writing + {l})
    case Release(l) => rest.(writing := k.writing - {l})
    case AcquireRead(l) => rest.(reading := k.reading + {l})
    case ReleaseRead(l) => rest.(reading := k.reading - {l})
    case EndOnce(c) => rest.(writing := k.writing - {Once(c)})
    case _ => rest
  }

  function Entered(k: Goroutine, d: Cleanup): Goroutine
    requires k.todo != [] && k.todo[0].DoOnce?
  {
    var c := k.todo[0].conn;
    k.(todo := Ops(Disconnect(c, d)) + [EndOnce(c)] + k.todo[1..], writing := k.writing + {Once(c)})
  }

  ghost function Step(s: State, e: Event): State
    requires Enabled(s, e)
  {
    match e
    case Begin(h) => s.(gs := s.gs[s.next := Goroutine(Script(h), {}, {}, false)], next := s.next + 1)
    case Ask(g) => s.(gs := s.gs[g := s.gs[g].(asked := true)])
    case Run(g) =>
      s.(gs := s.gs[g := Advance(s.gs[g])],
         closed := s.closed + if s.gs[g].todo[0].EndOnce? then {s.gs[g].todo[0].conn} else {})
    case Spawn(g, c) => s.(gs := s.gs[g := Advance(s.gs[g])][s.next := Closer(c)], next := s.next + 1)
    case Enter(g, d) => s.(gs := s.gs[g := Entered(s.gs[g], d)])
  }

  // -------------------------------------------------------------- discipline

  datatype Held = Held(writing: set<Lock>, reading: set<Lock>)

  ghost predicate Above(l: Lock, h: Held) {
    forall k :: k in h.writing || k in h.reading ==> Rank(k) < Rank(l)
  }

  // Only a clean-up's Once may be held where a handler's block starts.
  ghost predicate AtMostOnce(h: Held) {
    h.reading == {} && forall l :: l in h.writing ==> l.Once?
  }

  // What is held after an operation, if it keeps the lock order, releases only what
  // is held, and pushes or starts a close outside every lock.
  ghost function After(h: Held, op: Op): Option<Held> {
    match op
    case Acquire(l) => if Above(l, h) && !l.Once? then Some(h.(writing := h.writing + {l})) else None
    case Release(l) => if l in h.writing && !l.Once? then Some(h.(writing := h.writing - {l})) else None
    case AcquireRead(l) => if Above(l, h) && !l.Once? then Some(h.(reading := h.reading + {l})) else None
    case ReleaseRead(l) => if l in h.reading && !l.Once? then Some(h.(reading := h.reading - {l})) else None
    case DoOnce(c) => if h == Held({}, {}) then Some(h) else None
    case EndOnce(c) => if h == Held({Once(c)}, {}) then Some(Held({}, {})) else None
    case TrySend => if AtMostOnce(h) then Some(h) else None
    case GoClose(_) => if AtMostOnce(h) then Some(h) else None
  }

  ghost function Through(h: Held, ops: seq<Op>): Option<Held>
    decreases |ops|
  {
    if ops == [] then Some(h)
    else
      var next := After(h, ops[0]);
      if next == None then None else Through(next.value, ops[1..])
  }

  // Keeping the order to the end, and then holding nothing.
  ghost predicate Disciplined(k: Goroutine) {
    Through(Held(k.writing, k.reading), k.todo) == Some(Held({}, {}))
  }

  lemma {:induction false} ThroughAppend(h: Held, p: seq<Op>, q: seq<Op>)
    ensures Through(h, p + q) == (var m := Through(h, p); if m == None then None else Through(m.value, q))
    decreases |p|
  {
    if p == [] {
      assert p + q == q;
    } else {
      assert (p + q)[1..] == p[1..] + q;
      if After(h, p[0]) != None {
        ThroughAppend(After(h, p[0]).value, p[1..], q);
      }
    }
  }

  lemma PairOk(h: Held, a: Op, b: Op)
    requires After(h, a) != None && After(After(h, a).value, b) == Some(h)
    ensures Through(h, [a, b]) == Some(h)
  {
    assert [a, b][1..] == [b] && [b][1..] == [];
    assert Through(After(h, a).value, [b]) == Through(h, []);
  }

  lemma {:induction false} ReadEachOk(h: Held, rooms: seq<RoomId>)
    requires AtMostOnce(h)
    ensures Through(h.(reading := {Registry}), ReadEach(rooms)) == Some(h.(reading := {Registry}))
  {
    if rooms != [] {
      var l := RoomMu(rooms[0]);
      var base := h.(reading := {Registry});
      assert {Registry} + {l} - {l} == {Registry};
      PairOk(base, AcquireRead(l), ReleaseRead(l));
      ReadEachOk(h, rooms[1..]);
      ThroughAppend(base, [AcquireRead(l), ReleaseRead(l)], ReadEach(rooms[1..]));
    }
  }

  lemma SweepOk(h: Held, rooms: seq<RoomId>)
    requires AtMostOnce(h)
    ensures Through(h, BlockOps(SweepRooms(rooms))) == Some(h)
  {
    var base := h.(reading := {Registry});
    assert {} + {Registry} == {Registry} && {Registry} - {Registry} == {};
    ReadEachOk(h, rooms);
    assert ReadEach(rooms) + [ReleaseRead(Registry)] != [];
    ThroughAppend(base, ReadEach(rooms), [ReleaseRead(Registry)]);
    assert [ReleaseRead(Registry)][1..] == [];
    var ops := [AcquireRead(Registry)] + ReadEach(rooms) + [ReleaseRead(Registry)];
    assert ops[1..] == ReadEach(rooms) + [ReleaseRead(Registry)];
  }

  lemma BlockOk(h: Held, b: Block)
    requires AtMostOnce(h) && NoOnce(b)
    ensures Through(h, BlockOps(b)) == Some(h)
  {
    match b
    case Write(l) =>
      assert h.writing + {l} - {l} == h.writing;
      PairOk(h, Acquire(l), Release(l));
    case Read(l) =>
      assert h.reading + {l} - {l} == h.reading;
      PairOk(h, AcquireRead(l), ReleaseRead(l));
    case SweepRooms(rooms) => SweepOk(h, rooms);
    case Push => assert [TrySend][1..] == [];
    case Evict(c) => assert [GoClose(c)][1..] == [];
  }

  lemma {:induction false} OpsOk(h: Held, p: seq<Block>)
    requires AtMostOnce(h) && NoOnces(p)
    ensures Through(h, Ops(p)) == Some(h)
  {
    if p != [] {
      BlockOk(h, p[0]);
      OpsOk(h, p[1..]);
      ThroughAppend(h, BlockOps(p[0]), Ops(p[1..]));
    }
  }

  lemma HandlersOk(h: Handler)
    ensures NoOnces(Blocks(h))
  {
  }

  lemma CleanupOk(c: ConnId, d: Cleanup)
    ensures NoOnces(Disconnect(c, d))
  {
  }

  // --------------------------------------------------------------- invariant

  ghost predicate GoroutinesOk(s: State) {
    forall g :: g in s.gs ==>
      && g < s.next
      && Disciplined(s.gs[g])
      && (s.gs[g].asked ==> s.gs[g].todo != [] && s.gs[g].todo[0].Acquire?)
  }

  ghost predicate Exclusive(s: State) {
    forall g, h, l :: g in s.gs && l in s.gs[g].writing && Holds(s, h, l) ==> g == h
  }

  ghost predicate ClosedOk(s: State) {
    forall g, c :: c in s.closed ==> !Holds(s, g, Once(c))
  }

  ghost predicate Inv(s: State) {
    GoroutinesOk(s) && Exclusive(s) && ClosedOk(s)
  }

  // A step within the discipline leaves the rest of the script within it.
  lemma AdvanceDisciplined(k: Goroutine)
    requires Disciplined(k) && k.todo != []
    ensures Disciplined(Advance(k))
  {
    if k.todo[0].EndOnce? {
      assert {Once(k.todo[0].conn)} - {Once(k.todo[0].conn)} == {};
    }
  }

  lemma EnteredDisciplined(k: Goroutine, d: Cleanup)
    requires Disciplined(k) && k.todo != [] && k.todo[0].DoOnce?
    ensures Disciplined(Entered(k, d))
  {
    var c := k.todo[0].conn;
    var h := Held({Once(c)}, {});
    assert {} + {Once(c)} == {Once(c)};
    CleanupOk(c, d);
    OpsOk(h, Disconnect(c, d));
    assert [EndOnce(c)][1..] == [];
    ThroughAppend(h, Ops(Disconnect(c, d)), [EndOnce(c)]);
    ThroughAppend(h, Ops(Disconnect(c, d)) + [EndOnce(c)], k.todo[1..]);
  }

  lemma ScriptDisciplined(h: Handler)
    ensures Disciplined(Goroutine(Script(h), {}, {}, false))
  {
    HandlersOk(h);
    OpsOk(Held({}, {}), Blocks(h));
    if h.ClosePump? {
      assert [DoOnce(h.conn)][1..] == [];
    }
  }

  lemma GoroutinesStep(s: State, e: Event)
    requires GoroutinesOk(s) && Enabled(s, e)
    ensures GoroutinesOk(Step(s, e))
  {
    match e
    case Begin(h) => ScriptDisciplined(h);
    case Ask(g) =>
    case Run(g) => AdvanceDisciplined(s.gs[g]);
    case Spawn(g, c) =>
      AdvanceDisciplined(s.gs[g]);
      ScriptDisciplined(ClosePump(c));
    case Enter(g, d) => EnteredDisciplined(s.gs[g], d);
  }

  // A lock newly held was taken by the goroutine that moved, as the lock's
  // users then allowed.
  lemma NewlyHeld(s: State, e: Event, h: nat, l: Lock)
    requires GoroutinesOk(s) && Enabled(s, e) && Holds(Step(s, e), h, l) && !Holds(s, h, l)
    ensures h in s.gs
    ensures if l in Step(s, e).gs[h].writing then CanWrite(s, l) else CanRead(s, l)
    ensures l.Once? ==> l.conn !in s.closed
  {
  }

  lemma ExclusiveStep(s: State, e: Event)
    requires Inv(s) && Enabled(s, e)
    ensures Exclusive(Step(s, e))
  {
    var t := Step(s, e);
    forall g, h, l | g in t.gs && l in t.gs[g].writing && Holds(t, h, l) ensures g == h {
      if !Holds(s, g, l) {
        NewlyHeld(s, e, g, l);
      }
      if !Holds(s, h, l) {
        NewlyHeld(s, e, h, l);
      }
    }
  }

  lemma ClosedStep(s: State, e: Event)
    requires Inv(s) && Enabled(s, e)
    ensures ClosedOk(Step(s, e))
  {
    var t := Step(s, e);
    forall g, c | c in t.closed ensures !Holds(t, g, Once(c)) {
      if Holds(t, g, Once(c)) && !Holds(s, g, Once(c)) {
        NewlyHeld(s, e, g, Once(c));
      }
    }
  }

  // ---------------------------------------------------------------- progress

  function Want(op: Op): nat {
    match op
    case Acquire(l) => Rank(l)
    case AcquireRead(l) => Rank(l)
    case DoOnce(_) => 0
    case _ => 4
  }

  // Who holds a lock has work left, and if that work is to take another lock it
  // is one further up the order.
  lemma HolderWantsMore(s: State, g: nat, l: Lock)
    requires GoroutinesOk(s) && Holds(s, g, l)
    ensures s.gs[g].todo != [] && Want(s.gs[g].todo[0]) > Rank(l)
  {
  }

  lemma {:induction false} Progress(s: State, g: nat)
    requires GoroutinesOk(s) && g in s.gs && s.gs[g].todo != []
    ensures exists h :: Runnable(s, h)
    decreases 4 - Want(s.gs[g].todo[0])
  {
    if !Runnable(s, g) {
      match s.gs[g].todo[0] {
        case Acquire(l) =>
          var h :| Holds(s, h, l);
          HolderWantsMore(s, h, l);
          Progress(s, h);
        case AcquireRead(l) =>
          if h :| Waiting(s, h, l) && !Runnable(s, h) {
            var k :| Holds(s, k, l);
            HolderWantsMore(s, k, l);
            Progress(s, k);
          } else if h :| h in s.gs && l in s.gs[h].writing {
            assert Holds(s, h, l);
            HolderWantsMore(s, h, l);
            Progress(s, h);
          }
        case DoOnce(c) =>
          var h :| Holds(s, h, Once(c));
          HolderWantsMore(s, h, Once(c));
          Progress(s, h);
      }
    }
  }

  // -------------------------------------------------------------------- runs

  ghost predicate Allowed(es: seq<Event>)
    decreases |es|, 0
  {
    es == [] || (Allowed(es[..|es| - 1]) && Enabled(Reached(es[..|es| - 1]), es[|es| - 1]))
  }

  ghost function Reached(es: seq<Event>): State
    requires Allowed(es)
    decreases |es|, 1
  {
    if es == [] then State(map[], 0, {}) else Step(Reached(es[..|es| - 1]), es[|es| - 1])
  }

  ghost predicate Reaches(es: seq<Event>, s: State) {
    Allowed(es) && Reached(es) == s
  }

  lemma {:induction false} RunOk(es: seq<Event>)
    requires Allowed(es)
    ensures Inv(Reached(es))
  {
    if es != [] {
      var s := Reached(es[..|es| - 1]);
      RunOk(es[..|es| - 1]);
      GoroutinesStep(s, es[|es| - 1]);
      ExclusiveStep(s, es[|es| - 1]);
      ClosedStep(s, es[|es| - 1]);
    }
  }

  // Whatever handlers and clean-ups have been started, while one of them is
  // unfinished some goroutine can go on.
  lemma DeadlockFree(es: seq<Event>, s: State, g: nat) returns (e: Event)
    requires Reaches(es, s) && g in s.gs && s.gs[g].todo != []
    ensures Enabled(s, e) && !e.Begin?
  {
    RunOk(es);
    Progress(s, g);
    var h :| Runnable(s, h);
    e := match s.gs[h].todo[0]
         case Acquire(_) => if s.gs[h].asked then Run(h) else Ask(h)
         case DoOnce(c) => if c in s.closed then Run(h) else Enter(h, Cleanup([], [], [], 0))
         case GoClose(c) => Spawn(h, c)
         case _ => Run(h);
  }

  // Whatever runs meanwhile, a goroutine that pushes to a connection, or starts to
  // close one, holds no lock but the Once of a clean-up it is running.
  lemma PushesHoldNoLock(es: seq<Event>, s: State, g: nat, l: Lock)
    requires Reaches(es, s) && Holds(s, g, l) && s.gs[g].todo != []
    requires s.gs[g].todo[0].TrySend? || s.gs[g].todo[0].GoClose?
    ensures l.Once?
  {
    RunOk(es);
    assert Disciplined(s.gs[g]);
  }

  // The clean-up of c has begun.
  ghost predicate Started(s: State, c: ConnId) {
    c in s.closed || exists g :: Holds(s, g, Once(c))
  }

  lemma OnceKept(s: State, e: Event, g: nat, c: ConnId)
    requires GoroutinesOk(s) && Enabled(s, e) && Holds(s, g, Once(c))
    ensures Holds(Step(s, e), g, Once(c)) || c in Step(s, e).closed
  {
  }

  lemma StartedStays(s: State, e: Event, c: ConnId)
    requires GoroutinesOk(s) && Enabled(s, e) && Started(s, c)
    ensures Started(Step(s, e), c)
  {
    if c !in s.closed {
      var g :| Holds(s, g, Once(c));
      OnceKept(s, e, g, c);
    }
  }

  // Event e begins the clean-up of c.
  ghost predicate Enters(s: State, e: Event, c: ConnId) {
    Enabled(s, e) && e.Enter? && s.gs[e.g].todo[0] == DoOnce(c)
  }

  lemma EntersStarts(s: State, e: Event, c: ConnId)
    requires Enters(s, e, c)
    ensures Started(Step(s, e), c)
  {
    assert Holds(Step(s, e), e.g, Once(c));
  }

  lemma {:induction false} StartedSince(before: seq<Event>, e: Event, after: seq<Event>, c: ConnId, s: State, t: State)
    requires Reaches(before, s) && Enters(s, e, c) && Reaches(before + [e] + after, t)
    ensures Started(t, c)
    decreases |after|
  {
    var es := before + [e] + after;
    var init := es[..|es| - 1];
    if after == [] {
      assert init == before;
      EntersStarts(s, e, c);
    } else {
      var last := |after| - 1;
      assert init == before + [e] + after[..last];
      var prior := Reached(init);
      RunOk(init);
      StartedSince(before, e, after[..last], c, s, prior);
      StartedStays(prior, es[|es| - 1], c);
      assert t == Step(prior, es[|es| - 1]);
    }
  }

  // However many pumps and pushes close a connection, it is cleaned up once.
  lemma CleanupRunsOnce(before: seq<Event>, e: Event, after: seq<Event>, c: ConnId, s: State, t: State, again: Event)
    requires Reaches(before, s) && Enters(s, e, c) && Reaches(before + [e] + after, t)
    ensures !Enters(t, again, c)
  {
    StartedSince(before, e, after, c, s, t);
  }

  // ------------------------------------------------------- closing in place

  // The hub as it would be if a push to a full buffer called close itself instead
  // of starting a goroutine for it.
  ghost function StepInPlace(s: State, e: Event): State
    requires Enabled(s, e)
  {
    if e.Spawn? && s.gs[e.g].todo[0].TrySend?
    then s.(gs := s.gs[e.g := s.gs[e.g].(todo := [DoOnce(e.conn)] + s.gs[e.g].todo[1..])])
    else Step(s, e)
  }

  ghost predicate ReachesInPlace(states: seq<State>, events: seq<Event>, s: State) {
    && |states| == |events| + 1 && states[0] == State(map[], 0, {}) && states[|events|] == s
    && (forall i :: 0 <= i < |events| ==>
          Enabled(states[i], events[i]) && states[i + 1] == StepInPlace(states[i], events[i]))
  }

  datatype Trace = Trace(states: seq<State>, events: seq<Event>)

  ghost predicate Leads(t: Trace, s: State) {
    ReachesInPlace(t.states, t.events, s)
  }

  lemma Extend(t: Trace, s: State, e: Event) returns (more: Trace)
    requires Leads(t, s) && Enabled(s, e)
    ensures Leads(more, StepInPlace(s, e))
  {
    more := Trace(t.states + [StepInPlace(s, e)], t.events + [e]);
    forall i | 0 <= i < |more.events|
      ensures Enabled(more.states[i], more.events[i]) && more.states[i + 1] == StepInPlace(more.states[i], more.events[i])
    {
      assert i < |t.events| ==> more.states[i] == t.states[i] && more.states[i + 1] == t.states[i + 1];
    }
  }

  // Nobody but g holds or awaits a lock other than a Once.
  ghost predicate Undisturbed(s: State, g: nat) {
    forall h :: h in s.gs && h != g ==>
      !s.gs[h].asked && forall l :: l in s.gs[h].writing || l in s.gs[h].reading ==> l.Once?
  }

  // A lock operation, or a push, which may find room in the buffer.
  predicate Plain(op: Op) {
    !op.DoOnce? && !op.EndOnce? && !op.GoClose?
  }

  // Where g, holding h, stands with `todo` left.
  ghost function Put(s: State, g: nat, todo: seq<Op>, h: Held): State {
    s.(gs := s.gs[g := Goroutine(todo, h.writing, h.reading, false)])
  }

  lemma RunOne(t: Trace, s: State, g: nat, todo: seq<Op>, h: Held) returns (more: Trace)
    requires todo != [] && Plain(todo[0]) && After(h, todo[0]) != None
    requires Leads(t, Put(s, g, todo, h)) && Undisturbed(s, g)
    ensures Leads(more, Put(s, g, todo[1..], After(h, todo[0]).value))
  {
    var u := Put(s, g, todo, h);
    more := t;
    if todo[0].Acquire? {
      more := Extend(more, u, Ask(g));
      u := StepInPlace(u, Ask(g));
    }
    more := Extend(more, u, Run(g));
    assert StepInPlace(u, Run(g)).gs == Put(s, g, todo[1..], After(h, todo[0]).value).gs;
  }

  // Undisturbed, a goroutine gets through any disciplined sequence of such operations.
  lemma {:induction false} RunAlone(t: Trace, s: State, g: nat, p: seq<Op>, rest: seq<Op>, h: Held) returns (more: Trace)
    requires (forall op :: op in p ==> Plain(op)) && Through(h, p) != None
    requires Leads(t, Put(s, g, p + rest, h)) && Undisturbed(s, g)
    ensures Leads(more, Put(s, g, rest, Through(h, p).value))
    decreases |p|
  {
    if p == [] {
      assert p + rest == rest;
      more := t;
    } else {
      assert (p + rest)[1..] == p[1..] + rest;
      more := RunOne(t, s, g, p + rest, h);
      more := RunAlone(more, s, g, p[1..], rest, After(h, p[0]).value);
    }
  }

  lemma {:induction false} OpsAppend(p: seq<Block>, q: seq<Block>)
    ensures Ops(p + q) == Ops(p) + Ops(q)
  {
    if p == [] {
      assert p + q == q;
    } else {
      assert (p + q)[1..] == p[1..] + q;
      OpsAppend(p[1..], q);
      assert BlockOps(p[0]) + (Ops(p[1..]) + Ops(q)) == (BlockOps(p[0]) + Ops(p[1..])) + Ops(q);
    }
  }

  lemma {:induction false} ReadEachPlain(rooms: seq<RoomId>)
    ensures forall op :: op in ReadEach(rooms) ==> Plain(op)
  {
    if rooms != [] {
      ReadEachPlain(rooms[1..]);
    }
  }

  lemma {:induction false} OpsPlain(p: seq<Block>)
    requires forall b :: b in p ==> !b.Evict?
    ensures forall op :: op in Ops(p) ==> Plain(op)
  {
    if p != [] {
      OpsPlain(p[1..]);
      if p[0].SweepRooms? { ReadEachPlain(p[0].rooms); }
      assert forall op :: op in BlockOps(p[0]) ==> Plain(op);
    }
  }

  // Goroutine g, which is to close c, begins the clean-up and gets to one of its pushes.
  lemma CleansUpToPush(t: Trace, s: State, g: nat, c: ConnId, d: Cleanup, p: seq<Block>, rest: seq<Block>)
      returns (more: Trace)
    requires Leads(t, Put(s, g, [DoOnce(c)], Held({}, {}))) && Undisturbed(s, g)
    requires c !in s.closed && forall h :: h != g ==> !Holds(s, h, Once(c))
    requires Disconnect(c, d) == p + ([Push] + rest) && forall b :: b in p ==> !b.Evict?
    ensures Leads(more, Put(s, g, [TrySend] + (Ops(rest) + [EndOnce(c)]), Held({Once(c)}, {})))
  {
    var u := Put(s, g, [DoOnce(c)], Held({}, {}));
    var h, todo := Held({Once(c)}, {}), [TrySend] + (Ops(rest) + [EndOnce(c)]);
    forall i ensures !Holds(u, i, Once(c)) {
      assert i != g ==> !Holds(s, i, Once(c));
    }
    more := Extend(t, u, Enter(g, d));
    OpsAppend(p, [Push] + rest);
    OpsAppend([Push], rest);
    assert [Push][1..] == [] && Ops([Push]) == [TrySend] + Ops([]);
    assert Ops(Disconnect(c, d)) + [EndOnce(c)] + [DoOnce(c)][1..] == Ops(p) + todo;
    assert {} + {Once(c)} == {Once(c)};
    assert StepInPlace(u, Enter(g, d)).gs == Put(s, g, Ops(p) + todo, h).gs;
    OpsPlain(p);
    CleanupOk(c, d);
    assert NoOnces(p) by { assert forall b :: b in p ==> b in Disconnect(c, d); }
    OpsOk(h, p);
    more := RunAlone(more, s, g, Ops(p), todo, h);
  }

  // Goroutine 0 routes a frame of c, goroutines 1 and 2 clean up c and d.
  ghost function Three(frame: seq<Op>, a: seq<Op>, b: seq<Op>, held: set<Lock>, other: set<Lock>): State {
    State(map[0 := Goroutine(frame, {}, {}, false), 1 := Goroutine(a, held, {}, false),
              2 := Goroutine(b, other, {}, false)], 3, {})
  }

  // c, in no room, joins room r, where d is: d is told, and gets the room list.
  function Frame(c: ConnId): Handler {
    JoinRoom(c, [], Some("r"), true, 1, ["r"], 1)
  }

  // c's clean-up finds c in no room and sends the room list to d.
  const Alone := Cleanup([], ["r"], [], 1)

  function BeforeList(c: ConnId): seq<Block> {
    [Write(Registry)] + RoomsOf(c) + [SweepRooms(["r"])] + [SweepRooms(["r"]), Read(Registry)]
  }

  // d's clean-up leaves r, where c has been inserted meanwhile, and tells c.
  const Member := Cleanup([Visit("r", true, 1)], ["r"], [], 0)

  function BeforeNotice(d: ConnId): seq<Block> {
    [Write(Registry)] + RoomsOf(d) + [Write(RoomMu("r")), Write(RoomsMu(d))]
  }

  const AfterNotice: seq<Block> := [SweepRooms(["r"])] + [SweepRooms(["r"]), Read(Registry)]

  lemma TheirBlocks(c: ConnId, d: ConnId)
    ensures Disconnect(c, Alone) == BeforeList(c) + ([Push] + [])
    ensures Disconnect(d, Member) == BeforeNotice(d) + ([Push] + AfterNotice)
    ensures forall b :: b in BeforeList(c) || b in BeforeNotice(d) || b in Blocks(Frame(c)) ==> !b.Evict?
  {
    assert LeaveEach(c, []) == [] && Pushes(1) == [Push] && Pushes(0) == [];
    assert Member.visits[1..] == [] && LeaveEach(d, Member.visits) == Leave(d, Visit("r", true, 1));
  }

  lemma AllBegun(c: ConnId, d: ConnId) returns (t: Trace)
    ensures Leads(t, Three(Script(Frame(c)), [DoOnce(c)], [DoOnce(d)], {}, {}))
  {
    var s := State(map[], 0, {});
    t := Extend(Trace([s], []), s, Begin(Frame(c)));
    s := StepInPlace(s, Begin(Frame(c)));
    t := Extend(t, s, Begin(ClosePump(c)));
    s := StepInPlace(s, Begin(ClosePump(c)));
    t := Extend(t, s, Begin(ClosePump(d)));
    assert StepInPlace(s, Begin(ClosePump(d))).gs == Three(Script(Frame(c)), [DoOnce(c)], [DoOnce(d)], {}, {}).gs;
  }

  function TailOfC(c: ConnId): seq<Op> { Ops([]) + [EndOnce(c)] }

  function TailOfD(d: ConnId): seq<Op> { Ops(AfterNotice) + [EndOnce(d)] }

  lemma FirstAtPush(c: ConnId, d: ConnId) returns (t: Trace)
    ensures Leads(t, Three(Script(Frame(c)), [TrySend] + TailOfC(c), [DoOnce(d)], {Once(c)}, {}))
  {
    var script := Script(Frame(c));
    t := AllBegun(c, d);
    TheirBlocks(c, d);
    var s := Three(script, [DoOnce(c)], [DoOnce(d)], {}, {});
    assert s.gs == Put(s, 1, [DoOnce(c)], Held({}, {})).gs;
    t := CleansUpToPush(t, s, 1, c, Alone, BeforeList(c), []);
    assert Put(s, 1, [TrySend] + TailOfC(c), Held({Once(c)}, {})).gs ==
      Three(script, [TrySend] + TailOfC(c), [DoOnce(d)], {Once(c)}, {}).gs;
  }

  lemma FramePlain(c: ConnId, d: ConnId)
    ensures forall op :: op in Script(Frame(c)) ==> Plain(op)
    ensures Through(Held({}, {}), Script(Frame(c))) == Some(Held({}, {}))
  {
    TheirBlocks(c, d);
    HandlersOk(Frame(c));
    OpsOk(Held({}, {}), Blocks(Frame(c)));
    OpsPlain(Blocks(Frame(c)));
  }

  // c's clean-up is about to push when the frame being routed inserts c in r.
  lemma FrameRouted(c: ConnId, d: ConnId) returns (t: Trace)
    ensures Leads(t, Three([], [TrySend] + TailOfC(c), [DoOnce(d)], {Once(c)}, {}))
  {
    var script, list := Script(Frame(c)), [TrySend] + TailOfC(c);
    t := FirstAtPush(c, d);
    var s := Three(script, list, [DoOnce(d)], {Once(c)}, {});
    FramePlain(c, d);
    assert script + [] == script;
    assert s.gs == Put(s, 0, script + [], Held({}, {})).gs;
    t := RunAlone(t, s, 0, script, [], Held({}, {}));
    assert Put(s, 0, [], Held({}, {})).gs == Three([], list, [DoOnce(d)], {Once(c)}, {}).gs;
  }

  lemma BothAtPush(c: ConnId, d: ConnId) returns (t: Trace)
    requires c != d
    ensures Leads(t, Three([], [TrySend] + TailOfC(c), [TrySend] + TailOfD(d), {Once(c)}, {Once(d)}))
  {
    t := FrameRouted(c, d);
    TheirBlocks(c, d);
    var s := Three([], [TrySend] + TailOfC(c), [DoOnce(d)], {Once(c)}, {});
    assert s.gs == Put(s, 2, [DoOnce(d)], Held({}, {})).gs;
    t := CleansUpToPush(t, s, 2, d, Member, BeforeNotice(d), AfterNotice);
    assert Put(s, 2, [TrySend] + TailOfD(d), Held({Once(d)}, {})).gs ==
      Three([], [TrySend] + TailOfC(c), [TrySend] + TailOfD(d), {Once(c)}, {Once(d)}).gs;
  }

  // Why a push closes in a fresh goroutine: in place, two clean-ups that each find
  // the other's buffer full can come to wait for each other for ever. The lock model
  // leaves open whom a push is for and which buffers are full; here both pushes
  // are ones the registry allows. The clean-up of c took its list of clients while
  // d was registered, and c came into d's room behind its own ghost scan, through a
  // frame still being routed.
  lemma ClosingInPlaceDeadlocks(c: ConnId, d: ConnId) returns (t: Trace, s: State)
    requires c != d
    ensures Leads(t, s) && s.gs.Keys == {0, 1, 2} && s.gs[1].todo != [] && s.gs[2].todo != []
    ensures forall g :: !Runnable(s, g)
  {
    t := BothAtPush(c, d);
    s := Three([], [TrySend] + TailOfC(c), [TrySend] + TailOfD(d), {Once(c)}, {Once(d)});
    t := Extend(t, s, Spawn(1, d));
    assert ([TrySend] + TailOfC(c))[1..] == TailOfC(c) && ([TrySend] + TailOfD(d))[1..] == TailOfD(d);
    s := Three([], [DoOnce(d)] + TailOfC(c), [TrySend] + TailOfD(d), {Once(c)}, {Once(d)});
    t := Extend(t, s, Spawn(2, c));
    s := Three([], [DoOnce(d)] + TailOfC(c), [DoOnce(c)] + TailOfD(d), {Once(c)}, {Once(d)});
    assert Holds(s, 1, Once(c)) && Holds(s, 2, Once(d));
  }
}
