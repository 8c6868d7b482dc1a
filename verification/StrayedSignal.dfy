// A run in which a relayed signal reaches a browser that does not list its
// sender: why SignalsComeFromListedPeers leaves out strayed signals. User b's
// page, in a room, loses its socket and logs in on a new one while the hub still
// counts the old connection in; a signal from a user who joined meanwhile then
// follows the registry to the new connection.

module StrayedSignal {
  import opened Wrappers
  import opened Presence
  import opened PresenceSystem

  datatype Trace = Trace(states: seq<State>, events: seq<Event>)

  ghost predicate Reaches(t: Trace, s: State) {
    Run(t.states, t.events) && t.states[|t.events|] == s
  }

  lemma Extend(t: Trace, s: State, e: Event) returns (more: Trace)
    requires Reaches(t, s) && Enabled(s, e)
    ensures Reaches(more, Step(s, e))
  {
    more := Trace(t.states + [Step(s, e)], t.events + [e]);
    forall i | 0 <= i < |more.events|
      ensures Enabled(more.states[i], more.events[i]) && more.states[i + 1] == Step(more.states[i], more.events[i])
    {
      assert i < |t.events| ==> more.states[i] == t.states[i] && more.states[i + 1] == t.states[i + 1];
    }
  }

  const Blank := Browser(None, [])
  const Stale := Browser(Some("r"), [])

  function Open(user: UserId, rooms: set<RoomId>, send: seq<Msg>): Conn {
    Conn(Some(user), rooms, send, false, false, false)
  }

  // --------------------------------------------- the hub, handler by handler

  // Users a and b are logged in, on connections 0 and 1.
  function TwoUsers(limits: Limits): Server {
    Server(map[0 := Open("a", {}, [AuthSuccess]), 1 := Open("b", {}, [AuthSuccess])],
           map["a" := 0, "b" := 1], map[], limits)
  }

  function EmptyRoom(limits: Limits): Server {
    Server(map[0 := Open("a", {}, [AuthSuccess, RoomList]), 1 := Open("b", {}, [AuthSuccess, RoomCreated("r")])],
           map["a" := 0, "b" := 1], map["r" := Room("r", map[])], limits)
  }

  function OneMember(limits: Limits): Server {
    Server(map[0 := Open("a", {}, [AuthSuccess, RoomList, RoomList]),
               1 := Open("b", {"r"}, [AuthSuccess, RoomCreated("r"), RoomJoined("r", [])])],
           map["a" := 0, "b" := 1], map["r" := Room("r", map["b" := 1])], limits)
  }

  // b's page has read what it was sent.
  function UpToDate(limits: Limits): Server {
    var v := OneMember(limits);
    v.(conns := v.conns[1 := Open("b", {"r"}, [])])
  }

  // a has joined too.
  function TwoMembers(limits: Limits): Server {
    Server(map[0 := Open("a", {"r"}, [AuthSuccess, RoomList, RoomList, RoomJoined("r", ["b"])]),
               1 := Open("b", {"r"}, [UserJoined("r", "a"), RoomList])],
           map["a" := 0, "b" := 1], map["r" := Room("r", map["b" := 1, "a" := 0])], limits)
  }

  // b has logged in again on connection 2; connection 1 is not closed yet.
  function Reconnected(limits: Limits): Server {
    var v := TwoMembers(limits);
    v.(conns := v.conns[1 := v.conns[1].(evicted := true)][2 := Open("b", {}, [AuthSuccess])],
       clients := map["a" := 0, "b" := 2])
  }

  lemma TwoLogins(limits: Limits)
    ensures var v := Authenticate(Accepted(Server(map[], map[], map[], limits), 0), 0, "a");
      Authenticate(Accepted(v, 1), 1, "b") == TwoUsers(limits)
  {
    var v := Authenticate(Accepted(Server(map[], map[], map[], limits), 0), 0, "a");
    assert [] + [AuthSuccess] == [AuthSuccess];
    assert v.conns == map[0 := Open("a", {}, [AuthSuccess])] && v.clients == map["a" := 0];
    var w := Authenticate(Accepted(v, 1), 1, "b");
    assert w.conns == TwoUsers(limits).conns && w.clients == TwoUsers(limits).clients;
  }

  lemma Others(v: Server)
    requires v.clients == map["a" := 0, "b" := 1]
    ensures AuthedExcept(v, "a") == {1} && AuthedExcept(v, "b") == {0}
  {
    assert v.clients["a"] in AuthedExcept(v, "b") && v.clients["b"] in AuthedExcept(v, "a");
  }

  lemma Creates(limits: Limits)
    requires limits.maxRooms > 0
    ensures HandleCreate(TwoUsers(limits), 1, "r", "r") == EmptyRoom(limits)
  {
    assert TrimSpace("r") == "r";
    assert [AuthSuccess] + [RoomCreated("r")] == [AuthSuccess, RoomCreated("r")];
    assert [AuthSuccess] + [RoomList] == [AuthSuccess, RoomList];
    var t := SendTo(AddRoom(TwoUsers(limits), "r", "r"), 1, RoomCreated("r"));
    Others(t);
    assert BroadcastRoomList(t, "b").conns == EmptyRoom(limits).conns;
  }

  lemma FirstJoins(limits: Limits)
    requires limits.maxRoomSize > 0
    ensures HandleJoin(EmptyRoom(limits), 1, "r", [], []) == OneMember(limits)
  {
    assert [AuthSuccess, RoomList] + [RoomList] == [AuthSuccess, RoomList, RoomList];
    var joined := RoomJoined("r", []);
    assert [AuthSuccess, RoomCreated("r")] + [joined] == [AuthSuccess, RoomCreated("r"), joined];
    var t := EnterRoom(EmptyRoom(limits), 1, "r", []);
    assert t.conns[0] == EmptyRoom(limits).conns[0] && t.conns[1] == OneMember(limits).conns[1];
    Others(t);
    assert BroadcastRoomList(t, "b").conns == OneMember(limits).conns;
    assert t.rooms == OneMember(limits).rooms;
  }

  lemma SecondJoins(limits: Limits)
    requires limits.maxRoomSize > 1
    ensures HandleJoin(UpToDate(limits), 0, "r", [], ["b"]) == TwoMembers(limits)
  {
    var v := UpToDate(limits);
    var told := v.conns[1].send + [UserJoined("r", "a")];
    assert v.conns[0].send + [RoomJoined("r", ["b"])] == TwoMembers(limits).conns[0].send;
    assert told + [RoomList] == TwoMembers(limits).conns[1].send;
    assert v.rooms["r"].members["b"] in v.rooms["r"].members.Values;
    var t := EnterRoom(v, 0, "r", ["b"]);
    assert t.conns[0] == TwoMembers(limits).conns[0] && t.conns[1] == v.conns[1].(send := told);
    Others(t);
    assert BroadcastRoomList(t, "a").conns == TwoMembers(limits).conns;
    assert t.rooms == TwoMembers(limits).rooms;
  }

  lemma LogsInAgain(limits: Limits)
    ensures Authenticate(Accepted(TwoMembers(limits), 2), 2, "b") == Reconnected(limits)
  {
    assert [] + [AuthSuccess] == [AuthSuccess];
    var w := Authenticate(Accepted(TwoMembers(limits), 2), 2, "b");
    assert w.conns == Reconnected(limits).conns && w.clients == Reconnected(limits).clients;
  }

  lemma RelayStrays(limits: Limits)
    ensures var v := Reconnected(limits); var w := HandleSignal(v, 0, Offer, "b");
      && Strays(v, 0, "b") && w.conns.Keys == v.conns.Keys
      && w.conns[2] == Open("b", {}, [AuthSuccess] + [Signal(Offer, "a")])
  {
    var v := Reconnected(limits);
    assert "r" in v.conns[0].rooms && "b" in v.rooms["r"].members;
  }

  // ------------------------------------------------------------------ the run

  function Idle(server: Server): State {
    State(server, map[0 := NewLink(Blank), 1 := NewLink(Blank)])
  }

  // A connection logs in on a socket it has just opened.
  lemma Enters(t: Trace, s: State, c: ConnId, b: Browser, u: UserId) returns (more: Trace)
    requires Reaches(t, s) && c !in s.server.conns
    ensures Reaches(more, State(Authenticate(Accepted(s.server, c), c, u), s.links[c := NewLink(b)]))
  {
    more := Extend(t, s, Connect(c, b));
    more := Extend(more, Step(s, Connect(c, b)), Login(c, u));
  }

  // The browser of c sends a request, the next the hub routes.
  lemma Sends(t: Trace, s: State, c: ConnId, req: Req) returns (more: Trace, after: State)
    requires Reaches(t, s) && c in s.links && s.links[c].up == [] && !s.links[c].gone && !req.LeaveReq?
    ensures Reaches(more, after) && after.server == s.server
    ensures after.links == s.links[c := s.links[c].(up := [req])] && Popped(after, c).links == s.links
  {
    more := Extend(t, s, Send(c, req));
    after := Step(s, Send(c, req));
    assert [] + [req] == [req] && [req][1..] == [];
  }

  lemma ReachTwoUsers(limits: Limits) returns (t: Trace)
    ensures Reaches(t, Idle(TwoUsers(limits)))
  {
    var s := State(Server(map[], map[], map[], limits), map[]);
    t := Enters(Trace([s], []), s, 0, Blank, "a");
    s := State(Authenticate(Accepted(s.server, 0), 0, "a"), map[0 := NewLink(Blank)]);
    t := Enters(t, s, 1, Blank, "b");
    TwoLogins(limits);
  }

  lemma ReachEmptyRoom(limits: Limits) returns (t: Trace)
    requires limits.maxRooms > 0
    ensures Reaches(t, Idle(EmptyRoom(limits)))
  {
    t := ReachTwoUsers(limits);
    var s := Idle(TwoUsers(limits));
    t, s := Sends(t, s, 1, CreateReq("r"));
    t := Extend(t, s, Create(1, "r"));
    Creates(limits);
  }

  lemma ReachOneMember(limits: Limits) returns (t: Trace)
    requires limits.maxRooms > 0 && limits.maxRoomSize > 0
    ensures Reaches(t, Idle(OneMember(limits)))
  {
    t := ReachEmptyRoom(limits);
    var s := Idle(EmptyRoom(limits));
    t, s := Sends(t, s, 1, JoinReq("r"));
    assert RoomsOf(s.server, 1) == {};
    t := Extend(t, s, Join(1, [], []));
    FirstJoins(limits);
  }

  // The next message of c goes over the wire and is read.
  lemma Delivers(t: Trace, s: State, c: ConnId, m: Msg, rest: seq<Msg>) returns (more: Trace)
    requires Reaches(t, s) && c in s.server.conns && c in s.links && s.server.conns[c].send == [m] + rest
    requires s.links[c].wire == [] && !s.links[c].gone
    ensures var k := s.links[c];
      Reaches(more, State(s.server.(conns := s.server.conns[c := s.server.conns[c].(send := rest)]),
                          s.links[c := k.(browser := Apply(k.browser, m), read := k.read + 1)]))
  {
    more := Extend(t, s, Write(c));
    var after := Step(s, Write(c));
    assert ([m] + rest)[1..] == rest && [] + [m] == [m] && [m][1..] == [];
    more := Extend(more, after, Read(c));
  }

  // b's page shows room r, with nobody else in it.
  ghost function Reading(limits: Limits, left: seq<Msg>, browser: Browser, read: nat): State {
    var v := OneMember(limits);
    State(v.(conns := v.conns[1 := Open("b", {"r"}, left)]),
          map[0 := NewLink(Blank), 1 := Link([], [], browser, read, {}, false)])
  }

  lemma ReachUpToDate(limits: Limits) returns (t: Trace)
    requires limits.maxRooms > 0 && limits.maxRoomSize > 0
    ensures Reaches(t, Reading(limits, [], Stale, 3))
  {
    t := ReachOneMember(limits);
    var created, joined := RoomCreated("r"), RoomJoined("r", []);
    assert [AuthSuccess] + [created, joined] == [AuthSuccess, created, joined];
    assert Reading(limits, [AuthSuccess] + [created, joined], Blank, 0).server.conns == OneMember(limits).conns;
    t := Delivers(t, Reading(limits, [AuthSuccess] + [created, joined], Blank, 0), 1, AuthSuccess, [created, joined]);
    assert [created] + [joined] == [created, joined];
    t := Delivers(t, Reading(limits, [created] + [joined], Blank, 1), 1, created, [joined]);
    assert [joined] + [] == [joined];
    t := Delivers(t, Reading(limits, [joined] + [], Blank, 2), 1, joined, []);
  }

  // b's socket is lost while the hub still counts connection 1 in.
  function Cut(server: Server): State {
    State(server, map[0 := NewLink(Blank), 1 := Link([], [], Stale, 3, {}, true)])
  }

  lemma ReachTwoMembers(limits: Limits) returns (t: Trace)
    requires limits.maxRooms > 0 && limits.maxRoomSize > 1
    ensures Reaches(t, Cut(TwoMembers(limits)))
  {
    t := ReachUpToDate(limits);
    t := Extend(t, Reading(limits, [], Stale, 3), Drop(1));
    var s := Cut(UpToDate(limits));
    t, s := Sends(t, s, 0, JoinReq("r"));
    assert RoomsOf(s.server, 0) == {} && Elems(["b"]) == {"b"};
    t := Extend(t, s, Join(0, [], ["b"]));
    SecondJoins(limits);
  }

  // Connection 2 was opened by the page that connection 1 lost; it lost nothing and
  // shows room r, but its second message will be a strayed signal from a user its
  // list lacks.
  ghost predicate ShownStranger(s: State) {
    && 2 in s.links && 2 in s.server.conns && !s.server.conns[2].overflowed
    && 1 in s.links && s.links[1].gone && s.links[1].browser == Stale
    && var k := s.links[2];
       k.browser == Stale && k.read == 0 && k.strays == {1} && !AllVisible(Stale, k.wire + s.server.conns[2].send, 0, {})
  }

  lemma StaleSeesStranger()
    ensures !AllVisible(Stale, [] + ([AuthSuccess] + [Signal(Offer, "a")]), 0, {})
  {
    FoldAppend(Stale, [AuthSuccess], Signal(Offer, "a"), 0, {});
    assert [] + ([AuthSuccess] + [Signal(Offer, "a")]) == [AuthSuccess] + [Signal(Offer, "a")];
  }

  lemma StrayStep(limits: Limits, s: State)
    requires s.server == Reconnected(limits)
    requires 0 in s.links && s.links[0].up == [SignalReq(Offer, "b")] && 2 in s.links && s.links[2] == NewLink(Stale)
    requires 1 in s.links && s.links[1].gone && s.links[1].browser == Stale
    ensures Enabled(s, Relay(0)) && ShownStranger(Step(s, Relay(0)))
  {
    RelayStrays(limits);
    StaleSeesStranger();
  }

  // The relay to b strays.
  lemma SignalMayStray(limits: Limits) returns (t: Trace)
    requires limits.maxRooms > 0 && limits.maxRoomSize > 1
    ensures Run(t.states, t.events) && ShownStranger(t.states[|t.events|])
  {
    t := ReachTwoMembers(limits);
    var s := Cut(TwoMembers(limits));
    t := Enters(t, s, 2, s.links[1].browser, "b");
    LogsInAgain(limits);
    s := s.(server := Reconnected(limits), links := s.links[2 := NewLink(Stale)]);
    var sent;
    t, sent := Sends(t, s, 0, SignalReq(Offer, "b"));
    StrayStep(limits, sent);
    t := Extend(t, sent, Relay(0));
  }
}
