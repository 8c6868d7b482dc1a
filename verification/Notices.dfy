// Who is told what, and in which order, by each handler, and what it leaves behind
// in rooms, registry and connections: the whole effect of the handlers of Presence,
// connection by connection, while send queues have space.

module Notices {
  import opened Wrappers
  import opened Presence

  // d is the registered connection of a user other than u.
  ghost predicate Hears(v: Server, u: UserId, d: ConnId) {
    exists x :: x in v.clients && x != u && v.clients[x] == d
  }

  // r lists u, and lists d for someone else.
  ghost predicate Stays(v: Server, r: RoomId, u: UserId, d: ConnId) {
    && r in v.rooms && u in v.rooms[r].members
    && exists x :: x in v.rooms[r].members && x != u && v.rooms[r].members[x] == d
  }

  function Unless(none: bool, m: Msg): seq<Msg> {
    if none then [] else [m]
  }

  // A connection with more in its queue.
  function Told(a: Conn, ms: seq<Msg>): Conn {
    a.(send := a.send + ms)
  }

  // ---------------------------------------------------------------- signals

  // A signal goes to the registered connection of its target, under its own kind and
  // its sender's name, if a room of the sender lists the target; nobody else is told.
  lemma SignalTells(v: Server, c: ConnId, kind: SignalKind, target: UserId, d: ConnId)
    requires Known(v, c) && d in v.conns && |v.conns[d].send| < 256
    ensures var w := HandleSignal(v, c, kind, target); var u := v.conns[c].user.value;
      var allowed := target != u && target in v.clients &&
                     exists r :: r in v.conns[c].rooms && r in v.rooms && target in v.rooms[r].members;
      && w.rooms == v.rooms && w.clients == v.clients && w.limits == v.limits && w.conns.Keys == v.conns.Keys
      && w.conns[d] == if allowed && d == v.clients[target] then Told(v.conns[d], [Signal(kind, u)]) else v.conns[d]
  {
  }

  // ----------------------------------------------------------------- leaving

  // What d is told when u leaves the rooms of `order` one after another.
  ghost function Departures(v: Server, u: UserId, order: seq<RoomId>, d: ConnId): seq<Msg> {
    if order == [] then []
    else Unless(!Stays(v, order[0], u, d), UserLeft(order[0], u)) + Departures(v, u, order[1..], d)
  }

  // The rooms, after u has left those of `order`.
  function Without(rooms: map<RoomId, Room>, u: UserId, order: seq<RoomId>): map<RoomId, Room> {
    map r | r in rooms :: if r in order then rooms[r].(members := rooms[r].members - {u}) else rooms[r]
  }

  lemma LeaveRoomRooms(v: Server, c: ConnId, r: RoomId)
    requires Known(v, c) && r in v.rooms
    ensures var w := LeaveRoom(v, c, r);
      && w.clients == v.clients && w.limits == v.limits && w.conns.Keys == v.conns.Keys
      && w.rooms == Without(v.rooms, v.conns[c].user.value, [r])
  {
    var u := v.conns[c].user.value;
    if u !in v.rooms[r].members {
      assert v.rooms[r].members - {u} == v.rooms[r].members;
    }
  }

  // What u's leaving the room takes from the set of d.
  function Dropped(v: Server, u: UserId, order: seq<RoomId>, own: bool): set<RoomId> {
    if own then set r | r in order && r in v.rooms && u in v.rooms[r].members else {}
  }

  lemma LeaveRoomTells(v: Server, c: ConnId, r: RoomId, d: ConnId)
    requires Known(v, c) && r in v.rooms && d in v.conns && |v.conns[d].send| < 256
    ensures var w := LeaveRoom(v, c, r); var u := v.conns[c].user.value;
      && d in w.conns
      && w.conns[d] == Told(v.conns[d], Unless(!Stays(v, r, u, d), UserLeft(r, u)))
                       .(rooms := v.conns[d].rooms - Dropped(v, u, [r], d == c))
  {
    var u := v.conns[c].user.value;
    var was := v.conns[d];
    assert was.send + [] == was.send && was.rooms - {} == was.rooms;
    if u in v.rooms[r].members {
      var rest := v.rooms[r].members - {u};
      assert Stays(v, r, u, d) <==> d in rest.Values by {
        assert forall x :: x in rest <==> x in v.rooms[r].members && x != u;
      }
      assert Dropped(v, u, [r], true) == {r};
    } else {
      assert Dropped(v, u, [r], d == c) == {};
    }
  }

  // Leaving one room matters to another one neither for who stays nor for what is
  // dropped.
  lemma Elsewhere(v: Server, w: Server, u: UserId, order: seq<RoomId>, d: ConnId, own: bool)
    requires forall r :: r in order ==> (r in v.rooms <==> r in w.rooms) && (r in v.rooms ==> v.rooms[r] == w.rooms[r])
    ensures Departures(v, u, order, d) == Departures(w, u, order, d)
    ensures Dropped(v, u, order, own) == Dropped(w, u, order, own)
  {
  }

  lemma DroppedEach(v: Server, u: UserId, order: seq<RoomId>, own: bool, held: set<RoomId>)
    requires order != []
    ensures held - Dropped(v, u, [order[0]], own) - Dropped(v, u, order[1..], own) == held - Dropped(v, u, order, own)
  {
    assert forall r :: r in order <==> r == order[0] || r in order[1..];
  }

  lemma WithoutEach(rooms: map<RoomId, Room>, u: UserId, order: seq<RoomId>)
    requires order != []
    ensures Without(Without(rooms, u, [order[0]]), u, order[1..]) == Without(rooms, u, order)
  {
    assert forall r :: r in order <==> r == order[0] || r in order[1..];
    forall r | r in rooms
      ensures Without(Without(rooms, u, [order[0]]), u, order[1..])[r] == Without(rooms, u, order)[r]
    {
      var members := rooms[r].members;
      assert (members - {u}) - {u} == members - {u};
    }
  }

  lemma {:induction false} LeaveEachRooms(v: Server, c: ConnId, order: seq<RoomId>)
    requires Known(v, c) && Elems(order) <= v.rooms.Keys
    ensures var w := LeaveEach(v, c, order);
      && w.clients == v.clients && w.limits == v.limits && w.conns.Keys == v.conns.Keys
      && w.rooms == Without(v.rooms, v.conns[c].user.value, order)
    decreases |order|
  {
    if order == [] {
      assert Without(v.rooms, v.conns[c].user.value, []) == v.rooms;
    } else {
      assert order[0] in Elems(order) && Elems(order[1..]) <= Elems(order);
      LeaveRoomRooms(v, c, order[0]);
      LeaveEachRooms(LeaveRoom(v, c, order[0]), c, order[1..]);
      WithoutEach(v.rooms, v.conns[c].user.value, order);
    }
  }

  lemma ToldTwice(was: Conn, one: seq<Msg>, rest: seq<Msg>, gone: set<RoomId>, more: set<RoomId>)
    ensures var mid := Told(was, one).(rooms := was.rooms - gone);
      Told(mid, rest).(rooms := mid.rooms - more) == Told(was, one + rest).(rooms := was.rooms - gone - more)
  {
    assert (was.send + one) + rest == was.send + (one + rest);
  }

  // Each connection is told of the departures from rooms it stays in, in order.
  lemma {:induction false} LeaveEachTells(v: Server, c: ConnId, order: seq<RoomId>, d: ConnId)
    requires Known(v, c) && NoDup(order) && Elems(order) <= v.rooms.Keys && d in v.conns
    requires |v.conns[d].send| + |order| <= 256
    ensures var w := LeaveEach(v, c, order); var u := v.conns[c].user.value;
      && d in w.conns
      && w.conns[d] == Told(v.conns[d], Departures(v, u, order, d))
                       .(rooms := v.conns[d].rooms - Dropped(v, u, order, d == c))
    decreases |order|
  {
    var u := v.conns[c].user.value;
    var was := v.conns[d];
    if order == [] {
      assert was.send + [] == was.send && was.rooms - {} == was.rooms;
      assert Dropped(v, u, [], d == c) == {};
    } else {
      var first, rest := order[0], order[1..];
      assert first in Elems(order) && Elems(rest) <= Elems(order) && first !in rest;
      var t := LeaveRoom(v, c, first);
      LeaveRoomTells(v, c, first, d);
      LeaveRoomRooms(v, c, first);
      LeaveEachTells(t, c, rest, d);
      Elsewhere(v, t, u, rest, d, d == c);
      DroppedEach(v, u, order, d == c, was.rooms);
      ToldTwice(was, Unless(!Stays(v, first, u, d), UserLeft(first, u)), Departures(v, u, rest, d),
                Dropped(v, u, [first], d == c), Dropped(v, u, rest, d == c));
    }
  }

  lemma RoomListTells(v: Server, u: UserId, d: ConnId)
    requires d in v.conns && |v.conns[d].send| < 256
    ensures var w := BroadcastRoomList(v, u);
      && w == v.(conns := w.conns) && w.conns.Keys == v.conns.Keys
      && w.conns[d] == Told(v.conns[d], Unless(!Hears(v, u, d), RoomList))
  {
    assert v.conns[d].send + [] == v.conns[d].send;
  }

  lemma SendTells(v: Server, c: ConnId, m: Msg, d: ConnId)
    requires c in v.conns && d in v.conns && |v.conns[d].send| < 256
    ensures var w := SendTo(v, c, m);
      && w == v.(conns := w.conns) && w.conns.Keys == v.conns.Keys
      && w.conns[d] == Told(v.conns[d], Unless(d != c, m))
  {
    assert v.conns[d].send + [] == v.conns[d].send;
  }

  // The one concerned is told, and then all other users.
  lemma SendAndListTells(v: Server, c: ConnId, m: Msg, u: UserId, d: ConnId)
    requires c in v.conns && d in v.conns && |v.conns[d].send| + 1 < 256
    ensures var w := BroadcastRoomList(SendTo(v, c, m), u);
      && w == v.(conns := w.conns) && w.conns.Keys == v.conns.Keys
      && w.conns[d] == Told(v.conns[d], Unless(d != c, m) + Unless(!Hears(v, u, d), RoomList))
  {
    SendTells(v, c, m, d);
    var told := SendTo(v, c, m);
    RoomListTells(told, u, d);
    ToldBoth(v.conns[d], Unless(d != c, m), Unless(!Hears(v, u, d), RoomList));
  }

  lemma ToldBoth(was: Conn, one: seq<Msg>, rest: seq<Msg>)
    ensures Told(Told(was, one), rest) == Told(was, one + rest)
  {
    assert (was.send + one) + rest == was.send + (one + rest);
  }

  // A member that leaves: first those who stay are told, then the leaver, then all
  // other users. Nothing happens for an unknown room or a non-member.
  lemma LeaveTells(v: Server, c: ConnId, r: RoomId, d: ConnId)
    requires Known(v, c) && d in v.conns && |v.conns[d].send| + 3 <= 256
    ensures var w := HandleLeave(v, c, r); var u := v.conns[c].user.value;
      if r !in v.rooms || u !in v.rooms[r].members then w == v else
      && w.clients == v.clients && w.limits == v.limits && w.conns.Keys == v.conns.Keys
      && w.rooms == Without(v.rooms, u, [r])
      && w.conns[d] == Told(v.conns[d], Unless(!Stays(v, r, u, d), UserLeft(r, u))
                                        + (Unless(d != c, RoomLeft(r)) + Unless(!Hears(v, u, d), RoomList)))
                       .(rooms := v.conns[d].rooms - if d == c then {r} else {})
  {
    var u := v.conns[c].user.value;
    if r in v.rooms && u in v.rooms[r].members {
      var left := LeaveRoom(v, c, r);
      LeaveRoomRooms(v, c, r);
      LeaveRoomTells(v, c, r, d);
      assert Dropped(v, u, [r], d == c) == if d == c then {r} else {};
      SendAndListTells(left, c, RoomLeft(r), u, d);
      ToldTwice(v.conns[d], Unless(!Stays(v, r, u, d), UserLeft(r, u)),
                Unless(d != c, RoomLeft(r)) + Unless(!Hears(v, u, d), RoomList), Dropped(v, u, [r], d == c), {});
    }
  }

  // ----------------------------------------------------------------- joining

  // Entering: the newcomer is told who is there, then those are told, then all others.
  lemma EnterTells(v: Server, c: ConnId, r: RoomId, snapshot: seq<UserId>, d: ConnId)
    requires Known(v, c) && r in v.rooms && d in v.conns && |v.conns[d].send| + 2 < 256
    ensures var w := EnterRoom(v, c, r, snapshot); var u := v.conns[c].user.value;
      && w.clients == v.clients && w.limits == v.limits && w.conns.Keys == v.conns.Keys
      && w.rooms == v.rooms[r := Room(v.rooms[r].name, v.rooms[r].members[u := c])]
      && w.conns[d] == Told(v.conns[d], Unless(d != c, RoomJoined(r, snapshot))
                                        + Unless(d !in v.rooms[r].members.Values, UserJoined(r, u)))
                       .(rooms := v.conns[d].rooms + if d == c then {r} else {})
  {
    var was := v.conns[d];
    assert was.rooms + {} == was.rooms && was.send + [] == was.send;
    ToldBoth(was, Unless(d != c, RoomJoined(r, snapshot)),
             Unless(d !in v.rooms[r].members.Values, UserJoined(r, v.conns[c].user.value)));
  }

  // The join is allowed: the room exists and is not full.
  predicate Allowed(rooms: map<RoomId, Room>, limits: Limits, r: RoomId) {
    r in rooms && |rooms[r].members| < limits.maxRoomSize
  }

  ghost function JoinNotices(v: Server, c: ConnId, r: RoomId, members: map<UserId, ConnId>, snapshot: seq<UserId>,
                             d: ConnId): seq<Msg>
    requires Known(v, c)
  {
    var u := v.conns[c].user.value;
    Unless(d != c, RoomJoined(r, snapshot)) + Unless(d !in members.Values, UserJoined(r, u))
    + Unless(!Hears(v, u, d), RoomList)
  }

  lemma EnterAndListTells(v: Server, c: ConnId, r: RoomId, snapshot: seq<UserId>, d: ConnId)
    requires Known(v, c) && r in v.rooms && d in v.conns && |v.conns[d].send| + 3 <= 256
    ensures var u := v.conns[c].user.value; var w := BroadcastRoomList(EnterRoom(v, c, r, snapshot), u);
      && w.clients == v.clients && w.limits == v.limits && w.conns.Keys == v.conns.Keys
      && w.rooms == v.rooms[r := Room(v.rooms[r].name, v.rooms[r].members[u := c])]
      && w.conns[d] == Told(v.conns[d], JoinNotices(v, c, r, v.rooms[r].members, snapshot, d))
                       .(rooms := v.conns[d].rooms + if d == c then {r} else {})
  {
    var u := v.conns[c].user.value;
    EnterTells(v, c, r, snapshot, d);
    RoomListTells(EnterRoom(v, c, r, snapshot), u, d);
    ToldBoth(v.conns[d],
             Unless(d != c, RoomJoined(r, snapshot)) + Unless(d !in v.rooms[r].members.Values, UserJoined(r, u)),
             Unless(!Hears(v, u, d), RoomList));
  }

  // A join leaves the old rooms first, whatever comes of it. If the room is unknown or
  // full, it then fails with an error to the caller alone ...
  lemma RefusedTells(v: Server, c: ConnId, r: RoomId, order: seq<RoomId>, snapshot: seq<UserId>, d: ConnId)
    requires Known(v, c) && NoDup(order) && Elems(order) <= v.rooms.Keys && d in v.conns
    requires |v.conns[d].send| + |order| < 256
    requires !Allowed(Without(v.rooms, v.conns[c].user.value, order), v.limits, r)
    ensures var w := HandleJoin(v, c, r, order, snapshot); var u := v.conns[c].user.value;
      && w.clients == v.clients && w.limits == v.limits && w.conns.Keys == v.conns.Keys
      && w.rooms == Without(v.rooms, u, order)
      && w.conns[d] == Told(v.conns[d], Departures(v, u, order, d) + Unless(d != c, Failure))
                       .(rooms := v.conns[d].rooms - Dropped(v, u, order, d == c))
  {
    var u := v.conns[c].user.value;
    LeaveEachRooms(v, c, order);
    LeaveEachTells(v, c, order, d);
    DeparturesFew(v, u, order, d);
    SendTells(LeaveEach(v, c, order), c, Failure, d);
    ToldBoth(v.conns[d], Departures(v, u, order, d), Unless(d != c, Failure));
  }

  // ... and otherwise the newcomer is told who is there, those are told of the
  // newcomer, and all other users are sent the room list.
  lemma JoinTells(v: Server, c: ConnId, r: RoomId, order: seq<RoomId>, snapshot: seq<UserId>, d: ConnId)
    requires Known(v, c) && NoDup(order) && Elems(order) <= v.rooms.Keys && d in v.conns
    requires |v.conns[d].send| + |order| + 3 <= 256
    requires Allowed(Without(v.rooms, v.conns[c].user.value, order), v.limits, r)
    ensures var w := HandleJoin(v, c, r, order, snapshot); var u := v.conns[c].user.value;
      var left := Without(v.rooms, u, order);
      && w.clients == v.clients && w.limits == v.limits && w.conns.Keys == v.conns.Keys
      && w.rooms == left[r := Room(left[r].name, left[r].members[u := c])]
      && w.conns[d] == Told(v.conns[d], Departures(v, u, order, d) + JoinNotices(v, c, r, left[r].members, snapshot, d))
                       .(rooms := v.conns[d].rooms - Dropped(v, u, order, d == c) + if d == c then {r} else {})
  {
    var u := v.conns[c].user.value;
    LeaveEachRooms(v, c, order);
    LeaveEachTells(v, c, order, d);
    DeparturesFew(v, u, order, d);
    var left := LeaveEach(v, c, order);
    EnterAndListTells(left, c, r, snapshot, d);
    ToldBoth(v.conns[d], Departures(v, u, order, d), JoinNotices(left, c, r, left.rooms[r].members, snapshot, d));
  }

  lemma {:induction false} DeparturesFew(v: Server, u: UserId, order: seq<RoomId>, d: ConnId)
    ensures |Departures(v, u, order, d)| <= |order|
  {
    if order != [] {
      DeparturesFew(v, u, order[1..], d);
    }
  }

  // ----------------------------------------------------------------- closing

  lemma {:induction false} LeaveEachTwice(v: Server, c: ConnId, order: seq<RoomId>, more: seq<RoomId>)
    requires Known(v, c) && Elems(order + more) <= v.rooms.Keys
    ensures Elems(order) <= Elems(order + more) && Elems(more) <= Elems(order + more)
    ensures LeaveEach(LeaveEach(v, c, order), c, more) == LeaveEach(v, c, order + more)
    decreases |order|
  {
    assert forall r :: r in order + more <==> r in order || r in more;
    if order == [] {
      assert [] + more == more;
    } else {
      assert (order + more)[1..] == order[1..] + more && order[0] in Elems(order);
      assert Elems(order[1..] + more) <= Elems(order + more);
      LeaveEachTwice(LeaveRoom(v, c, order[0]), c, order[1..], more);
    }
  }

  // The ghost scan finds rooms other than those just left.
  lemma GhostsApart(v: Server, c: ConnId, order: seq<RoomId>, ghosts: seq<RoomId>)
    requires Known(v, c) && Elems(order) <= v.rooms.Keys && NoDup(order) && NoDup(ghosts)
    requires Elems(ghosts) == GhostRooms(LeaveEach(RemoveClient(v, c), c, order), v.conns[c].user.value)
    ensures NoDup(order + ghosts) && Elems(order + ghosts) <= v.rooms.Keys
    ensures forall r :: r in v.rooms && v.conns[c].user.value in v.rooms[r].members ==> r in order + ghosts
  {
    var u := v.conns[c].user.value;
    LeaveEachRooms(RemoveClient(v, c), c, order);
    forall r | r in ghosts ensures r in v.rooms && r !in order {
      assert r in Elems(ghosts);
    }
    forall r | r in v.rooms && u in v.rooms[r].members && r !in order ensures r in ghosts {
      assert r in Elems(ghosts);
    }
    NoDupBoth(order, ghosts);
    forall r | r in Elems(order + ghosts) ensures r in v.rooms {
      assert r in order || r in ghosts;
    }
  }

  lemma NoDupBoth<T>(a: seq<T>, b: seq<T>)
    requires NoDup(a) && NoDup(b) && forall x :: x in b ==> x !in a
    ensures NoDup(a + b)
  {
    forall i, j | 0 <= i < j < |a + b| ensures (a + b)[i] != (a + b)[j] {
      assert j >= |a| ==> (a + b)[j] == b[j - |a|] && b[j - |a|] in b;
    }
  }

  lemma GoneRooms(v: Server, c: ConnId, order: seq<RoomId>, ghosts: seq<RoomId>)
    requires Known(v, c) && Elems(order + ghosts) <= v.rooms.Keys
    ensures Elems(order) <= Elems(order + ghosts) && Elems(ghosts) <= Elems(order + ghosts)
    ensures var u := v.conns[c].user.value; var w := Disconnect(v, c, order, ghosts);
      && w.rooms == Without(v.rooms, u, order + ghosts) && w.limits == v.limits && w.conns.Keys == v.conns.Keys
      && w.clients == if u in v.clients && v.clients[u] == c then v.clients - {u} else v.clients
  {
    var k := RemoveClient(v, c);
    LeaveEachTwice(k, c, order, ghosts);
    LeaveEachRooms(k, c, order + ghosts);
  }

  // Once a connection is closed no room lists its user, through whatever connection;
  // everyone else is listed as before.
  lemma ClosedIsNowhere(v: Server, c: ConnId, order: seq<RoomId>, ghosts: seq<RoomId>)
    requires Known(v, c) && Elems(order) <= v.rooms.Keys && NoDup(order) && NoDup(ghosts)
    requires Elems(ghosts) == GhostRooms(LeaveEach(RemoveClient(v, c), c, order), v.conns[c].user.value)
    ensures NoDup(order + ghosts) && Elems(order + ghosts) <= v.rooms.Keys && Elems(ghosts) <= v.rooms.Keys
    ensures var w := Disconnect(v, c, order, ghosts);
      && w.rooms.Keys == v.rooms.Keys
      && forall r :: r in v.rooms ==> w.rooms[r].members == v.rooms[r].members - {v.conns[c].user.value}
  {
    var u := v.conns[c].user.value;
    GhostsApart(v, c, order, ghosts);
    GoneRooms(v, c, order, ghosts);
    forall r | r in v.rooms ensures Without(v.rooms, u, order + ghosts)[r].members == v.rooms[r].members - {u} {
      assert u !in v.rooms[r].members ==> v.rooms[r].members - {u} == v.rooms[r].members;
    }
  }

  // A closed connection is unregistered if it was the registered one, its user leaves
  // every room, telling who stays, and then all other users are sent the room list.
  lemma CloseTells(v: Server, c: ConnId, order: seq<RoomId>, ghosts: seq<RoomId>, d: ConnId)
    requires Known(v, c) && NoDup(order + ghosts) && Elems(order + ghosts) <= v.rooms.Keys && d in v.conns
    requires |v.conns[d].send| + |order + ghosts| < 256
    ensures Elems(order) <= Elems(order + ghosts) && Elems(ghosts) <= Elems(order + ghosts)
    ensures var u := v.conns[c].user.value; var w := Disconnect(v, c, order, ghosts); var all := order + ghosts;
      && d in w.conns
      && w.conns[d] == Told(v.conns[d], Departures(v, u, all, d) + Unless(!Hears(v, u, d), RoomList))
                       .(rooms := v.conns[d].rooms - Dropped(v, u, all, d == c), closed := v.conns[d].closed || d == c)
  {
    var u, all := v.conns[c].user.value, order + ghosts;
    DisconnectIs(v, c, order, ghosts);
    RetiredTells(v, c, all, d);
    DeparturesFew(v, u, all, d);
    ClosedTells(LeaveEach(RemoveClient(v, c), c, all), c, u, d);
    ToldBoth(v.conns[d], Departures(v, u, all, d), Unless(!Hears(v, u, d), RoomList));
  }

  lemma DisconnectIs(v: Server, c: ConnId, order: seq<RoomId>, ghosts: seq<RoomId>)
    requires Known(v, c) && Elems(order + ghosts) <= v.rooms.Keys
    ensures Elems(order) <= Elems(order + ghosts) && Elems(ghosts) <= Elems(order + ghosts)
    ensures var left := LeaveEach(RemoveClient(v, c), c, order + ghosts);
      Disconnect(v, c, order, ghosts) == BroadcastRoomList(MarkClosed(left, c), v.conns[c].user.value)
  {
    LeaveEachTwice(RemoveClient(v, c), c, order, ghosts);
  }

  lemma RetiredTells(v: Server, c: ConnId, all: seq<RoomId>, d: ConnId)
    requires Known(v, c) && NoDup(all) && Elems(all) <= v.rooms.Keys && d in v.conns
    requires |v.conns[d].send| + |all| <= 256
    ensures var w := LeaveEach(RemoveClient(v, c), c, all); var u := v.conns[c].user.value;
      && d in w.conns && (Hears(w, u, d) <==> Hears(v, u, d))
      && w.conns[d] == Told(v.conns[d], Departures(v, u, all, d)).(rooms := v.conns[d].rooms - Dropped(v, u, all, d == c))
  {
    var u := v.conns[c].user.value;
    var k := RemoveClient(v, c);
    LeaveEachRooms(k, c, all);
    LeaveEachTells(k, c, all, d);
    Elsewhere(v, k, u, all, d, d == c);
    var w := LeaveEach(k, c, all);
    assert forall x :: x != u && x in v.clients ==> x in w.clients;
  }

  // A connection nobody is logged in on is only marked.
  lemma AnonymousCloses(v: Server, c: ConnId, order: seq<RoomId>, ghosts: seq<RoomId>, d: ConnId)
    requires c in v.conns && v.conns[c].user == None && d in v.conns
    requires Elems(order) <= v.rooms.Keys && Elems(ghosts) <= v.rooms.Keys
    ensures var w := Disconnect(v, c, order, ghosts);
      && w == v.(conns := w.conns) && w.conns.Keys == v.conns.Keys
      && w.conns[d] == v.conns[d].(closed := v.conns[d].closed || d == c)
  {
  }

  lemma ClosedTells(v: Server, c: ConnId, u: UserId, d: ConnId)
    requires c in v.conns && d in v.conns && |v.conns[d].send| < 256
    ensures var w := BroadcastRoomList(MarkClosed(v, c), u);
      && d in w.conns
      && w.conns[d] == Told(v.conns[d], Unless(!Hears(v, u, d), RoomList)).(closed := v.conns[d].closed || d == c)
  {
    RoomListTells(MarkClosed(v, c), u, d);
  }

  // --------------------------------------------------- creating and logging in

  // The name that is left when white space is trimmed must have 1 to 50 characters and
  // be new up to case, and there must be fewer rooms than the cap.
  ghost predicate Creatable(v: Server, name: string) {
    && 0 < |name| <= 50 && |v.rooms| < v.limits.maxRooms
    && forall r :: r in v.rooms ==> !SameName(v.rooms[r].name, name, v.limits.fold)
  }

  lemma CanCreateMeans(v: Server, name: string)
    ensures CanCreate(v, name) <==> Creatable(v, name)
  {
    var fold := v.limits.fold;
    forall r | r in v.rooms ensures EqualFold(v.rooms[r].name, name, fold) <==> SameName(v.rooms[r].name, name, fold) {
      EqualFoldMeans(v.rooms[r].name, name, fold);
    }
  }

  // Then the creator is told and all other users are sent the room list; otherwise the
  // caller alone is sent an error.
  lemma CreateTells(v: Server, c: ConnId, name: string, id: RoomId, d: ConnId)
    requires Known(v, c) && d in v.conns && |v.conns[d].send| + 2 <= 256
    ensures var w := HandleCreate(v, c, name, id); var u := v.conns[c].user.value; var n := TrimSpace(name);
      && w.clients == v.clients && w.limits == v.limits && w.conns.Keys == v.conns.Keys
      && w.rooms == (if Creatable(v, n) then v.rooms[id := Room(n, map[])] else v.rooms)
      && w.conns[d] == Told(v.conns[d], if Creatable(v, n)
                                        then Unless(d != c, RoomCreated(id)) + Unless(!Hears(v, u, d), RoomList)
                                        else Unless(d != c, Failure))
  {
    var n := TrimSpace(name);
    CanCreateMeans(v, n);
    if CanCreate(v, n) {
      SendAndListTells(AddRoom(v, n, id), c, RoomCreated(id), v.conns[c].user.value, d);
    } else {
      SendTells(v, c, Failure, d);
    }
  }

  // A login binds the user, takes over the registration, marks the connection that had
  // it for closing, and is confirmed to the caller alone.
  lemma LoginTells(v: Server, c: ConnId, u: UserId, d: ConnId)
    requires c in v.conns && d in v.conns && |v.conns[d].send| < 256
    ensures var w := Authenticate(v, c, u);
      && w.rooms == v.rooms && w.limits == v.limits && w.clients == v.clients[u := c] && w.conns.Keys == v.conns.Keys
      && w.conns[d] == if d == c then Told(v.conns[d].(user := Some(u)), [AuthSuccess])
                       else if u in v.clients && v.clients[u] == d then v.conns[d].(evicted := true)
                       else v.conns[d]
  {
  }
}
