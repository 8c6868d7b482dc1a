// The presence half of the hub in its own form: connections, rooms and the
// registry are objects that the handlers update in place. Every handler is
// proved to take the abstract state where the function of Presence says.

module PresenceHub {
  import opened Wrappers
  import opened Presence

  class Client {
    const id: ConnId
    var user: Option<UserId>
    var rooms: set<RoomId>
    var send: seq<Msg>
    var overflowed: bool
    var evicted: bool
    var closed: bool

    constructor (id: ConnId)
      ensures this.id == id && Value() == Conn(None, {}, [], false, false, false)
    {
      this.id := id;
      user, rooms, send, overflowed, evicted, closed := None, {}, [], false, false, false;
    }

    ghost function Value(): Conn
      reads this
    {
      Conn(user, rooms, send, overflowed, evicted, closed)
    }

    // A full buffer starts a goroutine that closes the connection.
    method Push(m: Msg)
      modifies this`send, this`overflowed
      ensures Value() == TrySend(old(Value()), m)
      ensures |old(send)| < 256 ==> send == old(send) + [m] && overflowed == old(overflowed)
      ensures |old(send)| >= 256 ==> send == old(send) && overflowed
    {
      if |send| < SEND_BUF {
        send := send + [m];
      } else {
        overflowed := true;
      }
    }
  }

  // Go's map iteration: the keys of a map in some order.
  method Keys<K(==), V>(m: map<K, V>) returns (keys: seq<K>)
    ensures NoDup(keys) && Elems(keys) == m.Keys
  {
    keys := [];
    var left := m.Keys;
    while left != {}
      invariant NoDup(keys) && Elems(keys) + left == m.Keys && Elems(keys) !! left
    {
      var k :| k in left;
      assert Elems(keys + [k]) == Elems(keys) + {k};
      keys, left := keys + [k], left - {k};
    }
  }

  // `out` is the connections that m maps `users` to, and `users` is its domain.
  ghost predicate Snap(m: map<UserId, Client>, users: seq<UserId>, out: seq<Client>) {
    && NoDup(users) && Elems(users) == m.Keys && |out| == |users|
    && forall i :: 0 <= i < |users| ==> users[i] in m && out[i] == m[users[i]]
  }

  class LiveRoom {
    const id: RoomId
    const name: string
    var clients: map<UserId, Client>

    constructor (id: RoomId, name: string)
      ensures this.id == id && this.name == name && clients == map[]
    {
      this.id, this.name := id, name;
      clients := map[];
    }

    // The members, in the order of the users given out with them.
    method Snapshot() returns (users: seq<UserId>, out: seq<Client>)
      ensures Snap(clients, users, out)
    {
      users := Keys(clients);
      out := [];
      for i := 0 to |users|
        invariant |out| == i
        invariant forall j :: 0 <= j < i ==> users[j] in clients && out[j] == clients[users[j]]
      {
        assert users[i] in Elems(users);
        out := out + [clients[users[i]]];
      }
    }

    ghost function Value(): Room
      reads this
    {
      Room(name, map u | u in clients :: clients[u].id)
    }
  }

  datatype JoinError = NotFound | Full

  class Registry {
    var clients: map<UserId, Client>
    var rooms: map<RoomId, LiveRoom>
    const limits: Limits

    constructor (limits: Limits)
      ensures this.limits == limits && clients == map[] && rooms == map[]
    {
      this.limits := limits;
      clients, rooms := map[], map[];
    }

    // Registers c for its user and returns the connection it displaces.
    method AddClient(c: Client) returns (evicted: Client?)
      requires c.user.Some?
      modifies this`clients
      ensures clients == old(clients)[c.user.value := c]
      ensures evicted == (if c.user.value in old(clients) && old(clients)[c.user.value] != c
                          then old(clients)[c.user.value] else null)
    {
      evicted := if c.user.value in clients && clients[c.user.value] != c then clients[c.user.value] else null;
      clients := clients[c.user.value := c];
    }

    method RemoveClient(c: Client)
      requires c.user.Some?
      modifies this`clients
      ensures clients == if c.user.value in old(clients) && old(clients)[c.user.value] == c
                         then old(clients) - {c.user.value} else old(clients)
    {
      if c.user.value in clients && clients[c.user.value] == c {
        clients := clients - {c.user.value};
      }
    }

    // Every registered connection of a user other than `exclude`.
    method AuthedClientsExcept(exclude: UserId) returns (users: seq<UserId>, out: seq<Client>)
      ensures Snap(clients - {exclude}, users, out)
    {
      users := Keys(clients - {exclude});
      out := [];
      for i := 0 to |users|
        invariant |out| == i
        invariant forall j :: 0 <= j < i ==> users[j] in clients - {exclude} && out[j] == clients[users[j]]
      {
        assert users[i] in Elems(users);
        out := out + [clients[users[i]]];
      }
    }

    method Room(roomID: RoomId) returns (r: LiveRoom?)
      ensures r == if roomID in rooms then rooms[roomID] else null
    {
      r := if roomID in rooms then rooms[roomID] else null;
    }

    // Looks the room up, checks its capacity, takes the snapshot and inserts, and
    // then updates the connection's own room set.
    method Join(c: Client, roomID: RoomId)
      returns (r: LiveRoom?, err: Option<JoinError>, users: seq<UserId>, existing: seq<Client>)
      requires c.user.Some?
      modifies c`rooms, (if roomID in rooms then {rooms[roomID]} else {})`clients
      ensures err == if roomID !in rooms then Some(NotFound)
                     else if |old(rooms[roomID].clients)| >= limits.maxRoomSize then Some(Full) else None
      ensures err.Some? ==> r == null && c.rooms == old(c.rooms)
      ensures err.Some? && roomID in rooms ==> rooms[roomID].clients == old(rooms[roomID].clients)
      ensures err == None ==> r == rooms[roomID] && r.clients == old(rooms[roomID].clients)[c.user.value := c]
      ensures err == None ==> c.rooms == old(c.rooms) + {r.id} && Snap(old(rooms[roomID].clients), users, existing)
    {
      r, users, existing := null, [], [];
      if roomID !in rooms { return null, Some(NotFound), [], []; }
      if |rooms[roomID].clients| >= limits.maxRoomSize { return null, Some(Full), [], []; }
      r, err := rooms[roomID], None;
      users, existing := r.Snapshot();
      r.clients := r.clients[c.user.value := c];
      c.rooms := c.rooms + {r.id};
    }

    // Removes the entry of the user of c; `remaining` is who is left.
    method Leave(c: Client, r: LiveRoom) returns (ghost users: seq<UserId>, remaining: seq<Client>, removed: bool)
      requires c.user.Some?
      modifies r`clients, c`rooms
      ensures removed == (c.user.value in old(r.clients))
      ensures !removed ==> r.clients == old(r.clients) && c.rooms == old(c.rooms)
      ensures removed ==> r.clients == old(r.clients) - {c.user.value} && c.rooms == old(c.rooms) - {r.id}
      ensures removed ==> Snap(r.clients, users, remaining)
    {
      if c.user.value !in r.clients { return [], [], false; }
      r.clients := r.clients - {c.user.value};
      users, remaining := r.Snapshot();
      c.rooms := c.rooms - {r.id};
      removed := true;
    }

    // `out` is the registry's rooms of the ids given out with it.
    ghost predicate Rooms(ids: seq<RoomId>, out: seq<LiveRoom>)
      reads this
    {
      |out| == |ids| && forall i :: 0 <= i < |ids| ==> ids[i] in rooms && out[i] == rooms[ids[i]]
    }

    // The rooms of c that the registry holds.
    method RoomsOf(c: Client) returns (ids: seq<RoomId>, out: seq<LiveRoom>)
      ensures Rooms(ids, out) && NoDup(ids) && Elems(ids) == set r | r in c.rooms && r in rooms
    {
      var order := Keys(map r | r in c.rooms :: ());
      ids, out := [], [];
      for i := 0 to |order|
        invariant Rooms(ids, out) && NoDup(ids) && Elems(ids) == set r | r in order[..i] && r in rooms
      {
        var r := order[i];
        assert order[..i + 1] == order[..i] + [r] && r !in order[..i];
        if r in rooms {
          assert Elems(ids + [r]) == Elems(ids) + {r};
          ids, out := ids + [r], out + [rooms[r]];
        }
      }
      assert order[..|order|] == order;
      assert forall r :: r in order <==> r in Elems(order);
    }

    // Every room that maps the user of c, whatever c's own room set says.
    method GhostRooms(c: Client) returns (ids: seq<RoomId>, ghosts: seq<LiveRoom>)
      requires c.user.Some?
      ensures Rooms(ids, ghosts) && NoDup(ids) && Elems(ids) == set r | r in rooms && c.user.value in rooms[r].clients
    {
      var order := Keys(rooms);
      ids, ghosts := [], [];
      for i := 0 to |order|
        invariant Rooms(ids, ghosts) && NoDup(ids)
        invariant Elems(ids) == set r | r in order[..i] && r in rooms && c.user.value in rooms[r].clients
      {
        var r := order[i];
        assert order[..i + 1] == order[..i] + [r] && r !in order[..i] && r in Elems(order);
        if c.user.value in rooms[r].clients {
          assert Elems(ids + [r]) == Elems(ids) + {r};
          ids, ghosts := ids + [r], ghosts + [rooms[r]];
        }
      }
      assert order[..|order|] == order;
      assert forall r :: r in order <==> r in Elems(order);
    }

    // Uniquely named room creation under the room cap; null is a refusal.
    method CreateRoom(name: string, id: RoomId) returns (r: LiveRoom?)
      requires id !in rooms
      modifies this`rooms
      ensures r != null <==>
        && 0 < |TrimSpace(name)| <= 50 && |old(rooms)| < limits.maxRooms
        && forall q :: q in old(rooms) ==> !EqualFold(old(rooms)[q].name, TrimSpace(name), limits.fold)
      ensures r == null ==> rooms == old(rooms)
      ensures r != null ==> fresh(r) && r.id == id && r.name == TrimSpace(name) && r.clients == map[]
      ensures r != null ==> rooms == old(rooms)[id := r]
      ensures r != null ==> exists i: nat, j: nat :: Padded(name, i, j) && r.name == name[i..j]
    {
      var n := TrimSpace(name);
      ghost var i, j := TrimmedIsSpace(name);
      if n == "" || |n| > MAX_ROOM_NAME { return null; }
      if |rooms| >= limits.maxRooms { return null; }
      var order := Keys(rooms);
      for i := 0 to |order|
        invariant forall j :: 0 <= j < i ==> order[j] in rooms && !EqualFold(rooms[order[j]].name, n, limits.fold)
      {
        assert order[i] in Elems(order);
        if EqualFold(rooms[order[i]].name, n, limits.fold) { return null; }
      }
      forall q | q in rooms ensures !EqualFold(rooms[q].name, n, limits.fold) {
        assert q in Elems(order);
      }
      r := new LiveRoom(id, n);
      rooms := rooms[id := r];
    }
  }

  class Hub {
    const reg: Registry
    ghost var conns: map<ConnId, Client>
    ghost var state: Server

    constructor (limits: Limits)
      ensures Valid() && fresh(reg) && conns == map[]
      ensures state == Server(map[], map[], map[], limits)
    {
      reg := new Registry(limits);
      conns := map[];
      state := Server(map[], map[], map[], limits);
    }

    ghost predicate Has(c: Client)
      reads this`conns
    {
      c.id in conns && conns[c.id] == c
    }

    // The objects are an image of `state`.
    ghost predicate Valid()
      reads this, reg, reg.rooms.Values`clients, conns.Values
    {
      && ConnsOk()
      && Filed(reg.clients, state.clients)
      && state.rooms.Keys == reg.rooms.Keys
      && (forall r :: r in reg.rooms ==> RoomOk(r, reg.rooms[r], state.rooms[r]))
      && state.limits == reg.limits
    }

    ghost predicate ConnsOk()
      reads this, conns.Values
    {
      && state.conns.Keys == conns.Keys
      && forall c :: c in conns ==> conns[c].id == c && conns[c].Value() == state.conns[c]
    }

    // `ids` is the user map m, by connection ids.
    ghost predicate Filed(m: map<UserId, Client>, ids: map<UserId, ConnId>)
      reads this`conns
    {
      m.Keys == ids.Keys && forall u :: u in m ==> Has(m[u]) && m[u].id == ids[u]
    }

    ghost predicate RoomOk(r: RoomId, room: LiveRoom, v: Room)
      reads this`conns, room`clients
    {
      room.id == r && room.name == v.name && Filed(room.clients, v.members)
    }

    // What keeps Valid when no map of the registry changed.
    twostate lemma OnlyConns()
      requires old(Valid()) && conns == old(conns) && ConnsOk()
      requires state.rooms == old(state.rooms) && state.clients == old(state.clients) && state.limits == old(state.limits)
      requires reg.clients == old(reg.clients) && reg.rooms == old(reg.rooms)
      requires forall r :: r in reg.rooms ==> reg.rooms[r].clients == old(reg.rooms[r].clients)
      ensures Valid()
    {
      forall r | r in reg.rooms ensures RoomOk(r, reg.rooms[r], state.rooms[r]) {
        assert old(RoomOk(r, reg.rooms[r], state.rooms[r]));
      }
    }

    method PushConns(targets: seq<Client>, m: Msg)
      requires ConnsOk() && NoDup(targets) && forall c :: c in targets ==> Has(c)
      modifies this`state, targets`send, targets`overflowed
      ensures ConnsOk()
      ensures state == old(state).(conns := SendAll(old(state).conns, set c | c in targets :: c.id, m))
    {
      ghost var ids := set c | c in targets :: c.id;
      assert forall id :: id in conns ==> (conns[id] in targets <==> id in ids);
      Deliver(targets, m);
      state := state.(conns := SendAll(state.conns, ids, m));
      forall id | id in conns ensures conns[id].Value() == state.conns[id] {
        assert old(conns[id].Value()) == old(state).conns[id];
      }
    }

    // Pushes one message to each of some distinct connections.
    method PushEach(targets: seq<Client>, m: Msg)
      requires Valid() && NoDup(targets) && forall c :: c in targets ==> Has(c)
      modifies this`state, targets`send, targets`overflowed
      ensures Valid()
      ensures state == old(state).(conns := SendAll(old(state).conns, set c | c in targets :: c.id, m))
    {
      PushConns(targets, m);
      OnlyConns();
    }

    // What keeps Valid when the user map of one room changed.
    twostate lemma OneRoom(room: LiveRoom)
      requires old(Valid()) && conns == old(conns) && ConnsOk()
      requires room.id in reg.rooms && reg.rooms[room.id] == room
      requires room.id in state.rooms && state.rooms == old(state.rooms)[room.id := state.rooms[room.id]]
      requires state.clients == old(state.clients) && state.limits == old(state.limits)
      requires state.rooms[room.id].name == room.name && Filed(room.clients, state.rooms[room.id].members)
      requires reg.clients == old(reg.clients) && reg.rooms == old(reg.rooms)
      requires forall q :: q in reg.rooms && reg.rooms[q] != room ==> reg.rooms[q].clients == old(reg.rooms[q].clients)
      ensures Valid()
    {
      forall q | q in reg.rooms ensures RoomOk(q, reg.rooms[q], state.rooms[q]) {
        assert old(RoomOk(q, reg.rooms[q], state.rooms[q]));
      }
    }

    // A snapshot of a user map lists the connections the map names, each once if
    // they are bound to the users they are filed under.
    lemma SnapIds(m: map<UserId, Client>, ids: map<UserId, ConnId>, users: seq<UserId>, out: seq<Client>)
      requires Filed(m, ids) && Snap(m, users, out)
      requires BoundMap(ids, state.conns)
      ensures NoDup(out) && forall c :: c in out ==> Has(c) && c in conns.Values
      ensures (set c | c in out :: c.id) == ids.Values
    {
      forall u | u in m ensures ids[u] in (set c | c in out :: c.id) {
        assert u in Elems(users);
        var i :| 0 <= i < |users| && users[i] == u;
        assert out[i] in out && out[i].id == ids[u];
      }
      forall c | c in out ensures c.id in ids.Values {
        var i :| 0 <= i < |out| && out[i] == c;
        assert ids[users[i]] == c.id;
      }
    }

    // Registry.Leave, with the hub's state following it.
    method RemoveConns(c: Client, r: LiveRoom) returns (ghost users: seq<UserId>, remaining: seq<Client>, removed: bool)
      requires ConnsOk() && Has(c) && c.user.Some? && r.id in state.rooms
      modifies this`state, r`clients, c`rooms
      ensures ConnsOk()
      ensures removed == (c.user.value in old(r.clients))
      ensures r.clients == if removed then old(r.clients) - {c.user.value} else old(r.clients)
      ensures state == if removed then Unlist(old(state), c.id, r.id) else old(state)
      ensures removed ==> Snap(r.clients, users, remaining)
    {
      users, remaining, removed := reg.Leave(c, r);
      if removed {
        state := Unlist(state, c.id, r.id);
      }
    }

    method Remove(c: Client, r: LiveRoom) returns (ghost users: seq<UserId>, remaining: seq<Client>, removed: bool)
      requires Valid() && Has(c) && c.user.Some? && r.id in reg.rooms && reg.rooms[r.id] == r
      modifies this`state, r`clients, c`rooms
      ensures Valid()
      ensures removed == (c.user.value in old(state).rooms[r.id].members)
      ensures state == if removed then Unlist(old(state), c.id, r.id) else old(state)
      ensures removed ==> Snap(r.clients, users, remaining)
    {
      assert RoomOk(r.id, r, state.rooms[r.id]);
      users, remaining, removed := RemoveConns(c, r);
      assert Filed(r.clients, state.rooms[r.id].members);
      OneRoom(r);
    }

    // Leave and tell who is left; true if c's user was a member.
    method DoLeaveRoom(c: Client, r: LiveRoom) returns (removed: bool)
      requires Valid() && Bound(state) && Has(c) && c.user.Some? && r.id in reg.rooms && reg.rooms[r.id] == r
      modifies this`state, r`clients, c`rooms, conns.Values`send, conns.Values`overflowed
      ensures Valid() && Bound(state)
      ensures removed == (old(c.user.value) in old(state).rooms[r.id].members)
      ensures state == LeaveRoom(old(state), c.id, r.id)
    {
      var u := c.user.value;
      ghost var users;
      var remaining;
      users, remaining, removed := Remove(c, r);
      if removed {
        UnlistBound(old(state), c.id, r.id);
        assert RoomOk(r.id, r, state.rooms[r.id]);
        SnapIds(r.clients, state.rooms[r.id].members, users, remaining);
        SendAllBound(state, state.rooms[r.id].members.Values, UserLeft(r.id, u));
        PushEach(remaining, UserLeft(r.id, u));
      }
    }

    // Leave some rooms one after another.
    method LeaveRooms(c: Client, ghost ids: seq<RoomId>, rs: seq<LiveRoom>)
      requires Valid() && Bound(state) && Has(c) && c.user.Some? && reg.Rooms(ids, rs)
      modifies this`state, reg.rooms.Values`clients, c`rooms, conns.Values`send, conns.Values`overflowed
      ensures Valid() && Bound(state)
      ensures Elems(ids) <= old(state).rooms.Keys && state == LeaveEach(old(state), c.id, ids)
    {
      for i := 0 to |rs|
        invariant Valid() && Bound(state) && Elems(ids[i..]) <= state.rooms.Keys
        invariant LeaveEach(state, c.id, ids[i..]) == LeaveEach(old(state), c.id, ids)
      {
        assert ids[i..][0] == ids[i] && ids[i..][1..] == ids[i + 1..];
        assert rs[i] in reg.rooms.Values;
        var removed := DoLeaveRoom(c, rs[i]);
      }
    }
  
    // Push to a single connection.
    method PushOne(c: Client, m: Msg)
      requires Valid() && Has(c)
      modifies this`state, c`send, c`overflowed
      ensures Valid() && c.Value() == TrySend(old(c.Value()), m)
      ensures state == SendTo(old(state), c.id, m)
    {
      PushOneConns(c, m);
      OnlyConns();
    }

    method PushOneConns(c: Client, m: Msg)
      requires ConnsOk() && Has(c)
      modifies this`state, c`send, c`overflowed
      ensures ConnsOk() && c.Value() == TrySend(old(c.Value()), m)
      ensures state == SendTo(old(state), c.id, m)
    {
      c.Push(m);
      state := SendTo(state, c.id, m);
    }

    method PushRoomList(exclude: UserId)
      requires Valid() && Bound(state)
      modifies this`state, conns.Values`send, conns.Values`overflowed
      ensures Valid() && Bound(state)
      ensures state == BroadcastRoomList(old(state), exclude)
    {
      var users, targets := reg.AuthedClientsExcept(exclude);
      var ids := state.clients - {exclude};
      assert Filed(reg.clients, state.clients);
      SnapIds(reg.clients - {exclude}, ids, users, targets);
      assert ids.Values == AuthedExcept(state, exclude);
      SendAllBound(state, ids.Values, RoomList);
      PushEach(targets, RoomList);
    }

    // The room of this id, if there is one.
    ghost function RoomSet(roomID: RoomId): set<LiveRoom>
      reads this, reg
    {
      if roomID in reg.rooms then {reg.rooms[roomID]} else {}
    }

    // Registry.Join, with the hub's state following it.
    method InsertConns(c: Client, roomID: RoomId) returns (ok: bool, users: seq<UserId>, existing: seq<Client>)
      requires ConnsOk() && Has(c) && c.user.Some? && state.rooms.Keys == reg.rooms.Keys
      requires roomID in reg.rooms ==> reg.rooms[roomID].id == roomID
      modifies this`state, RoomSet(roomID)`clients, c`rooms
      ensures ConnsOk()
      ensures ok == (roomID in reg.rooms && |old(reg.rooms[roomID].clients)| < reg.limits.maxRoomSize)
      ensures ok ==> reg.rooms[roomID].clients == old(reg.rooms[roomID].clients)[c.user.value := c]
      ensures !ok && roomID in reg.rooms ==> reg.rooms[roomID].clients == old(reg.rooms[roomID].clients)
      ensures state == if ok then Enlist(old(state), c.id, roomID) else old(state)
      ensures ok ==> Snap(old(reg.rooms[roomID].clients), users, existing)
    {
      var r, err;
      r, err, users, existing := reg.Join(c, roomID);
      ok := err == None;
      if ok {
        state := Enlist(state, c.id, roomID);
      }
      forall id | id in conns ensures conns[id].id == id && conns[id].Value() == state.conns[id] {
        assert old(conns[id].Value()) == old(state).conns[id];
        assert conns[id] == c <==> id == c.id;
      }
    }

    // The same, with what it leaves alone.
    method InsertApart(c: Client, roomID: RoomId) returns (ok: bool, users: seq<UserId>, existing: seq<Client>)
      requires ConnsOk() && Has(c) && c.user.Some? && state.rooms.Keys == reg.rooms.Keys
      requires roomID in reg.rooms ==> reg.rooms[roomID].id == roomID
      requires forall q :: q in reg.rooms && q != roomID ==> reg.rooms[q] !in RoomSet(roomID)
      modifies this`state, reg.rooms.Values`clients, c`rooms
      ensures ConnsOk() && state.clients == old(state.clients) && state.limits == old(state.limits)
      ensures ok == (roomID in reg.rooms && |old(reg.rooms[roomID].clients)| < reg.limits.maxRoomSize)
      ensures forall q :: q in reg.rooms && q != roomID ==> reg.rooms[q].clients == old(reg.rooms[q].clients)
      ensures ok ==> reg.rooms[roomID].clients == old(reg.rooms[roomID].clients)[c.user.value := c]
      ensures !ok ==> forall q :: q in reg.rooms ==> reg.rooms[q].clients == old(reg.rooms[q].clients)
      ensures state == if ok then Enlist(old(state), c.id, roomID) else old(state)
      ensures ok ==> var was := old(state.rooms)[roomID];
        state.rooms == old(state.rooms)[roomID := was.(members := was.members[c.user.value := c.id])]
      ensures ok ==> Snap(old(reg.rooms[roomID].clients), users, existing)
    {
      ok, users, existing := InsertConns(c, roomID);
    }

    method Insert(c: Client, roomID: RoomId) returns (ok: bool, users: seq<UserId>, existing: seq<Client>)
      requires Valid() && Has(c) && c.user.Some?
      modifies this`state, reg.rooms.Values`clients, c`rooms
      ensures Valid()
      ensures ok == CanJoin(old(state), roomID)
      ensures state == if ok then Enlist(old(state), c.id, roomID) else old(state)
      ensures ok ==> Snap(old(reg.rooms[roomID].clients), users, existing)
    {
      RoomsApart(roomID);
      ok, users, existing := InsertApart(c, roomID);
      InsertedOr((roomID, c));
    }

    lemma RoomsApart(roomID: RoomId)
      requires Valid()
      ensures roomID in reg.rooms ==> reg.rooms[roomID].id == roomID
      ensures roomID in reg.rooms ==> |reg.rooms[roomID].clients| == |state.rooms[roomID].members|
      ensures forall q :: q in reg.rooms && q != roomID ==> reg.rooms[q] !in RoomSet(roomID)
    {
      forall q | q in reg.rooms ensures reg.rooms[q].id == q {
        assert RoomOk(q, reg.rooms[q], state.rooms[q]);
      }
      if roomID in reg.rooms {
        SameSize(reg.rooms[roomID].clients, state.rooms[roomID].members);
      }
    }

    lemma SameSize(m: map<UserId, Client>, ids: map<UserId, ConnId>)
      requires Filed(m, ids)
      ensures |m| == |ids|
    {
      assert |m.Keys| == |ids.Keys|;
    }

    // What keeps Valid when a connection was entered in the user map of a room, or
    // nothing was changed.
    twostate lemma InsertedOr(at: (RoomId, Client))
      requires old(Valid()) && conns == old(conns) && ConnsOk() && Has(at.1) && at.1.user.Some?
      requires reg.clients == old(reg.clients) && reg.rooms == old(reg.rooms)
      requires forall q :: q in reg.rooms && q != at.0 ==> reg.rooms[q].clients == old(reg.rooms[q].clients)
      requires EntryOnly(at)
      ensures Valid()
    {
      forall q | q in reg.rooms ensures RoomOk(q, reg.rooms[q], state.rooms[q]) {
        assert old(RoomOk(q, reg.rooms[q], state.rooms[q]));
      }
    }

    // At most that connection was entered, in both the room and its image.
    twostate predicate EntryOnly(at: (RoomId, Client))
      reads this, reg, reg.rooms.Values`clients, at.1
    {
      && state.clients == old(state.clients) && state.limits == old(state.limits)
      && (|| (&& state.rooms == old(state.rooms)
              && (at.0 in reg.rooms && at.0 in old(reg.rooms) ==> reg.rooms[at.0].clients == old(reg.rooms[at.0].clients)))
          || (&& at.0 in reg.rooms && at.0 in old(reg.rooms) && at.0 in old(state.rooms) && at.1.user.Some?
              && reg.rooms[at.0].clients == old(reg.rooms[at.0].clients)[at.1.user.value := at.1]
              && var was := old(state.rooms)[at.0];
                 state.rooms == old(state.rooms)[at.0 := was.(members := was.members[at.1.user.value := at.1.id])]))
    }

    // -------------------------------------------------------------- handlers

    method LeaveAllRooms(c: Client) returns (ghost order: seq<RoomId>)
      requires Valid() && Bound(state) && Has(c) && c.user.Some?
      modifies this`state, reg.rooms.Values`clients, c`rooms, conns.Values`send, conns.Values`overflowed
      ensures Valid() && Bound(state)
      ensures NoDup(order) && Elems(order) == RoomsOf(old(state), c.id)
      ensures Elems(order) <= old(state).rooms.Keys && state == LeaveEach(old(state), c.id, order)
    {
      var rs;
      order, rs := reg.RoomsOf(c);
      LeaveRooms(c, order, rs);
    }

    method HandleJoinRoom(c: Client, roomID: RoomId) returns (ghost order: seq<RoomId>, ghost snapshot: seq<UserId>)
      requires Valid() && Bound(state) && Has(c) && c.user.Some?
      modifies this`state, reg.rooms.Values`clients, c`rooms, conns.Values`send, conns.Values`overflowed
      ensures Valid() && Bound(state)
      ensures NoDup(order) && Elems(order) == RoomsOf(old(state), c.id)
      ensures var left := LeaveEach(old(state), c.id, order);
        CanJoin(left, roomID) ==> NoDup(snapshot) && Elems(snapshot) == left.rooms[roomID].members.Keys
      ensures state == HandleJoin(old(state), c.id, roomID, order, snapshot)
    {
      order := LeaveAllRooms(c);
      snapshot := TryEnter(c, roomID);
    }

    // handleJoinRoom, once the client is in no room.
    method TryEnter(c: Client, roomID: RoomId) returns (ghost snapshot: seq<UserId>)
      requires Valid() && Bound(state) && Has(c) && c.user.Some?
      modifies this`state, reg.rooms.Values`clients, c`rooms, conns.Values`send, conns.Values`overflowed
      ensures Valid() && Bound(state)
      ensures CanJoin(old(state), roomID) ==> NoDup(snapshot) && Elems(snapshot) == old(state).rooms[roomID].members.Keys
      ensures CanJoin(old(state), roomID) ==>
        state == BroadcastRoomList(EnterRoom(old(state), c.id, roomID, snapshot), old(c.user.value))
      ensures !CanJoin(old(state), roomID) ==> state == SendTo(old(state), c.id, Failure)
    {
      var u := c.user.value;
      var ok;
      ok, snapshot := Enter(c, roomID);
      if !ok {
        Tell(c, Failure);
      } else {
        PushRoomList(u);
      }
    }

    method Tell(c: Client, m: Msg)
      requires Valid() && Bound(state) && Has(c)
      modifies this`state, c`send, c`overflowed
      ensures Valid() && Bound(state) && c.Value() == TrySend(old(c.Value()), m)
      ensures state == SendTo(old(state), c.id, m)
    {
      SendAllBound(state, {c.id}, m);
      assert SendTo(state, c.id, m) == state.(conns := SendAll(state.conns, {c.id}, m));
      PushOne(c, m);
    }

    // The insertion of handleJoinRoom with the notices that follow it.
    method Enter(c: Client, roomID: RoomId) returns (ok: bool, ghost snapshot: seq<UserId>)
      requires Valid() && Bound(state) && Has(c) && c.user.Some?
      modifies this`state, reg.rooms.Values`clients, c`rooms, conns.Values`send, conns.Values`overflowed
      ensures Valid() && Bound(state)
      ensures ok == CanJoin(old(state), roomID)
      ensures !ok ==> state == old(state)
      ensures ok ==> NoDup(snapshot) && Elems(snapshot) == old(state).rooms[roomID].members.Keys
      ensures ok ==> state == EnterRoom(old(state), c.id, roomID, snapshot)
    {
      var u := c.user.value;
      ghost var known := roomID in state.rooms;
      ghost var members := if known then state.rooms[roomID].members else map[];
      ghost var clients := if known then reg.rooms[roomID].clients else map[];
      assert known ==> RoomOk(roomID, reg.rooms[roomID], state.rooms[roomID]);
      var users, existing;
      ok, users, existing := Insert(c, roomID);
      snapshot := users;
      if ok {
        EnterBound(old(state), c.id, roomID, snapshot);
        EnlistBoundMap(old(state), c.id, roomID, roomID);
        SnapIds(clients, members, users, existing);
        Announce(c, roomID, u, users, existing);
      }
    }

    method Announce(c: Client, roomID: RoomId, u: UserId, users: seq<UserId>, existing: seq<Client>)
      requires Valid() && Has(c) && NoDup(existing) && forall d :: d in existing ==> Has(d)
      modifies this`state, c`send, c`overflowed, existing`send, existing`overflowed
      ensures Valid()
      ensures var told := SendTo(old(state), c.id, RoomJoined(roomID, users));
        state == told.(conns := SendAll(told.conns, set d | d in existing :: d.id, UserJoined(roomID, u)))
    {
      PushOne(c, RoomJoined(roomID, users));
      PushEach(existing, UserJoined(roomID, u));
    }
  
    method HandleLeaveRoom(c: Client, roomID: RoomId)
      requires Valid() && Bound(state) && Has(c) && c.user.Some?
      modifies this`state, reg.rooms.Values`clients, c`rooms, conns.Values`send, conns.Values`overflowed
      ensures Valid() && Bound(state)
      ensures state == HandleLeave(old(state), c.id, roomID)
    {
      var u := c.user.value;
      var r := reg.Room(roomID);
      if r == null { return; }
      assert RoomOk(roomID, r, state.rooms[roomID]);
      var removed := DoLeaveRoom(c, r);
      if removed {
        Tell(c, RoomLeft(roomID));
        PushRoomList(u);
      }
    }

    // `target` is another user with a registered connection, and some room of c that
    // the registry holds lists them.
    ghost predicate MayReach(c: Client, target: UserId)
      requires c.user.Some?
      reads reg, c`user, c`rooms, reg.rooms.Values`clients
    {
      && target != c.user.value && target in reg.clients
      && exists r :: r in c.rooms && r in reg.rooms && target in reg.rooms[r].clients
    }

    lemma MayReachIs(c: Client, target: UserId)
      requires Valid() && Has(c) && c.user.Some?
      ensures MayReach(c, target) <==> MayRelay(state, c.id, target)
      ensures MayReach(c, target) ==> target in state.clients && state.clients[target] == reg.clients[target].id
    {
      forall r | r in reg.rooms ensures target in reg.rooms[r].clients <==> target in state.rooms[r].members {
        assert RoomOk(r, reg.rooms[r], state.rooms[r]);
      }
    }

    // The registered connection of `target` if it shares a room with c.
    method PeerClient(c: Client, target: UserId) returns (peer: Client?)
      requires Valid() && Has(c) && c.user.Some?
      ensures peer == if MayReach(c, target) then reg.clients[target] else null
    {
      if target == c.user.value || target !in reg.clients { return null; }
      ghost var ids;
      var rs;
      ids, rs := reg.RoomsOf(c);
      for i := 0 to |rs|
        invariant forall j :: 0 <= j < i ==> target !in rs[j].clients
      {
        assert ids[i] in Elems(ids);
        if target in rs[i].clients { return reg.clients[target]; }
      }
      forall r | r in c.rooms && r in reg.rooms ensures target !in reg.rooms[r].clients {
        assert r in Elems(ids);
      }
      peer := null;
    }

    method HandleRelay(c: Client, kind: SignalKind, target: UserId)
      requires Valid() && Bound(state) && Has(c) && c.user.Some?
      modifies this`state, conns.Values`send, conns.Values`overflowed
      ensures Valid() && Bound(state)
      ensures state == HandleSignal(old(state), c.id, kind, target)
      ensures state == if old(MayReach(c, target))
        then SendTo(old(state), old(reg.clients[target].id), Signal(kind, old(c.user.value))) else old(state)
    {
      MayReachIs(c, target);
      var peer := PeerClient(c, target);
      if peer != null {
        Tell(peer, Signal(kind, c.user.value));
      }
    }

    // A new socket: a connection nobody is logged in on.
    method Accept(id: ConnId) returns (c: Client)
      requires Valid() && Bound(state) && id !in conns
      modifies this`state, this`conns
      ensures Valid() && Bound(state) && fresh(c) && conns == old(conns)[id := c]
      ensures c.id == id && c.Value() == Conn(None, {}, [], false, false, false)
      ensures state == Accepted(old(state), id)
    {
      AcceptBound(state, id);
      c := AcceptConns(id);
      NewConn();
    }

    method AcceptConns(id: ConnId) returns (c: Client)
      requires ConnsOk() && id !in conns
      modifies this`state, this`conns
      ensures ConnsOk() && fresh(c) && conns == old(conns)[id := c]
      ensures c.id == id && c.Value() == Conn(None, {}, [], false, false, false)
      ensures state == Accepted(old(state), id)
    {
      c := new Client(id);
      conns := conns[id := c];
      state := Accepted(state, id);
    }

    // What keeps Valid when a connection was added.
    twostate lemma NewConn()
      requires old(Valid()) && ConnsOk() && (forall c :: c in old(conns) ==> c in conns && conns[c] == old(conns)[c])
      requires state.rooms == old(state.rooms) && state.clients == old(state.clients) && state.limits == old(state.limits)
      requires reg.clients == old(reg.clients) && reg.rooms == old(reg.rooms)
      requires forall r :: r in reg.rooms ==> reg.rooms[r].clients == old(reg.rooms[r].clients)
      ensures Valid()
    {
      forall r | r in reg.rooms ensures RoomOk(r, reg.rooms[r], state.rooms[r]) {
        assert old(RoomOk(r, reg.rooms[r], state.rooms[r]));
      }
    }

    // Binds the session, swaps the registered connection, evicts the old one.
    method Login(c: Client, u: UserId)
      requires Valid() && Has(c)
      modifies this`state, c`user, reg`clients, conns.Values`evicted, c`send, c`overflowed
      ensures Valid() && state == Authenticate(old(state), c.id, u)
      ensures old(Bound(state)) && (old(c.user) == None || old(c.user) == Some(u)) ==> Bound(state)
    {
      if Bound(state) && (c.user == None || c.user == Some(u)) {
        AuthenticateBound(state, c.id, u);
      }
      Bind(c, u);
      PushOne(c, AuthSuccess);
    }

    method Bind(c: Client, u: UserId)
      requires Valid() && Has(c)
      modifies this`state, c`user, reg`clients, conns.Values`evicted
      ensures Valid()
      ensures state == Kicked(old(state), c.id, u)
    {
      SetUser(c, u);
      var displaced := Register(c);
      if displaced != null {
        Evict(displaced);
      }
    }

    method SetUser(c: Client, u: UserId)
      requires Valid() && Has(c)
      modifies this`state, c`user
      ensures Valid() && c.user == Some(u)
      ensures state == old(state).(conns := old(state).conns[c.id := old(state).conns[c.id].(user := Some(u))])
    {
      SetUserConns(c, u);
      OnlyConns();
    }

    method SetUserConns(c: Client, u: UserId)
      requires ConnsOk() && Has(c)
      modifies this`state, c`user
      ensures ConnsOk() && c.user == Some(u)
      ensures state == old(state).(conns := old(state).conns[c.id := old(state).conns[c.id].(user := Some(u))])
    {
      c.user := Some(u);
      state := state.(conns := state.conns[c.id := state.conns[c.id].(user := Some(u))]);
      forall id | id in conns && id != c.id ensures conns[id].Value() == state.conns[id] {
        assert conns[id] != c;
      }
    }

    // Registry.AddClient, with the hub's state following it.
    method Register(c: Client) returns (displaced: Client?)
      requires Valid() && Has(c) && c.user.Some?
      modifies this`state, reg`clients
      ensures Valid()
      ensures state == old(state).(clients := old(state).clients[c.user.value := c.id])
      ensures var k := old(state).clients;
        if c.user.value in k && k[c.user.value] != c.id
        then displaced != null && Has(displaced) && displaced.id == k[c.user.value] else displaced == null
    {
      displaced := RegisterConns(c);
      SameRooms();
    }

    method RegisterConns(c: Client) returns (displaced: Client?)
      requires ConnsOk() && Filed(reg.clients, state.clients) && Has(c) && c.user.Some?
      modifies this`state, reg`clients
      ensures ConnsOk() && Filed(reg.clients, state.clients)
      ensures state == old(state).(clients := old(state).clients[c.user.value := c.id])
      ensures var k := old(state).clients;
        if c.user.value in k && k[c.user.value] != c.id
        then displaced != null && Has(displaced) && displaced.id == k[c.user.value] else displaced == null
    {
      displaced := reg.AddClient(c);
      state := state.(clients := state.clients[c.user.value := c.id]);
    }

    method Evict(d: Client)
      requires Valid() && Has(d)
      modifies this`state, d`evicted
      ensures Valid()
      ensures state == MarkEvicted(old(state), d.id)
    {
      EvictConns(d);
      OnlyConns();
    }

    method EvictConns(d: Client)
      requires ConnsOk() && Has(d)
      modifies this`state, d`evicted
      ensures ConnsOk()
      ensures state == MarkEvicted(old(state), d.id)
    {
      d.evicted := true;
      state := MarkEvicted(state, d.id);
    }

    // What keeps Valid when no room changed.
    twostate lemma SameRooms()
      requires old(Valid()) && conns == old(conns) && ConnsOk() && Filed(reg.clients, state.clients)
      requires state.rooms == old(state.rooms) && state.limits == old(state.limits) && reg.rooms == old(reg.rooms)
      requires forall r :: r in reg.rooms ==> reg.rooms[r].clients == old(reg.rooms[r].clients)
      ensures Valid()
    {
      forall r | r in reg.rooms ensures RoomOk(r, reg.rooms[r], state.rooms[r]) {
        assert old(RoomOk(r, reg.rooms[r], state.rooms[r]));
      }
    }
  
    // Client.close with handleDisconnect: runs once, on an open connection.
    method Close(c: Client) returns (ghost order: seq<RoomId>, ghost ghosts: seq<RoomId>)
      requires Valid() && Bound(state) && Has(c) && !c.closed
      modifies this`state, reg`clients, reg.rooms.Values`clients, c`rooms, c`closed
      modifies conns.Values`send, conns.Values`overflowed
      ensures Valid() && Bound(state)
      ensures Elems(order) <= old(state).rooms.Keys && Elems(ghosts) <= old(state).rooms.Keys
      ensures var v := old(state); v.conns[c.id].user.Some? ==>
        && NoDup(order) && Elems(order) == RoomsOf(v, c.id) && NoDup(ghosts)
        && var left := LeaveEach(Presence.RemoveClient(v, c.id), c.id, order);
           Elems(ghosts) == Presence.GhostRooms(left, v.conns[c.id].user.value)
      ensures state == Disconnect(old(state), c.id, order, ghosts)
    {
      order, ghosts := [], [];
      assert Elems(order) == {} && Elems(ghosts) == {};
      if c.user == None {
        SetClosed(c);
        return;
      }
      var u := c.user.value;
      order, ghosts := Vacate(c);
      SetClosed(c);
      PushRoomList(u);
    }

    // handleDisconnect up to its last notice.
    method Vacate(c: Client) returns (ghost order: seq<RoomId>, ghost ghosts: seq<RoomId>)
      requires Valid() && Bound(state) && Has(c) && c.user.Some?
      modifies this`state, reg`clients, reg.rooms.Values`clients, c`rooms, conns.Values`send, conns.Values`overflowed
      ensures Valid() && Bound(state)
      ensures Elems(order) <= old(state).rooms.Keys && Elems(ghosts) <= old(state).rooms.Keys
      ensures NoDup(order) && Elems(order) == RoomsOf(old(state), c.id) && NoDup(ghosts)
      ensures var left := LeaveEach(Presence.RemoveClient(old(state), c.id), c.id, order);
        && Elems(ghosts) == Presence.GhostRooms(left, old(c.user.value))
        && state == LeaveEach(left, c.id, ghosts)
    {
      Unregister(c);
      assert state.rooms == old(state).rooms;
      order := LeaveAllRooms(c);
      ghosts := LeaveGhosts(c);
    }

    method LeaveGhosts(c: Client) returns (ghost ghosts: seq<RoomId>)
      requires Valid() && Bound(state) && Has(c) && c.user.Some?
      modifies this`state, reg.rooms.Values`clients, c`rooms, conns.Values`send, conns.Values`overflowed
      ensures Valid() && Bound(state)
      ensures NoDup(ghosts) && Elems(ghosts) == Presence.GhostRooms(old(state), old(c.user.value))
      ensures Elems(ghosts) <= old(state).rooms.Keys && state == LeaveEach(old(state), c.id, ghosts)
    {
      var rs;
      ghosts, rs := reg.GhostRooms(c);
      assert Elems(ghosts) == Presence.GhostRooms(state, c.user.value) by {
        forall r | r in reg.rooms ensures c.user.value in reg.rooms[r].clients <==> c.user.value in state.rooms[r].members {
          assert RoomOk(r, reg.rooms[r], state.rooms[r]);
        }
      }
      LeaveRooms(c, ghosts, rs);
    }

    method SetClosed(c: Client)
      requires Valid() && Bound(state) && Has(c)
      modifies this`state, c`closed
      ensures Valid() && Bound(state)
      ensures state == MarkClosed(old(state), c.id)
    {
      MarkClosedBound(state, c.id);
      SetClosedConns(c);
      OnlyConns();
    }

    method SetClosedConns(c: Client)
      requires ConnsOk() && Has(c)
      modifies this`state, c`closed
      ensures ConnsOk()
      ensures state == MarkClosed(old(state), c.id)
    {
      c.closed := true;
      state := MarkClosed(state, c.id);
    }

    // Registry.RemoveClient, with the hub's state following it.
    method Unregister(c: Client)
      requires Valid() && Bound(state) && Has(c) && c.user.Some?
      modifies this`state, reg`clients
      ensures Valid() && Bound(state)
      ensures state == Presence.RemoveClient(old(state), c.id)
    {
      UnregisterConns(c);
      SameRooms();
    }

    method UnregisterConns(c: Client)
      requires ConnsOk() && Bound(state) && Filed(reg.clients, state.clients) && Has(c) && c.user.Some?
      modifies this`state, reg`clients
      ensures ConnsOk() && Bound(state) && Filed(reg.clients, state.clients)
      ensures state == Presence.RemoveClient(old(state), c.id)
    {
      reg.RemoveClient(c);
      state := Presence.RemoveClient(state, c.id);
    }

    method HandleCreateRoom(c: Client, name: string, id: RoomId)
      requires Valid() && Bound(state) && Has(c) && c.user.Some? && id !in reg.rooms
      modifies this`state, reg`rooms, conns.Values`send, conns.Values`overflowed
      ensures Valid() && Bound(state)
      ensures state == HandleCreate(old(state), c.id, name, id)
    {
      var created := Create(name, id);
      if created {
        Tell(c, RoomCreated(id));
        PushRoomList(c.user.value);
      } else {
        Tell(c, Failure);
      }
    }

    // Registry.CreateRoom, with the hub's state following it.
    method Create(name: string, id: RoomId) returns (created: bool)
      requires Valid() && Bound(state) && id !in reg.rooms
      modifies this`state, reg`rooms
      ensures Valid() && Bound(state)
      ensures created == CanCreate(old(state), TrimSpace(name))
      ensures state == if created then AddRoom(old(state), TrimSpace(name), id) else old(state)
    {
      assert |reg.rooms.Keys| == |state.rooms.Keys|;
      assert forall r :: r in reg.rooms ==> RoomOk(r, reg.rooms[r], state.rooms[r]);
      AddRoomBound(state, TrimSpace(name), id);
      var r := reg.CreateRoom(name, id);
      created := r != null;
      if created {
        state := AddRoom(state, TrimSpace(name), id);
        NewRoom(r);
      }
    }

    // What keeps Valid when an empty room was added.
    twostate lemma NewRoom(new room: LiveRoom)
      requires old(Valid()) && conns == old(conns) && ConnsOk()
      requires state == AddRoom(old(state), room.name, room.id)
      requires reg.clients == old(reg.clients) && room.clients == map[] && reg.rooms == old(reg.rooms)[room.id := room]
      requires forall q :: q in old(reg.rooms) && q != room.id ==> old(reg.rooms)[q].clients == old(reg.rooms[q].clients)
      ensures Valid()
    {
      forall q | q in reg.rooms ensures RoomOk(q, reg.rooms[q], state.rooms[q]) {
        if q != room.id {
          assert old(RoomOk(q, reg.rooms[q], state.rooms[q]));
        }
      }
    }
  }

  method Deliver(targets: seq<Client>, m: Msg)
    requires NoDup(targets)
    modifies targets`send, targets`overflowed
    ensures forall c :: c in targets ==> c.Value() == TrySend(old(c.Value()), m)
  {
    for i := 0 to |targets|
      invariant forall j :: 0 <= j < i ==> targets[j].Value() == TrySend(old(targets[j].Value()), m)
      invariant forall j :: i <= j < |targets| ==> targets[j].Value() == old(targets[j].Value())
    {
      targets[i].Push(m);
    }
  }
}
