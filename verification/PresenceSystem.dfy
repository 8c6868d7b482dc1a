// The whole system of hub, links and browsers as a step system, its invariant,
// and what the invariant says in every reachable state.

module PresenceSystem {
  import opened Wrappers
  import opened Presence

  // Frames already written to the socket but unread, frames the browser sent
  // that the hub has not routed, and the browser's own replica. `read` counts the
  // messages read so far, `strays` holds the numbers of those signals that were
  // relayed here although this connection shared no room with their sender, and
  // `gone` says that the page closed its socket.
  datatype Link = Link(wire: seq<Msg>, up: seq<Req>, browser: Browser, read: nat, strays: set<nat>, gone: bool)

  function NewLink(browser: Browser): Link {
    Link([], [], browser, 0, {}, false)
  }

  datatype State = State(server: Server, links: map<ConnId, Link>)

  datatype Event =
    | Connect(c: ConnId, browser: Browser)
    | Login(c: ConnId, user: UserId)
    | Refuse(c: ConnId)
    | Reject(c: ConnId)
    | Join(c: ConnId, order: seq<RoomId>, snapshot: seq<UserId>)
    | Leave(c: ConnId)
    | Relay(c: ConnId)
    | Create(c: ConnId, id: RoomId)
    | Chat(c: ConnId, to: set<ConnId>)
    | Upload(to: set<ConnId>)
    | Close(c: ConnId, order: seq<RoomId>, ghosts: seq<RoomId>)
    | Write(c: ConnId)
    | Read(c: ConnId)
    | Send(c: ConnId, req: Req)
    | ClickLeave(c: ConnId)
    | Logout(c: ConnId)
    | Drop(c: ConnId)

  ghost predicate Lists<T>(order: seq<T>, all: set<T>) {
    NoDup(order) && Elems(order) == all
  }

  // --------------------------------------------------------------- invariant

  ghost predicate Maps(v: Server, r: RoomId, u: UserId, c: ConnId) {
    r in v.rooms && u in v.rooms[r].members && v.rooms[r].members[u] == c
  }

  ghost predicate InRoom(v: Server, c: ConnId, r: RoomId) {
    c in v.conns && r in v.conns[c].rooms
  }

  ghost predicate Is(v: Server, c: ConnId, u: UserId) {
    c in v.conns && v.conns[c].user == Some(u)
  }

  // Room maps and room sets are two views of one relation, no connection is in
  // two rooms, and a closed one is in none.
  ghost predicate Agree(v: Server) {
    && (forall r, u, c :: Maps(v, r, u, c) ==> Is(v, c, u) && InRoom(v, c, r))
    && (forall c, r :: InRoom(v, c, r) ==> Known(v, c) && Maps(v, r, v.conns[c].user.value, c))
    && (forall c, r, r' :: InRoom(v, c, r) && InRoom(v, c, r') ==> r == r')
    && (forall c :: c in v.conns && v.conns[c].closed ==> v.conns[c].rooms == {})
  }

  // The registry names open connections of the right user; an open connection
  // it does not name has been evicted.
  ghost predicate Registered(v: Server) {
    && (forall u :: u in v.clients ==>
          v.clients[u] in v.conns && v.conns[v.clients[u]].user == Some(u) && !v.conns[v.clients[u]].closed)
    && (forall c :: Known(v, c) && !v.conns[c].closed ==>
          v.conns[c].evicted ||
          (v.conns[c].user.value in v.clients && v.clients[v.conns[c].user.value] == c))
  }

  ghost function Peers(v: Server, r: RoomId, c: ConnId): set<UserId>
    requires r in v.rooms && c in v.conns
  {
    set u | u in v.rooms[r].members && Some(u) != v.conns[c].user
  }

  // What a browser's replica comes to, once it has read everything pushed to it.
  ghost predicate InStep(b: Browser, r: RoomId, peers: set<UserId>, up: seq<Req>) {
    || (b.room == Some(r) && Elems(b.users) == peers && NoDup(b.users))
    || (b.room == None && LeaveReq(r) in up)
  }

  // The messages q, numbered from `at` on, show signals from listed users only,
  // strays apart.
  ghost predicate AllVisible(b: Browser, q: seq<Msg>, at: nat, strays: set<nat>)
    decreases |q|
  {
    q == [] || ((at in strays || Visible(b, q[0])) && AllVisible(Apply(b, q[0]), q[1..], at + 1, strays))
  }

  ghost predicate ViewOk(v: Server, c: ConnId, k: Link)
    requires c in v.conns
  {
    !v.conns[c].overflowed && !k.gone ==>
      var q := k.wire + v.conns[c].send;
      && AllVisible(k.browser, q, k.read, k.strays)
      && (forall r :: r in v.conns[c].rooms && r in v.rooms ==>
            InStep(Fold(k.browser, q), r, Peers(v, r, c), k.up))
  }

  ghost predicate ViewsOk(s: State) {
    && s.links.Keys == s.server.conns.Keys
    && (forall c :: c in s.links ==> ViewOk(s.server, c, s.links[c]))
  }

  ghost predicate Inv(s: State) {
    Agree(s.server) && Registered(s.server) && ViewsOk(s)
  }

  // ------------------------------------------------------ appending a message

  lemma {:induction false} FoldAppend(b: Browser, q: seq<Msg>, m: Msg, at: nat, strays: set<nat>)
    ensures Fold(b, q + [m]) == Apply(Fold(b, q), m)
    ensures AllVisible(b, q + [m], at, strays) <==>
            AllVisible(b, q, at, strays) && (at + |q| in strays || Visible(Fold(b, q), m))
    decreases |q|
  {
    if q == [] {
      assert [] + [m] == [m] && [m][1..] == [];
    } else {
      assert (q + [m])[1..] == q[1..] + [m];
      FoldAppend(Apply(b, q[0]), q[1..], m, at + 1, strays);
    }
  }

  // A push that the view of c survives: after it, r and the peers are as given.
  lemma Pushed(v: Server, w: Server, c: ConnId, k: Link, m: Msg)
    requires c in v.conns && c in w.conns
    requires ViewOk(v, c, k)
    requires w.conns[c].send == TrySend(v.conns[c], m).send
    requires w.conns[c].overflowed == TrySend(v.conns[c], m).overflowed
    requires var q := k.wire + v.conns[c].send; k.read + |q| in k.strays || Visible(Fold(k.browser, q), m)
    requires !v.conns[c].overflowed && !k.gone ==>
      var b := Apply(Fold(k.browser, k.wire + v.conns[c].send), m);
      forall r :: r in w.conns[c].rooms && r in w.rooms ==> InStep(b, r, Peers(w, r, c), k.up)
    ensures ViewOk(w, c, k)
  {
    if !w.conns[c].overflowed && !k.gone {
      var q := k.wire + v.conns[c].send;
      FoldAppend(k.browser, q, m, k.read, k.strays);
      assert k.wire + w.conns[c].send == q + [m];
    }
  }

  // ------------------------------------- each registry operation keeps it

  // No other connection of the user of c is in a room: what "the close of an
  // evicted connection finishes before its successor's next request" gives.
  ghost predicate Sole(v: Server, c: ConnId)
    requires c in v.conns
  {
    forall d :: d in v.conns && d != c && v.conns[d].user == v.conns[c].user ==> v.conns[d].rooms == {}
  }

  ghost function Put(s: State, v: Server): State {
    s.(server := v)
  }

  // A conn whose queue, if it changed at all, was sent m, and m leaves its
  // replica alone: room_left and auth_error reset one that nothing is claimed about.
  ghost predicate Quiet(a: Conn, b: Conn, m: Msg) {
    || (b.send == a.send && b.overflowed == a.overflowed)
    || (&& b.send == TrySend(a, m).send && b.overflowed == TrySend(a, m).overflowed
        && (Neutral(m) || ((m.RoomLeft? || m.AuthError?) && a.rooms == {})))
  }

  // Nobody moves between v and w: rooms may be added, connections may be bound,
  // evicted, sent to, or closed when they are in no room.
  ghost predicate Unmoved(v: Server, w: Server) {
    && w.conns.Keys == v.conns.Keys
    && (forall c :: c in v.conns ==>
          && w.conns[c].rooms == v.conns[c].rooms
          && (v.conns[c].user.Some? ==> w.conns[c].user == v.conns[c].user)
          && (w.conns[c].closed ==> v.conns[c].closed || v.conns[c].rooms == {}))
    && v.rooms.Keys <= w.rooms.Keys
    && (forall r :: r in w.rooms ==>
          w.rooms[r].members == if r in v.rooms then v.rooms[r].members else map[])
  }

  lemma UnmovedAgree(v: Server, w: Server)
    requires Agree(v) && Unmoved(v, w)
    ensures Agree(w)
    ensures forall c, r :: InRoom(v, c, r) ==> r in v.rooms && Peers(w, r, c) == Peers(v, r, c)
  {
    assert forall r, u, c :: Maps(w, r, u, c) <==> Maps(v, r, u, c);
    assert forall c, r :: InRoom(w, c, r) <==> InRoom(v, c, r);
    assert forall c, u :: Is(v, c, u) ==> Is(w, c, u);
    forall c, r | InRoom(v, c, r) ensures r in v.rooms && Peers(w, r, c) == Peers(v, r, c) {
      assert Known(v, c);
    }
  }

  lemma UnmovedView(v: Server, w: Server, c: ConnId, k: Link, m: Msg)
    requires c in v.conns && c in w.conns && Quiet(v.conns[c], w.conns[c], m) && ViewOk(v, c, k)
    requires w.conns[c].rooms == v.conns[c].rooms
    requires forall r :: r in v.conns[c].rooms ==> r in v.rooms && r in w.rooms && Peers(w, r, c) == Peers(v, r, c)
    ensures ViewOk(w, c, k)
  {
    if !(w.conns[c].send == v.conns[c].send && w.conns[c].overflowed == v.conns[c].overflowed) {
      Pushed(v, w, c, k, m);
    }
  }

  lemma UnmovedOk(s: State, w: Server, m: Msg)
    requires Inv(s) && Unmoved(s.server, w) && Registered(w)
    requires forall c :: c in s.server.conns ==> Quiet(s.server.conns[c], w.conns[c], m)
    ensures Inv(Put(s, w))
  {
    UnmovedAgree(s.server, w);
    forall c | c in s.links ensures ViewOk(w, c, s.links[c]) {
      assert forall r :: r in s.server.conns[c].rooms ==> InRoom(s.server, c, r);
      UnmovedView(s.server, w, c, s.links[c], m);
    }
  }

  lemma SentUnmoved(v: Server, to: set<ConnId>, m: Msg)
    requires Registered(v)
    ensures var w := v.(conns := SendAll(v.conns, to, m)); Unmoved(v, w) && Registered(w)
  {
    var w := v.(conns := SendAll(v.conns, to, m));
    assert forall c :: Known(w, c) <==> Known(v, c);
  }

  lemma SendOtherOk(s: State, to: set<ConnId>, m: Msg)
    requires Inv(s) && Neutral(m)
    ensures Inv(Put(s, s.server.(conns := SendAll(s.server.conns, to, m))))
  {
    var w := s.server.(conns := SendAll(s.server.conns, to, m));
    SentUnmoved(s.server, to, m);
    forall c | c in s.server.conns ensures Quiet(s.server.conns[c], w.conns[c], m) {
    }
    UnmovedOk(s, w, m);
  }

  // A message pushed to a connection that is in no room.
  lemma SendIdleOk(s: State, c: ConnId, m: Msg)
    requires Inv(s) && c in s.server.conns
    requires Neutral(m) || ((m.RoomLeft? || m.AuthError?) && s.server.conns[c].rooms == {})
    ensures Inv(Put(s, SendTo(s.server, c, m)))
  {
    var w := SendTo(s.server, c, m);
    assert forall d :: Known(w, d) <==> Known(s.server, d);
    UnmovedOk(s, w, m);
  }

  lemma MembersAre(v: Server, r: RoomId, d: ConnId)
    requires Agree(v) && r in v.rooms
    ensures d in v.rooms[r].members.Values <==> InRoom(v, d, r)
  {
    if d in v.rooms[r].members.Values {
      var u :| u in v.rooms[r].members && v.rooms[r].members[u] == d;
      assert Maps(v, r, u, d);
    }
  }

  // Leaving deletes exactly the pair (c, r) from both views and tells exactly
  // the members that stay.
  lemma LeaveShape(v: Server, c: ConnId, r: RoomId)
    requires Agree(v) && Known(v, c) && r in v.rooms && Sole(v, c)
    ensures var u := v.conns[c].user.value;
      u in v.rooms[r].members <==> InRoom(v, c, r)
    ensures var u := v.conns[c].user.value; var w := LeaveRoom(v, c, r);
      && (forall q, x, d :: Maps(w, q, x, d) <==> Maps(v, q, x, d) && !(q == r && x == u))
      && (forall q, d :: InRoom(w, d, q) <==> InRoom(v, d, q) && !(q == r && d == c))
      && (InRoom(v, c, r) ==> forall d :: d in v.conns && d != c ==>
            w.conns[d] == if InRoom(v, d, r) then TrySend(v.conns[d], UserLeft(r, u)) else v.conns[d])
      && w.conns[c] == v.conns[c].(rooms := v.conns[c].rooms - {r})
  {
    var u := v.conns[c].user.value;
    if u in v.rooms[r].members {
      assert Maps(v, r, u, v.rooms[r].members[u]);
      assert InRoom(v, v.rooms[r].members[u], r);
      var rest := v.rooms[r].members - {u};
      forall d ensures d in rest.Values <==> InRoom(v, d, r) && d != c {
        if InRoom(v, d, r) && d != c {
          assert Maps(v, r, v.conns[d].user.value, d);
          assert rest[v.conns[d].user.value] == d;
        } else if d in rest.Values {
          var x :| x in rest && rest[x] == d;
          assert Maps(v, r, x, d);
        }
      }
    }
  }

  lemma LeaveKeepsAgreement(v: Server, c: ConnId, r: RoomId)
    requires Agree(v) && Registered(v) && Known(v, c) && r in v.rooms && Sole(v, c)
    ensures Agree(LeaveRoom(v, c, r)) && Registered(LeaveRoom(v, c, r))
  {
    var w := LeaveRoom(v, c, r);
    LeaveShape(v, c, r);
    if InRoom(v, c, r) {
      assert w.clients == v.clients && w.conns.Keys == v.conns.Keys;
      forall d | d in v.conns
        ensures w.conns[d].user == v.conns[d].user && w.conns[d].closed == v.conns[d].closed &&
                w.conns[d].evicted == v.conns[d].evicted && w.conns[d].rooms <= v.conns[d].rooms
      {}
      assert forall x, d :: Is(w, d, x) <==> Is(v, d, x);
      assert forall d :: Known(w, d) <==> Known(v, d);
    }
  }

  lemma LeaveOk(s: State, c: ConnId, r: RoomId)
    requires Inv(s) && Known(s.server, c) && r in s.server.rooms && Sole(s.server, c)
    ensures Inv(Put(s, LeaveRoom(s.server, c, r))) && Sole(LeaveRoom(s.server, c, r), c)
    ensures LeaveRoom(s.server, c, r).conns[c].rooms == s.server.conns[c].rooms - {r}
  {
    LeaveKeepsAgreement(s.server, c, r);
    LeaveShape(s.server, c, r);
    if InRoom(s.server, c, r) {
      forall d | d in s.links
        ensures ViewOk(LeaveRoom(s.server, c, r), d, s.links[d])
      {
        LeaveViewOk(s, c, r, d);
      }
    }
  }

  lemma LeaveViewOk(s: State, c: ConnId, r: RoomId, d: ConnId)
    requires Inv(s) && Known(s.server, c) && r in s.server.rooms && Sole(s.server, c)
    requires d in s.links && InRoom(s.server, c, r)
    ensures ViewOk(LeaveRoom(s.server, c, r), d, s.links[d])
  {
    var v := s.server;
    var w := LeaveRoom(v, c, r);
    var u := v.conns[c].user.value;
    LeaveShape(v, c, r);
    forall q | InRoom(v, d, q) && q != r ensures Peers(w, q, d) == Peers(v, q, d) {
      assert w.rooms[q] == v.rooms[q];
    }
    if d != c && InRoom(v, d, r) {
      assert Peers(w, r, d) == Peers(v, r, d) - {u};
      Pushed(v, w, d, s.links[d], UserLeft(r, u));
    }
  }

  lemma {:induction false} LeaveEachOk(s: State, c: ConnId, order: seq<RoomId>)
    requires Inv(s) && Known(s.server, c) && Sole(s.server, c) && Elems(order) <= s.server.rooms.Keys
    ensures var w := LeaveEach(s.server, c, order);
      && Inv(Put(s, w)) && Sole(w, c)
      && w.conns[c].rooms == s.server.conns[c].rooms - Elems(order)
      && w.clients == s.server.clients
    decreases |order|
  {
    if order != [] {
      assert Elems(order) == {order[0]} + Elems(order[1..]);
      LeaveOk(s, c, order[0]);
      LeaveEachOk(Put(s, LeaveRoom(s.server, c, order[0])), c, order[1..]);
    }
  }

  // Entering adds exactly the pair (c, r), tells exactly the members present,
  // and finds no entry of the joiner's user there.
  lemma EnterShape(v: Server, c: ConnId, r: RoomId, snapshot: seq<UserId>)
    requires Agree(v) && Known(v, c) && r in v.rooms && Sole(v, c) && v.conns[c].rooms == {}
    ensures var u := v.conns[c].user.value; var w := EnterRoom(v, c, r, snapshot);
      && u !in v.rooms[r].members
      && (forall q, x, d :: Maps(w, q, x, d) <==> Maps(v, q, x, d) || (q == r && x == u && d == c))
      && (forall q, d :: InRoom(w, d, q) <==> InRoom(v, d, q) || (q == r && d == c))
      && (forall d :: d in v.conns && d != c ==>
            w.conns[d] == if InRoom(v, d, r) then TrySend(v.conns[d], UserJoined(r, u)) else v.conns[d])
      && w.conns[c] == TrySend(v.conns[c].(rooms := {r}), RoomJoined(r, snapshot))
  {
    var u := v.conns[c].user.value;
    var members := v.rooms[r].members;
    assert forall d :: Maps(v, r, u, d) ==> InRoom(v, d, r);
    assert u in members ==> Maps(v, r, u, members[u]);
    forall d ensures d in members.Values <==> InRoom(v, d, r) {
      MembersAre(v, r, d);
    }
  }

  lemma EnterTouches(v: Server, c: ConnId, r: RoomId, snapshot: seq<UserId>, d: ConnId)
    requires Known(v, c) && r in v.rooms && d in v.conns
    ensures var w := EnterRoom(v, c, r, snapshot);
      && w.clients == v.clients && w.conns.Keys == v.conns.Keys
      && w.conns[d].user == v.conns[d].user && w.conns[d].closed == v.conns[d].closed
      && w.conns[d].evicted == v.conns[d].evicted
  {
  }

  lemma EnterKeepsAgreement(v: Server, c: ConnId, r: RoomId, snapshot: seq<UserId>)
    requires Agree(v) && Registered(v) && Known(v, c) && r in v.rooms && Sole(v, c)
    requires v.conns[c].rooms == {} && !v.conns[c].closed
    ensures Agree(EnterRoom(v, c, r, snapshot)) && Registered(EnterRoom(v, c, r, snapshot))
  {
    var w := EnterRoom(v, c, r, snapshot);
    EnterShape(v, c, r, snapshot);
    EnterTouches(v, c, r, snapshot, c);
    forall d | d in v.conns
      ensures w.conns[d].user == v.conns[d].user && w.conns[d].closed == v.conns[d].closed
      ensures w.conns[d].evicted == v.conns[d].evicted
    {
      EnterTouches(v, c, r, snapshot, d);
    }
    assert forall x, d :: Is(w, d, x) <==> Is(v, d, x);
    assert forall d :: Known(w, d) <==> Known(v, d);
  }

  lemma LeaveMoves(v: Server, c: ConnId, r: RoomId)
    requires Known(v, c) && r in v.rooms && v.conns[c].user.value in v.rooms[r].members
    ensures var w := LeaveRoom(v, c, r); var u := v.conns[c].user.value;
      && w.conns.Keys == v.conns.Keys
      && (forall q, x :: InRoom(w, x, q) <==> InRoom(v, x, q) && !(q == r && x == c))
      && (forall q, x, e :: Maps(w, q, x, e) <==> Maps(v, q, x, e) && !(q == r && x == u))
      && (forall d :: d in v.conns ==> w.conns[d].user == v.conns[d].user && w.conns[d].closed == v.conns[d].closed)
  {
  }

  lemma EnterMoves(v: Server, c: ConnId, r: RoomId, snapshot: seq<UserId>)
    requires Known(v, c) && r in v.rooms
    ensures var w := EnterRoom(v, c, r, snapshot); var u := v.conns[c].user.value;
      && w.conns.Keys == v.conns.Keys
      && (forall q, x :: InRoom(w, x, q) <==> InRoom(v, x, q) || (q == r && x == c))
      && (forall q, x, e :: Maps(w, q, x, e) <==> (if q == r && x == u then e == c else Maps(v, q, x, e)))
      && (forall d :: d in v.conns ==> w.conns[d].user == v.conns[d].user && w.conns[d].closed == v.conns[d].closed)
  {
  }

  // Why Sole is assumed: Leave goes by user, so it keeps the views in agreement
  // exactly if the entry it deletes is the leaver's own connection ...
  lemma LeaveAgreesExactly(v: Server, c: ConnId, r: RoomId)
    requires Agree(v) && Known(v, c) && r in v.rooms && v.conns[c].user.value in v.rooms[r].members
    ensures Agree(LeaveRoom(v, c, r)) <==> v.rooms[r].members[v.conns[c].user.value] == c
  {
    var u := v.conns[c].user.value;
    var w := LeaveRoom(v, c, r);
    var d := v.rooms[r].members[u];
    LeaveMoves(v, c, r);
    assert Maps(v, r, u, d) && InRoom(v, d, r);
    if d == c {
      assert forall x, e :: Is(w, e, x) <==> Is(v, e, x);
    } else {
      assert InRoom(w, d, r) && !Maps(w, r, u, d);
    }
  }

  lemma FreshJoinAgrees(v: Server, c: ConnId, r: RoomId, snapshot: seq<UserId>)
    requires Agree(v) && Known(v, c) && r in v.rooms && v.conns[c].rooms == {} && !v.conns[c].closed
    requires v.conns[c].user.value !in v.rooms[r].members
    ensures Agree(EnterRoom(v, c, r, snapshot))
  {
    var w := EnterRoom(v, c, r, snapshot);
    EnterMoves(v, c, r, snapshot);
    assert forall x, e :: Is(w, e, x) <==> Is(v, e, x);
    assert forall q :: !InRoom(v, c, q);
  }

  // ... and Join overwrites whatever entry there is for its user.
  lemma JoinAgreesExactly(v: Server, c: ConnId, r: RoomId, snapshot: seq<UserId>)
    requires Agree(v) && Known(v, c) && r in v.rooms && v.conns[c].rooms == {} && !v.conns[c].closed
    ensures Agree(EnterRoom(v, c, r, snapshot)) <==> v.conns[c].user.value !in v.rooms[r].members
  {
    var u := v.conns[c].user.value;
    if u in v.rooms[r].members {
      var w := EnterRoom(v, c, r, snapshot);
      var d := v.rooms[r].members[u];
      EnterMoves(v, c, r, snapshot);
      assert Maps(v, r, u, d) && InRoom(v, d, r);
      assert InRoom(w, d, r) && !Maps(w, r, u, d);
    } else {
      FreshJoinAgrees(v, c, r, snapshot);
    }
  }

  // user_joined keeps a replica in step whatever room it names.
  lemma JoinedInStep(b: Browser, r: RoomId, peers: set<UserId>, up: seq<Req>, q: RoomId, u: UserId)
    requires InStep(b, r, peers, up)
    ensures InStep(Apply(b, UserJoined(q, u)), r, peers + {u}, up)
  {
    var users := if u in b.users then b.users else b.users + [u];
    assert Elems(users) == Elems(b.users) + {u};
  }

  lemma EnterSeen(v: Server, c: ConnId, r: RoomId, snapshot: seq<UserId>, d: ConnId)
    requires Agree(v) && Known(v, c) && r in v.rooms && Sole(v, c) && v.conns[c].rooms == {}
    requires d in v.conns && d != c
    ensures var u := v.conns[c].user.value; var w := EnterRoom(v, c, r, snapshot);
      && w.conns[d] == (if InRoom(v, d, r) then TrySend(v.conns[d], UserJoined(r, u)) else v.conns[d])
      && w.rooms.Keys == v.rooms.Keys
      && (InRoom(v, d, r) ==> v.conns[d].rooms == {r} && Peers(w, r, d) == Peers(v, r, d) + {u})
      && (forall q :: q in v.rooms && q != r ==> Peers(w, q, d) == Peers(v, q, d))
  {
    EnterShape(v, c, r, snapshot);
    assert InRoom(v, d, r) ==> forall q :: q in v.conns[d].rooms ==> InRoom(v, d, q);
  }

  lemma EnterViewOk(v: Server, c: ConnId, r: RoomId, snapshot: seq<UserId>, d: ConnId, k: Link)
    requires Agree(v) && Known(v, c) && r in v.rooms && Sole(v, c) && v.conns[c].rooms == {}
    requires d in v.conns && d != c && ViewOk(v, d, k)
    ensures ViewOk(EnterRoom(v, c, r, snapshot), d, k)
  {
    var w := EnterRoom(v, c, r, snapshot);
    var u := v.conns[c].user.value;
    EnterSeen(v, c, r, snapshot, d);
    if InRoom(v, d, r) {
      if !v.conns[d].overflowed && !k.gone {
        JoinedInStep(Fold(k.browser, k.wire + v.conns[d].send), r, Peers(v, r, d), k.up, r, u);
      }
      Pushed(v, w, d, k, UserJoined(r, u));
    }
  }

  lemma JoinerViewOk(s: State, c: ConnId, r: RoomId, snapshot: seq<UserId>)
    requires Inv(s) && Known(s.server, c) && r in s.server.rooms && Sole(s.server, c)
    requires s.server.conns[c].rooms == {} && c in s.links
    requires Lists(snapshot, s.server.rooms[r].members.Keys)
    ensures ViewOk(EnterRoom(s.server, c, r, snapshot), c, s.links[c])
  {
    var w := EnterRoom(s.server, c, r, snapshot);
    EnterShape(s.server, c, r, snapshot);
    assert Peers(w, r, c) == s.server.rooms[r].members.Keys;
    Pushed(s.server, w, c, s.links[c], RoomJoined(r, snapshot));
  }

  lemma EnterOk(s: State, c: ConnId, r: RoomId, snapshot: seq<UserId>)
    requires Inv(s) && Known(s.server, c) && r in s.server.rooms && Sole(s.server, c)
    requires s.server.conns[c].rooms == {} && !s.server.conns[c].closed
    requires Lists(snapshot, s.server.rooms[r].members.Keys)
    ensures Inv(Put(s, EnterRoom(s.server, c, r, snapshot)))
  {
    EnterKeepsAgreement(s.server, c, r, snapshot);
    forall d | d in s.links
      ensures ViewOk(EnterRoom(s.server, c, r, snapshot), d, s.links[d])
    {
      if d == c { JoinerViewOk(s, c, r, snapshot); } else { EnterViewOk(s.server, c, r, snapshot, d, s.links[d]); }
    }
  }

  // ------------------------------------------------------------------ relays

  // The connection a relay from c to user `target` reaches, and whether that
  // connection is itself in a room of c.
  ghost predicate Strays(v: Server, c: ConnId, target: UserId)
    requires Known(v, c)
  {
    && MayRelay(v, c, target)
    && (forall r :: r in v.conns[c].rooms ==> !InRoom(v, v.clients[target], r))
  }

  // A relay that does not stray shows its receiver a sender it lists.
  lemma RelayVisible(v: Server, c: ConnId, kind: SignalKind, target: UserId, k: Link)
    requires Agree(v) && Registered(v) && Known(v, c) && MayRelay(v, c, target) && !Strays(v, c, target)
    requires var d := v.clients[target]; ViewOk(v, d, k) && !v.conns[d].overflowed && !k.gone
    ensures Visible(Fold(k.browser, k.wire + v.conns[v.clients[target]].send), Signal(kind, v.conns[c].user.value))
  {
    var d := v.clients[target];
    var r :| r in v.conns[c].rooms && InRoom(v, d, r);
    assert InRoom(v, c, r) && Maps(v, r, v.conns[c].user.value, c);
    assert v.conns[c].user.value in Peers(v, r, d);
  }

  // The number of the next message pushed to a connection.
  function NextNumber(conn: Conn, k: Link): nat {
    k.read + |k.wire| + |conn.send|
  }

  // Where a relay from c goes astray, the link it reaches notes the signal's number,
  // unless the queue is full and the signal lost.
  ghost function Noted(s: State, c: ConnId, target: UserId): map<ConnId, Link>
    requires Known(s.server, c)
  {
    if !Strays(s.server, c, target) then s.links else
    var d := s.server.clients[target];
    if d !in s.links || d !in s.server.conns || |s.server.conns[d].send| >= SEND_BUF then s.links
    else s.links[d := s.links[d].(strays := s.links[d].strays + {NextNumber(s.server.conns[d], s.links[d])})]
  }

  ghost function Relayed(s: State, c: ConnId, kind: SignalKind, target: UserId): State
    requires Known(s.server, c)
  {
    Put(s, HandleSignal(s.server, c, kind, target)).(links := Noted(s, c, target))
  }

  lemma {:induction false} MoreStrays(b: Browser, q: seq<Msg>, at: nat, few: set<nat>, many: set<nat>)
    requires AllVisible(b, q, at, few) && few <= many
    ensures AllVisible(b, q, at, many)
    decreases |q|
  {
    if q != [] {
      MoreStrays(Apply(b, q[0]), q[1..], at + 1, few, many);
    }
  }

  lemma RelayViewOk(s: State, c: ConnId, kind: SignalKind, target: UserId, x: ConnId)
    requires Inv(s) && Known(s.server, c) && MayRelay(s.server, c, target) && x in s.links
    ensures ViewOk(HandleSignal(s.server, c, kind, target), x, Noted(s, c, target)[x])
  {
    var v := s.server;
    var w := HandleSignal(v, c, kind, target);
    var d := v.clients[target];
    var k, after := s.links[x], Noted(s, c, target)[x];
    assert ViewOk(v, x, k);
    assert forall r :: r in v.conns[x].rooms ==> InRoom(v, x, r);
    if x != d {
      UnmovedView(v, w, x, k, Content);
    } else if !v.conns[d].overflowed && !k.gone {
      MoreStrays(k.browser, k.wire + v.conns[d].send, k.read, k.strays, after.strays);
      if !Strays(v, c, target) { RelayVisible(v, c, kind, target, k); }
      if |v.conns[d].send| < SEND_BUF { Pushed(v, w, d, after, Signal(kind, v.conns[c].user.value)); }
    }
  }

  lemma RelayOk(s: State, c: ConnId, kind: SignalKind, target: UserId)
    requires Inv(s) && Known(s.server, c)
    ensures Inv(Relayed(s, c, kind, target))
  {
    var v := s.server;
    var w := HandleSignal(v, c, kind, target);
    if MayRelay(v, c, target) {
      UnmovedAgree(v, w);
      assert forall x :: Known(w, x) <==> Known(v, x);
      forall x | x in s.links ensures ViewOk(w, x, Noted(s, c, target)[x]) {
        RelayViewOk(s, c, kind, target, x);
      }
    }
  }

  // --------------------------------------------------- connecting and closing

  lemma LoginRegistered(v: Server, c: ConnId, u: UserId)
    requires Registered(v) && c in v.conns && !v.conns[c].closed
    requires v.conns[c].user == None || v.conns[c].user == Some(u)
    ensures Registered(Authenticate(v, c, u))
  {
    var w := Authenticate(v, c, u);
    forall x | x in w.clients
      ensures w.clients[x] in w.conns && w.conns[w.clients[x]].user == Some(x) && !w.conns[w.clients[x]].closed
    {
    }
    forall d | Known(w, d) && !w.conns[d].closed
      ensures w.conns[d].evicted || (w.conns[d].user.value in w.clients && w.clients[w.conns[d].user.value] == d)
    {
      assert d != c ==> Known(v, d);
    }
  }

  // A login changes other connections by an eviction mark at most.
  lemma LoginTouches(v: Server, c: ConnId, u: UserId, d: ConnId)
    requires c in v.conns && d in v.conns
    ensures d in Authenticate(v, c, u).conns
    ensures var k := Authenticate(v, c, u).conns[d];
      k == v.conns[d] || k == v.conns[d].(evicted := true) ||
      (d == c && k == TrySend(v.conns[d].(user := Some(u)), AuthSuccess))
  {
  }

  lemma LoginUnmoved(v: Server, c: ConnId, u: UserId)
    requires c in v.conns && (v.conns[c].user == None || v.conns[c].user == Some(u))
    ensures Unmoved(v, Authenticate(v, c, u))
    ensures forall d :: d in v.conns ==> Quiet(v.conns[d], Authenticate(v, c, u).conns[d], AuthSuccess)
  {
    var w := Authenticate(v, c, u);
    assert w.rooms == v.rooms && w.conns.Keys == v.conns.Keys;
    assert TrySend(v.conns[c].(user := Some(u)), AuthSuccess).send == TrySend(v.conns[c], AuthSuccess).send;
    forall d | d in v.conns
      ensures Quiet(v.conns[d], w.conns[d], AuthSuccess)
      ensures w.conns[d].rooms == v.conns[d].rooms && w.conns[d].closed == v.conns[d].closed
      ensures v.conns[d].user.Some? ==> w.conns[d].user == v.conns[d].user
    {
      LoginTouches(v, c, u, d);
    }
  }

  lemma LoginOk(s: State, c: ConnId, u: UserId)
    requires Inv(s) && c in s.server.conns && !s.server.conns[c].closed
    requires s.server.conns[c].user == None || s.server.conns[c].user == Some(u)
    ensures Inv(Put(s, Authenticate(s.server, c, u)))
  {
    LoginRegistered(s.server, c, u);
    LoginUnmoved(s.server, c, u);
    UnmovedOk(s, Authenticate(s.server, c, u), AuthSuccess);
  }

  lemma {:induction false} LeaveEachIgnoresClients(v: Server, c: ConnId, order: seq<RoomId>, k: map<UserId, ConnId>)
    requires Known(v, c) && Elems(order) <= v.rooms.Keys
    ensures LeaveEach(v.(clients := k), c, order) == LeaveEach(v, c, order).(clients := k)
    decreases |order|
  {
    if order != [] {
      assert order[0] in Elems(order) && Elems(order[1..]) <= Elems(order);
      LeaveEachIgnoresClients(LeaveRoom(v, c, order[0]), c, order[1..], k);
    }
  }

  ghost function Retired(v: Server, c: ConnId): Server
    requires c in v.conns
  {
    MarkClosed(if v.conns[c].user.None? then v else RemoveClient(v, c), c)
  }

  lemma RetireRegistered(v: Server, c: ConnId)
    requires Registered(v) && c in v.conns
    ensures Registered(Retired(v, c))
  {
    var w := Retired(v, c);
    forall d | Known(w, d) && !w.conns[d].closed
      ensures w.conns[d].evicted || (w.conns[d].user.value in w.clients && w.clients[w.conns[d].user.value] == d)
    {
      assert Known(v, d);
    }
  }

  lemma RetireOk(s: State, c: ConnId)
    requires Inv(s) && c in s.server.conns && s.server.conns[c].rooms == {}
    ensures Inv(Put(s, Retired(s.server, c)))
  {
    RetireRegistered(s.server, c);
    assert Unmoved(s.server, Retired(s.server, c));
    UnmovedOk(s, Retired(s.server, c), Content);
  }

  lemma NoGhosts(v: Server, c: ConnId)
    requires Agree(v) && Known(v, c) && Sole(v, c) && v.conns[c].rooms == {}
    ensures GhostRooms(v, v.conns[c].user.value) == {}
  {
    var u := v.conns[c].user.value;
    forall r | r in v.rooms ensures u !in v.rooms[r].members {
      assert forall d :: Maps(v, r, u, d) ==> InRoom(v, d, r);
      assert u in v.rooms[r].members ==> Maps(v, r, u, v.rooms[r].members[u]);
    }
  }

  lemma RoomsHeld(v: Server, c: ConnId)
    requires Agree(v) && c in v.conns
    ensures RoomsOf(v, c) == v.conns[c].rooms
  {
    assert forall r :: r in v.conns[c].rooms ==> InRoom(v, c, r);
  }

  lemma DisconnectOk(s: State, c: ConnId, order: seq<RoomId>, ghosts: seq<RoomId>)
    requires Inv(s) && c in s.server.conns
    requires Elems(order) <= s.server.rooms.Keys && Elems(ghosts) <= s.server.rooms.Keys
    requires Known(s.server, c) ==> Sole(s.server, c) && RoomsOf(s.server, c) <= Elems(order)
    ensures Inv(Put(s, Disconnect(s.server, c, order, ghosts)))
  {
    var v := s.server;
    if v.conns[c].user.None? {
      assert forall r :: r in v.conns[c].rooms ==> InRoom(v, c, r);
      RetireOk(s, c);
    } else {
      var k := RemoveClient(v, c).clients;
      RoomsHeld(v, c);
      LeaveEachOk(s, c, order);
      var left := LeaveEach(v, c, order);
      LeaveEachOk(Put(s, left), c, ghosts);
      var gone := LeaveEach(left, c, ghosts);
      LeaveEachIgnoresClients(v, c, order, k);
      LeaveEachIgnoresClients(left, c, ghosts, k);
      RetireOk(Put(s, gone), c);
      var quiet := MarkClosed(RemoveClient(gone, c), c);
      SendOtherOk(Put(s, quiet), AuthedExcept(quiet, v.conns[c].user.value), RoomList);
    }
  }

  lemma CreateOk(s: State, c: ConnId, name: string, id: RoomId)
    requires Inv(s) && Known(s.server, c) && id !in s.server.rooms
    ensures Inv(Put(s, HandleCreate(s.server, c, name, id)))
  {
    var v := s.server;
    if !CanCreate(v, TrimSpace(name)) {
      SendIdleOk(s, c, Failure);
    } else {
      var w := v.(rooms := v.rooms[id := Room(TrimSpace(name), map[])]);
      assert forall d :: Known(w, d) <==> Known(v, d);
      UnmovedOk(s, w, Content);
      SendIdleOk(Put(s, w), c, RoomCreated(id));
      SendOtherOk(Put(s, SendTo(w, c, RoomCreated(id))), AuthedExcept(w, v.conns[c].user.value), RoomList);
    }
  }

  // --------------------------------- closing while a predecessor is in a room

  lemma {:induction false} LeaveEachElsewhere(v: Server, c: ConnId, order: seq<RoomId>, d: ConnId, r: RoomId)
    requires Known(v, c) && Elems(order) <= v.rooms.Keys
    ensures var w := LeaveEach(v, c, order); var u := v.conns[c].user.value;
      && (d != c ==> (InRoom(w, d, r) <==> InRoom(v, d, r)) && (forall x :: Is(w, d, x) <==> Is(v, d, x)))
      && (r in v.rooms ==> (u in w.rooms[r].members <==> u in v.rooms[r].members && r !in order))
      && (r in v.rooms && r !in order ==> w.rooms[r].members == v.rooms[r].members)
    decreases |order|
  {
    if order != [] {
      assert order[0] in Elems(order) && Elems(order[1..]) <= Elems(order);
      assert r in order <==> r == order[0] || r in order[1..];
      LeaveEachElsewhere(LeaveRoom(v, c, order[0]), c, order[1..], d, r);
    }
  }

  lemma TwoElements<T>(s: seq<T>)
    requires NoDup(s) && |s| > 1
    ensures exists x, y :: x in Elems(s) && y in Elems(s) && x != y
  {
    assert s[0] in Elems(s) && s[1] in Elems(s) && s[0] != s[1];
  }

  // Leaving the room it is in, if any, a connection keeps the views in agreement.
  lemma LeaveOwnAgrees(v: Server, c: ConnId, order: seq<RoomId>)
    requires Agree(v) && Known(v, c) && Lists(order, v.conns[c].rooms) && Elems(order) <= v.rooms.Keys
    ensures Agree(LeaveEach(v, c, order)) && LeaveEach(v, c, order).conns[c].rooms == {}
  {
    assert forall r :: r in v.conns[c].rooms ==> InRoom(v, c, r);
    if |order| > 1 {
      TwoElements(order);
    } else if |order| == 1 {
      var r := order[0];
      assert r in Elems(order) && InRoom(v, c, r) && Maps(v, r, v.conns[c].user.value, c);
      assert order[1..] == [] && Elems(order) == {r};
      LeaveAgreesExactly(v, c, r);
    } else {
      assert Elems(order) == {};
    }
  }

  lemma HasElement<T>(s: seq<T>)
    requires s != []
    ensures Elems(s) != {}
  {
    assert s[0] in Elems(s);
  }

  // No room maps the user of c to another connection.
  ghost predicate Unrivalled(v: Server, c: ConnId)
    requires Known(v, c)
  {
    forall r, d :: Maps(v, r, v.conns[c].user.value, d) ==> d == c
  }

  // Closing is done by user in the end: it keeps the views in agreement exactly if
  // no other connection of the user is in a room.
  lemma CloseAgreesExactly(v: Server, c: ConnId, order: seq<RoomId>, ghosts: seq<RoomId>)
    requires Agree(v) && Known(v, c) && Lists(order, RoomsOf(v, c))
    requires Lists(ghosts, GhostRooms(LeaveEach(RemoveClient(v, c), c, order), v.conns[c].user.value))
    ensures Agree(Disconnect(v, c, order, ghosts)) <==> Unrivalled(v, c)
  {
    if Unrivalled(v, c) {
      UnrivalledCloses(v, c, order, ghosts);
    } else {
      RivalLosesEntry(v, c, order, ghosts);
    }
  }

  lemma UnrivalledCloses(v: Server, c: ConnId, order: seq<RoomId>, ghosts: seq<RoomId>)
    requires Agree(v) && Known(v, c) && Lists(order, RoomsOf(v, c)) && Unrivalled(v, c)
    requires Lists(ghosts, GhostRooms(LeaveEach(RemoveClient(v, c), c, order), v.conns[c].user.value))
    ensures Agree(Disconnect(v, c, order, ghosts))
  {
    var u := v.conns[c].user.value;
    var k := RemoveClient(v, c);
    var left := LeaveEach(k, c, order);
    assert Agree(k) by {
      assert forall r, x, d :: Maps(k, r, x, d) <==> Maps(v, r, x, d);
      assert forall d, r :: InRoom(k, d, r) <==> InRoom(v, d, r);
      assert forall x, d :: Is(k, d, x) <==> Is(v, d, x);
    }
    RoomsHeld(v, c);
    assert forall r :: r in order <==> r in Elems(order);
    LeaveOwnAgrees(k, c, order);
    forall r | r in left.rooms ensures u !in left.rooms[r].members {
      LeaveEachElsewhere(k, c, order, c, r);
      if u in v.rooms[r].members {
        assert Maps(v, r, u, v.rooms[r].members[u]);
        assert InRoom(v, c, r);
      }
    }
    assert GhostRooms(left, u) == {};
    if ghosts != [] { HasElement(ghosts); }
    ClosedAgrees(left, c, u);
  }

  // Marking a connection that is in no room, and telling the others.
  lemma ClosedAgrees(v: Server, c: ConnId, u: UserId)
    requires Agree(v) && c in v.conns && v.conns[c].rooms == {}
    ensures Agree(BroadcastRoomList(MarkClosed(v, c), u))
  {
    var w := BroadcastRoomList(MarkClosed(v, c), u);
    UnmovedAgree(v, w);
  }

  lemma TellingMovesNobody(v: Server, c: ConnId, u: UserId)
    requires c in v.conns
    ensures var w := BroadcastRoomList(MarkClosed(v, c), u);
      && w.rooms == v.rooms && (forall d, r :: InRoom(w, d, r) <==> InRoom(v, d, r))
      && (forall d, x :: Is(w, d, x) <==> Is(v, d, x))
  {
  }

  lemma RivalLosesEntry(v: Server, c: ConnId, order: seq<RoomId>, ghosts: seq<RoomId>)
    requires Agree(v) && Known(v, c) && Lists(order, RoomsOf(v, c)) && !Unrivalled(v, c)
    requires Lists(ghosts, GhostRooms(LeaveEach(RemoveClient(v, c), c, order), v.conns[c].user.value))
    ensures !Agree(Disconnect(v, c, order, ghosts))
  {
    var u := v.conns[c].user.value;
    var k := RemoveClient(v, c);
    var left := LeaveEach(k, c, order);
    var gone := LeaveEach(left, c, ghosts);
    var w := Disconnect(v, c, order, ghosts);
    var r, d :| Maps(v, r, u, d) && d != c;
    assert InRoom(v, d, r) && InRoom(k, d, r);
    assert InRoom(v, c, r) ==> Maps(v, r, u, c);
    assert r !in Elems(order);
    LeaveEachElsewhere(k, c, order, d, r);
    assert r in Elems(ghosts);
    LeaveEachElsewhere(left, c, ghosts, d, r);
    TellingMovesNobody(gone, c, u);
    assert Is(v, d, u) && Is(k, d, u) && Is(w, d, u);
    assert InRoom(gone, d, r) && InRoom(w, d, r) && !Maps(w, r, u, d);
  }

  // --------------------------------------------------------------- the steps

  // The hub may route the next frame of c: c is open, logged in and sole.
  ghost predicate Routable(s: State, c: ConnId) {
    && Known(s.server, c) && c in s.links && s.links[c].up != []
    && !s.server.conns[c].closed && Sole(s.server, c)
  }

  ghost predicate Enabled(s: State, e: Event) {
    match e
    case Connect(c, _) => c !in s.server.conns
    case Login(c, u) =>
      c in s.server.conns && !s.server.conns[c].closed && s.server.conns[c].user in {None, Some(u)}
    case Refuse(c) =>
      c in s.server.conns && c in s.links && s.server.conns[c].user == None && s.links[c].up != []
    case Reject(c) => c in s.server.conns && c in s.links && s.server.conns[c].user == None
    case Join(c, order, snapshot) =>
      && Routable(s, c) && s.links[c].up[0].JoinReq? && Lists(order, RoomsOf(s.server, c))
      && var r := s.links[c].up[0].room;
         var left := LeaveEach(s.server, c, order);
         r in left.rooms ==> Lists(snapshot, left.rooms[r].members.Keys)
    case Leave(c) => Routable(s, c) && s.links[c].up[0].LeaveReq?
    case Relay(c) => Routable(s, c) && s.links[c].up[0].SignalReq?
    case Create(c, id) => Routable(s, c) && s.links[c].up[0].CreateReq? && id !in s.server.rooms
    case Chat(c, _) => Routable(s, c) && s.links[c].up[0].OtherReq?
    case Upload(_) => true
    case Close(c, order, ghosts) =>
      && c in s.server.conns && !s.server.conns[c].closed
      && Elems(order) <= s.server.rooms.Keys && Elems(ghosts) <= s.server.rooms.Keys
      && (Known(s.server, c) ==>
            && Sole(s.server, c) && Lists(order, RoomsOf(s.server, c))
            && Lists(ghosts, GhostRooms(LeaveEach(RemoveClient(s.server, c), c, order), s.server.conns[c].user.value)))
    case Write(c) => c in s.links && c in s.server.conns && s.server.conns[c].send != []
    case Read(c) => c in s.links && s.links[c].wire != [] && !s.links[c].gone
    case Send(c, req) => c in s.links && !req.LeaveReq? && !s.links[c].gone
    case ClickLeave(c) => c in s.links && s.links[c].browser.room.Some? && !s.links[c].gone
    case Logout(c) => c in s.links && !s.links[c].gone
    case Drop(c) => c in s.links
  }

  ghost function Popped(s: State, c: ConnId): State
    requires c in s.links && s.links[c].up != []
  {
    s.(links := s.links[c := s.links[c].(up := s.links[c].up[1..])])
  }

  ghost function Step(s: State, e: Event): State
    requires Enabled(s, e)
  {
    var v := s.server;
    match e
    case Connect(c, b) =>
      s.(server := Accepted(v, c),
         links := s.links[c := NewLink(b)])
    case Login(c, u) => Put(s, Authenticate(v, c, u))
    case Refuse(c) => Popped(Put(s, SendTo(v, c, Failure)), c)
    case Reject(c) => Put(s, SendTo(v, c, AuthError))
    case Join(c, order, snapshot) => Popped(Put(s, HandleJoin(v, c, s.links[c].up[0].room, order, snapshot)), c)
    case Leave(c) => Popped(Put(s, HandleLeave(v, c, s.links[c].up[0].room)), c)
    case Relay(c) => Popped(Relayed(s, c, s.links[c].up[0].kind, s.links[c].up[0].target), c)
    case Create(c, id) => Popped(Put(s, HandleCreate(v, c, s.links[c].up[0].name, id)), c)
    case Chat(c, to) => Popped(Put(s, v.(conns := SendAll(v.conns, to, Content))), c)
    case Upload(to) => Put(s, v.(conns := SendAll(v.conns, to, Content)))
    case Close(c, order, ghosts) => Put(s, Disconnect(v, c, order, ghosts))
    case Write(c) =>
      s.(server := v.(conns := v.conns[c := v.conns[c].(send := v.conns[c].send[1..])]),
         links := s.links[c := s.links[c].(wire := s.links[c].wire + [v.conns[c].send[0]])])
    case Read(c) =>
      var k := s.links[c];
      s.(links := s.links[c := k.(wire := k.wire[1..], browser := Apply(k.browser, k.wire[0]), read := k.read + 1)])
    case Send(c, req) => s.(links := s.links[c := s.links[c].(up := s.links[c].up + [req])])
    case ClickLeave(c) =>
      var k := s.links[c];
      s.(links := s.links[c := k.(up := k.up + [LeaveReq(k.browser.room.value)], browser := Browser(None, []))])
    // The page sends a last request, forgets its room and closes the socket; the
    // hub still counts it in until it closes the connection.
    case Logout(c) =>
      var k := s.links[c];
      s.(links := s.links[c := k.(up := k.up + [OtherReq], browser := Browser(None, []), gone := true)])
    // The page is reloaded, or its socket lost.
    case Drop(c) => s.(links := s.links[c := s.links[c].(gone := true)])
  }

  // Link changes that keep the invariant: each touches one connection.
  lemma LinkOk(s: State, c: ConnId, k: Link)
    requires Inv(s) && c in s.links && ViewOk(s.server, c, k)
    ensures Inv(s.(links := s.links[c := k]))
  {
  }

  lemma PoppedOk(s: State, c: ConnId)
    requires Inv(s) && c in s.links && s.links[c].up != []
    requires forall r :: s.links[c].up[0] == LeaveReq(r) ==> r !in s.server.conns[c].rooms
    ensures Inv(Popped(s, c))
  {
    var k := s.links[c];
    assert k.up == [k.up[0]] + k.up[1..];
    LinkOk(s, c, k.(up := k.up[1..]));
  }

  lemma JoinOk(s: State, c: ConnId, r: RoomId, order: seq<RoomId>, snapshot: seq<UserId>)
    requires Inv(s) && Known(s.server, c) && Sole(s.server, c) && !s.server.conns[c].closed
    requires Lists(order, RoomsOf(s.server, c))
    requires var left := LeaveEach(s.server, c, order);
      r in left.rooms ==> Lists(snapshot, left.rooms[r].members.Keys)
    ensures Inv(Put(s, HandleJoin(s.server, c, r, order, snapshot)))
  {
    RoomsHeld(s.server, c);
    LeaveEachOk(s, c, order);
    LeaveEachOpen(s.server, c, order);
    var left := LeaveEach(s.server, c, order);
    if !CanJoin(left, r) {
      SendIdleOk(Put(s, left), c, Failure);
    } else {
      EnterOk(Put(s, left), c, r, snapshot);
      var entered := EnterRoom(left, c, r, snapshot);
      SendOtherOk(Put(s, entered), AuthedExcept(entered, s.server.conns[c].user.value), RoomList);
    }
  }

  lemma {:induction false} LeaveEachOpen(v: Server, c: ConnId, order: seq<RoomId>)
    requires Known(v, c) && Elems(order) <= v.rooms.Keys
    ensures LeaveEach(v, c, order).conns[c].closed == v.conns[c].closed
    decreases |order|
  {
    if order != [] {
      assert order[0] in Elems(order) && Elems(order[1..]) <= Elems(order);
      LeaveEachOpen(LeaveRoom(v, c, order[0]), c, order[1..]);
    }
  }

  // A connection leaves its one room, and so is in none.
  lemma LeftNone(v: Server, c: ConnId, r: RoomId)
    requires Agree(v) && Known(v, c) && Sole(v, c) && r in v.rooms && InRoom(v, c, r)
    ensures LeaveRoom(v, c, r).conns[c].rooms == {}
  {
    LeaveShape(v, c, r);
    assert forall q :: q in v.conns[c].rooms ==> InRoom(v, c, q);
  }

  lemma LeftNoticeOk(s: State, c: ConnId, r: RoomId, u: UserId)
    requires Inv(s) && c in s.server.conns && s.server.conns[c].rooms == {}
    ensures Inv(Put(s, BroadcastRoomList(SendTo(s.server, c, RoomLeft(r)), u)))
  {
    SendIdleOk(s, c, RoomLeft(r));
    var told := SendTo(s.server, c, RoomLeft(r));
    SendOtherOk(Put(s, told), AuthedExcept(told, u), RoomList);
  }

  lemma HandleLeaveOk(s: State, c: ConnId, r: RoomId)
    requires Inv(s) && Known(s.server, c) && Sole(s.server, c)
    ensures var w := HandleLeave(s.server, c, r);
      Inv(Put(s, w)) && r !in w.conns[c].rooms
  {
    var v := s.server;
    var u := v.conns[c].user.value;
    assert r in v.conns[c].rooms ==> InRoom(v, c, r);
    if r in v.rooms && u in v.rooms[r].members {
      LeaveShape(v, c, r);
      LeftNone(v, c, r);
      LeaveOk(s, c, r);
      LeftNoticeOk(Put(s, LeaveRoom(v, c, r)), c, r, u);
    }
  }

  lemma WriteOk(s: State, c: ConnId)
    requires Inv(s) && Enabled(s, Write(c))
    ensures Inv(Step(s, Write(c)))
  {
    var v := s.server;
    var t := Step(s, Write(c));
    assert t.links[c].wire + t.server.conns[c].send == s.links[c].wire + v.conns[c].send;
    assert forall d :: Known(t.server, d) <==> Known(v, d);
    UnmovedAgree(v, t.server);
    forall d | d in t.links ensures ViewOk(t.server, d, t.links[d]) {
      assert forall r :: r in v.conns[d].rooms ==> InRoom(v, d, r);
    }
  }

  lemma ReadOk(s: State, c: ConnId)
    requires Inv(s) && Enabled(s, Read(c))
    ensures Inv(Step(s, Read(c)))
  {
    var k := s.links[c];
    var q := k.wire + s.server.conns[c].send;
    assert q[0] == k.wire[0] && q[1..] == k.wire[1..] + s.server.conns[c].send;
    LinkOk(s, c, Step(s, Read(c)).links[c]);
  }

  // Leaving by click empties the replica at once; unless a fresh room_joined or
  // room_left is still unread, the request in flight names the room.
  lemma {:induction false} FoldForgets(b: Browser, q: seq<Msg>, at: nat, strays: set<nat>)
    ensures Fold(b, q) == Fold(Browser(None, []), q) ||
      (Fold(b, q).room == b.room && Fold(Browser(None, []), q).room == None)
    ensures AllVisible(b, q, at, strays) ==> AllVisible(Browser(None, []), q, at, strays)
  {
    FoldForgetsFrom(b, Browser(None, []), q, at, strays);
  }

  lemma {:induction false} FoldForgetsFrom(b: Browser, none: Browser, q: seq<Msg>, at: nat, strays: set<nat>)
    requires none.room == None
    ensures Fold(b, q) == Fold(none, q) || (Fold(b, q).room == b.room && Fold(none, q).room == None)
    ensures AllVisible(b, q, at, strays) ==> AllVisible(none, q, at, strays)
    decreases |q|
  {
    if q != [] {
      if q[0].RoomJoined? || q[0].RoomLeft? || q[0].AuthError? {
        assert Apply(b, q[0]) == Apply(none, q[0]);
      } else {
        FoldForgetsFrom(Apply(b, q[0]), Apply(none, q[0]), q[1..], at + 1, strays);
      }
    }
  }

  lemma ClickLeaveOk(s: State, c: ConnId)
    requires Inv(s) && Enabled(s, ClickLeave(c))
    ensures Inv(Step(s, ClickLeave(c)))
  {
    var k := s.links[c];
    FoldForgets(k.browser, k.wire + s.server.conns[c].send, k.read, k.strays);
    LinkOk(s, c, Step(s, ClickLeave(c)).links[c]);
  }

  // A failed login: the connection is nobody's, and in no room.
  lemma RejectOk(s: State, c: ConnId)
    requires Inv(s) && Enabled(s, Reject(c))
    ensures Inv(Step(s, Reject(c)))
  {
    assert forall r :: r in s.server.conns[c].rooms ==> InRoom(s.server, c, r);
    SendIdleOk(s, c, AuthError);
  }

  // The frames of a logged-in connection.
  lemma RoutedOk(s: State, e: Event)
    requires Inv(s) && Enabled(s, e) && (e.Join? || e.Leave? || e.Relay? || e.Create? || e.Chat?)
    ensures Inv(Step(s, e))
  {
    var req := s.links[e.c].up[0];
    if e.Join? {
      JoinOk(s, e.c, req.room, e.order, e.snapshot);
      PoppedOk(Put(s, HandleJoin(s.server, e.c, req.room, e.order, e.snapshot)), e.c);
    } else if e.Leave? {
      HandleLeaveOk(s, e.c, req.room);
      PoppedOk(Put(s, HandleLeave(s.server, e.c, req.room)), e.c);
    } else if e.Relay? {
      RelayOk(s, e.c, req.kind, req.target);
      PoppedOk(Relayed(s, e.c, req.kind, req.target), e.c);
    } else if e.Create? {
      CreateOk(s, e.c, req.name, e.id);
      PoppedOk(Put(s, HandleCreate(s.server, e.c, req.name, e.id)), e.c);
    } else {
      SendOtherOk(s, e.to, Content);
      PoppedOk(Put(s, s.server.(conns := SendAll(s.server.conns, e.to, Content))), e.c);
    }
  }

  // Every step keeps the invariant.
  lemma StepOk(s: State, e: Event)
    requires Inv(s) && Enabled(s, e)
    ensures Inv(Step(s, e))
  {
    match e
    case Connect(c, b) => ConnectOk(s, c, b);
    case Login(c, u) => LoginOk(s, c, u);
    case Refuse(c) =>
      assert forall r :: r in s.server.conns[c].rooms ==> InRoom(s.server, c, r);
      SendIdleOk(s, c, Failure);
      PoppedOk(Put(s, SendTo(s.server, c, Failure)), c);
    case Reject(c) => RejectOk(s, c);
    case Join(_, _, _) => RoutedOk(s, e);
    case Leave(_) => RoutedOk(s, e);
    case Relay(_) => RoutedOk(s, e);
    case Create(_, _) => RoutedOk(s, e);
    case Chat(_, _) => RoutedOk(s, e);
    case Upload(to) => SendOtherOk(s, to, Content);
    case Close(c, order, ghosts) => DisconnectOk(s, c, order, ghosts);
    case Write(_) => TransportOk(s, e);
    case Read(_) => TransportOk(s, e);
    case Send(_, _) => TransportOk(s, e);
    case ClickLeave(_) => TransportOk(s, e);
    case Logout(_) => TransportOk(s, e);
    case Drop(_) => TransportOk(s, e);
  }

  // The steps of sockets and pages.
  lemma TransportOk(s: State, e: Event)
    requires Inv(s) && Enabled(s, e)
    requires e.Write? || e.Read? || e.Send? || e.ClickLeave? || e.Logout? || e.Drop?
    ensures Inv(Step(s, e))
  {
    if e.Write? {
      WriteOk(s, e.c);
    } else if e.Read? {
      ReadOk(s, e.c);
    } else if e.ClickLeave? {
      ClickLeaveOk(s, e.c);
    } else {
      LinkOk(s, e.c, Step(s, e).links[e.c]);
    }
  }

  lemma ConnectOk(s: State, c: ConnId, b: Browser)
    requires Inv(s) && Enabled(s, Connect(c, b))
    ensures Inv(Step(s, Connect(c, b)))
  {
    var v := s.server;
    var t := Step(s, Connect(c, b));
    var w := t.server;
    assert forall r, u, d :: Maps(w, r, u, d) <==> Maps(v, r, u, d);
    assert forall d, r :: InRoom(w, d, r) <==> InRoom(v, d, r);
    assert forall d, u :: Is(w, d, u) <==> Is(v, d, u);
    assert forall d :: Known(w, d) <==> Known(v, d);
    forall d | d in t.links ensures ViewOk(w, d, t.links[d]) {
      if d != c {
        assert forall r :: r in v.conns[d].rooms ==> InRoom(v, d, r) && Peers(w, r, d) == Peers(v, r, d);
      }
    }
  }

  // -------------------------------------------------------------------- runs

  ghost predicate Start(s: State) {
    && s.server.conns == map[] && s.server.clients == map[] && s.server.rooms == map[]
    && s.links == map[]
  }

  ghost predicate Run(states: seq<State>, events: seq<Event>) {
    && |states| == |events| + 1 && Start(states[0])
    && (forall i :: 0 <= i < |events| ==> Enabled(states[i], events[i]) && states[i + 1] == Step(states[i], events[i]))
  }

  lemma {:induction false} RunOk(states: seq<State>, events: seq<Event>, i: nat)
    requires Run(states, events) && i < |states|
    ensures Inv(states[i])
  {
    if i == 0 {
      assert forall r, u, c :: !Maps(states[0].server, r, u, c);
      assert forall c, r :: !InRoom(states[0].server, c, r);
    } else {
      RunOk(states, events, i - 1);
      StepOk(states[i - 1], events[i - 1]);
    }
  }

  // In every reachable state the browser of a room member that lost no message, has
  // no leave of that room in flight and still has its socket will, having read what is already
  // pushed to it, list exactly the other members, once each.
  lemma ReplicaRefinesRoom(states: seq<State>, events: seq<Event>, i: nat, c: ConnId, r: RoomId)
    requires Run(states, events) && i < |states|
    requires c in states[i].links && InRoom(states[i].server, c, r)
    requires !states[i].server.conns[c].overflowed && !states[i].links[c].gone && LeaveReq(r) !in states[i].links[c].up
    ensures var v := states[i].server; var k := states[i].links[c];
      var b := Fold(k.browser, k.wire + v.conns[c].send);
      && r in v.rooms && Known(v, c)
      && b.room == Some(r) && NoDup(b.users)
      && Elems(b.users) == v.rooms[r].members.Keys - {v.conns[c].user.value}
  {
    RunOk(states, events, i);
    var v := states[i].server;
    assert Maps(v, r, v.conns[c].user.value, c);
    assert Peers(v, r, c) == v.rooms[r].members.Keys - {v.conns[c].user.value};
  }

  // Whenever a browser showing a room takes a relayed signal off its queue, the
  // sender is in its member list, unless that very signal strayed or a message to
  // it was dropped.
  lemma SignalsComeFromListedPeers(states: seq<State>, events: seq<Event>, i: nat, c: ConnId)
    requires Run(states, events) && i < |events| && events[i] == Read(c)
    requires c in states[i].server.conns && !states[i].server.conns[c].overflowed
    requires states[i].links[c].wire[0].Signal? && states[i].links[c].browser.room.Some?
    requires states[i].links[c].read !in states[i].links[c].strays
    ensures states[i].links[c].wire[0].from in states[i].links[c].browser.users
  {
    RunOk(states, events, i);
    var k := states[i].links[c];
    assert (k.wire + states[i].server.conns[c].send)[0] == k.wire[0];
  }

  // Event e relays a signal that strays to c, where it is message number n.
  ghost predicate StraysTo(s: State, e: Event, c: ConnId, n: nat) {
    && e.Relay? && Enabled(s, e) && c in s.links && c in s.server.conns
    && var target := s.links[e.c].up[0].target;
       Strays(s.server, e.c, target) && s.server.clients[target] == c && n == NextNumber(s.server.conns[c], s.links[c])
  }

  lemma StepStrays(s: State, e: Event, c: ConnId, n: nat)
    requires Enabled(s, e) && c in Step(s, e).links && n in Step(s, e).links[c].strays
    ensures (c in s.links && n in s.links[c].strays) || StraysTo(s, e, c, n)
  {
  }

  // No other signal is left out: a message counts as strayed only if it was
  // relayed astray.
  lemma {:induction false} StraysAreRelayed(states: seq<State>, events: seq<Event>, i: nat, c: ConnId, n: nat)
    requires Run(states, events) && i < |states| && c in states[i].links && n in states[i].links[c].strays
    ensures exists j :: 0 <= j < i && StraysTo(states[j], events[j], c, n)
  {
    if i > 0 {
      StepStrays(states[i - 1], events[i - 1], c, n);
      if c in states[i - 1].links && n in states[i - 1].links[c].strays {
        StraysAreRelayed(states, events, i - 1, c, n);
      }
    }
  }

  // Registry, room map and room set agree in every reachable state. An entry
  // always belongs to the registered connection of its user or to an evicted
  // one that has still to be closed.
  lemma ThreeWayAgreement(states: seq<State>, events: seq<Event>, i: nat, r: RoomId, u: UserId, c: ConnId)
    requires Run(states, events) && i < |states|
    ensures var v := states[i].server;
      && (Maps(v, r, u, c) <==> Is(v, c, u) && InRoom(v, c, r))
      && (Maps(v, r, u, c) ==> !v.conns[c].closed && v.conns[c].rooms == {r})
      && (Maps(v, r, u, c) ==> (u in v.clients && v.clients[u] == c) || v.conns[c].evicted)
  {
    RunOk(states, events, i);
    var v := states[i].server;
    if Maps(v, r, u, c) {
      assert Is(v, c, u) && InRoom(v, c, r) && Known(v, c);
      assert forall q :: q in v.conns[c].rooms ==> InRoom(v, c, q);
    }
  }

  // A relay strays exactly when the room's entry for the target is not the
  // registered connection; the entry is then an evicted connection.
  lemma StraysExactly(s: State, c: ConnId, target: UserId, r: RoomId)
    requires Inv(s) && Known(s.server, c) && r in s.server.conns[c].rooms && MayRelay(s.server, c, target)
    ensures r in s.server.rooms && target in s.server.rooms[r].members
    ensures var v := s.server; var entry := v.rooms[r].members[target];
      && (Strays(v, c, target) <==> entry != v.clients[target])
      && (Strays(v, c, target) ==> entry in v.conns && v.conns[entry].evicted)
  {
    var v := s.server;
    assert InRoom(v, c, r);
    var q :| q in v.conns[c].rooms && q in v.rooms && target in v.rooms[q].members;
    assert InRoom(v, c, q);
    var entry := v.rooms[r].members[target];
    assert Maps(v, r, target, entry) && Is(v, entry, target) && Known(v, entry);
    assert InRoom(v, entry, r);
    var d := v.clients[target];
    assert Is(v, d, target) && (InRoom(v, d, r) ==> Maps(v, r, target, d));
    forall x | x in v.conns[c].rooms ensures x == r {
      assert InRoom(v, c, x);
    }
    assert Strays(v, c, target) <==> !InRoom(v, d, r);
  }
}
