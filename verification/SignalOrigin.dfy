// Where signals come from: in every run of the presence system each relayed signal
// that is read was asked for by its sender, with that kind and that target.

module SignalOrigin {
  import opened Wrappers
  import opened Presence
  import opened PresenceSystem

  // ------------------------------------------- handlers that relay no signal

  // b is a with more messages, none of them signals.
  ghost predicate Grown(a: seq<Msg>, b: seq<Msg>) {
    |a| <= |b| && b[..|a|] == a && forall i :: |a| <= i < |b| ==> !b[i].Signal?
  }

  ghost predicate Calm(v: Server, w: Server) {
    forall d :: d in v.conns ==> d in w.conns && Grown(v.conns[d].send, w.conns[d].send)
  }

  lemma CalmThen(u: Server, v: Server, w: Server)
    requires Calm(u, v) && Calm(v, w)
    ensures Calm(u, w)
  {
    forall d | d in u.conns ensures d in w.conns && Grown(u.conns[d].send, w.conns[d].send) {
      var a, b, c := u.conns[d].send, v.conns[d].send, w.conns[d].send;
      assert c[..|a|] == c[..|b|][..|a|];
      assert forall i :: 0 <= i < |b| ==> c[i] == c[..|b|][i];
    }
  }

  lemma SendAllCalm(v: Server, to: set<ConnId>, m: Msg)
    requires !m.Signal?
    ensures Calm(v, v.(conns := SendAll(v.conns, to, m)))
  {
  }

  lemma SendToCalm(v: Server, c: ConnId, m: Msg)
    requires !m.Signal? && c in v.conns
    ensures Calm(v, SendTo(v, c, m))
  {
  }

  lemma LeaveRoomCalm(v: Server, c: ConnId, r: RoomId)
    requires Known(v, c) && r in v.rooms
    ensures Calm(v, LeaveRoom(v, c, r))
  {
    if v.conns[c].user.value in v.rooms[r].members {
      var t := Unlist(v, c, r);
      assert Calm(v, t);
      SendAllCalm(t, t.rooms[r].members.Values, UserLeft(r, v.conns[c].user.value));
      CalmThen(v, t, LeaveRoom(v, c, r));
    }
  }

  lemma {:induction false} LeaveEachCalm(v: Server, c: ConnId, order: seq<RoomId>)
    requires Known(v, c) && Elems(order) <= v.rooms.Keys
    ensures Calm(v, LeaveEach(v, c, order))
    decreases |order|
  {
    if order != [] {
      assert order[0] in Elems(order) && Elems(order[1..]) <= Elems(order);
      var t := LeaveRoom(v, c, order[0]);
      LeaveRoomCalm(v, c, order[0]);
      LeaveEachCalm(t, c, order[1..]);
      CalmThen(v, t, LeaveEach(v, c, order));
    }
  }

  lemma EnterCalm(v: Server, c: ConnId, r: RoomId, snapshot: seq<UserId>)
    requires Known(v, c) && r in v.rooms
    ensures Calm(v, EnterRoom(v, c, r, snapshot))
  {
    var t := Enlist(v, c, r);
    assert Calm(v, t);
    SendToCalm(t, c, RoomJoined(r, snapshot));
    var told := SendTo(t, c, RoomJoined(r, snapshot));
    CalmThen(v, t, told);
    SendAllCalm(told, v.rooms[r].members.Values, UserJoined(r, v.conns[c].user.value));
    CalmThen(v, told, EnterRoom(v, c, r, snapshot));
  }

  lemma ListCalm(v: Server, w: Server, u: UserId)
    requires Calm(v, w)
    ensures Calm(v, BroadcastRoomList(w, u))
  {
    SendAllCalm(w, AuthedExcept(w, u), RoomList);
    CalmThen(v, w, BroadcastRoomList(w, u));
  }

  lemma TellCalm(v: Server, w: Server, c: ConnId, m: Msg)
    requires Calm(v, w) && c in w.conns && !m.Signal?
    ensures Calm(v, SendTo(w, c, m))
  {
    SendToCalm(w, c, m);
    CalmThen(v, w, SendTo(w, c, m));
  }

  lemma JoinCalm(v: Server, c: ConnId, r: RoomId, order: seq<RoomId>, snapshot: seq<UserId>)
    requires Known(v, c) && Elems(order) <= v.rooms.Keys
    ensures Calm(v, HandleJoin(v, c, r, order, snapshot))
  {
    var left := LeaveEach(v, c, order);
    LeaveEachCalm(v, c, order);
    if CanJoin(left, r) {
      EnterCalm(left, c, r, snapshot);
      CalmThen(v, left, EnterRoom(left, c, r, snapshot));
      ListCalm(v, EnterRoom(left, c, r, snapshot), v.conns[c].user.value);
    } else {
      TellCalm(v, left, c, Failure);
    }
  }

  lemma HandleLeaveCalm(v: Server, c: ConnId, r: RoomId)
    requires Known(v, c)
    ensures Calm(v, HandleLeave(v, c, r))
  {
    if r in v.rooms && v.conns[c].user.value in v.rooms[r].members {
      var left := LeaveRoom(v, c, r);
      LeaveRoomCalm(v, c, r);
      TellCalm(v, left, c, RoomLeft(r));
      ListCalm(v, SendTo(left, c, RoomLeft(r)), v.conns[c].user.value);
    }
  }

  lemma CreateCalm(v: Server, c: ConnId, name: string, id: RoomId)
    requires Known(v, c)
    ensures Calm(v, HandleCreate(v, c, name, id))
  {
    if CanCreate(v, TrimSpace(name)) {
      var t := AddRoom(v, TrimSpace(name), id);
      TellCalm(v, t, c, RoomCreated(id));
      ListCalm(v, SendTo(t, c, RoomCreated(id)), v.conns[c].user.value);
    } else {
      SendToCalm(v, c, Failure);
    }
  }

  lemma MarkCalm(v: Server, w: Server, c: ConnId)
    requires Calm(v, w) && c in w.conns
    ensures Calm(v, MarkClosed(w, c))
  {
  }

  lemma CloseCalm(v: Server, c: ConnId, order: seq<RoomId>, ghosts: seq<RoomId>)
    requires c in v.conns && Elems(order) <= v.rooms.Keys && Elems(ghosts) <= v.rooms.Keys
    ensures Calm(v, Disconnect(v, c, order, ghosts))
  {
    if v.conns[c].user.None? {
      MarkCalm(v, v, c);
    } else {
      var k := RemoveClient(v, c);
      LeaveEachCalm(k, c, order);
      var left := LeaveEach(k, c, order);
      LeaveEachCalm(left, c, ghosts);
      var gone := LeaveEach(left, c, ghosts);
      CalmThen(k, left, gone);
      MarkCalm(v, gone, c);
      ListCalm(v, MarkClosed(gone, c), v.conns[c].user.value);
    }
  }

  lemma LoginCalm(v: Server, c: ConnId, u: UserId)
    requires c in v.conns
    ensures Calm(v, Authenticate(v, c, u))
  {
    assert Calm(v, Kicked(v, c, u));
    TellCalm(v, Kicked(v, c, u), c, AuthSuccess);
  }

  // --------------------------------------------------------------- one step

  // The message number n of connection c that is still unread, if there is one.
  ghost function MessageAt(s: State, c: ConnId, n: nat): Option<Msg> {
    if c in s.links && c in s.server.conns && s.links[c].read <= n < NextNumber(s.server.conns[c], s.links[c])
    then Some((s.links[c].wire + s.server.conns[c].send)[n - s.links[c].read]) else None
  }

  // Event e is the routing of a request by user `from` to send user `target`, whose
  // registered connection is c, a signal of this kind; it will be message number n of c.
  ghost predicate Asked(s: State, e: Event, c: ConnId, n: nat, kind: SignalKind, from: UserId, target: UserId) {
    && e.Relay? && Enabled(s, e) && s.links[e.c].up[0] == SignalReq(kind, target)
    && s.server.conns[e.c].user == Some(from)
    && target in s.server.clients && s.server.clients[target] == c
    && c in s.links && c in s.server.conns && n == NextNumber(s.server.conns[c], s.links[c])
  }

  ghost predicate AskedFor(s: State, e: Event, c: ConnId, n: nat, kind: SignalKind, from: UserId) {
    exists target :: Asked(s, e, c, n, kind, from, target)
  }

  // t comes after s by handlers that relay no signal, and perhaps changes of links that
  // move no message.
  lemma CalmKeeps(s: State, t: State, c: ConnId, n: nat)
    requires Calm(s.server, t.server) && c in s.links && c in s.server.conns && c in t.links
    requires t.links[c].wire == s.links[c].wire && t.links[c].read == s.links[c].read
    requires MessageAt(t, c, n).Some? && MessageAt(t, c, n).value.Signal?
    ensures MessageAt(s, c, n) == MessageAt(t, c, n)
  {
    var wire, a, b := s.links[c].wire, s.server.conns[c].send, t.server.conns[c].send;
    var i := n - s.links[c].read;
    if i >= |wire| {
      assert (wire + b)[i] == b[i - |wire|];
      assert i - |wire| < |a| ==> b[i - |wire|] == b[..|a|][i - |wire|];
    }
  }

  lemma RoutedCalm(s: State, e: Event)
    requires Enabled(s, e) && (e.Join? || e.Leave? || e.Create? || e.Chat?)
    ensures Calm(s.server, Step(s, e).server)
  {
    var v, req := s.server, s.links[e.c].up[0];
    if e.Join? {
      JoinCalm(v, e.c, req.room, e.order, e.snapshot);
    } else if e.Leave? {
      HandleLeaveCalm(v, e.c, req.room);
    } else if e.Create? {
      CreateCalm(v, e.c, req.name, e.id);
    } else {
      SendAllCalm(v, e.to, Content);
    }
  }

  lemma StepCalm(s: State, e: Event)
    requires Enabled(s, e) && !e.Relay? && !e.Write?
    ensures Calm(s.server, Step(s, e).server)
  {
    if e.Join? || e.Leave? || e.Create? || e.Chat? {
      RoutedCalm(s, e);
    } else if e.Login? {
      LoginCalm(s.server, e.c, e.user);
    } else if e.Refuse? {
      SendToCalm(s.server, e.c, Failure);
    } else if e.Reject? {
      SendToCalm(s.server, e.c, AuthError);
    } else if e.Upload? {
      SendAllCalm(s.server, e.to, Content);
    } else if e.Close? {
      CloseCalm(s.server, e.c, e.order, e.ghosts);
    }
  }

  lemma RelayAsks(s: State, e: Event, c: ConnId, n: nat, kind: SignalKind, from: UserId)
    requires Enabled(s, e) && e.Relay? && MessageAt(Step(s, e), c, n) == Some(Signal(kind, from))
    ensures MessageAt(s, c, n) == Some(Signal(kind, from)) || AskedFor(s, e, c, n, kind, from)
  {
    var v, t := s.server, Step(s, e);
    var req := s.links[e.c].up[0];
    assert t.links[c].wire == s.links[c].wire && t.links[c].read == s.links[c].read;
    if MayRelay(v, e.c, req.target) && v.clients[req.target] == c {
      if n == NextNumber(v.conns[c], s.links[c]) {
        assert t.server.conns[c].send == v.conns[c].send + [Signal(req.kind, v.conns[e.c].user.value)];
        assert Asked(s, e, c, n, kind, from, req.target);
      }
    } else {
      assert t.server.conns[c] == v.conns[c];
    }
  }

  lemma StepAsks(s: State, e: Event, c: ConnId, n: nat, kind: SignalKind, from: UserId)
    requires Enabled(s, e) && MessageAt(Step(s, e), c, n) == Some(Signal(kind, from))
    requires s.links.Keys == s.server.conns.Keys
    ensures MessageAt(s, c, n) == Some(Signal(kind, from)) || AskedFor(s, e, c, n, kind, from)
  {
    var t := Step(s, e);
    if e.Relay? {
      RelayAsks(s, e, c, n, kind, from);
    } else if e.Write? {
      assert t.links[c].wire + t.server.conns[c].send == s.links[c].wire + s.server.conns[c].send;
    } else if e.Read? && e.c == c {
      assert (s.links[c].wire + s.server.conns[c].send)[1..] == t.links[c].wire + t.server.conns[c].send;
    } else {
      StepCalm(s, e);
      assert t.links[c].wire == (if c in s.links then s.links[c].wire else []);
      CalmKeeps(s, t, c, n);
    }
  }

  // -------------------------------------------------------------------- runs

  // Every unread signal comes from a request that was routed earlier.
  lemma {:induction false} SignalsWereAsked(states: seq<State>, events: seq<Event>, i: nat,
                                           c: ConnId, n: nat, kind: SignalKind, from: UserId)
    requires Run(states, events) && i < |states| && MessageAt(states[i], c, n) == Some(Signal(kind, from))
    ensures exists j :: 0 <= j < i && AskedFor(states[j], events[j], c, n, kind, from)
  {
    if i > 0 {
      RunOk(states, events, i - 1);
      StepAsks(states[i - 1], events[i - 1], c, n, kind, from);
      if MessageAt(states[i - 1], c, n) == Some(Signal(kind, from)) {
        SignalsWereAsked(states, events, i - 1, c, n, kind, from);
      }
    }
  }

  lemma StepUp(s: State, e: Event, c: ConnId, req: Req)
    requires Enabled(s, e) && req.SignalReq? && c in Step(s, e).links && req in Step(s, e).links[c].up
    ensures (c in s.links && req in s.links[c].up) || e == Send(c, req)
  {
  }

  // Every signal request under way was sent by its page.
  lemma {:induction false} RequestsWereSent(states: seq<State>, events: seq<Event>, i: nat, c: ConnId, req: Req)
    requires Run(states, events) && i < |states| && req.SignalReq? && c in states[i].links && req in states[i].links[c].up
    ensures exists h :: 0 <= h < i && events[h] == Send(c, req)
  {
    if i > 0 {
      StepUp(states[i - 1], events[i - 1], c, req);
      if c in states[i - 1].links && req in states[i - 1].links[c].up {
        RequestsWereSent(states, events, i - 1, c, req);
      }
    }
  }

  // The page of connection b sent the request at step h, and at step j the hub routed
  // it to connection c, where it is message number n.
  ghost predicate SentAndRouted(states: seq<State>, events: seq<Event>, h: nat, j: nat, b: ConnId,
                                c: ConnId, n: nat, kind: SignalKind, from: UserId, target: UserId) {
    && h < j < |events| && j < |states| && events[h] == Send(b, SignalReq(kind, target)) && events[j] == Relay(b)
    && Asked(states[j], events[j], c, n, kind, from, target)
  }

  // Whenever a page reads a signal, an earlier page of the user it is said to come from
  // had sent just that kind of signal to the user logged in on the reading connection.
  lemma SignalsReadWereSent(states: seq<State>, events: seq<Event>, i: nat, c: ConnId)
    returns (h: nat, j: nat, b: ConnId, target: UserId)
    requires Run(states, events) && i < |events| && events[i] == Read(c) && states[i].links[c].wire[0].Signal?
    ensures j < i && var k := states[i].links[c];
      SentAndRouted(states, events, h, j, b, c, k.read, k.wire[0].kind, k.wire[0].from, target)
    ensures Is(states[j].server, b, states[i].links[c].wire[0].from) && Is(states[j].server, c, target)
  {
    RunOk(states, events, i);
    var k := states[i].links[c];
    assert (k.wire + states[i].server.conns[c].send)[0] == k.wire[0];
    SignalsWereAsked(states, events, i, c, k.read, k.wire[0].kind, k.wire[0].from);
    j :| 0 <= j < i && AskedFor(states[j], events[j], c, k.read, k.wire[0].kind, k.wire[0].from);
    target :| Asked(states[j], events[j], c, k.read, k.wire[0].kind, k.wire[0].from, target);
    b := events[j].c;
    var up := states[j].links[b].up;
    assert up[0] in up;
    RequestsWereSent(states, events, j, b, up[0]);
    h :| 0 <= h < j && events[h] == Send(b, up[0]);
    RunOk(states, events, j);
  }
}
