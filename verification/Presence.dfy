// The room-presence protocol at the granularity of hub handlers.
//
// `Server` is the hub's presence state, `Link` is what lies between one server
// connection and its browser, and `Step` is one handler, one transport step or
// one user action. The functions on `Server` are the specification that the
// classes in PresenceHub.dfy are proved against.

module Presence {
  import opened Wrappers

  type UserId = string
  type RoomId = string
  type ConnId = nat

  const SEND_BUF: nat := 256

  datatype SignalKind = Offer | Answer | Candidate

  // What the server pushes. `Content` stands for text, files and notices of
  // stopped video. The last five leave the browser's member list alone.
  datatype Msg =
    | RoomJoined(room: RoomId, users: seq<UserId>)
    | RoomLeft(room: RoomId)
    | UserJoined(room: RoomId, user: UserId)
    | UserLeft(room: RoomId, user: UserId)
    | Signal(kind: SignalKind, from: UserId)
    | AuthError
    | AuthSuccess
    | Failure
    | RoomCreated(room: RoomId)
    | RoomList
    | Content

  // What a browser sends.
  datatype Req =
    | JoinReq(room: RoomId)
    | LeaveReq(room: RoomId)
    | SignalReq(kind: SignalKind, target: UserId)
    | CreateReq(name: string)
    | OtherReq

  // One connection as the hub sees it. `overflowed` and `evicted` say that a
  // goroutine closing the connection has been started, and why.
  datatype Conn = Conn(
    user: Option<UserId>,
    rooms: set<RoomId>,
    send: seq<Msg>,
    overflowed: bool,
    evicted: bool,
    closed: bool)

  datatype Room = Room(name: string, members: map<UserId, ConnId>)

  datatype Server = Server(
    conns: map<ConnId, Conn>,
    clients: map<UserId, ConnId>,
    rooms: map<RoomId, Room>,
    limits: Limits)

  // Fixed configuration: the two caps, and the case folding that
  // strings.EqualFold compares under.
  datatype Limits = Limits(maxRooms: nat, maxRoomSize: nat, fold: char -> char)

  // ---------------------------------------------------------------- sending

  function TrySend(c: Conn, m: Msg): Conn {
    if |c.send| < SEND_BUF then c.(send := c.send + [m]) else c.(overflowed := true)
  }

  function SendAll(conns: map<ConnId, Conn>, to: set<ConnId>, m: Msg): map<ConnId, Conn> {
    map c | c in conns :: if c in to then TrySend(conns[c], m) else conns[c]
  }

  function SendTo(s: Server, c: ConnId, m: Msg): Server
    requires c in s.conns
  {
    s.(conns := s.conns[c := TrySend(s.conns[c], m)])
  }

  // Every registered connection of a user other than `exclude`.
  function AuthedExcept(s: Server, exclude: UserId): set<ConnId> {
    set u | u in s.clients && u != exclude :: s.clients[u]
  }

  function BroadcastRoomList(s: Server, exclude: UserId): Server {
    s.(conns := SendAll(s.conns, AuthedExcept(s, exclude), RoomList))
  }

  // ------------------------------------------------------------- membership

  ghost predicate Known(s: Server, c: ConnId) {
    c in s.conns && s.conns[c].user.Some?
  }

  // Both user maps name connections bound to the users they are filed under.
  ghost predicate Bound(s: Server) {
    && BoundMap(s.clients, s.conns)
    && (forall r :: r in s.rooms ==> BoundMap(s.rooms[r].members, s.conns))
  }

  ghost predicate BoundMap(m: map<UserId, ConnId>, conns: map<ConnId, Conn>) {
    forall u :: u in m ==> m[u] in conns && conns[m[u]].user == Some(u)
  }

  // Registry.Leave when it removes: by user in the room, by room in the connection.
  function Unlist(s: Server, c: ConnId, r: RoomId): Server
    requires Known(s, c) && r in s.rooms
  {
    s.(rooms := s.rooms[r := s.rooms[r].(members := s.rooms[r].members - {s.conns[c].user.value})],
       conns := s.conns[c := s.conns[c].(rooms := s.conns[c].rooms - {r})])
  }

  // doLeaveRoom: nothing if the user is not a member, else remove and notify
  // whoever is left.
  function LeaveRoom(s: Server, c: ConnId, r: RoomId): Server
    requires Known(s, c) && r in s.rooms
  {
    if s.conns[c].user.value !in s.rooms[r].members then s else
    var t := Unlist(s, c, r);
    t.(conns := SendAll(t.conns, t.rooms[r].members.Values, UserLeft(r, s.conns[c].user.value)))
  }

  // The rooms of c that the registry holds.
  function RoomsOf(s: Server, c: ConnId): set<RoomId>
    requires c in s.conns
  {
    set r | r in s.conns[c].rooms && r in s.rooms
  }

  // leaveAllRooms and the ghost loop of handleDisconnect: one room after another.
  function LeaveEach(s: Server, c: ConnId, order: seq<RoomId>): (t: Server)
    requires Known(s, c) && Elems(order) <= s.rooms.Keys
    ensures t.rooms.Keys == s.rooms.Keys && t.conns.Keys == s.conns.Keys && Known(t, c)
    ensures t.conns[c].user == s.conns[c].user
    decreases |order|
  {
    if order == [] then s
    else
      assert order[0] in Elems(order) && Elems(order[1..]) <= Elems(order);
      LeaveEach(LeaveRoom(s, c, order[0]), c, order[1..])
  }

  predicate CanJoin(s: Server, r: RoomId) {
    r in s.rooms && |s.rooms[r].members| < s.limits.maxRoomSize
  }

  // Registry.Join when it succeeds.
  function Enlist(s: Server, c: ConnId, r: RoomId): Server
    requires Known(s, c) && r in s.rooms
  {
    s.(rooms := s.rooms[r := s.rooms[r].(members := s.rooms[r].members[s.conns[c].user.value := c])],
       conns := s.conns[c := s.conns[c].(rooms := s.conns[c].rooms + {r})])
  }

  // Registry.Join with its notices: the joiner is told the members present in
  // the snapshot (listed in some order), then each of them is told.
  function EnterRoom(s: Server, c: ConnId, r: RoomId, snapshot: seq<UserId>): Server
    requires Known(s, c) && r in s.rooms
  {
    var t := SendTo(Enlist(s, c, r), c, RoomJoined(r, snapshot));
    t.(conns := SendAll(t.conns, s.rooms[r].members.Values, UserJoined(r, s.conns[c].user.value)))
  }

  lemma SendAllBound(s: Server, to: set<ConnId>, m: Msg)
    requires Bound(s)
    ensures Bound(s.(conns := SendAll(s.conns, to, m)))
  {
    forall r | r in s.rooms ensures BoundMap(s.rooms[r].members, SendAll(s.conns, to, m)) {
      assert BoundMap(s.rooms[r].members, s.conns);
    }
  }

  lemma UnlistBound(s: Server, c: ConnId, r: RoomId)
    requires Bound(s) && Known(s, c) && r in s.rooms
    ensures Bound(Unlist(s, c, r))
  {
    forall q | q in s.rooms ensures BoundMap(Unlist(s, c, r).rooms[q].members, Unlist(s, c, r).conns) {
      assert BoundMap(s.rooms[q].members, s.conns);
    }
  }

  lemma EnlistBound(s: Server, c: ConnId, r: RoomId)
    requires Bound(s) && Known(s, c) && r in s.rooms
    ensures Bound(Enlist(s, c, r))
  {
    forall q | q in s.rooms ensures BoundMap(Enlist(s, c, r).rooms[q].members, Enlist(s, c, r).conns) {
      assert BoundMap(s.rooms[q].members, s.conns);
    }
  }

  lemma EnlistBoundMap(s: Server, c: ConnId, r: RoomId, q: RoomId)
    requires Bound(s) && Known(s, c) && r in s.rooms && q in s.rooms
    ensures BoundMap(s.rooms[q].members, Enlist(s, c, r).conns)
  {
    assert BoundMap(s.rooms[q].members, s.conns);
  }

  lemma EnterBound(s: Server, c: ConnId, r: RoomId, snapshot: seq<UserId>)
    requires Bound(s) && Known(s, c) && r in s.rooms
    ensures Bound(EnterRoom(s, c, r, snapshot))
  {
    EnlistBound(s, c, r);
    var t := Enlist(s, c, r);
    SendAllBound(t, {c}, RoomJoined(r, snapshot));
    var told := SendTo(t, c, RoomJoined(r, snapshot));
    assert told == t.(conns := SendAll(t.conns, {c}, RoomJoined(r, snapshot)));
    SendAllBound(told, s.rooms[r].members.Values, UserJoined(r, s.conns[c].user.value));
  }

  // --------------------------------------------------------------- handlers

  function HandleJoin(s: Server, c: ConnId, r: RoomId, order: seq<RoomId>, snapshot: seq<UserId>): Server
    requires Known(s, c) && Elems(order) <= s.rooms.Keys
  {
    var left := LeaveEach(s, c, order);
    if !CanJoin(left, r) then SendTo(left, c, Failure)
    else BroadcastRoomList(EnterRoom(left, c, r, snapshot), s.conns[c].user.value)
  }

  function HandleLeave(s: Server, c: ConnId, r: RoomId): Server
    requires Known(s, c)
  {
    var u := s.conns[c].user.value;
    if r !in s.rooms || u !in s.rooms[r].members then s
    else BroadcastRoomList(SendTo(LeaveRoom(s, c, r), c, RoomLeft(r)), u)
  }

  // peerClient: the registered connection of `target`, if some room of c lists
  // `target` among its members.
  ghost predicate SharesRoom(s: Server, c: ConnId, target: UserId)
    requires c in s.conns
  {
    exists r :: r in s.conns[c].rooms && r in s.rooms && target in s.rooms[r].members
  }

  ghost predicate MayRelay(s: Server, c: ConnId, target: UserId)
    requires Known(s, c)
  {
    target != s.conns[c].user.value && target in s.clients && SharesRoom(s, c, target)
  }

  ghost function HandleSignal(s: Server, c: ConnId, kind: SignalKind, target: UserId): Server
    requires Known(s, c)
  {
    if MayRelay(s, c, target) && s.clients[target] in s.conns
    then SendTo(s, s.clients[target], Signal(kind, s.conns[c].user.value))
    else s
  }

  // A new socket, on which nobody is logged in.
  function Accepted(s: Server, c: ConnId): Server {
    s.(conns := s.conns[c := Conn(None, {}, [], false, false, false)])
  }

  lemma AcceptBound(s: Server, c: ConnId)
    requires Bound(s) && c !in s.conns
    ensures Bound(Accepted(s, c))
  {
    forall r | r in s.rooms ensures BoundMap(s.rooms[r].members, Accepted(s, c).conns) {
      assert BoundMap(s.rooms[r].members, s.conns);
    }
  }

  function Rebound(s: Server, c: ConnId, u: UserId): Server
    requires c in s.conns
  {
    s.(conns := s.conns[c := s.conns[c].(user := Some(u))], clients := s.clients[u := c])
  }

  function MarkEvicted(s: Server, c: ConnId): Server
    requires c in s.conns
  {
    s.(conns := s.conns[c := s.conns[c].(evicted := true)])
  }

  // The session is bound and the registered connection swapped; a displaced
  // connection is to be closed.
  function Kicked(s: Server, c: ConnId, u: UserId): Server
    requires c in s.conns
  {
    if u in s.clients && s.clients[u] != c && s.clients[u] in s.conns
    then MarkEvicted(Rebound(s, c, u), s.clients[u])
    else Rebound(s, c, u)
  }

  lemma KickedBound(s: Server, c: ConnId, u: UserId)
    requires Bound(s) && c in s.conns && (s.conns[c].user == None || s.conns[c].user == Some(u))
    ensures Bound(Kicked(s, c, u))
  {
    forall r | r in s.rooms ensures BoundMap(s.rooms[r].members, Kicked(s, c, u).conns) {
      assert BoundMap(s.rooms[r].members, s.conns);
      assert forall x :: x in s.conns && s.conns[x].user.Some? ==> Kicked(s, c, u).conns[x].user == s.conns[x].user;
    }
  }

  function Authenticate(s: Server, c: ConnId, u: UserId): Server
    requires c in s.conns
  {
    SendTo(Kicked(s, c, u), c, AuthSuccess)
  }

  lemma AuthenticateBound(s: Server, c: ConnId, u: UserId)
    requires Bound(s) && c in s.conns && (s.conns[c].user == None || s.conns[c].user == Some(u))
    ensures Bound(Authenticate(s, c, u))
  {
    KickedBound(s, c, u);
    var t := Kicked(s, c, u);
    SendAllBound(t, {c}, AuthSuccess);
    assert SendTo(t, c, AuthSuccess) == t.(conns := SendAll(t.conns, {c}, AuthSuccess));
  }

  function RemoveClient(s: Server, c: ConnId): Server
    requires Known(s, c)
  {
    var u := s.conns[c].user.value;
    if u in s.clients && s.clients[u] == c then s.(clients := s.clients - {u}) else s
  }

  // The rooms that map the user of c, which is what GhostRooms scans for.
  function GhostRooms(s: Server, u: UserId): set<RoomId> {
    set r | r in s.rooms && u in s.rooms[r].members
  }

  // Client.close: the connection is marked closed and its presence cleaned up.
  function Disconnect(s: Server, c: ConnId, order: seq<RoomId>, ghosts: seq<RoomId>): Server
    requires c in s.conns && Elems(order) <= s.rooms.Keys && Elems(ghosts) <= s.rooms.Keys
  {
    if s.conns[c].user.None? then MarkClosed(s, c) else
    var left := LeaveEach(LeaveEach(RemoveClient(s, c), c, order), c, ghosts);
    BroadcastRoomList(MarkClosed(left, c), s.conns[c].user.value)
  }

  function MarkClosed(s: Server, c: ConnId): Server
    requires c in s.conns
  {
    s.(conns := s.conns[c := s.conns[c].(closed := true)])
  }

  lemma MarkClosedBound(s: Server, c: ConnId)
    requires Bound(s) && c in s.conns
    ensures Bound(MarkClosed(s, c))
  {
    forall r | r in s.rooms ensures BoundMap(s.rooms[r].members, MarkClosed(s, c).conns) {
      assert BoundMap(s.rooms[r].members, s.conns);
    }
  }

  // ---------------------------------------------------------- room creation

  const MAX_ROOM_NAME: nat := 50

  // unicode.IsSpace
  predicate IsSpace(ch: char) {
    var n := ch as int;
    0x09 <= n <= 0x0d || n in {0x20, 0x85, 0xa0, 0x1680, 0x2028, 0x2029, 0x202f, 0x205f, 0x3000} || 0x2000 <= n <= 0x200a
  }

  function TrimSpace(s: string): (t: string)
    ensures |t| <= |s|
    ensures t != "" ==> !IsSpace(t[0]) && !IsSpace(t[|t| - 1])
  {
    if s == "" then s
    else if IsSpace(s[0]) then TrimSpace(s[1..])
    else if IsSpace(s[|s| - 1]) then TrimSpace(s[..|s| - 1])
    else s
  }

  // Everything of s outside s[i..j] is white space.
  ghost predicate Padded(s: string, i: nat, j: nat) {
    i <= j <= |s| && (forall k :: 0 <= k < i ==> IsSpace(s[k])) && (forall k :: j <= k < |s| ==> IsSpace(s[k]))
  }

  // Only white space is trimmed, and only from the two ends.
  lemma {:induction false} TrimmedIsSpace(s: string) returns (i: nat, j: nat)
    ensures Padded(s, i, j) && TrimSpace(s) == s[i..j]
    decreases |s|
  {
    i, j := 0, |s|;
    if s != "" && IsSpace(s[0]) {
      i, j := TrimmedIsSpace(s[1..]);
      PaddedLeft(s, i, j);
      i, j := i + 1, j + 1;
    } else if s != "" && IsSpace(s[|s| - 1]) {
      i, j := TrimmedIsSpace(s[..|s| - 1]);
    }
  }

  lemma PaddedLeft(s: string, i: nat, j: nat)
    requires s != "" && IsSpace(s[0]) && Padded(s[1..], i, j)
    ensures Padded(s, i + 1, j + 1) && s[1..][i..j] == s[i + 1..j + 1]
  {
    assert forall k :: 0 < k < |s| ==> s[k] == s[1..][k - 1];
  }

  function Folded(s: string, fold: char -> char): string {
    seq(|s|, i requires 0 <= i < |s| => fold(s[i]))
  }

  predicate EqualFold(a: string, b: string, fold: char -> char) {
    Folded(a, fold) == Folded(b, fold)
  }

  // Names that differ in case at most.
  ghost predicate SameName(a: string, b: string, fold: char -> char) {
    |a| == |b| && forall i :: 0 <= i < |a| ==> fold(a[i]) == fold(b[i])
  }

  lemma EqualFoldMeans(a: string, b: string, fold: char -> char)
    ensures EqualFold(a, b, fold) <==> SameName(a, b, fold)
  {
    assert |Folded(a, fold)| == |a| && |Folded(b, fold)| == |b|;
    if EqualFold(a, b, fold) {
      forall i | 0 <= i < |a| ensures fold(a[i]) == fold(b[i]) {
        assert Folded(a, fold)[i] == Folded(b, fold)[i];
      }
    }
  }

  predicate NameTaken(rooms: map<RoomId, Room>, name: string, fold: char -> char) {
    exists r :: r in rooms && EqualFold(rooms[r].name, name, fold)
  }

  predicate CanCreate(s: Server, name: string) {
    0 < |name| <= MAX_ROOM_NAME && |s.rooms| < s.limits.maxRooms && !NameTaken(s.rooms, name, s.limits.fold)
  }

  function HandleCreate(s: Server, c: ConnId, name: string, id: RoomId): Server
    requires Known(s, c)
  {
    var name := TrimSpace(name);
    if !CanCreate(s, name) then SendTo(s, c, Failure)
    else BroadcastRoomList(SendTo(AddRoom(s, name, id), c, RoomCreated(id)), s.conns[c].user.value)
  }

  function AddRoom(s: Server, name: string, id: RoomId): Server {
    s.(rooms := s.rooms[id := Room(name, map[])])
  }

  lemma AddRoomBound(s: Server, name: string, id: RoomId)
    requires Bound(s)
    ensures Bound(AddRoom(s, name, id))
  {
    assert forall r :: r in s.rooms ==> BoundMap(s.rooms[r].members, s.conns);
  }

  // ---------------------------------------------------------------- browser

  // The part of app.js's state that replicates the room.
  datatype Browser = Browser(room: Option<RoomId>, users: seq<UserId>)

  function Without(users: seq<UserId>, u: UserId): (rest: seq<UserId>)
    ensures Elems(rest) == Elems(users) - {u}
    ensures NoDup(users) ==> NoDup(rest)
    ensures |rest| <= |users|
  {
    if users == [] then []
    else
      assert users == [users[0]] + users[1..];
      var rest := Without(users[1..], u);
      assert NoDup(users) ==> NoDup(users[1..]) && users[0] !in Elems(users[1..]);
      if users[0] == u then rest
      else
        assert Elems([users[0]] + rest) == {users[0]} + Elems(rest);
        [users[0]] + rest
  }

  // Nothing else changes: the list is filtered user by user, so every other one
  // stays, as often as before and in the same order.
  lemma {:induction false} WithoutAppend(users: seq<UserId>, x: UserId, u: UserId)
    ensures Without(users + [x], u) == Without(users, u) + if x == u then [] else [x]
    decreases |users|
  {
    if users == [] {
      assert [] + [x] == [x] && [x][1..] == [];
    } else {
      WithoutAppend(users[1..], x, u);
      assert (users + [x])[0] == users[0] && (users + [x])[1..] == users[1..] + [x];
    }
  }

  // The message handlers of app.js; user_joined and user_left ignore the room,
  // and auth_error logs the page out (a page not logged in shows no room).
  function Apply(b: Browser, m: Msg): Browser {
    match m
    case RoomJoined(r, users) => Browser(Some(r), users)
    case RoomLeft(_) => Browser(None, [])
    case UserJoined(_, u) => if u in b.users then b else b.(users := b.users + [u])
    case UserLeft(_, u) => b.(users := Without(b.users, u))
    case Signal(_, _) => b
    case AuthError => Browser(None, [])
    case _ => b
  }

  predicate Neutral(m: Msg) {
    m.AuthSuccess? || m.Failure? || m.RoomCreated? || m.RoomList? || m.Content?
  }

  function Fold(b: Browser, q: seq<Msg>): Browser
    decreases |q|
  {
    if q == [] then b else Fold(Apply(b, q[0]), q[1..])
  }

  // A browser showing a room finds the sender of this signal in its list.
  predicate Visible(b: Browser, m: Msg) {
    m.Signal? && b.room.Some? ==> m.from in b.users
  }
}
