// The browser's room state in app.js's own form: handlers that update the
// member list and the peer connections in place. Each is proved to take the
// replica where Presence.Apply says.

module App {
  import opened Wrappers
  import opened Presence
  import Negotiation
  import WebRTC

  class App {
    var currentRoom: Option<RoomId>
    var roomUsers: seq<UserId>
    const webrtc: WebRTC.WebRTCManager

    constructor (webrtc: WebRTC.WebRTCManager)
      requires webrtc.Valid()
      ensures this.webrtc == webrtc && Valid() && Value() == Browser(None, [])
    {
      this.webrtc := webrtc;
      currentRoom, roomUsers := None, [];
    }

    ghost predicate Valid()
      reads this, webrtc
    {
      webrtc.Valid()
    }

    ghost function Value(): Browser
      reads this
    {
      Browser(currentRoom, roomUsers)
    }

    // In a room, peer connections lead only to listed members.
    ghost predicate NoOrphans()
      reads this, webrtc
    {
      currentRoom.Some? ==> webrtc.peers.Keys <= Elems(roomUsers)
    }

    // A message of the presence protocol. Signals go to OnOffer and to the
    // manager's HandleAnswer and HandleICECandidate, which open no connection.
    method OnMessage(m: Msg)
      requires Valid()
      modifies this, webrtc
      ensures Valid() && Value() == Apply(old(Value()), m)
      ensures old(NoOrphans()) ==> NoOrphans()
      ensures m.RoomJoined? ==> currentRoom == Some(m.room) && roomUsers == m.users && webrtc.peers == map[]
      ensures m.RoomLeft? || m.AuthError? ==> currentRoom == None && roomUsers == [] && webrtc.peers == map[]
      ensures !m.RoomJoined? && !m.RoomLeft? && !m.AuthError? ==> currentRoom == old(currentRoom)
      ensures m.UserJoined? ==> m.user in roomUsers && webrtc.peers.Keys == old(webrtc.peers).Keys + {m.user}
      ensures m.UserJoined? ==> roomUsers == old(roomUsers) + if m.user in old(roomUsers) then [] else [m.user]
      ensures m.UserLeft? ==> m.user !in roomUsers && webrtc.peers.Keys == old(webrtc.peers).Keys - {m.user}
      ensures m.UserLeft? ==> Elems(roomUsers) == Elems(old(roomUsers)) - {m.user}
      ensures m.Signal? || Neutral(m) ==> roomUsers == old(roomUsers) && webrtc.peers == old(webrtc.peers)
    {
      match m
      case RoomJoined(room, users) => OnRoomJoined(room, users);
      case RoomLeft(_) => ResetRoom();
      case UserJoined(_, user) => OnUserJoined(user);
      case UserLeft(_, user) => OnUserLeft(user);
      case Signal(_, _) =>
      case AuthError => ResetRoom();
      case _ =>
    }

    method OnRoomJoined(room: RoomId, users: seq<UserId>)
      requires Valid()
      modifies this, webrtc
      ensures Valid() && Value() == Browser(Some(room), users) && webrtc.peers == map[]
    {
      webrtc.CloseAll();
      currentRoom := Some(room);
      roomUsers := users;
    }

    method ResetRoom()
      requires Valid()
      modifies this, webrtc
      ensures Valid() && Value() == Browser(None, []) && webrtc.peers == map[]
    {
      webrtc.CloseAll();
      currentRoom := None;
      roomUsers := [];
    }

    method Find(user: UserId) returns (found: bool)
      ensures found <==> user in roomUsers
    {
      for i := 0 to |roomUsers|
        invariant user !in roomUsers[..i]
      {
        if roomUsers[i] == user { return true; }
      }
      found := false;
    }

    method OnUserJoined(user: UserId)
      requires Valid()
      modifies this`roomUsers, webrtc
      ensures Valid() && Value() == Apply(old(Value()), UserJoined("", user))
      ensures webrtc.peers.Keys == old(webrtc.peers).Keys + {user}
      ensures Elems(roomUsers) == Elems(old(roomUsers)) + {user}
    {
      var found := Find(user);
      if !found {
        roomUsers := roomUsers + [user];
      }
      webrtc.InitiatePeer(user);
    }

    method FilterOut(users: seq<UserId>, user: UserId) returns (rest: seq<UserId>)
      ensures rest == Without(users, user)
    {
      rest := [];
      for i := 0 to |users|
        invariant rest == Without(users[..i], user)
      {
        assert users[..i + 1] == users[..i] + [users[i]];
        WithoutAppend(users[..i], users[i], user);
        if users[i] != user {
          rest := rest + [users[i]];
        }
      }
      assert users[..|users|] == users;
    }

    method OnUserLeft(user: UserId)
      requires Valid()
      modifies this`roomUsers, webrtc
      ensures Valid() && roomUsers == Without(old(roomUsers), user)
      ensures webrtc.peers.Keys == old(webrtc.peers).Keys - {user}
    {
      roomUsers := FilterOut(roomUsers, user);
      webrtc.ClosePeer(user);
    }

    // An offer opens a connection to its sender, if there is none yet: an orphan
    // unless the sender is in the list.
    method OnOffer(from: UserId, o: Negotiation.Offer, own: Negotiation.Offer) returns (out: seq<Negotiation.Signal>)
      requires Valid()
      modifies webrtc, if from in webrtc.peers then {webrtc.peers[from]} else {}
      ensures Valid() && Value() == old(Value())
      ensures old(NoOrphans()) ==> (NoOrphans() <==> Visible(Value(), Signal(Offer, from)))
    {
      out := webrtc.HandleOffer(from, o, own);
    }

    // The leave button: the replica is dropped at once, and the request sent.
    method ClickLeave() returns (sent: seq<Req>)
      requires Valid()
      modifies this, webrtc
      ensures Valid() && Value() == if sent != [] then Browser(None, []) else old(Value())
      ensures sent == if old(currentRoom).Some? then [LeaveReq(old(currentRoom).value)] else []
    {
      if currentRoom == None { return []; }
      sent := [LeaveReq(currentRoom.value)];
      ResetRoom();
    }
  }
}
