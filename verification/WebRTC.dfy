// The peer manager in its own form: peer objects whose fields the handlers
// update in place. Each handler is run to completion and proved to take the
// endpoint where Negotiation says, and candidates where IceBuffer's steps do.

module WebRTC {
  import opened Wrappers
  import opened Negotiation
  import IceBuffer

  type UserId = string
  type Candidate = IceBuffer.Candidate

  // JavaScript's `<` on strings, by code unit.
  predicate Less(a: string, b: string) {
    b != "" && (a == "" || a[0] < b[0] || (a[0] == b[0] && Less(a[1..], b[1..])))
  }

  // a is a proper prefix of b, or is smaller where they first differ.
  ghost predicate SmallerFrom(a: string, b: string, k: nat) {
    && k <= |a| && k < |b| && a[..k] == b[..k]
    && (k == |a| || a[k] < b[k])
  }

  lemma {:induction false} LessMeans(a: string, b: string)
    ensures Less(a, b) <==> exists k: nat :: SmallerFrom(a, b, k)
    decreases |a|
  {
    if a != "" && b != "" && a[0] == b[0] {
      LessMeans(a[1..], b[1..]);
      assert a == [a[0]] + a[1..] && b == [b[0]] + b[1..];
      forall k: nat | SmallerFrom(a[1..], b[1..], k) ensures SmallerFrom(a, b, k + 1) {
        assert a[..k + 1] == [a[0]] + a[1..][..k] && b[..k + 1] == [b[0]] + b[1..][..k];
      }
      forall k: nat | SmallerFrom(a, b, k) ensures k > 0 && SmallerFrom(a[1..], b[1..], k - 1) {
        assert a[1..][..k - 1] == a[..k][1..] && b[1..][..k - 1] == b[..k][1..];
      }
    } else if Less(a, b) {
      assert SmallerFrom(a, b, 0);
    } else {
      forall k: nat ensures !SmallerFrom(a, b, k) {
        if k > 0 && SmallerFrom(a, b, k) { FirstsAgree(a, b, k); }
      }
    }
  }

  lemma FirstsAgree(a: string, b: string, k: nat)
    requires k > 0 && SmallerFrom(a, b, k)
    ensures a != "" && b != "" && a[0] == b[0]
  {
    assert a[..k][0] == b[..k][0];
  }

  // Of two users exactly one is polite towards the other.
  lemma {:induction false} ExactlyOnePolite(a: UserId, b: UserId)
    requires a != b
    ensures Less(a, b) <==> !Less(b, a)
  {
    if a != "" && b != "" && a[0] == b[0] {
      assert a == [a[0]] + a[1..] && b == [b[0]] + b[1..];
      ExactlyOnePolite(a[1..], b[1..]);
    }
  }

  class Peer {
    var signaling: Phase
    var makingOffer: bool
    var ignoreOffer: bool
    // What the connection itself keeps track of.
    var makingFrom: nat
    var changes: nat
    var synced: nat
    var seen: nat
    var last: Option<Exchange>
    var remoteSet: bool
    var handed: seq<Candidate>

    // A new connection: each local track added to it is a change to negotiate.
    constructor (tracks: nat)
      ensures Value() == Fresh.(changes := tracks) && !remoteSet && handed == []
    {
      signaling, makingOffer, ignoreOffer, makingFrom := Stable, false, false, 0;
      changes, synced, seen, last := tracks, 0, 0, None;
      remoteSet, handed := false, [];
    }

    ghost function Value(): Endpoint
      reads this
    {
      Endpoint(signaling, if makingOffer then Some(makingFrom) else None, ignoreOffer, changes, synced, seen, last)
    }

    // onnegotiationneeded up to its await, and from its await.
    method BeginOffering()
      requires NeedsNegotiation(Value())
      modifies this`makingOffer, this`makingFrom
      ensures Value() == BeginOffer(old(Value())) && makingOffer && makingFrom == changes
    {
      makingOffer, makingFrom := true, changes;
    }

    method FinishOffering(o: Offer) returns (out: seq<Signal>)
      modifies this`makingOffer, this`signaling
      ensures Value() == FinishOffer(old(Value()), o) && out == [OfferMsg(o)]
      ensures !makingOffer && signaling == HaveLocalOffer(o)
    {
      signaling := HaveLocalOffer(o);
      out := [OfferMsg(o)];
      makingOffer := false;
    }
  }

  class WebRTCManager {
    const localUserId: UserId
    var peers: map<UserId, Peer>
    var pending: map<UserId, seq<Candidate>>
    // How many tracks the local streams have.
    var localTracks: nat
    // The candidates each user has sent so far, split by whether there was a remote
    // description when they came.
    ghost var early: map<UserId, seq<Candidate>>
    ghost var late: map<UserId, seq<Candidate>>

    constructor (localUserId: UserId)
      ensures this.localUserId == localUserId && peers == map[] && pending == map[] && localTracks == 0 && Valid()
      ensures forall u :: IceOf(u) == IceBuffer.Empty
    {
      this.localUserId := localUserId;
      peers, pending, localTracks := map[], map[], 0;
      early, late := map[], map[];
    }

    ghost predicate Valid()
      reads this
    {
      forall u, v :: u in peers && v in peers && u != v ==> peers[u] != peers[v]
    }

    ghost function Buffered(u: UserId): seq<Candidate>
      reads this
    {
      At(pending, u)
    }

    // What IceBuffer says of the peer u: no handler is under way.
    ghost function IceOf(u: UserId): IceBuffer.Ice
      reads this, if u in peers then {peers[u]} else {}
    {
      IceBuffer.Ice(u in peers, u in peers && peers[u].remoteSet, 0, Buffered(u), [], HandedTo(u),
                    At(early, u), At(late, u))
    }

    // The endpoint towards u, or the one a connection to u would start from.
    ghost function EndOf(u: UserId): Endpoint
      reads this, if u in peers then {peers[u]} else {}
    {
      if u in peers then peers[u].Value() else Fresh.(changes := localTracks)
    }

    ghost function HandedTo(u: UserId): seq<Candidate>
      reads this, if u in peers then {peers[u]} else {}
    {
      if u in peers then peers[u].handed else []
    }

    // No peer but u's changed.
    twostate predicate Only(u: UserId)
      reads this
    {
      && peers.Keys == old(peers.Keys) + {u}
      && (forall v :: v in old(peers) && v != u ==> v in peers && peers[v] == old(peers[v]))
      && (u in old(peers) ==> u in peers && peers[u] == old(peers[u]))
    }

    method Ensure(u: UserId) returns (peer: Peer)
      requires Valid()
      modifies this`peers
      ensures Valid() && Only(u) && peer == peers[u] && (u !in old(peers) ==> fresh(peer))
      ensures EndOf(u) == old(EndOf(u)) && HandedTo(u) == old(HandedTo(u))
      ensures IceOf(u) == IceBuffer.Handle(old(IceOf(u)), IceBuffer.Open)
      ensures forall v :: v != u ==> IceOf(v) == old(IceOf(v)) && EndOf(v) == old(EndOf(v))
    {
      if u !in peers {
        peer := new Peer(localTracks);
        peers := peers[u := peer];
      }
      peer := peers[u];
    }

    // A new microphone, camera or screen track goes to every connection.
    method AddLocalTrack()
      requires Valid()
      modifies this`localTracks, peers.Values`changes
      ensures Valid() && localTracks == old(localTracks) + 1
      ensures forall u :: EndOf(u) == old(EndOf(u)).(changes := old(EndOf(u)).changes + 1)
      ensures forall u :: HandedTo(u) == old(HandedTo(u)) && IceOf(u) == old(IceOf(u))
    {
      localTracks := localTracks + 1;
      var left := peers.Keys;
      while left != {}
        invariant left <= peers.Keys && localTracks == old(localTracks) + 1
        invariant forall u :: u in peers ==> peers[u].changes == old(peers[u].changes) + if u in left then 0 else 1
      {
        var u :| u in left;
        assert peers[u] in peers.Values;
        peers[u].changes := peers[u].changes + 1;
        left := left - {u};
      }
      forall u ensures EndOf(u) == old(EndOf(u)).(changes := old(EndOf(u)).changes + 1) {
        if u in peers {
          assert peers[u].Value() == old(peers[u].Value()).(changes := old(peers[u].changes) + 1);
        }
      }
    }

    // An existing member calls this when a newcomer is announced: the data
    // channel is a further change to negotiate.
    method InitiatePeer(u: UserId)
      requires Valid()
      modifies this`peers
      ensures Valid() && Only(u)
      ensures u in old(peers) ==> peers == old(peers)
      ensures u !in old(peers) ==> EndOf(u) == Fresh.(changes := localTracks + 1) && NeedsNegotiation(EndOf(u))
      ensures IceOf(u) == IceBuffer.Handle(old(IceOf(u)), IceBuffer.Open)
      ensures forall v :: v != u ==> IceOf(v) == old(IceOf(v))
    {
      if u in peers { return; }
      var peer := Ensure(u);
      peer.changes := peer.changes + 1;
    }

    method ClosePeer(u: UserId)
      requires Valid()
      modifies this
      ensures Valid()
      ensures u in old(peers) ==> peers == old(peers) - {u} && pending == old(pending) - {u}
      ensures u !in old(peers) ==> peers == old(peers) && pending == old(pending)
      ensures localTracks == old(localTracks)
      ensures IceOf(u) == IceBuffer.Handle(old(IceOf(u)), IceBuffer.Close)
      ensures forall v :: v != u ==> IceOf(v) == old(IceOf(v))
    {
      if u !in peers { return; }
      peers := peers - {u};
      pending := pending - {u};
      early, late := early - {u}, late - {u};
    }

    // Closes every connection and drops the local streams. Candidates buffered for
    // a user without a peer outlive it.
    method CloseAll()
      requires Valid()
      modifies this
      ensures Valid() && peers == map[] && pending == old(pending) - old(peers).Keys && localTracks == 0
      ensures forall u :: IceOf(u) == IceBuffer.Handle(old(IceOf(u)), IceBuffer.Close)
    {
      var left := peers.Keys;
      while left != {}
        invariant Valid() && left == peers.Keys <= old(peers).Keys
        invariant pending == old(pending) - (old(peers).Keys - left)
        invariant forall u ::
          IceOf(u) == if u in left then old(IceOf(u)) else IceBuffer.Handle(old(IceOf(u)), IceBuffer.Close)
      {
        var u :| u in left;
        ClosePeer(u);
        left := left - {u};
        assert pending == old(pending) - (old(peers).Keys - left);
      }
      assert old(peers).Keys - left == old(peers).Keys;
      localTracks := 0;
    }

    // Hands everything buffered for u to its connection, oldest first.
    method FlushPending(u: UserId, peer: Peer)
      requires Valid() && u in peers && peers[u] == peer
      modifies this`pending, peer`handed
      ensures Buffered(u) == [] && HandedTo(u) == old(HandedTo(u)) + old(Buffered(u))
      ensures forall v :: v != u ==> (v in pending <==> v in old(pending)) && Buffered(v) == old(Buffered(v))
    {
      var candidates := At(pending, u);
      pending := pending[u := []];
      for i := 0 to |candidates|
        invariant pending == old(pending)[u := []] && peer.handed == old(peer.handed) + candidates[..i]
      {
        peer.handed := peer.handed + [candidates[i]];
        assert candidates[..i + 1] == candidates[..i] + [candidates[i]];
      }
      assert candidates[..|candidates|] == candidates;
    }

    // `own` is the offer that a setLocalDescription already under way produces.
    method HandleOffer(from: UserId, o: Offer, own: Offer) returns (out: seq<Signal>)
      requires Valid()
      modifies this, if from in peers then {peers[from]} else {}
      ensures Valid() && Only(from) && localTracks == old(localTracks)
      ensures var r := OnOffer(Less(localUserId, from), old(EndOf(from)), o, own);
        EndOf(from) == r.0 && out == r.1
      ensures out == [] && from in old(peers) ==> peers[from].remoteSet == old(peers[from].remoteSet)
      ensures out == [] ==> pending == old(pending)
      ensures out != [] ==> peers[from].remoteSet && Buffered(from) == []
      ensures out != [] ==> HandedTo(from) == old(HandedTo(from)) + old(Buffered(from))
      ensures IceOf(from) == IceBuffer.Handle(old(IceOf(from)), if out == [] then IceBuffer.Open else IceBuffer.Describe)
      ensures forall v :: v != from ==> IceOf(v) == old(IceOf(v)) && EndOf(v) == old(EndOf(v))
    {
      var peer := Ensure(from);
      out := OfferTo(from, peer, o, own);
    }

    method OfferTo(from: UserId, peer: Peer, o: Offer, own: Offer) returns (out: seq<Signal>)
      requires Valid() && from in peers && peers[from] == peer
      modifies this`pending, peer
      ensures var r := OnOffer(Less(localUserId, from), old(peer.Value()), o, own);
        peer.Value() == r.0 && out == r.1
      ensures out == [] ==> peer.handed == old(peer.handed) && peer.remoteSet == old(peer.remoteSet)
      ensures out == [] ==> pending == old(pending)
      ensures out != [] ==> peer.remoteSet && Buffered(from) == [] && peer.handed == old(peer.handed) + old(Buffered(from))
      ensures forall v :: v != from ==> Buffered(v) == old(Buffered(v))
    {
      var polite := Less(localUserId, from);
      var collision := peer.makingOffer || peer.signaling != Stable;
      peer.ignoreOffer := !polite && collision;
      if peer.ignoreOffer { return []; }

      out := [];
      if peer.makingOffer { out := peer.FinishOffering(own); }
      // setRemoteDescription, rolling back an offer of our own.
      peer.signaling, peer.remoteSet, peer.seen := Stable, true, o.ver;
      FlushPending(from, peer);
      // setLocalDescription produces the answer and completes the exchange.
      peer.last := Some(Exchange(o.id, o.id));
      out := out + [AnswerMsg(o.id)];
    }

    method HandleAnswer(from: UserId, to: nat)
      requires Valid()
      modifies this`pending, if from in peers then {peers[from]} else {}
      ensures Valid() && peers == old(peers)
      ensures EndOf(from) == OnAnswer(old(EndOf(from)), to)
      ensures if from in peers && old(peers[from].signaling) != Stable
        then (&& peers[from].signaling == Stable && peers[from].remoteSet && Buffered(from) == []
              && peers[from].synced == old(peers[from].signaling).offer.ver
              && peers[from].last == Some(Exchange(old(peers[from].signaling).offer.id, to))
              && HandedTo(from) == old(HandedTo(from)) + old(Buffered(from))
              && IceOf(from) == IceBuffer.Handle(old(IceOf(from)), IceBuffer.Describe))
        else EndOf(from) == old(EndOf(from)) && IceOf(from) == old(IceOf(from)) && pending == old(pending)
      ensures from in peers && old(peers[from].signaling) == Stable ==> peers[from].remoteSet == old(peers[from].remoteSet)
      ensures forall v :: v != from ==> IceOf(v) == old(IceOf(v)) && EndOf(v) == old(EndOf(v))
    {
      if from !in peers { return; }
      var peer := peers[from];
      match peer.signaling
      case Stable => return;
      case HaveLocalOffer(o) =>
        peer.signaling, peer.remoteSet, peer.synced := Stable, true, o.ver;
        peer.last := Some(Exchange(o.id, to));
        FlushPending(from, peer);
    }

    // Buffered until there is a peer with a remote description.
    method HandleICECandidate(from: UserId, c: Candidate)
      requires Valid()
      modifies this`pending, this`early, this`late, if from in peers then {peers[from]} else {}
      ensures Valid() && peers == old(peers) && EndOf(from) == old(EndOf(from))
      ensures if from in peers && old(peers[from].remoteSet)
        then HandedTo(from) == old(HandedTo(from)) + [c] && pending == old(pending)
        else Buffered(from) == old(Buffered(from)) + [c] && HandedTo(from) == old(HandedTo(from))
      ensures from in peers ==> peers[from].remoteSet == old(peers[from].remoteSet)
      ensures IceOf(from) == IceBuffer.Handle(old(IceOf(from)), IceBuffer.Get(c))
      ensures forall v :: v != from ==> IceOf(v) == old(IceOf(v)) && EndOf(v) == old(EndOf(v))
    {
      if from !in peers || !peers[from].remoteSet {
        pending := pending[from := At(pending, from) + [c]];
        early := early[from := At(early, from) + [c]];
      } else {
        peers[from].handed := peers[from].handed + [c];
        late := late[from := At(late, from) + [c]];
      }
    }
  }

  function At(m: map<UserId, seq<Candidate>>, u: UserId): seq<Candidate> {
    if u in m then m[u] else []
  }
}
