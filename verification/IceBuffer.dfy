// Buffering of ICE candidates for one peer over its lifetime, with every
// handler split at its awaits: what runs between two awaits is one step.

module IceBuffer {
  type Candidate = string

  // `due` counts handlers whose setRemoteDescription has resolved and which have
  // still to flush; `flushes` holds what each flush in progress has left.
  // `early` and `late` are the candidates received so far, split by whether the
  // remote description was already set.
  datatype Ice = Ice(
    created: bool,
    remote: bool,
    due: nat,
    pending: seq<Candidate>,
    flushes: seq<seq<Candidate>>,
    handed: seq<Candidate>,
    early: seq<Candidate>,
    late: seq<Candidate>)

  const Empty: Ice := Ice(false, false, 0, [], [], [], [], [])

  datatype Event = Receive(c: Candidate) | Create | SetRemote | BeginFlush | HandNext(i: nat)

  predicate Enabled(s: Ice, e: Event) {
    match e
    case Receive(_) => true
    case Create => !s.created
    case SetRemote => s.created
    case BeginFlush => s.due > 0
    case HandNext(i) => i < |s.flushes| && s.flushes[i] != []
  }

  function Step(s: Ice, e: Event): Ice
    requires Enabled(s, e)
  {
    match e
    case Receive(c) =>
      if !s.created || !s.remote then s.(pending := s.pending + [c], early := s.early + [c])
      else s.(handed := s.handed + [c], late := s.late + [c])
    case Create => s.(created := true)
    case SetRemote => s.(remote := true, due := s.due + 1)
    case BeginFlush => s.(due := s.due - 1, flushes := s.flushes + [s.pending], pending := [])
    case HandNext(i) =>
      s.(handed := s.handed + [s.flushes[i][0]], flushes := s.flushes[i := s.flushes[i][1..]])
  }

  // h is a merge of a and b: every element of both, each in its own order.
  ghost predicate Merge(h: seq<Candidate>, a: seq<Candidate>, b: seq<Candidate>)
    decreases |h|
  {
    if h == [] then a == [] && b == []
    else
      || (a != [] && a[|a| - 1] == h[|h| - 1] && Merge(h[..|h| - 1], a[..|a| - 1], b))
      || (b != [] && b[|b| - 1] == h[|h| - 1] && Merge(h[..|h| - 1], a, b[..|b| - 1]))
  }

  lemma MergeNext(h: seq<Candidate>, a: seq<Candidate>, b: seq<Candidate>, c: Candidate)
    requires Merge(h, a, b)
    ensures Merge(h + [c], a + [c], b) && Merge(h + [c], a, b + [c])
  {
    assert (h + [c])[..|h|] == h && (a + [c])[..|a|] == a && (b + [c])[..|b|] == b;
  }

  lemma {:induction false} MergeCounts(h: seq<Candidate>, a: seq<Candidate>, b: seq<Candidate>)
    requires Merge(h, a, b)
    ensures multiset(h) == multiset(a) + multiset(b)
    decreases |h|
  {
    if h != [] {
      var n := |h| - 1;
      assert h == h[..n] + [h[n]];
      if a != [] && a[|a| - 1] == h[n] && Merge(h[..n], a[..|a| - 1], b) {
        assert a == a[..|a| - 1] + [a[|a| - 1]];
        MergeCounts(h[..n], a[..|a| - 1], b);
      } else {
        assert b == b[..|b| - 1] + [b[|b| - 1]];
        MergeCounts(h[..n], a, b[..|b| - 1]);
      }
    }
  }

  ghost function Flat(q: seq<seq<Candidate>>): seq<Candidate> {
    if q == [] then [] else q[0] + Flat(q[1..])
  }

  lemma {:induction false} FlatAppend(q: seq<seq<Candidate>>, last: seq<Candidate>)
    ensures Flat(q + [last]) == Flat(q) + last
  {
    if q == [] {
      assert q + [last] == [last] && Flat([last]) == last + Flat([]);
    } else {
      assert (q + [last])[1..] == q[1..] + [last];
      FlatAppend(q[1..], last);
    }
  }

  // At most one flush holds anything, so taking its head takes the head of all.
  lemma {:induction false} FlatHead(q: seq<seq<Candidate>>, i: nat)
    requires i < |q| && q[i] != [] && forall j :: 0 <= j < |q| && j != i ==> q[j] == []
    ensures Flat(q) == q[i] && Flat(q[i := q[i][1..]]) == q[i][1..]
  {
    if i == 0 {
      FlatEmpty(q[1..]);
      assert q[0 := q[0][1..]][1..] == q[1..];
    } else {
      FlatHead(q[1..], i - 1);
      assert q[i := q[i][1..]][1..] == q[1..][i - 1 := q[i][1..]];
    }
  }

  lemma {:induction false} FlatEmpty(q: seq<seq<Candidate>>)
    requires forall j :: 0 <= j < |q| ==> q[j] == []
    ensures Flat(q) == []
  {
    if q != [] {
      FlatEmpty(q[1..]);
    }
  }

  ghost predicate Inv(s: Ice) {
    && (s.remote ==> s.created)
    && (!s.remote ==> s.due == 0 && s.flushes == [] && s.handed == [] && s.late == [] && s.pending == s.early)
    && (s.remote && s.pending != [] ==> s.due > 0)
    && (s.pending != [] ==> forall i :: 0 <= i < |s.flushes| ==> s.flushes[i] == [])
    && (forall i, j :: 0 <= i < j < |s.flushes| ==> s.flushes[i] == [] || s.flushes[j] == [])
    && |Flat(s.flushes) + s.pending| <= |s.early|
    && var k := |s.early| - |Flat(s.flushes) + s.pending|;
       Flat(s.flushes) + s.pending == s.early[k..] && Merge(s.handed, s.early[..k], s.late)
  }

  lemma ReceiveOk(s: Ice, c: Candidate)
    requires Inv(s)
    ensures Inv(Step(s, Receive(c)))
  {
    var t := Step(s, Receive(c));
    if s.remote {
      MergeNext(s.handed, s.early[..|s.early| - |Flat(s.flushes) + s.pending|], s.late, c);
    } else {
      assert Flat(t.flushes) + t.pending == t.early;
      assert Merge([], t.early[..0], []);
    }
  }

  lemma BeginFlushOk(s: Ice)
    requires Inv(s) && Enabled(s, BeginFlush)
    ensures Inv(Step(s, BeginFlush))
  {
    FlatAppend(s.flushes, s.pending);
    var t := Step(s, BeginFlush);
    assert Flat(t.flushes) + t.pending == Flat(s.flushes) + s.pending;
  }

  lemma HandNextOk(s: Ice, i: nat)
    requires Inv(s) && Enabled(s, HandNext(i))
    ensures Inv(Step(s, HandNext(i)))
  {
    var t := Step(s, HandNext(i));
    FlatHead(s.flushes, i);
    assert s.pending == [];
    var left := s.flushes[i];
    assert Flat(s.flushes) + s.pending == left && Flat(t.flushes) + t.pending == left[1..];
    var k := |s.early| - |left|;
    MergeNext(s.handed, s.early[..k], s.late, left[0]);
    assert s.early[..k + 1] == s.early[..k] + [left[0]];
    assert s.early[k + 1..] == left[1..];
  }

  lemma StepOk(s: Ice, e: Event)
    requires Inv(s) && Enabled(s, e)
    ensures Inv(Step(s, e))
  {
    match e
    case Receive(c) => ReceiveOk(s, c);
    case Create =>
    case SetRemote =>
    case BeginFlush => BeginFlushOk(s);
    case HandNext(i) => HandNextOk(s, i);
  }

  lemma EmptyOk()
    ensures Inv(Empty)
  {
    assert Flat(Empty.flushes) + Empty.pending == [];
  }

  ghost predicate Run(states: seq<Ice>, events: seq<Event>) {
    && |states| == |events| + 1 && states[0] == Empty
    && (forall i :: 0 <= i < |events| ==> Enabled(states[i], events[i]) && states[i + 1] == Step(states[i], events[i]))
  }

  lemma {:induction false} RunOk(states: seq<Ice>, events: seq<Event>, i: nat)
    requires Run(states, events) && i < |states|
    ensures Inv(states[i])
  {
    if i == 0 {
      EmptyOk();
    } else {
      RunOk(states, events, i - 1);
      StepOk(states[i - 1], events[i - 1]);
    }
  }

  // ------------------------------------------- handlers run to completion

  predicate Can(s: Ice, events: seq<Event>)
    decreases |events|
  {
    events == [] || (Enabled(s, events[0]) && Can(Step(s, events[0]), events[1..]))
  }

  function Do(s: Ice, events: seq<Event>): Ice
    requires Can(s, events)
    decreases |events|
  {
    if events == [] then s else Do(Step(s, events[0]), events[1..])
  }

  // Flushes that are over are forgotten.
  function Settled(s: Ice): Ice {
    s.(flushes := [])
  }

  function Hands(n: nat): seq<Event> {
    seq(n, _ => HandNext(0))
  }

  // What a whole handler does to the candidates of one user: a connection is opened,
  // a remote description applied and the buffer flushed, a candidate received, or the
  // connection closed with its buffer.
  datatype Handler = Open | Describe | Get(c: Candidate) | Close

  // A closed connection is forgotten with its buffer; without one, nothing is.
  function Handle(s: Ice, h: Handler): Ice {
    match h
    case Open => s.(created := true)
    case Describe => s.(created := true, remote := true, pending := [], handed := s.handed + s.pending)
    case Get(c) => Step(s, Receive(c))
    case Close => if s.created then Empty else s
  }

  // The steps of a handler that runs while no other does.
  function Steps(s: Ice, h: Handler): seq<Event> {
    var create := if s.created then [] else [Create];
    match h
    case Open => create
    case Describe => create + [SetRemote, BeginFlush] + Hands(|s.pending|)
    case Get(c) => [Receive(c)]
    case Close => []
  }

  lemma {:induction false} HandsAll(s: Ice)
    requires |s.flushes| == 1
    ensures Can(s, Hands(|s.flushes[0]|))
    ensures Do(s, Hands(|s.flushes[0]|)) == s.(flushes := [[]], handed := s.handed + s.flushes[0])
    decreases |s.flushes[0]|
  {
    var n := |s.flushes[0]|;
    if n == 0 {
      assert s.handed + [] == s.handed && s.flushes == [[]];
    } else {
      var t := Step(s, HandNext(0));
      assert Hands(n)[1..] == Hands(n - 1) && t.flushes[0] == s.flushes[0][1..];
      HandsAll(t);
      assert t.handed + t.flushes[0] == s.handed + s.flushes[0];
    }
  }

  // With no flush under way, that leaves the buffer empty and all of it handed over.
  lemma Described(s: Ice)
    requires s.flushes == [] && s.due == 0
    ensures Can(s, Steps(s, Describe)) && Do(s, Steps(s, Describe)).flushes == [[]]
    ensures Settled(Do(s, Steps(s, Describe))) ==
      s.(created := true, remote := true, pending := [], handed := s.handed + s.pending)
  {
    var made, hands := s.(created := true), Hands(|s.pending|);
    var flushing := made.(remote := true, pending := [], flushes := [s.pending]);
    HandsAll(flushing);
    var flush := [BeginFlush] + hands;
    assert flush[1..] == hands && Step(Step(made, SetRemote), BeginFlush) == flushing;
    assert Can(Step(made, SetRemote), flush) && Do(Step(made, SetRemote), flush) == Do(flushing, hands);
    var rest := [SetRemote, BeginFlush] + hands;
    assert rest[1..] == flush && Can(made, rest) && Do(made, rest) == Do(flushing, hands);
    if s.created {
      assert Steps(s, Describe) == rest;
    } else {
      assert Steps(s, Describe) == [Create] + rest && Steps(s, Describe)[1..] == rest;
    }
  }

  // Every handler but a close comes to a sequence of steps.
  lemma HandlersAreSteps(s: Ice, h: Handler)
    requires s.flushes == [] && s.due == 0 && !h.Close?
    ensures Can(s, Steps(s, h)) && Handle(s, h) == Settled(Do(s, Steps(s, h)))
    ensures Flat(Do(s, Steps(s, h)).flushes) == []
  {
    if h.Describe? {
      Described(s);
    } else if h.Get? {
      assert Steps(s, h)[1..] == [];
    }
  }

  // Such steps keep the invariant, and with it conservation and order.
  lemma {:induction false} DoOk(s: Ice, events: seq<Event>)
    requires Inv(s) && Can(s, events)
    ensures Inv(Do(s, events))
    decreases |events|
  {
    if events != [] {
      StepOk(s, events[0]);
      DoOk(Step(s, events[0]), events[1..]);
    }
  }

  lemma HandleOk(s: Ice, h: Handler)
    requires Inv(s) && s.flushes == [] && s.due == 0
    ensures Inv(Handle(s, h))
  {
    if h.Close? {
      EmptyOk();
    } else {
      HandlersAreSteps(s, h);
      DoOk(s, Steps(s, h));
      SettledOk(Do(s, Steps(s, h)));
    }
  }

  lemma SettledOk(s: Ice)
    requires Inv(s) && Flat(s.flushes) == []
    ensures Inv(Settled(s))
  {
    assert Flat([]) == [];
  }

  function HandleAll(hs: seq<Handler>): (s: Ice)
    ensures s.flushes == [] && s.due == 0
  {
    if hs == [] then Empty else Handle(HandleAll(hs[..|hs| - 1]), hs[|hs| - 1])
  }

  lemma {:induction false} HandleAllOk(hs: seq<Handler>)
    ensures Inv(HandleAll(hs))
  {
    if hs == [] {
      EmptyOk();
    } else {
      HandleAllOk(hs[..|hs| - 1]);
      HandleOk(HandleAll(hs[..|hs| - 1]), hs[|hs| - 1]);
    }
  }

  // Whatever handlers ran: without a remote description all candidates of the user
  // are buffered in the order they came, and with one all of them were handed over,
  // those that were buffered in order and the later ones in order.
  lemma NothingStaysBuffered(hs: seq<Handler>)
    ensures var s := HandleAll(hs);
      if s.remote then s.pending == [] && Merge(s.handed, s.early, s.late)
      else s.handed == [] && s.late == [] && s.pending == s.early
  {
    HandleAllOk(hs);
    var s := HandleAll(hs);
    assert Flat(s.flushes) == [] && s.early[..|s.early|] == s.early;
  }

  // The candidates received in a run, in order.
  function Received(events: seq<Event>): seq<Candidate> {
    if events == [] then []
    else
      var n := |events| - 1;
      Received(events[..n]) + if events[n].Receive? then [events[n].c] else []
  }

  lemma ReceivedNext(events: seq<Event>, i: nat)
    requires i < |events|
    ensures Received(events[..i + 1]) == Received(events[..i]) + if events[i].Receive? then [events[i].c] else []
  {
    assert events[..i + 1][..i] == events[..i];
  }

  lemma {:induction false} ReceivedAreKept(states: seq<Ice>, events: seq<Event>, i: nat)
    requires Run(states, events) && i < |states|
    ensures Received(events[..i]) == states[i].early + states[i].late
  {
    if i > 0 {
      ReceivedAreKept(states, events, i - 1);
      ReceivedNext(events, i - 1);
      LateOnlyAfterRemote(states, events, i - 1);
      KeptByStep(states[i - 1], events[i - 1]);
    }
  }

  lemma LateOnlyAfterRemote(states: seq<Ice>, events: seq<Event>, i: nat)
    requires Run(states, events) && i < |states|
    ensures !states[i].created || !states[i].remote ==> states[i].late == []
  {
    RunOk(states, events, i);
  }

  lemma KeptByStep(s: Ice, e: Event)
    requires (!s.created || !s.remote ==> s.late == []) && Enabled(s, e)
    ensures var t := Step(s, e);
      t.early + t.late == s.early + s.late + if e.Receive? then [e.c] else []
  {
    if e.Receive? {
      assert (s.early + [e.c]) + [] == (s.early + []) + [e.c];
      assert s.early + (s.late + [e.c]) == (s.early + s.late) + [e.c];
    }
  }

  lemma Counts(left: seq<Candidate>, early: seq<Candidate>, late: seq<Candidate>, handed: seq<Candidate>)
    requires |left| <= |early| && left == early[|early| - |left|..]
    requires Merge(handed, early[..|early| - |left|], late)
    ensures multiset(early + late) == multiset(left) + multiset(handed)
  {
    var k := |early| - |left|;
    MergeCounts(handed, early[..k], late);
    assert early == early[..k] + left;
  }

  ghost predicate Conserved(s: Ice, received: seq<Candidate>) {
    && multiset(received) == multiset(Flat(s.flushes) + s.pending) + multiset(s.handed)
    && (s.handed != [] ==> s.remote)
    && (s.remote && s.due == 0 && Flat(s.flushes) == [] ==> multiset(s.handed) == multiset(received))
  }

  // Each candidate received is in exactly one of the buffer, a flush, or the
  // connection; none reaches the connection before there is a remote
  // description; and nothing stays behind once flushes are done.
  lemma CandidatesConserved(states: seq<Ice>, events: seq<Event>, i: nat)
    requires Run(states, events) && i < |states|
    ensures Conserved(states[i], Received(events[..i]))
  {
    RunOk(states, events, i);
    ReceivedAreKept(states, events, i);
    var s := states[i];
    Counts(Flat(s.flushes) + s.pending, s.early, s.late, s.handed);
  }

  // Buffered candidates keep their arrival order on the way to the connection,
  // and so do those that arrive after the remote description: what was handed
  // over is a merge of a prefix of the former with all of the latter.
  lemma BufferedKeepOrder(states: seq<Ice>, events: seq<Event>, i: nat)
    requires Run(states, events) && i < |states|
    ensures var s := states[i];
      && Received(events[..i]) == s.early + s.late
      && exists k :: 0 <= k <= |s.early| && Merge(s.handed, s.early[..k], s.late)
           && Flat(s.flushes) + s.pending == s.early[k..]
  {
    RunOk(states, events, i);
    ReceivedAreKept(states, events, i);
  }
}
