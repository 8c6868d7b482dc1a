// Perfect negotiation between two browsers: one polite and one impolite
// endpoint joined by two FIFO relays. An endpoint's own transitions are the
// specification that the classes in WebRTC.dfy are proved against.

module Negotiation {
  import opened Wrappers

  // An offer, with how many of its sender's local changes it carries.
  datatype Offer = Offer(id: nat, ver: nat)

  // An answer names the offer it answers.
  datatype Signal = OfferMsg(offer: Offer) | AnswerMsg(to: nat)

  // The signalling states an endpoint is seen in between handlers.
  datatype Phase = Stable | HaveLocalOffer(offer: Offer)

  // An offer and the answer that completed it, by the offer it names.
  datatype Exchange = Exchange(offer: nat, answered: nat)

  // `making` is makingOffer, with the changes present when it was raised;
  // `synced` is what the last answered own offer carried, `seen` what the last
  // accepted remote offer carried.
  datatype Endpoint = Endpoint(
    phase: Phase,
    making: Option<nat>,
    ignoring: bool,
    changes: nat,
    synced: nat,
    seen: nat,
    last: Option<Exchange>)

  const Fresh: Endpoint := Endpoint(Stable, None, false, 0, 0, 0, None)

  // The browser fires negotiationneeded only when stable, with something to
  // negotiate, and not again while the handler runs.
  predicate NeedsNegotiation(e: Endpoint) {
    e.phase == Stable && e.making == None && e.synced < e.changes
  }

  function BeginOffer(e: Endpoint): Endpoint {
    e.(making := Some(e.changes))
  }

  // setLocalDescription resolved: the offer carries at least the changes made
  // before the handler began.
  function FinishOffer(e: Endpoint, o: Offer): Endpoint {
    e.(phase := HaveLocalOffer(o), making := None)
  }

  predicate Carries(e: Endpoint, ver: nat) {
    e.making.Some? && e.making.value <= ver <= e.changes
  }

  // A remote offer. The impolite endpoint ignores a colliding one. Otherwise a
  // setLocalDescription under way completes first (the connection chains its
  // operations), sending `own`, and an offer of its own is rolled back.
  function OnOffer(polite: bool, e: Endpoint, o: Offer, own: Offer): (Endpoint, seq<Signal>) {
    if !polite && (e.making.Some? || e.phase != Stable) then (e.(ignoring := true), [])
    else
      var sent := if e.making.Some? then [OfferMsg(own)] else [];
      (e.(phase := Stable, making := None, ignoring := false, seen := o.ver, last := Some(Exchange(o.id, o.id))),
       sent + [AnswerMsg(o.id)])
  }

  // An answer is applied in have-local-offer and dropped as stale otherwise.
  function OnAnswer(e: Endpoint, to: nat): Endpoint {
    match e.phase
    case Stable => e
    case HaveLocalOffer(o) => e.(phase := Stable, synced := o.ver, last := Some(Exchange(o.id, to)))
  }

  // An offer is ignored exactly if it collides with one of the impolite endpoint's
  // own; an ignored one leaves the endpoint as it is, and any other is answered and
  // leaves it stable, with nothing of its own outstanding.
  lemma OnOfferMeans(polite: bool, e: Endpoint, o: Offer, own: Offer)
    ensures var (f, out) := OnOffer(polite, e, o, own); var collides := e.making.Some? || e.phase.HaveLocalOffer?;
      && (out == [] <==> !polite && collides)
      && f.ignoring == (!polite && collides) && f.changes == e.changes && f.synced == e.synced
      && (out == [] ==> f.phase == e.phase && f.making == e.making && f.seen == e.seen && f.last == e.last)
      && (out != [] ==> out[|out| - 1] == AnswerMsg(o.id) && f.phase == Stable && f.making == None && f.seen == o.ver)
      && (out != [] ==> f.last == Some(Exchange(o.id, o.id)))
      && (out != [] && e.making.Some? ==> out == [OfferMsg(own), AnswerMsg(o.id)])
      && (out != [] && e.making.None? ==> out == [AnswerMsg(o.id)])
  {
  }

  // ------------------------------------------------------------------ system

  // `up` runs from the polite endpoint to the impolite one, `down` back.
  // `budget` is how many local changes are still to come.
  datatype State = State(
    polite: Endpoint,
    impolite: Endpoint,
    up: seq<Signal>,
    down: seq<Signal>,
    next: nat,
    budget: nat)

  datatype Event =
    | Change(polite: bool)
    | Begin(polite: bool)
    | Finish(polite: bool, ver: nat)
    | DeliverUp
    | DeliverDown(ver: nat)

  function End(s: State, polite: bool): Endpoint {
    if polite then s.polite else s.impolite
  }

  function SetEnd(s: State, polite: bool, e: Endpoint): State {
    if polite then s.(polite := e) else s.(impolite := e)
  }

  predicate Enabled(s: State, e: Event) {
    match e
    case Change(_) => s.budget > 0
    case Begin(p) => NeedsNegotiation(End(s, p))
    case Finish(p, ver) => Carries(End(s, p), ver)
    case DeliverUp => s.up != []
    case DeliverDown(ver) => s.down != [] && (s.polite.making.Some? ==> Carries(s.polite, ver))
  }

  function Step(s: State, e: Event): State
    requires Enabled(s, e)
  {
    match e
    case Change(p) => SetEnd(s, p, End(s, p).(changes := End(s, p).changes + 1)).(budget := s.budget - 1)
    case Begin(p) => SetEnd(s, p, BeginOffer(End(s, p)))
    case Finish(p, ver) =>
      var o := Offer(s.next, ver);
      var t := SetEnd(s, p, FinishOffer(End(s, p), o)).(next := s.next + 1);
      if p then t.(up := s.up + [OfferMsg(o)]) else t.(down := s.down + [OfferMsg(o)])
    case DeliverUp =>
      (match s.up[0]
       case OfferMsg(o) =>
         var r := OnOffer(false, s.impolite, o, o);
         s.(impolite := r.0, up := s.up[1..], down := s.down + r.1)
       case AnswerMsg(to) => s.(impolite := OnAnswer(s.impolite, to), up := s.up[1..]))
    case DeliverDown(ver) =>
      (match s.down[0]
       case OfferMsg(o) =>
         var r := OnOffer(true, s.polite, o, Offer(s.next, ver));
         s.(polite := r.0, down := s.down[1..], up := s.up + r.1, next := s.next + 1)
       case AnswerMsg(to) => s.(polite := OnAnswer(s.polite, to), down := s.down[1..]))
  }

  // --------------------------------------------------------------- invariant

  ghost predicate EndOk(e: Endpoint) {
    && e.synced <= e.changes
    && (e.making.Some? ==> e.phase == Stable && e.synced < e.making.value <= e.changes)
    && (e.phase.HaveLocalOffer? ==> e.synced < e.phase.offer.ver <= e.changes)
  }

  // Both ends hold the same completed exchange and know what it settled.
  ghost predicate Settled(s: State) {
    && s.polite.last == s.impolite.last
    && s.polite.synced == s.impolite.seen && s.impolite.synced == s.polite.seen
  }

  // The exchange of the polite end's offer o is complete at the impolite end
  // only: its answer is on the way.
  ghost predicate AnsweredByImpolite(s: State, o: Offer) {
    && s.impolite.last == Some(Exchange(o.id, o.id))
    && s.impolite.seen == o.ver && s.impolite.synced == s.polite.seen
  }

  ghost predicate AnsweredByPolite(s: State, o: Offer) {
    && s.polite.last == Some(Exchange(o.id, o.id))
    && s.polite.seen == o.ver && s.polite.synced == s.impolite.seen
  }

  // The impolite end has no offer out.
  ghost predicate ImpoliteQuiet(s: State) {
    match s.polite.phase
    case Stable => s.up == [] && s.down == [] && Settled(s)
    case HaveLocalOffer(o) =>
      || (s.down == [] && s.up == [OfferMsg(o)] && Settled(s))
      || (s.down == [] && s.up == [] && s.impolite.making.Some? && Settled(s))
      || (s.down == [AnswerMsg(o.id)] && s.up == [] && AnsweredByImpolite(s, o))
  }

  // The impolite end's offer is still on its way.
  ghost predicate OfferDown(s: State, mine: Offer) {
    match s.polite.phase
    case Stable => s.down == [OfferMsg(mine)] && s.up == [] && Settled(s)
    case HaveLocalOffer(o) =>
      || (s.down == [OfferMsg(mine)] && (s.up == [] || s.up == [OfferMsg(o)]) && Settled(s))
      || (s.down == [AnswerMsg(o.id), OfferMsg(mine)] && s.up == [] && AnsweredByImpolite(s, o))
  }

  // What the polite end sent around its answer: perhaps a rolled-back offer
  // before it, perhaps a new offer after it.
  function Tail(e: Endpoint): seq<Signal> {
    if e.phase.HaveLocalOffer? then [OfferMsg(e.phase.offer)] else []
  }

  ghost predicate AnswerUp(s: State, mine: Offer) {
    && s.down == [] && AnsweredByPolite(s, mine)
    && (|| s.up == [AnswerMsg(mine.id)] + Tail(s.polite)
        || (s.up != [] && s.up[0].OfferMsg? && s.up == [s.up[0], AnswerMsg(mine.id)] + Tail(s.polite)))
  }

  ghost predicate Inv(s: State) {
    && EndOk(s.polite) && EndOk(s.impolite)
    && match s.impolite.phase
       case Stable => ImpoliteQuiet(s)
       case HaveLocalOffer(mine) => OfferDown(s, mine) || AnswerUp(s, mine)
  }

  lemma FinishOk(s: State, p: bool, ver: nat)
    requires Inv(s) && Enabled(s, Finish(p, ver))
    ensures Inv(Step(s, Finish(p, ver)))
  {
    var t := Step(s, Finish(p, ver));
    if p {
      assert Tail(s.polite) == [] && t.up == s.up + Tail(t.polite);
      assert s.up == [] ==> t.up == Tail(t.polite);
      if s.impolite.phase.HaveLocalOffer? && AnswerUp(s, s.impolite.phase.offer) {
        var a := AnswerMsg(s.impolite.phase.offer.id);
        assert t.up == [a] + Tail(t.polite) || t.up == [s.up[0], a] + Tail(t.polite);
      }
    }
  }

  lemma DeliverUpOk(s: State)
    requires Inv(s) && Enabled(s, DeliverUp)
    ensures Inv(Step(s, DeliverUp))
  {
    var t := Step(s, DeliverUp);
    if s.impolite.phase.HaveLocalOffer? && AnswerUp(s, s.impolite.phase.offer) {
      assert t.up == if s.up[0].AnswerMsg? then Tail(s.polite) else [AnswerMsg(s.impolite.phase.offer.id)] + Tail(s.polite);
    }
  }

  lemma OfferDownOk(s: State, ver: nat)
    requires Inv(s) && Enabled(s, DeliverDown(ver)) && s.down[0].OfferMsg?
    ensures Inv(Step(s, DeliverDown(ver)))
  {
    var t := Step(s, DeliverDown(ver));
    assert s.impolite.phase.HaveLocalOffer? && OfferDown(s, s.impolite.phase.offer);
    assert t.down == [] && Tail(t.polite) == [];
    var sent := if s.polite.making.Some? then [OfferMsg(Offer(s.next, ver))] else [];
    assert t.up == s.up + sent + [AnswerMsg(s.down[0].offer.id)];
    assert AnswerUp(t, s.impolite.phase.offer);
  }

  lemma AnswerDownOk(s: State, ver: nat)
    requires Inv(s) && Enabled(s, DeliverDown(ver)) && s.down[0].AnswerMsg?
    ensures Inv(Step(s, DeliverDown(ver)))
  {
    var t := Step(s, DeliverDown(ver));
    assert s.polite.phase.HaveLocalOffer? && AnsweredByImpolite(s, s.polite.phase.offer);
    assert s.up == [] && Settled(t);
  }

  lemma DeliverDownOk(s: State, ver: nat)
    requires Inv(s) && Enabled(s, DeliverDown(ver))
    ensures Inv(Step(s, DeliverDown(ver)))
  {
    if s.down[0].OfferMsg? { OfferDownOk(s, ver); } else { AnswerDownOk(s, ver); }
  }

  // Every step keeps the invariant.
  lemma StepOk(s: State, e: Event)
    requires Inv(s) && Enabled(s, e)
    ensures Inv(Step(s, e))
  {
    match e
    case Change(_) =>
    case Begin(_) =>
    case Finish(p, ver) => FinishOk(s, p, ver);
    case DeliverUp => DeliverUpOk(s);
    case DeliverDown(ver) => DeliverDownOk(s, ver);
  }

  // -------------------------------------------------------------------- runs

  ghost predicate Start(s: State) {
    s.polite == Fresh && s.impolite == Fresh && s.up == [] && s.down == []
  }

  ghost predicate Run(states: seq<State>, events: seq<Event>) {
    && |states| == |events| + 1 && Start(states[0])
    && (forall i :: 0 <= i < |events| ==> Enabled(states[i], events[i]) && states[i + 1] == Step(states[i], events[i]))
  }

  lemma {:induction false} RunOk(states: seq<State>, events: seq<Event>, i: nat)
    requires Run(states, events) && i < |states|
    ensures Inv(states[i])
  {
    if i > 0 {
      RunOk(states, events, i - 1);
      StepOk(states[i - 1], events[i - 1]);
    }
  }

  // Whatever offers crossed, were ignored or rolled back: once both relays are
  // empty and neither end is making an offer, both ends are stable and hold the
  // same completed exchange.
  lemma NoStuckGlare(states: seq<State>, events: seq<Event>, i: nat)
    requires Run(states, events) && i < |states|
    requires var s := states[i];
      s.up == [] && s.down == [] && s.polite.making == None && s.impolite.making == None
    ensures var s := states[i];
      s.polite.phase == Stable && s.impolite.phase == Stable && s.polite.last == s.impolite.last
  {
    RunOk(states, events, i);
  }

  // Every answer in flight answers the offer its receiver has outstanding, so
  // the stale-answer guard drops none; and the relays never hold more than three
  // and two signals.
  lemma AnswersMatch(states: seq<State>, events: seq<Event>, i: nat, to: nat)
    requires Run(states, events) && i < |states|
    ensures var s := states[i];
      && |s.up| <= 3 && |s.down| <= 2
      && (AnswerMsg(to) in s.up ==> s.impolite.phase.HaveLocalOffer? && s.impolite.phase.offer.id == to)
      && (AnswerMsg(to) in s.down ==> s.polite.phase.HaveLocalOffer? && s.polite.phase.offer.id == to)
  {
    RunOk(states, events, i);
  }

  // -------------------------------------------------------------- termination

  function Weight(s: Signal, offer: nat): nat {
    if s.OfferMsg? then offer else 1
  }

  function Load(q: seq<Signal>, offer: nat): nat {
    if q == [] then 0 else Weight(q[0], offer) + Load(q[1..], offer)
  }

  lemma {:induction false} LoadAppend(q: seq<Signal>, r: seq<Signal>, offer: nat)
    ensures Load(q + r, offer) == Load(q, offer) + Load(r, offer)
  {
    if q == [] {
      assert q + r == r;
    } else {
      assert (q + r)[1..] == q[1..] + r;
      LoadAppend(q[1..], r, offer);
    }
  }

  // How far an endpoint is from having an offer out.
  function Distance(e: Endpoint): nat {
    if e.phase.HaveLocalOffer? then 0 else if e.making.Some? then 1 else 2
  }

  // The signalling work in hand: it falls on every step that completes no
  // exchange for its offerer.
  function Pending(s: State): nat {
    Load(s.up, 2) + Load(s.down, 6) +
    (match Distance(s.polite) case 0 => 0 case 1 => 3 case _ => 4) +
    (match Distance(s.impolite) case 0 => 0 case 1 => 7 case _ => 8)
  }

  ghost function Work(s: State): int {
    26 * s.budget + 25 * Unsettled(s) + Pending(s)
  }

  lemma ShortLoad(q: seq<Signal>, offer: nat)
    requires |q| <= 3
    ensures Load(q, offer) ==
      (if |q| > 0 then Weight(q[0], offer) else 0) + (if |q| > 1 then Weight(q[1], offer) else 0) +
      (if |q| > 2 then Weight(q[2], offer) else 0)
  {
    if |q| > 1 {
      assert q[1..][0] == q[1];
      assert |q| > 2 ==> q[1..][1..][0] == q[2];
    }
  }

  lemma PendingBounded(s: State)
    requires Inv(s)
    ensures Pending(s) <= 24
  {
    assert |s.up| <= 3 && |s.down| <= 2;
    ShortLoad(s.up, 2);
    ShortLoad(s.down, 6);
  }

  function Unsettled(s: State): int {
    s.polite.changes - s.polite.synced + s.impolite.changes - s.impolite.synced
  }

  lemma DeliverUpWorks(s: State)
    requires Inv(s) && Enabled(s, DeliverUp)
    ensures var t := Step(s, DeliverUp);
      Unsettled(t) < Unsettled(s) || (Unsettled(t) == Unsettled(s) && Pending(t) < Pending(s))
  {
    if s.up[0].OfferMsg? {
      LoadAppend(s.down, OnOffer(false, s.impolite, s.up[0].offer, s.up[0].offer).1, 6);
    } else {
      AnswerInPlace(s, true);
    }
  }

  lemma DeliverDownWorks(s: State, ver: nat)
    requires Inv(s) && Enabled(s, DeliverDown(ver))
    ensures var t := Step(s, DeliverDown(ver));
      Unsettled(t) < Unsettled(s) || (Unsettled(t) == Unsettled(s) && Pending(t) < Pending(s))
  {
    if s.down[0].OfferMsg? {
      var own := OfferMsg(Offer(s.next, ver));
      var a := AnswerMsg(s.down[0].offer.id);
      assert [own] + [a] == [own, a] && [own, a][1..] == [a];
      assert [] + [a] == [a];
      LoadAppend(s.up, [own, a], 2);
      LoadAppend(s.up, [a], 2);
    } else {
      AnswerInPlace(s, false);
    }
  }

  // A delivery that completes its receiver's exchange settles at least one
  // change; any other step reduces the work in hand.
  lemma DeliveryWorks(s: State, e: Event)
    requires Inv(s) && Enabled(s, e) && (e.DeliverUp? || e.DeliverDown?)
    ensures var t := Step(s, e);
      Unsettled(t) < Unsettled(s) || (Unsettled(t) == Unsettled(s) && Pending(t) < Pending(s))
  {
    if e.DeliverUp? { DeliverUpWorks(s); } else { DeliverDownWorks(s, e.ver); }
  }

  lemma AnswerInPlace(s: State, up: bool)
    requires Inv(s)
    ensures up && s.up != [] && s.up[0].AnswerMsg? ==> s.impolite.phase.HaveLocalOffer?
    ensures !up && s.down != [] && s.down[0].AnswerMsg? ==> s.polite.phase.HaveLocalOffer?
  {
  }

  lemma LocalWorks(s: State, e: Event)
    requires Inv(s) && Enabled(s, e) && (e.Begin? || e.Finish?)
    ensures Pending(Step(s, e)) < Pending(s) && Unsettled(Step(s, e)) == Unsettled(s)
  {
    if e.Finish? {
      var o := OfferMsg(Offer(s.next, e.ver));
      assert [o][1..] == [];
      LoadAppend(s.up, [o], 2);
      LoadAppend(s.down, [o], 6);
    }
  }

  // Lexicographic descent: changes to come, changes unsettled, work in hand.
  lemma StepDescends(s: State, e: Event)
    requires Inv(s) && Enabled(s, e)
    ensures var t := Step(s, e);
      || (t.budget == s.budget - 1 && Unsettled(t) == Unsettled(s) + 1 && Pending(t) == Pending(s))
      || (t.budget == s.budget && Unsettled(t) < Unsettled(s))
      || (t.budget == s.budget && Unsettled(t) == Unsettled(s) && Pending(t) < Pending(s))
  {
    if e.Begin? || e.Finish? {
      LocalWorks(s, e);
    } else if e.DeliverUp? || e.DeliverDown? {
      DeliveryWorks(s, e);
    }
  }

  lemma StepWorks(s: State, e: Event)
    requires Inv(s) && Enabled(s, e)
    ensures 0 <= Work(Step(s, e)) < Work(s)
  {
    StepOk(s, e);
    PendingBounded(Step(s, e));
    StepDescends(s, e);
  }

  lemma RunWorks(states: seq<State>, events: seq<Event>, i: nat)
    requires Run(states, events) && i < |events|
    ensures 0 <= Work(states[i + 1]) < Work(states[i])
  {
    RunOk(states, events, i);
    StepWorks(states[i], events[i]);
  }

  lemma {:induction false} WorkFalls(states: seq<State>, events: seq<Event>, n: nat)
    requires Run(states, events) && n <= |events|
    ensures n + Work(states[n]) <= Work(states[0])
    ensures n > 0 ==> Work(states[n]) >= 0
  {
    if n > 0 {
      WorkFalls(states, events, n - 1);
      RunWorks(states, events, n - 1);
    }
  }

  // A run makes at most 26 steps for each local change, and 12 more.
  lemma RunsAreShort(states: seq<State>, events: seq<Event>, n: nat)
    requires Run(states, events) && n <= |events|
    ensures n + Work(states[n]) <= Work(states[0]) == 26 * states[0].budget + 12
    ensures n <= 26 * states[0].budget + 12
  {
    WorkFalls(states, events, n);
    assert Work(states[0]) == 26 * states[0].budget + 12;
  }

  ghost predicate Done(s: State) {
    && s.up == [] && s.down == [] && s.budget == 0
    && s.polite.phase == Stable && s.impolite.phase == Stable && s.polite.making == None && s.impolite.making == None
    && s.polite.last == s.impolite.last
    && s.polite.changes == s.polite.synced == s.impolite.seen
    && s.impolite.changes == s.impolite.synced == s.polite.seen
  }

  // A run that cannot go on has spent its changes, both ends are stable, and
  // every change of either end was carried by an offer the other end answered.
  lemma RunsEndDone(states: seq<State>, events: seq<Event>)
    requires Run(states, events)
    ensures Done(states[|events|]) <==> forall e :: !Enabled(states[|events|], e)
  {
    var s := states[|events|];
    RunOk(states, events, |events|);
    if forall e :: !Enabled(s, e) {
      assert !Enabled(s, Change(true));
      assert !Enabled(s, Begin(true)) && !Enabled(s, Begin(false));
      assert !Enabled(s, Finish(true, s.polite.changes)) && !Enabled(s, Finish(false, s.impolite.changes));
      assert !Enabled(s, DeliverUp) && !Enabled(s, DeliverDown(s.polite.changes));
    }
  }
}
