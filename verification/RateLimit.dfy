// The fixed-window limit on text messages of one connection. Times are
// nanoseconds since Go's zero time, at which the first window stands open.

module RateLimit {
  const SECOND: nat := 1_000_000_000
  const MAX_PER_SEC: nat := 10
  // time.Duration saturates when two times are too far apart.
  const MAX_DURATION: int := 0x7fff_ffff_ffff_ffff

  datatype Window = Window(start: nat, count: nat)

  const Zero: Window := Window(0, 0)

  function Sub(a: nat, b: nat): int {
    if a - b > MAX_DURATION then MAX_DURATION
    else if a - b < -MAX_DURATION - 1 then -MAX_DURATION - 1
    else a - b
  }

  function Next(w: Window, now: nat): Window {
    if Sub(now, w.start) >= SECOND then Window(now, 1) else w.(count := w.count + 1)
  }

  predicate Allows(w: Window) {
    w.count <= MAX_PER_SEC
  }

  class Limiter {
    var msgWin: nat
    var msgCount: nat

    constructor ()
      ensures Value() == Zero
    {
      msgWin, msgCount := 0, 0;
    }

    ghost function Value(): Window
      reads this
    {
      Window(msgWin, msgCount)
    }

    method AllowMessage(now: nat) returns (ok: bool)
      modifies this
      ensures Value() == Next(old(Value()), now) && ok == Allows(Value())
      ensures ok <==> msgCount <= 10
      ensures now - old(msgWin) >= 1_000_000_000 ==> msgWin == now && msgCount == 1
      ensures now - old(msgWin) < 1_000_000_000 ==> msgWin == old(msgWin) && msgCount == old(msgCount) + 1
    {
      if Sub(now, msgWin) >= SECOND {
        msgWin := now;
        msgCount := 0;
      }
      msgCount := msgCount + 1;
      ok := msgCount <= MAX_PER_SEC;
    }
  }

  // The window after some attempts, at the times given.
  function After(w: Window, ts: seq<nat>): Window {
    if ts == [] then w else Next(After(w, ts[..|ts| - 1]), ts[|ts| - 1])
  }

  predicate Nondecreasing(ts: seq<nat>) {
    forall i, j :: 0 <= i < j < |ts| ==> ts[i] <= ts[j]
  }

  // How many of the attempts from window w on are accepted in [a, b).
  function Accepted(w: Window, ts: seq<nat>, a: nat, b: nat): nat
    decreases |ts|
  {
    if ts == [] then 0
    else
      var v := Next(w, ts[0]);
      (if a <= ts[0] < b && Allows(v) then 1 else 0) + Accepted(v, ts[1..], a, b)
  }

  function Max(x: int, y: int): int { if x >= y then x else y }

  // How many windows can open in [from, b), one second apart.
  function Openings(from: int, b: int): nat {
    if from >= b then 0 else (b - from + SECOND - 1) / SECOND
  }

  lemma OpeningsPeel(from: int, t: int, b: int)
    requires from <= t < b
    ensures Openings(t + SECOND, b) + 1 <= Openings(from, b)
  {
    var n := b - t + SECOND - 1;
    assert n / SECOND == (n - SECOND) / SECOND + 1;
    assert n <= b - from + SECOND - 1;
  }

  // What window w can still accept of attempts from time a on.
  function Allowance(w: Window, a: int, b: int): int {
    Max(0, MAX_PER_SEC - w.count) + MAX_PER_SEC * Openings(Max(a, w.start + SECOND), b)
  }

  lemma {:induction false} TailBounded(w: Window, ts: seq<nat>, a: nat, b: nat)
    requires Nondecreasing(ts) && (ts != [] ==> a <= ts[0])
    ensures Accepted(w, ts, a, b) <= Allowance(w, a, b)
    decreases |ts|
  {
    if ts != [] {
      var t := ts[0];
      var v := Next(w, t);
      TailBounded(v, ts[1..], a, b);
      if t >= b {
        NoneFrom(v, ts[1..], a, b);
      } else if Sub(t, w.start) >= SECOND {
        OpeningsPeel(Max(a, w.start + SECOND), t, b);
      }
    }
  }

  lemma {:induction false} NoneFrom(w: Window, ts: seq<nat>, a: nat, b: nat)
    requires forall i :: 0 <= i < |ts| ==> b <= ts[i]
    ensures Accepted(w, ts, a, b) == 0
    decreases |ts|
  {
    if ts != [] {
      NoneFrom(Next(w, ts[0]), ts[1..], a, b);
    }
  }

  // Any half-open interval of L time units, however placed against the windows,
  // holds at most ten accepted messages for each second begun, and ten more.
  lemma {:induction false} AtMostTenPerSecondPlusTen(w: Window, ts: seq<nat>, a: nat, length: nat)
    requires Nondecreasing(ts)
    ensures Accepted(w, ts, a, a + length) <= 10 * ((length + 999_999_999) / 1_000_000_000 + 1)
    decreases |ts|
  {
    if ts != [] && ts[0] < a {
      AtMostTenPerSecondPlusTen(Next(w, ts[0]), ts[1..], a, length);
    } else {
      TailBounded(w, ts, a, a + length);
      OpeningsMonotone(a, Max(a, w.start + SECOND), a + length);
    }
  }

  lemma OpeningsMonotone(from: int, later: int, b: int)
    requires from <= later
    ensures Openings(later, b) <= Openings(from, b)
    ensures from <= b ==> Openings(from, b) == (b - from + SECOND - 1) / SECOND
  {
  }

  // ------------------------------------------------------- the exact bound

  // The seconds begun in `length` time units.
  function Seconds(length: int): int {
    (length + SECOND - 1) / SECOND
  }

  // The most that an interval can hold: ten for each second begun if a window opens
  // on its first instant; otherwise the nine that may be left of a window which a
  // message opened, and ten for each second begun after that instant.
  function Most(length: nat): int {
    if length == 0 then 0
    else Max(MAX_PER_SEC * Seconds(length), MAX_PER_SEC - 1 + MAX_PER_SEC * Seconds(length - 1))
  }

  // The window is one that a message opened, or the next message opens one. Of a
  // new limiter that is true from one second after the zero time on.
  predicate Opened(w: Window, ts: seq<nat>) {
    w.count >= 1 || (ts != [] ==> Sub(ts[0], w.start) >= SECOND)
  }

  // The first attempt lies in the interval.
  lemma MostFromHere(w: Window, ts: seq<nat>, a: nat, b: nat)
    requires Nondecreasing(ts) && Opened(w, ts) && ts != [] && a <= ts[0] < b
    ensures Accepted(w, ts, a, b) <= Most(b - a)
  {
    var t := ts[0];
    var v := Next(w, t);
    if Sub(t, w.start) >= SECOND {
      TailBounded(v, ts[1..], a, b);
      OpeningsPeel(a, t, b);
      assert Openings(a, b) == Seconds(b - a);
    } else {
      TailBounded(w, ts, a, b);
      OpeningsMonotone(a + 1, Max(a, w.start + SECOND), b);
      assert Openings(a + 1, b) == Seconds(b - a - 1);
    }
  }

  // No interval of any length, wherever it is placed, holds more than that.
  lemma {:induction false} AtMost(w: Window, ts: seq<nat>, a: nat, length: nat)
    requires Nondecreasing(ts) && Opened(w, ts)
    ensures Accepted(w, ts, a, a + length) <= Most(length)
    decreases |ts|
  {
    if ts != [] {
      if ts[0] < a {
        AtMost(Next(w, ts[0]), ts[1..], a, length);
      } else if ts[0] < a + length {
        MostFromHere(w, ts, a, a + length);
      } else {
        NoneFrom(w, ts, a, a + length);
      }
    }
  }

  function Burst(t: nat, n: nat): seq<nat> {
    seq(n, _ => t)
  }

  // n attempts at one instant, inside an open window with room for them.
  lemma {:induction false} BurstAccepted(w: Window, t: nat, n: nat, rest: seq<nat>, a: nat, b: nat)
    requires 0 <= t - w.start < SECOND && w.count + n <= MAX_PER_SEC && a <= t < b
    ensures Accepted(w, Burst(t, n) + rest, a, b) == n + Accepted(w.(count := w.count + n), rest, a, b)
    decreases n
  {
    if n == 0 {
      assert Burst(t, n) + rest == rest;
    } else {
      assert (Burst(t, n) + rest)[1..] == Burst(t, n - 1) + rest;
      BurstAccepted(w.(count := w.count + 1), t, n - 1, rest, a, b);
    }
  }

  lemma OpeningBurst(w: Window, t: nat, rest: seq<nat>, a: nat, b: nat)
    requires SECOND <= t - w.start && a <= t < b
    ensures Accepted(w, Burst(t, MAX_PER_SEC) + rest, a, b) ==
      MAX_PER_SEC + Accepted(Window(t, MAX_PER_SEC), rest, a, b)
  {
    assert (Burst(t, MAX_PER_SEC) + rest)[1..] == Burst(t, MAX_PER_SEC - 1) + rest;
    BurstAccepted(Window(t, 1), t, MAX_PER_SEC - 1, rest, a, b);
  }

  // Ten attempts on each of k whole seconds.
  function Bursts(t: nat, k: nat): (ts: seq<nat>)
    ensures Nondecreasing(ts) && forall i :: 0 <= i < |ts| ==> t <= ts[i]
    decreases k
  {
    if k == 0 then [] else Burst(t, MAX_PER_SEC) + Bursts(t + SECOND, k - 1)
  }

  lemma {:induction false} BurstsAccepted(w: Window, t: nat, k: nat, a: nat, b: nat)
    requires SECOND <= t - w.start && a <= t && t + k * SECOND < b + SECOND
    ensures Accepted(w, Bursts(t, k), a, b) == k * MAX_PER_SEC
    decreases k
  {
    if k > 0 {
      OpeningBurst(w, t, Bursts(t + SECOND, k - 1), a, b);
      BurstsAccepted(Window(t, MAX_PER_SEC), t + SECOND, k - 1, a, b);
    }
  }

  // Nine attempts just before the window of the attempt at t runs out, and ten on
  // every second after it.
  function Straddling(t: nat, k: nat): seq<nat> {
    [t] + (Burst(t + SECOND - 1, MAX_PER_SEC - 1) + Bursts(t + SECOND, k))
  }

  lemma StraddlingAccepted(t: nat, k: nat, length: nat)
    requires t >= SECOND && length > 0 && k * SECOND < length - 1 + SECOND
    ensures Nondecreasing(Straddling(t, k))
    ensures Accepted(Zero, Straddling(t, k), t + SECOND - 1, t + SECOND - 1 + length) == MAX_PER_SEC - 1 + MAX_PER_SEC * k
  {
    var a := t + SECOND - 1;
    var late := Burst(a, MAX_PER_SEC - 1) + Bursts(t + SECOND, k);
    assert Straddling(t, k)[1..] == late;
    BurstAccepted(Window(t, 1), a, MAX_PER_SEC - 1, Bursts(t + SECOND, k), a, a + length);
    BurstsAccepted(Window(t, MAX_PER_SEC), t + SECOND, k, a, a + length);
  }

  function Fullest(a: nat, length: nat): seq<nat>
    requires length > 0 && a >= 2 * SECOND
  {
    if Seconds(length) > Seconds(length - 1) then Bursts(a, Seconds(length))
    else Straddling(a + 1 - SECOND, Seconds(length - 1))
  }

  // For every length and every place that the clock can show, a new limiter accepts
  // just as many of some attempts: the bound is exact.
  lemma MostReached(a: nat, length: nat)
    requires length > 0 && a >= 2 * SECOND
    ensures Nondecreasing(Fullest(a, length)) && Opened(Zero, Fullest(a, length))
    ensures Accepted(Zero, Fullest(a, length), a, a + length) == Most(length)
  {
    SecondsStep(length);
    var k, less := Seconds(length), Seconds(length - 1);
    if k > less {
      BurstsAccepted(Zero, a, k, a, a + length);
      assert Fullest(a, length) == Bursts(a, k);
    } else {
      StraddlingAccepted(a + 1 - SECOND, less, length);
      assert Fullest(a, length) == Straddling(a + 1 - SECOND, less);
    }
  }

  lemma SecondsStep(length: nat)
    requires length > 0
    ensures Seconds(length - 1) <= Seconds(length) <= Seconds(length - 1) + 1
    ensures Seconds(length) * SECOND < length + SECOND && Seconds(length - 1) * SECOND < length - 1 + SECOND
    ensures Seconds(length) >= 1
  {
  }

  // For whole seconds that is ten for each, and nine more.
  lemma MostOfWholeSeconds(k: nat)
    requires k > 0
    ensures Most(k * 1_000_000_000) == 10 * k + 9
  {
    assert Seconds(k * SECOND) == k && Seconds(k * SECOND - 1) == k;
  }

  // ------------------------------------------------------- who is not refused

  // At most ten attempts in every half-open second.
  ghost predicate Moderate(ts: seq<nat>) {
    forall i, j :: 0 <= i && j == i + 10 && j < |ts| ==> ts[j] >= ts[i] + 1_000_000_000
  }

  // The attempts the window has counted are the last ones, all inside it.
  lemma {:induction false} ModerateCount(ts: seq<nat>, k: nat)
    requires Nondecreasing(ts) && Moderate(ts) && k <= |ts|
    ensures var w := After(Zero, ts[..k]);
      && w.count <= k && w.count <= MAX_PER_SEC && (k > 0 ==> w.start <= ts[k - 1])
      && (forall i :: k - w.count <= i < k ==> w.start <= ts[i] < w.start + SECOND)
    decreases k
  {
    if k > 0 {
      ModerateCount(ts, k - 1);
      assert ts[..k][..k - 1] == ts[..k - 1];
      var w := After(Zero, ts[..k - 1]);
      var t := ts[k - 1];
      assert k > 1 ==> ts[k - 2] <= t;
      if w.count == MAX_PER_SEC {
        assert ts[k - 1] >= ts[k - 1 - MAX_PER_SEC] + SECOND;
      }
    }
  }

  // A sender that keeps to ten attempts in every second is never refused.
  lemma ModerateNeverRefused(ts: seq<nat>, k: nat)
    requires Nondecreasing(ts) && Moderate(ts) && k <= |ts|
    ensures Allows(After(Zero, ts[..k]))
  {
    ModerateCount(ts, k);
  }
}
