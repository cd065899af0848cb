/** The countdown of src/CountdownTimer.jsx: the remaining-time breakdown computed from the
    party's target instant and the clock, the zero-padded boxes that show it, and the component
    that recomputes it once a second.

    Date parsing and the clock are outside the model: the target instant arrives already
    converted to milliseconds since the epoch, `None` standing for a string that does not parse
    (a NaN time), and every clock reading arrives as a parameter. */
module Countdown {

  datatype Option<T> = None | Some(value: T)

  /** The record getTimeRemaining returns. */
  datatype Remaining = Remaining(days: nat, hours: nat, minutes: nat, seconds: nat, done: bool)

  const MsPerSecond: int := 1000
  const SecondsPerMinute: int := 60
  const SecondsPerHour: int := 3600
  const SecondsPerDay: int := 86400

  /** What an unparseable or past target yields. */
  const Elapsed := Remaining(0, 0, 0, 0, true)

  /** `Math.floor(a / b)` for a positive divisor. */
  function FloorDiv(a: int, b: int): (q: int)
    requires b > 0
    ensures q * b <= a < q * b + b
    ensures a >= 0 ==> q >= 0
  {
    a / b
  }

  /** JavaScript's `%`: the remainder of the division truncated toward zero, which takes the
      sign of the dividend. */
  function JsRem(a: int, b: int): (r: int)
    requires b > 0
    ensures a >= 0 ==> 0 <= r < b
    ensures a < 0 ==> -b < r <= 0
    ensures (a - r) % b == 0
  {
    if a >= 0 then
      DivModUnique(a - a % b, b, a / b, 0);
      a % b
    else
      DivModUnique(a + (-a) % b, b, -((-a) / b), 0);
      -((-a) % b)
  }

  /** getTimeRemaining: the time left until `targetMs` at clock reading `nowMs`. */
  function GetTimeRemaining(targetMs: Option<int>, nowMs: int): (r: Remaining)
    ensures r.done <==> targetMs.None? || targetMs.value <= nowMs
    ensures r.done ==> r == Elapsed
    ensures r.hours < 24 && r.minutes < 60 && r.seconds < 60
  {
    if targetMs.None? || targetMs.value - nowMs <= 0 then Elapsed
    else
      var totalSeconds := FloorDiv(targetMs.value - nowMs, MsPerSecond);
      var hours := FloorDiv(JsRem(totalSeconds, SecondsPerDay), SecondsPerHour);
      var minutes := FloorDiv(JsRem(totalSeconds, SecondsPerHour), SecondsPerMinute);
      BoundByDivisor(JsRem(totalSeconds, SecondsPerDay), SecondsPerHour, 24);
      BoundByDivisor(JsRem(totalSeconds, SecondsPerHour), SecondsPerMinute, 60);
      Remaining(FloorDiv(totalSeconds, SecondsPerDay), hours, minutes,
                JsRem(totalSeconds, SecondsPerMinute), false)
  }

  /** Multiplying by a positive number keeps the order. */
  lemma MulMonotone(x: int, y: int, b: int)
    requires x <= y && b > 0
    ensures x * b <= y * b
  {
    assert y * b - x * b == (y - x) * b;
  }

  /** A quotient by `b` of something below `b * n` is below `n`. */
  lemma BoundByDivisor(a: int, b: int, n: int)
    requires 0 <= a < b * n && b > 0
    ensures FloorDiv(a, b) < n
  {
    var q := FloorDiv(a, b);
    if n <= q {
      MulMonotone(n, q, b);
    }
  }

  /** Division with remainder has one answer: a quotient and a remainder in range are the
      ones `/` and `%` give. */
  lemma DivModUnique(a: int, b: int, q: int, r: int)
    requires b > 0 && 0 <= r < b && a == q * b + r
    ensures q == a / b && r == a % b
  {
    var q0, r0 := a / b, a % b;
    assert a == q0 * b + r0;
    if q0 + 1 <= q {
      MulMonotone(q0 + 1, q, b);
    } else if q + 1 <= q0 {
      MulMonotone(q + 1, q0, b);
    }
  }

  /** The whole seconds left when the target is `diff` milliseconds away. */
  function TotalSeconds(diff: int): int {
    diff / MsPerSecond
  }

  /** For a target in the future the four fields rebuild the whole seconds remaining. */
  lemma Reconstruction(targetMs: int, nowMs: int)
    requires targetMs > nowMs
    ensures var r := GetTimeRemaining(Some(targetMs), nowMs);
      r.days * SecondsPerDay + r.hours * SecondsPerHour + r.minutes * SecondsPerMinute + r.seconds
        == TotalSeconds(targetMs - nowMs)
  {
    var t := (targetMs - nowMs) / MsPerSecond;
    assert t >= 0;
    var r := GetTimeRemaining(Some(targetMs), nowMs);
    // t = days * 86400 + t % 86400, and t % 86400 = hours * 3600 + t % 3600
    var inDay := t % SecondsPerDay;
    DivModUnique(t, SecondsPerHour, (t / SecondsPerDay) * 24 + inDay / SecondsPerHour, inDay % SecondsPerHour);
    // t % 3600 = minutes * 60 + t % 60
    var inHour := t % SecondsPerHour;
    DivModUnique(t, SecondsPerMinute, (t / SecondsPerHour) * 60 + inHour / SecondsPerMinute, inHour % SecondsPerMinute);
    assert r.days == t / SecondsPerDay && r.hours == inDay / SecondsPerHour;
    assert r.minutes == inHour / SecondsPerMinute && r.seconds == t % SecondsPerMinute;
  }

  /** The breakdown is the only one in range that rebuilds the whole seconds remaining. */
  lemma DecompositionIsUnique(targetMs: int, nowMs: int, d: nat, h: nat, m: nat, s: nat)
    requires targetMs > nowMs && h < 24 && m < 60 && s < 60
    requires d * SecondsPerDay + h * SecondsPerHour + m * SecondsPerMinute + s
      == TotalSeconds(targetMs - nowMs)
    ensures GetTimeRemaining(Some(targetMs), nowMs) == Remaining(d, h, m, s, false)
  {
    var t := TotalSeconds(targetMs - nowMs);
    DivModUnique(t, SecondsPerDay, d, h * SecondsPerHour + m * SecondsPerMinute + s);
    DivModUnique(t % SecondsPerDay, SecondsPerHour, h, m * SecondsPerMinute + s);
    DivModUnique(t, SecondsPerHour, d * 24 + h, m * SecondsPerMinute + s);
    DivModUnique(t % SecondsPerHour, SecondsPerMinute, m, s);
    DivModUnique(t, SecondsPerMinute, d * 1440 + h * 60 + m, s);
  }

  /** A target less than a second away is not yet reached, though every field reads zero. */
  lemma UnderASecond(targetMs: int, nowMs: int)
    requires 0 < targetMs - nowMs < MsPerSecond
    ensures GetTimeRemaining(Some(targetMs), nowMs) == Remaining(0, 0, 0, 0, false)
  {
    DecompositionIsUnique(targetMs, nowMs, 0, 0, 0, 0);
  }

  /** The result depends on the clock and the target only through their difference. */
  lemma OnlyTheDifferenceMatters(targetMs: int, nowMs: int, shift: int)
    ensures GetTimeRemaining(Some(targetMs + shift), nowMs + shift)
         == GetTimeRemaining(Some(targetMs), nowMs)
  {
    assert (targetMs + shift) - (nowMs + shift) == targetMs - nowMs;
  }

  /** The party at 2026-04-05T14:00:00-06:00 seen one hour before, at 13:00 the same day. */
  lemma OneHourBefore()
    ensures GetTimeRemaining(Some(1775419200000), 1775415600000) == Remaining(0, 1, 0, 0, false)
  {
    DecompositionIsUnique(1775419200000, 1775415600000, 0, 1, 0, 0);
  }

  /** The same party seen at midnight after it: over, all fields zero. */
  lemma MidnightAfter()
    ensures GetTimeRemaining(Some(1775419200000), 1775455200000) == Elapsed
  {
  }

  // ---------------------------------------------------------------------------------------------
  // TimeBox: `String(value).padStart(2, "0")`

  predicate IsDigit(c: char) {
    '0' <= c <= '9'
  }

  function DigitChar(d: nat): (c: char)
    requires d < 10
    ensures IsDigit(c)
  {
    "0123456789"[d]
  }

  function DigitValue(c: char): nat {
    if IsDigit(c) then (c as int - '0' as int) else 0
  }

  /** `String(n)` for a non-negative whole number: its decimal digits, without leading zeros. */
  function Decimal(n: nat): (s: string)
    ensures |s| >= 1 && forall i :: 0 <= i < |s| ==> IsDigit(s[i])
    ensures |s| == 1 <==> n < 10
    ensures |s| > 1 ==> s[0] != '0'
  {
    if n < 10 then [DigitChar(n)] else Decimal(n / 10) + [DigitChar(n % 10)]
  }

  /** The number a string of decimal digits denotes. */
  function ValueOf(s: string): nat {
    if s == [] then 0 else ValueOf(s[..|s| - 1]) * 10 + DigitValue(s[|s| - 1])
  }

  /** `s.padStart(width, fill)` for a one-character pad string. */
  function PadStart(s: string, width: nat, fill: char): (r: string)
    ensures |r| == if |s| >= width then |s| else width
    ensures r[|r| - |s|..] == s
    ensures forall i :: 0 <= i < |r| - |s| ==> r[i] == fill
  {
    if |s| >= width then s else seq(width - |s|, _ => fill) + s
  }

  /** The text of one countdown box. */
  function TimeBoxText(value: nat): string {
    PadStart(Decimal(value), 2, '0')
  }

  /** A one-digit value gets a leading zero; a wider one is shown as it is. */
  lemma TimeBoxPadding(value: nat)
    ensures value < 10 ==> TimeBoxText(value) == ['0', DigitChar(value)]
    ensures value >= 10 ==> TimeBoxText(value) == Decimal(value)
    ensures |TimeBoxText(value)| >= 2
  {
    if value < 10 {
      assert Decimal(value) == [DigitChar(value)];
    }
  }

  /** Reading the digits of `Decimal(n)` gives `n` back. */
  lemma {:induction false} DecimalRoundTrip(n: nat)
    ensures ValueOf(Decimal(n)) == n
  {
    if n >= 10 {
      var s := Decimal(n);
      assert s[..|s| - 1] == Decimal(n / 10);
      DecimalRoundTrip(n / 10);
      assert DigitValue(DigitChar(n % 10)) == n % 10;
    } else {
      assert DigitValue(DigitChar(n)) == n;
    }
  }

  /** Reading a box gives its value back: the padding zero changes nothing. */
  lemma TimeBoxRoundTrip(value: nat)
    ensures ValueOf(TimeBoxText(value)) == value
  {
    TimeBoxPadding(value);
    DecimalRoundTrip(value);
    if value < 10 {
      var s := TimeBoxText(value);
      assert s[..1] == ['0'];
      assert ValueOf(['0']) == 0 by { assert ['0'][..0] == []; }
      assert ValueOf(Decimal(value)) == DigitValue(DigitChar(value)) by {
        assert Decimal(value)[..0] == [];
      }
    }
  }

  // ---------------------------------------------------------------------------------------------
  // What CountdownTimer renders

  /** The celebration line once the party has started, four boxes before that. */
  datatype Display = PartyStarted | Boxes(days: string, hours: string, minutes: string, seconds: string)

  function Render(r: Remaining): Display {
    if r.done then PartyStarted
    else Boxes(TimeBoxText(r.days), TimeBoxText(r.hours), TimeBoxText(r.minutes), TimeBoxText(r.seconds))
  }

  /** The boxes show exactly the remaining fields, each at least two digits wide; the
      celebration line appears exactly when the countdown is done. */
  lemma RenderShowsRemaining(r: Remaining)
    ensures Render(r).PartyStarted? <==> r.done
    ensures Render(r).Boxes? ==>
      && ValueOf(Render(r).days) == r.days && ValueOf(Render(r).hours) == r.hours
      && ValueOf(Render(r).minutes) == r.minutes && ValueOf(Render(r).seconds) == r.seconds
      && |Render(r).days| >= 2 && |Render(r).hours| >= 2
      && |Render(r).minutes| >= 2 && |Render(r).seconds| >= 2
  {
    if !r.done {
      TimeBoxRoundTrip(r.days);
      TimeBoxRoundTrip(r.hours);
      TimeBoxRoundTrip(r.minutes);
      TimeBoxRoundTrip(r.seconds);
      TimeBoxPadding(r.days);
      TimeBoxPadding(r.hours);
      TimeBoxPadding(r.minutes);
      TimeBoxPadding(r.seconds);
    }
  }

  // ---------------------------------------------------------------------------------------------
  // The CountdownTimer component

  /** The mounted component: its `targetISO` prop (parsed), its `remaining` state and whether its
      one-second interval is registered. */
  class CountdownTimer {
    var targetMs: Option<int>
    var remaining: Remaining
    var ticking: bool

    /** Mounting: the state initialiser computes the value at render time; the effect then
        ticks at once and registers the interval. */
    constructor (target: Option<int>, renderNowMs: int, effectNowMs: int)
      ensures targetMs == target && ticking
      ensures remaining == GetTimeRemaining(target, effectNowMs)
    {
      targetMs := target;
      remaining := GetTimeRemaining(target, renderNowMs);
      ticking := false;
      new;
      Tick(effectNowMs);
      ticking := true;
    }

    /** One call of `tick`: the state is overwritten by a fresh computation, never derived from
        the previous value. */
    method Tick(nowMs: int)
      modifies this
      ensures targetMs == old(targetMs) && ticking == old(ticking)
      ensures remaining == GetTimeRemaining(targetMs, nowMs)
    {
      remaining := GetTimeRemaining(targetMs, nowMs);
    }

    /** The interval firing; after unmounting it no longer does, and nothing changes. */
    method IntervalFires(nowMs: int)
      modifies this
      ensures targetMs == old(targetMs) && ticking == old(ticking)
      ensures remaining == if old(ticking) then GetTimeRemaining(targetMs, nowMs) else old(remaining)
    {
      if ticking {
        Tick(nowMs);
      }
    }

    /** A new `targetISO`: the effect's cleanup clears the interval, then it ticks and registers
        a new one. */
    method TargetChanged(target: Option<int>, nowMs: int)
      requires ticking
      modifies this
      ensures targetMs == target && ticking
      ensures remaining == GetTimeRemaining(target, nowMs)
    {
      ticking := false;
      targetMs := target;
      Tick(nowMs);
      ticking := true;
    }

    /** Unmounting: the cleanup clears the interval. */
    method Unmount()
      modifies this
      ensures !ticking && targetMs == old(targetMs) && remaining == old(remaining)
    {
      ticking := false;
    }

    function Shown(): Display
      reads this
    {
      Render(remaining)
    }
  }
}
