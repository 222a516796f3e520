/** The interaction recorder's pure parts: click points, the detail text of a
    click event, and the scroll-depth formula. */
module Recorder {
  import opened EventLog
  import opened Decimal

  /** A click, as percentages of the stimulus image's size, and its 1-based number. */
  datatype ClickPoint = ClickPoint(x: real, y: real, id: nat)

  /** The detail of the INTERACTION event sent for click number `n`. */
  function ClickDetail(n: nat): (detail: string)
    ensures |detail| > 7 && detail[..7] == "Click #"
    ensures AllDigits(detail[7..]) && DigitsValue(detail[7..]) == n
  {
    ValueOfNatToString(n);
    assert ("Click #" + NatToString(n))[7..] == NatToString(n);
    "Click #" + NatToString(n)
  }

  /** Different clicks get different detail texts. */
  lemma ClickDetailsDistinct(m: nat, n: nat)
    requires m != n
    ensures ClickDetail(m) != ClickDetail(n)
  {
    NatToStringInjective(m, n);
    assert ClickDetail(m)[7..] == NatToString(m);
    assert ClickDetail(n)[7..] == NatToString(n);
  }

  /** The debounce looks only at type and time: a click less than DebounceMs
      after a logged INTERACTION is dropped from the log although its detail
      differs from the last entry's. */
  lemma QuickClickDropped(log: seq<Event>, n: nat, now: int, start: int)
    requires |log| > 0
    requires log[|log| - 1].kind == Interaction && log[|log| - 1].detail == ClickDetail(n)
    requires now - log[|log| - 1].timestamp < DebounceMs
    ensures ClickDetail(n + 1) != log[|log| - 1].detail
    ensures Logged(log, Pending(Interaction, ClickDetail(n + 1)), now, start) == log
  {
    ClickDetailsDistinct(n + 1, n);
  }

  /** A scroll depth: a whole percentage, or the not-a-number / infinite value
      the source's division yields when the scroll height is 0. */
  datatype Depth = Percent(value: int) | NonFinite

  /** The scroll depth: 100 * (scrollTop + clientHeight) / scrollHeight,
      rounded to the nearest integer with halves rounded up. The second
      ensures says the exact ratio lies in [value - 1/2, value + 1/2). */
  function ScrollDepth(scrollTop: nat, clientHeight: nat, scrollHeight: nat): (d: Depth)
    ensures d.NonFinite? <==> scrollHeight == 0
    ensures d.Percent? ==> 0 <= d.value
    ensures d.Percent? ==>
      var scaled := 200 * (scrollTop + clientHeight);
      2 * scrollHeight * d.value - scrollHeight <= scaled < 2 * scrollHeight * d.value + scrollHeight
    ensures d.Percent? && scrollTop + clientHeight <= scrollHeight ==> d.value <= 100
  {
    if scrollHeight == 0 then NonFinite
    else
      var q := (200 * (scrollTop + clientHeight) + scrollHeight) / (2 * scrollHeight);
      RoundHalfUp(100 * (scrollTop + clientHeight), scrollHeight);
      Percent(q)
  }

  /** (2a + h) / (2h) is a / h rounded half up, and at most 100 when a <= 100h. */
  lemma RoundHalfUp(a: nat, h: nat)
    requires h > 0
    ensures var q := (2 * a + h) / (2 * h);
      && 0 <= q
      && 2 * h * q - h <= 2 * a < 2 * h * q + h
      && (a <= 100 * h ==> q <= 100)
  {
    var n, d := 2 * a + h, 2 * h;
    var q, m := n / d, n % d;
    assert n == d * q + m && 0 <= m < d;
    assert 2 * h * q == d * q;
    if a <= 100 * h {
      assert h * (2 * q - 201) <= 0;
      NonPositiveFactor(h, 2 * q - 201);
    }
  }

  lemma NonPositiveFactor(h: int, x: int)
    requires h > 0 && h * x <= 0
    ensures x <= 0
  {
  }
}
