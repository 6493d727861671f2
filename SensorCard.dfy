/** The "updated N ago" label of a sensor card, with the clock as a parameter. */
module SensorCard {
  import opened Common

  datatype TimeUnit = Seconds | Minutes | Hours

  function UnitSize(u: TimeUnit): nat {
    match u
    case Seconds => 1
    case Minutes => 60
    case Hours => 3600
  }

  /**
    A label: a count of whole units, or the label an unparsable timestamp produces (the elapsed
    time is then NaN, which fails both comparisons and prints as "NaN").
  */
  datatype Label = Ago(count: int, unit: TimeUnit) | NaNHoursAgo

  /** Whole seconds from `thenMs` to `nowMs`, floored, and never below zero. */
  function ElapsedSeconds(nowMs: int, thenMs: int): (d: nat)
    ensures thenMs <= nowMs ==> d * 1000 <= nowMs - thenMs < (d + 1) * 1000
    ensures nowMs < thenMs ==> d == 0
  {
    var diff := (nowMs - thenMs) / 1000;
    if diff < 0 then 0 else diff
  }

  /** The unit and count for an elapsed time in seconds. */
  function LabelFor(d: nat): (l: Label)
    ensures l.Ago?
    ensures l.unit == Seconds <==> d < 60
    ensures l.unit == Minutes <==> 60 <= d < 3600
    ensures l.unit == Hours <==> 3600 <= d
    ensures l.unit == Seconds ==> 0 <= l.count <= 59
    ensures l.unit == Minutes ==> 1 <= l.count <= 59
    ensures l.unit == Hours ==> l.count >= 1
    ensures l.count * UnitSize(l.unit) <= d < (l.count + 1) * UnitSize(l.unit)
  {
    if d < 60 then Ago(d, Seconds)
    else if d < 3600 then Ago(d / 60, Minutes)
    else Ago(d / 3600, Hours)
  }

  /**
    `formatUpdatedAgo`: no label for a missing or empty timestamp. `thenMs` is what parsing the
    timestamp yields, and `None` when it is not a date.
  */
  function FormatUpdatedAgo(timestamp: Option<string>, thenMs: Option<int>, nowMs: int): (r: Option<Label>)
    ensures r.None? <==> timestamp.None? || timestamp.value == ""
    ensures r.Some? && thenMs.None? ==> r.value == NaNHoursAgo
    ensures r.Some? && thenMs.Some? ==> r.value == LabelFor(ElapsedSeconds(nowMs, thenMs.value))
  {
    if timestamp.None? || timestamp.value == "" then None
    else if thenMs.None? then Some(NaNHoursAgo)
    else Some(LabelFor(ElapsedSeconds(nowMs, thenMs.value)))
  }

  /** A timestamp in the future reads "0s ago". */
  lemma FutureReadsZeroSeconds(timestamp: string, thenMs: int, nowMs: int)
    requires timestamp != "" && nowMs < thenMs
    ensures FormatUpdatedAgo(Some(timestamp), Some(thenMs), nowMs) == Some(Ago(0, Seconds))
  {
  }

  // ---------------------------------------------------------------------------
  // Rendering a label as text, and reading it back
  // ---------------------------------------------------------------------------

  predicate IsDigit(c: char) {
    '0' <= c <= '9'
  }

  function DigitChar(d: nat): (c: char)
    requires d < 10
    ensures IsDigit(c)
  {
    (d + '0' as int) as char
  }

  function DigitValue(c: char): nat
    requires IsDigit(c)
  {
    c as int - '0' as int
  }

  /** The decimal text of `n` that a template literal prints. */
  function NatToString(n: nat): (s: string)
    ensures |s| > 0
    ensures forall i :: 0 <= i < |s| ==> IsDigit(s[i])
    decreases n
  {
    if n < 10 then [DigitChar(n)] else NatToString(n / 10) + [DigitChar(n % 10)]
  }

  function ParseDigits(s: string): nat
    requires forall i :: 0 <= i < |s| ==> IsDigit(s[i])
  {
    if s == [] then 0 else ParseDigits(s[..|s| - 1]) * 10 + DigitValue(s[|s| - 1])
  }

  /** Reading the decimal text of `n` gives `n` back. */
  lemma {:induction false} ParseNatToString(n: nat)
    ensures ParseDigits(NatToString(n)) == n
    decreases n
  {
    if n >= 10 {
      var s := NatToString(n);
      assert s[..|s| - 1] == NatToString(n / 10);
      ParseNatToString(n / 10);
    }
  }

  function UnitChar(u: TimeUnit): char {
    match u
    case Seconds => 's'
    case Minutes => 'm'
    case Hours => 'h'
  }

  /** The label text: "Ns ago", "Mm ago", "Hh ago", or "NaNh ago". */
  function LabelText(l: Label): string
    requires l.Ago? ==> l.count >= 0
  {
    match l
    case Ago(n, u) => NatToString(n) + [UnitChar(u)] + " ago"
    case NaNHoursAgo => "NaNh ago"
  }

  /** Reads a label text back into the label it renders. */
  function ParseLabel(s: string): Option<Label> {
    if s == "NaNh ago" then Some(NaNHoursAgo)
    else if |s| < 6 || s[|s| - 4..] != " ago" then None
    else
      var digits := s[..|s| - 5];
      var u := s[|s| - 5];
      if !(forall i :: 0 <= i < |digits| ==> IsDigit(digits[i])) then None
      else if u == 's' then Some(Ago(ParseDigits(digits), Seconds))
      else if u == 'm' then Some(Ago(ParseDigits(digits), Minutes))
      else if u == 'h' then Some(Ago(ParseDigits(digits), Hours))
      else None
  }

  /** Different labels render differently: the text gives the label back. */
  lemma LabelTextRoundTrip(l: Label)
    requires l.Ago? ==> l.count >= 0
    ensures ParseLabel(LabelText(l)) == Some(l)
  {
    if l.Ago? {
      var digits := NatToString(l.count);
      var s := LabelText(l);
      assert s[..|s| - 5] == digits;
      assert s[|s| - 5] == UnitChar(l.unit);
      assert s[|s| - 4..] == " ago";
      assert s != "NaNh ago" by {
        assert IsDigit(s[0]);
      }
      ParseNatToString(l.count);
    }
  }
}
