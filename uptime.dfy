/** The uptime text of the health endpoint: a number of seconds written as
    days, hours, minutes and seconds, each shown only when positive. */
module Uptime {
  import opened Wrappers
  import opened PyStr

  const SecondsPerDay := 86400
  const SecondsPerHour := 3600
  const SecondsPerMinute := 60

  datatype Components = Components(days: int, hours: int, minutes: int, secs: int)

  /** The four values `format_uptime` computes with `//` and `%=`. Python's
      floor division and modulo by a positive divisor agree with Dafny's. */
  function Decompose(seconds: int): (c: Components)
    ensures SecondsPerDay * c.days + SecondsPerHour * c.hours + SecondsPerMinute * c.minutes + c.secs == seconds
    ensures 0 <= c.hours < 24 && 0 <= c.minutes < 60 && 0 <= c.secs < 60
    ensures seconds >= 0 <==> c.days >= 0
  {
    var days := seconds / SecondsPerDay;
    var afterDays := seconds % SecondsPerDay;
    var hours := afterDays / SecondsPerHour;
    var afterHours := afterDays % SecondsPerHour;
    Components(days, hours, afterHours / SecondsPerMinute, afterHours % SecondsPerMinute)
  }

  /** `[f"{value}{unit}"]` when the value is positive, else nothing. */
  function Part(value: int, unit: char): seq<string> {
    if value > 0 then [NatToString(value) + [unit]] else []
  }

  /** The `parts` list of `format_uptime(seconds)`. */
  function Parts(seconds: int): seq<string> {
    var c := Decompose(seconds);
    Part(c.days, 'd') + Part(c.hours, 'h') + Part(c.minutes, 'm') + Part(c.secs, 's')
  }

  /** `format_uptime(seconds)` */
  method FormatUptime(seconds: int) returns (text: string)
    ensures text == Join(Parts(seconds), ' ')
  {
    var rest := seconds;
    var days := rest / 86400;
    rest := rest % 86400;
    var hours := rest / 3600;
    rest := rest % 3600;
    var minutes := rest / 60;
    rest := rest % 60;

    var parts: seq<string> := [];
    if days > 0 {
      parts := parts + [NatToString(days) + "d"];
    }
    if hours > 0 {
      parts := parts + [NatToString(hours) + "h"];
    }
    if minutes > 0 {
      parts := parts + [NatToString(minutes) + "m"];
    }
    if rest > 0 {
      parts := parts + [NatToString(rest) + "s"];
    }
    assert Decompose(seconds) == Components(days, hours, minutes, rest);
    assert parts == Parts(seconds);
    text := Join(parts, ' ');
  }

  predicate IsUnit(ch: char) { ch == 'd' || ch == 'h' || ch == 'm' || ch == 's' }

  /** Each part is a decimal number followed by one unit letter. */
  predicate WellFormedPart(p: string) {
    && |p| >= 2
    && IsUnit(p[|p| - 1])
    && (forall k :: 0 <= k < |p| - 1 ==> IsDigit(p[k]))
  }

  /** The unit letter when the value is shown, else nothing. */
  function Shown(value: int, unit: char): string {
    if value > 0 then [unit] else []
  }

  /** The unit letters of the parts, in order. */
  function Units(parts: seq<string>): string {
    if parts == [] then ""
    else (if parts[0] == "" then "" else [parts[0][|parts[0]| - 1]]) + Units(parts[1..])
  }

  lemma {:induction false} UnitsAppend(a: seq<string>, b: seq<string>)
    ensures Units(a + b) == Units(a) + Units(b)
  {
    if a != [] {
      assert (a + b)[0] == a[0] && (a + b)[1..] == a[1..] + b;
      UnitsAppend(a[1..], b);
    } else {
      assert a + b == b;
    }
  }

  lemma PartWellFormed(value: int, unit: char)
    requires IsUnit(unit)
    ensures forall i :: 0 <= i < |Part(value, unit)| ==> WellFormedPart(Part(value, unit)[i])
    ensures Units(Part(value, unit)) == Shown(value, unit)
  {
    if value > 0 {
      var p := NatToString(value) + [unit];
      assert forall k :: 0 <= k < |p| - 1 ==> p[k] == NatToString(value)[k];
    }
  }

  /** Every part is a decimal number followed by its unit letter. */
  lemma PartsWellFormed(seconds: int)
    ensures forall i :: 0 <= i < |Parts(seconds)| ==> WellFormedPart(Parts(seconds)[i])
  {
    var c := Decompose(seconds);
    PartWellFormed(c.days, 'd');
    PartWellFormed(c.hours, 'h');
    PartWellFormed(c.minutes, 'm');
    PartWellFormed(c.secs, 's');
    ConcatWellFormed(Part(c.days, 'd'), Part(c.hours, 'h'));
    ConcatWellFormed(Part(c.days, 'd') + Part(c.hours, 'h'), Part(c.minutes, 'm'));
    ConcatWellFormed(Part(c.days, 'd') + Part(c.hours, 'h') + Part(c.minutes, 'm'), Part(c.secs, 's'));
  }

  lemma ConcatWellFormed(a: seq<string>, b: seq<string>)
    requires forall i :: 0 <= i < |a| ==> WellFormedPart(a[i])
    requires forall i :: 0 <= i < |b| ==> WellFormedPart(b[i])
    ensures forall i :: 0 <= i < |a + b| ==> WellFormedPart((a + b)[i])
  {
  }

  /** The units run d, h, m, s, each present exactly when its value is positive. */
  lemma PartsUnits(seconds: int)
    ensures var c := Decompose(seconds);
      Units(Parts(seconds)) == Shown(c.days, 'd') + Shown(c.hours, 'h') + Shown(c.minutes, 'm') + Shown(c.secs, 's')
  {
    PartsWellFormed(seconds);
    var c := Decompose(seconds);
    UnitsOfFour(c.days, c.hours, c.minutes, c.secs);
  }

  lemma UnitsOfFour(days: int, hours: int, minutes: int, secs: int)
    ensures Units(Part(days, 'd') + Part(hours, 'h') + Part(minutes, 'm') + Part(secs, 's'))
         == Shown(days, 'd') + Shown(hours, 'h') + Shown(minutes, 'm') + Shown(secs, 's')
  {
    var d, h, m, s := Part(days, 'd'), Part(hours, 'h'), Part(minutes, 'm'), Part(secs, 's');
    PartWellFormed(days, 'd');
    PartWellFormed(hours, 'h');
    PartWellFormed(minutes, 'm');
    PartWellFormed(secs, 's');
    UnitsAppend(d, h);
    UnitsAppend(d + h, m);
    UnitsAppend(d + h + m, s);
  }

  /** The text is empty exactly when no component is positive: for zero, and
      also for negative whole days, whose remainder is zero. */
  lemma EmptyExactly(seconds: int)
    ensures Join(Parts(seconds), ' ') == "" <==> seconds <= 0 && seconds % SecondsPerDay == 0
  {
    var c := Decompose(seconds);
    if Parts(seconds) != [] {
      assert |Parts(seconds)[0]| >= 1;
      var ps := Parts(seconds);
      assert |ps| == 1 ==> Join(ps, ' ') == ps[0];
      assert |ps| > 1 ==> Join(ps, ' ') == ps[0] + [' '] + Join(ps[1..], ' ');
    }
  }

  lemma FormatsZeroAsEmpty()
    ensures Join(Parts(0), ' ') == ""
  {
    EmptyExactly(0);
  }

  // ---------------------------------------------------------------------------
  // Reading the text back

  function UnitSeconds(unit: char): int {
    match unit
    case 'd' => SecondsPerDay
    case 'h' => SecondsPerHour
    case 'm' => SecondsPerMinute
    case _ => 1
  }

  /** The seconds one part stands for. */
  function ParsePart(p: string): Option<int> {
    if WellFormedPart(p) then Some(ParseNat(p[..|p| - 1]) * UnitSeconds(p[|p| - 1])) else None
  }

  /** The total of the parts, or None when one of them is malformed. */
  function SumParts(parts: seq<string>): Option<int> {
    if parts == [] then Some(0)
    else
      var first := ParsePart(parts[0]);
      var rest := SumParts(parts[1..]);
      if first.None? || rest.None? then None else Some(first.value + rest.value)
  }

  /** Reads an uptime text back into seconds. */
  function ParseUptime(text: string): Option<int> {
    if text == "" then Some(0) else SumParts(Split(text, ' '))
  }

  lemma {:induction false} SumPartsAppend(a: seq<string>, b: seq<string>)
    requires SumParts(a).Some? && SumParts(b).Some?
    ensures SumParts(a + b) == Some(SumParts(a).value + SumParts(b).value)
  {
    if a != [] {
      assert (a + b)[0] == a[0] && (a + b)[1..] == a[1..] + b;
      SumPartsAppend(a[1..], b);
    } else {
      assert a + b == b;
    }
  }

  lemma SumPart(value: int, unit: char)
    requires IsUnit(unit) && value >= 0
    ensures SumParts(Part(value, unit)) == Some(value * UnitSeconds(unit))
  {
    if value > 0 {
      var p := NatToString(value) + [unit];
      PartWellFormed(value, unit);
      assert p[..|p| - 1] == NatToString(value);
      ParseNatToString(value);
      assert ParsePart(p) == Some(value * UnitSeconds(unit));
      assert Part(value, unit)[1..] == [];
    }
  }

  /** The parts of a non-negative count add up to the count. */
  lemma SumOfParts(seconds: int)
    requires seconds >= 0
    ensures SumParts(Parts(seconds)) == Some(seconds)
  {
    var c := Decompose(seconds);
    SumOfFour(c.days, c.hours, c.minutes, c.secs);
  }

  lemma SumOfFour(days: int, hours: int, minutes: int, secs: int)
    requires days >= 0 && hours >= 0 && minutes >= 0 && secs >= 0
    ensures SumParts(Part(days, 'd') + Part(hours, 'h') + Part(minutes, 'm') + Part(secs, 's'))
         == Some(SecondsPerDay * days + SecondsPerHour * hours + SecondsPerMinute * minutes + secs)
  {
    var d, h, m, s := Part(days, 'd'), Part(hours, 'h'), Part(minutes, 'm'), Part(secs, 's');
    SumPart(days, 'd');
    SumPart(hours, 'h');
    SumPart(minutes, 'm');
    SumPart(secs, 's');
    SumPartsAppend(d, h);
    SumPartsAppend(d + h, m);
    SumPartsAppend(d + h + m, s);
  }

  /** No part holds a space. */
  lemma PartsHaveNoSpace(seconds: int)
    ensures forall i :: 0 <= i < |Parts(seconds)| ==> ' ' !in Parts(seconds)[i]
  {
    PartsWellFormed(seconds);
    var ps := Parts(seconds);
    forall i | 0 <= i < |ps|
      ensures ' ' !in ps[i]
    {
      var p := ps[i];
      assert WellFormedPart(p);
      forall k | 0 <= k < |p| ensures p[k] != ' ' {
        if k < |p| - 1 {
          assert IsDigit(p[k]);
        }
      }
    }
  }

  /** For a non-negative count, reading the text back gives the count: the
      components account for every second and no part is lost in the join. */
  lemma ParseFormatted(seconds: int)
    requires seconds >= 0
    ensures ParseUptime(Join(Parts(seconds), ' ')) == Some(seconds)
  {
    var ps := Parts(seconds);
    SumOfParts(seconds);
    EmptyExactly(seconds);
    if ps != [] {
      PartsHaveNoSpace(seconds);
      SplitJoin(ps, ' ');
    }
  }
}
