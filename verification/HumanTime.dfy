/**
 Durations in review comments (rallyci/task.py: human_time), a mixed-radix printer, and
 the parser that inverts it.
 */
module HumanTime {
  import opened Sequences
  import opened Options
  import opened Decimal

  /** INTERVALS */
  function Interval(unit: nat): nat {
    if unit == 0 then 1 else if unit == 1 then 60 else if unit == 2 then 3600 else 86400
  }

  const NAMES: seq<seq<string>> := [["s", "s"], ["m", "m"], ["h", "h"], ["day", "days"]]

  /** An item of `result`: how many, of which unit. */
  datatype Part = Part(count: nat, unit: nat)

  predicate PartOk(p: Part) {
    p.count > 0 && p.unit < 4
  }

  predicate AllOk(parts: seq<Part>) {
    forall i :: 0 <= i < |parts| ==> PartOk(parts[i])
  }

  /** count * INTERVALS[unit] */
  function Value(p: Part): nat {
    if p.unit == 0 then p.count else if p.unit == 1 then p.count * 60
    else if p.unit == 2 then p.count * 3600 else p.count * 86400
  }

  function Name(p: Part): string
    requires PartOk(p)
  {
    NAMES[p.unit][1 % p.count]
  }

  function Word(p: Part): string
    requires PartOk(p)
  {
    ToDecimal(p.count) + Name(p)
  }

  /** ' '.join */
  function Join(words: seq<string>): string {
    if words == [] then "" else if |words| == 1 then words[0] else words[0] + " " + Join(words[1..])
  }

  /** int() of a float truncates toward zero. */
  function Truncate(x: real): int {
    if x >= 0.0 then x.Floor else -((-x).Floor)
  }

  /** The whole seconds of a duration; nothing that is less than a second, or negative, has any. */
  lemma TruncateIs(x: real)
    ensures x >= 0.0 ==> Truncate(x) >= 0 && Truncate(x) as real <= x < Truncate(x) as real + 1.0
    ensures x < 1.0 ==> Truncate(x) <= 0
  {
  }

  // ---------------------------------------------------------------- specification

  /** How much of `unit` there is in `n`: the mixed-radix digit. */
  function Count(n: nat, unit: nat): nat
    requires unit < 4
  {
    if unit == 0 then n % 60 else if unit == 1 then n / 60 % 60 else if unit == 2 then n / 3600 % 24 else n / 86400
  }

  /** The non-zero digits of the units below `top`, the largest unit first. */
  function Parts(n: nat, top: nat): (parts: seq<Part>)
    requires top <= 4
    ensures AllOk(parts)
  {
    if top == 0 then []
    else NonZero(Count(n, top - 1), top - 1) + Parts(n, top - 1)
  }

  function NonZero(count: nat, unit: nat): (parts: seq<Part>)
    requires unit < 4
    ensures AllOk(parts)
  {
    if count > 0 then [Part(count, unit)] else []
  }

  function Words(parts: seq<Part>): (words: seq<string>)
    requires AllOk(parts)
    ensures |words| == |parts| && forall i :: 0 <= i < |parts| ==> words[i] == Word(parts[i])
  {
    seq(|parts|, i requires 0 <= i < |parts| => Word(parts[i]))
  }

  function Print(n: int): string {
    if n < 0 then "" else Join(Words(Parts(n, 4)))
  }

  // ---------------------------------------------------------------- the loop

  /** What is left of `n` once the units from `top` on are taken out. */
  function Left(n: nat, top: nat): nat
    requires top <= 4
  {
    if top == 0 then 0
    else if top == 1 then n % 60
    else if top == 2 then n % 3600
    else if top == 3 then n % 86400
    else n
  }

  lemma Minutes(n: nat)
    ensures n % 3600 / 60 == n / 60 % 60 && n % 3600 % 60 == n % 60
  {
    var q, r := n / 3600, n % 3600;
    assert n == 60 * (60 * q + r / 60) + r % 60;
    assert n / 60 == 60 * q + r / 60;
  }

  lemma Hours(n: nat)
    ensures n % 86400 / 3600 == n / 3600 % 24 && n % 86400 % 3600 == n % 3600
  {
    var q, r := n / 86400, n % 86400;
    assert n == 3600 * (24 * q + r / 3600) + r % 3600;
    assert n / 3600 == 24 * q + r / 3600;
  }

  lemma LeftCount(n: nat, unit: nat)
    requires unit < 4
    ensures Left(n, unit + 1) / Interval(unit) == Count(n, unit)
    ensures Left(n, unit + 1) == Value(Part(Count(n, unit), unit)) + Left(n, unit)
  {
    Minutes(n);
    Hours(n);
  }

  /** The units from `top` on are in `result`, and `seconds` is what they leave. */
  predicate Taken(n: int, top: nat, seconds: int, result: seq<Part>)
    requires top <= 4
  {
    if n < 0 then seconds == n && result == [] else seconds == Left(n, top) && result + Parts(n, top) == Parts(n, 4)
  }

  lemma TakeUnit(n: int, unit: nat, seconds: int, result: seq<Part>)
    requires unit < 4 && Taken(n, unit + 1, seconds, result)
    ensures var a := seconds / Interval(unit);
            if a > 0 then Taken(n, unit, seconds - Value(Part(a, unit)), result + NonZero(a, unit))
            else Taken(n, unit, seconds, result)
  {
    if n >= 0 {
      LeftCount(n, unit);
      var parts := NonZero(Count(n, unit), unit);
      Regroup(result, parts, Parts(n, unit));
      if parts == [] {
        assert result + parts == result;
      }
    }
  }

  method HumanTime(x: real) returns (text: string)
    ensures text == Print(Truncate(x))
    ensures x >= 0.0 ==> exists n: nat :: Parse(text) == Some(n) && n as real <= x < n as real + 1.0
    ensures x < 1.0 ==> text == ""
  {
    var seconds := Truncate(x);
    ghost var n := seconds;
    var result: seq<Part> := [];
    var i := 4;
    while i > 0
      invariant 0 <= i <= 4
      invariant AllOk(result)
      invariant Taken(n, i, seconds, result)
    {
      i := i - 1;
      var a := seconds / Interval(i);
      TakeUnit(n, i, seconds, result);
      if a > 0 {
        result := result + [Part(a, i)];
        seconds := seconds - Value(Part(a, i));
      }
    }
    assert n >= 0 ==> result == result + Parts(n, 0);
    text := Join(Words(result));
    TruncateIs(x);
    PrintClamps(n);
    if n >= 0 {
      PrintRoundTrip(n);
    }
  }

  // ---------------------------------------------------------------- what is printed

  function Seconds(parts: seq<Part>): nat
    requires AllOk(parts)
  {
    if parts == [] then 0 else Value(parts[0]) + Seconds(parts[1..])
  }

  /** Positive counts, each below the next larger unit, of strictly decreasing units below `top`. */
  predicate Canonical(parts: seq<Part>, top: nat) {
    parts == [] ||
    (&& PartOk(parts[0]) && parts[0].unit < top
     && (parts[0].unit < 3 ==> Value(parts[0]) < Interval(parts[0].unit + 1))
     && Canonical(parts[1..], parts[0].unit))
  }

  lemma {:induction false} CanonicalOk(parts: seq<Part>, top: nat)
    requires Canonical(parts, top)
    ensures AllOk(parts)
  {
    if parts != [] {
      CanonicalOk(parts[1..], parts[0].unit);
      assert forall i :: 0 < i < |parts| ==> parts[i] == parts[1..][i - 1];
    }
  }

  lemma {:induction false} CanonicalWider(parts: seq<Part>, top: nat, wider: nat)
    requires Canonical(parts, top) && top <= wider
    ensures Canonical(parts, wider)
  {
  }

  lemma {:induction false} PartsCanonical(n: nat, top: nat)
    requires top <= 4
    ensures Canonical(Parts(n, top), top) && Seconds(Parts(n, top)) == Left(n, top)
  {
    if top > 0 {
      PartsCanonical(n, top - 1);
      LeftCount(n, top - 1);
      var parts, rest := Parts(n, top), Parts(n, top - 1);
      CanonicalWider(rest, top - 1, top);
      if Count(n, top - 1) > 0 {
        assert parts[1..] == rest;
      } else {
        assert parts == rest;
      }
    }
  }

  lemma {:induction false} CanonicalBound(parts: seq<Part>, top: nat)
    requires Canonical(parts, top) && top < 4
    ensures AllOk(parts) && Seconds(parts) < Interval(top)
  {
    CanonicalOk(parts, top);
    if parts != [] {
      CanonicalBound(parts[1..], parts[0].unit);
    }
  }

  /** Division by the unit recovers the first count and the rest. */
  lemma FirstCount(p: Part, q: Part, rest: nat, rest1: nat)
    requires p.unit == q.unit && PartOk(p) && PartOk(q) && rest < Interval(p.unit) && rest1 < Interval(p.unit)
    requires Value(p) + rest == Value(q) + rest1
    ensures p == q && rest == rest1
  {
  }

  lemma ZeroSeconds(parts: seq<Part>)
    requires AllOk(parts)
    ensures Seconds(parts) == 0 <==> parts == []
  {
  }

  lemma {:induction false} CanonicalUnique(a: seq<Part>, b: seq<Part>, top: nat)
    requires top <= 4 && Canonical(a, top) && Canonical(b, top)
    requires AllOk(a)
    requires AllOk(b)
    requires Seconds(a) == Seconds(b)
    ensures a == b
  {
    ZeroSeconds(a);
    ZeroSeconds(b);
    if a != [] && b != [] {
      var u, v := a[0].unit, b[0].unit;
      CanonicalBound(a[1..], u);
      CanonicalBound(b[1..], v);
      if u == v {
        FirstCount(a[0], b[0], Seconds(a[1..]), Seconds(b[1..]));
        CanonicalUnique(a[1..], b[1..], u);
        assert a == [a[0]] + a[1..] && b == [b[0]] + b[1..];
      } else {
        SmallerUnit(a, b);
        SmallerUnit(b, a);
      }
    }
  }

  /** A larger first unit is a larger duration. */
  lemma SmallerUnit(a: seq<Part>, b: seq<Part>)
    requires a != [] && b != [] && Canonical(a, 4) && Canonical(b, 4)
    requires AllOk(a)
    requires AllOk(b)
    ensures a[0].unit < b[0].unit ==> Seconds(a) < Seconds(b)
  {
    if a[0].unit < b[0].unit {
      CanonicalBound(a, a[0].unit + 1);
    }
  }

  /** The parts of a duration are its only canonical decomposition. */
  lemma Decomposition(n: nat, parts: seq<Part>)
    requires AllOk(parts)
    ensures parts == Parts(n, 4) <==> Canonical(parts, 4) && Seconds(parts) == n
  {
    PartsCanonical(n, 4);
    if Canonical(parts, 4) && Seconds(parts) == n {
      CanonicalUnique(parts, Parts(n, 4), 4);
    }
  }

  /** The names of the units; the singular is used exactly for one day. */
  lemma SingularExactly(p: Part)
    requires PartOk(p)
    ensures p.unit == 0 ==> Name(p) == "s"
    ensures p.unit == 1 ==> Name(p) == "m"
    ensures p.unit == 2 ==> Name(p) == "h"
    ensures p.unit == 3 ==> Name(p) == (if p.count == 1 then "day" else "days")
  {
    if p.count > 1 {
      assert 1 % p.count == 1;
    }
  }

  /** A count with its unit, if it is not zero. */
  function Show(count: nat, name: string): seq<string> {
    if count == 0 then [] else [ToDecimal(count) + name]
  }

  lemma NonZeroShown(count: nat, unit: nat, name: string)
    requires unit < 4 && (count > 0 ==> name == Name(Part(count, unit)))
    ensures Words(NonZero(count, unit)) == Show(count, name)
  {
  }

  lemma WordsConcat(a: seq<Part>, b: seq<Part>)
    requires AllOk(a) && AllOk(b)
    ensures AllOk(a + b) && Words(a + b) == Words(a) + Words(b)
  {
  }

  /** The text in full: days, hours below 24, minutes and seconds below 60, those that are not zero. */
  lemma PrintIs(n: nat)
    ensures Print(n) == Join(Show(n / 86400, if n / 86400 == 1 then "day" else "days")
                             + Show(n / 3600 % 24, "h") + Show(n / 60 % 60, "m") + Show(n % 60, "s"))
  {
    var d, h, m, s := n / 86400, n / 3600 % 24, n / 60 % 60, n % 60;
    ShownUnit(d, 3);
    ShownUnit(h, 2);
    ShownUnit(m, 1);
    ShownUnit(s, 0);
    var p0, p1, p2, p3 := NonZero(s, 0), NonZero(m, 1), NonZero(h, 2), NonZero(d, 3);
    assert Parts(n, 0) == [] && p0 + [] == p0;
    assert Parts(n, 1) == p0;
    assert Parts(n, 2) == p1 + p0;
    assert Parts(n, 3) == p2 + (p1 + p0);
    assert Parts(n, 4) == p3 + (p2 + (p1 + p0));
    WordsConcat(p1, p0);
    WordsConcat(p2, p1 + p0);
    WordsConcat(p3, p2 + (p1 + p0));
    var w0, w1, w2, w3 := Words(p0), Words(p1), Words(p2), Words(p3);
    assert w3 + (w2 + (w1 + w0)) == w3 + w2 + w1 + w0;
  }

  /** Words are separated by one blank. */
  lemma JoinBlanks(word: string, rest: seq<string>)
    ensures Join([word]) == word
    ensures rest != [] ==> Join([word] + rest) == word + " " + Join(rest)
  {
    assert ([word] + rest)[1..] == rest;
  }

  lemma ShownUnit(count: nat, unit: nat)
    requires unit < 4
    ensures unit == 0 ==> Words(NonZero(count, unit)) == Show(count, "s")
    ensures unit == 1 ==> Words(NonZero(count, unit)) == Show(count, "m")
    ensures unit == 2 ==> Words(NonZero(count, unit)) == Show(count, "h")
    ensures unit == 3 ==> Words(NonZero(count, unit)) == Show(count, if count == 1 then "day" else "days")
  {
    if count > 0 {
      SingularExactly(Part(count, unit));
      NonZeroShown(count, unit, Name(Part(count, unit)));
    }
  }

  // ---------------------------------------------------------------- reading it back

  function DigitRun(s: string): (k: nat)
    ensures k <= |s| && AllDigits(s[..k])
  {
    if s == [] || !IsDigit(s[0]) then 0 else 1 + DigitRun(s[1..])
  }

  function UnitOf(name: string): Option<nat> {
    if name == "s" then Some(0)
    else if name == "m" then Some(1)
    else if name == "h" then Some(2)
    else if name == "day" || name == "days" then Some(3)
    else None
  }

  /** A numeral and the name of a unit, in seconds. */
  function ParseWord(s: string): Option<nat> {
    var k := DigitRun(s);
    var unit := UnitOf(s[k..]);
    if k == 0 || unit.None? || unit.value >= 4 then None else Some(Value(Part(FromDecimal(s[..k]), unit.value)))
  }

  function WordEnd(s: string): (k: nat)
    ensures k <= |s|
  {
    if s == [] || s[0] == ' ' then 0 else 1 + WordEnd(s[1..])
  }

  /** Words separated by single blanks, each read by `read` and added up. */
  function ParseSum(s: string, read: string -> Option<nat>): Option<nat>
    decreases |s|
  {
    if s == [] then Some(0)
    else
      var k := WordEnd(s);
      var first := read(s[..k]);
      var rest := if k == |s| then Some(0) else ParseSum(s[k + 1..], read);
      if first.None? || rest.None? then None else Some(first.value + rest.value)
  }

  function Parse(s: string): Option<nat> {
    ParseSum(s, ParseWord)
  }

  lemma {:induction false} DigitRunOfConcat(s: string, t: string)
    requires AllDigits(s) && (t == [] || !IsDigit(t[0]))
    ensures DigitRun(s + t) == |s|
  {
    if s == [] {
      assert s + t == t;
    } else {
      DigitRunOfConcat(s[1..], t);
      assert (s + t)[1..] == s[1..] + t;
    }
  }

  lemma {:induction false} WordEndOfConcat(s: string, t: string)
    requires ' ' !in s && (t == [] || t[0] == ' ')
    ensures WordEnd(s + t) == |s|
  {
    if s == [] {
      assert s + t == t;
    } else {
      WordEndOfConcat(s[1..], t);
      assert (s + t)[1..] == s[1..] + t;
    }
  }

  lemma NameOk(p: Part)
    requires PartOk(p)
    ensures UnitOf(Name(p)) == Some(p.unit) && Name(p) != [] && !IsDigit(Name(p)[0]) && ' ' !in Name(p)
  {
    SingularExactly(p);
  }

  lemma WordParses(p: Part)
    requires PartOk(p)
    ensures ParseWord(Word(p)) == Some(Value(p))
    ensures Word(p) != [] && ' ' !in Word(p)
  {
    NameOk(p);
    var s := ToDecimal(p.count);
    DigitRunOfConcat(s, Name(p));
    RoundTrip(p.count);
    assert Word(p)[..|s|] == s && Word(p)[|s|..] == Name(p);
    forall i | 0 <= i < |Word(p)| ensures Word(p)[i] != ' ' {
      assert i < |s| ==> IsDigit(s[i]);
      assert i >= |s| ==> Name(p)[i - |s|] in Name(p);
    }
  }

  predicate IsWord(w: string, read: string -> Option<nat>) {
    w != [] && ' ' !in w && read(w).Some?
  }

  lemma ParseLast(w: string, read: string -> Option<nat>)
    requires IsWord(w, read)
    ensures ParseSum(w, read) == read(w)
  {
    WordEndOfConcat(w, "");
    assert w + "" == w && w[..|w|] == w;
  }

  /** Parsing takes the first word off. */
  lemma ParseFirst(w: string, t: string, read: string -> Option<nat>)
    requires IsWord(w, read) && ParseSum(t, read).Some?
    ensures ParseSum(w + " " + t, read) == Some(read(w).value + ParseSum(t, read).value)
  {
    var s := w + " " + t;
    WordEndOfConcat(w, " " + t);
    assert s == w + (" " + t);
    assert s[..|w|] == w && s[|w| + 1..] == t;
  }

  function Total(words: seq<string>, read: string -> Option<nat>): nat
    requires forall i :: 0 <= i < |words| ==> IsWord(words[i], read)
  {
    if words == [] then 0 else assert IsWord(words[0], read); read(words[0]).value + Total(words[1..], read)
  }

  lemma {:induction false} JoinParses(words: seq<string>, read: string -> Option<nat>)
    requires forall i :: 0 <= i < |words| ==> IsWord(words[i], read)
    ensures ParseSum(Join(words), read) == Some(Total(words, read))
  {
    if |words| == 1 {
      ParseLast(words[0], read);
    } else if words != [] {
      JoinParses(words[1..], read);
      ParseFirst(words[0], Join(words[1..]), read);
    }
  }

  lemma {:induction false} WordsTotal(words: seq<string>, parts: seq<Part>, read: string -> Option<nat>)
    requires AllOk(parts) && |words| == |parts|
    requires forall i :: 0 <= i < |words| ==> IsWord(words[i], read)
    requires forall i :: 0 <= i < |words| ==> read(words[i]) == Some(Value(parts[i]))
    ensures Total(words, read) == Seconds(parts)
  {
    if parts != [] {
      WordsTotal(words[1..], parts[1..], read);
    }
  }

  lemma TextParses(parts: seq<Part>)
    requires AllOk(parts)
    ensures Parse(Join(Words(parts))) == Some(Seconds(parts))
  {
    var words := Words(parts);
    forall i | 0 <= i < |words| ensures IsWord(words[i], ParseWord) && ParseWord(words[i]) == Some(Value(parts[i])) {
      WordParses(parts[i]);
    }
    WordsTotal(words, parts, ParseWord);
    JoinParses(words, ParseWord);
  }

  /** The printed text reads back as the whole seconds of the duration. */
  lemma PrintRoundTrip(n: nat)
    ensures Parse(Print(n)) == Some(n)
  {
    PartsCanonical(n, 4);
    TextParses(Parts(n, 4));
  }

  lemma PrintClamps(n: int)
    ensures n <= 0 ==> Print(n) == ""
  {
    if n == 0 {
      PartsCanonical(0, 4);
      ZeroSeconds(Parts(0, 4));
    }
  }

  /** Two durations print alike exactly when they have the same whole seconds, or neither has any. */
  lemma PrintInjective(m: int, n: int)
    ensures Print(m) == Print(n) <==> m == n || (m <= 0 && n <= 0)
  {
    PrintClamps(m);
    PrintClamps(n);
    assert Parse("") == Some(0);
    assert m >= 0 ==> Parse(Print(m)) == Some(m) by {
      if m >= 0 { PrintRoundTrip(m); }
    }
    assert n >= 0 ==> Parse(Print(n)) == Some(n) by {
      if n >= 0 { PrintRoundTrip(n); }
    }
  }
}
