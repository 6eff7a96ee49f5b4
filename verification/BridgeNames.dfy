/**
 Choosing the name of a dynamic bridge (rallyci/providers/virsh.py: IFACE_RE,
 Host._get_bridge).
 */
module BridgeNames {
  import opened Decimal

  predicate IsLetter(c: char) {
    'a' <= c <= 'z'
  }

  predicate Letters(s: string) {
    s != [] && forall i :: 0 <= i < |s| ==> IsLetter(s[i])
  }

  /** How many letters a name begins with. */
  function LetterRun(name: string): (k: nat)
    ensures k <= |name| && (forall i :: 0 <= i < k ==> IsLetter(name[i]))
    ensures k < |name| ==> !IsLetter(name[k])
  {
    if name == [] || !IsLetter(name[0]) then 0 else 1 + LetterRun(name[1..])
  }

  /** The interface name is letters followed by digits, as IFACE_RE wants it. */
  predicate Matches(name: string) {
    var k := LetterRun(name);
    0 < k < |name| && AllDigits(name[k..])
  }

  function PrefixOf(name: string): string
    requires Matches(name)
  {
    name[..LetterRun(name)]
  }

  function NumberOf(name: string): nat
    requires Matches(name)
  {
    FromDecimal(name[LetterRun(name)..])
  }

  /** The numbers in use behind `prefix`. */
  function Used(links: set<string>, prefix: string): set<nat> {
    set name | name in links && Matches(name) && PrefixOf(name) == prefix :: NumberOf(name)
  }

  function Listed(lines: seq<string>): set<string> {
    set name | name in lines
  }

  /** The first loop of _get_bridge, over the lines of `ip link list`. */
  method UsedNumbers(lines: seq<string>, prefix: string) returns (nums: set<nat>)
    ensures nums == Used(Listed(lines), prefix)
  {
    nums := {};
    for i := 0 to |lines|
      invariant nums == Used(Listed(lines[..i]), prefix)
    {
      assert Listed(lines[..i + 1]) == Listed(lines[..i]) + {lines[i]};
      if Matches(lines[i]) && PrefixOf(lines[i]) == prefix {
        nums := nums + {NumberOf(lines[i])};
      }
    }
    assert lines[..|lines|] == lines;
  }

  // ------------------------------------------------- the least free number

  function Below(n: nat): (s: set<nat>)
    ensures |s| == n && forall i :: i in s <==> 0 <= i < n
  {
    if n == 0 then {} else Below(n - 1) + {n - 1}
  }

  /** Pigeonhole: a set that contains 0 .. n-1 has at least n elements. */
  lemma Pigeonhole(nums: set<nat>, n: nat)
    requires forall i :: 0 <= i < n ==> i in nums
    ensures n <= |nums|
  {
    assert Below(n) <= nums;
    var rest := nums - Below(n);
    assert nums == Below(n) + rest;
  }

  function LeastFrom(nums: set<nat>, i: nat): (k: nat)
    requires forall j :: 0 <= j < i ==> j in nums
    ensures i <= k <= |nums| && k !in nums && forall j :: 0 <= j < k ==> j in nums
    decreases (Pigeonhole(nums, i); |nums| - i)
  {
    Pigeonhole(nums, i);
    if i !in nums then i else (Pigeonhole(nums, i + 1); LeastFrom(nums, i + 1))
  }

  function Least(nums: set<nat>): (k: nat)
    ensures k <= |nums| && k !in nums && forall j :: 0 <= j < k ==> j in nums
  {
    LeastFrom(nums, 0)
  }

  /** The second loop of _get_bridge: `for i in range(len(nums) + 1)` always breaks. */
  method FirstFree(nums: set<nat>) returns (i: nat)
    ensures i == Least(nums)
  {
    i := 0;
    while i < |nums| + 1 && i in nums
      invariant forall j :: 0 <= j < i ==> j in nums
    {
      i := i + 1;
    }
    Pigeonhole(nums, i);
    LeastUnique(nums, i);
  }

  lemma LeastUnique(nums: set<nat>, i: nat)
    requires i !in nums && forall j :: 0 <= j < i ==> j in nums
    ensures i == Least(nums)
  {
    var k := Least(nums);
    assert i < k ==> i in nums;
    assert k < i ==> k in nums;
  }

  // ------------------------------------------------- the name

  function Bridge(links: set<string>, prefix: string): string {
    prefix + ToDecimal(Least(Used(links, prefix)))
  }

  /** _get_bridge up to `ip link add`. */
  method GetBridge(lines: seq<string>, prefix: string) returns (br: string)
    ensures br == Bridge(Listed(lines), prefix)
  {
    var nums := UsedNumbers(lines, prefix);
    var i := FirstFree(nums);
    br := prefix + ToDecimal(i);
  }

  lemma {:induction false} RunOfConcat(prefix: string, rest: string)
    requires forall i :: 0 <= i < |prefix| ==> IsLetter(prefix[i])
    requires rest != [] && IsDigit(rest[0])
    ensures LetterRun(prefix + rest) == |prefix|
  {
    if prefix == [] {
      assert prefix + rest == rest;
    } else {
      assert (prefix + rest)[1..] == prefix[1..] + rest;
      RunOfConcat(prefix[1..], rest);
    }
  }

  /** A name built from letters and a number splits back into both. */
  lemma NameSplits(prefix: string, n: nat)
    requires Letters(prefix)
    ensures var name := prefix + ToDecimal(n);
            Matches(name) && PrefixOf(name) == prefix && NumberOf(name) == n
  {
    var name := prefix + ToDecimal(n);
    RunOfConcat(prefix, ToDecimal(n));
    assert name[|prefix|..] == ToDecimal(n);
    assert name[..|prefix|] == prefix;
    RoundTrip(n);
  }

  ghost predicate Taken(links: set<string>, prefix: string, j: nat) {
    exists name :: name in links && Matches(name) && PrefixOf(name) == prefix && NumberOf(name) == j
  }

  /** For a prefix of letters the chosen name is new, and every smaller number is taken. */
  lemma BridgeIsFresh(links: set<string>, prefix: string)
    requires Letters(prefix)
    ensures Bridge(links, prefix) !in links
    ensures forall j :: 0 <= j < Least(Used(links, prefix)) ==> Taken(links, prefix, j)
  {
    NameSplits(prefix, Least(Used(links, prefix)));
    var nums := Used(links, prefix);
    forall j | 0 <= j < Least(nums) ensures Taken(links, prefix, j) {
      assert j in nums;
    }
  }

  /** With any other prefix the search never sees its own bridges, and a link in use is
      chosen again. */
  lemma OtherPrefixCollides(prefix: string)
    requires !Letters(prefix)
    ensures Bridge({prefix + "0"}, prefix) in {prefix + "0"}
  {
    var links := {prefix + "0"};
    forall name | name in links && Matches(name) ensures PrefixOf(name) != prefix {
      assert Letters(PrefixOf(name));
    }
    assert Used(links, prefix) == {};
    assert ToDecimal(0) == "0";
  }

  /** Allocation is safe on every host exactly for prefixes of letters. */
  lemma AllocationIsFreshExactly(prefix: string)
    ensures (prefix != [] && forall i :: 0 <= i < |prefix| ==> 'a' <= prefix[i] <= 'z') <==>
            forall links: set<string> :: Bridge(links, prefix) !in links
  {
    if Letters(prefix) {
      forall links: set<string> ensures Bridge(links, prefix) !in links {
        BridgeIsFresh(links, prefix);
      }
    } else {
      OtherPrefixCollides(prefix);
    }
  }
}
