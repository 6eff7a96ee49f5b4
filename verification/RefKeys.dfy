/**
 Keys of changes (rallyci/task.py: get_key): for the refs of patch sets, the key determines the
 project and the patch set.
 */
module RefKeys {
  import opened Decimal
  import opened Dedup

  const REFS := "refs/changes/"

  function Ref(shard: string, change: string, patchSet: string): string {
    REFS + shard + "/" + change + "/" + patchSet
  }

  /** refs/changes/<digits>/<digits>/<digits> */
  ghost predicate IsRef(ref: string) {
    exists a, b, c :: AllDigits(a) && AllDigits(b) && AllDigits(c) && ref == Ref(a, b, c)
  }

  predicate NoR(s: string) {
    forall i :: 0 <= i < |s| ==> s[i] != 'r'
  }

  lemma NoRConcat(s: string, t: string)
    requires NoR(s) && NoR(t)
    ensures NoR(s + t)
  {
  }

  /** An 'r' is only at the beginning of a ref. */
  lemma RefHead(ref: string)
    requires IsRef(ref)
    ensures ref != [] && ref[0] == 'r' && NoR(ref[1..])
  {
    var a, b, c :| AllDigits(a) && AllDigits(b) && AllDigits(c) && ref == Ref(a, b, c);
    var tail := "efs/changes/";
    NoRConcat(tail, a);
    NoRConcat(tail + a, "/");
    NoRConcat(tail + a + "/", b);
    NoRConcat(tail + a + "/" + b, "/");
    NoRConcat(tail + a + "/" + b + "/", c);
    assert REFS == "r" + tail;
    assert ref[1..] == tail + a + "/" + b + "/" + c;
  }

  lemma NotLonger(p: string, q: string, x: string, y: string)
    requires p + x == q + y && x != [] && y != []
    requires x[0] == 'r' && NoR(x[1..]) && y[0] == 'r'
    ensures |q| <= |p|
  {
    assert forall k :: |p| < k < |p + x| ==> (p + x)[k] == x[1..][k - |p| - 1];
    assert (q + y)[|q|] == 'r';
  }

  /** For all project names, also such that contain refs. */
  lemma KeyInjective(p: string, q: string, x: string, y: string)
    requires IsRef(x) && IsRef(y) && p + x == q + y
    ensures p == q && x == y
  {
    RefHead(x);
    RefHead(y);
    NotLonger(p, q, x, y);
    NotLonger(q, p, y, x);
    assert p == (p + x)[..|p|] && q == (q + y)[..|q|];
    assert x == (p + x)[|p|..] && y == (q + y)[|q|..];
  }

  ghost predicate PatchSetEvent(e: Event) {
    e.project.Some? && e.ref.Some? && IsRef(e.ref.value)
  }

  ghost predicate Proper(a: Action) {
    a.Arrive? ==> (Keyed(a.e) ==> PatchSetEvent(a.e)) && (a.e.kind.RefUpdated? ==> Key(a.e) == "")
  }

  ghost predicate LivePatchSets(s: State) {
    forall i :: i in s.live && Keyed(s.live[i]) ==> PatchSetEvent(s.live[i])
  }

  lemma ProperIsWellFormed(a: Action)
    requires Proper(a)
    ensures WellFormed(a)
  {
    if a.Arrive? && Keyed(a.e) {
      RefHead(a.e.ref.value);
      assert Key(a.e)[|a.e.project.value|] == 'r';
    }
  }

  lemma {:induction false} LiveRun(known: set<string>, s: State, acts: seq<Action>)
    requires ValidRun(known, s, acts) && LivePatchSets(s)
    requires forall i :: 0 <= i < |acts| ==> Proper(acts[i])
    ensures AllWellFormed(acts) && LivePatchSets(Final(known, s, acts))
    decreases |acts|
  {
    forall i | 0 <= i < |acts| ensures WellFormed(acts[i]) {
      ProperIsWellFormed(acts[i]);
    }
    if acts != [] {
      LiveRun(known, Next(known, s, acts[0]), acts[1..]);
    }
  }

  /** In every run of patch-set, recheck and ref-updated events, whatever raises, two different live
      deduplicated tasks differ in project or in patch set. */
  lemma OneTaskPerPatchSet(known: set<string>, acts: seq<Action>, i: TaskId, j: TaskId)
    requires ValidRun(known, Init(), acts) && forall i :: 0 <= i < |acts| ==> Proper(acts[i])
    requires var s := Final(known, Init(), acts);
             i in s.live && j in s.live && i != j && Keyed(s.live[i]) && Keyed(s.live[j])
    ensures var s := Final(known, Init(), acts);
            s.live[i].project != s.live[j].project || s.live[i].ref != s.live[j].ref
  {
    LiveRun(known, Init(), acts);
    StrongRun(known, Init(), acts);
  }

  /** An event without project or ref has the empty key, as every ref-updated event; a patch-set event
      never has. */
  lemma KeyIs(e: Event)
    ensures e.project.None? || e.ref.None? ==> Key(e) == ""
    ensures PatchSetEvent(e) ==> Key(e) == e.project.value + e.ref.value && Key(e) != ""
  {
    if PatchSetEvent(e) {
      RefHead(e.ref.value);
      assert Key(e)[|e.project.value|] == 'r';
    }
  }

  /** Two patch-set events are duplicates of each other exactly when they name the same patch set. */
  lemma DuplicateExactly(d: Event, e: Event)
    requires PatchSetEvent(d) && PatchSetEvent(e)
    ensures Key(d) == Key(e) <==> d.project == e.project && d.ref == e.ref
  {
    if Key(d) == Key(e) {
      KeyInjective(d.project.value, e.project.value, d.ref.value, e.ref.value);
    }
  }
}
