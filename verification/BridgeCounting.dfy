/**
 Exactly when reference counting of bridges works: when no VM names two placeholders.
 */
module BridgeCounting {
  import opened Options
  import opened Bridges
  import opened BridgeInvariant
  import opened BridgeBasics
  import opened BridgeTheorems

  /** Every net of a running VM is on an existing link. */
  predicate OnLinks(s: State) {
    forall v, i :: v in s.vms && s.vms[v].live && 0 <= i < |s.vms[v].nets| ==> s.vms[v].nets[i].ifname in s.links
  }

  /** The request has succeeded, its VMs are destroyed, and cleanup_net has run. */
  predicate Over(s: State, r: ReqId) {
    && r in s.reqs && s.reqs[r].status.Ready? && (forall v :: v in s.vms && s.vms[v].req == r ==> !s.vms[v].live)
    && s.pending == 0 && !s.lock.Cleaning? && !s.aborted
  }

  predicate Owns(s: State, r: ReqId, b: string) {
    b in s.links && b in s.owner && s.owner[b] == r
  }

  /** A request that is over has no bridge left. */
  ghost predicate Conserved(s: State) {
    forall r, b :: Over(s, r) ==> !Owns(s, r, b)
  }

  predicate AsksOnly(acts: seq<Action>, confs: set<seq<Net>>) {
    forall i, k :: 0 <= i < |acts| && acts[i].GetVms? && 0 <= k < |acts[i].confs| ==> acts[i].confs[k] in confs
  }

  /** A run in which jobs ask, in any combination, for VMs configured as in `confs`. */
  predicate RunOf(fixed: set<string>, confs: set<seq<Net>>, acts: seq<Action>) {
    ValidRun(fixed, Init(fixed), acts) && BenignRun(fixed, Init(fixed), acts) && AsksOnly(acts, confs)
  }

  // ------------------------------------------------- one placeholder suffices

  lemma OneDynamicCounts(fixed: set<string>, confs: set<seq<Net>>, acts: seq<Action>)
    requires (forall c :: c in confs ==> OneDynamic(c)) && RunOf(fixed, confs, acts)
    ensures var s := Final(fixed, Init(fixed), acts); OnLinks(s) && Conserved(s)
  {
    assert AsksOneDynamic(acts);
    ReferenceCounting(fixed, acts);
    var s := Final(fixed, Init(fixed), acts);
    InitHolds(fixed);
    RunKeeps(fixed, Init(fixed), acts);
    forall r, b | Over(s, r) ensures !Owns(s, r, b) {
      Conservation(fixed, acts, r);
      assert b in s.owner ==> b !in fixed;
    }
  }

  // ------------------------------------------------- two placeholders leak a bridge

  ghost predicate Reached(fixed: set<string>, c: seq<Net>, acts: seq<Action>, s: State) {
    RunOf(fixed, {c}, acts) && Final(fixed, Init(fixed), acts) == s
  }

  lemma Go(fixed: set<string>, c: seq<Net>, acts: seq<Action>, s: State, a: Action)
    returns (more: seq<Action>, s1: State)
    requires Reached(fixed, c, acts, s) && Enabled(s, a) && ActionOk(fixed, a) && Benign(s, a)
    requires a.GetVms? ==> a.confs == [c]
    ensures Reached(fixed, c, more, s1) && s1 == Next(s, a)
  {
    RunExtends(fixed, Init(fixed), acts, a);
    more, s1 := acts + [a], Next(s, a);
  }

  /** The one request of the run, for the VM `c`, has prepared `k` of its nets. */
  predicate Prepares(c: seq<Net>, s: State, k: nat) {
    && s.vms == map[] && s.brVm == map[] && s.lock.Free? && s.pending == 0 && !s.aborted && s.reqs.Keys == {0}
    && var q := s.reqs[0];
    && q.confs == [c] && q.status.Running? && q.vms == [] && |q.nets| == k <= |c|
    && (forall i :: 0 <= i < k && IsDynamic(c[i]) ==> c[i].ifname in q.ifs && q.br.Some?)
  }

  lemma PrepareFirst(fixed: set<string>, c: seq<Net>) returns (acts: seq<Action>, s: State)
    requires NetsOk(fixed, c)
    ensures Reached(fixed, c, acts, s) && Prepares(c, s, 0)
  {
    acts, s := Go(fixed, c, [], Init(fixed), GetVms(0, [c]));
  }

  lemma PrepareNet(fixed: set<string>, c: seq<Net>, acts: seq<Action>, s: State, k: nat)
    returns (more: seq<Action>, s1: State)
    requires Reached(fixed, c, acts, s) && Prepares(c, s, k) && k < |c|
    ensures Reached(fixed, c, more, s1) && Prepares(c, s1, k + 1)
  {
    if NeedsBridge(s, 0) {
      more, s1 := Go(fixed, c, acts, s, List(0));
      more, s1 := Go(fixed, c, more, s1, Add(0));
      more, s1 := Go(fixed, c, more, s1, Up(0));
    } else {
      more, s1 := Go(fixed, c, acts, s, TakeNet(0));
    }
  }

  lemma {:induction false} PrepareReach(fixed: set<string>, c: seq<Net>, k: nat) returns (acts: seq<Action>, s: State)
    requires NetsOk(fixed, c) && k <= |c|
    ensures Reached(fixed, c, acts, s) && Prepares(c, s, k)
  {
    if k == 0 {
      acts, s := PrepareFirst(fixed, c);
    } else {
      acts, s := PrepareReach(fixed, c, k - 1);
      acts, s := PrepareNet(fixed, c, acts, s, k - 1);
    }
  }

  /** One of two placeholders is not the one under whose bridge the VM is registered. */
  lemma UncountedBridge(fixed: set<string>, c: seq<Net>, s: State) returns (b: string)
    requires Basic(fixed, s) && Prepares(c, s, |c|) && !OneDynamic(c)
    ensures s.reqs[0].br.Some? && s.reqs[0].br != Some(b) && Owns(s, 0, b)
  {
    var q := s.reqs[0];
    assert ReqBasic(fixed, s, 0);
    var i, j :| 0 <= i < |c| && 0 <= j < |c| && IsDynamic(c[i]) && IsDynamic(c[j]) && c[i].ifname != c[j].ifname;
    b := if q.br == Some(q.ifs[c[i].ifname]) then q.ifs[c[j].ifname] else q.ifs[c[i].ifname];
  }

  /** The VM boots, is destroyed, and cleanup_net runs: it sees the one key there is. */
  lemma BootAndDestroy(fixed: set<string>, c: seq<Net>, acts: seq<Action>, s: State, b: string)
    returns (more: seq<Action>, s1: State)
    requires Reached(fixed, c, acts, s) && Prepares(c, s, |c|)
    requires s.reqs[0].br.Some? && s.reqs[0].br != Some(b) && Owns(s, 0, b)
    ensures Reached(fixed, c, more, s1) && s1.lock.Free? && s1.pending == 1 && !s1.aborted
    ensures s1.reqs.Keys == {0} && s1.reqs[0].status.Ready? && s1.vms.Keys == {0} && !s1.vms[0].live
    ensures s1.brVm.Keys == {s.reqs[0].br} && Owns(s1, 0, b)
  {
    var br := s.reqs[0].br;
    more, s1 := Go(fixed, c, acts, s, Boot(0, 0));
    assert s1.brVm.Keys == {br};
    var nets := s1.vms[0].nets;
    forall k ensures k in Detach(s1.brVm, nets, 0) <==> k == br {
      DetachBasic(s1.brVm, nets, 0, k);
    }
    assert Detach(s1.brVm, nets, 0).Keys == {br};
    more, s1 := Go(fixed, c, more, s1, Destroy(0));
  }

  lemma CleanUp(fixed: set<string>, c: seq<Net>, acts: seq<Action>, s: State, br: string, b: string)
    returns (more: seq<Action>, s1: State)
    requires Reached(fixed, c, acts, s) && s.lock.Free? && s.pending == 1 && !s.aborted
    requires s.reqs.Keys == {0} && s.reqs[0].status.Ready? && s.vms.Keys == {0} && !s.vms[0].live
    requires s.brVm.Keys == {Some(br)} && br != b && Owns(s, 0, b)
    ensures Reached(fixed, c, more, s1) && Over(s1, 0) && Owns(s1, 0, b)
  {
    more, s1 := Go(fixed, c, acts, s, CleanStart);
    assert Some(br) in s1.brVm;
    more, s1 := Go(fixed, c, more, s1, CleanVisit(Some(br)));
    assert s1.lock.todo == {};
    more, s1 := Go(fixed, c, more, s1, CleanEnd);
  }

  /** A request for one VM with two placeholders ends with a bridge that is never deleted. */
  lemma TwoPlaceholdersLeak(fixed: set<string>, c: seq<Net>) returns (acts: seq<Action>)
    requires NetsOk(fixed, c) && !OneDynamic(c)
    ensures RunOf(fixed, {c}, acts) && !Conserved(Final(fixed, Init(fixed), acts))
  {
    var s;
    acts, s := PrepareReach(fixed, c, |c|);
    InitBasic(fixed);
    BasicRun(fixed, Init(fixed), acts);
    var b := UncountedBridge(fixed, c, s);
    var br := s.reqs[0].br.value;
    acts, s := BootAndDestroy(fixed, c, acts, s, b);
    acts, s := CleanUp(fixed, c, acts, s, br, b);
  }

  /** For the VM configurations of a provider: in every run requests that are over leave no bridge
      behind, and also links of running VMs exist, if and only if no configuration names two
      placeholders. */
  lemma CountingExactly(fixed: set<string>, confs: set<seq<Net>>)
    requires forall c :: c in confs ==> NetsOk(fixed, c)
    ensures (forall acts :: RunOf(fixed, confs, acts) ==>
               var s := Final(fixed, Init(fixed), acts); OnLinks(s) && Conserved(s))
            <==> forall c :: c in confs ==> OneDynamic(c)
    ensures (forall acts :: RunOf(fixed, confs, acts) ==> Conserved(Final(fixed, Init(fixed), acts)))
            <==> forall c :: c in confs ==> OneDynamic(c)
  {
    if forall c :: c in confs ==> OneDynamic(c) {
      forall acts | RunOf(fixed, confs, acts)
        ensures var s := Final(fixed, Init(fixed), acts); OnLinks(s) && Conserved(s)
      {
        OneDynamicCounts(fixed, confs, acts);
      }
    } else {
      var c :| c in confs && !OneDynamic(c);
      var acts := TwoPlaceholdersLeak(fixed, c);
      assert AsksOnly(acts, confs);
      assert RunOf(fixed, confs, acts);
    }
  }
}
