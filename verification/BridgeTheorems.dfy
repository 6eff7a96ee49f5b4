/**
 Reference counting and conservation of dynamic bridges, over every run.
 */
module BridgeTheorems {
  import opened Options
  import opened Bridges
  import opened BridgeInvariant

  /** A run with at most one placeholder per VM, and no pass of cleanup_net cut short after it
      has deleted a link. */
  predicate Counted(fixed: set<string>, acts: seq<Action>) {
    ValidRun(fixed, Init(fixed), acts) && BenignRun(fixed, Init(fixed), acts) && AsksOneDynamic(acts)
  }

  lemma InitHolds(fixed: set<string>)
    ensures Inv(fixed, Init(fixed))
  {
  }

  /** In every reachable state the static bridges exist, an entry of br_vm names a live
      dynamic bridge (until the pass that deletes it ends), the None entry is not empty, and
      every net of a running VM is on an existing link. */
  lemma ReferenceCounting(fixed: set<string>, acts: seq<Action>)
    requires Counted(fixed, acts)
    ensures var s := Final(fixed, Init(fixed), acts);
            && fixed <= s.links
            && (forall b :: Some(b) in s.brVm ==> b !in fixed && (Deleted(s, b) || (b in s.links && b in s.owner)))
            && (None in s.brVm ==> s.brVm[None] != [])
            && (forall v, i :: v in s.vms && s.vms[v].live && 0 <= i < |s.vms[v].nets| ==>
                s.vms[v].nets[i].ifname in s.links)
  {
    InitHolds(fixed);
    RunKeeps(fixed, Init(fixed), acts);
    var s := Final(fixed, Init(fixed), acts);
    forall b | Some(b) in s.brVm ensures b !in fixed && (Deleted(s, b) || (b in s.links && b in s.owner)) {
      assert KeyOk(fixed, s, b);
    }
    forall v, i | v in s.vms && s.vms[v].live && 0 <= i < |s.vms[v].nets| ensures s.vms[v].nets[i].ifname in s.links {
      assert VmOk(fixed, s, v);
    }
  }

  /** A step that takes a link away is a visit of cleanup_net to its empty entry: the link is
      not static, the request that allocated it has all its VMs, and no running VM is on it. */
  lemma DeletionIsSafe(fixed: set<string>, s: State, a: Action, b: string)
    requires Inv(fixed, s) && Enabled(s, a) && b in s.links && b !in Next(s, a).links
    ensures a == CleanVisit(Some(b)) && b !in fixed
    ensures b in s.owner && s.owner[b] in s.reqs && s.reqs[s.owner[b]].status.Ready?
    ensures forall v, i :: v in s.vms && s.vms[v].live && 0 <= i < |s.vms[v].nets| ==> s.vms[v].nets[i].ifname != b
  {
    assert a.CleanVisit? && a.k == Some(b);
    assert KeyOk(fixed, s, b);
    EmptyIsUnused(fixed, s, b);
    forall v, i | v in s.vms && s.vms[v].live && 0 <= i < |s.vms[v].nets| ensures s.vms[v].nets[i].ifname != b {
      assert VmOk(fixed, s, v);
    }
  }

  /** Once a request has succeeded, its VMs are destroyed and no cleanup is due, running or cut
      short, it has no bridge left: every remaining link is static or another request's. */
  lemma Conservation(fixed: set<string>, acts: seq<Action>, r: ReqId)
    requires Counted(fixed, acts)
    requires var s := Final(fixed, Init(fixed), acts);
             && r in s.reqs && s.reqs[r].status.Ready?
             && (forall v :: v in s.vms && s.vms[v].req == r ==> !s.vms[v].live)
             && s.pending == 0 && !s.lock.Cleaning? && !s.aborted
    ensures var s := Final(fixed, Init(fixed), acts);
            forall b :: b in s.links ==> b in fixed || (b in s.owner && s.owner[b] != r)
  {
    InitHolds(fixed);
    RunKeeps(fixed, Init(fixed), acts);
    var s := Final(fixed, Init(fixed), acts);
    forall b | b in s.links && b !in fixed ensures b in s.owner && s.owner[b] != r {
      assert OwnerOk(s, b);
      if Some(b) in s.brVm {
        assert KeyOk(fixed, s, b);
        assert s.brVm[Some(b)] != [];
        assert s.brVm[Some(b)][0] in s.brVm[Some(b)];
      }
    }
  }

  /** Running VMs of different requests never share a dynamic bridge. */
  lemma LiveRequestsAreDisjoint(fixed: set<string>, acts: seq<Action>, v: VmId, w: VmId, i: nat, j: nat)
    requires Counted(fixed, acts)
    requires var s := Final(fixed, Init(fixed), acts);
             && v in s.vms && w in s.vms && s.vms[v].live && s.vms[w].live && s.vms[v].req != s.vms[w].req
             && i < |s.vms[v].nets| && j < |s.vms[w].nets| && s.vms[v].nets[i].ifname !in fixed
    ensures var s := Final(fixed, Init(fixed), acts);
            s.vms[v].nets[i].ifname != s.vms[w].nets[j].ifname
  {
    InitHolds(fixed);
    RunKeeps(fixed, Init(fixed), acts);
    var s := Final(fixed, Init(fixed), acts);
    assert VmOk(fixed, s, v) && VmOk(fixed, s, w);
  }

  /** A request in progress has no bridge of a running VM of another request. */
  lemma ProgressIsDisjoint(fixed: set<string>, acts: seq<Action>, v: VmId, r: ReqId, i: nat)
    requires Counted(fixed, acts)
    requires var s := Final(fixed, Init(fixed), acts);
             && v in s.vms && s.vms[v].live && i < |s.vms[v].nets|
             && r in s.reqs && s.vms[v].req != r && !s.reqs[r].status.Ready?
    ensures var s := Final(fixed, Init(fixed), acts);
            s.vms[v].nets[i].ifname !in s.reqs[r].ifs.Values
  {
    InitHolds(fixed);
    RunKeeps(fixed, Init(fixed), acts);
    var s := Final(fixed, Init(fixed), acts);
    assert VmOk(fixed, s, v) && ReqOk(fixed, s, r);
  }
}
