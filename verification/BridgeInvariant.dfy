/**
 What every step on the bridges of a host keeps.
 */
module BridgeInvariant {
  import opened Sequences
  import opened Options
  import opened BridgeNames
  import opened Bridges

  /** The links are the fixed ones and the live dynamic bridges. */
  predicate LinksOk(fixed: set<string>, s: State) {
    s.links == fixed + s.owner.Keys && fixed !! s.owner.Keys
  }

  predicate Deleted(s: State, b: string) {
    s.lock.Cleaning? && Some(b) in s.lock.clean
  }

  /** An entry of br_vm names a live bridge and lists live VMs of the request that
      allocated it; while that request is not over, it lists at least one. */
  predicate KeyOk(fixed: set<string>, s: State, b: string)
    requires Some(b) in s.brVm
  {
    && b !in fixed
    && if Deleted(s, b) then b !in s.owner && s.brVm[Some(b)] == []
       else
         && b in s.owner && s.owner[b] in s.reqs
         && (!s.reqs[s.owner[b]].status.Ready? ==> s.brVm[Some(b)] != [])
         && forall v :: v in s.brVm[Some(b)] ==>
              v in s.vms && s.vms[v].live && s.vms[v].req == s.owner[b] && s.vms[v].br == Some(b)
  }

  ghost predicate KeysOk(fixed: set<string>, s: State) {
    && (forall b :: Some(b) in s.brVm ==> KeyOk(fixed, s, b))
    && (None in s.brVm ==> s.brVm[None] != [])
    && (forall k :: k in s.brVm ==> Distinct(s.brVm[k]))
    && (forall k, v :: k in s.brVm && v in s.brVm[k] ==> v in s.vms)
  }

  /** The nets of a VM are fixed links or its one dynamic bridge. */
  predicate NetsOn(fixed: set<string>, nets: seq<Net>, br: Option<string>) {
    forall i :: 0 <= i < |nets| ==> nets[i].ifname in fixed || br == Some(nets[i].ifname)
  }

  /** A live VM is listed under its dynamic bridge, which exists and belongs to its request. */
  predicate VmOk(fixed: set<string>, s: State, v: VmId)
    requires v in s.vms
  {
    var vm := s.vms[v];
    && vm.req in s.reqs && NetsOn(fixed, vm.nets, vm.br)
    && (vm.live && vm.br.Some? ==>
          && vm.br.value in s.owner && s.owner[vm.br.value] == vm.req
          && (exists i :: 0 <= i < |vm.nets| && vm.nets[i].ifname == vm.br.value)
          && vm.br in s.brVm && v in s.brVm[vm.br])
    && (!vm.live ==> s.reqs[vm.req].status.Ready?)
  }

  predicate Injective(ifs: map<string, string>) {
    forall p, q :: p in ifs && q in ifs && ifs[p] == ifs[q] ==> p == q
  }

  /** net_conf so far: placeholders replaced through `ifs`, everything else unchanged. */
  function Subst(ifs: map<string, string>, n: Net): Net {
    if IsDynamic(n) && n.ifname in ifs then n.(ifname := ifs[n.ifname]) else n
  }

  predicate Replaced(ifs: map<string, string>, conf: seq<Net>, nets: seq<Net>) {
    && |nets| <= |conf|
    && forall i :: 0 <= i < |nets| ==>
         nets[i] == Subst(ifs, conf[i]) && (IsDynamic(conf[i]) ==> conf[i].ifname in ifs)
  }

  /** `br` is the bridge of the dynamic nets so far. */
  predicate Current(q: Req, conf: seq<Net>)
    requires |q.nets| <= |conf|
  {
    && (forall i :: 0 <= i < |q.nets| && IsDynamic(conf[i]) && conf[i].ifname in q.ifs ==>
        q.br == Some(q.ifs[conf[i].ifname]))
    && (q.br.Some? ==>
          exists i ::
            0 <= i < |q.nets| && IsDynamic(conf[i]) && conf[i].ifname in q.ifs && q.ifs[conf[i].ifname] == q.br.value)
  }

  predicate ReqOk(fixed: set<string>, s: State, r: ReqId)
    requires r in s.reqs
  {
    var q := s.reqs[r];
    && ConfsOk(fixed, q.confs) && OneDynamics(q.confs) && |q.vms| <= |q.confs| && Injective(q.ifs)
    && (q.status.Running? ==> |q.vms| < |q.confs| && Replaced(q.ifs, Conf(s, r), q.nets) && Current(q, Conf(s, r)))
    && (!q.status.Ready? ==>
          && (forall p :: p in q.ifs ==> q.ifs[p] in s.owner && s.owner[q.ifs[p]] == r)
          && (q.status.Running? ==> forall p :: p in q.ifs ==> Some(q.ifs[p]) in s.brVm || q.br == Some(q.ifs[p])))
  }

  /** A bridge of a request is one of its placeholders, or the one being added; once the
      request has its VMs, every bridge it owns is in br_vm. */
  predicate OwnerOk(s: State, b: string)
    requires b in s.owner
  {
    var r := s.owner[b];
    && r in s.reqs
    && (s.reqs[r].status.Running? ==> b in s.reqs[r].ifs.Values || (s.lock.Added? && s.lock == Added(r, b)))
    && (s.reqs[r].status.Ready? ==> Some(b) in s.brVm)
  }

  predicate LockOk(s: State) {
    match s.lock
    case Free => true
    case Listed(r, b) => NeedsBridge(s, r) && b !in s.links
    case Added(r, b) => NeedsBridge(s, r) && b in s.owner && s.owner[b] == r && b !in s.reqs[r].ifs.Values
        && Some(b) !in s.brVm
    case Cleaning(todo, clean) => todo <= s.brVm.Keys && clean <= s.brVm.Keys && todo !! clean && None !in clean
  }

  /** An empty entry is about to be cleaned: a call of cleanup_net is due, or has yet to see
      it, or has deleted its link; unless a call was cut short. */
  ghost predicate EmptyOk(s: State) {
    forall b :: Some(b) in s.brVm && s.brVm[Some(b)] == [] ==>
      s.pending > 0 || s.aborted || (s.lock.Cleaning? && (Some(b) in s.lock.todo || Some(b) in s.lock.clean))
  }

  ghost predicate Inv(fixed: set<string>, s: State) {
    && LinksOk(fixed, s) && KeysOk(fixed, s) && LockOk(s) && EmptyOk(s)
    && (forall v :: v in s.vms ==> VmOk(fixed, s, v))
    && (forall r :: r in s.reqs ==> ReqOk(fixed, s, r))
    && (forall b :: b in s.owner ==> OwnerOk(s, b))
  }

  // ------------------------------------------------- frames

  /** Only the record of request `r` changes, and it stays as far along. */
  lemma ReqFrame(fixed: set<string>, s: State, s1: State, r: ReqId)
    requires Inv(fixed, s) && r in s.reqs && r in s1.reqs
    requires s1 == s.(reqs := s1.reqs, lock := s1.lock) && s1.reqs == s.reqs[r := s1.reqs[r]]
    requires s1.reqs[r].status.Ready? == s.reqs[r].status.Ready?
    requires s.lock.Cleaning? || s1.lock.Cleaning? ==> s1.lock == s.lock
    requires ReqOk(fixed, s1, r) && LockOk(s1)
    requires forall b :: b in s.owner && s.owner[b] == r ==> OwnerOk(s1, b)
    requires s1.lock == s.lock || (s.lock.Added? ==> s.lock.r == r)
    ensures Inv(fixed, s1)
  {
    forall b | Some(b) in s1.brVm ensures KeyOk(fixed, s1, b) {
      assert KeyOk(fixed, s, b);
    }
    forall v | v in s1.vms ensures VmOk(fixed, s1, v) {
      assert VmOk(fixed, s, v);
    }
    forall q | q in s1.reqs ensures ReqOk(fixed, s1, q) {
      assert ReqOk(fixed, s, q);
    }
    forall b | b in s1.owner ensures OwnerOk(s1, b) {
      assert OwnerOk(s, b);
    }
  }

  // ------------------------------------------------- steps of get_vms

  lemma GetVmsKeeps(fixed: set<string>, s: State, r: ReqId, confs: seq<seq<Net>>)
    requires Inv(fixed, s) && r !in s.reqs && ConfsOk(fixed, confs) && OneDynamics(confs)
    ensures Inv(fixed, Next(s, GetVms(r, confs)))
  {
    var s1 := Next(s, GetVms(r, confs));
    forall b | Some(b) in s1.brVm ensures KeyOk(fixed, s1, b) {
      assert KeyOk(fixed, s, b);
    }
    forall v | v in s1.vms ensures VmOk(fixed, s1, v) {
      assert VmOk(fixed, s, v);
    }
    forall q | q in s1.reqs ensures ReqOk(fixed, s1, q) {
      assert q != r ==> ReqOk(fixed, s, q);
    }
    forall b | b in s1.owner ensures OwnerOk(s1, b) {
      assert OwnerOk(s, b);
    }
  }

  /** Appending the next net keeps net_conf and `br` right: with one placeholder per VM,
      `br` does not change once it is set. */
  lemma WithNetOk(q: Req, conf: seq<Net>)
    requires |q.nets| < |conf| && OneDynamic(conf) && Replaced(q.ifs, conf, q.nets) && Current(q, conf)
    requires IsDynamic(conf[|q.nets|]) ==> conf[|q.nets|].ifname in q.ifs
    ensures Replaced(q.ifs, conf, WithNet(q, conf[|q.nets|]).nets) && Current(WithNet(q, conf[|q.nets|]), conf)
    ensures q.br.Some? ==> WithNet(q, conf[|q.nets|]).br == q.br
  {
    var k := |q.nets|;
    var q1 := WithNet(q, conf[k]);
    assert forall i :: 0 <= i < k ==> q1.nets[i] == q.nets[i];
    if q.br.Some? {
      var i :| 0 <= i < k && IsDynamic(conf[i]) && conf[i].ifname in q.ifs && q.ifs[conf[i].ifname] == q.br.value;
      assert q1.br == q.br;
    }
    assert IsDynamic(conf[k]) ==> q1.br == Some(q1.ifs[conf[k].ifname]);
  }

  lemma TakeNetKeeps(fixed: set<string>, s: State, r: ReqId)
    requires Inv(fixed, s) && Enabled(s, TakeNet(r))
    ensures Inv(fixed, Next(s, TakeNet(r)))
  {
    var s1 := Next(s, TakeNet(r));
    assert ReqOk(fixed, s, r);
    WithNetOk(s.reqs[r], Conf(s, r));
    assert ReqOk(fixed, s1, r);
    forall b | b in s.owner && s.owner[b] == r ensures OwnerOk(s1, b) {
      assert OwnerOk(s, b);
    }
    ReqFrame(fixed, s, s1, r);
  }

  lemma ListKeeps(fixed: set<string>, s: State, r: ReqId)
    requires Inv(fixed, s) && Enabled(s, List(r))
    ensures Inv(fixed, Next(s, List(r)))
  {
    var s1 := Next(s, List(r));
    assert ReqOk(fixed, s, r);
    assert NetOk(fixed, NextNet(s, r));
    BridgeIsFresh(s.links, Prefix(NextNet(s, r)));
    forall b | b in s.owner && s.owner[b] == r ensures OwnerOk(s1, b) {
      assert OwnerOk(s, b);
    }
    ReqFrame(fixed, s, s1, r);
  }

  lemma AddReqs(fixed: set<string>, s: State, r: ReqId)
    requires Inv(fixed, s) && Enabled(s, Add(r))
    ensures forall q :: q in s.reqs ==> ReqOk(fixed, Next(s, Add(r)), q)
  {
    assert s.lock.name !in s.owner;
    forall q | q in s.reqs ensures ReqOk(fixed, Next(s, Add(r)), q) {
      assert ReqOk(fixed, s, q);
    }
  }

  lemma AddVms(fixed: set<string>, s: State, r: ReqId)
    requires Inv(fixed, s) && Enabled(s, Add(r))
    ensures KeysOk(fixed, Next(s, Add(r))) && forall v :: v in s.vms ==> VmOk(fixed, Next(s, Add(r)), v)
  {
    var s1 := Next(s, Add(r));
    assert s.lock.name !in s.owner;
    forall b | Some(b) in s1.brVm ensures KeyOk(fixed, s1, b) {
      assert KeyOk(fixed, s, b);
    }
    forall v | v in s1.vms ensures VmOk(fixed, s1, v) {
      assert VmOk(fixed, s, v);
    }
  }

  lemma AddKeeps(fixed: set<string>, s: State, r: ReqId)
    requires Inv(fixed, s) && Enabled(s, Add(r))
    ensures Inv(fixed, Next(s, Add(r)))
  {
    var s1 := Next(s, Add(r));
    var n := s.lock.name;
    assert n !in s.owner;
    AddVms(fixed, s, r);
    AddReqs(fixed, s, r);
    forall b | b in s1.owner ensures OwnerOk(s1, b) {
      assert b != n ==> OwnerOk(s, b);
    }
    assert Some(n) !in s.brVm by {
      assert Some(n) in s.brVm ==> KeyOk(fixed, s, n);
    }
    assert n !in s.reqs[r].ifs.Values by {
      assert ReqOk(fixed, s, r);
    }
  }

  lemma UpReqOk(fixed: set<string>, s: State, r: ReqId)
    requires Inv(fixed, s) && Enabled(s, Up(r))
    ensures ReqOk(fixed, Next(s, Up(r)), r)
  {
    var s1 := Next(s, Up(r));
    var q := s.reqs[r];
    var n := NextNet(s, r);
    var conf := Conf(s, r);
    assert ReqOk(fixed, s, r);
    var q1 := q.(ifs := q.ifs[n.ifname := s.lock.name]);
    assert Replaced(q1.ifs, conf, q1.nets);
    assert q.br.None? by {
      assert OneDynamic(conf);
    }
    assert forall i :: 0 <= i < |q.nets| ==> !IsDynamic(conf[i]);
    assert Current(q1, conf);
    WithNetOk(q1, conf);
    assert Injective(q1.ifs);
  }

  lemma UpKeeps(fixed: set<string>, s: State, r: ReqId)
    requires Inv(fixed, s) && Enabled(s, Up(r))
    ensures Inv(fixed, Next(s, Up(r)))
  {
    var s1 := Next(s, Up(r));
    UpReqOk(fixed, s, r);
    forall b | b in s.owner && s.owner[b] == r ensures OwnerOk(s1, b) {
      assert OwnerOk(s, b);
      var ifs, ifs1 := s.reqs[r].ifs, s1.reqs[r].ifs;
      assert NextNet(s, r).ifname in ifs1 && ifs1[NextNet(s, r).ifname] == s.lock.name;
      assert b in ifs.Values ==> b in ifs1.Values by {
        if b in ifs.Values {
          var p :| p in ifs && ifs[p] == b;
          assert p in ifs1 && ifs1[p] == b;
        }
      }
    }
    ReqFrame(fixed, s, s1, r);
  }

  lemma GiveUpKeeps(fixed: set<string>, s: State, r: ReqId)
    requires Inv(fixed, s) && Enabled(s, GiveUp(r))
    ensures Inv(fixed, Next(s, GiveUp(r)))
  {
    var s1 := Next(s, GiveUp(r));
    assert ReqOk(fixed, s, r);
    forall b | b in s.owner && s.owner[b] == r ensures OwnerOk(s1, b) {
      assert OwnerOk(s, b);
    }
    ReqFrame(fixed, s, s1, r);
  }

  // ------------------------------------------------- registration

  lemma BootKeys(fixed: set<string>, s: State, r: ReqId, v: VmId)
    requires Inv(fixed, s) && Enabled(s, Boot(r, v))
    ensures KeysOk(fixed, Booted(s, r, v))
  {
    var s1 := Booted(s, r, v);
    var q := s.reqs[r];
    assert ReqOk(fixed, s, r);
    forall k | k in s1.brVm ensures Distinct(s1.brVm[k]) {
      if k in s.brVm {
        assert v !in s.brVm[k];
      }
    }
    forall b | Some(b) in s1.brVm ensures KeyOk(fixed, s1, b) {
      if Some(b) in s.brVm {
        assert KeyOk(fixed, s, b);
      }
      if q.br == Some(b) {
        assert b in q.ifs.Values && b in s.owner && s.owner[b] == r;
      }
    }
  }

  lemma BootVmOk(fixed: set<string>, s: State, r: ReqId, v: VmId)
    requires Inv(fixed, s) && Enabled(s, Boot(r, v))
    ensures VmOk(fixed, Booted(s, r, v), v)
  {
    var q := s.reqs[r];
    var conf := Conf(s, r);
    assert ReqOk(fixed, s, r);
    forall i | 0 <= i < |q.nets| ensures q.nets[i].ifname in fixed || q.br == Some(q.nets[i].ifname) {
      assert NetOk(fixed, conf[i]);
    }
    if q.br.Some? {
      var i :| 0 <= i < |q.nets| && IsDynamic(conf[i]) && conf[i].ifname in q.ifs
          && q.ifs[conf[i].ifname] == q.br.value;
      assert q.nets[i].ifname == q.br.value;
    }
  }

  lemma BootReqOk(fixed: set<string>, s: State, r: ReqId, v: VmId)
    requires Inv(fixed, s) && Enabled(s, Boot(r, v))
    ensures ReqOk(fixed, Booted(s, r, v), r)
  {
    assert ReqOk(fixed, s, r);
  }

  lemma BootKeeps(fixed: set<string>, s: State, r: ReqId, v: VmId)
    requires Inv(fixed, s) && Enabled(s, Boot(r, v))
    ensures Inv(fixed, Next(s, Boot(r, v)))
  {
    var s1 := Booted(s, r, v);
    BootKeys(fixed, s, r, v);
    BootVmOk(fixed, s, r, v);
    BootReqOk(fixed, s, r, v);
    forall w | w in s1.vms ensures VmOk(fixed, s1, w) {
      assert w != v ==> VmOk(fixed, s, w);
    }
    forall p | p in s1.reqs ensures ReqOk(fixed, s1, p) {
      assert ReqOk(fixed, s, p);
    }
    BootOwners(fixed, s, r, v);
    BootLock(fixed, s, r, v);
  }

  lemma BootOwners(fixed: set<string>, s: State, r: ReqId, v: VmId)
    requires Inv(fixed, s) && Enabled(s, Boot(r, v))
    ensures forall b :: b in s.owner ==> OwnerOk(Booted(s, r, v), b)
  {
    assert ReqOk(fixed, s, r);
    forall b | b in s.owner ensures OwnerOk(Booted(s, r, v), b) {
      assert OwnerOk(s, b);
    }
  }

  lemma BootLock(fixed: set<string>, s: State, r: ReqId, v: VmId)
    requires Inv(fixed, s) && Enabled(s, Boot(r, v))
    ensures LockOk(Booted(s, r, v)) && EmptyOk(Booted(s, r, v))
  {
    assert ReqOk(fixed, s, r);
  }

  // ------------------------------------------------- destroy

  lemma {:induction false} RemoveMembers(vms: seq<VmId>, v: VmId)
    requires Distinct(vms)
    ensures Distinct(Remove(vms, v)) && forall w :: w in Remove(vms, v) <==> w in vms && w != v
    ensures v !in vms ==> Remove(vms, v) == vms
  {
    if vms != [] {
      var rest := vms[1..];
      RemoveMembers(rest, v);
      assert vms == [vms[0]] + rest;
      assert vms[0] !in rest;
      if vms[0] != v {
        DistinctCons(vms[0], Remove(rest, v));
      }
    }
  }

  lemma DistinctCons(w: VmId, vms: seq<VmId>)
    requires Distinct(vms) && w !in vms
    ensures Distinct([w] + vms)
  {
  }

  predicate OnBridge(nets: seq<Net>, k: Option<string>) {
    exists i :: 0 <= i < |nets| && k == Some(nets[i].ifname)
  }

  lemma OnBridgeLast(nets: seq<Net>, k: Option<string>)
    requires nets != []
    ensures OnBridge(nets, k) <==> OnBridge(nets[..|nets| - 1], k) || k == Some(nets[|nets| - 1].ifname)
  {
    var n := |nets| - 1;
    if OnBridge(nets[..n], k) {
      var i :| 0 <= i < n && k == Some(nets[..n][i].ifname);
      assert k == Some(nets[i].ifname);
    }
    if OnBridge(nets, k) && k != Some(nets[n].ifname) {
      var i :| 0 <= i < |nets| && k == Some(nets[i].ifname);
      assert k == Some(nets[..n][i].ifname);
    }
  }

  /** What destroying a VM does to one entry of br_vm, however often the VM's nets repeat
      a bridge. */
  lemma {:induction false} DetachEntry(brVm: map<Option<string>, seq<VmId>>, nets: seq<Net>, v: VmId, k: Option<string>)
    requires k in brVm ==> Distinct(brVm[k])
    ensures k in Detach(brVm, nets, v) <==> k in brVm
    ensures k in brVm ==>
              Detach(brVm, nets, v)[k] ==
              if OnBridge(nets, k) then Remove(brVm[k], v) else brVm[k]
    decreases |nets|
  {
    if nets != [] {
      var n := |nets| - 1;
      DetachEntry(brVm, nets[..n], v, k);
      if k in brVm {
        RemoveMembers(brVm[k], v);
        RemoveMembers(Remove(brVm[k], v), v);
        OnBridgeLast(nets, k);
      }
    }
  }

  /** The table after destroy: the VM is gone from its dynamic bridge and nothing else changes. */
  ghost predicate Detached(s: State, brVm: map<Option<string>, seq<VmId>>, v: VmId)
    requires v in s.vms
  {
    && brVm.Keys == s.brVm.Keys
    && (forall k :: k in brVm && k != s.vms[v].br ==> brVm[k] == s.brVm[k])
    && (s.vms[v].br.None? && None in brVm ==> brVm[None] == s.brVm[None])
    && (s.vms[v].br.Some? && s.vms[v].br in brVm ==>
          var k := s.vms[v].br;
          Distinct(brVm[k]) && forall w :: w in brVm[k] <==> w in s.brVm[k] && w != v)
  }

  lemma DetachIsDetached(fixed: set<string>, s: State, v: VmId)
    requires Inv(fixed, s) && v in s.vms && s.vms[v].live
    ensures Detached(s, Detach(s.brVm, s.vms[v].nets, v), v)
  {
    var vm := s.vms[v];
    assert VmOk(fixed, s, v);
    forall k ensures k in Detach(s.brVm, vm.nets, v) <==> k in s.brVm {
      DetachEntry(s.brVm, vm.nets, v, k);
    }
    forall k | k in s.brVm && k != vm.br
      ensures Detach(s.brVm, vm.nets, v)[k] == s.brVm[k]
    {
      DetachEntry(s.brVm, vm.nets, v, k);
      if k.Some? {
        assert KeyOk(fixed, s, k.value);
      }
    }
    if vm.br in s.brVm {
      DetachEntry(s.brVm, vm.nets, v, vm.br);
      RemoveMembers(s.brVm[vm.br], v);
    }
  }

  lemma DestroyFrame(fixed: set<string>, s: State, v: VmId, s1: State)
    requires Inv(fixed, s) && Enabled(s, Destroy(v)) && Detached(s, s1.brVm, v)
    requires s1 == s.(brVm := s1.brVm, vms := s.vms[v := s.vms[v].(live := false)], pending := s.pending + 1)
    ensures KeysOk(fixed, s1)
    ensures forall w :: w in s1.vms ==> VmOk(fixed, s1, w)
  {
    assert VmOk(fixed, s, v);
    forall b | Some(b) in s1.brVm ensures KeyOk(fixed, s1, b) {
      assert KeyOk(fixed, s, b);
    }
    forall w | w in s1.vms ensures VmOk(fixed, s1, w) {
      assert VmOk(fixed, s, w);
    }
  }

  lemma DestroyKeeps(fixed: set<string>, s: State, v: VmId)
    requires Inv(fixed, s) && Enabled(s, Destroy(v))
    ensures Inv(fixed, Next(s, Destroy(v)))
  {
    var s1 := Next(s, Destroy(v));
    DetachIsDetached(fixed, s, v);
    DestroyFrame(fixed, s, v, s1);
    DestroyReqs(fixed, s, v, s1);
  }

  lemma DestroyReqs(fixed: set<string>, s: State, v: VmId, s1: State)
    requires Inv(fixed, s) && Enabled(s, Destroy(v)) && Detached(s, s1.brVm, v)
    requires s1 == s.(brVm := s1.brVm, vms := s.vms[v := s.vms[v].(live := false)], pending := s.pending + 1)
    ensures LockOk(s1) && (forall r :: r in s1.reqs ==> ReqOk(fixed, s1, r))
    ensures forall b :: b in s1.owner ==> OwnerOk(s1, b)
  {
    forall r | r in s1.reqs ensures ReqOk(fixed, s1, r) {
      assert ReqOk(fixed, s, r);
    }
    forall b | b in s1.owner ensures OwnerOk(s1, b) {
      assert OwnerOk(s, b);
    }
  }

  // ------------------------------------------------- cleanup_net

  lemma LockOnlyFrame(fixed: set<string>, s: State, s1: State)
    requires Inv(fixed, s) && s1 == s.(lock := s1.lock, pending := s1.pending, aborted := s1.aborted)
    requires !s.lock.Added?
    requires forall b :: Deleted(s1, b) <==> Deleted(s, b)
    requires LockOk(s1) && EmptyOk(s1)
    ensures Inv(fixed, s1)
  {
    forall b | Some(b) in s1.brVm ensures KeyOk(fixed, s1, b) {
      assert KeyOk(fixed, s, b);
    }
    forall v | v in s1.vms ensures VmOk(fixed, s1, v) {
      assert VmOk(fixed, s, v);
    }
    forall r | r in s1.reqs ensures ReqOk(fixed, s1, r) {
      assert ReqOk(fixed, s, r);
    }
    forall b | b in s1.owner ensures OwnerOk(s1, b) {
      assert OwnerOk(s, b);
    }
  }

  /** The bridge of an empty entry: its request is over, and none of its VMs is left on it. */
  lemma EmptyIsUnused(fixed: set<string>, s: State, b: string)
    requires Inv(fixed, s) && Some(b) in s.brVm && s.brVm[Some(b)] == [] && !Deleted(s, b)
    ensures b !in fixed && b in s.owner && s.owner[b] in s.reqs && s.reqs[s.owner[b]].status.Ready?
    ensures forall v :: v in s.vms && s.vms[v].live ==> s.vms[v].br != Some(b)
  {
    assert KeyOk(fixed, s, b);
    forall v | v in s.vms && s.vms[v].live ensures s.vms[v].br != Some(b) {
      assert VmOk(fixed, s, v);
    }
  }

  lemma VisitKeeps(fixed: set<string>, s: State, k: Option<string>)
    requires Inv(fixed, s) && Enabled(s, CleanVisit(k))
    ensures Inv(fixed, Visit(s, k))
  {
    var s1 := Visit(s, k);
    if s.brVm[k] != [] {
      LockOnlyFrame(fixed, s, s1);
    } else {
      EmptyIsUnused(fixed, s, k.value);
      DeleteKeeps(fixed, s, k.value);
    }
  }

  lemma DeleteKeeps(fixed: set<string>, s: State, b: string)
    requires Inv(fixed, s) && Enabled(s, CleanVisit(Some(b))) && s.brVm[Some(b)] == [] && !Deleted(s, b)
    requires b !in fixed && b in s.owner && s.owner[b] in s.reqs && s.reqs[s.owner[b]].status.Ready?
    requires forall v :: v in s.vms && s.vms[v].live ==> s.vms[v].br != Some(b)
    ensures Inv(fixed, Visit(s, Some(b)))
  {
    var s1 := Visit(s, Some(b));
    forall c | Some(c) in s1.brVm ensures KeyOk(fixed, s1, c) {
      assert KeyOk(fixed, s, c);
    }
    forall v | v in s1.vms ensures VmOk(fixed, s1, v) {
      assert VmOk(fixed, s, v);
    }
    forall r | r in s1.reqs ensures ReqOk(fixed, s1, r) {
      assert ReqOk(fixed, s, r);
    }
    forall c | c in s1.owner ensures OwnerOk(s1, c) {
      assert OwnerOk(s, c);
    }
  }

  lemma CleanEndKeeps(fixed: set<string>, s: State)
    requires Inv(fixed, s) && Enabled(s, CleanEnd)
    ensures Inv(fixed, Next(s, CleanEnd))
  {
    var s1 := Next(s, CleanEnd);
    forall b | Some(b) in s1.brVm ensures KeyOk(fixed, s1, b) {
      assert KeyOk(fixed, s, b);
    }
    forall v | v in s1.vms ensures VmOk(fixed, s1, v) {
      assert VmOk(fixed, s, v);
      assert s.vms[v].br.Some? && s.vms[v].br in s.brVm ==> KeyOk(fixed, s, s.vms[v].br.value);
    }
    forall r | r in s1.reqs ensures ReqOk(fixed, s1, r) {
      assert ReqOk(fixed, s, r);
      forall p | p in s.reqs[r].ifs && Some(s.reqs[r].ifs[p]) in s.brVm ensures KeyOk(fixed, s, s.reqs[r].ifs[p]) {}
    }
    forall b | b in s1.owner ensures OwnerOk(s1, b) {
      assert OwnerOk(s, b);
      assert Some(b) in s.brVm ==> KeyOk(fixed, s, b);
    }
  }

  lemma NextKeeps(fixed: set<string>, s: State, a: Action)
    requires Inv(fixed, s) && Enabled(s, a) && ActionOk(fixed, a) && Benign(s, a)
    requires a.GetVms? ==> OneDynamics(a.confs)
    ensures Inv(fixed, Next(s, a))
  {
    match a
    case GetVms(r, confs) => GetVmsKeeps(fixed, s, r, confs);
    case TakeNet(r) => TakeNetKeeps(fixed, s, r);
    case List(r) => ListKeeps(fixed, s, r);
    case Add(r) => AddKeeps(fixed, s, r);
    case Up(r) => UpKeeps(fixed, s, r);
    case Boot(r, v) => BootKeeps(fixed, s, r, v);
    case GiveUp(r) => GiveUpKeeps(fixed, s, r);
    case Destroy(v) => DestroyKeeps(fixed, s, v);
    case DestroyOther => PendingKeeps(fixed, s, Next(s, a));
    case CleanStart => LockOnlyFrame(fixed, s, Next(s, a));
    case CleanVisit(k) => VisitKeeps(fixed, s, k);
    case CleanEnd => CleanEndKeeps(fixed, s);
    case CleanAbort => LockOnlyFrame(fixed, s, Next(s, a));
    case CleanCancel => PendingKeeps(fixed, s, Next(s, a));
  }

  lemma PendingKeeps(fixed: set<string>, s: State, s1: State)
    requires Inv(fixed, s) && s1 == s.(pending := s1.pending, aborted := s1.aborted)
    requires s1.pending >= s.pending || s1.aborted
    requires s.aborted ==> s1.aborted
    ensures Inv(fixed, s1)
  {
    forall b | Some(b) in s1.brVm ensures KeyOk(fixed, s1, b) {
      assert KeyOk(fixed, s, b);
    }
    forall v | v in s1.vms ensures VmOk(fixed, s1, v) {
      assert VmOk(fixed, s, v);
    }
    forall r | r in s1.reqs ensures ReqOk(fixed, s1, r) {
      assert ReqOk(fixed, s, r);
    }
    forall b | b in s1.owner ensures OwnerOk(s1, b) {
      assert OwnerOk(s, b);
    }
  }

  lemma {:induction false} RunKeeps(fixed: set<string>, s: State, acts: seq<Action>)
    requires Inv(fixed, s) && ValidRun(fixed, s, acts) && BenignRun(fixed, s, acts) && AsksOneDynamic(acts)
    ensures Inv(fixed, Final(fixed, s, acts))
    decreases |acts|
  {
    if acts != [] {
      NextKeeps(fixed, s, acts[0]);
      RunKeeps(fixed, Next(s, acts[0]), acts[1..]);
    }
  }
}
