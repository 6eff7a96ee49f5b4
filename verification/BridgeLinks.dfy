/**
 Exactly when the links of running VMs are safe: when no configuration ends with a placeholder
 that occurs, but not last, in another.
 */
module BridgeLinks {
  import opened Options
  import opened Bridges
  import opened BridgeInvariant
  import opened BridgeBasics
  import opened BridgeNaming
  import opened BridgeCounting

  /** The placeholder under whose bridge a VM is registered. */
  function LastDynamic(conf: seq<Net>): Option<string>
    decreases |conf|
  {
    if conf == [] then None
    else if IsDynamic(conf[|conf| - 1]) then Some(conf[|conf| - 1].ifname)
    else LastDynamic(conf[..|conf| - 1])
  }

  predicate Occurs(conf: seq<Net>, p: string) {
    exists i :: 0 <= i < |conf| && IsDynamic(conf[i]) && conf[i].ifname == p
  }

  /** A VM like `c` keeps the bridge that a VM like `d` is on too, without being counted for it. */
  predicate Crossed(c: seq<Net>, d: seq<Net>) {
    LastDynamic(c).Some? && Occurs(d, LastDynamic(c).value) && LastDynamic(d) != LastDynamic(c)
  }

  predicate Uncrossed(confs: set<seq<Net>>) {
    forall c, d :: c in confs && d in confs ==> !Crossed(c, d)
  }

  lemma {:induction false} LastOccurs(conf: seq<Net>)
    ensures LastDynamic(conf).Some? ==> Occurs(conf, LastDynamic(conf).value)
    ensures LastDynamic(conf).None? ==> forall i :: 0 <= i < |conf| ==> !IsDynamic(conf[i])
    decreases |conf|
  {
    if conf != [] {
      var front := conf[..|conf| - 1];
      LastOccurs(front);
      if !IsDynamic(conf[|conf| - 1]) && LastDynamic(front).Some? {
        var i :| 0 <= i < |front| && IsDynamic(front[i]) && front[i].ifname == LastDynamic(front).value;
        assert IsDynamic(conf[i]) && conf[i].ifname == LastDynamic(conf).value;
      }
    }
  }

  /** `br` is the bridge of the last placeholder. */
  predicate LastIs(ifs: map<string, string>, conf: seq<Net>, br: Option<string>) {
    match LastDynamic(conf)
    case None => br.None?
    case Some(p) => p in ifs && br == Some(ifs[p])
  }

  predicate Extends(ifs: map<string, string>, more: map<string, string>) {
    forall p :: p in ifs ==> p in more && more[p] == ifs[p]
  }

  lemma LastNext(q: Req, conf: seq<Net>)
    requires |q.nets| < |conf| && LastIs(q.ifs, conf[..|q.nets|], q.br)
    requires IsDynamic(conf[|q.nets|]) ==> conf[|q.nets|].ifname in q.ifs
    ensures var q1 := WithNet(q, conf[|q.nets|]); LastIs(q1.ifs, conf[..|q1.nets|], q1.br)
  {
    var k := |q.nets|;
    assert conf[..k + 1][..k] == conf[..k];
  }

  // ------------------------------------------------- the invariant

  /** VM `k` of request `r` is registered under its last placeholder, and while it runs it is
      listed there and its request owns all its bridges. */
  predicate VmLinked(s: State, r: ReqId, k: nat)
    requires r in s.reqs && k < |s.reqs[r].vms| <= |s.reqs[r].confs|
  {
    var q := s.reqs[r];
    var v, conf := q.vms[k], q.confs[k];
    && v in s.vms && s.vms[v].req == r && LastIs(q.ifs, conf, s.vms[v].br)
    && (s.vms[v].live ==>
          && (s.vms[v].br.Some? ==> s.vms[v].br in s.brVm && v in s.brVm[s.vms[v].br])
          && forall i :: 0 <= i < |conf| && IsDynamic(conf[i]) ==>
               conf[i].ifname in q.ifs && q.ifs[conf[i].ifname] in s.owner && s.owner[q.ifs[conf[i].ifname]] == r)
  }

  predicate ReqLinked(confs: set<seq<Net>>, s: State, r: ReqId)
    requires r in s.reqs
  {
    var q := s.reqs[r];
    && |q.vms| <= |q.confs| && (forall k :: 0 <= k < |q.confs| ==> q.confs[k] in confs)
    && (q.status.Running? ==>
          && |q.vms| < |q.confs| && |q.nets| <= |q.confs[|q.vms|]|
          && LastIs(q.ifs, q.confs[|q.vms|][..|q.nets|], q.br))
    && (forall k :: 0 <= k < |q.vms| ==> VmLinked(s, r, k))
  }

  /** An entry of br_vm is the bridge of the last placeholder of some VM. */
  predicate KeyLinked(s: State, b: string) {
    Deleted(s, b) ||
    (&& b in s.owner && s.owner[b] in s.reqs
     && var q := s.reqs[s.owner[b]];
        && |q.vms| <= |q.confs|
        && exists k :: 0 <= k < |q.vms| && LastIs(q.ifs, q.confs[k], Some(b)))
  }

  predicate VmListed(s: State, v: VmId)
    requires v in s.vms
  {
    s.vms[v].req in s.reqs && v in s.reqs[s.vms[v].req].vms
  }

  ghost predicate Linked(confs: set<seq<Net>>, s: State) {
    && (forall r :: r in s.reqs ==> ReqLinked(confs, s, r))
    && (forall b :: Some(b) in s.brVm ==> KeyLinked(s, b))
    && (forall v :: v in s.vms ==> VmListed(s, v))
  }

  // ------------------------------------------------- what keeps it

  predicate SameReq(q: Req, q1: Req) {
    q.vms <= q1.vms && q1.confs == q.confs && Extends(q.ifs, q1.ifs)
  }

  predicate SameVm(vm: Vm, vm1: Vm) {
    vm1 == vm || vm1 == vm.(live := false)
  }

  /** Requests keep their VMs and configurations, and `ifs` grows; lists keep running VMs; bridges of
      running VMs keep their owner. */
  ghost predicate Calm(s: State, s1: State) {
    && (forall v :: v in s.vms ==> v in s1.vms && SameVm(s.vms[v], s1.vms[v]))
    && (forall r :: r in s.reqs ==> r in s1.reqs && SameReq(s.reqs[r], s1.reqs[r]))
    && (forall k, v :: k in s.brVm && v in s.brVm[k] && v in s1.vms && s1.vms[v].live ==>
          k in s1.brVm && v in s1.brVm[k])
    && (forall b :: b in s.owner && LiveOn(s, b) ==> b in s1.owner && s1.owner[b] == s.owner[b])
  }

  /** Some running VM has a net on `b`, through a placeholder of its request. */
  ghost predicate LiveOn(s: State, b: string) {
    exists r: ReqId, k: nat, i: nat :: LiveNet(s, r, k, i, b)
  }

  predicate LiveNet(s: State, r: ReqId, k: nat, i: nat, b: string) {
    && r in s.reqs && k < |s.reqs[r].vms| && k < |s.reqs[r].confs| && i < |s.reqs[r].confs[k]|
    && s.reqs[r].vms[k] in s.vms && s.vms[s.reqs[r].vms[k]].live && IsDynamic(s.reqs[r].confs[k][i])
    && s.reqs[r].confs[k][i].ifname in s.reqs[r].ifs && s.reqs[r].ifs[s.reqs[r].confs[k][i].ifname] == b
  }

  lemma CalmVm(s: State, s1: State, r: ReqId, k: nat)
    requires Calm(s, s1) && r in s.reqs && k < |s.reqs[r].vms| <= |s.reqs[r].confs| && VmLinked(s, r, k)
    requires r in s1.reqs && |s1.reqs[r].vms| <= |s1.reqs[r].confs|
    ensures VmLinked(s1, r, k)
  {
    var q, q1 := s.reqs[r], s1.reqs[r];
    var v, conf := q.vms[k], q.confs[k];
    assert SameReq(q, q1) && SameVm(s.vms[v], s1.vms[v]);
    if s1.vms[v].live {
      forall i | 0 <= i < |conf| && IsDynamic(conf[i])
        ensures conf[i].ifname in q1.ifs && q1.ifs[conf[i].ifname] in s1.owner && s1.owner[q1.ifs[conf[i].ifname]] == r
      {
        assert LiveNet(s, r, k, i, q.ifs[conf[i].ifname]);
      }
    }
  }

  /** What the record of a request must say about the VM in preparation. */
  predicate RecordOk(confs: set<seq<Net>>, q: Req) {
    && |q.vms| <= |q.confs| && (forall k :: 0 <= k < |q.confs| ==> q.confs[k] in confs)
    && (q.status.Running? ==>
          && |q.vms| < |q.confs| && |q.nets| <= |q.confs[|q.vms|]|
          && LastIs(q.ifs, q.confs[|q.vms|][..|q.nets|], q.br))
  }

  /** The VMs of the new state that are not in the old one are as they should be. */
  ghost predicate NewVmsOk(s: State, s1: State) {
    && (forall r, k :: r in s1.reqs && 0 <= k < |s1.reqs[r].vms| <= |s1.reqs[r].confs| ==>
          (r in s.reqs && k < |s.reqs[r].vms|) || VmLinked(s1, r, k))
    && (forall v :: v in s1.vms && v !in s.vms ==> VmListed(s1, v))
  }

  ghost predicate NewKeysOk(s: State, s1: State) {
    forall b :: Some(b) in s1.brVm && !Deleted(s1, b) ==>
      || KeyLinked(s1, b)
      || (Some(b) in s.brVm && !Deleted(s, b) && (b in s.owner ==> b in s1.owner && s1.owner[b] == s.owner[b]))
  }

  lemma CalmReqs(confs: set<seq<Net>>, s: State, s1: State)
    requires Linked(confs, s) && Calm(s, s1) && NewVmsOk(s, s1)
    requires forall r :: r in s1.reqs ==> RecordOk(confs, s1.reqs[r])
    ensures forall r :: r in s1.reqs ==> ReqLinked(confs, s1, r)
  {
    forall r | r in s1.reqs ensures ReqLinked(confs, s1, r) {
      forall k | 0 <= k < |s1.reqs[r].vms| ensures VmLinked(s1, r, k) {
        if r in s.reqs && k < |s.reqs[r].vms| {
          assert ReqLinked(confs, s, r);
          CalmVm(s, s1, r, k);
        }
      }
    }
  }

  lemma CalmKey(s: State, s1: State, b: string)
    requires Calm(s, s1) && KeyLinked(s, b) && !Deleted(s, b) && b in s1.owner && s1.owner[b] == s.owner[b]
    requires s.owner[b] in s1.reqs && |s1.reqs[s.owner[b]].vms| <= |s1.reqs[s.owner[b]].confs|
    ensures KeyLinked(s1, b)
  {
    var q, q1 := s.reqs[s.owner[b]], s1.reqs[s.owner[b]];
    var k :| 0 <= k < |q.vms| && LastIs(q.ifs, q.confs[k], Some(b));
    assert SameReq(q, q1) && LastIs(q1.ifs, q1.confs[k], Some(b));
  }

  lemma CalmLinked(confs: set<seq<Net>>, s: State, s1: State)
    requires Linked(confs, s) && Calm(s, s1) && NewVmsOk(s, s1) && NewKeysOk(s, s1)
    requires forall r :: r in s1.reqs ==> RecordOk(confs, s1.reqs[r])
    ensures Linked(confs, s1)
  {
    CalmReqs(confs, s, s1);
    forall b | Some(b) in s1.brVm ensures KeyLinked(s1, b) {
      if !Deleted(s1, b) && Some(b) in s.brVm && !KeyLinked(s1, b) {
        assert KeyLinked(s, b);
        CalmKey(s, s1, b);
      }
    }
    forall v | v in s1.vms ensures VmListed(s1, v) {
      if v in s.vms {
        assert VmListed(s, v) && SameVm(s.vms[v], s1.vms[v]) && SameReq(s.reqs[s.vms[v].req], s1.reqs[s.vms[v].req]);
      }
    }
  }

  lemma RecordsOk(confs: set<seq<Net>>, s: State)
    requires Linked(confs, s)
    ensures forall r :: r in s.reqs ==> RecordOk(confs, s.reqs[r])
  {
    forall r | r in s.reqs ensures RecordOk(confs, s.reqs[r]) {
      assert ReqLinked(confs, s, r);
    }
  }

  // ------------------------------------------------- steps of get_vms

  /** Only the record of request `r` changes, and the lock, and links are added. */
  lemma RecordLinked(confs: set<seq<Net>>, s: State, s1: State, r: ReqId)
    requires Linked(confs, s) && r in s1.reqs && s1.reqs == s.reqs[r := s1.reqs[r]] && RecordOk(confs, s1.reqs[r])
    requires s1.vms == s.vms && s1.brVm == s.brVm && !s1.lock.Cleaning? == !s.lock.Cleaning?
    requires s.lock.Cleaning? ==> s1.lock == s.lock
    requires forall b :: b in s.owner ==> b in s1.owner && s1.owner[b] == s.owner[b]
    requires if r in s.reqs then s1.reqs[r].vms == s.reqs[r].vms && SameReq(s.reqs[r], s1.reqs[r])
        else s1.reqs[r].vms == []
    ensures Linked(confs, s1)
  {
    RecordsOk(confs, s);
    assert Calm(s, s1);
    assert NewVmsOk(s, s1);
    assert NewKeysOk(s, s1);
    CalmLinked(confs, s, s1);
  }

  lemma TakeNetLinked(confs: set<seq<Net>>, s: State, r: ReqId)
    requires Linked(confs, s) && Enabled(s, TakeNet(r))
    ensures Linked(confs, Next(s, TakeNet(r)))
  {
    assert ReqLinked(confs, s, r);
    LastNext(s.reqs[r], Conf(s, r));
    RecordLinked(confs, s, Next(s, TakeNet(r)), r);
  }

  lemma UpLinked(confs: set<seq<Net>>, s: State, r: ReqId)
    requires Linked(confs, s) && Enabled(s, Up(r))
    ensures Linked(confs, Next(s, Up(r)))
  {
    assert ReqLinked(confs, s, r);
    var q := s.reqs[r];
    var q1 := q.(ifs := q.ifs[NextNet(s, r).ifname := s.lock.name]);
    LastNext(q1, Conf(s, r));
    RecordLinked(confs, s, Next(s, Up(r)), r);
  }

  lemma OtherRecordLinked(fixed: set<string>, confs: set<seq<Net>>, s: State, a: Action)
    requires Basic(fixed, s) && Linked(confs, s) && Enabled(s, a) && (a.GetVms? || a.List? || a.Add? || a.GiveUp?)
    requires a.GetVms? ==> forall k :: 0 <= k < |a.confs| ==> a.confs[k] in confs
    ensures Linked(confs, Next(s, a))
  {
    if !a.GetVms? {
      assert ReqLinked(confs, s, a.r);
    }
    RecordLinked(confs, s, Next(s, a), a.r);
  }

  // ------------------------------------------------- registration

  lemma BootVmLinked(fixed: set<string>, confs: set<seq<Net>>, s: State, r: ReqId, v: VmId)
    requires Basic(fixed, s) && Enabled(s, Boot(r, v)) && ReqLinked(confs, s, r)
    ensures VmLinked(Booted(s, r, v), r, |s.reqs[r].vms|)
  {
    var q, conf := s.reqs[r], Conf(s, r);
    assert ReqBasic(fixed, s, r);
    assert |q.nets| == |conf| && conf[..|q.nets|] == conf;
  }

  lemma BootCalm(fixed: set<string>, confs: set<seq<Net>>, s: State, r: ReqId, v: VmId)
    requires Basic(fixed, s) && Linked(confs, s) && Enabled(s, Boot(r, v))
    ensures Calm(s, Booted(s, r, v))
  {
  }

  lemma BootNewVms(fixed: set<string>, confs: set<seq<Net>>, s: State, r: ReqId, v: VmId)
    requires Basic(fixed, s) && Linked(confs, s) && Enabled(s, Boot(r, v))
    ensures NewVmsOk(s, Booted(s, r, v))
  {
    assert ReqLinked(confs, s, r);
    BootVmLinked(fixed, confs, s, r, v);
  }

  lemma BootKeyLinked(fixed: set<string>, confs: set<seq<Net>>, s: State, r: ReqId, v: VmId)
    requires Basic(fixed, s) && Linked(confs, s) && Enabled(s, Boot(r, v)) && s.reqs[r].br.Some?
    ensures KeyLinked(Booted(s, r, v), s.reqs[r].br.value)
  {
    var s1, b, k := Booted(s, r, v), s.reqs[r].br.value, |s.reqs[r].vms|;
    assert ReqLinked(confs, s, r) && ReqBasic(fixed, s, r);
    BootVmLinked(fixed, confs, s, r, v);
    assert s1.reqs[r].vms[k] == v && LastIs(s1.reqs[r].ifs, s1.reqs[r].confs[k], Some(b));
  }

  lemma BootLinked(fixed: set<string>, confs: set<seq<Net>>, s: State, r: ReqId, v: VmId)
    requires Basic(fixed, s) && Linked(confs, s) && Enabled(s, Boot(r, v))
    ensures Linked(confs, Next(s, Boot(r, v)))
  {
    var s1 := Booted(s, r, v);
    RecordsOk(confs, s);
    BootCalm(fixed, confs, s, r, v);
    BootNewVms(fixed, confs, s, r, v);
    if s.reqs[r].br.Some? {
      BootKeyLinked(fixed, confs, s, r, v);
    }
    assert NewKeysOk(s, s1);
    BootRecord(confs, s, r, v);
    CalmLinked(confs, s, s1);
  }

  lemma BootRecord(confs: set<seq<Net>>, s: State, r: ReqId, v: VmId)
    requires Enabled(s, Boot(r, v)) && RecordOk(confs, s.reqs[r])
    ensures RecordOk(confs, Booted(s, r, v).reqs[r])
  {
    var q := Booted(s, r, v).reqs[r];
    if q.status.Running? {
      assert q.confs[|q.vms|][..0] == [];
    }
  }

  // ------------------------------------------------- destroy and cleanup_net

  lemma {:induction false} RemoveKeeps(vms: seq<VmId>, v: VmId, w: VmId)
    requires w in vms && w != v
    ensures w in Remove(vms, v)
  {
    if vms[0] != v && vms[0] != w {
      RemoveKeeps(vms[1..], v, w);
    }
  }

  lemma {:induction false} DetachKeeps(brVm: map<Option<string>, seq<VmId>>, nets: seq<Net>, v: VmId,
      k: Option<string>, w: VmId)
    requires k in brVm && w in brVm[k] && w != v
    ensures k in Detach(brVm, nets, v) && w in Detach(brVm, nets, v)[k]
    decreases |nets|
  {
    if nets != [] {
      DetachKeeps(brVm, nets[..|nets| - 1], v, k, w);
      RemoveKeeps(Detach(brVm, nets[..|nets| - 1], v)[k], v, w);
    }
  }

  lemma DestroyLinked(confs: set<seq<Net>>, s: State, v: VmId)
    requires Linked(confs, s) && Enabled(s, Destroy(v))
    ensures Linked(confs, Next(s, Destroy(v)))
  {
    var s1 := Next(s, Destroy(v));
    RecordsOk(confs, s);
    forall k, w | k in s.brVm && w in s.brVm[k] && w in s1.vms && s1.vms[w].live
      ensures k in s1.brVm && w in s1.brVm[k]
    {
      DetachKeeps(s.brVm, s.vms[v].nets, v, k, w);
    }
    forall k ensures k in s1.brVm <==> k in s.brVm {
      DetachBasic(s.brVm, s.vms[v].nets, v, k);
    }
    assert Calm(s, s1) && NewVmsOk(s, s1) && NewKeysOk(s, s1);
    CalmLinked(confs, s, s1);
  }

  /** A bridge with a running VM has a non-empty entry, if it has one. */
  lemma LiveIsCounted(fixed: set<string>, confs: set<seq<Net>>, s: State, b: string)
    requires Uncrossed(confs) && Basic(fixed, s) && Linked(confs, s) && Some(b) in s.brVm && !Deleted(s, b)
        && LiveOn(s, b)
    requires forall r :: r in s.reqs ==> Injective(s.reqs[r].ifs)
    ensures s.brVm[Some(b)] != []
  {
    var r: ReqId, k: nat, i: nat :| LiveNet(s, r, k, i, b);
    assert ReqLinked(confs, s, r) && VmLinked(s, r, k) && KeyLinked(s, b);
    var q := s.reqs[r];
    assert s.owner[b] == r;
    var l :| 0 <= l < |q.vms| && LastIs(q.ifs, q.confs[l], Some(b));
    var c, d, p := q.confs[l], q.confs[k], q.confs[k][i].ifname;
    assert LastDynamic(c) == Some(p);
    assert Occurs(d, p);
    assert !Crossed(c, d);
    assert s.vms[q.vms[k]].br == Some(b);
  }

  lemma VisitLinked(fixed: set<string>, confs: set<seq<Net>>, s: State, k: Option<string>)
    requires Uncrossed(confs) && Basic(fixed, s) && Linked(confs, s) && Enabled(s, CleanVisit(k))
    requires forall r :: r in s.reqs ==> Injective(s.reqs[r].ifs)
    ensures Linked(confs, Visit(s, k))
  {
    RecordsOk(confs, s);
    if s.brVm[k] == [] && k.Some? {
      assert !LiveOn(s, k.value) by {
        if LiveOn(s, k.value) {
          LiveIsCounted(fixed, confs, s, k.value);
        }
      }
      DeleteCalm(s, k.value);
    } else if s.brVm[k] != [] {
      VisitNothing(s, k);
    }
    CalmLinked(confs, s, Visit(s, k));
  }

  lemma DeleteCalm(s: State, b: string)
    requires Enabled(s, CleanVisit(Some(b))) && s.brVm[Some(b)] == [] && !LiveOn(s, b)
    ensures var s1 := Visit(s, Some(b)); Calm(s, s1) && NewVmsOk(s, s1) && NewKeysOk(s, s1)
  {
  }

  lemma VisitNothing(s: State, k: Option<string>)
    requires Enabled(s, CleanVisit(k)) && s.brVm[k] != []
    ensures Calm(s, Visit(s, k)) && NewVmsOk(s, Visit(s, k)) && NewKeysOk(s, Visit(s, k))
  {
  }

  lemma CleanEndLinked(fixed: set<string>, confs: set<seq<Net>>, s: State)
    requires Basic(fixed, s) && Linked(confs, s) && Enabled(s, CleanEnd)
    ensures Linked(confs, Next(s, CleanEnd))
  {
    var s1 := Next(s, CleanEnd);
    RecordsOk(confs, s);
    forall k | k in s.lock.clean ensures k in s.brVm && s.brVm[k] == [] {
      assert KeyBasic(fixed, s, k.value);
    }
    assert Calm(s, s1) && NewVmsOk(s, s1);
    assert NewKeysOk(s, s1);
    CalmLinked(confs, s, s1);
  }

  lemma LockLinked(confs: set<seq<Net>>, s: State, s1: State)
    requires Linked(confs, s) && s1 == s.(lock := s1.lock, pending := s1.pending, aborted := s1.aborted)
    requires forall b :: Deleted(s1, b) <==> Deleted(s, b)
    ensures Linked(confs, s1)
  {
    RecordsOk(confs, s);
    assert Calm(s, s1) && NewVmsOk(s, s1) && NewKeysOk(s, s1);
    CalmLinked(confs, s, s1);
  }

  lemma NextLinked(fixed: set<string>, confs: set<seq<Net>>, s: State, a: Action)
    requires Uncrossed(confs) && Basic(fixed, s) && Linked(confs, s) && Enabled(s, a) && Benign(s, a)
    requires a.GetVms? ==> forall k :: 0 <= k < |a.confs| ==> a.confs[k] in confs
    ensures Linked(confs, Next(s, a))
  {
    match a
    case TakeNet(r) => TakeNetLinked(confs, s, r);
    case Up(r) => UpLinked(confs, s, r);
    case GetVms(_, _) => OtherRecordLinked(fixed, confs, s, a);
    case List(_) => OtherRecordLinked(fixed, confs, s, a);
    case Add(_) => OtherRecordLinked(fixed, confs, s, a);
    case GiveUp(_) => OtherRecordLinked(fixed, confs, s, a);
    case Boot(r, v) => BootLinked(fixed, confs, s, r, v);
    case Destroy(v) => DestroyLinked(confs, s, v);
    case CleanVisit(k) =>
      forall r | r in s.reqs ensures ReqBasic(fixed, s, r) {
      }
      VisitLinked(fixed, confs, s, k);
    case CleanEnd => CleanEndLinked(fixed, confs, s);
    case DestroyOther => LockLinked(confs, s, Next(s, a));
    case CleanStart => LockLinked(confs, s, Next(s, a));
    case CleanAbort => LockLinked(confs, s, Next(s, a));
    case CleanCancel => LockLinked(confs, s, Next(s, a));
  }

  lemma {:induction false} LinkedRun(fixed: set<string>, confs: set<seq<Net>>, s: State, acts: seq<Action>)
    requires Uncrossed(confs) && Basic(fixed, s) && Linked(confs, s)
    requires ValidRun(fixed, s, acts) && BenignRun(fixed, s, acts) && AsksOnly(acts, confs)
    ensures Linked(confs, Final(fixed, s, acts))
    decreases |acts|
  {
    if acts != [] {
      assert AsksOnly(acts[1..], confs) by {
        assert forall i :: 0 <= i < |acts| - 1 ==> acts[1..][i] == acts[i + 1];
      }
      NextLinked(fixed, confs, s, acts[0]);
      NextBasic(fixed, s, acts[0]);
      LinkedRun(fixed, confs, Next(s, acts[0]), acts[1..]);
    }
  }

  lemma LinkedIsOn(fixed: set<string>, confs: set<seq<Net>>, s: State, v: VmId, i: nat)
    requires Basic(fixed, s) && Linked(confs, s) && Substituted(s)
    requires v in s.vms && s.vms[v].live && i < |s.vms[v].nets|
    ensures s.vms[v].nets[i].ifname in s.links
  {
    assert VmListed(s, v);
    var r := s.vms[v].req;
    var q := s.reqs[r];
    var k :| 0 <= k < |q.vms| && q.vms[k] == v;
    assert ReqLinked(confs, s, r) && VmLinked(s, r, k) && VmsSubstituted(s, r) && ReqBasic(fixed, s, r);
    assert NetsOk(fixed, q.confs[k]) && NetOk(fixed, q.confs[k][i]);
    assert s.vms[v].nets[i] == Subst(q.ifs, q.confs[k][i]);
  }

  lemma UncrossedOnLinks(fixed: set<string>, confs: set<seq<Net>>, acts: seq<Action>)
    requires Uncrossed(confs) && RunOf(fixed, confs, acts)
    ensures OnLinks(Final(fixed, Init(fixed), acts))
  {
    var s := Final(fixed, Init(fixed), acts);
    InitBasic(fixed);
    InitNamed(fixed);
    BasicRun(fixed, Init(fixed), acts);
    SubstitutedRun(fixed, Init(fixed), acts);
    LinkedRun(fixed, confs, Init(fixed), acts);
    forall v, i | v in s.vms && s.vms[v].live && 0 <= i < |s.vms[v].nets| ensures s.vms[v].nets[i].ifname in s.links {
      LinkedIsOn(fixed, confs, s, v, i);
    }
  }

  // ------------------------------------------------- crossed configurations

  ghost predicate ReachedOf(fixed: set<string>, confs: set<seq<Net>>, acts: seq<Action>, s: State) {
    RunOf(fixed, confs, acts) && Final(fixed, Init(fixed), acts) == s
  }

  lemma Then(fixed: set<string>, confs: set<seq<Net>>, acts: seq<Action>, s: State, a: Action)
    returns (more: seq<Action>, s1: State)
    requires ReachedOf(fixed, confs, acts, s) && Enabled(s, a) && ActionOk(fixed, a) && Benign(s, a)
    requires a.GetVms? ==> forall k :: 0 <= k < |a.confs| ==> a.confs[k] in confs
    ensures ReachedOf(fixed, confs, more, s1) && s1 == Next(s, a)
  {
    RunExtends(fixed, Init(fixed), acts, a);
    more, s1 := acts + [a], Next(s, a);
  }

  lemma ReachedBasic(fixed: set<string>, confs: set<seq<Net>>, acts: seq<Action>, s: State)
    requires ReachedOf(fixed, confs, acts, s) && 0 in s.reqs
    ensures Basic(fixed, s) && ReqBasic(fixed, s, 0)
  {
    InitBasic(fixed);
    BasicRun(fixed, Init(fixed), acts);
  }

  /** Nothing but links and the record of request 0 changes while its nets are prepared. */
  predicate OnlyPrepared(s: State, s1: State) {
    && s1 == s.(links := s1.links, owner := s1.owner, reqs := s1.reqs)
    && s.reqs.Keys == s1.reqs.Keys == {0} && s1.reqs[0].confs == s.reqs[0].confs && s1.reqs[0].vms == s.reqs[0].vms
    && s1.reqs[0].status == s.reqs[0].status && Extends(s.reqs[0].ifs, s1.reqs[0].ifs)
  }

  /** The nets prepared so far, and the bridge of the last dynamic one. */
  predicate PreparedTo(s: State, conf: seq<Net>, k: nat) {
    && Preparing(s, 0) && Conf(s, 0) == conf && s.lock.Free? && s.reqs.Keys == {0}
    && |s.reqs[0].nets| == k <= |conf| && LastIs(s.reqs[0].ifs, conf[..k], s.reqs[0].br)
  }

  lemma TakeEffect(s: State, conf: seq<Net>, k: nat)
    requires PreparedTo(s, conf, k) && k < |conf| && !NeedsBridge(s, 0)
    ensures Enabled(s, TakeNet(0))
    ensures PreparedTo(Next(s, TakeNet(0)), conf, k + 1) && OnlyPrepared(s, Next(s, TakeNet(0)))
  {
    LastNext(s.reqs[0], conf);
  }

  /** A bridge is listed, added and set up. */
  lemma AllocateEffect(s: State, conf: seq<Net>, k: nat) returns (s1: State, s2: State, s3: State)
    requires PreparedTo(s, conf, k) && k < |conf| && NeedsBridge(s, 0)
    ensures Enabled(s, List(0)) && s1 == Next(s, List(0)) && Enabled(s1, Add(0)) && s2 == Next(s1, Add(0))
    ensures Enabled(s2, Up(0)) && s3 == Next(s2, Up(0))
    ensures PreparedTo(s3, conf, k + 1) && OnlyPrepared(s, s3)
  {
    var q := s.reqs[0];
    s1 := Next(s, List(0));
    s2 := Next(s1, Add(0));
    s3 := Next(s2, Up(0));
    LastNext(q.(ifs := q.ifs[conf[k].ifname := s1.lock.name]), conf);
  }

  lemma PrepareNext(fixed: set<string>, confs: set<seq<Net>>, acts: seq<Action>, s: State, conf: seq<Net>, k: nat)
    returns (more: seq<Action>, s1: State)
    requires ReachedOf(fixed, confs, acts, s) && PreparedTo(s, conf, k) && k < |conf|
    ensures ReachedOf(fixed, confs, more, s1) && PreparedTo(s1, conf, k + 1) && OnlyPrepared(s, s1)
  {
    if NeedsBridge(s, 0) {
      var a, b, c := AllocateEffect(s, conf, k);
      more, s1 := Then(fixed, confs, acts, s, List(0));
      more, s1 := Then(fixed, confs, more, a, Add(0));
      more, s1 := Then(fixed, confs, more, b, Up(0));
    } else {
      TakeEffect(s, conf, k);
      more, s1 := Then(fixed, confs, acts, s, TakeNet(0));
    }
  }

  lemma {:induction false} PrepareAll(fixed: set<string>, confs: set<seq<Net>>, acts: seq<Action>, s: State,
      conf: seq<Net>, k: nat)
    returns (more: seq<Action>, s1: State)
    requires ReachedOf(fixed, confs, acts, s) && PreparedTo(s, conf, k)
    ensures ReachedOf(fixed, confs, more, s1) && PreparedTo(s1, conf, |conf|) && OnlyPrepared(s, s1)
    decreases |conf| - k
  {
    if k == |conf| {
      more, s1 := acts, s;
    } else {
      var s2;
      more, s2 := PrepareNext(fixed, confs, acts, s, conf, k);
      more, s1 := PrepareAll(fixed, confs, more, s2, conf, k + 1);
    }
  }

  /** Both VMs run; the first is on the bridge `b` of the second, but registered elsewhere. */
  predicate BothRun(s: State, b: string) {
    && s.lock.Free? && s.pending == 0 && s.reqs.Keys == {0} && s.reqs[0].status.Ready?
    && s.vms.Keys == {0, 1} && s.vms[0].live && s.vms[1].live && s.vms[1].req == 0
    && Some(b) in s.brVm && s.brVm[Some(b)] == [1] && OnBridge(s.vms[0].nets, Some(b))
        && OnBridge(s.vms[1].nets, Some(b))
  }

  lemma SubstOn(ifs: map<string, string>, conf: seq<Net>, nets: seq<Net>, p: string)
    requires Replaced(ifs, conf, nets) && |nets| == |conf| && Occurs(conf, p)
    ensures p in ifs && OnBridge(nets, Some(ifs[p]))
  {
    var i :| 0 <= i < |conf| && IsDynamic(conf[i]) && conf[i].ifname == p;
    assert nets[i] == Subst(ifs, conf[i]);
  }

  /** The first VM runs; its request goes on to the second. */
  predicate FirstRun(s: State, c: seq<Net>, d: seq<Net>) {
    && PreparedTo(s, c, 0) && s.pending == 0 && s.reqs[0].confs == [d, c] && s.reqs[0].vms == [0]
    && s.vms.Keys == {0} && s.vms[0].live && s.vms[0].req == 0 && s.brVm == map[s.vms[0].br := [0]]
    && LastIs(s.reqs[0].ifs, d, s.vms[0].br) && |s.vms[0].nets| == |d| && Replaced(s.reqs[0].ifs, d, s.vms[0].nets)
  }

  lemma AskedFor(s: State, c: seq<Net>, d: seq<Net>)
    requires s.reqs == map[] && s.lock.Free? && s.vms == map[] && s.brVm == map[]
    ensures PreparedTo(Next(s, GetVms(0, [d, c])), d, 0)
  {
    assert d[..0] == [];
  }

  lemma BootFirst(s: State, c: seq<Net>, d: seq<Net>)
    requires PreparedTo(s, d, |d|) && s.pending == 0 && s.reqs[0].confs == [d, c] && s.reqs[0].vms == []
    requires s.vms == map[] && s.brVm == map[] && Replaced(s.reqs[0].ifs, d, s.reqs[0].nets)
    ensures Enabled(s, Boot(0, 0)) && FirstRun(Next(s, Boot(0, 0)), c, d)
  {
    assert d[..|d|] == d && c[..0] == [] && [] + [0] == [0];
    assert Register(s.brVm, s.reqs[0].br, 0) == map[s.reqs[0].br := [0]];
    assert Next(s, Boot(0, 0)).brVm == map[s.reqs[0].br := [0]];
    assert Next(s, Boot(0, 0)).reqs[0].vms == [0];
  }

  lemma FirstRuns(fixed: set<string>, confs: set<seq<Net>>, c: seq<Net>, d: seq<Net>) returns (acts: seq<Action>,
      s: State)
    requires c in confs && d in confs && NetsOk(fixed, c) && NetsOk(fixed, d)
    ensures ReachedOf(fixed, confs, acts, s) && FirstRun(s, c, d)
  {
    AskedFor(Init(fixed), c, d);
    acts, s := Then(fixed, confs, [], Init(fixed), GetVms(0, [d, c]));
    acts, s := PrepareAll(fixed, confs, acts, s, d, 0);
    ReachedBasic(fixed, confs, acts, s);
    BootFirst(s, c, d);
    acts, s := Then(fixed, confs, acts, s, Boot(0, 0));
  }

  /** The second VM is prepared: the first is on its last bridge, but registered elsewhere. */
  lemma BootSecond(s0: State, s: State, c: seq<Net>, d: seq<Net>) returns (b: string)
    requires FirstRun(s0, c, d) && OnlyPrepared(s0, s) && PreparedTo(s, c, |c|) && Crossed(c, d)
    requires Injective(s.reqs[0].ifs) && Replaced(s.reqs[0].ifs, c, s.reqs[0].nets)
    ensures Enabled(s, Boot(0, 1)) && BothRun(Next(s, Boot(0, 1)), b)
  {
    assert c[..|c|] == c;
    var q := s.reqs[0];
    var p := LastDynamic(c).value;
    b := q.ifs[p];
    LastOccurs(c);
    SubstOn(q.ifs, c, q.nets, p);
    ReplacedGrows(s0.reqs[0].ifs, q.ifs, d, s.vms[0].nets);
    SubstOn(q.ifs, d, s.vms[0].nets, p);
    LastElsewhere(q.ifs, d, s.vms[0].br, p);
    assert [0] + [1] == [0, 1];
    BothBooted(s, b);
  }

  lemma BothBooted(s: State, b: string)
    requires Preparing(s, 0) && !HasNet(s, 0) && s.lock.Free? && s.pending == 0 && s.reqs.Keys == {0}
    requires |s.reqs[0].confs| == 2 && |s.reqs[0].vms| == 1 && s.vms.Keys == {0} && s.vms[0].live
    requires s.brVm == map[s.vms[0].br := [0]] && s.vms[0].br != Some(b) && s.reqs[0].br == Some(b)
    requires OnBridge(s.vms[0].nets, Some(b)) && OnBridge(s.reqs[0].nets, Some(b))
    ensures Enabled(s, Boot(0, 1)) && BothRun(Next(s, Boot(0, 1)), b)
  {
    assert [] + [1] == [1];
  }

  lemma SecondRuns(fixed: set<string>, confs: set<seq<Net>>, c: seq<Net>, d: seq<Net>)
    returns (acts: seq<Action>, s: State, b: string)
    requires c in confs && d in confs && NetsOk(fixed, c) && NetsOk(fixed, d) && Crossed(c, d)
    ensures ReachedOf(fixed, confs, acts, s) && BothRun(s, b)
  {
    var s0, s2;
    acts, s0 := FirstRuns(fixed, confs, c, d);
    acts, s2 := PrepareAll(fixed, confs, acts, s0, c, 0);
    ReachedBasic(fixed, confs, acts, s2);
    b := BootSecond(s0, s2, c, d);
    acts, s := Then(fixed, confs, acts, s2, Boot(0, 1));
  }

  lemma LastElsewhere(ifs: map<string, string>, d: seq<Net>, br: Option<string>, p: string)
    requires Injective(ifs) && LastIs(ifs, d, br) && p in ifs && LastDynamic(d) != Some(p)
    ensures br != Some(ifs[p])
  {
  }

  /** The second VM is destroyed and cleanup_net deletes the bridge of the first. */
  lemma CrossedBreaks(fixed: set<string>, confs: set<seq<Net>>, c: seq<Net>, d: seq<Net>) returns (acts: seq<Action>)
    requires c in confs && d in confs && NetsOk(fixed, c) && NetsOk(fixed, d) && Crossed(c, d)
    ensures RunOf(fixed, confs, acts) && !OnLinks(Final(fixed, Init(fixed), acts))
  {
    var s, b;
    acts, s, b := SecondRuns(fixed, confs, c, d);
    var nets := s.vms[0].nets;
    DetachEntry(s.brVm, s.vms[1].nets, 1, Some(b));
    assert Remove([1], 1) == [];
    acts, s := Then(fixed, confs, acts, s, Destroy(1));
    acts, s := Then(fixed, confs, acts, s, CleanStart);
    acts, s := Then(fixed, confs, acts, s, CleanVisit(Some(b)));
    var i :| 0 <= i < |nets| && Some(b) == Some(nets[i].ifname);
    assert s.vms[0].live && s.vms[0].nets[i].ifname !in s.links;
  }

  /** For the VM configurations of a provider: in every run the links of running VMs exist, if and only
      if no configuration ends with a placeholder that occurs, but not last, in another. */
  lemma OnLinksExactly(fixed: set<string>, confs: set<seq<Net>>)
    requires forall c :: c in confs ==> NetsOk(fixed, c)
    ensures (forall acts :: RunOf(fixed, confs, acts) ==> OnLinks(Final(fixed, Init(fixed), acts))) <==>
        Uncrossed(confs)
  {
    if Uncrossed(confs) {
      forall acts | RunOf(fixed, confs, acts) ensures OnLinks(Final(fixed, Init(fixed), acts)) {
        UncrossedOnLinks(fixed, confs, acts);
      }
    } else {
      var c, d :| c in confs && d in confs && Crossed(c, d);
      var acts := CrossedBreaks(fixed, confs, c, d);
    }
  }
}
