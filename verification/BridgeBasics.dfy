/**
 What holds of bridges and requests however many placeholders a VM names: who owns which
 bridge, and which links exist.
 */
module BridgeBasics {
  import opened Options
  import opened BridgeNames
  import opened Bridges
  import opened BridgeInvariant

  /** An entry of br_vm names a bridge that somebody owns; until its owner has all its VMs, it
      is not empty. */
  predicate KeyBasic(fixed: set<string>, s: State, b: string)
    requires Some(b) in s.brVm
  {
    && b !in fixed
    && if Deleted(s, b) then b !in s.owner && s.brVm[Some(b)] == []
       else
         && b in s.owner && s.owner[b] in s.reqs
         && (!s.reqs[s.owner[b]].status.Ready? ==> s.brVm[Some(b)] != [])
         && forall v :: v in s.brVm[Some(b)] ==> v in s.vms && s.vms[v].req == s.owner[b]
  }

  /** Until a request has all its VMs, it owns the bridges of its placeholders, which differ. */
  predicate ReqBasic(fixed: set<string>, s: State, r: ReqId)
    requires r in s.reqs
  {
    var q := s.reqs[r];
    && ConfsOk(fixed, q.confs) && |q.vms| <= |q.confs| && Injective(q.ifs)
    && (q.status.Running? ==>
          && |q.vms| < |q.confs| && Replaced(q.ifs, Conf(s, r), q.nets)
          && (q.br.Some? ==> q.br.value in q.ifs.Values))
    && (!q.status.Ready? ==> forall p :: p in q.ifs ==> q.ifs[p] in s.owner && s.owner[q.ifs[p]] == r)
  }

  ghost predicate KeysBasic(fixed: set<string>, s: State) {
    (forall b :: Some(b) in s.brVm ==> KeyBasic(fixed, s, b)) && (None in s.brVm ==> s.brVm[None] != [])
  }

  ghost predicate ReqsBasic(fixed: set<string>, s: State) {
    && (forall r :: r in s.reqs ==> ReqBasic(fixed, s, r))
    && (forall b :: b in s.owner ==> s.owner[b] in s.reqs)
  }

  ghost predicate Basic(fixed: set<string>, s: State) {
    LinksOk(fixed, s) && LockOk(s) && KeysBasic(fixed, s) && ReqsBasic(fixed, s)
  }

  lemma InitBasic(fixed: set<string>)
    ensures Basic(fixed, Init(fixed))
  {
  }

  // ------------------------------------------------- steps of get_vms

  /** Only the record of request `r` and the lock change. */
  lemma RecordFrame(fixed: set<string>, s: State, s1: State, r: ReqId)
    requires Basic(fixed, s) && r in s.reqs && r in s1.reqs
    requires s1 == s.(reqs := s1.reqs, lock := s1.lock) && s1.reqs == s.reqs[r := s1.reqs[r]]
    requires s1.reqs[r].status.Ready? == s.reqs[r].status.Ready?
    requires s.lock.Cleaning? || s1.lock.Cleaning? ==> s1.lock == s.lock
    requires ReqBasic(fixed, s1, r) && LockOk(s1)
    ensures Basic(fixed, s1)
  {
    forall b | Some(b) in s1.brVm ensures KeyBasic(fixed, s1, b) {
      assert KeyBasic(fixed, s, b);
    }
    forall q | q in s1.reqs ensures ReqBasic(fixed, s1, q) {
      assert ReqBasic(fixed, s, q);
    }
  }

  lemma GetVmsBasic(fixed: set<string>, s: State, r: ReqId, confs: seq<seq<Net>>)
    requires Basic(fixed, s) && r !in s.reqs && ConfsOk(fixed, confs)
    ensures Basic(fixed, Next(s, GetVms(r, confs)))
  {
    var s1 := Next(s, GetVms(r, confs));
    forall b | Some(b) in s1.brVm ensures KeyBasic(fixed, s1, b) {
      assert KeyBasic(fixed, s, b);
    }
    forall q | q in s1.reqs ensures ReqBasic(fixed, s1, q) {
      assert q != r ==> ReqBasic(fixed, s, q);
    }
  }

  lemma WithNetBasic(q: Req, conf: seq<Net>)
    requires |q.nets| < |conf| && Replaced(q.ifs, conf, q.nets)
    requires IsDynamic(conf[|q.nets|]) ==> conf[|q.nets|].ifname in q.ifs
    requires q.br.Some? ==> q.br.value in q.ifs.Values
    ensures var q1 := WithNet(q, conf[|q.nets|]);
            && q1 == q.(nets := q1.nets, br := q1.br) && |q1.nets| == |q.nets| + 1
            && Replaced(q.ifs, conf, q1.nets) && (q1.br.Some? ==> q1.br.value in q.ifs.Values)
  {
    var k := |q.nets|;
    var q1 := WithNet(q, conf[k]);
    assert forall i :: 0 <= i < k ==> q1.nets[i] == q.nets[i];
    assert q1.nets[k] == Subst(q.ifs, conf[k]);
  }

  lemma TakeNetBasic(fixed: set<string>, s: State, r: ReqId)
    requires Basic(fixed, s) && Enabled(s, TakeNet(r))
    ensures Basic(fixed, Next(s, TakeNet(r)))
  {
    assert ReqBasic(fixed, s, r);
    WithNetBasic(s.reqs[r], Conf(s, r));
    RecordFrame(fixed, s, Next(s, TakeNet(r)), r);
  }

  lemma ListBasic(fixed: set<string>, s: State, r: ReqId)
    requires Basic(fixed, s) && Enabled(s, List(r))
    ensures Basic(fixed, Next(s, List(r)))
  {
    assert ReqBasic(fixed, s, r);
    assert NetsOk(fixed, Conf(s, r)) && NetOk(fixed, NextNet(s, r));
    BridgeIsFresh(s.links, Prefix(NextNet(s, r)));
    RecordFrame(fixed, s, Next(s, List(r)), r);
  }

  lemma AddBasic(fixed: set<string>, s: State, r: ReqId)
    requires Basic(fixed, s) && Enabled(s, Add(r))
    ensures Basic(fixed, Next(s, Add(r)))
  {
    var s1 := Next(s, Add(r));
    var n := s.lock.name;
    assert n !in s.owner && n !in fixed;
    forall b | Some(b) in s1.brVm ensures KeyBasic(fixed, s1, b) && b != n {
      assert KeyBasic(fixed, s, b);
    }
    forall q | q in s1.reqs ensures ReqBasic(fixed, s1, q) {
      assert ReqBasic(fixed, s, q);
    }
    assert n !in s.reqs[r].ifs.Values by {
      assert ReqBasic(fixed, s, r);
    }
  }

  lemma UpBasic(fixed: set<string>, s: State, r: ReqId)
    requires Basic(fixed, s) && Enabled(s, Up(r))
    ensures Basic(fixed, Next(s, Up(r)))
  {
    var q, n, conf := s.reqs[r], NextNet(s, r), Conf(s, r);
    assert ReqBasic(fixed, s, r);
    var q1 := q.(ifs := q.ifs[n.ifname := s.lock.name]);
    assert Replaced(q1.ifs, conf, q1.nets);
    ValuesGrow(q.ifs, n.ifname, s.lock.name);
    WithNetBasic(q1, conf);
    UpRecord(fixed, s, r, q1);
    RecordFrame(fixed, s, Next(s, Up(r)), r);
  }

  lemma ValuesGrow(ifs: map<string, string>, p: string, b: string)
    requires p !in ifs && Injective(ifs) && b !in ifs.Values
    ensures Injective(ifs[p := b]) && forall x :: x in ifs.Values ==> x in ifs[p := b].Values
  {
    var more := ifs[p := b];
    forall x | x in ifs.Values ensures x in more.Values {
      var y :| y in ifs && ifs[y] == x;
      assert more[y] == x;
    }
  }

  lemma UpRecord(fixed: set<string>, s: State, r: ReqId, q1: Req)
    requires Basic(fixed, s) && Enabled(s, Up(r)) && ReqBasic(fixed, s, r)
    requires q1 == s.reqs[r].(ifs := s.reqs[r].ifs[NextNet(s, r).ifname := s.lock.name]) && Injective(q1.ifs)
    requires var q2 := WithNet(q1, NextNet(s, r));
             && q2 == q1.(nets := q2.nets, br := q2.br)
             && Replaced(q1.ifs, Conf(s, r), q2.nets) && (q2.br.Some? ==> q2.br.value in q1.ifs.Values)
    ensures ReqBasic(fixed, Next(s, Up(r)), r)
  {
  }

  lemma GiveUpBasic(fixed: set<string>, s: State, r: ReqId)
    requires Basic(fixed, s) && Enabled(s, GiveUp(r))
    ensures Basic(fixed, Next(s, GiveUp(r)))
  {
    assert ReqBasic(fixed, s, r);
    RecordFrame(fixed, s, Next(s, GiveUp(r)), r);
  }

  lemma BootBasic(fixed: set<string>, s: State, r: ReqId, v: VmId)
    requires Basic(fixed, s) && Enabled(s, Boot(r, v))
    ensures Basic(fixed, Next(s, Boot(r, v)))
  {
    var s1 := Booted(s, r, v);
    var q := s.reqs[r];
    assert ReqBasic(fixed, s, r);
    forall b | Some(b) in s1.brVm ensures KeyBasic(fixed, s1, b) {
      assert Some(b) in s.brVm ==> KeyBasic(fixed, s, b);
      assert q.br == Some(b) ==> b in s.owner && s.owner[b] == r;
    }
    forall p | p in s1.reqs ensures ReqBasic(fixed, s1, p) {
      assert ReqBasic(fixed, s, p);
    }
  }

  // ------------------------------------------------- destroy

  lemma {:induction false} RemoveSubset(vms: seq<VmId>, v: VmId)
    ensures forall w :: w in Remove(vms, v) ==> w in vms
    ensures v !in vms ==> Remove(vms, v) == vms
  {
    if vms != [] {
      RemoveSubset(vms[1..], v);
      assert vms == [vms[0]] + vms[1..];
    }
  }

  /** Destroying a VM takes nothing but that VM out of lists, and leaves the None entry alone. */
  lemma {:induction false} DetachBasic(
    brVm: map<Option<string>, seq<VmId>>, nets: seq<Net>, v: VmId, k: Option<string>)
    ensures k in Detach(brVm, nets, v) <==> k in brVm
    ensures k in brVm ==> forall w :: w in Detach(brVm, nets, v)[k] ==> w in brVm[k]
    ensures k in brVm && (v !in brVm[k] || k.None?) ==> Detach(brVm, nets, v)[k] == brVm[k]
    decreases |nets|
  {
    if nets != [] {
      DetachBasic(brVm, nets[..|nets| - 1], v, k);
      if k in brVm {
        RemoveSubset(Detach(brVm, nets[..|nets| - 1], v)[k], v);
      }
    }
  }

  lemma DestroyBasic(fixed: set<string>, s: State, v: VmId)
    requires Basic(fixed, s) && Enabled(s, Destroy(v))
    ensures Basic(fixed, Next(s, Destroy(v)))
  {
    var s1 := Next(s, Destroy(v));
    forall k ensures k in s1.brVm <==> k in s.brVm {
      DetachBasic(s.brVm, s.vms[v].nets, v, k);
    }
    forall b | Some(b) in s1.brVm ensures KeyBasic(fixed, s1, b) {
      assert KeyBasic(fixed, s, b);
      DetachBasic(s.brVm, s.vms[v].nets, v, Some(b));
    }
    DetachBasic(s.brVm, s.vms[v].nets, v, None);
    assert s1.brVm.Keys == s.brVm.Keys;
    forall r | r in s1.reqs ensures ReqBasic(fixed, s1, r) {
      assert ReqBasic(fixed, s, r);
    }
  }

  // ------------------------------------------------- cleanup_net

  lemma LockBasic(fixed: set<string>, s: State, s1: State)
    requires Basic(fixed, s) && s1 == s.(lock := s1.lock, pending := s1.pending, aborted := s1.aborted)
    requires forall b :: Deleted(s1, b) <==> Deleted(s, b)
    requires LockOk(s1)
    ensures Basic(fixed, s1)
  {
    forall b | Some(b) in s1.brVm ensures KeyBasic(fixed, s1, b) {
      assert KeyBasic(fixed, s, b);
    }
    forall r | r in s1.reqs ensures ReqBasic(fixed, s1, r) {
      assert ReqBasic(fixed, s, r);
    }
  }

  lemma VisitBasic(fixed: set<string>, s: State, k: Option<string>)
    requires Basic(fixed, s) && Enabled(s, CleanVisit(k))
    ensures Basic(fixed, Visit(s, k))
  {
    var s1 := Visit(s, k);
    if s.brVm[k] != [] {
      LockBasic(fixed, s, s1);
    } else {
      assert KeyBasic(fixed, s, k.value) && !Deleted(s, k.value);
      forall b | Some(b) in s1.brVm ensures KeyBasic(fixed, s1, b) {
        assert KeyBasic(fixed, s, b);
      }
      forall r | r in s1.reqs ensures ReqBasic(fixed, s1, r) {
        assert ReqBasic(fixed, s, r);
      }
    }
  }

  lemma CleanEndBasic(fixed: set<string>, s: State)
    requires Basic(fixed, s) && Enabled(s, CleanEnd)
    ensures Basic(fixed, Next(s, CleanEnd))
  {
    var s1 := Next(s, CleanEnd);
    forall b | Some(b) in s1.brVm ensures KeyBasic(fixed, s1, b) {
      assert KeyBasic(fixed, s, b);
    }
    forall r | r in s1.reqs ensures ReqBasic(fixed, s1, r) {
      assert ReqBasic(fixed, s, r);
    }
  }

  lemma NextBasic(fixed: set<string>, s: State, a: Action)
    requires Basic(fixed, s) && Enabled(s, a) && ActionOk(fixed, a) && Benign(s, a)
    ensures Basic(fixed, Next(s, a))
  {
    match a
    case GetVms(r, confs) => GetVmsBasic(fixed, s, r, confs);
    case TakeNet(r) => TakeNetBasic(fixed, s, r);
    case List(r) => ListBasic(fixed, s, r);
    case Add(r) => AddBasic(fixed, s, r);
    case Up(r) => UpBasic(fixed, s, r);
    case Boot(r, v) => BootBasic(fixed, s, r, v);
    case GiveUp(r) => GiveUpBasic(fixed, s, r);
    case Destroy(v) => DestroyBasic(fixed, s, v);
    case CleanVisit(k) => VisitBasic(fixed, s, k);
    case CleanEnd => CleanEndBasic(fixed, s);
    case DestroyOther => LockBasic(fixed, s, Next(s, a));
    case CleanStart => LockBasic(fixed, s, Next(s, a));
    case CleanAbort => LockBasic(fixed, s, Next(s, a));
    case CleanCancel => LockBasic(fixed, s, Next(s, a));
  }

  lemma {:induction false} BasicRun(fixed: set<string>, s: State, acts: seq<Action>)
    requires Basic(fixed, s) && ValidRun(fixed, s, acts) && BenignRun(fixed, s, acts)
    ensures Basic(fixed, Final(fixed, s, acts))
    decreases |acts|
  {
    if acts != [] {
      NextBasic(fixed, s, acts[0]);
      BasicRun(fixed, Next(s, acts[0]), acts[1..]);
    }
  }

  // ------------------------------------------------- requests in progress

  /** Two requests in progress never have a bridge in common: the lock works. */
  lemma RequestsAreDisjoint(fixed: set<string>, acts: seq<Action>, q: ReqId, r: ReqId)
    requires ValidRun(fixed, Init(fixed), acts) && BenignRun(fixed, Init(fixed), acts)
    requires var s := Final(fixed, Init(fixed), acts);
             q in s.reqs && r in s.reqs && q != r && !s.reqs[q].status.Ready? && !s.reqs[r].status.Ready?
    ensures var s := Final(fixed, Init(fixed), acts);
            && s.reqs[q].ifs.Values !! s.reqs[r].ifs.Values
            && s.reqs[q].ifs.Values <= s.links - fixed
  {
    InitBasic(fixed);
    BasicRun(fixed, Init(fixed), acts);
    var s := Final(fixed, Init(fixed), acts);
    assert ReqBasic(fixed, s, q) && ReqBasic(fixed, s, r);
  }

  // ------------------------------------------------- entries and links

  /** In every reachable state the static bridges exist, an entry of br_vm names a live dynamic
      bridge (until the pass that deletes it ends), and the None entry is not empty. */
  lemma EntriesNameBridges(fixed: set<string>, acts: seq<Action>)
    requires ValidRun(fixed, Init(fixed), acts) && BenignRun(fixed, Init(fixed), acts)
    ensures var s := Final(fixed, Init(fixed), acts);
            && fixed <= s.links
            && (forall b :: Some(b) in s.brVm ==> b !in fixed && (Deleted(s, b) || (b in s.links && b in s.owner)))
            && (None in s.brVm ==> s.brVm[None] != [])
  {
    InitBasic(fixed);
    BasicRun(fixed, Init(fixed), acts);
    var s := Final(fixed, Init(fixed), acts);
    forall b | Some(b) in s.brVm ensures b !in fixed && (Deleted(s, b) || (b in s.links && b in s.owner)) {
      assert KeyBasic(fixed, s, b);
    }
  }

  /** Every entry of br_vm names a link, until the pass that deletes it ends. */
  ghost predicate KeysLive(s: State) {
    forall b :: Some(b) in s.brVm ==> b in s.links || Deleted(s, b)
  }

  ghost predicate AlwaysLive(fixed: set<string>, s: State, acts: seq<Action>)
    requires ValidRun(fixed, s, acts)
    decreases |acts|
  {
    KeysLive(s) && (acts == [] || AlwaysLive(fixed, Next(s, acts[0]), acts[1..]))
  }

  lemma BasicIsLive(fixed: set<string>, s: State)
    requires Basic(fixed, s)
    ensures KeysLive(s)
  {
    forall b | Some(b) in s.brVm ensures b in s.links || Deleted(s, b) {
      assert KeyBasic(fixed, s, b);
    }
  }

  /** A pass that is cut short after a deletion leaves an entry without a link. */
  lemma AbortLeavesKey(fixed: set<string>, s: State) returns (b: string)
    requires Basic(fixed, s) && s.lock.Cleaning? && s.lock.clean != {}
    ensures var s1 := Next(s, CleanAbort); Some(b) in s1.brVm && s1.brVm[Some(b)] == [] && b !in s1.links
  {
    var k :| k in s.lock.clean;
    b := k.value;
    assert KeyBasic(fixed, s, b);
  }

  lemma {:induction false} KeysLiveFrom(fixed: set<string>, s: State, acts: seq<Action>)
    requires Basic(fixed, s) && ValidRun(fixed, s, acts)
    ensures AlwaysLive(fixed, s, acts) <==> BenignRun(fixed, s, acts)
    decreases |acts|
  {
    BasicIsLive(fixed, s);
    if acts != [] {
      if Benign(s, acts[0]) {
        NextBasic(fixed, s, acts[0]);
        KeysLiveFrom(fixed, Next(s, acts[0]), acts[1..]);
      } else {
        var b := AbortLeavesKey(fixed, s);
      }
    }
  }

  /** The entries of br_vm name links throughout a run if and only if no pass of cleanup_net is
      cancelled after it has deleted a link. */
  lemma KeysLiveExactly(fixed: set<string>, acts: seq<Action>)
    requires ValidRun(fixed, Init(fixed), acts)
    ensures AlwaysLive(fixed, Init(fixed), acts) <==> BenignRun(fixed, Init(fixed), acts)
  {
    InitBasic(fixed);
    KeysLiveFrom(fixed, Init(fixed), acts);
  }
}
