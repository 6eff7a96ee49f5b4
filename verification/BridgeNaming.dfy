/**
 Names and placeholders: which name a bridge has, and how placeholders are replaced, in every
 run, whatever is cancelled.
 */
module BridgeNaming {
  import opened Options
  import opened Decimal
  import opened BridgeNames
  import opened Bridges
  import opened BridgeInvariant
  import opened BridgeBasics

  /** A name that _get_bridge can have chosen: letters and a number that no static link uses. */
  predicate IsBridge(fixed: set<string>, b: string) {
    && Matches(b) && Letters(PrefixOf(b)) && b == PrefixOf(b) + ToDecimal(NumberOf(b))
    && NumberOf(b) !in Used(fixed, PrefixOf(b))
  }

  /** The bridge of a placeholder has its prefix. */
  predicate Fits(fixed: set<string>, p: string, b: string) {
    IsBridge(fixed, b) && p == PrefixOf(b) + "%"
  }

  predicate ReqNamed(fixed: set<string>, s: State, r: ReqId)
    requires r in s.reqs
  {
    var q := s.reqs[r];
    && ConfsOk(fixed, q.confs) && |q.vms| <= |q.confs|
    && (q.status.Running? ==>
          && |q.vms| < |q.confs| && Replaced(q.ifs, Conf(s, r), q.nets)
          && (q.br.Some? ==> q.br.value in q.ifs.Values))
    && (forall p :: p in q.ifs ==> Fits(fixed, p, q.ifs[p]))
  }

  predicate LockNamed(fixed: set<string>, s: State) {
    s.lock.Listed? || s.lock.Added? ==>
      NeedsBridge(s, s.lock.r) && Fits(fixed, NextNet(s, s.lock.r).ifname, s.lock.name)
  }

  ghost predicate NamesOk(fixed: set<string>, s: State) {
    && fixed <= s.links && (forall b :: b in s.links && b !in fixed ==> IsBridge(fixed, b))
    && (forall b :: Some(b) in s.brVm ==> IsBridge(fixed, b))
  }

  ghost predicate Named(fixed: set<string>, s: State) {
    NamesOk(fixed, s) && LockNamed(fixed, s) && forall r :: r in s.reqs ==> ReqNamed(fixed, s, r)
  }

  lemma InitNamed(fixed: set<string>)
    ensures Named(fixed, Init(fixed))
  {
  }

  lemma BridgeNotFixed(fixed: set<string>, b: string)
    requires IsBridge(fixed, b)
    ensures b !in fixed
  {
  }

  /** The name that _get_bridge chooses for a placeholder fits it. */
  lemma ChosenFits(fixed: set<string>, links: set<string>, n: Net)
    requires fixed <= links && IsDynamic(n) && Letters(Prefix(n))
    ensures Fits(fixed, n.ifname, Bridge(links, Prefix(n)))
  {
    var k := Least(Used(links, Prefix(n)));
    NameSplits(Prefix(n), k);
    assert forall j :: j in Used(fixed, Prefix(n)) ==> j in Used(links, Prefix(n));
  }

  // ------------------------------------------------- steps

  /** Only the record of request `r` and the lock change. */
  lemma NamedRecord(fixed: set<string>, s: State, s1: State, r: ReqId)
    requires Named(fixed, s) && r in s1.reqs
    requires s1 == s.(reqs := s1.reqs, lock := s1.lock) && s1.reqs == s.reqs[r := s1.reqs[r]]
    requires ReqNamed(fixed, s1, r) && LockNamed(fixed, s1)
    ensures Named(fixed, s1)
  {
    forall q | q in s1.reqs ensures ReqNamed(fixed, s1, q) {
      assert q != r ==> ReqNamed(fixed, s, q);
    }
  }

  lemma TakeNetNamed(fixed: set<string>, s: State, r: ReqId)
    requires Named(fixed, s) && Enabled(s, TakeNet(r))
    ensures Named(fixed, Next(s, TakeNet(r)))
  {
    assert ReqNamed(fixed, s, r);
    WithNetBasic(s.reqs[r], Conf(s, r));
    NamedRecord(fixed, s, Next(s, TakeNet(r)), r);
  }

  lemma ListNamed(fixed: set<string>, s: State, r: ReqId)
    requires Named(fixed, s) && Enabled(s, List(r))
    ensures Named(fixed, Next(s, List(r)))
  {
    assert ReqNamed(fixed, s, r);
    assert NetsOk(fixed, Conf(s, r)) && NetOk(fixed, NextNet(s, r));
    ChosenFits(fixed, s.links, NextNet(s, r));
    NamedRecord(fixed, s, Next(s, List(r)), r);
  }

  lemma AddNamed(fixed: set<string>, s: State, r: ReqId)
    requires Named(fixed, s) && Enabled(s, Add(r))
    ensures Named(fixed, Next(s, Add(r)))
  {
    forall q | q in s.reqs ensures ReqNamed(fixed, Next(s, Add(r)), q) {
      assert ReqNamed(fixed, s, q);
    }
  }

  lemma UpNamed(fixed: set<string>, s: State, r: ReqId)
    requires Named(fixed, s) && Enabled(s, Up(r))
    ensures Named(fixed, Next(s, Up(r)))
  {
    var q, n := s.reqs[r], NextNet(s, r);
    assert ReqNamed(fixed, s, r);
    var q1 := q.(ifs := q.ifs[n.ifname := s.lock.name]);
    assert Replaced(q1.ifs, Conf(s, r), q1.nets);
    GrowValues(q.ifs, n.ifname, s.lock.name);
    WithNetBasic(q1, Conf(s, r));
    UpReqNamed(fixed, s, r, q1);
    NamedRecord(fixed, s, Next(s, Up(r)), r);
  }

  lemma UpReqNamed(fixed: set<string>, s: State, r: ReqId, q1: Req)
    requires Named(fixed, s) && Enabled(s, Up(r)) && ReqNamed(fixed, s, r)
    requires q1 == s.reqs[r].(ifs := s.reqs[r].ifs[NextNet(s, r).ifname := s.lock.name])
    requires var q2 := WithNet(q1, NextNet(s, r));
             && q2 == q1.(nets := q2.nets, br := q2.br)
             && Replaced(q1.ifs, Conf(s, r), q2.nets) && (q2.br.Some? ==> q2.br.value in q1.ifs.Values)
    ensures ReqNamed(fixed, Next(s, Up(r)), r)
  {
  }

  lemma GrowValues(ifs: map<string, string>, p: string, b: string)
    requires p !in ifs
    ensures forall x :: x in ifs.Values ==> x in ifs[p := b].Values
  {
    forall x | x in ifs.Values ensures x in ifs[p := b].Values {
      var y :| y in ifs && ifs[y] == x;
      assert ifs[p := b][y] == x;
    }
  }

  lemma BootNamed(fixed: set<string>, s: State, r: ReqId, v: VmId)
    requires Named(fixed, s) && Enabled(s, Boot(r, v))
    ensures Named(fixed, Next(s, Boot(r, v)))
  {
    var s1 := Booted(s, r, v);
    assert ReqNamed(fixed, s, r);
    forall q | q in s1.reqs ensures ReqNamed(fixed, s1, q) {
      assert ReqNamed(fixed, s, q);
    }
  }

  /** Links and keys only go away, requests and the lock stay. */
  lemma NamedFewer(fixed: set<string>, s: State, s1: State)
    requires Named(fixed, s) && s1.reqs == s.reqs && fixed <= s1.links <= s.links && s1.brVm.Keys <= s.brVm.Keys
    requires s1.lock == s.lock || s1.lock.Free? || s1.lock.Cleaning?
    ensures Named(fixed, s1)
  {
    forall q | q in s1.reqs ensures ReqNamed(fixed, s1, q) {
      assert ReqNamed(fixed, s, q);
    }
  }

  lemma VisitNamed(fixed: set<string>, s: State, k: Option<string>)
    requires Named(fixed, s) && Enabled(s, CleanVisit(k))
    ensures Named(fixed, Visit(s, k))
  {
    if k.Some? {
      BridgeNotFixed(fixed, k.value);
    }
    NamedFewer(fixed, s, Visit(s, k));
  }

  lemma DestroyNamed(fixed: set<string>, s: State, v: VmId)
    requires Named(fixed, s) && Enabled(s, Destroy(v))
    ensures Named(fixed, Next(s, Destroy(v)))
  {
    forall k ensures k in Next(s, Destroy(v)).brVm <==> k in s.brVm {
      DetachBasic(s.brVm, s.vms[v].nets, v, k);
    }
    NamedFewer(fixed, s, Next(s, Destroy(v)));
  }

  lemma NextNamed(fixed: set<string>, s: State, a: Action)
    requires Named(fixed, s) && Enabled(s, a) && ActionOk(fixed, a)
    ensures Named(fixed, Next(s, a))
  {
    match a
    case GetVms(r, confs) => GetVmsNamed(fixed, s, r, confs);
    case TakeNet(r) => TakeNetNamed(fixed, s, r);
    case List(r) => ListNamed(fixed, s, r);
    case Add(r) => AddNamed(fixed, s, r);
    case Up(r) => UpNamed(fixed, s, r);
    case Boot(r, v) => BootNamed(fixed, s, r, v);
    case GiveUp(r) => GiveUpNamed(fixed, s, r);
    case Destroy(v) => DestroyNamed(fixed, s, v);
    case CleanVisit(k) => VisitNamed(fixed, s, k);
    case DestroyOther => CleaningNamed(fixed, s, a);
    case CleanStart => CleaningNamed(fixed, s, a);
    case CleanEnd => CleaningNamed(fixed, s, a);
    case CleanAbort => CleaningNamed(fixed, s, a);
    case CleanCancel => CleaningNamed(fixed, s, a);
  }

  lemma CleaningNamed(fixed: set<string>, s: State, a: Action)
    requires Named(fixed, s) && Enabled(s, a)
    requires a.DestroyOther? || a.CleanStart? || a.CleanEnd? || a.CleanAbort? || a.CleanCancel?
    ensures Named(fixed, Next(s, a))
  {
    NamedFewer(fixed, s, Next(s, a));
  }

  lemma GetVmsNamed(fixed: set<string>, s: State, r: ReqId, confs: seq<seq<Net>>)
    requires Named(fixed, s) && Enabled(s, GetVms(r, confs)) && ConfsOk(fixed, confs)
    ensures Named(fixed, Next(s, GetVms(r, confs)))
  {
    NamedRecord(fixed, s, Next(s, GetVms(r, confs)), r);
  }

  lemma GiveUpNamed(fixed: set<string>, s: State, r: ReqId)
    requires Named(fixed, s) && Enabled(s, GiveUp(r))
    ensures Named(fixed, Next(s, GiveUp(r)))
  {
    assert ReqNamed(fixed, s, r);
    NamedRecord(fixed, s, Next(s, GiveUp(r)), r);
  }

  lemma {:induction false} NamedRun(fixed: set<string>, s: State, acts: seq<Action>)
    requires Named(fixed, s) && ValidRun(fixed, s, acts)
    ensures Named(fixed, Final(fixed, s, acts))
    decreases |acts|
  {
    if acts != [] {
      NextNamed(fixed, s, acts[0]);
      NamedRun(fixed, Next(s, acts[0]), acts[1..]);
    }
  }

  // ------------------------------------------------- substitution

  /** Each VM of a request was given its configured nets, placeholders replaced through `ifs`. */
  predicate VmsSubstituted(s: State, r: ReqId)
    requires r in s.reqs
  {
    var q := s.reqs[r];
    |q.vms| <= |q.confs| &&
    forall k :: 0 <= k < |q.vms| ==>
      && q.vms[k] in s.vms && s.vms[q.vms[k]].req == r
      && |s.vms[q.vms[k]].nets| == |q.confs[k]| && Replaced(q.ifs, q.confs[k], s.vms[q.vms[k]].nets)
  }

  predicate Substituted(s: State) {
    forall r :: r in s.reqs ==> VmsSubstituted(s, r)
  }

  /** `ifs` only grows. */
  lemma ReplacedGrows(ifs: map<string, string>, ifs1: map<string, string>, conf: seq<Net>, nets: seq<Net>)
    requires Replaced(ifs, conf, nets) && forall p :: p in ifs ==> p in ifs1 && ifs1[p] == ifs[p]
    ensures Replaced(ifs1, conf, nets)
  {
  }

  lemma SubstitutedBoot(fixed: set<string>, s: State, r: ReqId, v: VmId)
    requires Named(fixed, s) && Substituted(s) && Enabled(s, Boot(r, v))
    ensures Substituted(Booted(s, r, v))
  {
    var s1 := Booted(s, r, v);
    assert ReqNamed(fixed, s, r);
    forall p | p in s1.reqs ensures VmsSubstituted(s1, p) {
      assert VmsSubstituted(s, p);
    }
  }

  lemma SubstitutedUp(s: State, r: ReqId)
    requires Substituted(s) && Enabled(s, Up(r))
    ensures Substituted(Next(s, Up(r)))
  {
    var s1 := Next(s, Up(r));
    forall p | p in s1.reqs ensures VmsSubstituted(s1, p) {
      assert VmsSubstituted(s, p);
      var q := s.reqs[p];
      forall k | 0 <= k < |q.vms| ensures Replaced(s1.reqs[p].ifs, q.confs[k], s.vms[q.vms[k]].nets) {
        ReplacedGrows(q.ifs, s1.reqs[p].ifs, q.confs[k], s.vms[q.vms[k]].nets);
      }
    }
  }

  /** VMs keep their nets. */
  predicate SameNets(s: State, s1: State) {
    forall v :: v in s.vms ==> v in s1.vms && s1.vms[v].nets == s.vms[v].nets && s1.vms[v].req == s.vms[v].req
  }

  /** Requests keep what concerns their finished VMs. */
  predicate SameReqs(s: State, s1: State) {
    forall p :: p in s1.reqs ==>
      || s1.reqs[p].vms == []
      || (&& p in s.reqs && s1.reqs[p].vms == s.reqs[p].vms
          && s1.reqs[p].confs == s.reqs[p].confs && s1.reqs[p].ifs == s.reqs[p].ifs)
  }

  lemma OthersSameNets(s: State, a: Action)
    requires Enabled(s, a) && !a.Boot?
    ensures SameNets(s, Next(s, a))
  {
  }

  lemma OthersSameReqs(s: State, a: Action)
    requires Enabled(s, a) && !a.Boot? && !a.Up?
    ensures SameReqs(s, Next(s, a))
  {
  }

  lemma SubstitutedFrame(s: State, s1: State)
    requires Substituted(s) && SameNets(s, s1) && SameReqs(s, s1)
    ensures Substituted(s1)
  {
    forall p | p in s1.reqs ensures VmsSubstituted(s1, p) {
      assert p in s.reqs ==> VmsSubstituted(s, p);
    }
  }

  lemma SubstitutedNext(fixed: set<string>, s: State, a: Action)
    requires Named(fixed, s) && Substituted(s) && Enabled(s, a)
    ensures Substituted(Next(s, a))
  {
    if a.Boot? {
      SubstitutedBoot(fixed, s, a.r, a.v);
    } else if a.Up? {
      SubstitutedUp(s, a.r);
    } else {
      OthersSameNets(s, a);
      OthersSameReqs(s, a);
      SubstitutedFrame(s, Next(s, a));
    }
  }

  lemma {:induction false} SubstitutedRun(fixed: set<string>, s: State, acts: seq<Action>)
    requires Named(fixed, s) && Substituted(s) && ValidRun(fixed, s, acts)
    ensures Substituted(Final(fixed, s, acts))
    decreases |acts|
  {
    if acts != [] {
      SubstitutedNext(fixed, s, acts[0]);
      NextNamed(fixed, s, acts[0]);
      SubstitutedRun(fixed, Next(s, acts[0]), acts[1..]);
    }
  }

  /** Within one request, static nets and MAC addresses are as configured, and two dynamic
      nets are on the same bridge if and only if their placeholders are equal. */
  lemma PlaceholdersExactly(fixed: set<string>, acts: seq<Action>, r: ReqId, k: nat, l: nat, i: nat, j: nat)
    requires ValidRun(fixed, Init(fixed), acts)
    requires var s := Final(fixed, Init(fixed), acts);
             && r in s.reqs && k < |s.reqs[r].vms| && l < |s.reqs[r].vms|
             && l < |s.reqs[r].confs| && k < |s.reqs[r].confs|
             && i < |s.reqs[r].confs[k]| && j < |s.reqs[r].confs[l]|
    ensures var s := Final(fixed, Init(fixed), acts);
            var q := s.reqs[r];
            && q.vms[k] in s.vms && q.vms[l] in s.vms
            && var m, n := s.vms[q.vms[k]].nets, s.vms[q.vms[l]].nets;
            && |m| == |q.confs[k]| && |n| == |q.confs[l]|
            && m[i].args == q.confs[k][i].args
            && (!IsDynamic(q.confs[k][i]) ==> m[i] == q.confs[k][i])
            && (IsDynamic(q.confs[k][i]) && IsDynamic(q.confs[l][j]) ==>
                  (m[i].ifname == n[j].ifname <==> q.confs[k][i].ifname == q.confs[l][j].ifname))
  {
    InitNamed(fixed);
    NamedRun(fixed, Init(fixed), acts);
    SubstitutedRun(fixed, Init(fixed), acts);
    var s := Final(fixed, Init(fixed), acts);
    assert ReqNamed(fixed, s, r) && VmsSubstituted(s, r);
  }

  // ------------------------------------------------- get_vms returns all VMs

  /** A request has succeeded exactly when it has all its VMs. */
  predicate Complete(s: State) {
    forall r :: r in s.reqs ==>
      |s.reqs[r].vms| <= |s.reqs[r].confs| && (s.reqs[r].status.Ready? <==> |s.reqs[r].vms| == |s.reqs[r].confs|)
  }

  lemma CompleteStep(s: State, a: Action)
    requires Complete(s) && Enabled(s, a)
    ensures Complete(Next(s, a))
  {
  }

  lemma {:induction false} CompleteRun(fixed: set<string>, s: State, acts: seq<Action>)
    requires Complete(s) && ValidRun(fixed, s, acts)
    ensures Complete(Final(fixed, s, acts))
    decreases |acts|
  {
    if acts != [] {
      CompleteStep(s, acts[0]);
      CompleteRun(fixed, Next(s, acts[0]), acts[1..]);
    }
  }

  lemma {:induction false} ConfsStay(fixed: set<string>, s: State, acts: seq<Action>, r: ReqId)
    requires ValidRun(fixed, s, acts) && r in s.reqs
    ensures r in Final(fixed, s, acts).reqs && Final(fixed, s, acts).reqs[r].confs == s.reqs[r].confs
    decreases |acts|
  {
    if acts != [] {
      ConfStays(s, acts[0], r);
      ConfsStay(fixed, Next(s, acts[0]), acts[1..], r);
    }
  }

  lemma ConfStays(s: State, a: Action, r: ReqId)
    requires Enabled(s, a) && r in s.reqs
    ensures r in Next(s, a).reqs && Next(s, a).reqs[r].confs == s.reqs[r].confs
  {
  }

  lemma {:induction false} RunJoins(fixed: set<string>, s: State, a: seq<Action>, b: seq<Action>)
    requires ValidRun(fixed, s, a) && ValidRun(fixed, Final(fixed, s, a), b)
    ensures ValidRun(fixed, s, a + b) && Final(fixed, s, a + b) == Final(fixed, Final(fixed, s, a), b)
    decreases |a|
  {
    if a == [] {
      assert a + b == b;
    } else {
      RunJoins(fixed, Next(s, a[0]), a[1..], b);
      assert (a + b)[1..] == a[1..] + b;
    }
  }

  /** In every run a request that was made for `confs` and has succeeded has one VM per configuration, in
      order, each with the nets of its configuration, placeholders replaced. */
  lemma AllVmsReturned(fixed: set<string>, before: seq<Action>, r: ReqId, confs: seq<seq<Net>>, after: seq<Action>,
      k: nat)
    requires ValidRun(fixed, Init(fixed), before)
    requires var m := Final(fixed, Init(fixed), before);
             && Enabled(m, GetVms(r, confs)) && ConfsOk(fixed, confs)
             && ValidRun(fixed, Next(m, GetVms(r, confs)), after)
             && var s := Final(fixed, Next(m, GetVms(r, confs)), after);
                r in s.reqs && s.reqs[r].status.Ready? && k < |confs|
    ensures var s := Final(fixed, Next(Final(fixed, Init(fixed), before), GetVms(r, confs)), after);
            var q := s.reqs[r];
            && |q.vms| == |confs| && q.vms[k] in s.vms && s.vms[q.vms[k]].req == r
            && |s.vms[q.vms[k]].nets| == |confs[k]| && Replaced(q.ifs, confs[k], s.vms[q.vms[k]].nets)
  {
    var m := Final(fixed, Init(fixed), before);
    var s0 := Next(m, GetVms(r, confs));
    RunThen(fixed, Init(fixed), before, GetVms(r, confs));
    RunJoins(fixed, Init(fixed), before + [GetVms(r, confs)], after);
    var all := before + [GetVms(r, confs)] + after;
    InitNamed(fixed);
    CompleteRun(fixed, Init(fixed), all);
    SubstitutedRun(fixed, Init(fixed), all);
    ConfsStay(fixed, s0, after, r);
    assert VmsSubstituted(Final(fixed, s0, after), r);
  }
}
