/**
 Exactly when a cancellation of cleanup_net does harm: when it comes after a deletion. The entry
 that stays behind makes a later pass delete the bridge of a request in progress.
 */
module BridgeCancel {
  import opened Options
  import opened BridgeNames
  import opened Bridges
  import opened BridgeBasics
  import opened BridgeNaming

  predicate InProgress(s: State, r: ReqId) {
    r in s.reqs && !s.reqs[r].status.Ready?
  }

  /** The bridges of requests in progress exist, and no two of these share one. */
  ghost predicate Kept(fixed: set<string>, s: State) {
    && (forall r, p :: InProgress(s, r) && p in s.reqs[r].ifs ==>
          s.reqs[r].ifs[p] in s.links && s.reqs[r].ifs[p] !in fixed)
    && (forall q, r :: InProgress(s, q) && InProgress(s, r) && q != r ==> s.reqs[q].ifs.Values !! s.reqs[r].ifs.Values)
  }

  lemma BasicIsKept(fixed: set<string>, s: State)
    requires Basic(fixed, s)
    ensures Kept(fixed, s)
  {
    forall r | InProgress(s, r) ensures ReqBasic(fixed, s, r) {
    }
  }

  /** Kept now and after any further run in which no pass is cancelled after a deletion. */
  ghost predicate StaysKept(fixed: set<string>, s: State) {
    forall acts :: ValidRun(fixed, s, acts) && BenignRun(fixed, s, acts) ==> Kept(fixed, Final(fixed, s, acts))
  }

  // ------------------------------------------------- a stale entry

  predicate Leads(fixed: set<string>, s: State, acts: seq<Action>, s1: State) {
    ValidRun(fixed, s, acts) && BenignRun(fixed, s, acts) && Final(fixed, s, acts) == s1
  }

  lemma On(fixed: set<string>, s0: State, acts: seq<Action>, s: State, a: Action)
    returns (more: seq<Action>, s1: State)
    requires Leads(fixed, s0, acts, s) && Enabled(s, a) && ActionOk(fixed, a) && !a.CleanAbort?
    ensures Leads(fixed, s0, more, s1) && s1 == Next(s, a)
  {
    RunExtends(fixed, s0, acts, a);
    more, s1 := acts + [a], Next(s, a);
  }

  /** An entry without VMs whose link is gone. */
  predicate Stale(fixed: set<string>, s: State, b: string) {
    s.lock.Free? && Some(b) in s.brVm && s.brVm[Some(b)] == [] && b !in s.links && IsBridge(fixed, b)
  }

  lemma NumberIsFree(fixed: set<string>, s: State, b: string)
    requires Named(fixed, s) && IsBridge(fixed, b) && b !in s.links
    ensures NumberOf(b) !in Used(s.links, PrefixOf(b))
  {
    forall x | x in s.links && Matches(x) && PrefixOf(x) == PrefixOf(b) ensures NumberOf(x) != NumberOf(b) {
      if x in fixed {
        assert NumberOf(x) in Used(fixed, PrefixOf(b));
      } else {
        assert IsBridge(fixed, x);
      }
    }
  }

  /** What one more request for a bridge with this prefix does. */
  ghost predicate Allocated(s: State, s1: State, r: ReqId, name: string) {
    && s1.links == s.links + {name} && s1.brVm == s.brVm && s1.lock.Free? && s1.pending == s.pending
    && r in s1.reqs && s1.reqs[r].status.Running? && name in s1.reqs[r].ifs.Values
  }

  lemma Allocate(fixed: set<string>, s0: State, acts: seq<Action>, s: State, prefix: string)
    returns (more: seq<Action>, s1: State, r: ReqId)
    requires Leads(fixed, s0, acts, s) && Named(fixed, s) && s.lock.Free? && Letters(prefix)
    ensures Leads(fixed, s0, more, s1) && Named(fixed, s1)
    ensures Allocated(s, s1, r, Bridge(s.links, prefix))
  {
    var n := Net(prefix + "%", []);
    assert IsDynamic(n) && Prefix(n) == prefix;
    r := Least(s.reqs.Keys);
    more, s1 := AskFor(fixed, s0, acts, s, r, n);
    more, s1 := AllocateFor(fixed, s0, more, s1, r, n);
  }

  lemma AskFor(fixed: set<string>, s0: State, acts: seq<Action>, s: State, r: ReqId, n: Net)
    returns (more: seq<Action>, s1: State)
    requires Leads(fixed, s0, acts, s) && Named(fixed, s) && s.lock.Free? && r !in s.reqs
    requires IsDynamic(n) && Letters(Prefix(n))
    ensures Leads(fixed, s0, more, s1) && Named(fixed, s1) && s1 == s.(reqs := s1.reqs)
    ensures NeedsBridge(s1, r) && NextNet(s1, r) == n
  {
    more, s1 := On(fixed, s0, acts, s, GetVms(r, [[n]]));
    NextNamed(fixed, s, GetVms(r, [[n]]));
  }

  lemma AllocateFor(fixed: set<string>, s0: State, acts: seq<Action>, s: State, r: ReqId, n: Net)
    returns (more: seq<Action>, s1: State)
    requires Leads(fixed, s0, acts, s) && Named(fixed, s) && s.lock.Free?
    requires NeedsBridge(s, r) && NextNet(s, r) == n
    ensures Leads(fixed, s0, more, s1) && Named(fixed, s1)
    ensures Allocated(s, s1, r, Bridge(s.links, Prefix(n)))
  {
    var name := Bridge(s.links, Prefix(n));
    more, s1 := On(fixed, s0, acts, s, List(r));
    NextNamed(fixed, s, List(r));
    var s2 := s1;
    more, s1 := On(fixed, s0, more, s2, Add(r));
    NextNamed(fixed, s2, Add(r));
    var s3 := s1;
    more, s1 := On(fixed, s0, more, s3, Up(r));
    NextNamed(fixed, s3, Up(r));
    assert s1.reqs[r].ifs[n.ifname] == name;
  }

  lemma LeastGrows(links: set<string>, prefix: string)
    requires Letters(prefix)
    ensures Least(Used(links + {Bridge(links, prefix)}, prefix)) > Least(Used(links, prefix))
  {
    var nums := Used(links, prefix);
    NameSplits(prefix, Least(nums));
    var name := Bridge(links, prefix);
    var more := Used(links + {name}, prefix);
    assert NumberOf(name) in more;
    forall j | j in nums ensures j in more {
      var x :| x in links && Matches(x) && PrefixOf(x) == prefix && NumberOf(x) == j;
      assert x in links + {name};
    }
    assert forall j :: 0 <= j < Least(nums) ==> j in nums;
  }

  /** Requests are given the free names in turn, until one is given the name of the stale entry. */
  lemma {:induction false} Occupy(fixed: set<string>, s0: State, acts: seq<Action>, s: State, b: string)
    returns (more: seq<Action>, s1: State, r: ReqId)
    requires Leads(fixed, s0, acts, s) && Named(fixed, s) && Stale(fixed, s, b)
    ensures Leads(fixed, s0, more, s1) && s1.lock.Free? && Some(b) in s1.brVm && s1.brVm[Some(b)] == []
    ensures r in s1.reqs && s1.reqs[r].status.Running? && b in s1.reqs[r].ifs.Values
    decreases NumberOf(b) - Least(Used(s.links, PrefixOf(b)))
  {
    var prefix, n := PrefixOf(b), NumberOf(b);
    NumberIsFree(fixed, s, b);
    var k := Least(Used(s.links, prefix));
    assert k <= n;
    more, s1, r := Allocate(fixed, s0, acts, s, prefix);
    if k < n {
      NameSplits(prefix, k);
      LeastGrows(s.links, prefix);
      NumberIsFree(fixed, s1, b);
      more, s1, r := Occupy(fixed, s0, more, s1, b);
    }
  }

  /** The next pass of cleanup_net finds the stale entry empty, and deletes the new bridge. */
  lemma Rob(fixed: set<string>, s0: State, acts: seq<Action>, s: State, b: string, r: ReqId)
    returns (more: seq<Action>, s1: State)
    requires Leads(fixed, s0, acts, s) && s.lock.Free? && Some(b) in s.brVm && s.brVm[Some(b)] == []
    requires r in s.reqs && s.reqs[r].status.Running? && b in s.reqs[r].ifs.Values
    ensures Leads(fixed, s0, more, s1) && !Kept(fixed, s1)
  {
    more, s1 := On(fixed, s0, acts, s, DestroyOther);
    more, s1 := On(fixed, s0, more, s1, CleanStart);
    more, s1 := On(fixed, s0, more, s1, CleanVisit(Some(b)));
    assert InProgress(s1, r) && b !in s1.links;
    var p :| p in s.reqs[r].ifs && s.reqs[r].ifs[p] == b;
    assert p in s1.reqs[r].ifs;
  }

  lemma StaleSurfaces(fixed: set<string>, s: State, b: string) returns (acts: seq<Action>)
    requires Named(fixed, s) && Stale(fixed, s, b)
    ensures ValidRun(fixed, s, acts) && BenignRun(fixed, s, acts) && !Kept(fixed, Final(fixed, s, acts))
  {
    var s1, r;
    acts, s1, r := Occupy(fixed, s, [], s, b);
    acts, s1 := Rob(fixed, s, acts, s1, b, r);
  }

  // ------------------------------------------------- exactly the benign steps

  /** From a good state, a step cancels no pass after a deletion if and only if requests in progress
      keep their bridges after it and in all continuations that do not do so. */
  lemma BenignExactly(fixed: set<string>, s: State, a: Action)
    requires Basic(fixed, s) && Named(fixed, s) && Enabled(s, a) && ActionOk(fixed, a)
    ensures Benign(s, a) <==> StaysKept(fixed, Next(s, a))
  {
    var s1 := Next(s, a);
    if Benign(s, a) {
      NextBasic(fixed, s, a);
      forall acts | ValidRun(fixed, s1, acts)
          && BenignRun(fixed, s1, acts) ensures Kept(fixed, Final(fixed, s1, acts)) {
        BasicRun(fixed, s1, acts);
        BasicIsKept(fixed, Final(fixed, s1, acts));
      }
    } else {
      var b := AbortLeavesKey(fixed, s);
      NextNamed(fixed, s, a);
      var acts := StaleSurfaces(fixed, s1, b);
    }
  }

  ghost predicate AlwaysKept(fixed: set<string>, s: State, acts: seq<Action>)
    requires ValidRun(fixed, s, acts)
    decreases |acts|
  {
    StaysKept(fixed, s) && (acts == [] || AlwaysKept(fixed, Next(s, acts[0]), acts[1..]))
  }

  lemma {:induction false} KeptFrom(fixed: set<string>, s: State, acts: seq<Action>)
    requires Basic(fixed, s) && Named(fixed, s) && ValidRun(fixed, s, acts)
    ensures AlwaysKept(fixed, s, acts) <==> BenignRun(fixed, s, acts)
    decreases |acts|
  {
    forall cont | ValidRun(fixed, s, cont) && BenignRun(fixed, s, cont) ensures Kept(fixed, Final(fixed, s, cont)) {
      BasicRun(fixed, s, cont);
      BasicIsKept(fixed, Final(fixed, s, cont));
    }
    if acts != [] {
      BenignExactly(fixed, s, acts[0]);
      if Benign(s, acts[0]) {
        NextBasic(fixed, s, acts[0]);
        NextNamed(fixed, s, acts[0]);
        KeptFrom(fixed, Next(s, acts[0]), acts[1..]);
      }
    }
  }

  /** Over a run, requests in progress are sure of their own bridges from each of its states on, if and
      only if no pass of cleanup_net is cancelled in it after a deletion. */
  lemma KeptExactly(fixed: set<string>, acts: seq<Action>)
    requires ValidRun(fixed, Init(fixed), acts)
    ensures AlwaysKept(fixed, Init(fixed), acts) <==> BenignRun(fixed, Init(fixed), acts)
  {
    InitBasic(fixed);
    InitNamed(fixed);
    KeptFrom(fixed, Init(fixed), acts);
  }
}
