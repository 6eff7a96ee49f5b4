/**
 A run in which cleanup_net is cancelled after a deletion: with two empty entries, it deletes the
 link of the first and is cancelled at the second.
 */
module StaleEntry {
  import opened Options
  import opened Decimal
  import opened BridgeNames
  import opened Bridges
  import opened BridgeBasics
  import opened BridgeNaming
  import opened BridgeCancel

  /** Two VMs, each on a dynamic bridge of its own. */
  function Nets(): seq<seq<Net>> {
    [[Net("a%", [])], [Net("b%", [])]]
  }

  function At0(): State {
    Init({})
  }

  function At1(): State {
    State({}, map[],
          map[1 := Req(Nets(), Running, map[], None, [], [])],
          map[], Free, 0, false, map[])
  }

  function At2(): State {
    State({}, map[],
          map[1 := Req(Nets(), Running, map[], None, [], [])],
          map[], Listed(1, "a0"), 0, false, map[])
  }

  function At3(): State {
    State({"a0"}, map[],
          map[1 := Req(Nets(), Running, map[], None, [], [])],
          map[], Added(1, "a0"), 0, false, map["a0" := 1])
  }

  function At4(): State {
    State({"a0"}, map[],
          map[1 := Req(Nets(), Running, map["a%" := "a0"], Some("a0"), [Net("a0", [])], [])],
          map[], Free, 0, false, map["a0" := 1])
  }

  function At5(): State {
    State({"a0"}, map[Some("a0") := [1]],
          map[1 := Req(Nets(), Running, map["a%" := "a0"], None, [], [1])],
          map[1 := Vm(1, [Net("a0", [])], Some("a0"), true)], Free, 0, false, map["a0" := 1])
  }

  function At6(): State {
    State({"a0"}, map[Some("a0") := [1]],
          map[1 := Req(Nets(), Running, map["a%" := "a0"], None, [], [1])],
          map[1 := Vm(1, [Net("a0", [])], Some("a0"), true)], Listed(1, "b0"), 0, false, map["a0" := 1])
  }

  function At7(): State {
    State({"a0", "b0"}, map[Some("a0") := [1]],
          map[1 := Req(Nets(), Running, map["a%" := "a0"], None, [], [1])],
          map[1 := Vm(1, [Net("a0", [])], Some("a0"), true)], Added(1, "b0"), 0, false, map["a0" := 1, "b0" := 1])
  }

  function At8(): State {
    State({"a0", "b0"}, map[Some("a0") := [1]],
          map[1 := Req(Nets(), Running, map["a%" := "a0", "b%" := "b0"], Some("b0"), [Net("b0", [])], [1])],
          map[1 := Vm(1, [Net("a0", [])], Some("a0"), true)], Free, 0, false, map["a0" := 1, "b0" := 1])
  }

  function At9(): State {
    State({"a0", "b0"}, map[Some("a0") := [1], Some("b0") := [2]],
          map[1 := Req(Nets(), Ready, map["a%" := "a0", "b%" := "b0"], None, [], [1, 2])],
          map[1 := Vm(1, [Net("a0", [])], Some("a0"), true), 2 := Vm(1, [Net("b0", [])], Some("b0"), true)], Free, 0,
              false, map["a0" := 1, "b0" := 1])
  }

  function At10(): State {
    State({"a0", "b0"}, map[Some("a0") := [], Some("b0") := [2]],
          map[1 := Req(Nets(), Ready, map["a%" := "a0", "b%" := "b0"], None, [], [1, 2])],
          map[1 := Vm(1, [Net("a0", [])], Some("a0"), false), 2 := Vm(1, [Net("b0", [])], Some("b0"), true)], Free,
              1, false, map["a0" := 1, "b0" := 1])
  }

  function At11(): State {
    State({"a0", "b0"}, map[Some("a0") := [], Some("b0") := []],
          map[1 := Req(Nets(), Ready, map["a%" := "a0", "b%" := "b0"], None, [], [1, 2])],
          map[1 := Vm(1, [Net("a0", [])], Some("a0"), false), 2 := Vm(1, [Net("b0", [])], Some("b0"), false)], Free,
              2, false, map["a0" := 1, "b0" := 1])
  }

  function At12(): State {
    State({"a0", "b0"}, map[Some("a0") := [], Some("b0") := []],
          map[1 := Req(Nets(), Ready, map["a%" := "a0", "b%" := "b0"], None, [], [1, 2])],
          map[1 := Vm(1, [Net("a0", [])], Some("a0"), false), 2 := Vm(1, [Net("b0", [])], Some("b0"), false)],
              Cleaning({Some("a0"), Some("b0")}, {}), 1, false, map["a0" := 1, "b0" := 1])
  }

  function At13(): State {
    State({"b0"}, map[Some("a0") := [], Some("b0") := []],
          map[1 := Req(Nets(), Ready, map["a%" := "a0", "b%" := "b0"], None, [], [1, 2])],
          map[1 := Vm(1, [Net("a0", [])], Some("a0"), false), 2 := Vm(1, [Net("b0", [])], Some("b0"), false)],
              Cleaning({Some("b0")}, {Some("a0")}), 1, false, map["b0" := 1])
  }

  function At14(): State {
    State({"b0"}, map[Some("a0") := [], Some("b0") := []],
          map[1 := Req(Nets(), Ready, map["a%" := "a0", "b%" := "b0"], None, [], [1, 2])],
          map[1 := Vm(1, [Net("a0", [])], Some("a0"), false), 2 := Vm(1, [Net("b0", [])], Some("b0"), false)], Free,
              1, true, map["b0" := 1])
  }

  predicate StepOk(s: State, a: Action, s1: State) {
    Enabled(s, a) && Next(s, a) == s1
  }

  lemma Names()
    ensures Bridge({}, "a") == "a0" && Bridge({"a0"}, "b") == "b0"
    ensures Prefix(Net("a%", [])) == "a" && Prefix(Net("b%", [])) == "b"
  {
    assert ToDecimal(0) == "0";
    assert "a" + "0" == "a0";
    NameSplits("a", 0);
    assert Used({}, "a") == {} && Used({"a0"}, "b") == {};
  }

  /** Destroying the only VM of a bridge. */
  lemma OneLeaves(brVm: map<Option<string>, seq<VmId>>, b: string, v: VmId)
    requires Some(b) in brVm && brVm[Some(b)] == [v]
    ensures Detach(brVm, [Net(b, [])], v) == brVm[Some(b) := []]
  {
    var nets := [Net(b, [])];
    assert nets[..0] == [] && Detach(brVm, [], v) == brVm;
    assert Remove([v], v) == [];
  }

  lemma Step0()
    ensures StepOk(At0(), GetVms(1, Nets()), At1())
  {
  }

  lemma Step1()
    ensures StepOk(At1(), List(1), At2())
  {
    Names();
  }

  lemma Step2()
    ensures StepOk(At2(), Add(1), At3())
  {
  }

  lemma Step3()
    ensures StepOk(At3(), Up(1), At4())
  {
    assert [] + [Net("a0", [])] == [Net("a0", [])];
  }

  lemma Step4()
    ensures StepOk(At4(), Boot(1, 1), At5())
  {
    assert [] + [1] == [1];
  }

  lemma Step5()
    ensures StepOk(At5(), List(1), At6())
  {
    Names();
  }

  lemma Step6()
    ensures StepOk(At6(), Add(1), At7())
  {
  }

  lemma Step7()
    ensures StepOk(At7(), Up(1), At8())
  {
    assert [] + [Net("b0", [])] == [Net("b0", [])];
  }

  lemma Step8()
    ensures StepOk(At8(), Boot(1, 2), At9())
  {
    assert [1] + [2] == [1, 2] && [] + [2] == [2];
    assert Register(At8().brVm, Some("b0"), 2) == At9().brVm;
  }

  lemma Step9()
    ensures StepOk(At9(), Destroy(1), At10())
  {
    OneLeaves(At9().brVm, "a0", 1);
    assert Detach(At9().brVm, [Net("a0", [])], 1) == At10().brVm;
  }

  lemma Step10()
    ensures StepOk(At10(), Destroy(2), At11())
  {
    OneLeaves(At10().brVm, "b0", 2);
    assert Detach(At10().brVm, [Net("b0", [])], 2) == At11().brVm;
  }

  lemma Step11()
    ensures StepOk(At11(), CleanStart, At12())
  {
    assert At11().brVm.Keys == {Some("a0"), Some("b0")};
  }

  lemma Step12()
    ensures StepOk(At12(), CleanVisit(Some("a0")), At13())
  {
    assert {"a0", "b0"} - {"a0"} == {"b0"};
    assert map["a0" := 1, "b0" := 1] - {"a0"} == map["b0" := 1];
    assert {Some("a0"), Some("b0")} - {Some("a0")} == {Some("b0")};
    assert {} + {Some("a0")} == {Some("a0")};
  }

  lemma Step13()
    ensures StepOk(At13(), CleanAbort, At14())
  {
  }

  lemma Upto(s0: State, acts: seq<Action>, s: State, a: Action, s1: State) returns (more: seq<Action>)
    requires Leads({}, s0, acts, s) && StepOk(s, a, s1) && ActionOk({}, a) && !a.CleanAbort?
    ensures Leads({}, s0, more, s1)
  {
    var s2;
    more, s2 := On({}, s0, acts, s, a);
  }

  lemma NetsAreOk()
    ensures ConfsOk({}, Nets())
  {
    assert Letters(Prefix(Net("a%", []))) && Letters(Prefix(Net("b%", [])));
  }

  lemma FirstVm() returns (acts: seq<Action>)
    ensures Leads({}, At0(), acts, At5())
  {
    NetsAreOk();
    acts := [];
    Step0();
    acts := Upto(At0(), acts, At0(), GetVms(1, Nets()), At1());
    Step1();
    acts := Upto(At0(), acts, At1(), List(1), At2());
    Step2();
    acts := Upto(At0(), acts, At2(), Add(1), At3());
    Step3();
    acts := Upto(At0(), acts, At3(), Up(1), At4());
    Step4();
    acts := Upto(At0(), acts, At4(), Boot(1, 1), At5());
  }

  lemma BothVms() returns (acts: seq<Action>)
    ensures Leads({}, At0(), acts, At9())
  {
    acts := FirstVm();
    Step5();
    acts := Upto(At0(), acts, At5(), List(1), At6());
    Step6();
    acts := Upto(At0(), acts, At6(), Add(1), At7());
    Step7();
    acts := Upto(At0(), acts, At7(), Up(1), At8());
    Step8();
    acts := Upto(At0(), acts, At8(), Boot(1, 2), At9());
  }

  lemma HalfClean() returns (acts: seq<Action>)
    ensures Leads({}, At0(), acts, At13())
  {
    acts := BothVms();
    Step9();
    acts := Upto(At0(), acts, At9(), Destroy(1), At10());
    Step10();
    acts := Upto(At0(), acts, At10(), Destroy(2), At11());
    Step11();
    acts := Upto(At0(), acts, At11(), CleanStart, At12());
    Step12();
    acts := Upto(At0(), acts, At12(), CleanVisit(Some("a0")), At13());
  }

  lemma Cancelled(acts: seq<Action>)
    requires Leads({}, Init({}), acts, At13())
    ensures ValidRun({}, Init({}), acts + [CleanAbort]) && Final({}, Init({}), acts + [CleanAbort]) == At14()
  {
    Step13();
    RunThen({}, Init({}), acts, CleanAbort);
  }

  lemma EndIsStale()
    ensures !KeysLive(At14())
  {
    assert Some("a0") in At14().brVm && "a0" !in At14().links && At14().lock.Free?;
  }

  /** The entry of the first bridge is left without its link, and a continuation without any further
      cancellation takes the bridge of a request in progress away. */
  lemma CancelledPassLeavesEntry() returns (acts: seq<Action>, cont: seq<Action>)
    ensures ValidRun({}, Init({}), acts) && BenignRun({}, Init({}), acts) && ValidRun({}, Init({}), acts + [CleanAbort])
    ensures var s := Final({}, Init({}), acts + [CleanAbort]);
            && !KeysLive(s) && ValidRun({}, s, cont) && BenignRun({}, s, cont)
            && !Kept({}, Final({}, s, cont))
  {
    acts := HalfClean();
    Cancelled(acts);
    EndIsStale();
    InitNamed({});
    NamedRun({}, Init({}), acts + [CleanAbort]);
    assert Stale({}, At14(), "a0");
    cont := StaleSurfaces({}, At14(), "a0");
  }
}
