/**
 Why a VM may have only one dynamic bridge: get_vms registers a VM under its last one.
 */
module TwoBridges {
  import opened Options
  import opened Decimal
  import opened BridgeNames
  import opened Bridges
  import opened BridgeCounting

  /** The first VM is on two dynamic bridges, the second on the first of them. */
  function TwoNets(): seq<seq<Net>> {
    [[Net("a%", []), Net("b%", [])], [Net("a%", [])]]
  }

  function Asked(): State {
    Init({}).(reqs := map[1 := Req(TwoNets(), Running, map[], None, [], [])])
  }

  function OneBridge(): State {
    State({"a0"}, map[], map[1 := Req(TwoNets(), Running, map["a%" := "a0"], Some("a0"), [Net("a0", [])], [])],
        map[], Free, 0, false, map["a0" := 1])
  }

  function OneVm(): State {
    State({"a0", "b0"}, map[Some("b0") := [1]],
        map[1 := Req(TwoNets(), Running, map["a%" := "a0", "b%" := "b0"], None, [], [1])],
        map[1 := Vm(1, [Net("a0", []), Net("b0", [])], Some("b0"), true)], Free, 0, false, map["a0" := 1, "b0" := 1])
  }

  function BothVms(): State {
    State({"a0", "b0"}, map[Some("b0") := [1], Some("a0") := [2]],
        map[1 := Req(TwoNets(), Ready, map["a%" := "a0", "b%" := "b0"], None, [], [1, 2])],
        map[1 := Vm(1, [Net("a0", []), Net("b0", [])], Some("b0"), true),
        2 := Vm(1, [Net("a0", [])], Some("a0"), true)], Free, 0, false, map["a0" := 1, "b0" := 1])
  }

  function OneGone(): State {
    BothVms().(brVm := map[Some("b0") := [1], Some("a0") := []],
        vms := map[1 := Vm(1, [Net("a0", []), Net("b0", [])], Some("b0"), true),
        2 := Vm(1, [Net("a0", [])], Some("a0"), false)], pending := 1)
  }

  function At0(): State {
    Init({})
  }

  function At1(): State {
    Asked()
  }

  function At2(): State {
    Asked().(lock := Listed(1, "a0"))
  }

  function At3(): State {
    Asked().(links := {"a0"}, owner := map["a0" := 1], lock := Added(1, "a0"))
  }

  function At4(): State {
    OneBridge()
  }

  function At5(): State {
    OneBridge().(lock := Listed(1, "b0"))
  }

  function At6(): State {
    OneBridge().(links := {"a0", "b0"}, owner := map["a0" := 1, "b0" := 1], lock := Added(1, "b0"))
  }

  function At7(): State {
    State({"a0", "b0"}, map[],
        map[1 := Req(TwoNets(), Running, map["a%" := "a0", "b%" := "b0"], Some("b0"),
                     [Net("a0", []), Net("b0", [])], [])], map[], Free, 0, false, map["a0" := 1, "b0" := 1])
  }

  function At8(): State {
    OneVm()
  }

  function At9(): State {
    OneVm().(reqs := map[1 := Req(TwoNets(), Running, map["a%" := "a0", "b%" := "b0"], Some("a0"),
                                  [Net("a0", [])], [1])])
  }

  function At10(): State {
    BothVms()
  }

  function At11(): State {
    OneGone()
  }

  function At12(): State {
    OneGone().(pending := 0, lock := Cleaning({Some("a0"), Some("b0")}, {}))
  }

  function At13(): State {
    OneGone().(pending := 0, links := {"b0"}, owner := map["b0" := 1], lock := Cleaning({Some("b0")}, {Some("a0")}))
  }

  function TwoState(k: nat): State {
    match k
    case 0 => At0()
    case 1 => At1()
    case 2 => At2()
    case 3 => At3()
    case 4 => At4()
    case 5 => At5()
    case 6 => At6()
    case 7 => At7()
    case 8 => At8()
    case 9 => At9()
    case 10 => At10()
    case 11 => At11()
    case 12 => At12()
    case _ => At13()
  }

  function TwoAction(k: nat): Action {
    match k
    case 0 => GetVms(1, TwoNets())
    case 1 => List(1)
    case 2 => Add(1)
    case 3 => Up(1)
    case 4 => List(1)
    case 5 => Add(1)
    case 6 => Up(1)
    case 7 => Boot(1, 1)
    case 8 => TakeNet(1)
    case 9 => Boot(1, 2)
    case 10 => Destroy(2)
    case 11 => CleanStart
    case _ => CleanVisit(Some("a0"))
  }

  predicate StepOk(s: State, a: Action, s1: State) {
    Enabled(s, a) && Next(s, a) == s1
  }

  lemma Names()
    ensures Bridge({}, "a") == "a0" && Bridge({"a0"}, "b") == "b0"
    ensures Prefix(Net("a%", [])) == "a" && Prefix(Net("b%", [])) == "b"
  {
    assert ToDecimal(0) == "0";
    assert "a" + "0" == "a0";
    NameSplits("a", 0);
    assert Used({}, "a") == {} && Used({"a0"}, "b") == {};
  }

  lemma Two0()
    ensures StepOk(At0(), GetVms(1, TwoNets()), At1())
  {
  }

  lemma Two1()
    ensures StepOk(At1(), List(1), At2())
  {
    Names();
  }

  lemma Two2()
    ensures StepOk(At2(), Add(1), At3())
  {
  }

  lemma Two3()
    ensures StepOk(At3(), Up(1), At4())
  {
    assert [] + [Net("a0", [])] == [Net("a0", [])];
  }

  lemma Two4()
    ensures StepOk(At4(), List(1), At5())
  {
    Names();
  }

  lemma Two5()
    ensures StepOk(At5(), Add(1), At6())
  {
  }

  lemma Two6()
    ensures StepOk(At6(), Up(1), At7())
  {
    assert [Net("a0", [])] + [Net("b0", [])] == [Net("a0", []), Net("b0", [])];
  }

  lemma Two7()
    ensures StepOk(At7(), Boot(1, 1), At8())
  {
    assert [] + [1] == [1];
  }

  lemma Two8()
    ensures StepOk(At8(), TakeNet(1), At9())
  {
    assert [] + [Net("a0", [])] == [Net("a0", [])];
  }

  lemma Two9()
    ensures StepOk(At9(), Boot(1, 2), At10())
  {
    Two9Boots();
  }

  /** The second VM boots and is registered under its one bridge. */
  lemma Two9Boots()
    ensures Preparing(At9(), 1) && Booted(At9(), 1, 2) == BothVms()
  {
    assert [1] + [2] == [1, 2] && [] + [2] == [2];
    assert Register(OneVm().brVm, Some("a0"), 2) == BothVms().brVm;
  }

  lemma Two10()
    ensures StepOk(At10(), Destroy(2), At11())
  {
    var s := At10();
    assert Remove([2], 2) == [];
    assert Detach(s.brVm, [], 2) == s.brVm;
    assert [Net("a0", [])][..0] == [];
    assert Detach(s.brVm, [Net("a0", [])], 2) == DetachOne(s.brVm, "a0", 2);
    assert DetachOne(s.brVm, "a0", 2) == At11().brVm;
  }

  lemma Two11()
    ensures StepOk(At11(), CleanStart, At12())
  {
    assert OneGone().brVm.Keys == {Some("a0"), Some("b0")};
  }

  lemma Two12()
    ensures StepOk(At12(), CleanVisit(Some("a0")), At13())
  {
    assert {"a0", "b0"} - {"a0"} == {"b0"};
    assert map["a0" := 1, "b0" := 1] - {"a0"} == map["b0" := 1];
    assert {Some("a0"), Some("b0")} - {Some("a0")} == {Some("b0")};
    assert {} + {Some("a0")} == {Some("a0")};
  }

  lemma TwoSteps(k: nat)
    requires k < 13
    ensures StepOk(TwoState(k), TwoAction(k), TwoState(k + 1))
  {
    match k
    case 0 => Two0();
    case 1 => Two1();
    case 2 => Two2();
    case 3 => Two3();
    case 4 => Two4();
    case 5 => Two5();
    case 6 => Two6();
    case 7 => Two7();
    case 8 => Two8();
    case 9 => Two9();
    case 10 => Two10();
    case 11 => Two11();
    case _ => Two12();
  }

  predicate Reaches(acts: seq<Action>, s: State) {
    ValidRun({}, Init({}), acts) && BenignRun({}, Init({}), acts) && Final({}, Init({}), acts) == s
  }

  lemma ReachNext(acts: seq<Action>, s: State, a: Action, s1: State) returns (more: seq<Action>)
    requires Reaches(acts, s) && Enabled(s, a) && Next(s, a) == s1 && ActionOk({}, a) && !a.CleanAbort?
    ensures Reaches(more, s1)
  {
    RunExtends({}, Init({}), acts, a);
    more := acts + [a];
  }

  lemma {:induction false} TwoReach(k: nat) returns (acts: seq<Action>)
    requires k <= 13
    ensures Reaches(acts, TwoState(k))
  {
    if k == 0 {
      acts := [];
    } else {
      acts := TwoReach(k - 1);
      TwoSteps(k - 1);
      TwoActionOk(k - 1);
      acts := ReachNext(acts, TwoState(k - 1), TwoAction(k - 1), TwoState(k));
    }
  }

  lemma TwoActionOk(k: nat)
    requires k < 13
    ensures ActionOk({}, TwoAction(k)) && !TwoAction(k).CleanAbort?
  {
    assert Letters(Prefix(Net("a%", []))) && Letters(Prefix(Net("b%", [])));
  }

  lemma TwoEnd()
    ensures !OnLinks(At13())
  {
    var s := At13();
    assert s.vms[1].live && s.vms[1].nets[0].ifname == "a0" && "a0" !in s.links;
  }

  /** A run whose last step deletes the link of a bridge that a running VM is on. */
  lemma TwoBridgesBreakCounting() returns (acts: seq<Action>)
    ensures ValidRun({}, Init({}), acts) && BenignRun({}, Init({}), acts)
    ensures !OnLinks(Final({}, Init({}), acts))
  {
    acts := TwoReach(13);
    TwoEnd();
  }
}
