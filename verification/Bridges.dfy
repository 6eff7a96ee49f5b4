/**
 Dynamic bridges of a host (rallyci/providers/virsh.py: Host.get_vms, the bridge
 part of Host._get_vm, Host._get_bridge, Host.cleanup_net, VM.destroy), as a
 transition system.

 Coroutines are split at their remote commands, and DYNAMIC_BRIDGE_LOCK is explicit.
 The `ip link` commands succeed, and no VM is registered while cleanup_net iterates
 over br_vm (the source does not lock there).
 */
module Bridges {
  import opened Options
  import opened BridgeNames

  type ReqId = nat
  type VmId = nat

  /** An item of a VM's `net` list: interface name and the rest, a MAC address if given. */
  datatype Net = Net(ifname: string, args: seq<string>)

  predicate IsDynamic(n: Net) {
    n.ifname != [] && n.ifname[|n.ifname| - 1] == '%'
  }

  function Prefix(n: Net): string
    requires IsDynamic(n)
  {
    n.ifname[..|n.ifname| - 1]
  }

  datatype Status = Running | Ready | Failed

  /** A call of get_vms: `nets` is net_conf of the VM being prepared, `br` its last
      dynamic bridge, `ifs` the bridges of the placeholders seen so far. */
  datatype Req = Req(
    confs: seq<seq<Net>>,
    status: Status,
    ifs: map<string, string>,
    br: Option<string>,
    nets: seq<Net>,
    vms: seq<VmId>)

  datatype Vm = Vm(req: ReqId, nets: seq<Net>, br: Option<string>, live: bool)

  datatype Lock =
    | Free
    | Listed(r: ReqId, name: string)  // _get_bridge has chosen a name
    | Added(r: ReqId, name: string)   // the link exists, and is being set up
    | Cleaning(todo: set<Option<string>>, clean: set<Option<string>>)

  datatype State = State(
    links: set<string>,
    brVm: map<Option<string>, seq<VmId>>,
    reqs: map<ReqId, Req>,
    vms: map<VmId, Vm>,
    lock: Lock,
    pending: nat,                     // calls of cleanup_net waiting for the lock
    aborted: bool,                    // history: a call was cut short since the last pass began
    owner: map<string, ReqId>)        // history: who allocated a live dynamic bridge

  datatype Action =
    | GetVms(r: ReqId, confs: seq<seq<Net>>)
    | TakeNet(r: ReqId)               // a static net, or a placeholder seen before
    | List(r: ReqId)
    | Add(r: ReqId)
    | Up(r: ReqId)
    | Boot(r: ReqId, v: VmId)         // _get_vm returns, the VM is registered
    | GiveUp(r: ReqId)                // an exception or a cancellation ends the request, anywhere
    | Destroy(v: VmId)
    | DestroyOther                    // destroy of a VM that was never registered
    | CleanStart
    | CleanVisit(k: Option<string>)
    | CleanEnd
    | CleanAbort                      // a cancellation inside the loop of cleanup_net; the source
                                      // yields there only for an empty entry, the model anywhere
    | CleanCancel                     // a cancellation of a call that waits for the lock

  // ---------------------------------------------------------------- the table br_vm

  function Register(brVm: map<Option<string>, seq<VmId>>, br: Option<string>, v: VmId): map<Option<string>, seq<VmId>> {
    brVm[br := (if br in brVm then brVm[br] else []) + [v]]
  }

  /** list.remove */
  function Remove(vms: seq<VmId>, v: VmId): seq<VmId> {
    if vms == [] then [] else if vms[0] == v then vms[1..] else [vms[0]] + Remove(vms[1..], v)
  }

  function DetachOne(brVm: map<Option<string>, seq<VmId>>, br: string, v: VmId): map<Option<string>, seq<VmId>> {
    if Some(br) in brVm && v in brVm[Some(br)] then brVm[Some(br) := Remove(brVm[Some(br)], v)] else brVm
  }

  /** The loop of VM.destroy over the bridges of the VM. */
  function Detach(brVm: map<Option<string>, seq<VmId>>, nets: seq<Net>, v: VmId): map<Option<string>, seq<VmId>>
    decreases |nets|
  {
    if nets == [] then brVm else DetachOne(Detach(brVm, nets[..|nets| - 1], v), nets[|nets| - 1].ifname, v)
  }

  // ---------------------------------------------------------------- requests

  predicate Preparing(s: State, r: ReqId) {
    r in s.reqs && s.reqs[r].status.Running? && |s.reqs[r].vms| < |s.reqs[r].confs|
  }

  function Conf(s: State, r: ReqId): seq<Net>
    requires Preparing(s, r)
  {
    s.reqs[r].confs[|s.reqs[r].vms|]
  }

  predicate HasNet(s: State, r: ReqId) {
    Preparing(s, r) && |s.reqs[r].nets| < |Conf(s, r)|
  }

  function NextNet(s: State, r: ReqId): Net
    requires HasNet(s, r)
  {
    Conf(s, r)[|s.reqs[r].nets|]
  }

  predicate NeedsBridge(s: State, r: ReqId) {
    HasNet(s, r) && IsDynamic(NextNet(s, r)) && NextNet(s, r).ifname !in s.reqs[r].ifs
  }

  predicate HoldsLock(s: State, r: ReqId) {
    (s.lock.Listed? || s.lock.Added?) && s.lock.r == r
  }

  /** One turn of the inner loop of get_vms once the bridge is known. */
  function WithNet(q: Req, n: Net): Req {
    if IsDynamic(n) && n.ifname in q.ifs
    then q.(nets := q.nets + [n.(ifname := q.ifs[n.ifname])], br := Some(q.ifs[n.ifname]))
    else q.(nets := q.nets + [n])
  }

  // ---------------------------------------------------------------- steps

  predicate Enabled(s: State, a: Action) {
    match a
    case GetVms(r, confs) => r !in s.reqs
    case TakeNet(r) => HasNet(s, r) && !NeedsBridge(s, r)
    case List(r) => NeedsBridge(s, r) && s.lock.Free?
    case Add(r) => s.lock.Listed? && s.lock.r == r && r in s.reqs
    case Up(r) => s.lock.Added? && s.lock.r == r && NeedsBridge(s, r)
    case Boot(r, v) => Preparing(s, r) && !HasNet(s, r) && v !in s.vms && !s.lock.Cleaning?
    case GiveUp(r) => r in s.reqs && s.reqs[r].status.Running?
    case Destroy(v) => v in s.vms && s.vms[v].live && s.vms[v].req in s.reqs && s.reqs[s.vms[v].req].status.Ready?
    case DestroyOther => true
    case CleanStart => s.lock.Free? && s.pending > 0
    case CleanVisit(k) => s.lock.Cleaning? && k in s.lock.todo && k in s.brVm
    case CleanEnd => s.lock.Cleaning? && s.lock.todo == {}
    case CleanAbort => s.lock.Cleaning?
    case CleanCancel => s.pending > 0
  }

  /** cleanup_net looks at one entry: an empty one loses its link. */
  function Visit(s: State, k: Option<string>): State
    requires s.lock.Cleaning? && k in s.brVm
  {
    var todo := s.lock.todo - {k};
    if s.brVm[k] != [] then s.(lock := Cleaning(todo, s.lock.clean))
    else
      var gone := if k.Some? then {k.value} else {};
      s.(links := s.links - gone, owner := s.owner - gone, lock := Cleaning(todo, s.lock.clean + {k}))
  }

  function Booted(s: State, r: ReqId, v: VmId): State
    requires Preparing(s, r)
  {
    var q := s.reqs[r];
    var vms := q.vms + [v];
    var status := if |vms| == |q.confs| then Ready else Running;
    s.(vms := s.vms[v := Vm(r, q.nets, q.br, true)],
       brVm := Register(s.brVm, q.br, v),
       reqs := s.reqs[r := q.(vms := vms, nets := [], br := None, status := status)])
  }

  function Next(s: State, a: Action): State
    requires Enabled(s, a)
  {
    match a
    case GetVms(r, confs) =>
      s.(reqs := s.reqs[r := Req(confs, if confs == [] then Ready else Running, map[], None, [], [])])
    case TakeNet(r) => s.(reqs := s.reqs[r := WithNet(s.reqs[r], NextNet(s, r))])
    case List(r) => s.(lock := Listed(r, Bridge(s.links, Prefix(NextNet(s, r)))))
    case Add(r) => s.(links := s.links + {s.lock.name}, owner := s.owner[s.lock.name := r],
        lock := Added(r, s.lock.name))
    case Up(r) =>
      var n := NextNet(s, r);
      var q := s.reqs[r].(ifs := s.reqs[r].ifs[n.ifname := s.lock.name]);
      s.(reqs := s.reqs[r := WithNet(q, n)], lock := Free)
    case Boot(r, v) => Booted(s, r, v)
    case GiveUp(r) =>
      s.(reqs := s.reqs[r := s.reqs[r].(status := Failed)], lock := if HoldsLock(s, r) then Free else s.lock)
    case Destroy(v) =>
      s.(brVm := Detach(s.brVm, s.vms[v].nets, v), vms := s.vms[v := s.vms[v].(live := false)],
          pending := s.pending + 1)
    case DestroyOther => s.(pending := s.pending + 1)
    case CleanStart => s.(pending := s.pending - 1, aborted := false, lock := Cleaning(s.brVm.Keys, {}))
    case CleanVisit(k) => Visit(s, k)
    case CleanEnd => s.(brVm := s.brVm - s.lock.clean, lock := Free)
    case CleanAbort => s.(lock := Free, aborted := true)
    case CleanCancel => s.(pending := s.pending - 1, aborted := true)
  }

  /** The links that exist before any request: the static bridges among them. */
  function Init(fixed: set<string>): State {
    State(fixed, map[], map[], map[], Free, 0, false, map[])
  }

  // ---------------------------------------------------------------- configuration

  /** Static nets name existing links, placeholders are letters and '%'. */
  predicate NetOk(fixed: set<string>, n: Net) {
    if IsDynamic(n) then Letters(Prefix(n)) else n.ifname in fixed
  }

  predicate NetsOk(fixed: set<string>, conf: seq<Net>) {
    forall i :: 0 <= i < |conf| ==> NetOk(fixed, conf[i])
  }

  predicate ConfsOk(fixed: set<string>, confs: seq<seq<Net>>) {
    forall k :: 0 <= k < |confs| ==> NetsOk(fixed, confs[k])
  }

  predicate ActionOk(fixed: set<string>, a: Action) {
    a.GetVms? ==> ConfsOk(fixed, a.confs)
  }

  /** All dynamic nets of a VM name one placeholder. */
  predicate OneDynamic(conf: seq<Net>) {
    forall i, j :: 0 <= i < |conf| && 0 <= j < |conf| && IsDynamic(conf[i]) && IsDynamic(conf[j]) ==>
      conf[i].ifname == conf[j].ifname
  }

  predicate OneDynamics(confs: seq<seq<Net>>) {
    forall k :: 0 <= k < |confs| ==> OneDynamic(confs[k])
  }

  /** Only VMs with at most one placeholder are asked for. */
  predicate AsksOneDynamic(acts: seq<Action>) {
    forall i :: 0 <= i < |acts| && acts[i].GetVms? ==> OneDynamics(acts[i].confs)
  }

  /** A pass of cleanup_net is cancelled only before it has deleted a link. */
  predicate Benign(s: State, a: Action) {
    a.CleanAbort? && s.lock.Cleaning? ==> s.lock.clean == {}
  }

  // ---------------------------------------------------------------- runs

  predicate ValidRun(fixed: set<string>, s: State, acts: seq<Action>)
    decreases |acts|
  {
    acts == [] || (ActionOk(fixed, acts[0]) && Enabled(s, acts[0]) && ValidRun(fixed, Next(s, acts[0]), acts[1..]))
  }

  function Final(fixed: set<string>, s: State, acts: seq<Action>): State
    requires ValidRun(fixed, s, acts)
    decreases |acts|
  {
    if acts == [] then s else Final(fixed, Next(s, acts[0]), acts[1..])
  }

  predicate BenignRun(fixed: set<string>, s: State, acts: seq<Action>)
    requires ValidRun(fixed, s, acts)
    decreases |acts|
  {
    acts == [] || (Benign(s, acts[0]) && BenignRun(fixed, Next(s, acts[0]), acts[1..]))
  }

  lemma {:induction false} RunExtends(fixed: set<string>, s: State, acts: seq<Action>, a: Action)
    requires ValidRun(fixed, s, acts) && BenignRun(fixed, s, acts)
    requires Enabled(Final(fixed, s, acts), a) && ActionOk(fixed, a) && Benign(Final(fixed, s, acts), a)
    ensures ValidRun(fixed, s, acts + [a]) && BenignRun(fixed, s, acts + [a])
    ensures Final(fixed, s, acts + [a]) == Next(Final(fixed, s, acts), a)
    decreases |acts|
  {
    if acts == [] {
      assert acts + [a] == [a];
    } else {
      RunExtends(fixed, Next(s, acts[0]), acts[1..], a);
      assert (acts + [a])[1..] == acts[1..] + [a];
    }
  }

  lemma {:induction false} RunThen(fixed: set<string>, s: State, acts: seq<Action>, a: Action)
    requires ValidRun(fixed, s, acts) && Enabled(Final(fixed, s, acts), a) && ActionOk(fixed, a)
    ensures ValidRun(fixed, s, acts + [a]) && Final(fixed, s, acts + [a]) == Next(Final(fixed, s, acts), a)
    decreases |acts|
  {
    if acts == [] {
      assert acts + [a] == [a];
    } else {
      RunThen(fixed, Next(s, acts[0]), acts[1..], a);
      assert (acts + [a])[1..] == acts[1..] + [a];
    }
  }
}
