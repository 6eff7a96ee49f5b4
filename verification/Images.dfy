/**
 The image store of a host (rallyci/providers/virsh.py: Host.build_image, the
 storage part of Host._get_vm, class ZFS, class BTRFS), as a transition system.

 Every request is a coroutine split at its remote commands.  A command is one
 atomic step that succeeds or fails; a cancellation is a failure of the command
 in flight.  The image locks are the keys of `held`, which also records how far
 the holder's build has come.
 */
module Images {
  import opened Options

  type Name = string
  type ReqId = nat

  /** What has been done to a volume since it was empty. */
  datatype Op = Fetch(url: string) | Resize | Script(script: string) | Broken(script: string)
  type Content = seq<Op>

  datatype ImageConf = ImageConf(parent: Option<Name>, url: Option<string>, scripts: seq<string>)

  /** The images section, with a rank that witnesses that parents are acyclic. */
  datatype Config = Config(images: map<Name, ImageConf>, rank: map<Name, nat>)

  datatype Backend = ZFS | BTRFS

  datatype Vol = Vol(live: Content, snap: Option<Content>)

  datatype Phase =
    | Checking            // storage.exist
    | InParent            // inside build_image(parent)
    | Cloning             // storage.clone(parent, name)
    | Creating            // storage.download: create, then wget, then resize
    | Fetching
    | Resizing
    | SealingDownload     // storage.snapshot of a downloaded image
    | Booting             // boot_image
    | Scripting(i: nat)   // build script i, or the shutdown when all have run
    | Destroying(at: nat) // the handler of the try: vm.destroy()
    | Sealing             // storage.snapshot of a built image

  datatype Held = Held(owner: ReqId, phase: Phase)

  /** A request for a VM: the images whose locks it holds, outermost first, and the
      lock it waits for.  With neither, the build is over and the disk of the VM is
      being cloned. */
  datatype Req = Req(image: Name, chain: seq<Name>, want: Option<Name>)

  datatype Disk = Disk(image: Name, content: Content)

  datatype State = State(
    store: map<Name, Vol>,
    held: map<Name, Held>,
    reqs: map<ReqId, Req>,
    disks: map<nat, Disk>)

  datatype Action =
    | Request(r: ReqId, image: Name)
    | Delete(name: Name)         // somebody removes an image by hand
    | Ok(r: ReqId)               // the command in flight succeeds
    | Fail(r: ReqId)             // it fails, or the request is cancelled
    | CloneDisk(r: ReqId, v: nat)

  // ---------------------------------------------------------------- configuration

  predicate Acyclic(e: Config) {
    forall n :: n in e.images ==>
      n in e.rank &&
      (e.images[n].parent.Some? ==>
         var p := e.images[n].parent.value;
         p in e.images && p in e.rank && e.rank[p] < e.rank[n])
  }

  function Ops(scripts: seq<string>): (c: Content)
    ensures |c| == |scripts| && forall i :: 0 <= i < |c| ==> c[i] == Script(scripts[i])
  {
    seq(|scripts|, i requires 0 <= i < |scripts| => Script(scripts[i]))
  }

  /** What an image is: the download, or the parent followed by the build scripts in
      order.  Build scripts of a downloaded image are ignored, and an image with
      neither parent nor url is nothing. */
  function Spec(e: Config, n: Name): Option<Content>
    requires Acyclic(e) && n in e.images
    decreases e.rank[n]
  {
    var conf := e.images[n];
    if conf.parent.Some? then
      var base := Spec(e, conf.parent.value);
      if base.Some? then Some(base.value + Ops(conf.scripts)) else None
    else if conf.url.Some? then Some([Fetch(conf.url.value), Resize])
    else None
  }

  /** The content an image starts from before its build scripts. */
  function Base(e: Config, n: Name): Option<Content>
    requires Acyclic(e) && n in e.images
  {
    if e.images[n].parent.Some? then Spec(e, e.images[n].parent.value) else None
  }

  // ---------------------------------------------------------------- storage commands

  /** What a clone of `src` copies: zfs takes snapshot @1, btrfs the live subvolume. */
  function CloneSource(b: Backend, s: State, src: Name): Option<Content> {
    if src !in s.store then None
    else if b.ZFS? then s.store[src].snap
    else Some(s.store[src].live)
  }

  function WithLive(s: State, n: Name, op: Op): map<Name, Vol> {
    if n in s.store then s.store[n := s.store[n].(live := s.store[n].live + [op])] else s.store
  }

  /** btrfs needs no snapshot: the call only yields. */
  predicate CanSeal(b: Backend, s: State, n: Name) {
    b.ZFS? ==> n in s.store
  }

  function Sealed(b: Backend, s: State, n: Name): map<Name, Vol> {
    if b.ZFS? && n in s.store then s.store[n := s.store[n].(snap := Some(s.store[n].live))] else s.store
  }

  // ---------------------------------------------------------------- one request

  function SetPhase(s: State, n: Name, p: Phase): State
    requires n in s.held
  {
    s.(held := s.held[n := s.held[n].(phase := p)])
  }

  /** Leaving `with lock` of the innermost image by return: a caller goes on to clone. */
  function Return(s: State, r: ReqId): State
    requires r in s.reqs && s.reqs[r].chain != []
  {
    var q := s.reqs[r];
    var k := |q.chain| - 1;
    var n := q.chain[k];
    var s1 := s.(held := s.held - {n}, reqs := s.reqs[r := q.(chain := q.chain[..k])]);
    if k > 0 && q.chain[k - 1] in s1.held then SetPhase(s1, q.chain[k - 1], Cloning) else s1
  }

  /** An exception leaves every `with lock` of the request: no caller is in its try. */
  function Abort(s: State, r: ReqId): State {
    s.(held := map n | n in s.held && s.held[n].owner != r :: s.held[n], reqs := s.reqs - {r})
  }

  /** After the volume exists: boot it for the build scripts, or take the snapshot. */
  function AfterBase(conf: ImageConf): Phase {
    if conf.scripts != [] then Booting else Sealing
  }

  function Innermost(s: State, r: ReqId): Name
    requires r in s.reqs && s.reqs[r].chain != []
  {
    s.reqs[r].chain[|s.reqs[r].chain| - 1]
  }

  /** The request runs a command on an image it has locked. */
  predicate Running(e: Config, s: State, r: ReqId) {
    && r in s.reqs && s.reqs[r].want.None? && s.reqs[r].chain != []
    && Innermost(s, r) in s.held && Innermost(s, r) in e.images
  }

  predicate CanOk(b: Backend, e: Config, s: State, n: Name, phase: Phase)
    requires n in e.images
  {
    var conf := e.images[n];
    match phase
    case Checking => true
    case InParent => false
    case Cloning =>
      && conf.parent.Some? && CloneSource(b, s, conf.parent.value).Some?
      && (b.ZFS? ==> n !in s.store)
    case Creating => n !in s.store && conf.url.Some?
    case Fetching => n in s.store && conf.url.Some?
    case Resizing => n in s.store
    case SealingDownload => CanSeal(b, s, n)
    case Booting => n in s.store
    case Scripting(i) => i <= |conf.scripts|
    case Destroying(at) => n in s.store
    case Sealing => CanSeal(b, s, n)
  }

  /** The command of the innermost build succeeds, up to the next command. */
  function StepOk(b: Backend, e: Config, s: State, r: ReqId): State
    requires Running(e, s, r)
    requires CanOk(b, e, s, Innermost(s, r), s.held[Innermost(s, r)].phase)
  {
    var n := Innermost(s, r);
    var conf := e.images[n];
    match s.held[n].phase
    case Checking =>
      if n in s.store then Return(s, r)
      else if conf.parent.Some? then
        var s1 := SetPhase(s, n, InParent);
        s1.(reqs := s1.reqs[r := s1.reqs[r].(want := conf.parent)])
      else if conf.url.Some? then SetPhase(s, n, Creating)
      else SetPhase(s, n, AfterBase(conf))
    case InParent => s
    case Cloning =>
      var c := CloneSource(b, s, conf.parent.value).value;
      SetPhase(s.(store := s.store[n := Vol(c, None)]), n, AfterBase(conf))
    case Creating => SetPhase(s.(store := s.store[n := Vol([], None)]), n, Fetching)
    case Fetching => SetPhase(s.(store := WithLive(s, n, Fetch(conf.url.value))), n, Resizing)
    case Resizing => SetPhase(s.(store := WithLive(s, n, Resize)), n, SealingDownload)
    case SealingDownload => Return(s.(store := Sealed(b, s, n)), r)
    case Booting => SetPhase(s, n, Scripting(0))
    case Scripting(i) =>
      if i < |conf.scripts| then SetPhase(s.(store := WithLive(s, n, Script(conf.scripts[i]))), n, Scripting(i + 1))
      else SetPhase(s, n, Sealing)
    case Destroying(at) => Abort(s.(store := s.store - {n}), r)
    case Sealing => Return(s.(store := Sealed(b, s, n)), r)
  }

  /** A failure inside the try runs its handler; any other one ends the request. */
  function StepFail(e: Config, s: State, r: ReqId): State
    requires r in s.reqs
  {
    if Running(e, s, r) && s.held[Innermost(s, r)].phase.Scripting? then
      var n := Innermost(s, r);
      var i := s.held[n].phase.i;
      var store := if i < |e.images[n].scripts| then WithLive(s, n, Broken(e.images[n].scripts[i])) else s.store;
      SetPhase(s.(store := store), n, Destroying(i))
    else Abort(s, r)
  }

  // ---------------------------------------------------------------- runs

  predicate Enabled(b: Backend, e: Config, s: State, a: Action) {
    match a
    case Request(r, image) => r !in s.reqs && image in e.images
    case Delete(n) => true
    case Ok(r) =>
      r in s.reqs &&
      if s.reqs[r].want.Some? then s.reqs[r].want.value !in s.held
      else Running(e, s, r) && CanOk(b, e, s, Innermost(s, r), s.held[Innermost(s, r)].phase)
    case Fail(r) => r in s.reqs
    case CloneDisk(r, v) =>
      && r in s.reqs && s.reqs[r].chain == [] && s.reqs[r].want.None?
      && v !in s.disks && CloneSource(b, s, s.reqs[r].image).Some?
  }

  function Acquire(s: State, r: ReqId): State
    requires r in s.reqs && s.reqs[r].want.Some?
  {
    var q := s.reqs[r];
    var n := q.want.value;
    s.(held := s.held[n := Held(r, Checking)], reqs := s.reqs[r := q.(chain := q.chain + [n], want := None)])
  }

  function Next(b: Backend, e: Config, s: State, a: Action): State
    requires Enabled(b, e, s, a)
  {
    match a
    case Request(r, image) => s.(reqs := s.reqs[r := Req(image, [], Some(image))])
    case Delete(n) => s.(store := s.store - {n})
    case Ok(r) => if s.reqs[r].want.Some? then Acquire(s, r) else StepOk(b, e, s, r)
    case Fail(r) => StepFail(e, s, r)
    case CloneDisk(r, v) =>
      var image := s.reqs[r].image;
      s.(disks := s.disks[v := Disk(image, CloneSource(b, s, image).value)], reqs := s.reqs - {r})
  }

  predicate ValidRun(b: Backend, e: Config, s: State, acts: seq<Action>)
    decreases |acts|
  {
    acts == [] || (Enabled(b, e, s, acts[0]) && ValidRun(b, e, Next(b, e, s, acts[0]), acts[1..]))
  }

  function Final(b: Backend, e: Config, s: State, acts: seq<Action>): State
    requires ValidRun(b, e, s, acts)
    decreases |acts|
  {
    if acts == [] then s else Final(b, e, Next(b, e, s, acts[0]), acts[1..])
  }
}
