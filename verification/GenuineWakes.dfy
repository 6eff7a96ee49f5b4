/**
 Whoever asyncio.wait wakes up has something to find: one of the futures it waits for is done.
 */
module GenuineWakes {
  import opened EventLoop
  import opened Lifecycle

  /** The waiter of this callback is in the very call of asyncio.wait that registered it. */
  predicate Awaited(s: State, w: Waiter, gen: nat) {
    match w
    case RootWaiter => s.root.Draining? && s.root.gen == gen
    case TaskWaiter(t) => t in s.objs && s.objs[t].phase.Waiting? && s.objs[t].phase.gen == gen
  }

  function FsOf(s: State, w: Waiter, gen: nat): set<Fut>
    requires Awaited(s, w, gen)
  {
    match w
    case RootWaiter => s.root.waited
    case TaskWaiter(t) => s.objs[t].phase.fs
  }

  predicate CbOk(s: State, h: Handle) {
    h.WaitCb? ==> h.gen < s.gen && (Awaited(s, h.w, h.gen) ==> h.f in FsOf(s, h.w, h.gen))
  }

  /** A queued callback is that of a finished future. */
  predicate QueueGenuine(s: State) {
    forall h :: h in s.ready && h.WaitCb? ==> CbOk(s, h) && IsDone(s, h.f)
  }

  predicate ObjGenuine(s: State, g: Fut)
    requires g in s.objs
  {
    && (s.objs[g].phase.Waiting? ==> s.objs[g].phase.gen < s.gen)
    && (!s.objs[g].phase.Done? ==> forall h :: h in s.objs[g].callbacks && h.WaitCb? ==> CbOk(s, h) && h.f == g)
  }

  predicate AnyDone(s: State, fs: set<Fut>) {
    exists f :: f in fs && IsDone(s, f)
  }

  /** A task or Root.run that is resumed, and not by a cancellation, has a finished future. */
  predicate WakeGenuine(s: State) {
    && (forall t :: t in s.objs && s.objs[t].phase.Waiting? && !s.objs[t].cancel && Resume(t) in s.ready ==>
          AnyDone(s, s.objs[t].phase.fs))
    && (s.root.Draining? && ResumeRoot in s.ready ==> AnyDone(s, s.root.waited))
  }

  predicate Genuine(s: State) {
    && QueueGenuine(s) && WakeGenuine(s) && (s.root.Draining? ==> s.root.gen < s.gen)
    && forall g :: g in s.objs ==> ObjGenuine(s, g)
  }

  // ------------------------------------------------- what a step respects

  /** The new state waits as the old one, or in a call of asyncio.wait made since. */
  ghost predicate WaitsOn(s: State, s1: State) {
    && s.gen <= s1.gen
    && (forall w: Waiter, gen: nat :: Awaited(s1, w, gen) && gen < s.gen ==>
          Awaited(s, w, gen) && FsOf(s1, w, gen) == FsOf(s, w, gen))
    && (forall f :: IsDone(s, f) ==> IsDone(s1, f))
  }

  lemma CbStays(s: State, s1: State, h: Handle)
    requires WaitsOn(s, s1) && CbOk(s, h)
    ensures CbOk(s1, h)
  {
  }

  lemma AnyStays(s: State, s1: State, fs: set<Fut>)
    requires WaitsOn(s, s1) && AnyDone(s, fs)
    ensures AnyDone(s1, fs)
  {
    var f :| f in fs && IsDone(s, f);
    assert IsDone(s1, f);
  }

  /** A callback that was not there before comes from a future that is done now, or is registered
      in a call made since. */
  ghost predicate NewCbs(s: State, s1: State) {
    && (forall h :: h in s1.ready && h.WaitCb? && h !in s.ready ==>
          IsDone(s1, h.f) && (FromCallbacks(s, h) || CbOk(s1, h)))
    && (forall g, h :: g in s1.objs && !s1.objs[g].phase.Done? && h in s1.objs[g].callbacks && h.WaitCb? ==>
          (g in s.objs && !s.objs[g].phase.Done? && h in s.objs[g].callbacks) || (h.f == g && CbOk(s1, h)))
  }

  predicate FromCallbacks(s: State, h: Handle) {
    h.WaitCb? && h.f in s.objs && !s.objs[h.f].phase.Done? && h in s.objs[h.f].callbacks
  }

  lemma QueueStays(s: State, s1: State)
    requires Genuine(s) && WaitsOn(s, s1) && NewCbs(s, s1)
    ensures QueueGenuine(s1)
  {
    forall h | h in s1.ready && h.WaitCb? ensures CbOk(s1, h) && IsDone(s1, h.f) {
      if h in s.ready {
        CbStays(s, s1, h);
      } else if FromCallbacks(s, h) {
        assert ObjGenuine(s, h.f);
        CbStays(s, s1, h);
      }
    }
  }

  lemma ObjStays(s: State, s1: State, g: Fut)
    requires Genuine(s) && WaitsOn(s, s1) && NewCbs(s, s1) && g in s1.objs
    requires s1.objs[g].phase.Waiting? ==> s1.objs[g].phase.gen < s1.gen
    ensures ObjGenuine(s1, g)
  {
    if !s1.objs[g].phase.Done? {
      forall h | h in s1.objs[g].callbacks && h.WaitCb? ensures CbOk(s1, h) && h.f == g {
        if g in s.objs && !s.objs[g].phase.Done? && h in s.objs[g].callbacks {
          assert ObjGenuine(s, g);
          CbStays(s, s1, h);
        }
      }
    }
  }

  lemma Stays(s: State, s1: State)
    requires Genuine(s) && WaitsOn(s, s1) && NewCbs(s, s1) && WakeGenuine(s1)
    requires s1.root.Draining? ==> s1.root.gen < s1.gen
    requires forall g :: g in s1.objs && s1.objs[g].phase.Waiting? ==> s1.objs[g].phase.gen < s1.gen
    ensures Genuine(s1)
  {
    QueueStays(s, s1);
    forall g | g in s1.objs ensures ObjGenuine(s1, g) {
      ObjStays(s, s1, g);
    }
  }

  // ------------------------------------------------- pieces

  lemma PopGenuine(s: State)
    requires Genuine(s) && s.ready != []
    ensures Genuine(Pop(s))
  {
    var p := Pop(s);
    assert forall h :: h in p.ready ==> h in s.ready;
    forall t | t in p.objs && p.objs[t].phase.Waiting? && !p.objs[t].cancel && Resume(t) in p.ready
      ensures AnyDone(p, p.objs[t].phase.fs)
    {
      AnyStays(s, p, p.objs[t].phase.fs);
    }
    if p.root.Draining? && ResumeRoot in p.ready {
      AnyStays(s, p, p.root.waited);
    }
    Stays(s, p);
  }

  /** Handles other than callbacks of asyncio.wait are appended; resumed waiters have a reason. */
  lemma AppendGenuine(s: State, s1: State)
    requires Genuine(s) && s1.objs == s.objs && s1.gen == s.gen
    requires forall h :: h in s1.ready && h !in s.ready ==> !h.WaitCb?
    requires s1.root.Draining? ==> s1.root == s.root
    requires forall t :: Resume(t) in s1.ready && Resume(t) !in s.ready && t in s.objs && s.objs[t].phase.Waiting? ==>
               AnyDone(s, s.objs[t].phase.fs)
    requires s.root.Draining? && ResumeRoot in s1.ready && ResumeRoot !in s.ready ==> AnyDone(s, s.root.waited)
    ensures Genuine(s1)
  {
    forall t | t in s1.objs && s1.objs[t].phase.Waiting? && !s1.objs[t].cancel && Resume(t) in s1.ready
      ensures AnyDone(s1, s1.objs[t].phase.fs)
    {
      AnyStays(s, s1, s.objs[t].phase.fs);
    }
    if s1.root.Draining? && ResumeRoot in s1.ready {
      AnyStays(s, s1, s.root.waited);
    }
    Stays(s, s1);
  }

  lemma CancelWakesAre(s: State, order: seq<Fut>, h: Handle)
    requires h in CancelWakes(s, order)
    ensures h.Resume? && h.f in order && Cancellable(s, h.f)
  {
    if h !in CancelWakes(s, order[1..]) {
      assert h == Resume(order[0]);
    } else {
      CancelWakesAre(s, order[1..], h);
    }
  }

  lemma CancelGenuine(s: State, order: seq<Fut>)
    requires Genuine(s)
    ensures Genuine(CancelAll(s, order))
  {
    var s1 := CancelAll(s, order);
    forall h | h in s1.ready && h !in s.ready ensures h.Resume? && h.f in order && Cancellable(s, h.f) {
      CancelWakesAre(s, order, h);
    }
    assert WaitsOn(s, s1);
    forall t | t in s1.objs && s1.objs[t].phase.Waiting? && !s1.objs[t].cancel && Resume(t) in s1.ready
      ensures AnyDone(s1, s1.objs[t].phase.fs)
    {
      assert Resume(t) in s.ready;
      AnyStays(s, s1, s.objs[t].phase.fs);
    }
    if s1.root.Draining? && ResumeRoot in s1.ready {
      AnyStays(s, s1, s.root.waited);
    }
    Stays(s, s1);
  }

  lemma StartNothingNew(s: State, kind: Kind, fs: seq<Fut>)
    requires forall f :: f in fs ==> f !in s.objs
    ensures var s1 := StartAll(s, kind, fs);
            && (forall h :: h in s1.ready && h !in s.ready ==> h.Resume? && h.f in fs)
            && WaitsOn(s, s1) && NewCbs(s, s1)
  {
  }

  lemma StartGenuine(s: State, kind: Kind, fs: seq<Fut>)
    requires Genuine(s) && forall f :: f in fs ==> f !in s.objs
    ensures Genuine(StartAll(s, kind, fs))
  {
    var s1 := StartAll(s, kind, fs);
    StartNothingNew(s, kind, fs);
    forall t | t in s1.objs && s1.objs[t].phase.Waiting? && !s1.objs[t].cancel && Resume(t) in s1.ready
      ensures AnyDone(s1, s1.objs[t].phase.fs)
    {
      AnyStays(s, s1, s.objs[t].phase.fs);
    }
    if s1.root.Draining? && ResumeRoot in s1.ready {
      AnyStays(s, s1, s.root.waited);
    }
    Stays(s, s1);
  }

  lemma CompleteGenuine(s: State, f: Fut)
    requires Genuine(s) && f in s.objs && !s.objs[f].phase.Done? && OwnCallbacks(s.objs[f].callbacks, f)
    ensures Genuine(Complete(s, f))
  {
    var s1 := Complete(s, f);
    assert ObjGenuine(s, f);
    assert WaitsOn(s, s1);
    forall h | h in s1.ready && h.WaitCb? && h !in s.ready ensures IsDone(s1, h.f) && FromCallbacks(s, h) {
      assert h in s.objs[f].callbacks;
    }
    forall t | t in s1.objs && s1.objs[t].phase.Waiting? && !s1.objs[t].cancel && Resume(t) in s1.ready
      ensures AnyDone(s1, s1.objs[t].phase.fs)
    {
      assert Resume(t) in s.ready;
      AnyStays(s, s1, s.objs[t].phase.fs);
    }
    if s1.root.Draining? && ResumeRoot in s1.ready {
      AnyStays(s, s1, s.root.waited);
    }
    Stays(s, s1);
  }

  // ------------------------------------------------- a new call of asyncio.wait

  lemma {:induction false} WaitCbsAre(s: State, w: Waiter, order: seq<Fut>, h: Handle)
    requires h in WaitCbs(s, w, order)
    ensures h.WaitCb? && h.w == w && h.gen == s.gen && h.f in order && IsDone(s, h.f)
  {
    if h in WaitCbs(s, w, order[1..]) {
      WaitCbsAre(s, w, order[1..], h);
    }
  }

  /** `s0` is `s` with the waiter put into a call of asyncio.wait for `fs`. */
  lemma RegisterGenuine(s: State, s0: State, w: Waiter, order: seq<Fut>, fs: set<Fut>)
    requires Genuine(s) && s0.gen == s.gen && s0.ready == s.ready && s0.objs.Keys == s.objs.Keys
    requires forall g :: g in s.objs ==> s0.objs[g].callbacks == s.objs[g].callbacks
    requires forall g :: g in s.objs && w != TaskWaiter(g) ==> s0.objs[g] == s.objs[g]
    requires forall g :: g in s.objs ==> (s0.objs[g].phase.Done? <==> s.objs[g].phase.Done?)
    requires w != RootWaiter ==> s0.root == s.root
    requires Awaited(s0, w, s.gen) && FsOf(s0, w, s.gen) == fs && Enumerates(order, fs)
    requires match w case RootWaiter => ResumeRoot !in s.ready case TaskWaiter(t) => Resume(t) !in s.ready
    ensures Genuine(Register(s0, w, order))
  {
    RegisterWaitsOn(s, s0, w, order);
    RegisterNewCbs(s, s0, w, order, fs);
    RegisterWakes(s, s0, w, order, fs);
    RegisterGens(s, s0, w, order);
    Stays(s, Register(s0, w, order));
  }

  lemma RegisterWaitsOn(s: State, s0: State, w: Waiter, order: seq<Fut>)
    requires s0.gen == s.gen && s0.objs.Keys == s.objs.Keys && Awaited(s0, w, s.gen)
    requires forall g :: g in s.objs && w != TaskWaiter(g) ==> s0.objs[g] == s.objs[g]
    requires forall g :: g in s.objs ==> (s0.objs[g].phase.Done? <==> s.objs[g].phase.Done?)
    requires w != RootWaiter ==> s0.root == s.root
    ensures WaitsOn(s, Register(s0, w, order))
  {
    var s1 := Register(s0, w, order);
    assert forall g :: g in s0.objs ==> g in s1.objs && s1.objs[g].phase == s0.objs[g].phase;
  }

  lemma RegisterGens(s: State, s0: State, w: Waiter, order: seq<Fut>)
    requires Genuine(s) && s0.gen == s.gen && s0.objs.Keys == s.objs.Keys && Awaited(s0, w, s.gen)
    requires forall g :: g in s.objs && w != TaskWaiter(g) ==> s0.objs[g] == s.objs[g]
    requires w != RootWaiter ==> s0.root == s.root
    ensures var s1 := Register(s0, w, order);
            && (s1.root.Draining? ==> s1.root.gen < s1.gen)
            && (forall g :: g in s1.objs && s1.objs[g].phase.Waiting? ==> s1.objs[g].phase.gen < s1.gen)
  {
    var s1 := Register(s0, w, order);
    forall g | g in s1.objs && s1.objs[g].phase.Waiting? ensures s1.objs[g].phase.gen < s1.gen {
      assert ObjGenuine(s, g);
    }
  }

  lemma RegisterNewCbs(s: State, s0: State, w: Waiter, order: seq<Fut>, fs: set<Fut>)
    requires s0.gen == s.gen && s0.ready == s.ready && s0.objs.Keys == s.objs.Keys
    requires forall g :: g in s.objs ==> s0.objs[g].callbacks == s.objs[g].callbacks
    requires forall g :: g in s.objs ==> (s0.objs[g].phase.Done? <==> s.objs[g].phase.Done?)
    requires Awaited(s0, w, s.gen) && FsOf(s0, w, s.gen) == fs && Enumerates(order, fs)
    ensures NewCbs(s, Register(s0, w, order))
  {
    var s1 := Register(s0, w, order);
    forall h | h in s1.ready && h.WaitCb? && h !in s.ready ensures IsDone(s1, h.f) && CbOk(s1, h) {
      WaitCbsAre(s0, w, order, h);
    }
    forall g, h | g in s1.objs && !s1.objs[g].phase.Done? && h in s1.objs[g].callbacks && h.WaitCb?
      ensures (g in s.objs && !s.objs[g].phase.Done? && h in s.objs[g].callbacks) || (h.f == g && CbOk(s1, h))
    {
      if h !in s.objs[g].callbacks {
        assert h == WaitCb(w, s.gen, g) && g in order;
      }
    }
  }

  lemma RegisterWakes(s: State, s0: State, w: Waiter, order: seq<Fut>, fs: set<Fut>)
    requires Genuine(s) && s0.gen == s.gen && s0.ready == s.ready && s0.objs.Keys == s.objs.Keys
    requires forall g :: g in s.objs && w != TaskWaiter(g) ==> s0.objs[g] == s.objs[g]
    requires w != RootWaiter ==> s0.root == s.root
    requires WaitsOn(s, Register(s0, w, order))
    requires match w case RootWaiter => ResumeRoot !in s.ready case TaskWaiter(t) => Resume(t) !in s.ready
    ensures WakeGenuine(Register(s0, w, order))
  {
    var s1 := Register(s0, w, order);
    forall h | h in s1.ready && h !in s.ready ensures h.WaitCb? {
      WaitCbsAre(s0, w, order, h);
    }
    forall t | t in s1.objs && s1.objs[t].phase.Waiting? && !s1.objs[t].cancel && Resume(t) in s1.ready
      ensures AnyDone(s1, s1.objs[t].phase.fs)
    {
      AnyStays(s, s1, s.objs[t].phase.fs);
    }
    if s1.root.Draining? && ResumeRoot in s1.ready {
      AnyStays(s, s1, s.root.waited);
    }
  }

  // ------------------------------------------------- turns

  lemma TaskWaitGenuine(s: State, t: Fut, second: bool, fs: set<Fut>, c: Choice)
    requires Genuine(s) && t in s.objs && !s.objs[t].phase.Done? && OwnCallbacks(s.objs[t].callbacks, t)
    requires Resume(t) !in s.ready && (fs != {} ==> Enumerates(c.waitOrder, fs))
    ensures Genuine(TaskWait(s, t, second, fs, c))
  {
    if fs == {} {
      CompleteGenuine(s, t);
    } else {
      var o := s.objs[t].(phase := Waiting(second, fs, s.gen), cancel := false, started := s.objs[t].started + fs);
      RegisterGenuine(s, SetObj(s, t, o), TaskWaiter(t), c.waitOrder, fs);
    }
  }

  /** What a turn of an object may rely on. */
  ghost predicate Turning(p: State, f: Fut) {
    && Inv(p) && Genuine(p) && f in p.objs && !p.objs[f].phase.Done?
    && OwnCallbacks(p.objs[f].callbacks, f) && Resume(f) !in p.ready
  }

  lemma TurnBegins(s: State, f: Fut)
    requires Inv(s) && Genuine(s) && s.ready != [] && s.ready[0] == Resume(f)
    ensures Turning(Pop(s), f)
  {
    ResumeIsLive(s, f);
    PopKeeps(s);
    PopGenuine(s);
    PopCounts(s, Resume(f));
    assert EntryOk(s, f);
    assert Count(Pop(s), Resume(f)) == 0;
  }

  lemma FreshGenuine(p: State, t: Fut, c: Choice)
    requires Turning(p, t) && p.objs[t].phase.Fresh? && forall f :: f in c.starts ==> f !in p.objs
    requires !p.objs[t].cancel ==> Enumerates(c.waitOrder, Elems(c.starts))
    ensures Genuine(StepTask(p, t, c))
  {
    if p.objs[t].cancel {
      CompleteGenuine(p, t);
    } else {
      var s1 := StartAll(p, CiJob, c.starts);
      StartGenuine(p, CiJob, c.starts);
      assert Resume(t) !in s1.ready;
      TaskWaitGenuine(s1, t, false, Elems(c.starts), c);
    }
  }

  lemma WaitingGenuine(p: State, t: Fut, c: Choice)
    requires Turning(p, t) && p.objs[t].phase.Waiting?
    requires var o := p.objs[t];
             && (o.cancel && !o.phase.second ==> t !in c.cancelOrder)
             && Enumerates(c.waitOrder,
                  if !o.cancel then Undone(p, o.phase.fs) else if o.phase.second then {} else o.phase.fs)
    ensures Genuine(StepTask(p, t, c))
  {
    var o := p.objs[t];
    if !o.cancel {
      TaskWaitGenuine(p, t, o.phase.second, Undone(p, o.phase.fs), c);
    } else if o.phase.second {
      CompleteGenuine(p, t);
    } else {
      var s1 := CancelAll(p, c.cancelOrder);
      CancelGenuine(p, c.cancelOrder);
      if Resume(t) in s1.ready {
        CancelWakesAre(p, c.cancelOrder, Resume(t));
      }
      TaskWaitGenuine(s1, t, true, o.phase.fs, c);
    }
  }

  lemma ActiveGenuine(p: State, f: Fut)
    requires Genuine(p) && f in p.objs && !p.objs[f].phase.Done? && !p.objs[f].phase.Waiting?
    ensures Genuine(SetObj(p, f, p.objs[f].(phase := Active, cancel := false)))
  {
    var s1 := SetObj(p, f, p.objs[f].(phase := Active, cancel := false));
    assert ObjGenuine(p, f);
    assert WaitsOn(p, s1);
    forall t | t in s1.objs && s1.objs[t].phase.Waiting? && !s1.objs[t].cancel && Resume(t) in s1.ready
      ensures AnyDone(s1, s1.objs[t].phase.fs)
    {
      AnyStays(p, s1, p.objs[t].phase.fs);
    }
    if s1.root.Draining? && ResumeRoot in s1.ready {
      AnyStays(p, s1, p.root.waited);
    }
    forall g | g in s1.objs && s1.objs[g].phase.Waiting? ensures s1.objs[g].phase.gen < s1.gen {
      assert ObjGenuine(p, g);
    }
    Stays(p, s1);
  }

  lemma BodyGenuine(p: State, f: Fut, c: Choice)
    requires Turning(p, f) && !p.objs[f].phase.Waiting? && forall g :: g in c.starts ==> g !in p.objs
    ensures Genuine(StepBody(p, f, c))
  {
    var s0 := SetObj(p, f, p.objs[f].(phase := Active, cancel := false));
    ActiveGenuine(p, f);
    StartGenuine(s0, CiTask, c.starts);
    if c.finish {
      CompleteGenuine(StartAll(s0, CiTask, c.starts), f);
    }
  }

  lemma ResumeGenuine(s: State, f: Fut, c: Choice)
    requires Inv(s) && Genuine(s) && s.ready != [] && s.ready[0] == Resume(f) && ChoiceOk(s, Resume(f), c)
    ensures Genuine(TurnOf(s, c))
  {
    TurnBegins(s, f);
    var o := s.objs[f];
    assert TaskOk(s, o);
    if !o.kind.CiTask? {
      BodyGenuine(Pop(s), f, c);
    } else if o.phase.Fresh? {
      FreshGenuine(Pop(s), f, c);
    } else {
      assert Undone(Pop(s), o.phase.fs) == Undone(s, o.phase.fs);
      WaitingGenuine(Pop(s), f, c);
    }
  }

  lemma DrainGenuine(s: State, c: Choice)
    requires Genuine(s) && ResumeRoot !in s.ready && (s.table != {} ==> Enumerates(c.waitOrder, s.table))
    ensures Genuine(EnterDrain(s, c))
  {
    if s.table == {} {
      forall h | h in CleanupCbs(s, c.waitOrder) ensures h.CleanupWaitCb? {
        CleanupCbsAreDone(s, c.waitOrder, h);
      }
      AppendGenuine(s, EnterDrain(s, c));
    } else {
      RegisterGenuine(s, s.(root := Draining(s.table, s.gen)), RootWaiter, c.waitOrder, s.table);
    }
  }

  lemma TableGenuine(s: State, table: set<Fut>)
    requires Genuine(s)
    ensures Genuine(s.(table := table))
  {
    AppendGenuine(s, s.(table := table));
  }

  lemma RootGenuine(s: State, c: Choice)
    requires Inv(s) && Genuine(s) && s.ready != [] && s.ready[0] == ResumeRoot && ChoiceOk(s, ResumeRoot, c)
    ensures Genuine(TurnOf(s, c))
  {
    var p := Pop(s);
    PopGenuine(s);
    PopCounts(s, ResumeRoot);
    assert Count(p, ResumeRoot) == 0;
    if s.root.AwaitStop? {
      var q := CancelAll(p, c.cancelOrder);
      CancelGenuine(p, c.cancelOrder);
      if ResumeRoot in q.ready {
        CancelWakesAre(p, c.cancelOrder, ResumeRoot);
      }
      DrainGenuine(q, c);
    } else if s.root.Draining? {
      assert DrainDone(p) == DrainDone(s);
      TableGenuine(p, p.table - DrainDone(p));
      DrainGenuine(p.(table := p.table - DrainDone(p)), c);
    } else {
      AppendGenuine(p, StepRoot(p, c));
    }
  }

  lemma CallbackGenuine(s: State, c: Choice)
    requires Genuine(s) && s.ready != [] && ChoiceOk(s, s.ready[0], c)
    requires !s.ready[0].Resume? && !s.ready[0].ResumeRoot?
    ensures Genuine(TurnOf(s, c))
  {
    var p, h := Pop(s), s.ready[0];
    PopGenuine(s);
    assert h.WaitCb? ==> CbOk(s, h) && IsDone(s, h.f);
    AppendGenuine(p, TurnOf(s, c));
  }

  // ------------------------------------------------- every step and every run

  lemma NextGenuine(s: State, a: Action)
    requires Inv(s) && Genuine(s) && Enabled(s, a)
    ensures Genuine(Next(s, a))
  {
    if a.Cancel? {
      CancelGenuine(s, [a.f]);
    } else if !a.Turn? {
      AppendGenuine(s, Next(s, a));
    } else if s.ready[0].Resume? {
      ResumeGenuine(s, s.ready[0].f, a.c);
    } else if s.ready[0].ResumeRoot? {
      RootGenuine(s, a.c);
    } else {
      CallbackGenuine(s, a.c);
    }
  }

  lemma InitGenuine(services: seq<Fut>)
    ensures Genuine(Init(services))
  {
    StartGenuine(State([], map[], {}, [], {}, AwaitStop, 0), Service, services);
  }

  lemma {:induction false} GenuineRun(s: State, acts: seq<Action>)
    requires Inv(s) && Genuine(s) && ValidRun(s, acts)
    ensures Genuine(Final(s, acts))
    decreases |acts|
  {
    if acts != [] {
      NextGenuine(s, acts[0]);
      NextKeeps(s, acts[0]);
      GenuineRun(Next(s, acts[0]), acts[1..]);
    }
  }
}
