/**
 The tables of the daemon, updated in place as rallyci/root.py does it, each method proved against
 the function of the same step in the event loop.
 */
module RootTables {
  import opened Sequences
  import opened EventLoop

  class Root {
    var running: map<Fut, Kind>        // _running_objects
    var cleanups: seq<Fut>             // _running_cleanups
    var futures: map<Fut, Obj>         // the state inside each future
    var ready: seq<Handle>             // the loop's queue
    var waits: nat

    /** The object has the tables, futures and queue of the state `s`. */
    ghost predicate Shows(s: State)
      reads this
    {
      running.Keys == s.table && cleanups == s.cleanups && futures == s.objs && ready == s.ready && waits == s.gen
    }

    method StartObj(f: Fut, kind: Kind, ghost s: State)
      requires Shows(s)
      modifies this
      ensures Shows(StartOne(s, kind, f))
    {
      ready := ready + [Resume(f)];
      futures := futures[f := Obj(kind, Fresh, false, 0, {}, [CleanupCb(f)])];
      running := running[f := kind];
    }

    /** The loops of start_services and Task.run. */
    method StartObjs(fs: seq<Fut>, kind: Kind, ghost s: State)
      requires Shows(s)
      modifies this
      ensures Shows(StartEach(s, kind, fs))
    {
      ghost var cur := s;
      for i := 0 to |fs|
        invariant Shows(cur) && StartEach(cur, kind, fs[i..]) == StartEach(s, kind, fs)
      {
        StartObj(fs[i], kind, cur);
        cur := StartOne(cur, kind, fs[i]);
        assert fs[i..][1..] == fs[i + 1..];
      }
    }

    /** schedule_cleanup; `raised` is the KeyError of a future that is no longer in the table. */
    method ScheduleCleanup(f: Fut, ghost s: State) returns (raised: bool)
      requires Shows(s)
      modifies this
      ensures Shows(StepCleanupCb(s, f)) && (raised <==> f !in s.table)
    {
      if f !in running {
        return true;
      }
      running := running - {f};
      ready := ready + [ResumeCleanup(f)];
      cleanups := cleanups + [f];
      return false;
    }

    /** The inner loop of wait_fs on the table, over the futures that asyncio.wait reports done. */
    method DeleteDone(done: seq<Fut>, ghost s: State)
      requires Shows(s) && s.root.Draining? && Elems(done) == DrainDone(s)
      modifies this
      ensures Shows(s.(table := s.table - DrainDone(s)))
    {
      for i := 0 to |done|
        invariant Shows(s.(table := s.table - Elems(done[..i])))
      {
        assert Elems(done[..i + 1]) == Elems(done[..i]) + {done[i]};
        if done[i] in running {
          running := running - {done[i]};
        }
      }
      assert done[..|done|] == done;
    }

    /** fut.cancel() */
    method CancelFuture(f: Fut, ghost s: State)
      requires Shows(s)
      modifies this
      ensures Shows(CancelOne(s, f))
    {
      if f in futures && !futures[f].phase.Done? {
        futures := futures[f := futures[f].(cancel := true, cancels := futures[f].cancels + 1)];
        if Resume(f) !in ready {
          ready := ready + [Resume(f)];
        }
      }
    }

    /** The loops of Root.run and Task.run that cancel futures. */
    method CancelFutures(order: seq<Fut>, ghost s: State)
      requires Shows(s)
      modifies this
      ensures Shows(CancelEach(s, order))
    {
      ghost var cur := s;
      for i := 0 to |order|
        invariant Shows(cur) && CancelEach(cur, order[i..]) == CancelEach(s, order)
      {
        CancelFuture(order[i], cur);
        cur := CancelOne(cur, order[i]);
        assert order[i..][1..] == order[i + 1..];
      }
    }

    /** fut.add_done_callback in asyncio.wait */
    method RegisterOn(w: Waiter, f: Fut, ghost s: State)
      requires Shows(s)
      modifies this
      ensures Shows(RegisterOne(s, w, f))
    {
      if f in futures {
        if futures[f].phase.Done? {
          ready := ready + [WaitCb(w, waits, f)];
        } else {
          futures := futures[f := futures[f].(callbacks := futures[f].callbacks + [WaitCb(w, waits, f)])];
        }
      }
    }

    method RegisterWait(w: Waiter, order: seq<Fut>, ghost s: State)
      requires Shows(s)
      modifies this
      ensures Shows(RegisterEach(s, w, order))
    {
      ghost var cur := s;
      for i := 0 to |order|
        invariant Shows(cur) && RegisterEach(cur, w, order[i..]) == RegisterEach(s, w, order)
      {
        RegisterOn(w, order[i], cur);
        cur := RegisterOne(cur, w, order[i]);
        assert order[i..][1..] == order[i + 1..];
      }
      waits := waits + 1;
    }
  }

  // ---------------------------------------------------------------- one future at a time

  function StartOne(s: State, kind: Kind, f: Fut): State {
    s.(ready := s.ready + [Resume(f)],
       objs := s.objs[f := Obj(kind, Fresh, false, 0, {}, [CleanupCb(f)])],
       table := s.table + {f})
  }

  function StartEach(s: State, kind: Kind, fs: seq<Fut>): State
    decreases |fs|
  {
    if fs == [] then s else StartEach(StartOne(s, kind, fs[0]), kind, fs[1..])
  }

  function CancelOne(s: State, f: Fut): State {
    if !Cancellable(s, f) then s
    else s.(ready := s.ready + (if Resume(f) !in s.ready then [Resume(f)] else []),
            objs := s.objs[f := s.objs[f].(cancel := true, cancels := s.objs[f].cancels + 1)])
  }

  function CancelEach(s: State, order: seq<Fut>): State
    decreases |order|
  {
    if order == [] then s else CancelEach(CancelOne(s, order[0]), order[1..])
  }

  function RegisterOne(s: State, w: Waiter, f: Fut): State {
    if f !in s.objs then s
    else if IsDone(s, f) then s.(ready := s.ready + [WaitCb(w, s.gen, f)])
    else s.(objs := s.objs[f := s.objs[f].(callbacks := s.objs[f].callbacks + [WaitCb(w, s.gen, f)])])
  }

  function RegisterEach(s: State, w: Waiter, order: seq<Fut>): State
    decreases |order|
  {
    if order == [] then s.(gen := s.gen + 1) else RegisterEach(RegisterOne(s, w, order[0]), w, order[1..])
  }

  // ---------------------------------------------------------------- the loops are the steps of the event loop

  lemma ResumesFirst(fs: seq<Fut>)
    requires fs != []
    ensures Resumes(fs) == [Resume(fs[0])] + Resumes(fs[1..])
  {
  }

  /** `more` is `objs` with new objects for `fs`. */
  ghost predicate WithNew(objs: map<Fut, Obj>, kind: Kind, fs: seq<Fut>, more: map<Fut, Obj>) {
    && more.Keys == objs.Keys + Elems(fs)
    && forall f :: f in more ==> more[f] == if f in fs then Obj(kind, Fresh, false, 0, {}, [CleanupCb(f)]) else objs[f]
  }

  lemma StartAllObjs(s: State, kind: Kind, fs: seq<Fut>)
    ensures WithNew(s.objs, kind, fs, StartAll(s, kind, fs).objs)
  {
  }

  lemma WithNewFirst(objs: map<Fut, Obj>, kind: Kind, fs: seq<Fut>, a: map<Fut, Obj>, b: map<Fut, Obj>)
    requires fs != [] && WithNew(objs, kind, fs, b)
    requires WithNew(objs[fs[0] := Obj(kind, Fresh, false, 0, {}, [CleanupCb(fs[0])])], kind, fs[1..], a)
    ensures a == b
  {
    assert forall f :: f in fs <==> f == fs[0] || f in fs[1..];
    assert a.Keys == b.Keys;
  }

  lemma StartFirst(s: State, kind: Kind, fs: seq<Fut>, s1: State, a: State, b: State)
    requires fs != [] && s1 == StartOne(s, kind, fs[0])
    requires a == s1.(objs := a.objs, ready := s1.ready + Resumes(fs[1..]), table := s1.table + Elems(fs[1..]))
    requires b == s.(objs := b.objs, ready := s.ready + Resumes(fs), table := s.table + Elems(fs))
    requires a.objs == b.objs
    ensures a == b
  {
    ResumesFirst(fs);
    Regroup(s.ready, [Resume(fs[0])], Resumes(fs[1..]));
    assert Elems(fs) == {fs[0]} + Elems(fs[1..]);
  }

  lemma {:induction false} StartEachIsAll(s: State, kind: Kind, fs: seq<Fut>)
    ensures StartEach(s, kind, fs) == StartAll(s, kind, fs)
    decreases |fs|
  {
    if fs != [] {
      var s1 := StartOne(s, kind, fs[0]);
      StartEachIsAll(s1, kind, fs[1..]);
      StartAllObjs(s, kind, fs);
      StartAllObjs(s1, kind, fs[1..]);
      var a, b := StartAll(s1, kind, fs[1..]), StartAll(s, kind, fs);
      WithNewFirst(s.objs, kind, fs, a.objs, b.objs);
      StartFirst(s, kind, fs, s1, a, b);
    }
  }

  lemma {:induction false} SameWakes(s: State, s1: State, order: seq<Fut>)
    requires forall f :: f in order ==>
        (Cancellable(s, f) <==> Cancellable(s1, f)) && (Resume(f) in s.ready <==> Resume(f) in s1.ready)
    ensures CancelWakes(s, order) == CancelWakes(s1, order)
  {
    if order != [] {
      SameWakes(s, s1, order[1..]);
    }
  }

  lemma OthersQueued(s: State, g: Fut, f: Fut, s1: State)
    requires f != g && s1 == CancelOne(s, g)
    ensures (Cancellable(s, f) <==> Cancellable(s1, f)) && (Resume(f) in s.ready <==> Resume(f) in s1.ready)
  {
  }

  lemma CancelOneReady(s: State, g: Fut, s1: State, rest: seq<Handle>)
    requires s1 == CancelOne(s, g)
    ensures s1.ready + rest ==
            s.ready + ((if Cancellable(s, g) && Resume(g) !in s.ready then [Resume(g)] else []) + rest)
  {
    var first := if Cancellable(s, g) && Resume(g) !in s.ready then [Resume(g)] else [];
    assert s1.ready == s.ready + first;
    Regroup(s.ready, first, rest);
  }

  lemma CancelFirstReady(s: State, order: seq<Fut>, s1: State)
    requires order != [] && Distinct(order) && s1 == CancelOne(s, order[0])
    ensures s1.ready + CancelWakes(s1, order[1..]) == s.ready + CancelWakes(s, order)
  {
    var rest := order[1..];
    forall f | f in rest
      ensures (Cancellable(s, f) <==> Cancellable(s1, f)) && (Resume(f) in s.ready <==> Resume(f) in s1.ready)
    {
      OthersQueued(s, order[0], f, s1);
    }
    SameWakes(s, s1, rest);
    CancelOneReady(s, order[0], s1, CancelWakes(s, rest));
  }

  lemma CancelFirstObjs(s: State, order: seq<Fut>, s1: State)
    requires order != [] && Distinct(order) && s1 == CancelOne(s, order[0])
    ensures CancelAll(s1, order[1..]).objs == CancelAll(s, order).objs
  {
    assert forall f :: f in order[1..] ==> f != order[0];
    assert forall f :: f in order <==> f == order[0] || f in order[1..];
  }

  lemma CancelFirst(s: State, order: seq<Fut>, s1: State)
    requires order != [] && Distinct(order) && s1 == CancelOne(s, order[0])
    ensures CancelAll(s1, order[1..]) == CancelAll(s, order)
  {
    CancelFirstReady(s, order, s1);
    CancelFirstObjs(s, order, s1);
  }

  lemma {:induction false} CancelEachIsAll(s: State, order: seq<Fut>)
    requires Distinct(order)
    ensures CancelEach(s, order) == CancelAll(s, order)
    decreases |order|
  {
    if order != [] {
      var s1 := CancelOne(s, order[0]);
      CancelEachIsAll(s1, order[1..]);
      CancelFirst(s, order, s1);
    }
  }

  lemma {:induction false} SameCbs(s: State, s1: State, w: Waiter, order: seq<Fut>)
    requires s.gen == s1.gen && forall f :: f in order ==> (IsDone(s, f) <==> IsDone(s1, f))
    ensures WaitCbs(s, w, order) == WaitCbs(s1, w, order)
  {
    if order != [] {
      SameCbs(s, s1, w, order[1..]);
    }
  }

  lemma RegisterFirstReady(s: State, w: Waiter, order: seq<Fut>, s1: State)
    requires order != [] && Distinct(order) && s1 == RegisterOne(s, w, order[0])
    ensures s1.ready + WaitCbs(s1, w, order[1..]) == s.ready + WaitCbs(s, w, order)
  {
    SameCbs(s, s1, w, order[1..]);
    var first := if IsDone(s, order[0]) then [WaitCb(w, s.gen, order[0])] else [];
    assert s1.ready == s.ready + first;
    Regroup(s.ready, first, WaitCbs(s, w, order[1..]));
  }

  lemma RegisterFirstAt(s: State, w: Waiter, order: seq<Fut>, s1: State, f: Fut)
    requires order != [] && Distinct(order) && s1 == RegisterOne(s, w, order[0]) && f in s.objs
    ensures Register(s1, w, order[1..]).objs[f] == Register(s, w, order).objs[f]
  {
    assert f in order[1..] ==> f != order[0];
    assert f in order <==> f == order[0] || f in order[1..];
  }

  lemma RegisterFirstObjs(s: State, w: Waiter, order: seq<Fut>, s1: State)
    requires order != [] && Distinct(order) && s1 == RegisterOne(s, w, order[0])
    ensures Register(s1, w, order[1..]).objs == Register(s, w, order).objs
  {
    var a, b := Register(s1, w, order[1..]).objs, Register(s, w, order).objs;
    assert a.Keys == b.Keys == s.objs.Keys;
    forall f | f in s.objs ensures a[f] == b[f] {
      RegisterFirstAt(s, w, order, s1, f);
    }
  }

  lemma RegisterFirst(s: State, w: Waiter, order: seq<Fut>, s1: State)
    requires order != [] && Distinct(order) && s1 == RegisterOne(s, w, order[0])
    ensures Register(s1, w, order[1..]) == Register(s, w, order)
  {
    RegisterFirstReady(s, w, order, s1);
    RegisterFirstObjs(s, w, order, s1);
  }

  lemma {:induction false} RegisterEachIsAll(s: State, w: Waiter, order: seq<Fut>)
    requires Distinct(order)
    ensures RegisterEach(s, w, order) == Register(s, w, order)
    decreases |order|
  {
    if order != [] {
      var s1 := RegisterOne(s, w, order[0]);
      RegisterEachIsAll(s1, w, order[1..]);
      RegisterFirst(s, w, order, s1);
    }
  }
}
