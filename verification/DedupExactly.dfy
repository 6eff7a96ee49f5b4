/**
 Exactly when deduplication works: one live task per key, and a key set that is what live tasks
 and leaks reserve.
 */
module DedupExactly {
  import opened Dedup

  /** The step releases the key of a deduplicated task that is still live: it is the cleanup of
      another task with the same key. */
  predicate Steals(s: State, a: Action)
    requires Enabled(s, a)
  {
    a.Cleanup? && exists id :: id in s.live && id != a.id && Keyed(s.live[id]) && Key(s.live[id]) == Key(s.live[a.id])
  }

  predicate NeverSteals(known: set<string>, s: State, acts: seq<Action>)
    requires ValidRun(known, s, acts)
    decreases |acts|
  {
    acts == [] || (!Steals(s, acts[0]) && NeverSteals(known, Next(known, s, acts[0]), acts[1..]))
  }

  /** Live deduplicated tasks have reserved their keys, each its own. */
  predicate Reserving(known: set<string>, s: State) {
    && OnePerKey(s)
    && forall i :: i in s.live ==> Known(known, s.live[i]) && (Keyed(s.live[i]) ==> Key(s.live[i]) in s.tasks)
  }

  lemma ReservingStep(known: set<string>, s: State, a: Action)
    requires Reserving(known, s) && Enabled(s, a) && !Steals(s, a)
    ensures Reserving(known, Next(known, s, a))
  {
  }

  lemma {:induction false} ReservingRun(known: set<string>, s: State, acts: seq<Action>)
    requires Reserving(known, s) && ValidRun(known, s, acts) && NeverSteals(known, s, acts)
    ensures Reserving(known, Final(known, s, acts))
    decreases |acts|
  {
    if acts != [] {
      ReservingStep(known, s, acts[0]);
      ReservingRun(known, Next(known, s, acts[0]), acts[1..]);
    }
  }

  /** One live task per key now and after any run without such a step. */
  ghost predicate StaysOne(known: set<string>, s: State) {
    forall acts :: ValidRun(known, s, acts) && NeverSteals(known, s, acts) ==> OnePerKey(Final(known, s, acts))
  }

  /** After such a step, the event of the robbed task is accepted a second time. */
  lemma TheftSurfaces(known: set<string>, s: State, a: Action) returns (acts: seq<Action>)
    requires Reserving(known, s) && Enabled(s, a) && Steals(s, a)
    ensures var s1 := Next(known, s, a);
            ValidRun(known, s1, acts) && NeverSteals(known, s1, acts) && !OnePerKey(Final(known, s1, acts))
  {
    var s1 := Next(known, s, a);
    var id :| id in s.live && id != a.id && Keyed(s.live[id]) && Key(s.live[id]) == Key(s.live[a.id]);
    var again := Arrive(a.id, s.live[id], false);
    acts := [again];
    assert acts[1..] == [];
    var s2 := Next(known, s1, again);
    assert ValidRun(known, s2, []) && Final(known, s2, []) == s2;
    assert ValidRun(known, s1, acts) && Final(known, s1, acts) == s2;
    assert id in s2.live && a.id in s2.live && s2.live[id] == s2.live[a.id];
  }

  /** From a good state, a step steals no key if and only if there is one live task per key after it
      and in all continuations without theft. */
  lemma TheftExactly(known: set<string>, s: State, a: Action)
    requires Reserving(known, s) && Enabled(s, a)
    ensures !Steals(s, a) <==> StaysOne(known, Next(known, s, a))
  {
    if Steals(s, a) {
      var acts := TheftSurfaces(known, s, a);
    } else {
      ReservingStep(known, s, a);
      GoodStaysOne(known, Next(known, s, a));
    }
  }

  lemma GoodStaysOne(known: set<string>, s: State)
    requires Reserving(known, s)
    ensures StaysOne(known, s)
  {
    forall acts | ValidRun(known, s, acts) && NeverSteals(known, s, acts) ensures OnePerKey(Final(known, s, acts)) {
      ReservingRun(known, s, acts);
    }
  }

  ghost predicate AlwaysOne(known: set<string>, s: State, acts: seq<Action>)
    requires ValidRun(known, s, acts)
    decreases |acts|
  {
    StaysOne(known, s) && (acts == [] || AlwaysOne(known, Next(known, s, acts[0]), acts[1..]))
  }

  lemma {:induction false} OneFrom(known: set<string>, s: State, acts: seq<Action>)
    requires Reserving(known, s) && ValidRun(known, s, acts)
    ensures AlwaysOne(known, s, acts) <==> NeverSteals(known, s, acts)
    decreases |acts|
  {
    GoodStaysOne(known, s);
    if acts != [] {
      TheftExactly(known, s, acts[0]);
      if !Steals(s, acts[0]) {
        ReservingStep(known, s, acts[0]);
        OneFrom(known, Next(known, s, acts[0]), acts[1..]);
      }
    }
  }

  /** Over a run, whatever events come and whatever raises: one live task per key is sure from each of
      its states on if and only if no cleanup in it releases the key of another live task. */
  lemma DedupExactly(known: set<string>, acts: seq<Action>)
    requires ValidRun(known, Init(), acts)
    ensures AlwaysOne(known, Init(), acts) <==> NeverSteals(known, Init(), acts)
  {
    OneFrom(known, Init(), acts);
  }

  // ---------------------------------------------------------------- the key set

  predicate NeverRobs(known: set<string>, s: State, acts: seq<Action>)
    requires ValidRun(known, s, acts)
    decreases |acts|
  {
    acts == [] || (!Robs(s, acts[0]) && NeverRobs(known, Next(known, s, acts[0]), acts[1..]))
  }

  ghost predicate AlwaysInv(known: set<string>, s: State, acts: seq<Action>)
    requires ValidRun(known, s, acts)
    decreases |acts|
  {
    Inv(s) && (acts == [] || AlwaysInv(known, Next(known, s, acts[0]), acts[1..]))
  }

  lemma {:induction false} KeySetFrom(known: set<string>, s: State, acts: seq<Action>)
    requires Inv(s) && ValidRun(known, s, acts)
    ensures AlwaysInv(known, s, acts) <==> NeverRobs(known, s, acts)
    decreases |acts|
  {
    if acts != [] {
      StepExactly(known, s, acts[0]);
      if !Robs(s, acts[0]) {
        KeySetFrom(known, Next(known, s, acts[0]), acts[1..]);
      }
    }
  }

  /** Over a run, the key set is throughout what the live tasks and the leaks reserve, if and only if no
      ref-updated cleanup in it finds its key in the set. */
  lemma KeySetExactly(known: set<string>, acts: seq<Action>)
    requires ValidRun(known, Init(), acts)
    ensures AlwaysInv(known, Init(), acts) <==> NeverRobs(known, Init(), acts)
  {
    KeySetFrom(known, Init(), acts);
  }
}
