/**
 Deduplication of events (rallyci/services/gerrit.py: _get_task and _handle_line;
 rallyci/task.py: get_key and the beginning of Task.cleanup; rallyci/root.py: start_task).
 */
module Dedup {
  import opened Options

  datatype Kind = PatchsetCreated | CommentAdded(recheck: bool) | RefUpdated | OtherKind

  /** The fields of an event that matter: change.project, patchSet.ref and refUpdate.project. */
  datatype Event = Event(kind: Kind, project: Option<string>, ref: Option<string>, refProject: Option<string>)

  function ProjectOf(e: Event): Option<string> {
    if e.project.Some? && e.project.value != "" then e.project
    else if e.refProject.Some? && e.refProject.value != "" then e.refProject
    else None
  }

  /** get_key: any missing field gives the empty key. */
  function Key(e: Event): string {
    if e.project.Some? && e.ref.Some? then e.project.value + e.ref.value else ""
  }

  predicate Known(known: set<string>, e: Event) {
    ProjectOf(e).Some? && ProjectOf(e).value in known
  }

  /** A new patch set or a recheck: the kinds of event that are deduplicated. */
  predicate Keyed(e: Event) {
    e.kind.PatchsetCreated? || (e.kind.CommentAdded? && e.kind.recheck)
  }

  // ---------------------------------------------------------------- the stream

  datatype Answer = Ignored | Task | Failed

  class Stream {
    var tasks: set<string>

    constructor ()
      ensures tasks == {}
    {
      tasks := {};
    }

    /** _get_task, then start_task: `raises` is whether the constructor of the task or a
        start handler raises. */
    method HandleEvent(known: set<string>, e: Event, raises: bool) returns (answer: Answer)
      modifies this
      ensures tasks == Reserved(old(tasks), known, e)
      ensures answer == AnswerTo(old(tasks), known, e, raises)
      ensures (e.project.None? || e.project.value !in known) && (e.refProject.None? || e.refProject.value !in known) ==>
                answer == Ignored && tasks == old(tasks)
      ensures e.kind == OtherKind || e.kind == CommentAdded(false) ==> answer == Ignored && tasks == old(tasks)
      ensures (e.kind == PatchsetCreated || e.kind == CommentAdded(true)) && e.project.Some? && e.project.value in known
              && e.project.value != "" && e.ref.Some? && e.project.value + e.ref.value !in old(tasks) ==>
                && answer == (if raises then Failed else Task)
                && tasks == old(tasks) + {e.project.value + e.ref.value}
      ensures e.project.Some? && e.project.value != "" && e.project.value !in known ==>
                answer == Ignored && tasks == old(tasks)
      ensures e.kind == RefUpdated && (e.project.None? || e.project.value == "") && e.refProject.Some?
              && e.refProject.value != "" && e.refProject.value in known ==>
                answer == (if raises then Failed else Task) && tasks == old(tasks)
    {
      if !Known(known, e) {
        return Ignored;
      }
      match e.kind {
        case PatchsetCreated =>
          if Key(e) in tasks {
            return Ignored;
          }
          tasks := tasks + {Key(e)};
        case CommentAdded(recheck) =>
          if !recheck || Key(e) in tasks {
            return Ignored;
          }
          tasks := tasks + {Key(e)};
        case RefUpdated =>
        case OtherKind =>
          return Ignored;
      }
      return if raises then Failed else Task;
    }

    /** The first steps of Task.cleanup; when set.remove raises, nothing else of it happens. */
    method BeginCleanup(e: Event) returns (raised: bool)
      modifies this
      ensures tasks == old(tasks) - {Key(e)} && (raised <==> Key(e) !in old(tasks))
      ensures raised ==> tasks == old(tasks)
    {
      if Key(e) !in tasks {
        return true;
      }
      tasks := tasks - {Key(e)};
      return false;
    }
  }

  function Reserved(tasks: set<string>, known: set<string>, e: Event): set<string> {
    if Known(known, e) && Keyed(e) then tasks + {Key(e)} else tasks
  }

  function AnswerTo(tasks: set<string>, known: set<string>, e: Event, raises: bool): Answer {
    if Known(known, e) && (e.kind.RefUpdated? || (Keyed(e) && Key(e) !in tasks)) then (if raises then Failed else Task)
    else Ignored
  }

  // ---------------------------------------------------------------- runs

  type TaskId = nat

  /** `live` are the started tasks whose cleanup has not begun, `leaked` (history) the keys of
      accepted events whose task was never started. */
  datatype State = State(tasks: set<string>, live: map<TaskId, Event>, leaked: set<string>)

  datatype Action =
    | Arrive(id: TaskId, e: Event, raises: bool)
    | Cleanup(id: TaskId)

  predicate Enabled(s: State, a: Action) {
    match a
    case Arrive(id, e, raises) => id !in s.live
    case Cleanup(id) => id in s.live
  }

  function Next(known: set<string>, s: State, a: Action): State
    requires Enabled(s, a)
  {
    match a
    case Arrive(id, e, raises) =>
      var answer := AnswerTo(s.tasks, known, e, raises);
      s.(tasks := Reserved(s.tasks, known, e),
         live := if answer.Task? then s.live[id := e] else s.live,
         leaked := if answer.Failed? && Keyed(e) then s.leaked + {Key(e)} else s.leaked)
    case Cleanup(id) =>
      s.(tasks := s.tasks - {Key(s.live[id])}, live := s.live - {id})
  }

  function Init(): State {
    State({}, map[], {})
  }

  predicate ValidRun(known: set<string>, s: State, acts: seq<Action>)
    decreases |acts|
  {
    acts == [] || (Enabled(s, acts[0]) && ValidRun(known, Next(known, s, acts[0]), acts[1..]))
  }

  function Final(known: set<string>, s: State, acts: seq<Action>): State
    requires ValidRun(known, s, acts)
    decreases |acts|
  {
    if acts == [] then s else Final(known, Next(known, s, acts[0]), acts[1..])
  }

  // ---------------------------------------------------------------- the invariant

  predicate LiveKey(s: State, k: string) {
    exists id :: id in s.live && Keyed(s.live[id]) && Key(s.live[id]) == k
  }

  predicate OnePerKey(s: State) {
    forall i, j :: i in s.live && j in s.live && Keyed(s.live[i]) && Keyed(s.live[j]) && i != j ==>
      Key(s.live[i]) != Key(s.live[j])
  }

  /** The key set is what the live tasks and the leaks reserve, and no two live tasks share a key. */
  ghost predicate Inv(s: State) {
    && (forall k :: k in s.tasks <==> LiveKey(s, k) || k in s.leaked)
    && (forall k :: k in s.leaked ==> !LiveKey(s, k))
    && OnePerKey(s)
    && (forall i :: i in s.live ==> Keyed(s.live[i]) || s.live[i].kind.RefUpdated?)
  }

  /** The cleanup of a ref-updated task takes away a key that is not its own. */
  predicate Robs(s: State, a: Action)
    requires Enabled(s, a)
  {
    a.Cleanup? && s.live[a.id].kind.RefUpdated? && Key(s.live[a.id]) in s.tasks
  }

  lemma ArriveKeeps(known: set<string>, s: State, a: Action)
    requires Inv(s) && Enabled(s, a) && a.Arrive?
    ensures Inv(Next(known, s, a))
  {
    var s1 := Next(known, s, a);
    var k := Key(a.e);
    forall x ensures LiveKey(s1, x) <==> LiveKey(s, x) || (a.id in s1.live && Keyed(a.e) && x == k) {
      if LiveKey(s, x) {
        var id :| id in s.live && Keyed(s.live[id]) && Key(s.live[id]) == x;
        assert id in s1.live && s1.live[id] == s.live[id];
      }
    }
    forall i | i in s.live && Keyed(s.live[i]) ensures Key(s.live[i]) in s.tasks {
      assert LiveKey(s, Key(s.live[i]));
    }
  }

  lemma CleanupStep(known: set<string>, s: State, a: Action)
    requires Inv(s) && Enabled(s, a) && a.Cleanup?
    ensures Inv(Next(known, s, a)) <==> !Robs(s, a)
  {
    var s1 := Next(known, s, a);
    var e := s.live[a.id];
    forall x ensures LiveKey(s1, x) <==> LiveKey(s, x) && !(Keyed(e) && Key(e) == x) {
      if LiveKey(s, x) && !(Keyed(e) && Key(e) == x) {
        var id :| id in s.live && Keyed(s.live[id]) && Key(s.live[id]) == x;
        assert id in s1.live && s1.live[id] == s.live[id];
      }
    }
    if Keyed(e) {
      assert LiveKey(s, Key(e));
    }
  }

  /** A step keeps the invariant unless, and only unless, it is such a cleanup. */
  lemma StepExactly(known: set<string>, s: State, a: Action)
    requires Inv(s) && Enabled(s, a)
    ensures Inv(Next(known, s, a)) <==> !Robs(s, a)
  {
    if a.Arrive? {
      ArriveKeeps(known, s, a);
    } else {
      CleanupStep(known, s, a);
    }
  }

  // ---------------------------------------------------------------- well-formed events

  /** Deduplicated events have a key, ref-updated events have none. */
  predicate WellFormed(a: Action) {
    a.Arrive? ==> (Keyed(a.e) ==> Key(a.e) != "") && (a.e.kind.RefUpdated? ==> Key(a.e) == "")
  }

  predicate AllWellFormed(acts: seq<Action>) {
    forall i :: 0 <= i < |acts| ==> WellFormed(acts[i])
  }

  ghost predicate Strong(s: State) {
    && Inv(s) && "" !in s.tasks
    && forall i :: i in s.live && s.live[i].kind.RefUpdated? ==> Key(s.live[i]) == ""
  }

  lemma StrongStep(known: set<string>, s: State, a: Action)
    requires Strong(s) && Enabled(s, a) && WellFormed(a)
    ensures Strong(Next(known, s, a)) && !Robs(s, a)
  {
    StepExactly(known, s, a);
  }

  lemma {:induction false} StrongRun(known: set<string>, s: State, acts: seq<Action>)
    requires Strong(s) && ValidRun(known, s, acts) && AllWellFormed(acts)
    ensures Strong(Final(known, s, acts))
    decreases |acts|
  {
    if acts != [] {
      StrongStep(known, s, acts[0]);
      StrongRun(known, Next(known, s, acts[0]), acts[1..]);
    }
  }

  predicate NothingRaises(acts: seq<Action>) {
    forall i :: 0 <= i < |acts| && acts[i].Arrive? ==> !acts[i].raises
  }

  lemma {:induction false} NothingLeaks(known: set<string>, s: State, acts: seq<Action>)
    requires ValidRun(known, s, acts) && NothingRaises(acts)
    ensures Final(known, s, acts).leaked == s.leaked
    decreases |acts|
  {
    if acts != [] {
      NothingLeaks(known, Next(known, s, acts[0]), acts[1..]);
    }
  }

  /** In every run of well-formed events in which nothing raises, the key set is exactly the keys of
      the live patch-set and recheck tasks, and there is at most one of them per key. */
  lemma OneTaskPerKey(known: set<string>, acts: seq<Action>)
    requires ValidRun(known, Init(), acts) && AllWellFormed(acts) && NothingRaises(acts)
    ensures var s := Final(known, Init(), acts);
            && (forall k :: k in s.tasks <==> LiveKey(s, k))
            && OnePerKey(s)
  {
    StrongRun(known, Init(), acts);
    NothingLeaks(known, Init(), acts);
  }

  /** In such a run an event for a known project starts a task exactly when no live task has its key;
      a ref-updated event always does. */
  lemma AcceptedExactly(known: set<string>, acts: seq<Action>, a: Action)
    requires ValidRun(known, Init(), acts) && AllWellFormed(acts) && NothingRaises(acts)
    requires a.Arrive? && !a.raises && Known(known, a.e) && Enabled(Final(known, Init(), acts), a)
    ensures var s := Final(known, Init(), acts);
            && (Keyed(a.e) ==> (a.id in Next(known, s, a).live <==> !LiveKey(s, Key(a.e))))
            && (a.e.kind.RefUpdated? ==> a.id in Next(known, s, a).live)
  {
    OneTaskPerKey(known, acts);
  }

  predicate InKnown(known: set<string>, project: Option<string>) {
    project.Some? && project.value in known
  }

  /** Events of projects that are not configured, and of other kinds, change nothing in any state. */
  lemma OthersIgnored(known: set<string>, s: State, a: Action)
    requires Enabled(s, a) && a.Arrive?
    requires || (!InKnown(known, a.e.project) && !InKnown(known, a.e.refProject))
             || a.e.kind == OtherKind || a.e.kind == CommentAdded(false)
    ensures Next(known, s, a) == s
  {
  }

  /** What a live task is: a new patch set, a recheck or an updated ref, of a configured project. */
  predicate Watched(known: set<string>, e: Event) {
    && (InKnown(known, e.project) || InKnown(known, e.refProject))
    && (e.kind == PatchsetCreated || e.kind == CommentAdded(true) || e.kind == RefUpdated)
  }

  lemma {:induction false} LiveIsProper(known: set<string>, s: State, acts: seq<Action>)
    requires ValidRun(known, s, acts) && forall i :: i in s.live ==> Watched(known, s.live[i])
    ensures forall i :: i in Final(known, s, acts).live ==> Watched(known, Final(known, s, acts).live[i])
    decreases |acts|
  {
    if acts != [] {
      LiveIsProper(known, Next(known, s, acts[0]), acts[1..]);
    }
  }

  /** A ref-updated task changes the set neither when it starts nor when its cleanup begins, and that
      cleanup raises. */
  lemma RefUpdatedNeutral(known: set<string>, acts: seq<Action>, a: Action)
    requires ValidRun(known, Init(), acts) && AllWellFormed(acts)
    requires Enabled(Final(known, Init(), acts), a)
    ensures var s := Final(known, Init(), acts);
            && (a.Arrive? && a.e.kind.RefUpdated? ==> Next(known, s, a).tasks == s.tasks)
            && (a.Cleanup? && s.live[a.id].kind.RefUpdated? ==>
                  Next(known, s, a).tasks == s.tasks && Key(s.live[a.id]) !in s.tasks)
  {
    StrongRun(known, Init(), acts);
  }

  // ---------------------------------------------------------------- leaks

  lemma LeakedStep(known: set<string>, s: State, a: Action, k: string)
    requires Strong(s) && Enabled(s, a) && WellFormed(a) && k in s.leaked
    ensures k in Next(known, s, a).leaked && k in Next(known, s, a).tasks
    ensures a.Arrive? && Keyed(a.e) && Key(a.e) == k ==> AnswerTo(s.tasks, known, a.e, a.raises).Ignored?
  {
    StrongStep(known, s, a);
  }

  lemma {:induction false} LeakedRun(known: set<string>, s: State, acts: seq<Action>, k: string)
    requires Strong(s) && ValidRun(known, s, acts) && AllWellFormed(acts) && k in s.leaked
    ensures k in Final(known, s, acts).leaked
    decreases |acts|
  {
    if acts != [] {
      StrongStep(known, s, acts[0]);
      LeakedStep(known, s, acts[0], k);
      LeakedRun(known, Next(known, s, acts[0]), acts[1..], k);
    }
  }

  /** Once accepting an event has raised, no later event with its key is accepted in any run. */
  lemma RaiseBlocksKey(known: set<string>, s: State, bad: Action, acts: seq<Action>, a: Action)
    requires Strong(s) && Enabled(s, bad) && WellFormed(bad)
    requires bad.Arrive? && Keyed(bad.e) && AnswerTo(s.tasks, known, bad.e, bad.raises).Failed?
    requires ValidRun(known, Next(known, s, bad), acts) && AllWellFormed(acts)
    requires a.Arrive? && WellFormed(a) && Keyed(a.e) && Key(a.e) == Key(bad.e)
    ensures AnswerTo(Final(known, Next(known, s, bad), acts).tasks, known, a.e, a.raises).Ignored?
  {
    var s1 := Next(known, s, bad);
    StrongStep(known, s, bad);
    LeakedRun(known, s1, acts, Key(bad.e));
    StrongRun(known, s1, acts);
  }

  // ---------------------------------------------------------------- the empty key

  function NoRef(): Event {
    Event(PatchsetCreated, Some("p"), None, None)
  }

  function Pushed(): Event {
    Event(RefUpdated, None, None, Some("p"))
  }

  function EmptyKeyRun(): seq<Action> {
    [Arrive(1, NoRef(), false), Arrive(2, Pushed(), false), Cleanup(2), Arrive(3, NoRef(), false)]
  }

  /** With an event that has no ref, the cleanup of a ref-updated task frees its key, and a second
      task is started beside the first. */
  lemma EmptyKeyBreaksDedup()
    ensures ValidRun({"p"}, Init(), EmptyKeyRun())
    ensures var s := Final({"p"}, Init(), EmptyKeyRun());
            1 in s.live && 3 in s.live && Keyed(s.live[1]) && Keyed(s.live[3]) && Key(s.live[1]) == Key(s.live[3])
  {
    var acts := EmptyKeyRun();
    var s1 := Next({"p"}, Init(), acts[0]);
    var s2 := Next({"p"}, s1, acts[1]);
    var s3 := Next({"p"}, s2, acts[2]);
    var s4 := Next({"p"}, s3, acts[3]);
    assert s1.tasks == {""} && s2.tasks == {""} && s3.tasks == {};
    assert acts[1..][0] == acts[1] && acts[1..][1..][0] == acts[2] && acts[1..][1..][1..][0] == acts[3];
    assert ValidRun({"p"}, s4, acts[1..][1..][1..][1..]);
    assert ValidRun({"p"}, s3, acts[1..][1..][1..]);
    assert ValidRun({"p"}, s2, acts[1..][1..]);
    assert ValidRun({"p"}, s1, acts[1..]);
  }
}
