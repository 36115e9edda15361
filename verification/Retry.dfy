/**
 One worker on its own, from its request to its end: what the stages add up to, as a
 function of the sequence of results its backend calls report.
 */
module Retry {
  import opened Storage
  import opened Fsm
  import opened Lifecycle
  import Filing
  import Agreement
  import Audit
  import Exact

  /** What the environment decides, stage by stage. */
  type Script = nat -> Choice

  /** The world and the worker after `t` stages. */
  function Stages(max: nat, w: World, k: Worker, script: Script, t: nat): (World, Worker) {
    if t == 0 then (w, k)
    else
      var (w', k') := Stages(max, w, k, script, t - 1);
      Work(max, w', k', script(t - 1))
  }

  /** The results after one more stage. */
  function Reported(w: World, k: Worker, results: seq<bool>, c: Choice): seq<bool> {
    if k.pc.Calling? then results + [Call(w, k.task, c.reply, c.uuid).1] else results
  }

  /** What the backend calls of the first `t` stages reported, in order. */
  function Results(max: nat, w: World, k: Worker, script: Script, t: nat): seq<bool> {
    if t == 0 then []
    else
      var (w', k') := Stages(max, w, k, script, t - 1);
      Reported(w', k', Results(max, w, k, script, t - 1), script(t - 1))
  }

  /** How often the worker has waited to the end in its first `t` stages. */
  function Waits(max: nat, w: World, k: Worker, script: Script, t: nat): nat {
    if t == 0 then 0
    else
      Waits(max, w, k, script, t - 1)
      + if Stages(max, w, k, script, t - 1).1.pc.Waiting? && !script(t - 1).stop then 1 else 0
  }

  lemma NoWait(max: nat, w: World, k: Worker, script: Script, t: nat)
    ensures !Stages(max, w, k, script, t).1.pc.Waiting? || script(t).stop ==>
              Waits(max, w, k, script, t + 1) == Waits(max, w, k, script, t)
  {
  }

  /** Neither DB faults nor cancellation. */
  predicate SoundChoice(c: Choice) {
    c.faults == NO_FAULTS && !c.stop
  }

  function ErrorEntry(id: string, kind: Kind): Entry {
    Entry(id, Applied(EventError), Busy(kind), Broken(kind))
  }

  function RetryEntry(id: string, kind: Kind): Entry {
    Entry(id, Applied(EventRetry), Broken(kind), Busy(kind))
  }

  /** The log of failed attempts that were each followed by a retry. */
  function Failures(id: string, kind: Kind, n: nat): seq<Entry> {
    if n == 0 then [] else Failures(id, kind, n - 1) + [ErrorEntry(id, kind), RetryEntry(id, kind)]
  }

  function Falses(n: nat): (results: seq<bool>)
    ensures |results| == n && forall i | 0 <= i < n :: !results[i]
  {
    if n == 0 then [] else Falses(n - 1) + [false]
  }

  function Closing(id: string, kind: Kind, succeeded: bool): seq<Entry> {
    if succeeded then [Entry(id, Applied(Success(kind)), Busy(kind), Target(kind))]
    else [ErrorEntry(id, kind), Entry(id, Applied(EventFail), Broken(kind), Error)]
  }

  /** The log an operation leaves behind: retried failures, then the success or the last failure. */
  function Story(id: string, kind: Kind, results: seq<bool>): seq<Entry>
    requires results != []
  {
    Failures(id, kind, |results| - 1) + Closing(id, kind, results[|results| - 1])
  }

  /** The results of a finished operation: failures, then one success or the last permitted failure. */
  predicate Conclusive(max: nat, results: seq<bool>) {
    && results != []
    && results[..|results| - 1] == Falses(|results| - 1)
    && (if results[|results| - 1] then |results| <= max else |results| == max)
  }

  /** The record the operation leaves behind. */
  function Concluded(v: Volume, kind: Kind, succeeded: bool): Volume {
    if succeeded then PostSuccess(v, kind).(state := Target(kind)) else v.(state := Error)
  }

  /** How far a sound run has come when its worker is at a stage. */
  predicate Midway(max: nat, w0: World, w: World, k: Worker, results: seq<bool>)
    requires k.task.name in w0.db
  {
    var n, kind := k.task.name, k.task.kind;
    var v := w0.db[n];
    var done := if k.attempt >= 1 then k.attempt - 1 else 0;
    && n in w.db
    && 1 <= k.attempt <= max
    && (!k.pc.Done? ==>
          && w.db[n] == v.(state := Exact.StageState(k))
          && results == (if k.pc.Check? || k.pc.Calling? then Falses(done) else Falses(done) + [k.pc.Succeeded?])
          && w.log == w0.log + Failures(v.id, kind, done)
                      + (if Exact.StageState(k) == Broken(kind) then [ErrorEntry(v.id, kind)] else []))
    && (k.pc.Exhausted? ==> k.attempt == max)
    && (k.pc.Waiting? || k.pc.Retrying? ==> k.attempt < max)
    && (k.pc.Done? ==>
          && Conclusive(max, results)
          && w.db[n] == Concluded(v, kind, results[|results| - 1])
          && w.log == w0.log + Story(v.id, kind, results))
  }

  lemma CallProgress(max: nat, w0: World, w: World, k: Worker, results: seq<bool>, c: Choice)
    requires k.task.name in w0.db && Midway(max, w0, w, k, results) && SoundChoice(c) && k.pc.Calling?
    ensures var (w', k') := Work(max, w, k, c);
            Midway(max, w0, w', k', results + [Call(w, k.task, c.reply, c.uuid).1])
  {
  }

  lemma QuietProgress(max: nat, w0: World, w: World, k: Worker, results: seq<bool>, c: Choice)
    requires k.task.name in w0.db && Midway(max, w0, w, k, results) && SoundChoice(c)
    requires k.pc.Check? || k.pc.Waiting? || k.pc.Done?
    ensures var (w', k') := Work(max, w, k, c); Midway(max, w0, w', k', results)
  {
  }

  lemma ErrorProgress(max: nat, w0: World, w: World, k: Worker, results: seq<bool>, c: Choice)
    requires k.task.name in w0.db && w0.db[k.task.name].name == k.task.name
    requires Midway(max, w0, w, k, results) && SoundChoice(c) && k.pc.Failed?
    ensures var (w', k') := Work(max, w, k, c); Midway(max, w0, w', k', results)
  {
    var v := w0.db[k.task.name];
    hide ApplyEvent, Transition;
    Exact.Edges(k.task.kind);
    Audit.ApplyClean(w, w.db[v.name], EventError, c.faults);
    Exact.ApplyMoves(w, w.db[v.name], EventError, c.faults);
    var (w', k') := Work(max, w, k, c);
    assert w'.log == w.log + [ErrorEntry(v.id, k.task.kind)];
  }

  lemma RetryProgress(max: nat, w0: World, w: World, k: Worker, results: seq<bool>, c: Choice)
    requires k.task.name in w0.db && w0.db[k.task.name].name == k.task.name
    requires Midway(max, w0, w, k, results) && SoundChoice(c) && k.pc.Retrying?
    ensures var (w', k') := Work(max, w, k, c); Midway(max, w0, w', k', results)
  {
    var v, kind := w0.db[k.task.name], k.task.kind;
    hide ApplyEvent, Transition;
    Exact.Edges(kind);
    Audit.ApplyClean(w, w.db[v.name], EventRetry, c.faults);
    Exact.ApplyMoves(w, w.db[v.name], EventRetry, c.faults);
    var (w', k') := Work(max, w, k, c);
    assert w'.log == w.log + [RetryEntry(v.id, kind)];
    assert w0.log + Failures(v.id, kind, k.attempt - 1) + [ErrorEntry(v.id, kind)] + [RetryEntry(v.id, kind)]
        == w0.log + Failures(v.id, kind, k.attempt);
  }

  lemma LastProgress(max: nat, w0: World, w: World, k: Worker, results: seq<bool>, c: Choice)
    requires k.task.name in w0.db && w0.db[k.task.name].name == k.task.name
    requires Midway(max, w0, w, k, results) && SoundChoice(c)
    requires k.pc.Succeeded? || k.pc.Exhausted?
    ensures var (w', k') := Work(max, w, k, c); Midway(max, w0, w', k', results)
  {
    var v := w0.db[k.task.name];
    var kind := k.task.kind;
    hide ApplyEvent, Transition;
    Exact.Edges(kind);
    Audit.ApplyClean(w, PostSuccess(w.db[v.name], kind), Success(kind), c.faults);
    Exact.ApplyMoves(w, PostSuccess(w.db[v.name], kind), Success(kind), c.faults);
    Audit.ApplyClean(w, w.db[v.name], EventFail, c.faults);
    Exact.ApplyMoves(w, w.db[v.name], EventFail, c.faults);
    var (w', k') := Work(max, w, k, c);
    assert results[..|results| - 1] == Falses(k.attempt - 1);
    if k.pc.Succeeded? {
      assert w'.log == w.log + Closing(v.id, kind, true);
    } else {
      assert w'.log == w.log + [Entry(v.id, Applied(EventFail), Broken(kind), Error)];
      assert w'.log == w0.log + Failures(v.id, kind, k.attempt - 1) + Closing(v.id, kind, false);
    }
  }

  lemma StageProgress(max: nat, w0: World, w: World, k: Worker, results: seq<bool>, c: Choice)
    requires k.task.name in w0.db && w0.db[k.task.name].name == k.task.name
    requires Midway(max, w0, w, k, results) && SoundChoice(c)
    ensures var (w', k') := Work(max, w, k, c);
            k'.task == k.task && Midway(max, w0, w', k', Reported(w, k, results, c))
  {
    match k.pc
    case Calling => CallProgress(max, w0, w, k, results, c);
    case Failed => ErrorProgress(max, w0, w, k, results, c);
    case Retrying => RetryProgress(max, w0, w, k, results, c);
    case Succeeded => LastProgress(max, w0, w, k, results, c);
    case Exhausted => LastProgress(max, w0, w, k, results, c);
    case _ => QuietProgress(max, w0, w, k, results, c);
  }

  lemma {:induction false} RunProgress(max: nat, w: World, task: Task, script: Script, t: nat)
    requires max >= 1 && task.name in w.db && w.db[task.name].name == task.name
    requires w.db[task.name].state == Busy(task.kind)
    requires forall i: nat :: SoundChoice(script(i))
    ensures var (w', k') := Stages(max, w, Start(task), script, t);
            k'.task == task && Midway(max, w, w', k', Results(max, w, Start(task), script, t))
    decreases t
  {
    if t == 0 {
      assert w.db[task.name] == w.db[task.name].(state := Busy(task.kind));
    } else {
      hide Midway, Work, Call;
      RunProgress(max, w, task, script, t - 1);
      var (w1, k1) := Stages(max, w, Start(task), script, t - 1);
      StageProgress(max, w, w1, k1, Results(max, w, Start(task), script, t - 1), script(t - 1));
    }
  }

  /**
   The worker refines the sequence of results.  Without faults and cancellation, when a
   worker is done: its calls failed some number of times and then succeeded once, or failed
   max times; the log gained exactly an error and a retry for each failure but the last, and
   then the success event, or the last error and the fail; and the record is the old one in
   the operation's target state (a detached volume without its node), or in the error state.
   */
  lemma WorkerRefinesResults(max: nat, w: World, task: Task, script: Script, t: nat)
    requires max >= 1 && task.name in w.db && w.db[task.name].name == task.name
    requires w.db[task.name].state == Busy(task.kind)
    requires forall i: nat :: SoundChoice(script(i))
    requires Stages(max, w, Start(task), script, t).1.pc.Done?
    ensures var results := Results(max, w, Start(task), script, t);
            var w' := Stages(max, w, Start(task), script, t).0;
            && Conclusive(max, results)
            && w'.log == w.log + Story(w.db[task.name].id, task.kind, results)
            && task.name in w'.db
            && w'.db[task.name] == Concluded(w.db[task.name], task.kind, results[|results| - 1])
  {
    RunProgress(max, w, task, script, t);
  }

  // ----- Under any faults -----

  /** The calls made so far, against the attempt. */
  predicate CallsFit(k: Worker, calls: nat) {
    calls <= (if k.pc.Check? || k.pc.Calling? then k.attempt - 1 else k.attempt)
  }

  /**
   Whatever fails and whenever the system shuts down, a worker on a volume in one of its
   states calls the backend at most max times, and is done after at most five stages an attempt.
   */
  lemma {:induction false} CallsAreBounded(max: nat, w: World, task: Task, script: Script, t: nat)
    requires max >= 1 && Agreement.Workable(max, w, Start(task))
    ensures var (w', k') := Stages(max, w, Start(task), script, t);
            && |Results(max, w, Start(task), script, t)| <= max
            && k'.task == task
            && (k'.pc.Done?
                || (Agreement.Workable(max, w', k') && CallsFit(k', |Results(max, w, Start(task), script, t)|)))
            && Exact.Budget(max, k') <= (if t <= 5 * max then 5 * max - t else 0)
    decreases t
  {
    if t > 0 {
      CallsAreBounded(max, w, task, script, t - 1);
      var (w1, k1) := Stages(max, w, Start(task), script, t - 1);
      if !k1.pc.Done? {
        Agreement.WorkOk(max, w1, k1, script(t - 1));
        Filing.WorkKeepsId(max, w1, k1, script(t - 1));
        Exact.WorkSpends(max, w1, k1, script(t - 1));
      }
    }
  }
}
