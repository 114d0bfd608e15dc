/**
 `is_run` reads the length of `future_list`, waits on a snapshot of it, and compares lengths.
 It never answers "over" while a thread is still to run, although futures are submitted
 before they are appended to the list.
 */
module EngineQuiescence {
  import opened Workflow
  import opened Engine
  import opened EngineTyping

  /** The thread has submitted future `c` and will still append it to `future_list`. */
  predicate Owes(pc: Pc, c: nat) {
    (pc.Submitting? || pc.Appending?) && c in pc.futs
  }

  /** Every future is in the list, or an older unfinished thread will put it there. */
  ghost predicate Accounted(sh: Shared, launching: bool, c: nat) {
    || c in sh.futures
    || (c == 0 && launching)
    || exists p :: 0 <= p < c && p < |sh.tasks| && Owes(sh.tasks[p], c)
  }

  ghost predicate FuturesKnown(sh: Shared) {
    && sh.tasks != []
    && (forall f :: f in sh.futures ==> f < |sh.tasks|)
    && (forall p, f: nat :: 0 <= p < |sh.tasks| && Owes(sh.tasks[p], f) ==> f < |sh.tasks|)
  }

  ghost predicate PollOk(s: State) {
    match s.main
    case Launching => true
    case Idle(phase) => !phase.Draining?
    case Counted(phase, n) => !phase.Draining? && n <= |s.sh.futures|
    case Waiting(phase, n, snap) => !phase.Draining? && n <= |snap| && snap <= s.sh.futures
    case Compared(phase, n) =>
      && !phase.Draining? && n <= |s.sh.futures|
      && forall k :: 0 <= k < n ==> s.sh.futures[k] < |s.sh.tasks| && s.sh.tasks[s.sh.futures[k]].Finished?
    case Popping(phase) => phase.Draining? ==> Quiescent(s)
    case SawEmpty(phase) => phase.Draining? ==> Quiescent(s)
    case Handled => Quiescent(s)
  }

  ghost predicate PollInv(s: State) {
    && FuturesKnown(s.sh)
    && (forall c :: 0 <= c < |s.sh.tasks| ==> Accounted(s.sh, s.main.Launching?, c))
    && PollOk(s)
  }

  /** If every future in the list is done, every thread is. */
  lemma {:induction false} ListedDoneMeansAllDone(s: State, c: nat)
    requires PollInv(s) && !s.main.Launching? && c < |s.sh.tasks|
    requires forall f :: f in s.sh.futures ==> s.sh.tasks[f].Finished?
    ensures s.sh.tasks[c].Finished?
  {
    assert Accounted(s.sh, false, c);
    if c !in s.sh.futures {
      var p :| 0 <= p < c && p < |s.sh.tasks| && Owes(s.sh.tasks[p], c);
      ListedDoneMeansAllDone(s, p);
    }
  }

  lemma AccountedStep(g: Graph, s: State, step: Step, c: nat)
    requires PollInv(s) && !IsMainStep(step) && Enabled(g, s, step)
    requires c < |TaskStep(g, s.sh, step.t, step).tasks|
    ensures Accounted(TaskStep(g, s.sh, step.t, step), s.main.Launching?, c)
  {
    var sh := s.sh;
    var sh' := TaskStep(g, sh, step.t, step);
    if c == |sh.tasks| {
      assert Owes(sh'.tasks[step.t], c);
    } else {
      assert Accounted(sh, s.main.Launching?, c);
      if c !in sh.futures && !(c == 0 && s.main.Launching?) {
        var p :| 0 <= p < c && p < |sh.tasks| && Owes(sh.tasks[p], c);
        if p == step.t && step.AppendFuture? && sh.tasks[p].futs != [] && c == sh.tasks[p].futs[0] {
          assert sh'.futures[|sh.futures|] == c;
        } else if p == step.t && step.AppendFuture? {
          assert c in sh.tasks[p].futs[1..];
          assert Owes(sh'.tasks[p], c);
        } else {
          assert Owes(sh'.tasks[p], c);
        }
      } else if c in sh.futures {
        assert sh.futures <= sh'.futures;
      }
    }
  }

  lemma MoverIsUnfinished(g: Graph, sh: Shared, t: nat, step: Step)
    requires TaskEnabled(g, sh, t, step)
    ensures !sh.tasks[t].Finished?
  {
  }

  lemma FinishedStays(g: Graph, s: State, step: Step, t: nat)
    requires !IsMainStep(step) && Enabled(g, s, step) && t < |s.sh.tasks| && s.sh.tasks[t].Finished?
    ensures var tasks := TaskStep(g, s.sh, step.t, step).tasks; t < |tasks| && tasks[t].Finished?
  {
    MoverIsUnfinished(g, s.sh, step.t, step);
  }

  /** A thread comes to owe only what it has just submitted. */
  lemma MovedOwes(g: Graph, sh: Shared, t: nat, step: Step, f: nat)
    requires TaskEnabled(g, sh, t, step) && Owes(MovedPc(g, sh, t, step), f)
    ensures Owes(sh.tasks[t], f) || (step.Submit? && Spawned(sh.tasks[t], step) != [] && f == |sh.tasks|)
  {
  }

  lemma FuturesKnownStep(g: Graph, s: State, step: Step)
    requires PollInv(s) && !IsMainStep(step) && Enabled(g, s, step)
    ensures FuturesKnown(TaskStep(g, s.sh, step.t, step))
    ensures s.sh.futures <= TaskStep(g, s.sh, step.t, step).futures
  {
    var sh, t := s.sh, step.t;
    var sh' := TaskStep(g, sh, t, step);
    assert |sh.tasks| + |Spawned(sh.tasks[t], step)| == |sh'.tasks|;
    if step.AppendFuture? && sh.tasks[t].futs != [] {
      assert Owes(sh.tasks[t], sh.tasks[t].futs[0]);
    }
    forall p, f: nat | 0 <= p < |sh'.tasks| && Owes(sh'.tasks[p], f)
      ensures f < |sh'.tasks|
    {
      if p == t {
        MovedOwes(g, sh, t, step, f);
      } else if p < |sh.tasks| {
        assert Owes(sh.tasks[p], f);
      }
    }
  }

  lemma PollInvMainStep(g: Graph, s: State, step: Step)
    requires PollInv(s) && IsMainStep(step) && MainEnabled(s, step)
    ensures PollInv(MainStep(s, step))
  {
    var s' := MainStep(s, step);
    assert s'.sh.tasks == s.sh.tasks;
    assert s.sh.futures <= s'.sh.futures;
    if step.LaunchAppend? {
      assert s'.sh.futures[|s.sh.futures|] == 0;
    }
    forall c | 0 <= c < |s'.sh.tasks|
      ensures Accounted(s'.sh, s'.main.Launching?, c)
    {
      assert Accounted(s.sh, s.main.Launching?, c);
    }
    if step.PollAllDone? {
      forall k | 0 <= k < s.main.len
        ensures s.sh.futures[k] < |s.sh.tasks| && s.sh.tasks[s.sh.futures[k]].Finished?
      {
        assert s.main.snapshot[k] in s.main.snapshot;
      }
    }
    if step.PollCompare? && s.main.len == |s.sh.futures| {
      forall t | 0 <= t < |s.sh.tasks|
        ensures s.sh.tasks[t].Finished?
      {
        ListedDoneMeansAllDone(s, t);
      }
    }
  }

  lemma PollOkAfterTaskStep(g: Graph, s: State, step: Step)
    requires PollInv(s) && !IsMainStep(step) && Enabled(g, s, step)
    ensures PollOk(Apply(g, s, step))
  {
    var sh' := TaskStep(g, s.sh, step.t, step);
    FuturesKnownStep(g, s, step);
    MoverIsUnfinished(g, s.sh, step.t, step);
    if s.main.Compared? {
      forall k | 0 <= k < s.main.len
        ensures sh'.futures[k] < |sh'.tasks| && sh'.tasks[sh'.futures[k]].Finished?
      {
        FinishedStays(g, s, step, s.sh.futures[k]);
      }
    }
  }

  lemma PollInvNext(g: Graph, s: State, step: Step, s': State)
    requires PollInv(s) && Next(g, s, step, s')
    ensures PollInv(s')
  {
    if IsMainStep(step) {
      PollInvMainStep(g, s, step);
    } else {
      FuturesKnownStep(g, s, step);
      PollOkAfterTaskStep(g, s, step);
      forall c | 0 <= c < |s'.sh.tasks|
        ensures Accounted(s'.sh, s'.main.Launching?, c)
      {
        AccountedStep(g, s, step, c);
      }
    }
  }

  lemma {:induction false} PollInvRun(g: Graph, states: seq<State>, steps: seq<Step>, n: nat)
    requires IsRun(g, states, steps) && n < |states|
    ensures PollInv(states[n])
  {
    if n > 0 {
      PollInvRun(g, states, steps, n - 1);
      PollInvNext(g, states[n - 1], steps[n - 1], states[n]);
    }
  }

  // ---------- Main results ----------

  /** `is_run` answers False in this step: the stream moves to its drain loop, or the handler runs. */
  predicate PollReturnsFalse(s: State, s': State) {
    s.main.Compared? && (s'.main == Popping(Draining) || s'.main.Handled?)
  }

  /** When `is_run` returns False, every submitted thread is done and every registered node has ended. */
  lemma PollAnswersOverOnlyWhenOver(g: Graph, states: seq<State>, steps: seq<Step>, n: nat)
    requires IsRun(g, states, steps) && n < |steps|
    requires PollReturnsFalse(states[n], states[n + 1])
    ensures Quiescent(states[n])
    ensures forall i :: 0 <= i < |states[n].sh.insts| ==> states[n].sh.insts[i].outcome.Some?
  {
    PollInvRun(g, states, steps, n);
    PollInvRun(g, states, steps, n + 1);
    TypedRun(g, states, steps, n);
    assert Next(g, states[n], steps[n], states[n + 1]);
    var s := states[n];
    forall t | 0 <= t < |s.sh.tasks|
      ensures s.sh.tasks[t].Finished?
    {
      ListedDoneMeansAllDone(s, t);
    }
  }

  /** The post handler sees a run that is over: no thread left, every node ended, no step possible. */
  lemma HandlerRunsLast(g: Graph, states: seq<State>, steps: seq<Step>, n: nat)
    requires IsRun(g, states, steps) && n < |states| && states[n].main.Handled?
    ensures Quiescent(states[n])
    ensures forall i :: 0 <= i < |states[n].sh.insts| ==> states[n].sh.insts[i].outcome.Some?
    ensures n == |steps|
    ensures forall step :: !Enabled(g, states[n], step)
  {
    PollInvRun(g, states, steps, n);
    TypedRun(g, states, steps, n);
    assert n < |steps| ==> Next(g, states[n], steps[n], states[n + 1]);
  }
}
