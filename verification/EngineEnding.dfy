/**
 How a stream ends. Left alone it ends when the run is over and everything has been read; a stream that the client
 closes, and a run that blocks, yield nothing more while the run goes on to its end.
 */
module EngineEnding {
  import opened Workflow
  import opened Engine
  import opened EngineTyping
  import opened EngineQuiescence
  import opened EngineStream

  /** The main thread is in the last loop, which only waits, or past it. */
  predicate IsClosed(main: Main) {
    match main
    case Launching => false
    case Idle(phase) => phase == Closing
    case Counted(phase, _) => phase == Closing
    case Waiting(phase, _, _) => phase == Closing
    case Compared(phase, _) => phase == Closing
    case Popping(phase) => phase == Closing
    case SawEmpty(phase) => phase == Closing
    case Handled => true
  }

  ghost predicate ClosedWaits(s: State) {
    IsClosed(s.main) ==> !s.main.Popping? && !s.main.SawEmpty?
  }

  lemma ClosedNext(g: Graph, s: State, step: Step, s': State)
    requires ClosedWaits(s) && Next(g, s, step, s')
    ensures ClosedWaits(s') && (IsClosed(s.main) ==> IsClosed(s'.main) && s'.reader == s.reader)
  {
  }

  lemma {:induction false} ClosedWaitsRun(g: Graph, states: seq<State>, steps: seq<Step>, n: nat)
    requires IsRun(g, states, steps) && n < |states|
    ensures ClosedWaits(states[n])
  {
    if n > 0 {
      ClosedWaitsRun(g, states, steps, n - 1);
      ClosedNext(g, states[n - 1], steps[n - 1], states[n]);
    }
  }

  /** Once the last loop has begun, nothing is yielded any more. */
  lemma {:induction false} ClosedStreamYieldsNothing(g: Graph, states: seq<State>, steps: seq<Step>, m: nat, n: nat)
    requires IsRun(g, states, steps) && m <= n < |states| && IsClosed(states[m].main)
    ensures IsClosed(states[n].main) && states[n].reader == states[m].reader
  {
    if m < n {
      ClosedStreamYieldsNothing(g, states, steps, m, n - 1);
      ClosedWaitsRun(g, states, steps, n - 1);
      ClosedNext(g, states[n - 1], steps[n - 1], states[n]);
    }
  }

  /** So a blocking run yields nothing, and a stream nothing after the client has closed it. */
  lemma ClosingYieldsNothing(g: Graph, states: seq<State>, steps: seq<Step>, m: nat, n: nat)
    requires IsRun(g, states, steps) && m < n < |states|
    requires steps[m] == CloseStream || steps[m] == LaunchAppend(false)
    ensures states[n].reader == states[m].reader
  {
    assert Next(g, states[m], steps[m], states[m + 1]);
    ClosedStreamYieldsNothing(g, states, steps, m + 1, n);
  }

  /** All threads are done and the reader has taken and let go of every node. */
  ghost predicate ReadToTheEnd(s: State) {
    Quiescent(s) && s.reader.taken == |s.sh.insts| && !s.reader.current
  }

  ghost predicate NotClosed(steps: seq<Step>, n: nat)
    requires n <= |steps|
  {
    forall m :: 0 <= m < n ==> steps[m] != CloseStream && steps[m] != LaunchAppend(false)
  }

  lemma EndsReadNext(g: Graph, s: State, step: Step, s': State)
    requires PollInv(s) && Typed(g, s) && ClosedWaits(s) && Next(g, s, step, s')
    requires step != CloseStream && step != LaunchAppend(false) && (IsClosed(s.main) ==> ReadToTheEnd(s))
    ensures IsClosed(s'.main) ==> ReadToTheEnd(s')
  {
    if !IsMainStep(step) {
      ThreadsAreDone(g, s, step);
    } else {
      assert forall i :: 0 <= i < |s.sh.insts| ==> OwnedAt(s.sh, i);
    }
  }

  /** A thread can move only in a state that is not quiescent. */
  lemma ThreadsAreDone(g: Graph, s: State, step: Step)
    requires !IsMainStep(step) && Enabled(g, s, step)
    ensures !Quiescent(s)
  {
    assert step.t < |s.sh.tasks| && !s.sh.tasks[step.t].Finished?;
  }

  /** Whatever the schedule, a stream that the client does not close reaches its last loop only when the run is over and
      everything has been read; and all chunks have been yielded, once and in order, if and only if all drops were
      clean. */
  lemma {:induction false} StreamEndsRead(g: Graph, states: seq<State>, steps: seq<Step>, n: nat)
    requires IsRun(g, states, steps) && n < |states| && NotClosed(steps, n) && IsClosed(states[n].main)
    ensures ReadToTheEnd(states[n])
    ensures Chunks(states[n].reader.out) == EmittedBy(states[n].sh.insts, |states[n].sh.insts|)
            <==> DropsClean(states, steps, n)
  {
    EndsReadRun(g, states, steps, n);
    var s := states[n];
    StreamInvRun(g, states, steps, n);
    NoLossIffDropsClean(g, states, steps, n);
    assert forall i :: 0 <= i < |s.sh.insts| ==> !IsCurrent(s, i);
    PoppedAndLeft(s.sh.insts, |s.sh.insts|);
  }

  lemma {:induction false} EndsReadRun(g: Graph, states: seq<State>, steps: seq<Step>, n: nat)
    requires IsRun(g, states, steps) && n < |states| && NotClosed(steps, n)
    ensures IsClosed(states[n].main) ==> ReadToTheEnd(states[n])
  {
    if n > 0 {
      EndsReadRun(g, states, steps, n - 1);
      TypedRun(g, states, steps, n - 1);
      PollInvRun(g, states, steps, n - 1);
      ClosedWaitsRun(g, states, steps, n - 1);
      EndsReadNext(g, states[n - 1], steps[n - 1], states[n]);
    }
  }
}
