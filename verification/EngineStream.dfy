/**
 What the reader yields. Node chunks reach the stream node by node in registration order;
 a chunk can only be lost when it arrives between the two reads of `pop` (queue empty, node ended).
 */
module EngineStream {
  import opened Wrappers
  import opened Workflow
  import opened Engine
  import opened EngineTyping
  import opened EngineQuiescence

  function Chunks(out: seq<Item>): seq<Chunk> {
    if out == [] then []
    else Chunks(out[..|out| - 1]) + (if out[|out| - 1].Data? then [out[|out| - 1].chunk] else [])
  }

  /** Everything the first `k` registered nodes have emitted, node after node. */
  function EmittedBy(insts: seq<Instance>, k: nat): seq<Chunk>
    requires k <= |insts|
  {
    if k == 0 then [] else EmittedBy(insts, k - 1) + Emitted(insts[k - 1])
  }

  /** The part of it that the reader has popped. */
  function PoppedFrom(insts: seq<Instance>, k: nat): seq<Chunk>
    requires k <= |insts|
  {
    if k == 0 then [] else PoppedFrom(insts, k - 1) + insts[k - 1].popped
  }

  function LeftIn(insts: seq<Instance>, k: nat): nat
    requires k <= |insts|
  {
    if k == 0 then 0 else LeftIn(insts, k - 1) + |insts[k - 1].queue|
  }

  ghost predicate StreamInv(s: State) {
    && ReaderInRange(s)
    && Chunks(s.reader.out) == PoppedFrom(s.sh.insts, s.reader.taken)
    && (forall i :: s.reader.taken <= i < |s.sh.insts| ==> s.sh.insts[i].popped == [])
    && (forall i :: 0 <= i < s.reader.taken && !IsCurrent(s, i) ==> s.sh.insts[i].outcome.Some?)
    && (s.main.SawEmpty? ==> s.reader.current)
  }

  predicate IsCurrent(s: State, i: nat) {
    s.reader.current && i + 1 == s.reader.taken
  }

  /** The reader let go of no node whose queue still held chunks. */
  ghost predicate NoLoss(s: State) {
    forall i :: 0 <= i < s.reader.taken && i < |s.sh.insts| && !IsCurrent(s, i) ==> s.sh.insts[i].queue == []
  }

  lemma {:induction false} PoppedFromDependsOn(insts: seq<Instance>, insts': seq<Instance>, k: nat)
    requires k <= |insts| && k <= |insts'|
    requires forall i :: 0 <= i < k ==> insts'[i].popped == insts[i].popped
    ensures PoppedFrom(insts', k) == PoppedFrom(insts, k)
  {
    if k > 0 {
      PoppedFromDependsOn(insts, insts', k - 1);
    }
  }

  lemma {:induction false} PoppedAndLeft(insts: seq<Instance>, k: nat)
    requires k <= |insts|
    ensures |PoppedFrom(insts, k)| + LeftIn(insts, k) == |EmittedBy(insts, k)|
    ensures LeftIn(insts, k) == 0 ==> PoppedFrom(insts, k) == EmittedBy(insts, k)
    ensures LeftIn(insts, k) == 0 <==> forall i :: 0 <= i < k ==> insts[i].queue == []
  {
    if k > 0 {
      PoppedAndLeft(insts, k - 1);
      if insts[k - 1].queue == [] {
        assert Emitted(insts[k - 1]) == insts[k - 1].popped;
      }
    }
  }

  lemma {:induction false} EmittedByGrows(insts: seq<Instance>, k: nat, k': nat)
    requires k <= k' <= |insts|
    ensures EmittedBy(insts, k) <= EmittedBy(insts, k')
  {
    if k < k' {
      EmittedByGrows(insts, k, k' - 1);
    }
  }

  lemma ChunksAppend(out: seq<Item>, item: Item)
    ensures Chunks(out + [item]) == Chunks(out) + (if item.Data? then [item.chunk] else [])
  {
    assert (out + [item])[..|out|] == out;
  }

  lemma PopChunkKeeps(s: State)
    requires StreamInv(s) && MainEnabled(s, PopChunk)
    ensures StreamInv(MainStep(s, PopChunk))
  {
    var s' := MainStep(s, PopChunk);
    var i := s.reader.taken - 1;
    PoppedOneMore(s.sh.insts, s'.sh.insts, i, s.sh.insts[i].queue[0]);
    ChunksAppend(s.reader.out, Data(s.sh.insts[i].queue[0]));
    assert forall k :: IsCurrent(s', k) <==> IsCurrent(s, k);
  }

  /** One chunk popped from the last of the nodes comes at the end. */
  lemma PoppedOneMore(insts: seq<Instance>, insts': seq<Instance>, i: nat, chunk: Chunk)
    requires i < |insts| == |insts'| && insts'[i].popped == insts[i].popped + [chunk]
    requires forall j :: 0 <= j < i ==> insts'[j] == insts[j]
    ensures PoppedFrom(insts', i + 1) == PoppedFrom(insts, i + 1) + [chunk]
  {
    PoppedFromDependsOn(insts, insts', i);
    assert PoppedFrom(insts, i) + (insts[i].popped + [chunk]) == (PoppedFrom(insts, i) + insts[i].popped) + [chunk];
  }

  /** A thread's step touches an instance only by emitting to it or ending it, and never once it has ended. */
  lemma InstanceAfterStep(g: Graph, s: State, step: Step, i: nat)
    requires Typed(g, s) && !IsMainStep(step) && Enabled(g, s, step) && i < |s.sh.insts|
    ensures var inst := s.sh.insts[i];
            var sh' := TaskStep(g, s.sh, step.t, step);
            && i < |sh'.insts|
            && (|| sh'.insts[i] == inst
                || (inst.outcome.None? && step.End? && sh'.insts[i] == inst.(outcome := Some(step.outcome)))
                || (inst.outcome.None? && step.Emit? && s.sh.tasks[step.t] == Running(i)
                    && sh'.insts[i] == inst.(queue := inst.queue + [step.chunk])))
  {
    var pc := s.sh.tasks[step.t];
    assert PcTyped(g, s.sh, pc);
    if step.Emit? {
    } else if step.End? {
    } else if step.Register? {
    } else {
      assert TaskStep(g, s.sh, step.t, step).insts == s.sh.insts;
    }
  }

  lemma TakeKeeps(s: State)
    requires StreamInv(s) && MainEnabled(s, TakeChunkList)
    ensures StreamInv(MainStep(s, TakeChunkList))
  {
    var s' := MainStep(s, TakeChunkList);
    UntouchedPops(s.sh.insts, s.reader.taken);
    forall i | 0 <= i < s'.reader.taken && !IsCurrent(s', i)
      ensures s'.sh.insts[i].outcome.Some?
    {
      assert !IsCurrent(s, i);
    }
  }

  /** A node nothing was popped from adds nothing. */
  lemma UntouchedPops(insts: seq<Instance>, k: nat)
    requires k < |insts| && insts[k].popped == []
    ensures PoppedFrom(insts, k + 1) == PoppedFrom(insts, k)
  {
  }

  lemma DropKeeps(s: State)
    requires StreamInv(s) && MainEnabled(s, DropCurrent)
    ensures StreamInv(MainStep(s, DropCurrent))
  {
    ChunksAppend(s.reader.out, Separator);
    assert s.reader.out + [] == s.reader.out;
    var s' := MainStep(s, DropCurrent);
    assert forall i :: 0 <= i < s'.reader.taken ==> !IsCurrent(s, i) || i == s.reader.taken - 1;
  }

  lemma ReaderStepKeeps(s: State, step: Step)
    requires StreamInv(s) && MainEnabled(s, step) && !step.PopChunk?
    ensures StreamInv(MainStep(s, step))
  {
    if step.TakeChunkList? {
      TakeKeeps(s);
    } else if step.DropCurrent? {
      DropKeeps(s);
    } else {
      var s' := MainStep(s, step);
      assert s'.reader == s.reader && s'.sh.insts == s.sh.insts;
      assert forall i :: IsCurrent(s', i) <==> IsCurrent(s, i);
    }
  }

  lemma ThreadStepKeeps(g: Graph, s: State, step: Step)
    requires Typed(g, s) && StreamInv(s) && !IsMainStep(step) && Enabled(g, s, step)
    ensures StreamInv(s.(sh := TaskStep(g, s.sh, step.t, step)))
  {
    var s' := s.(sh := TaskStep(g, s.sh, step.t, step));
    TaskStepKeeps(g, s, step);
    forall i | 0 <= i < |s'.sh.insts|
      ensures i < |s.sh.insts| ==> s'.sh.insts[i].popped == s.sh.insts[i].popped
      ensures s.reader.taken <= i ==> s'.sh.insts[i].popped == []
    {
      if i < |s.sh.insts| {
        InstanceAfterStep(g, s, step, i);
      } else {
        assert step.Register?;
      }
    }
    PoppedFromDependsOn(s.sh.insts, s'.sh.insts, s.reader.taken);
    forall i | 0 <= i < s.reader.taken && !IsCurrent(s', i)
      ensures s'.sh.insts[i].outcome.Some?
    {
      assert !IsCurrent(s, i);
    }
  }

  lemma StreamInvNext(g: Graph, s: State, step: Step, s': State)
    requires Typed(g, s) && StreamInv(s) && Next(g, s, step, s')
    ensures StreamInv(s')
  {
    if step.PopChunk? {
      PopChunkKeeps(s);
    } else if IsMainStep(step) {
      ReaderStepKeeps(s, step);
    } else {
      ThreadStepKeeps(g, s, step);
    }
  }

  lemma {:induction false} StreamInvRun(g: Graph, states: seq<State>, steps: seq<Step>, n: nat)
    requires IsRun(g, states, steps) && n < |states|
    ensures StreamInv(states[n])
  {
    if n > 0 {
      StreamInvRun(g, states, steps, n - 1);
      TypedRun(g, states, steps, n - 1);
      StreamInvNext(g, states[n - 1], steps[n - 1], states[n]);
    }
  }

  /** When the reader read `is_end`, the queue it had seen empty was still empty. */
  ghost predicate CleanAt(states: seq<State>, steps: seq<Step>, m: nat)
    requires m < |steps| < |states|
  {
    steps[m].DropCurrent? && ReaderInRange(states[m]) && states[m].reader.current ==> CurrentQueue(states[m]) == []
  }

  ghost predicate DropsClean(states: seq<State>, steps: seq<Step>, n: nat)
    requires n <= |steps| < |states|
  {
    forall m :: 0 <= m < n ==> CleanAt(states, steps, m)
  }

  lemma NoLossNext(g: Graph, s: State, step: Step, s': State)
    requires Typed(g, s) && StreamInv(s) && Next(g, s, step, s')
    ensures NoLoss(s') <==> NoLoss(s) && (step.DropCurrent? ==> CurrentQueue(s) == [])
  {
    if !IsMainStep(step) {
      forall i | 0 <= i < s.reader.taken && !IsCurrent(s, i)
        ensures s'.sh.insts[i] == s.sh.insts[i]
      {
        InstanceAfterStep(g, s, step, i);
      }
    } else if step.DropCurrent? {
      DropDecidesLoss(s, s');
    } else {
      OtherMainStepsLoseNothing(s, step, s');
    }
  }

  lemma DropDecidesLoss(s: State, s': State)
    requires StreamInv(s) && MainEnabled(s, DropCurrent) && s' == MainStep(s, DropCurrent)
    ensures NoLoss(s') <==> NoLoss(s) && CurrentQueue(s) == []
  {
    var last := s.reader.taken - 1;
    assert IsCurrent(s, last) && !IsCurrent(s', last) && s'.sh.insts[last].queue == CurrentQueue(s);
    if NoLoss(s') {
      forall i | 0 <= i < s.reader.taken && i < |s.sh.insts| && !IsCurrent(s, i)
        ensures s.sh.insts[i].queue == []
      {
        assert !IsCurrent(s', i);
      }
    } 
    if NoLoss(s) && CurrentQueue(s) == [] {
      forall i | 0 <= i < s'.reader.taken && i < |s'.sh.insts| && !IsCurrent(s', i)
        ensures s'.sh.insts[i].queue == []
      {
        assert i != last ==> !IsCurrent(s, i);
      }
    }
  }

  lemma OtherMainStepsLoseNothing(s: State, step: Step, s': State)
    requires StreamInv(s) && MainEnabled(s, step) && s' == MainStep(s, step) && !step.DropCurrent?
    ensures NoLoss(s') <==> NoLoss(s)
  {
    assert forall i :: 0 <= i < s.reader.taken && !IsCurrent(s, i) ==>
      !IsCurrent(s', i) && s'.sh.insts[i] == s.sh.insts[i];
    assert forall i :: 0 <= i < s'.reader.taken && !IsCurrent(s', i) ==>
      !IsCurrent(s, i) && i < s.reader.taken && s'.sh.insts[i] == s.sh.insts[i];
  }

  lemma {:induction false} NoLossIffDropsClean(g: Graph, states: seq<State>, steps: seq<Step>, n: nat)
    requires IsRun(g, states, steps) && n < |states|
    ensures NoLoss(states[n]) <==> DropsClean(states, steps, n)
  {
    if n > 0 {
      NoLossIffDropsClean(g, states, steps, n - 1);
      NoLossOn(g, states, steps, n - 1);
      assert DropsClean(states, steps, n) <==> DropsClean(states, steps, n - 1) && CleanAt(states, steps, n - 1);
    }
  }

  lemma NoLossOn(g: Graph, states: seq<State>, steps: seq<Step>, n: nat)
    requires IsRun(g, states, steps) && n < |steps|
    ensures NoLoss(states[n + 1]) <==> NoLoss(states[n]) && CleanAt(states, steps, n)
  {
    TypedRun(g, states, steps, n);
    StreamInvRun(g, states, steps, n);
    NoLossNext(g, states[n], steps[n], states[n + 1]);
    assert Next(g, states[n], steps[n], states[n + 1]);
  }

  // ---------- Main results ----------

  /** At every moment of a run whose drops are clean, the chunks yielded are a prefix of the nodes'
      chunk lists joined in registration order, however the producers interleave. */
  lemma StreamIsPrefix(g: Graph, states: seq<State>, steps: seq<Step>, n: nat)
    requires IsRun(g, states, steps) && n < |states| && DropsClean(states, steps, n)
    ensures Chunks(states[n].reader.out) <= EmittedBy(states[n].sh.insts, |states[n].sh.insts|)
  {
    var s := states[n];
    StreamInvRun(g, states, steps, n);
    NoLossIffDropsClean(g, states, steps, n);
    var k := if s.reader.current then s.reader.taken - 1 else s.reader.taken;
    forall i | 0 <= i < k
      ensures s.sh.insts[i].queue == []
    {
      assert !IsCurrent(s, i);
    }
    PoppedAndLeft(s.sh.insts, k);
    EmittedByGrows(s.sh.insts, s.reader.taken, |s.sh.insts|);
  }

  /** When the drain loop ends, every chunk has been yielded exactly once if and only if every drop was clean. */
  lemma DrainYieldsAllIff(g: Graph, states: seq<State>, steps: seq<Step>, n: nat)
    requires IsRun(g, states, steps) && n < |steps|
    requires steps[n].PopNothing? && (states[n].main.Popping? || states[n].main.SawEmpty?)
    requires states[n].main.phase.Draining?
    ensures Chunks(states[n].reader.out) == EmittedBy(states[n].sh.insts, |states[n].sh.insts|)
            <==> DropsClean(states, steps, n)
  {
    var s := states[n];
    assert Next(g, s, steps[n], states[n + 1]);
    TypedRun(g, states, steps, n);
    PollInvRun(g, states, steps, n);
    StreamInvRun(g, states, steps, n);
    NoLossIffDropsClean(g, states, steps, n);
    assert forall i :: 0 <= i < |s.sh.insts| ==> s.sh.insts[i].outcome.Some?;
    assert !s.reader.current && s.reader.taken == |s.sh.insts|;
    assert forall i :: 0 <= i < |s.sh.insts| ==> !IsCurrent(s, i);
    PoppedAndLeft(s.sh.insts, |s.sh.insts|);
  }

  /** Taken as one atomic access, `pop` leaves no room for the current node to emit between its two reads. */
  ghost predicate PopsUndisturbed(states: seq<State>, steps: seq<Step>, n: nat)
    requires n <= |steps| < |states|
  {
    forall m :: 0 <= m < n && steps[m].Emit? && states[m].main.SawEmpty? && steps[m].t < |states[m].sh.tasks|
                && states[m].sh.tasks[steps[m].t].Running?
                ==> states[m].sh.tasks[steps[m].t].i + 1 != states[m].reader.taken
  }

  ghost predicate EmptyWhenSeen(s: State) {
    ReaderInRange(s) && (s.main.SawEmpty? ==> s.reader.current && CurrentQueue(s) == [])
  }

  lemma StaysEmpty(g: Graph, s: State, step: Step, i: nat)
    requires Typed(g, s) && !IsMainStep(step) && Enabled(g, s, step) && i < |s.sh.insts| && s.sh.insts[i].queue == []
    requires step.Emit? ==> s.sh.tasks[step.t].i != i
    ensures var insts := TaskStep(g, s.sh, step.t, step).insts; i < |insts| && insts[i].queue == []
  {
    InstanceAfterStep(g, s, step, i);
  }

  lemma MoreInstances(g: Graph, s: State, step: Step)
    requires Typed(g, s) && !IsMainStep(step) && Enabled(g, s, step)
    ensures |s.sh.insts| <= |TaskStep(g, s.sh, step.t, step).insts|
  {
    assert PcTyped(g, s.sh, s.sh.tasks[step.t]);
    InstancesAfterKeeps(g, s.sh, step.t, step);
  }

  lemma EmptyWhenSeenTaskStep(g: Graph, s: State, step: Step)
    requires Typed(g, s) && EmptyWhenSeen(s) && !IsMainStep(step) && Enabled(g, s, step)
    requires step.Emit? && s.main.SawEmpty? ==> s.sh.tasks[step.t].i + 1 != s.reader.taken
    ensures EmptyWhenSeen(s.(sh := TaskStep(g, s.sh, step.t, step)))
  {
    MoreInstances(g, s, step);
    if s.main.SawEmpty? {
      StaysEmpty(g, s, step, s.reader.taken - 1);
    }
  }

  lemma EmptyWhenSeenNext(g: Graph, s: State, step: Step, s': State)
    requires Typed(g, s) && EmptyWhenSeen(s) && Next(g, s, step, s')
    requires step.Emit? && s.main.SawEmpty? ==> s.sh.tasks[step.t].i + 1 != s.reader.taken
    ensures EmptyWhenSeen(s')
  {
    if !IsMainStep(step) {
      EmptyWhenSeenTaskStep(g, s, step);
    }
  }

  lemma {:induction false} SawEmptyIsEmpty(g: Graph, states: seq<State>, steps: seq<Step>, n: nat)
    requires IsRun(g, states, steps) && n < |states| && PopsUndisturbed(states, steps, n)
    ensures EmptyWhenSeen(states[n])
  {
    if n > 0 {
      SawEmptyIsEmpty(g, states, steps, n - 1);
      EmptyWhenSeenOn(g, states, steps, n - 1);
    }
  }

  lemma EmptyWhenSeenOn(g: Graph, states: seq<State>, steps: seq<Step>, n: nat)
    requires IsRun(g, states, steps) && n < |steps| && PopsUndisturbed(states, steps, n + 1) && EmptyWhenSeen(states[n])
    ensures EmptyWhenSeen(states[n + 1])
  {
    TypedRun(g, states, steps, n);
    assert Next(g, states[n], steps[n], states[n + 1]);
    EmptyWhenSeenNext(g, states[n], steps[n], states[n + 1]);
  }

  /** Atomic pops lose nothing. */
  lemma UndisturbedPopsDropClean(g: Graph, states: seq<State>, steps: seq<Step>, n: nat)
    requires IsRun(g, states, steps) && n <= |steps| && PopsUndisturbed(states, steps, n)
    ensures DropsClean(states, steps, n)
  {
    forall m | 0 <= m < n
      ensures CleanAt(states, steps, m)
    {
      SawEmptyIsEmpty(g, states, steps, m);
      assert Next(g, states[m], steps[m], states[m + 1]);
    }
  }

  // ---------- Separators ----------

  lemma {:induction false} AnsweredIff(g: Graph, states: seq<State>, steps: seq<Step>, n: nat)
    requires IsRun(g, states, steps) && n <= |steps|
    ensures states[n].sh.answered <==> exists k :: 0 <= k < n && steps[k].Answer?
  {
    if n > 0 {
      AnsweredIff(g, states, steps, n - 1);
      assert Next(g, states[n - 1], steps[n - 1], states[n]);
      AnsweredNext(g, states[n - 1], steps[n - 1], states[n]);
    }
  }

  lemma AnsweredNext(g: Graph, s: State, step: Step, s': State)
    requires Next(g, s, step, s')
    ensures s'.sh.answered <==> s.sh.answered || step.Answer?
  {
    if IsMainStep(step) { assert s' == MainStep(s, step); } else { assert s'.sh == TaskStep(g, s.sh, step.t, step); }
  }

  /** Where the reader goes on to the next node a separator stands, if and only if there was answer text by then. */
  lemma SeparatorIff(g: Graph, states: seq<State>, steps: seq<Step>, m: nat)
    requires IsRun(g, states, steps) && m < |steps| && steps[m].DropCurrent?
    ensures states[m + 1].reader.out
            == states[m].reader.out + if exists k :: 0 <= k < m && steps[k].Answer? then [Separator] else []
  {
    assert Next(g, states[m], steps[m], states[m + 1]);
    AnsweredIff(g, states, steps, m);
  }

  // ---------- `pop` as one call ----------

  /** A node chunk as `pop` sees it. */
  datatype Slot = Slot(queue: seq<Chunk>, ended: bool)

  /** What `pop` returns, and the node chunks it leaves, when nothing else happens meanwhile;
      the first slot is the current node chunk or the next in the list. */
  function Popped(slots: seq<Slot>, answered: bool): (Option<Item>, seq<Slot>) {
    if slots == [] then (None, [])
    else if slots[0].queue != [] then
      (Some(Data(slots[0].queue[0])), [slots[0].(queue := slots[0].queue[1..])] + slots[1..])
    else if !slots[0].ended then (None, slots)
    else if answered then (Some(Separator), slots[1..])
    else Popped(slots[1..], answered)
  }

  ghost predicate Pops(slots: seq<Slot>, answered: bool, item: Option<Item>, left: seq<Slot>) {
    Popped(slots, answered) == (item, left)
  }

  /** An ended, empty node chunk in front gives way, to a separator once the answer has text. */
  lemma PopsPast(slots: seq<Slot>, answered: bool, item: Option<Item>, left: seq<Slot>)
    requires slots != [] && slots[0] == Slot([], true)
    requires if answered then item == Some(Separator) && left == slots[1..] else Pops(slots[1..], answered, item, left)
    ensures Pops(slots, answered, item, left)
  {
  }

  lemma PopsData(slots: seq<Slot>, answered: bool, left: seq<Slot>)
    requires slots != [] && slots[0].queue != []
    requires left == [slots[0].(queue := slots[0].queue[1..])] + slots[1..]
    ensures Pops(slots, answered, Some(Data(slots[0].queue[0])), left)
  {
  }

  lemma PopsNothing(slots: seq<Slot>, answered: bool)
    requires slots == [] || (slots[0].queue == [] && !slots[0].ended)
    ensures Pops(slots, answered, None, slots)
  {
  }

  function Queues(slots: seq<Slot>): seq<Chunk> {
    if slots == [] then [] else slots[0].queue + Queues(slots[1..])
  }

  predicate AllOver(slots: seq<Slot>) {
    forall i :: 0 <= i < |slots| ==> slots[i].ended
  }

  function DataOf(item: Option<Item>): seq<Chunk> {
    if item.Some? && item.value.Data? then [item.value.chunk] else []
  }

  /** `pop` loses no chunk. */
  lemma {:induction false} PopConserves(slots: seq<Slot>, answered: bool, item: Option<Item>, left: seq<Slot>)
    requires Pops(slots, answered, item, left)
    ensures Queues(slots) == DataOf(item) + Queues(left)
  {
    if slots != [] && slots[0] == Slot([], true) && !answered {
      PopConserves(slots[1..], answered, item, left);
    } else if item.Some? && item.value.Data? {
      TakenFromFront(slots, left);
    }
  }

  /** `pop` passes over ended, empty nodes only; a separator stands for one of them, and None means that
      nothing is left or that the node in front is unfinished and empty. */
  lemma {:induction false} PopPassesOver(slots: seq<Slot>, answered: bool, item: Option<Item>, left: seq<Slot>)
    requires Pops(slots, answered, item, left)
    ensures |left| <= |slots| && forall i :: 0 <= i < |slots| - |left| ==> slots[i] == Slot([], true)
    ensures item == Some(Separator) ==> |left| < |slots|
    ensures item.None? ==> left == [] || (left[0].queue == [] && !left[0].ended)
  {
    if slots != [] && slots[0] == Slot([], true) && !answered {
      PopPassesOver(slots[1..], answered, item, left);
      assert forall i :: 0 < i < |slots| ==> slots[i] == slots[1..][i - 1];
    }
  }

  lemma {:induction false} PopKeepsOver(slots: seq<Slot>, answered: bool, item: Option<Item>, left: seq<Slot>)
    requires Pops(slots, answered, item, left) && AllOver(slots)
    ensures AllOver(left)
  {
    if slots != [] && slots[0] == Slot([], true) && !answered {
      PopKeepsOver(slots[1..], answered, item, left);
    } else if item.Some? && item.value.Data? {
      TakenFromFront(slots, left);
    }
  }

  lemma TakenFromFront(slots: seq<Slot>, left: seq<Slot>)
    requires slots != [] && slots[0].queue != []
    requires left == [slots[0].(queue := slots[0].queue[1..])] + slots[1..]
    ensures Queues(slots) == [slots[0].queue[0]] + Queues(left) && |left| == |slots|
    ensures AllOver(slots) ==> AllOver(left)
  {
    assert left[1..] == slots[1..];
    assert forall i :: 0 <= i < |slots| ==> left[i].ended == slots[i].ended;
    FirstOfJoined(slots[0].queue, Queues(slots[1..]));
  }

  lemma FirstOfJoined(queue: seq<Chunk>, rest: seq<Chunk>)
    requires queue != []
    ensures queue + rest == [queue[0]] + (queue[1..] + rest)
  {
  }

  /** The node chunks in the reader's hands. */
  function Slots(s: State): seq<Slot>
    requires ReaderInRange(s)
  {
    var k := if s.reader.current then s.reader.taken - 1 else s.reader.taken;
    SlotsFrom(s.sh.insts[k..])
  }

  function SlotsFrom(insts: seq<Instance>): seq<Slot> {
    if insts == [] then [] else [Slot(insts[0].queue, insts[0].outcome.Some?)] + SlotsFrom(insts[1..])
  }

  lemma SlotsOfCurrent(s: State)
    requires ReaderInRange(s) && s.reader.current
    ensures Slots(s) == [Slot(CurrentQueue(s), CurrentEnded(s))] + SlotsFrom(s.sh.insts[s.reader.taken..])
  {
    var rest := s.sh.insts[s.reader.taken - 1..];
    assert rest[1..] == s.sh.insts[s.reader.taken..];
  }

  /** What one step of the reader is to the `pop` it belongs to: it returns, goes on, or takes an ended,
      empty node out of the way. */
  ghost predicate IsPartOfPop(s: State, step: Step, s': State)
    requires ReaderInRange(s) && ReaderInRange(s')
  {
    var (item, left) := Popped(Slots(s), s.sh.answered);
    match step
    case TakeChunkList => Slots(s') == Slots(s) && s'.reader.out == s.reader.out
    case SeeEmpty => Slots(s') == Slots(s) && s'.reader.out == s.reader.out
    case PopChunk => item.Some? && s'.reader.out == s.reader.out + [item.value] && Slots(s') == left
    case DropCurrent =>
      if s.sh.answered then item == Some(Separator) && s'.reader.out == s.reader.out + [Separator] && Slots(s') == left
      else Popped(Slots(s'), s.sh.answered) == (item, left) && s'.reader.out == s.reader.out
    case PopNothing => item.None? && Slots(s') == Slots(s) && s'.reader.out == s.reader.out
    case _ => true
  }

  /** The reader's steps are those of `pop`, as long as a queue seen empty is still empty at the next step. */
  lemma ReaderStepsArePop(s: State, step: Step)
    requires MainEnabled(s, step) && EmptyWhenSeen(s)
    ensures ReaderInRange(MainStep(s, step)) && IsPartOfPop(s, step, MainStep(s, step))
  {
    var s' := MainStep(s, step);
    match step {
      case TakeChunkList =>
      case PopChunk => PopChunkIsPop(s);
      case DropCurrent =>
        SlotsOfCurrent(s);
        assert s.reader.out + [] == s.reader.out;
      case PopNothing => if s.reader.current { SlotsOfCurrent(s); }
      case _ =>
    }
  }

  lemma PopChunkIsPop(s: State)
    requires MainEnabled(s, PopChunk)
    ensures IsPartOfPop(s, PopChunk, MainStep(s, PopChunk))
  {
    var s' := MainStep(s, PopChunk);
    SlotsOfCurrent(s);
    SlotsOfCurrent(s');
    assert s'.sh.insts[s.reader.taken..] == s.sh.insts[s.reader.taken..];
  }
}
