/**
 One workflow run as a state machine. Every pool thread, the poller that decides that the
 run is over, and the reader that drains the node chunks are program counters; a step is
 one access to the state they share, so a run is an arbitrary interleaving.
 */
module Engine {
  import opened Wrappers
  import opened Workflow

  // ---------- State ----------

  type Chunk = string

  datatype Item = Data(chunk: Chunk) | Separator

  /** A node to execute, as built by `get_node_cls_by_id`. */
  datatype Request = Request(node: string, up: seq<string>)

  /** A node instance that has registered its chunk. `queue` is the chunk list the reader consumes;
      `popped` is what it has consumed. It has an outcome once it has ended, and every execution has its own. */
  datatype Instance =
    Instance(node: string, up: seq<string>, popped: seq<Chunk>, queue: seq<Chunk>, outcome: Option<Outcome>)

  /** Everything the instance has emitted. */
  function Emitted(inst: Instance): seq<Chunk> {
    inst.popped + inst.queue
  }

  /** The runtime id, read as an injective function of the sorted ancestors and the node. */
  datatype RuntimeId = RuntimeId(ancestors: multiset<string>, node: string)

  function RuntimeIdOf(up: seq<string>, node: string): RuntimeId {
    RuntimeId(multiset(up), node)
  }

  /** Where a thread that runs `run_chain_manage` stands. */
  datatype Pc =
    | Queued(req: Request)
    | Registered(i: nat)
    | Located(i: nat, slot: Option<nat>)
    | Running(i: nat)
    | Ended(i: nat)
    | Scanning(i: nat, edges: seq<Edge>, next: seq<Request>)
    // the walk of `node_context` for in-edge `k` of the join is at entry `j`
    | Joining(i: nat, edges: seq<Edge>, next: seq<Request>, k: nat, j: nat, found: bool, ok: bool)
    | Submitting(todo: seq<Request>, futs: seq<nat>)
    | Appending(futs: seq<nat>)
    | Finished

  /** Instances are numbered as their chunks are registered; task `t` is the body of future `t`. */
  datatype Shared = Shared(
    insts: seq<Instance>,
    tasks: seq<Pc>,
    futures: seq<nat>,
    context: seq<nat>,
    answered: bool)

  /** The loop of the main thread that is active. */
  datatype Phase = Streaming | Draining | Closing

  datatype Main =
    | Launching
    | Idle(phase: Phase)
    | Counted(phase: Phase, len: nat)
    | Waiting(phase: Phase, len: nat, snapshot: seq<nat>)
    | Compared(phase: Phase, len: nat)
    | Popping(phase: Phase)
    | SawEmpty(phase: Phase)
    | Handled

  /** `taken` chunks have left the front of `node_chunk_list`, so the list is what was registered
      after them; `current` says whether the last one taken is `current_node_chunk`. */
  datatype Reader = Reader(taken: nat, current: bool, out: seq<Item>)

  datatype State = State(sh: Shared, main: Main, reader: Reader)

  function InitState(g: Graph): State {
    State(Shared([], [Queued(Request(g.start, []))], [], [], false), Launching, Reader(0, false, []))
  }

  // ---------- Shared reads ----------

  function InstanceId(sh: Shared, i: nat): RuntimeId
    requires i < |sh.insts|
  {
    RuntimeIdOf(sh.insts[i].up, sh.insts[i].node)
  }

  predicate ContextInRange(sh: Shared) {
    forall j :: 0 <= j < |sh.context| ==> sh.context[j] < |sh.insts|
  }

  /** The loop of `append_node`: the first entry of `node_context` from `j` on with this runtime id. */
  function FindSlot(sh: Shared, id: RuntimeId, j: nat): (r: Option<nat>)
    requires ContextInRange(sh) && j <= |sh.context|
    ensures r.Some? ==> j <= r.value < |sh.context| && InstanceId(sh, sh.context[r.value]) == id
    ensures r.None? ==> forall m :: j <= m < |sh.context| ==> InstanceId(sh, sh.context[m]) != id
    decreases |sh.context| - j
  {
    if j == |sh.context| then None
    else if InstanceId(sh, sh.context[j]) == id then Some(j)
    else FindSlot(sh, id, j + 1)
  }

  /** The first entry of `node_context` from `j` on for this node. */
  function FindNode(sh: Shared, node: string, j: nat): (r: Option<nat>)
    requires ContextInRange(sh) && j <= |sh.context|
    ensures r.Some? ==> j <= r.value < |sh.context| && sh.insts[sh.context[r.value]].node == node
                        && forall m :: j <= m < r.value ==> sh.insts[sh.context[m]].node != node
    ensures r.None? ==> forall m :: j <= m < |sh.context| ==> sh.insts[sh.context[m]].node != node
    decreases |sh.context| - j
  {
    if j == |sh.context| then None
    else if sh.insts[sh.context[j]].node == node then Some(j)
    else FindNode(sh, node, j + 1)
  }

  /** `dependent_node`: this entry of the source has ended and is ready. */
  predicate EntryDone(sh: Shared, e: Edge, j: nat)
    requires ContextInRange(sh) && j < |sh.context|
  {
    var inst := sh.insts[sh.context[j]];
    inst.node == e.source && inst.outcome.Some? && Ready(e, inst.outcome.value)
  }

  /** The ancestors of an AND target: those of the spawning parent, or of the first source if there are several. */
  function JoinAncestors(g: Graph, sh: Shared, i: nat, target: string): Option<seq<string>>
    requires ContextInRange(sh) && i < |sh.insts|
  {
    if |EdgesInto(g.edges, target)| > 1 then
      var first := FirstSource(g, target);
      match FindNode(sh, first, 0)
      case None => None
      case Some(j) => Some(sh.insts[sh.context[j]].up + [first])
    else Some(sh.insts[i].up + [sh.insts[i].node])
  }

  // ---------- Steps ----------

  datatype Step =
    // the main thread
    | LaunchAppend(stream: bool)
    | PollCount
    | PollSnapshot
    | PollAllDone
    | PollTimeout
    | PollCompare
    | TakeChunkList
    | PopChunk
    | SeeEmpty
    | DropCurrent
    | PopNothing
    | CloseStream
    // the pool threads
    | Register(t: nat)
    | Locate(t: nat)
    | Put(t: nat)
    | Emit(t: nat, chunk: Chunk)
    | Answer(t: nat)
    | End(t: nat, outcome: Outcome)
    | Decide(t: nat)
    | ScanEdge(t: nat)
    | ReadEntry(t: nat)
    | FinishJoin(t: nat)
    | FinishScan(t: nat, order: seq<Request>)
    | Submit(t: nat)
    | AppendFuture(t: nat)

  predicate IsMainStep(step: Step) {
    step.LaunchAppend? || step.PollCount? || step.PollSnapshot? || step.PollAllDone? || step.PollTimeout?
    || step.PollCompare? || step.TakeChunkList? || step.PopChunk? || step.SeeEmpty? || step.DropCurrent?
    || step.PopNothing? || step.CloseStream?
  }

  predicate ReaderInRange(s: State) {
    && s.reader.taken <= |s.sh.insts|
    && (s.reader.current ==> s.reader.taken > 0)
  }

  function CurrentQueue(s: State): seq<Chunk>
    requires ReaderInRange(s) && s.reader.current
  {
    s.sh.insts[s.reader.taken - 1].queue
  }

  predicate CurrentEnded(s: State)
    requires ReaderInRange(s) && s.reader.current
  {
    s.sh.insts[s.reader.taken - 1].outcome.Some?
  }

  function AfterTrue(phase: Phase): Main {
    if phase == Closing then Idle(Closing) else Popping(phase)
  }

  predicate MainEnabled(s: State, step: Step) {
    && ReaderInRange(s)
    && match step
       case LaunchAppend(_) => s.main.Launching?
       case PollCount => s.main.Idle?
       case PollSnapshot => s.main.Counted?
       case PollAllDone =>
         s.main.Waiting? && forall f :: f in s.main.snapshot ==> f < |s.sh.tasks| && s.sh.tasks[f].Finished?
       case PollTimeout => s.main.Waiting?
       case PollCompare => s.main.Compared?
       case TakeChunkList => s.main.Popping? && !s.reader.current && s.reader.taken < |s.sh.insts|
       case PopChunk => s.main.Popping? && s.reader.current && CurrentQueue(s) != []
       case SeeEmpty => s.main.Popping? && s.reader.current && CurrentQueue(s) == []
       case DropCurrent => s.main.SawEmpty? && s.reader.current && CurrentEnded(s)
       case PopNothing =>
         || (s.main.Popping? && !s.reader.current && s.reader.taken == |s.sh.insts|)
         || (s.main.SawEmpty? && s.reader.current && !CurrentEnded(s))
       case CloseStream => s.main.Popping?
       case _ => false
  }

  function MainStep(s: State, step: Step): State
    requires MainEnabled(s, step)
  {
    match step
    case LaunchAppend(stream) =>
      s.(sh := s.sh.(futures := s.sh.futures + [0]), main := Idle(if stream then Streaming else Closing))
    case PollCount => s.(main := Counted(s.main.phase, |s.sh.futures|))
    case PollSnapshot => s.(main := Waiting(s.main.phase, s.main.len, s.sh.futures))
    case PollAllDone => s.(main := Compared(s.main.phase, s.main.len))
    case PollTimeout => s.(main := AfterTrue(s.main.phase))
    case PollCompare =>
      if s.main.len != |s.sh.futures| then s.(main := AfterTrue(s.main.phase))
      else s.(main := if s.main.phase == Closing then Handled else Popping(Draining))
    case TakeChunkList => s.(reader := s.reader.(taken := s.reader.taken + 1, current := true))
    case PopChunk =>
      var i := s.reader.taken - 1;
      var inst := s.sh.insts[i];
      s.(sh := s.sh.(insts := s.sh.insts[i := inst.(popped := inst.popped + [inst.queue[0]],
          queue := inst.queue[1..])]),
         reader := s.reader.(out := s.reader.out + [Data(inst.queue[0])]))
    case SeeEmpty => s.(main := SawEmpty(s.main.phase))
    case DropCurrent =>
      s.(main := Popping(s.main.phase),
         reader := s.reader.(current := false, out := s.reader.out + (if s.sh.answered then [Separator] else [])))
    case PopNothing => s.(main := if s.main.phase == Streaming then Idle(Streaming) else Idle(Closing))
    case CloseStream => s.(main := Idle(Closing))
  }

  predicate HasEnded(sh: Shared, i: nat) {
    i < |sh.insts| && sh.insts[i].outcome.Some?
  }

  predicate TaskEnabled(g: Graph, sh: Shared, t: nat, step: Step) {
    && ContextInRange(sh)
    && t < |sh.tasks|
    && var pc := sh.tasks[t];
       match step
       case Register(_) => pc.Queued?
       case Locate(_) => pc.Registered? && pc.i < |sh.insts|
       case Put(_) => pc.Located? && pc.i < |sh.insts| && (pc.slot.Some? ==> pc.slot.value < |sh.context|)
       case Emit(_, _) => pc.Running? && pc.i < |sh.insts|
       case Answer(_) => pc.Running?
       case End(_, _) => pc.Running? && pc.i < |sh.insts|
       case Decide(_) => pc.Ended? && HasEnded(sh, pc.i)
       case ScanEdge(_) => pc.Scanning? && pc.edges != [] && HasEnded(sh, pc.i)
       case ReadEntry(_) => pc.Joining? && pc.edges != [] && pc.k < |EdgesInto(g.edges, pc.edges[0].target)|
       case FinishJoin(_) =>
         pc.Joining? && pc.edges != [] && pc.k == |EdgesInto(g.edges, pc.edges[0].target)| && pc.i < |sh.insts|
       case FinishScan(_, order) => pc.Scanning? && pc.edges == [] && multiset(order) == multiset(pc.next)
       case Submit(_) => pc.Submitting?
       case AppendFuture(_) => pc.Appending?
       case _ => false
  }

  /** The loop body of `get_next_node_list` up to the join check. */
  function ScanPc(g: Graph, sh: Shared, pc: Pc): Pc
    requires pc.Scanning? && pc.edges != [] && HasEnded(sh, pc.i)
  {
    var e, inst := pc.edges[0], sh.insts[pc.i];
    if !Fires(e, inst.outcome.value) then Scanning(pc.i, pc.edges[1..], pc.next)
    else if IsOr(g, e.target) then
      Scanning(pc.i, pc.edges[1..], pc.next + [Request(e.target, inst.up + [inst.node])])
    else Joining(pc.i, pc.edges, pc.next, 0, 0, false, true)
  }

  /** The in-edge whose source the join check is looking for. */
  function CheckedEdge(g: Graph, pc: Pc): Edge
    requires pc.Joining? && pc.edges != [] && pc.k < |EdgesInto(g.edges, pc.edges[0].target)|
  {
    EdgesInto(g.edges, pc.edges[0].target)[pc.k]
  }

  /** One access of `dependent_node_been_executed`: the `any` of an in-edge looks at one more entry of
      `node_context`, which other threads may be changing, or has come to its end. */
  function ReadPc(g: Graph, sh: Shared, pc: Pc): Pc
    requires ContextInRange(sh)
    requires pc.Joining? && pc.edges != [] && pc.k < |EdgesInto(g.edges, pc.edges[0].target)|
  {
    if pc.j < |sh.context| then pc.(j := pc.j + 1, found := pc.found || EntryDone(sh, CheckedEdge(g, pc), pc.j))
    else pc.(k := pc.k + 1, j := 0, found := false, ok := pc.ok && pc.found)
  }

  /** The rest of the loop body; an empty context lookup raises, which ends the future. */
  function FinishJoinPc(g: Graph, sh: Shared, pc: Pc): Pc
    requires ContextInRange(sh) && pc.Joining? && pc.edges != [] && pc.i < |sh.insts|
  {
    if !pc.ok then Scanning(pc.i, pc.edges[1..], pc.next)
    else
      match JoinAncestors(g, sh, pc.i, pc.edges[0].target)
      case None => Finished
      case Some(up) => Scanning(pc.i, pc.edges[1..], pc.next + [Request(pc.edges[0].target, up)])
  }

  function FinishScanPc(pc: Pc, order: seq<Request>): Pc
    requires pc.Scanning?
  {
    if |pc.next| == 0 then Finished
    else if |pc.next| == 1 then Queued(pc.next[0])
    else Submitting(order, [])
  }

  /** Where the thread stands after its step. */
  function MovedPc(g: Graph, sh: Shared, t: nat, step: Step): Pc
    requires TaskEnabled(g, sh, t, step)
  {
    var pc := sh.tasks[t];
    match step
    case Register(_) => Registered(|sh.insts|)
    case Locate(_) => Located(pc.i, FindSlot(sh, InstanceId(sh, pc.i), 0))
    case Put(_) => Running(pc.i)
    case Emit(_, _) => pc
    case Answer(_) => pc
    case End(_, _) => Ended(pc.i)
    case Decide(_) =>
      var inst := sh.insts[pc.i];
      if inst.outcome.value.verdict.Stop? then Finished else Scanning(pc.i, EdgesFrom(g.edges, inst.node), [])
    case ScanEdge(_) => ScanPc(g, sh, pc)
    case ReadEntry(_) => ReadPc(g, sh, pc)
    case FinishJoin(_) => FinishJoinPc(g, sh, pc)
    case FinishScan(_, order) => FinishScanPc(pc, order)
    case Submit(_) =>
      if pc.todo == [] then Appending(pc.futs) else Submitting(pc.todo[1..], pc.futs + [|sh.tasks|])
    case AppendFuture(_) => if pc.futs == [] then Finished else Appending(pc.futs[1..])
  }

  /** The thread that `executor.submit` adds. */
  function Spawned(pc: Pc, step: Step): seq<Pc> {
    if step.Submit? && pc.Submitting? && pc.todo != [] then [Queued(pc.todo[0])] else []
  }

  function InstancesAfter(g: Graph, sh: Shared, t: nat, step: Step): seq<Instance>
    requires TaskEnabled(g, sh, t, step)
  {
    var pc := sh.tasks[t];
    match step
    case Register(_) => sh.insts + [Instance(pc.req.node, pc.req.up, [], [], None)]
    case Emit(_, c) =>
      var inst := sh.insts[pc.i];
      sh.insts[pc.i := inst.(queue := inst.queue + [c])]
    case End(_, o) => sh.insts[pc.i := sh.insts[pc.i].(outcome := Some(o))]
    case _ => sh.insts
  }

  function ContextAfter(g: Graph, sh: Shared, t: nat, step: Step): seq<nat>
    requires TaskEnabled(g, sh, t, step)
  {
    var pc := sh.tasks[t];
    if !step.Put? then sh.context
    else if pc.slot.Some? then sh.context[pc.slot.value := pc.i]
    else sh.context + [pc.i]
  }

  function FuturesAfter(sh: Shared, pc: Pc, step: Step): seq<nat> {
    if step.AppendFuture? && pc.Appending? && pc.futs != [] then sh.futures + [pc.futs[0]] else sh.futures
  }

  function TaskStep(g: Graph, sh: Shared, t: nat, step: Step): Shared
    requires TaskEnabled(g, sh, t, step)
  {
    var pc := sh.tasks[t];
    Shared(InstancesAfter(g, sh, t, step),
           sh.tasks[t := MovedPc(g, sh, t, step)] + Spawned(pc, step),
           FuturesAfter(sh, pc, step),
           ContextAfter(g, sh, t, step),
           sh.answered || step.Answer?)
  }

  predicate Enabled(g: Graph, s: State, step: Step) {
    if IsMainStep(step) then MainEnabled(s, step) else TaskEnabled(g, s.sh, step.t, step)
  }

  function Apply(g: Graph, s: State, step: Step): State
    requires Enabled(g, s, step)
  {
    if IsMainStep(step) then MainStep(s, step) else s.(sh := TaskStep(g, s.sh, step.t, step))
  }

  // ---------- Runs ----------

  ghost predicate Next(g: Graph, s: State, step: Step, s': State) {
    Enabled(g, s, step) && s' == Apply(g, s, step)
  }

  ghost predicate IsRun(g: Graph, states: seq<State>, steps: seq<Step>) {
    && |states| == |steps| + 1
    && states[0] == InitState(g)
    && forall n {:trigger steps[n]} :: 0 <= n < |steps| ==> Next(g, states[n], steps[n], states[n + 1])
  }

  ghost predicate Quiescent(s: State) {
    forall t :: 0 <= t < |s.sh.tasks| ==> s.sh.tasks[t].Finished?
  }

  /** The nodes that have been executed. */
  ghost function Executed(s: State): set<string> {
    set i | 0 <= i < |s.sh.insts| :: s.sh.insts[i].node
  }
}
