/**
 Runs, for whole families of workflows, that reach what the unlocked engine does not exclude: a chunk
 lost between the two reads of `pop`, and two context entries with one runtime id.
 */
module EngineRaces {
  import opened Wrappers
  import opened Workflow
  import opened Engine
  import opened EngineStream
  import opened EngineLineage

  ghost predicate Reachable(g: Graph, s: State) {
    exists states, steps :: IsRun(g, states, steps) && states[|steps|] == s
  }

  lemma Begin(g: Graph) returns (s: State)
    ensures s == InitState(g) && Reachable(g, s)
  {
    s := InitState(g);
    var states, steps: seq<Step> := [s], [];
    assert IsRun(g, states, steps) && states[|steps|] == s;
  }

  lemma Go(g: Graph, s: State, step: Step) returns (s': State)
    requires Reachable(g, s) && Enabled(g, s, step)
    ensures s' == Apply(g, s, step) && Reachable(g, s')
  {
    s' := Apply(g, s, step);
    var states, steps :| IsRun(g, states, steps) && states[|steps|] == s;
    var states', steps' := states + [s'], steps + [step];
    forall n | 0 <= n < |steps'|
      ensures Next(g, states'[n], steps'[n], states'[n + 1])
    {
      if n < |steps| {
        assert Next(g, states[n], steps[n], states[n + 1]);
      }
    }
    assert IsRun(g, states', steps') && states'[|steps'|] == s';
  }

  // ---------- Stretches of a run ----------

  ghost function WithTasks(s: State, tasks: seq<Pc>): State {
    s.(sh := s.sh.(tasks := tasks))
  }

  /** Nothing but the position of thread `t` differs. */
  ghost predicate MovedTo(s: State, s': State, t: nat, pc: Pc) {
    && s'.main == s.main && s'.reader == s.reader && s'.sh.insts == s.sh.insts && s'.sh.context == s.sh.context
    && s'.sh.futures == s.sh.futures && s'.sh.answered == s.sh.answered
    && t < |s.sh.tasks| == |s'.sh.tasks| && s'.sh.tasks[t] == pc
    && forall t' :: 0 <= t' < |s.sh.tasks| && t' != t ==> s'.sh.tasks[t'] == s.sh.tasks[t']
  }

  /** A step that changes nothing but the position of its thread. */
  lemma Advance(g: Graph, s: State, t: nat, step: Step, pc: Pc) returns (s': State)
    requires Reachable(g, s) && !IsMainStep(step) && step.t == t && TaskEnabled(g, s.sh, t, step)
    requires MovedPc(g, s.sh, t, step) == pc && Spawned(s.sh.tasks[t], step) == []
    requires step.Locate? || step.ScanEdge? || step.ReadEntry? || step.FinishJoin? || step.FinishScan?
    ensures Reachable(g, s') && MovedTo(s, s', t, pc)
  {
    s' := Go(g, s, step);
  }

  function AfterVerdict(g: Graph, node: string, outcome: Outcome, i: nat): Pc {
    if outcome.verdict.Stop? then Finished else Scanning(i, EdgesFrom(g.edges, node), [])
  }

  /** Thread `t` runs its node without interference: one ended instance more, one context entry more. */
  lemma Execute(g: Graph, s: State, t: nat, outcome: Outcome) returns (s': State)
    requires Reachable(g, s) && ContextInRange(s.sh) && t < |s.sh.tasks| && s.sh.tasks[t].Queued?
    requires forall j :: 0 <= j < |s.sh.context| ==> s.sh.insts[s.sh.context[j]].node != s.sh.tasks[t].req.node
    ensures Reachable(g, s')
    ensures var req, n := s.sh.tasks[t].req, |s.sh.insts|;
            && ContextInRange(s'.sh) && s'.main == s.main && s'.reader == s.reader
            && s'.sh.insts == s.sh.insts + [Instance(req.node, req.up, [], [], Some(outcome))]
            && s'.sh.tasks == s.sh.tasks[t := AfterVerdict(g, req.node, outcome, n)]
            && s'.sh.futures == s.sh.futures && s'.sh.context == s.sh.context + [n] && s'.sh.answered == s.sh.answered
  {
    var n, req := |s.sh.insts|, s.sh.tasks[t].req;
    s' := RegisterOne(g, s, t, req);
    s' := Advance(g, s', t, Locate(t), Located(n, None));
    s' := RunAndDecide(g, s', t, n, outcome);
    assert s'.sh.insts == s.sh.insts + [Instance(req.node, req.up, [], [], Some(outcome))];
    assert s'.sh.tasks == s.sh.tasks[t := AfterVerdict(g, req.node, outcome, n)];
  }

  lemma EndOne(g: Graph, s: State, t: nat, n: nat, outcome: Outcome) returns (s': State)
    requires Reachable(g, s) && ContextInRange(s.sh) && t < |s.sh.tasks| && n < |s.sh.insts|
    requires s.sh.tasks[t] == Running(n)
    ensures Reachable(g, s')
    ensures s' == s.(sh := s.sh.(insts := s.sh.insts[n := s.sh.insts[n].(outcome := Some(outcome))],
                                 tasks := s.sh.tasks[t := Ended(n)]))
  {
    s' := Go(g, s, End(t, outcome));
  }

  lemma DecideOne(g: Graph, s: State, t: nat, n: nat) returns (s': State)
    requires Reachable(g, s) && ContextInRange(s.sh) && t < |s.sh.tasks| && HasEnded(s.sh, n)
    requires s.sh.tasks[t] == Ended(n)
    ensures Reachable(g, s')
    ensures s' == WithTasks(s, s.sh.tasks[t := AfterVerdict(g, s.sh.insts[n].node, s.sh.insts[n].outcome.value, n)])
  {
    s' := Go(g, s, Decide(t));
  }

  lemma RunAndDecide(g: Graph, s: State, t: nat, n: nat, outcome: Outcome) returns (s': State)
    requires Reachable(g, s) && ContextInRange(s.sh) && t < |s.sh.tasks|
    requires n < |s.sh.insts| && s.sh.tasks[t] == Located(n, None)
    ensures Reachable(g, s')
    ensures var inst := s.sh.insts[n];
            s' == s.(sh := Shared(s.sh.insts[n := inst.(outcome := Some(outcome))],
                                  s.sh.tasks[t := AfterVerdict(g, inst.node, outcome, n)],
                                  s.sh.futures, s.sh.context + [n], s.sh.answered))
  {
    s' := PutNew(g, s, t, n);
    s' := EndOne(g, s', t, n, outcome);
    s' := DecideOne(g, s', t, n);
  }

  lemma StartRun(g: Graph, outcome: Outcome) returns (s: State)
    ensures Reachable(g, s)
    ensures s == State(Shared([Instance(g.start, [], [], [], Some(outcome))],
                              [AfterVerdict(g, g.start, outcome, 0)], [], [0], false),
                       Launching, Reader(0, false, []))
  {
    s := Begin(g);
    s := Execute(g, s, 0, outcome);
  }

  lemma Scan(g: Graph, s: State, t: nat) returns (s': State)
    requires Reachable(g, s) && ContextInRange(s.sh) && t < |s.sh.tasks|
    requires s.sh.tasks[t].Scanning? && s.sh.tasks[t].edges != [] && HasEnded(s.sh, s.sh.tasks[t].i)
    ensures Reachable(g, s') && MovedTo(s, s', t, ScanPc(g, s.sh, s.sh.tasks[t]))
  {
    s' := Advance(g, s, t, ScanEdge(t), ScanPc(g, s.sh, s.sh.tasks[t]));
  }

  lemma ScanEnd(g: Graph, s: State, t: nat) returns (s': State)
    requires Reachable(g, s) && ContextInRange(s.sh) && t < |s.sh.tasks|
    requires s.sh.tasks[t].Scanning? && s.sh.tasks[t].edges == []
    ensures Reachable(g, s')
    ensures MovedTo(s, s', t, FinishScanPc(s.sh.tasks[t], s.sh.tasks[t].next))
  {
    var next := s.sh.tasks[t].next;
    s' := Advance(g, s, t, FinishScan(t, next), FinishScanPc(s.sh.tasks[t], next));
  }

  /** Thread `t` finds the two OR successors of its node startable. */
  lemma ScanTwo(g: Graph, s: State, t: nat, i: nat, e: Edge, e': Edge) returns (s': State)
    requires Reachable(g, s) && ContextInRange(s.sh) && t < |s.sh.tasks| && HasEnded(s.sh, i)
    requires s.sh.tasks[t] == Scanning(i, [e, e'], [])
    requires Fires(e, s.sh.insts[i].outcome.value) && Fires(e', s.sh.insts[i].outcome.value) && IsOr(g, e.target)
    requires IsOr(g, e'.target)
    ensures Reachable(g, s')
    ensures var up := s.sh.insts[i].up + [s.sh.insts[i].node];
            MovedTo(s, s', t, Submitting([Request(e.target, up), Request(e'.target, up)], []))
  {
    var up := s.sh.insts[i].up + [s.sh.insts[i].node];
    var r, r' := Request(e.target, up), Request(e'.target, up);
    s' := Scan(g, s, t);
    assert s'.sh.tasks[t] == Scanning(i, [e'], [r]);
    s' := Scan(g, s', t);
    assert s'.sh.tasks[t] == Scanning(i, [], [r, r']);
    s' := ScanEnd(g, s', t);
  }

  lemma SubmitTwo(g: Graph, s: State, r: Request, r': Request) returns (s': State)
    requires Reachable(g, s) && ContextInRange(s.sh) && s.sh.tasks == [Submitting([r, r'], [])]
    ensures Reachable(g, s') && s' == WithTasks(s, [Submitting([], [1, 2]), Queued(r), Queued(r')])
  {
    assert [r, r'] == [r] + [r'] && [r'] == [r'] + [] && [] + [1] == [1] && [1] + [2] == [1, 2];
    s' := SubmitOne(g, s, r, [r'], []);
    assert s'.sh.tasks == [Submitting([r'], [1]), Queued(r)];
    s' := SubmitOne(g, s', r', [], [1]);
    assert s'.sh.tasks == [Submitting([], [1, 2]), Queued(r), Queued(r')];
  }

  lemma SubmitOne(g: Graph, s: State, r: Request, rest: seq<Request>, futs: seq<nat>) returns (s': State)
    requires Reachable(g, s) && ContextInRange(s.sh) && s.sh.tasks != []
    requires s.sh.tasks[0] == Submitting([r] + rest, futs)
    ensures Reachable(g, s')
    ensures s' == WithTasks(s, s.sh.tasks[0 := Submitting(rest, futs + [|s.sh.tasks|])] + [Queued(r)])
  {
    assert ([r] + rest)[1..] == rest;
    s' := Go(g, s, Submit(0));
  }

  lemma ForkAtStart(g: Graph, e: Edge, e': Edge, outcome: Outcome) returns (s: State)
    requires EdgesFrom(g.edges, g.start) == [e, e'] && IsOr(g, e.target) && IsOr(g, e'.target)
    requires Fires(e, outcome) && Fires(e', outcome)
    ensures Reachable(g, s)
    ensures s == State(Shared([Instance(g.start, [], [], [], Some(outcome))],
                              [Submitting([], [1, 2]), Queued(Request(e.target, [g.start])),
                               Queued(Request(e'.target, [g.start]))],
                              [], [0], false), Launching, Reader(0, false, []))
  {
    s := StartRun(g, outcome);
    s := ScanTwo(g, s, 0, 0, e, e');
    assert [] + [g.start] == [g.start];
    s := SubmitTwo(g, s, Request(e.target, [g.start]), Request(e'.target, [g.start]));
  }

  // ---------- A chunk lost by `pop` ----------

  /** Whatever the workflow, its start node can emit and end after the reader saw its queue empty and before it
      read the end flag: the reader lets go of the node with the chunk still queued, so no clean drop. */
  lemma PopCanLoseAChunk(g: Graph, c: Chunk, outcome: Outcome) returns (s: State)
    ensures Reachable(g, s) && ReaderInRange(s)
    ensures s.reader.out == [] && s.sh.insts == [Instance(g.start, [], [], [c], Some(outcome))]
    ensures s.reader == Reader(1, false, []) && !NoLoss(s)
  {
    s := NodeEmits(g, c);
    s := Go(g, s, End(0, outcome));
    assert s.sh.insts == [Instance(g.start, [], [], [c], Some(outcome))];
    s := Go(g, s, DropCurrent);
    assert s.sh.insts[0].queue == [c] && !IsCurrent(s, 0);
  }

  lemma NodeEmits(g: Graph, c: Chunk) returns (s: State)
    ensures Reachable(g, s)
    ensures s == State(Shared([Instance(g.start, [], [], [c], None)], [Running(0)], [0], [0], false),
                       SawEmpty(Streaming), Reader(1, true, []))
  {
    s := NodeRuns(g);
    assert [] + [c] == [c];
    s := Go(g, s, Emit(0, c));
    assert s.sh.insts == [Instance(g.start, [], [], [c], None)];
  }

  lemma NodeRuns(g: Graph) returns (s: State)
    ensures Reachable(g, s)
    ensures s == State(Shared([Instance(g.start, [], [], [], None)], [Running(0)], [0], [0], false),
                       SawEmpty(Streaming), Reader(1, true, []))
  {
    s := ReaderSeesEmptyQueue(g);
    s := Advance(g, s, 0, Locate(0), Located(0, None));
    assert s.sh.tasks == [Located(0, None)];
    s := Go(g, s, Put(0));
    assert s.sh.tasks == [Running(0)];
  }

  lemma ReaderSeesEmptyQueue(g: Graph) returns (s: State)
    ensures Reachable(g, s)
    ensures s == State(Shared([Instance(g.start, [], [], [], None)], [Registered(0)], [0], [], false),
                       SawEmpty(Streaming), Reader(1, true, []))
  {
    s := ReaderPolled(g);
    s := RegisterOne(g, s, 0, Request(g.start, []));
    s := Go(g, s, TakeChunkList);
    s := Go(g, s, SeeEmpty);
  }

  lemma ReaderPolled(g: Graph) returns (s: State)
    ensures Reachable(g, s)
    ensures s == State(Shared([], [Queued(Request(g.start, []))], [0], [], false),
                       Popping(Streaming), Reader(0, false, []))
  {
    s := Begin(g);
    s := Go(g, s, LaunchAppend(true));
    s := Go(g, s, PollCount);
    s := Go(g, s, PollSnapshot);
    s := Go(g, s, PollTimeout);
  }

  // ---------- Two context entries with one runtime id ----------

  lemma PutNew(g: Graph, s: State, t: nat, i: nat) returns (s': State)
    requires Reachable(g, s) && ContextInRange(s.sh) && t < |s.sh.tasks| && s.sh.tasks[t] == Located(i, None)
    requires i < |s.sh.insts|
    ensures Reachable(g, s') && ContextInRange(s'.sh)
    ensures s' == s.(sh := s.sh.(context := s.sh.context + [i], tasks := s.sh.tasks[t := Running(i)]))
  {
    s' := Go(g, s, Put(t));
  }

  lemma RegisterOne(g: Graph, s: State, t: nat, req: Request) returns (s': State)
    requires Reachable(g, s) && ContextInRange(s.sh) && t < |s.sh.tasks| && s.sh.tasks[t] == Queued(req)
    ensures Reachable(g, s')
    ensures s' == s.(sh := s.sh.(insts := s.sh.insts + [Instance(req.node, req.up, [], [], None)],
                                 tasks := s.sh.tasks[t := Registered(|s.sh.insts|)]))
  {
    s' := Go(g, s, Register(t));
    assert s'.sh.tasks == s.sh.tasks[t := Registered(|s.sh.insts|)];
  }

  /** No context entry is for this node. */
  ghost predicate NotInContext(sh: Shared, node: string) {
    ContextInRange(sh) && forall j :: 0 <= j < |sh.context| ==> sh.insts[sh.context[j]].node != node
  }

  lemma LocateNew(g: Graph, s: State, t: nat, i: nat) returns (s': State)
    requires Reachable(g, s) && t < |s.sh.tasks| && s.sh.tasks[t] == Registered(i) && i < |s.sh.insts|
    requires NotInContext(s.sh, s.sh.insts[i].node)
    ensures Reachable(g, s') && MovedTo(s, s', t, Located(i, None))
  {
    assert FindSlot(s.sh, InstanceId(s.sh, i), 0).None?;
    s' := Advance(g, s, t, Locate(t), Located(i, None));
  }

  /** Threads 1 and 2 start the same node. */
  ghost predicate BothStart(s: State, req: Request) {
    |s.sh.tasks| == 3 && s.sh.tasks[1] == s.sh.tasks[2] == Queued(req) && NotInContext(s.sh, req.node)
  }

  lemma BothRegister(g: Graph, s: State, req: Request) returns (s': State)
    requires Reachable(g, s) && BothStart(s, req)
    ensures Reachable(g, s') && s'.sh.context == s.sh.context
    ensures var inst := Instance(req.node, req.up, [], [], None); s'.sh.insts == s.sh.insts + [inst, inst]
    ensures var n := |s.sh.insts|; s'.sh.tasks == [s.sh.tasks[0], Registered(n), Registered(n + 1)]
  {
    s' := RegisterOne(g, s, 1, req);
    s' := RegisterOne(g, s', 2, req);
  }

  /** Both look for an entry to replace before either appends. */
  lemma BothLocate(g: Graph, s: State, req: Request) returns (s': State)
    requires Reachable(g, s) && BothStart(s, req)
    ensures Reachable(g, s') && s'.sh.context == s.sh.context
    ensures var inst := Instance(req.node, req.up, [], [], None); s'.sh.insts == s.sh.insts + [inst, inst]
    ensures var n := |s.sh.insts|; s'.sh.tasks == [s.sh.tasks[0], Located(n, None), Located(n + 1, None)]
  {
    var n := |s.sh.insts|;
    s' := BothRegister(g, s, req);
    assert forall j :: 0 <= j < |s.sh.context| ==> s'.sh.insts[s.sh.context[j]] == s.sh.insts[s.sh.context[j]];
    s' := LocateNew(g, s', 1, n);
    s' := LocateNew(g, s', 2, n + 1);
  }

  /** The node has two context entries with one runtime id. */
  ghost predicate Twice(sh: Shared, node: string)
    requires ContextInRange(sh)
  {
    exists j, k :: 0 <= j < k < |sh.context| && sh.insts[sh.context[j]].node == node
                   && InstanceId(sh, sh.context[j]) == InstanceId(sh, sh.context[k])
  }

  lemma BothAppend(g: Graph, s: State, req: Request) returns (s': State)
    requires Reachable(g, s) && BothStart(s, req)
    ensures Reachable(g, s') && ContextInRange(s'.sh) && Twice(s'.sh, req.node)
  {
    var n, k := |s.sh.insts|, |s.sh.context|;
    s' := BothLocate(g, s, req);
    s' := PutNew(g, s', 1, n);
    s' := PutNew(g, s', 2, n + 1);
    assert s'.sh.context[k] == n && s'.sh.context[k + 1] == n + 1;
    assert InstanceId(s'.sh, n) == InstanceId(s'.sh, n + 1);
  }

  /** Two edges from the start node to one OR node: two threads look for an entry to replace before either appends. */
  lemma AppendsCanRace(g: Graph, e: Edge, e': Edge, outcome: Outcome) returns (s: State)
    requires EdgesFrom(g.edges, g.start) == [e, e'] && IsOr(g, e.target) && e'.target == e.target != g.start
    requires Fires(e, outcome) && Fires(e', outcome)
    ensures Reachable(g, s) && ContextInRange(s.sh) && Twice(s.sh, e.target) && !UniqueContext(s.sh)
  {
    s := ForkAtStart(g, e, e', outcome);
    s := BothAppend(g, s, Request(e.target, [g.start]));
    TwiceIsNotUnique(s.sh, e.target);
  }

  // ---------- A join started by both its sources ----------

  /** The start node forks into OR nodes `a` and `b`, and both start the AND node `j`. */
  ghost predicate Diamond(g: Graph, sa: Edge, sb: Edge, aj: Edge, bj: Edge) {
    && EdgesFrom(g.edges, g.start) == [sa, sb] && IsOr(g, sa.target) && IsOr(g, sb.target)
    && EdgesFrom(g.edges, sa.target) == [aj] && EdgesFrom(g.edges, sb.target) == [bj]
    && aj.target == bj.target && !IsOr(g, aj.target) && EdgesInto(g.edges, aj.target) == [aj, bj]
    && g.start != sa.target && g.start != sb.target && g.start != aj.target
    && sa.target != sb.target && sa.target != aj.target && sb.target != aj.target
  }

  lemma ReadOne(g: Graph, s: State, t: nat, pc: Pc) returns (s': State)
    requires Reachable(g, s) && ContextInRange(s.sh) && t < |s.sh.tasks| && s.sh.tasks[t] == pc
    requires pc.Joining? && pc.edges != [] && pc.k < |EdgesInto(g.edges, pc.edges[0].target)|
    ensures Reachable(g, s') && MovedTo(s, s', t, ReadPc(g, s.sh, pc))
  {
    s' := Advance(g, s, t, ReadEntry(t), ReadPc(g, s.sh, pc));
  }

  /** The check passes the in-edge if entry `m` of the context serves it. */
  lemma {:induction false} PassSource(g: Graph, s: State, t: nat, m: nat) returns (s': State)
    requires Reachable(g, s) && ContextInRange(s.sh) && t < |s.sh.tasks|
    requires var pc := s.sh.tasks[t];
             && pc.Joining? && pc.edges != [] && pc.k < |EdgesInto(g.edges, pc.edges[0].target)|
             && pc.j <= |s.sh.context|
             && (pc.found || (pc.j <= m < |s.sh.context| && EntryDone(s.sh, CheckedEdge(g, pc), m)))
    ensures Reachable(g, s')
    ensures var pc := s.sh.tasks[t]; MovedTo(s, s', t, pc.(k := pc.k + 1, j := 0, found := false))
    decreases |s.sh.context| - s.sh.tasks[t].j
  {
    var pc := s.sh.tasks[t];
    s' := ReadOne(g, s, t, pc);
    if pc.j < |s.sh.context| {
      s' := PassSource(g, s', t, m);
    }
  }

  lemma PassSources(g: Graph, s: State, t: nat, i: nat, e: Edge, m: nat, m': nat) returns (s': State)
    requires Reachable(g, s) && ContextInRange(s.sh) && t < |s.sh.tasks|
    requires s.sh.tasks[t] == Joining(i, [e], [], 0, 0, false, true)
    requires |EdgesInto(g.edges, e.target)| == 2 && m < |s.sh.context| && m' < |s.sh.context|
    requires EntryDone(s.sh, EdgesInto(g.edges, e.target)[0], m) && EntryDone(s.sh, EdgesInto(g.edges, e.target)[1], m')
    ensures Reachable(g, s') && MovedTo(s, s', t, Joining(i, [e], [], 2, 0, false, true))
  {
    s' := PassSource(g, s, t, m);
    s' := PassSource(g, s', t, m');
  }

  lemma TurnToJoin(g: Graph, s: State, t: nat, i: nat, e: Edge, up: seq<string>) returns (s': State)
    requires Reachable(g, s) && ContextInRange(s.sh) && t < |s.sh.tasks| && i < |s.sh.insts|
    requires s.sh.tasks[t] == Joining(i, [e], [], 2, 0, false, true) && |EdgesInto(g.edges, e.target)| == 2
    requires JoinAncestors(g, s.sh, i, e.target) == Some(up)
    ensures Reachable(g, s') && MovedTo(s, s', t, Queued(Request(e.target, up)))
  {
    var r := Request(e.target, up);
    assert [e][1..] == [] && [] + [r] == [r];
    s' := Advance(g, s, t, FinishJoin(t), Scanning(i, [], [r]));
    s' := ScanEnd(g, s', t);
  }

  /** Thread `t`, whose node starts the join, finds both sources done and turns to the join. */
  lemma PassJoin(g: Graph, s: State, t: nat, i: nat, e: Edge, m: nat, m': nat, up: seq<string>) returns (s': State)
    requires Reachable(g, s) && ContextInRange(s.sh) && t < |s.sh.tasks| && s.sh.tasks[t] == Scanning(i, [e], [])
    requires HasEnded(s.sh, i) && Fires(e, s.sh.insts[i].outcome.value) && !IsOr(g, e.target)
    requires |EdgesInto(g.edges, e.target)| == 2 && m < |s.sh.context| && m' < |s.sh.context|
    requires EntryDone(s.sh, EdgesInto(g.edges, e.target)[0], m) && EntryDone(s.sh, EdgesInto(g.edges, e.target)[1], m')
    requires JoinAncestors(g, s.sh, i, e.target) == Some(up)
    ensures Reachable(g, s') && MovedTo(s, s', t, Queued(Request(e.target, up)))
  {
    s' := Scan(g, s, t);
    assert s'.sh.tasks[t] == Joining(i, [e], [], 0, 0, false, true);
    s' := PassSources(g, s', t, i, e, m, m');
    s' := TurnToJoin(g, s', t, i, e, up);
  }

  /** The start node has run and thread 1 has executed the node of its request, with this outcome. */
  lemma FirstEnds(g: Graph, s: State, os: Outcome, a: string, o: Outcome, b: string) returns (s': State)
    requires Reachable(g, s) && g.start != a
    requires s == State(Shared([Instance(g.start, [], [], [], Some(os))],
                               [Submitting([], [1, 2]), Queued(Request(a, [g.start])), Queued(Request(b, [g.start]))],
                               [], [0], false), Launching, Reader(0, false, []))
    ensures Reachable(g, s') && ContextInRange(s'.sh) && s'.sh.context == [0, 1]
    ensures s'.sh.insts == [Instance(g.start, [], [], [], Some(os)), Instance(a, [g.start], [], [], Some(o))]
    ensures s'.sh.tasks == [Submitting([], [1, 2]), AfterVerdict(g, a, o, 1), Queued(Request(b, [g.start]))]
  {
    s' := Execute(g, s, 1, o);
  }

  lemma SecondEnds(g: Graph, s: State, first: Instance, second: Instance, pc: Pc, b: string, o: Outcome)
    returns (s': State)
    requires Reachable(g, s) && s.sh.context == [0, 1] && s.sh.insts == [first, second]
    requires s.sh.tasks == [Submitting([], [1, 2]), pc, Queued(Request(b, [g.start]))]
    requires first.node != b && second.node != b
    ensures Reachable(g, s') && ContextInRange(s'.sh) && s'.sh.context == [0, 1, 2]
    ensures s'.sh.insts == [first, second, Instance(b, [g.start], [], [], Some(o))]
    ensures s'.sh.tasks == [Submitting([], [1, 2]), pc, AfterVerdict(g, b, o, 2)]
  {
    s' := Execute(g, s, 2, o);
    assert [0, 1] + [2] == [0, 1, 2];
  }

  /** Both sources have ended before either thread looks at the join. */
  lemma BothEnd(g: Graph, sa: Edge, sb: Edge, aj: Edge, bj: Edge, os: Outcome, oa: Outcome, ob: Outcome)
    returns (s: State)
    requires Diamond(g, sa, sb, aj, bj) && Fires(sa, os) && Fires(sb, os) && Fires(aj, oa) && Fires(bj, ob)
    ensures Reachable(g, s) && ContextInRange(s.sh) && s.sh.context == [0, 1, 2]
    ensures s.sh.insts == [Instance(g.start, [], [], [], Some(os)), Instance(sa.target, [g.start], [], [], Some(oa)),
                           Instance(sb.target, [g.start], [], [], Some(ob))]
    ensures s.sh.tasks == [Submitting([], [1, 2]), Scanning(1, [aj], []), Scanning(2, [bj], [])]
  {
    s := ForkAtStart(g, sa, sb, os);
    s := FirstEnds(g, s, os, sa.target, oa, sb.target);
    s := SecondEnds(g, s, s.sh.insts[0], s.sh.insts[1], s.sh.tasks[1], sb.target, ob);
  }

  /** Instances 1 and 2 have ended, start the join and are ready for it. */
  ghost predicate JoinMet(g: Graph, sh: Shared, aj: Edge, bj: Edge) {
    && ContextInRange(sh) && sh.context == [0, 1, 2] && |sh.insts| == 3
    && HasEnded(sh, 1) && Fires(aj, sh.insts[1].outcome.value) && EntryDone(sh, aj, 1)
    && HasEnded(sh, 2) && Fires(bj, sh.insts[2].outcome.value) && EntryDone(sh, bj, 2)
    && aj.target == bj.target && !IsOr(g, aj.target) && EdgesInto(g.edges, aj.target) == [aj, bj]
  }

  lemma MetAtEnd(g: Graph, sh: Shared, sa: Edge, sb: Edge, aj: Edge, bj: Edge, oa: Outcome, ob: Outcome)
    requires Diamond(g, sa, sb, aj, bj) && Fires(aj, oa) && Ready(aj, oa) && Fires(bj, ob) && Ready(bj, ob)
    requires |sh.insts| == 3 && sh.context == [0, 1, 2]
    requires sh.insts[1].node == sa.target && sh.insts[1].outcome == Some(oa)
    requires sh.insts[2].node == sb.target && sh.insts[2].outcome == Some(ob)
    ensures JoinMet(g, sh, aj, bj)
  {
    assert aj in EdgesFrom(g.edges, sa.target) && bj in EdgesFrom(g.edges, sb.target);
  }

  lemma AncestorsOfJoin(g: Graph, sh: Shared, aj: Edge, bj: Edge) returns (up: seq<string>)
    requires JoinMet(g, sh, aj, bj)
    ensures JoinAncestors(g, sh, 1, aj.target) == Some(up) == JoinAncestors(g, sh, 2, bj.target)
  {
    var first := FirstSource(g, aj.target);
    assert first == aj.source || first == bj.source;
    assert sh.insts[sh.context[1]].node == aj.source && sh.insts[sh.context[2]].node == bj.source;
    up := JoinAncestors(g, sh, 1, aj.target).value;
  }

  lemma OneTurns(g: Graph, s: State, t: nat, e: Edge, aj: Edge, bj: Edge, up: seq<string>) returns (s': State)
    requires Reachable(g, s) && JoinMet(g, s.sh, aj, bj) && t < |s.sh.tasks| && s.sh.tasks[t] == Scanning(t, [e], [])
    requires (t == 1 && e == aj) || (t == 2 && e == bj)
    requires JoinAncestors(g, s.sh, t, aj.target) == Some(up)
    ensures Reachable(g, s') && MovedTo(s, s', t, Queued(Request(aj.target, up)))
  {
    s' := PassJoin(g, s, t, t, e, 1, 2, up);
  }

  /** Both threads turn to the join, each with the ancestors of its first source. */
  lemma BothTurn(g: Graph, s: State, aj: Edge, bj: Edge) returns (s': State, req: Request)
    requires Reachable(g, s) && JoinMet(g, s.sh, aj, bj) && |s.sh.tasks| == 3
    requires s.sh.tasks[1] == Scanning(1, [aj], []) && s.sh.tasks[2] == Scanning(2, [bj], [])
    ensures Reachable(g, s') && req.node == aj.target && s'.sh.insts == s.sh.insts && s'.sh.context == s.sh.context
    ensures |s'.sh.tasks| == 3 && s'.sh.tasks[1] == s'.sh.tasks[2] == Queued(req)
  {
    var up := AncestorsOfJoin(g, s.sh, aj, bj);
    req := Request(aj.target, up);
    s' := OneTurns(g, s, 1, aj, aj, bj, up);
    s' := OneTurns(g, s', 2, bj, aj, bj, up);
  }

  lemma TwiceIsNotUnique(sh: Shared, node: string)
    requires ContextInRange(sh) && Twice(sh, node)
    ensures !UniqueContext(sh)
  {
  }

  /** Each of two parents that both start an AND join sees the other done, and both append it. */
  lemma JoinAppendsCanRace(g: Graph, sa: Edge, sb: Edge, aj: Edge, bj: Edge, os: Outcome, oa: Outcome, ob: Outcome)
    returns (s: State)
    requires Diamond(g, sa, sb, aj, bj) && Fires(sa, os) && Fires(sb, os) && Fires(aj, oa) && Fires(bj, ob)
    requires Ready(aj, oa) && Ready(bj, ob)
    ensures Reachable(g, s) && ContextInRange(s.sh) && Twice(s.sh, aj.target) && !UniqueContext(s.sh)
  {
    s := BothEnd(g, sa, sb, aj, bj, os, oa, ob);
    MetAtEnd(g, s.sh, sa, sb, aj, bj, oa, ob);
    JoinIsNew(g, s.sh, sa, sb, aj, bj);
    var req;
    s, req := BothTurn(g, s, aj, bj);
    s := BothAppend(g, s, req);
    TwiceIsNotUnique(s.sh, aj.target);
  }

  lemma JoinIsNew(g: Graph, sh: Shared, sa: Edge, sb: Edge, aj: Edge, bj: Edge)
    requires Diamond(g, sa, sb, aj, bj) && |sh.insts| == 3 && sh.context == [0, 1, 2]
    requires sh.insts[0].node == g.start && sh.insts[1].node == sa.target && sh.insts[2].node == sb.target
    ensures NotInContext(sh, aj.target)
  {
  }
}
