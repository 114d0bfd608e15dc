/**
 The reader's side of the engine as the objects it is made of: node chunks that threads fill,
 and the manager whose `pop` merges them into one stream.
 */
module NodeStream {
  import opened Wrappers
  import opened Engine
  import opened EngineStream

  class NodeChunk {
    var status: int
    var chunkList: seq<Chunk>

    constructor ()
      ensures chunkList == [] && !IsEnd()
    {
      status := 0;
      chunkList := [];
    }

    predicate IsEnd()
      reads this
    {
      status == 200
    }

    method AddChunk(chunk: Chunk)
      modifies this
      ensures chunkList == old(chunkList) + [chunk] && status == old(status)
    {
      chunkList := chunkList + [chunk];
    }

    method End(chunk: Option<Chunk>)
      modifies this
      ensures IsEnd()
      ensures chunkList == old(chunkList) + (if chunk.Some? then [chunk.value] else [])
    {
      if chunk.Some? {
        AddChunk(chunk.value);
      }
      status := 200;
    }
  }

  /** The answer text of the run; its last element is the answer being written. */
  class AnswerLog {
    var answer: string
    var answerList: seq<string>

    predicate Valid()
      reads this
    {
      answerList != []
    }

    constructor ()
      ensures Valid() && answer == "" && answerList == [""]
    {
      answer := "";
      answerList := [""];
    }

    predicate IsNotEmpty()
      requires Valid()
      reads this
    {
      |answerList[|answerList| - 1]| > 0
    }

    method Append(content: string)
      requires Valid()
      modifies this
      ensures Valid() && answer == old(answer) + content
      ensures answerList == old(answerList)[..|old(answerList)| - 1]
                + [old(answerList)[|old(answerList)| - 1] + content]
    {
      answer := answer + content;
      answerList := answerList[..|answerList| - 1] + [answerList[|answerList| - 1] + content];
    }
  }

  ghost function SlotsOf(chunks: seq<NodeChunk>): (slots: seq<Slot>)
    reads chunks
    ensures |slots| == |chunks|
  {
    if chunks == [] then [] else [Slot(chunks[0].chunkList, chunks[0].IsEnd())] + SlotsOf(chunks[1..])
  }

  predicate IsEndOf(nodes: seq<NodeChunk>, all: seq<NodeChunk>) {
    |nodes| <= |all| && nodes == all[|all| - |nodes|..]
  }

  lemma EndOfEnd(nodes: seq<NodeChunk>, rest: seq<NodeChunk>, all: seq<NodeChunk>)
    requires all != [] && rest == all[1..] && IsEndOf(nodes, rest)
    ensures IsEndOf(nodes, all)
  {
  }

  lemma WholeIsEnd(all: seq<NodeChunk>)
    ensures IsEndOf(all, all)
  {
  }

  lemma TailMembers(nodes: seq<NodeChunk>, k: nat)
    requires k <= |nodes|
    ensures forall c :: c in nodes[k..] ==> c in nodes
  {
  }

  lemma YieldedAndPending(out: seq<Item>, item: Item, before: seq<Chunk>, after: seq<Chunk>)
    requires before == DataOf(Some(item)) + after
    ensures Chunks(out + [item]) + after == Chunks(out) + before
  {
    ChunksAppend(out, item);
  }

  class NodeChunkManage {
    var nodeChunkList: seq<NodeChunk>
    var current: NodeChunk?
    const log: AnswerLog

    constructor (log: AnswerLog)
      requires log.Valid()
      ensures Valid() && Nodes() == [] && this.log == log
    {
      nodeChunkList := [];
      current := null;
      this.log := log;
    }

    /** The node chunks still in the reader's hands, in reading order. */
    ghost function Nodes(): seq<NodeChunk>
      reads this
    {
      (if current == null then [] else [current]) + nodeChunkList
    }

    ghost predicate Valid()
      reads this, log
    {
      && log.Valid()
      && (current == null || current !in nodeChunkList)
      && forall i, j :: 0 <= i < j < |nodeChunkList| ==> nodeChunkList[i] != nodeChunkList[j]
    }

    /** The node chunks as `Popped` sees them. */
    ghost function Sight(): seq<Slot>
      reads this, Nodes()
    {
      SlotsOf(Nodes())
    }

    /** Every chunk that has been emitted and not yielded, in the order it will be. */
    ghost function Pending(): seq<Chunk>
      reads this, Nodes()
    {
      Queues(Sight())
    }

    lemma SightOfCurrent()
      requires current != null
      ensures Sight() == [Slot(current.chunkList, current.IsEnd())] + SlotsOf(nodeChunkList)
    {
      assert Nodes()[0] == current && Nodes()[1..] == nodeChunkList;
    }

    method AddNodeChunk(c: NodeChunk)
      requires Valid() && c !in Nodes()
      modifies this`nodeChunkList
      ensures Valid() && Nodes() == old(Nodes()) + [c]
    {
      nodeChunkList := nodeChunkList + [c];
      assert Nodes() == old(Nodes()) + [c];
    }

    method TakeCurrent()
      requires Valid()
      modifies this`nodeChunkList, this`current
      ensures Valid() && Nodes() == old(Nodes()) && Sight() == old(Sight())
      ensures current == null ==> nodeChunkList == []
    {
      if current == null && nodeChunkList != [] {
        assert Nodes() == [nodeChunkList[0]] + nodeChunkList[1..];
        current := nodeChunkList[0];
        nodeChunkList := nodeChunkList[1..];
        assert Nodes() == old(Nodes());
      }
    }

    method PopFromCurrent() returns (chunk: Chunk)
      requires Valid() && current != null && current.chunkList != []
      modifies current`chunkList
      ensures Valid() && Pops(old(Sight()), old(log.IsNotEmpty()), Some(Data(chunk)), Sight())
    {
      SightOfCurrent();
      ghost var seen := Sight();
      chunk := current.chunkList[0];
      current.chunkList := current.chunkList[1..];
      SightOfCurrent();
      assert seen[1..] == SlotsOf(nodeChunkList);
      PopsData(seen, log.IsNotEmpty(), Sight());
    }

    method DropCurrent()
      requires Valid() && current != null && current.IsEnd() && current.chunkList == []
      modifies this`current
      ensures Valid() && current == null && nodeChunkList == old(nodeChunkList)
      ensures old(Nodes()) == [old(current)] + Nodes() && old(Sight()) == [Slot([], true)] + Sight()
    {
      SightOfCurrent();
      current := null;
      assert Nodes() == nodeChunkList;
    }

    /** A separator is due once the answer has text. */
    method Separate() returns (separator: bool)
      requires Valid()
      modifies log
      ensures Valid() && Sight() == old(Sight())
      ensures separator == old(log.IsNotEmpty()) && (!separator ==> !log.IsNotEmpty())
      ensures log.answer == old(log.answer) + (if separator then "\n\n" else "")
    {
      separator := log.IsNotEmpty();
      if separator {
        log.Append("\n\n");
      } else {
        assert log.answer + "" == log.answer;
      }
    }

    /** One chunk or separator, or None: what `Popped` says, which the reader's steps in the engine take apart. */
    method Pop() returns (item: Option<Item>)
      requires Valid()
      modifies this`nodeChunkList, this`current, log, (set c | c in Nodes())`chunkList
      ensures Valid() && IsEndOf(Nodes(), old(Nodes()))
      ensures Pops(old(Sight()), old(log.answerList[|log.answerList| - 1] != ""), item, Sight())
      ensures log.answer == old(log.answer) + (if item == Some(Separator) then "\n\n" else "")
      decreases 2 * |nodeChunkList| + (if current == null then 0 else 1), 0
    {
      ghost var seen := Sight();
      TakeCurrent();
      WholeIsEnd(Nodes());
      assert old(log.answer) + "" == old(log.answer);
      if current == null {
        PopsNothing(seen, log.IsNotEmpty());
        return None;
      }
      SightOfCurrent();
      if current.chunkList != [] {
        assert current in Nodes();
        var chunk := PopFromCurrent();
        return Some(Data(chunk));
      }
      if !current.IsEnd() {
        PopsNothing(seen, log.IsNotEmpty());
        return None;
      }
      item := PopPast();
    }

    /** Lets go of an ended, empty node. */
    method PopPast() returns (item: Option<Item>)
      requires Valid() && current != null && current.IsEnd() && current.chunkList == []
      modifies this`nodeChunkList, this`current, log, (set c | c in Nodes())`chunkList
      ensures Valid() && IsEndOf(Nodes(), old(Nodes()))
      ensures Pops(old(Sight()), old(log.IsNotEmpty()), item, Sight())
      ensures log.answer == old(log.answer) + (if item == Some(Separator) then "\n\n" else "")
      decreases 2 * |nodeChunkList|, 3
    {
      ghost var nodes, seen := Nodes(), Sight();
      DropCurrent();
      assert nodes[1..] == Nodes();
      item := SeparateOrPop(nodes, seen);
    }

    /** A separator once the answer has text, else the recursive call of `pop`. */
    method SeparateOrPop(ghost nodes: seq<NodeChunk>, ghost seen: seq<Slot>) returns (item: Option<Item>)
      requires Valid() && current == null
      requires nodes != [] && nodes[1..] == Nodes() && seen == [Slot([], true)] + Sight()
      modifies this`nodeChunkList, this`current, log, (set c | c in Nodes())`chunkList
      ensures Valid() && IsEndOf(Nodes(), nodes) && Pops(seen, old(log.IsNotEmpty()), item, Sight())
      ensures log.answer == old(log.answer) + (if item == Some(Separator) then "\n\n" else "")
      decreases 2 * |nodeChunkList|, 2
    {
      var separator := Separate();
      if separator {
        WholeIsEnd(Nodes());
        EndOfEnd(Nodes(), Nodes(), nodes);
        assert seen[1..] == Sight();
        PopsPast(seen, true, Some(Separator), Sight());
        return Some(Separator);
      }
      item := PopAgain(nodes, seen);
    }

    method PopAgain(ghost nodes: seq<NodeChunk>, ghost seen: seq<Slot>) returns (item: Option<Item>)
      requires Valid() && current == null && !log.IsNotEmpty()
      requires nodes != [] && nodes[1..] == Nodes() && seen == [Slot([], true)] + Sight()
      modifies this`nodeChunkList, this`current, log, (set c | c in Nodes())`chunkList
      ensures Valid() && IsEndOf(Nodes(), nodes) && Pops(seen, false, item, Sight())
      ensures log.answer == old(log.answer) + (if item == Some(Separator) then "\n\n" else "")
      decreases 2 * |nodeChunkList|, 1
    {
      ghost var rest := Nodes();
      assert seen[1..] == Sight();
      item := Pop();
      EndOfEnd(Nodes(), rest, nodes);
      PopsPast(seen, false, item, Sight());
    }

    /** `Pop` once every node has ended: None means that nothing is left. */
    method PopEnded() returns (item: Option<Item>)
      requires Valid() && AllOver(Sight())
      modifies this`nodeChunkList, this`current, log, (set c | c in Nodes())`chunkList
      ensures Valid() && AllOver(Sight()) && forall c :: c in Nodes() ==> c in old(Nodes())
      ensures old(Pending()) == DataOf(item) + Pending()
      ensures |Nodes()| <= |old(Nodes())| && (item == Some(Separator) ==> |Nodes()| < |old(Nodes())|)
      ensures item.None? ==> Nodes() == []
    {
      ghost var nodes, seen, answered := Nodes(), Sight(), log.IsNotEmpty();
      item := Pop();
      PopConserves(seen, answered, item, Sight());
      PopPassesOver(seen, answered, item, Sight());
      PopKeepsOver(seen, answered, item, Sight());
      TailMembers(nodes, |nodes| - |Nodes()|);
    }

    /** One round of the drain loop: what has been yielded and what is pending still make up `all`. */
    method DrainRound(out: seq<Item>, ghost all: seq<Chunk>) returns (out': seq<Item>, go: bool)
      requires Valid() && AllOver(Sight()) && all == Chunks(out) + Pending()
      modifies this`nodeChunkList, this`current, log, (set c | c in Nodes())`chunkList
      ensures Valid() && AllOver(Sight()) && forall c :: c in Nodes() ==> c in old(Nodes())
      ensures all == Chunks(out') + Pending()
      ensures if go then |Nodes()| + |Pending()| < |old(Nodes())| + |old(Pending())| else Nodes() == []
    {
      ghost var before := Pending();
      var item := PopEnded();
      if item.None? {
        return out, false;
      }
      YieldedAndPending(out, item.value, before, Pending());
      return out + [item.value], true;
    }

    /** The drain loop after the run is over: every pending chunk once, in order, and nothing stays behind. */
    method Drain() returns (out: seq<Item>)
      requires Valid() && forall c :: c in Nodes() ==> c.IsEnd()
      modifies this`nodeChunkList, this`current, log, (set c | c in Nodes())`chunkList
      ensures Chunks(out) == old(Pending())
      ensures Nodes() == []
    {
      out := [];
      ghost var all := Pending();
      EndedIsOver(Nodes());
      var go := true;
      while go
        invariant Valid() && AllOver(Sight()) && all == Chunks(out) + Pending()
        invariant forall c :: c in Nodes() ==> c in old(Nodes())
        invariant !go ==> Nodes() == []
        decreases go, |Nodes()| + |Pending()|
      {
        out, go := DrainRound(out, all);
      }
      assert Pending() == [];
    }
  }

  lemma {:induction false} EndedIsOver(nodes: seq<NodeChunk>)
    requires forall c :: c in nodes ==> c.IsEnd()
    ensures AllOver(SlotsOf(nodes))
  {
    if nodes != [] {
      EndedIsOver(nodes[1..]);
    }
  }
}
