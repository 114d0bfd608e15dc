/**
 The streaming splitter that separates a model's reasoning (between a start and an end tag)
 from its answer, against the one-shot split of the whole text. The two agree for every way
 of cutting the text into chunks exactly when the text raises no false alarm that matters.
 */
module Reasoning {
  import opened Text

  datatype Tags = Tags(start: string, end: string)

  /** `content` and `reasoning` come from the text; `extra` is reasoning the provider sent beside a chunk. */
  datatype Output = Output(content: string, reasoning: string, extra: string)

  datatype Chunk = Chunk(content: string, extra: string)

  datatype Parser = Parser(all: string, started: bool, ended: bool, buffer: string)

  const Fresh := Parser("", false, false, "")

  function Said(content: string, reasoning: string): Output {
    Output(content, reasoning, "")
  }

  // ---------- The incremental splitter ----------

  /** One call of `get_reasoning_content`. */
  function Step(tags: Tags, p: Parser, chunk: Chunk): (Parser, Output) {
    if tags.start == "" then (p, Said(chunk.content, ""))
    else if tags.end == "" then (p, Said("", chunk.content))
    else
      var all := p.all + chunk.content;
      if !p.started && |all| >= |tags.start| && !(tags.start <= all) && !p.ended then
        (p.(all := all, ended := true), Output(all, "", chunk.extra))
      else
        var begins := !p.started && |all| >= |tags.start| && tags.start <= all;
        var buffer := if begins then all[|tags.start|..]
                      else if p.started then p.buffer + chunk.content else p.buffer;
        var q := Parser(all, p.started || begins, p.ended, buffer);
        if p.ended then (q, Output(chunk.content, "", chunk.extra)) else Scan(tags, q)
  }

  /** The part of `get_reasoning_content` that looks for the end tag in the buffer. */
  function Scan(tags: Tags, q: Parser): (Parser, Output)
    requires tags.end != ""
  {
    var index := Find(q.buffer, [tags.end[0]]);
    if index == -1 then (q.(buffer := ""), Said("", q.buffer))
    else if |q.buffer| - index < |tags.end| then (q, Said("", ""))
    else
      var at := Find(q.buffer, tags.end);
      if at >= 0 then
        (q.(buffer := "", ended := true), Said(q.buffer[at + |tags.end|..], q.buffer[..at]))
      else
        // Every occurrence of the released prefix goes, not only the first.
        var released := q.buffer[..index + 1];
        (q.(buffer := Remove(q.buffer, released)), Said("", released))
  }

  /** `get_end_reasoning_content`. */
  function Flush(p: Parser): Output {
    if !p.started && !p.ended then Said(p.all, "")
    else if p.started && !p.ended then Said("", p.buffer)
    else Said("", "")
  }

  datatype Progress = Progress(parser: Parser, content: string, reasoning: string)

  function Feed(tags: Tags, chunks: seq<Chunk>): Progress {
    if chunks == [] then Progress(Fresh, "", "")
    else
      var before := Feed(tags, chunks[..|chunks| - 1]);
      var (parser, out) := Step(tags, before.parser, chunks[|chunks| - 1]);
      Progress(parser, before.content + out.content, before.reasoning + out.reasoning)
  }

  /** Everything the splitter says about these chunks, the final flush included. */
  function Split(tags: Tags, chunks: seq<Chunk>): Output {
    var fed := Feed(tags, chunks);
    var last := Flush(fed.parser);
    Said(fed.content + last.content, fed.reasoning + last.reasoning)
  }

  function TextOf(chunks: seq<Chunk>): string {
    if chunks == [] then "" else TextOf(chunks[..|chunks| - 1]) + chunks[|chunks| - 1].content
  }

  // ---------- The object ----------

  class Reasoning {
    const tags: Tags
    var content: string
    var reasoningContent: string
    var allContent: string
    var reasoningContentIsStart: bool
    var reasoningContentIsEnd: bool
    var reasoningContentChunk: string

    function State(): Parser
      reads this
    {
      Parser(allContent, reasoningContentIsStart, reasoningContentIsEnd, reasoningContentChunk)
    }

    constructor (tags: Tags)
      ensures this.tags == tags && State() == Fresh && content == "" && reasoningContent == ""
    {
      this.tags := tags;
      content, reasoningContent, allContent, reasoningContentChunk := "", "", "", "";
      reasoningContentIsStart, reasoningContentIsEnd := false, false;
    }

    method GetReasoningContent(chunk: Chunk) returns (out: Output)
      modifies this
      ensures (State(), out) == Step(tags, old(State()), chunk)
      ensures tags.start != "" && tags.end != "" ==>
                content == old(content) + out.content && reasoningContent == old(reasoningContent) + out.reasoning
    {
      if tags.start == "" {
        content := content + chunk.content;
        return Said(chunk.content, "");
      }
      if tags.end == "" {
        return Said("", chunk.content);
      }
      allContent := allContent + chunk.content;
      if !reasoningContentIsStart && |allContent| >= |tags.start| {
        if tags.start <= allContent {
          reasoningContentIsStart := true;
          reasoningContentChunk := allContent[|tags.start|..];
        } else if !reasoningContentIsEnd {
          reasoningContentIsEnd := true;
          content := content + allContent;
          return Output(allContent, "", chunk.extra);
        }
      } else if reasoningContentIsStart {
        reasoningContentChunk := reasoningContentChunk + chunk.content;
      }
      if reasoningContentIsEnd {
        content := content + chunk.content;
        return Output(chunk.content, "", chunk.extra);
      }
      out := ScanChunk();
    }

    /** Looks for the end tag in the buffer. */
    method ScanChunk() returns (out: Output)
      requires tags.end != "" && !reasoningContentIsEnd
      modifies this
      ensures (State(), out) == Scan(tags, old(State()))
      ensures content == old(content) + out.content && reasoningContent == old(reasoningContent) + out.reasoning
    {
      var prefixIndex := Find(reasoningContentChunk, [tags.end[0]]);
      if prefixIndex == -1 {
        out := Said("", reasoningContentChunk);
        reasoningContentChunk := "";
      } else if |reasoningContentChunk| - prefixIndex < |tags.end| {
        out := Said("", "");
      } else {
        var endIndex := Find(reasoningContentChunk, tags.end);
        if endIndex > -1 {
          out := Said(reasoningContentChunk[endIndex + |tags.end|..], reasoningContentChunk[..endIndex]);
          reasoningContentChunk := "";
          reasoningContentIsEnd := true;
        } else {
          out := Said("", reasoningContentChunk[..prefixIndex + 1]);
          reasoningContentChunk := Remove(reasoningContentChunk, out.reasoning);
        }
      }
      reasoningContent := reasoningContent + out.reasoning;
      content := content + out.content;
    }

    method GetEndReasoningContent() returns (out: Output)
      modifies this`reasoningContentChunk
      ensures out == Flush(old(State()))
      ensures State() == old(State()).(buffer := if old(State()).ended then old(State()).buffer else "")
    {
      if !reasoningContentIsStart && !reasoningContentIsEnd {
        out := Said(allContent, "");
        reasoningContentChunk := "";
      } else if reasoningContentIsStart && !reasoningContentIsEnd {
        out := Said("", reasoningContentChunk);
        reasoningContentChunk := "";
      } else {
        out := Said("", "");
      }
    }
  }

  // ---------- The one-shot split ----------

  /** Strip the start tag and split at the first end tag. */
  function OneShot(tags: Tags, text: string): Output {
    if tags.start == "" then Said(text, "")
    else if tags.end == "" then Said("", text)
    else if !(tags.start <= text) then Said(text, "")
    else
      var body := text[|tags.start|..];
      var at := Find(body, tags.end);
      if at == -1 then Said("", body) else Said(body[at + |tags.end|..], body[..at])
  }

  /** The end tag's first character first appears where the end tag does; or the end tag never appears
      and that character comes too late to matter or only once. */
  predicate SafeBody(end: string, body: string)
    requires end != ""
  {
    var at := Find(body, [end[0]]);
    at >= 0 ==> OccursAt(body, end, at)
                || (Find(body, end) == -1
                    && (|body| - at < |end| || end[0] !in body[at + 1..]))
  }

  predicate Safe(tags: Tags, text: string) {
    tags.start != "" && tags.end != "" && tags.start <= text ==> SafeBody(tags.end, text[|tags.start|..])
  }
}
