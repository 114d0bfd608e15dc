/** The splitter agrees with the one-shot split on every chunking if and only if the text is safe. */
module ReasoningProofs {
  import opened Text
  import opened Reasoning

  // ---------- Safe texts: every chunking agrees ----------

  /** The end tag never comes and its first character comes once. */
  ghost predicate Lone(end: string, body: string)
    requires end != ""
  {
    Find(body, end) == -1 && Find(body, [end[0]]) >= 0 && end[0] !in body[Find(body, [end[0]]) + 1..]
  }

  /** What has been said after the prefix `seen` of `body`. */
  ghost predicate BodyOk(end: string, body: string, seen: string, g: Progress)
    requires end != ""
  {
    var at := Find(seen, end);
    if at >= 0 then
      g.parser.ended && g.reasoning == seen[..at] && g.content == seen[at + |end|..]
    else
      && !g.parser.ended && g.content == "" && g.reasoning + g.parser.buffer == seen
      && var first := Find(seen, [end[0]]);
         || (first == -1 && g.parser.buffer == "")
         || (first >= 0 && |g.reasoning| <= first && |seen| - first < |end|)
         || (first >= 0 && end[0] !in g.parser.buffer && Lone(end, body))
  }

  ghost predicate Ok(tags: Tags, text: string, seen: string, g: Progress)
    requires tags.start != "" && tags.end != ""
  {
    && g.parser.all == seen
    && if |seen| < |tags.start| then g == Progress(Parser(seen, false, false, ""), "", "")
       else if !(tags.start <= seen) then g == Progress(Parser(seen, false, true, ""), seen, "")
       else
         && g.parser.started && tags.start <= text
         && BodyOk(tags.end, text[|tags.start|..], seen[|tags.start|..], g)
  }

  lemma FirstCharFirst(s: string, end: string)
    requires end != "" && Find(s, end) >= 0
    ensures 0 <= Find(s, [end[0]]) <= Find(s, end)
  {
    var at := Find(s, end);
    FindIsFirst(s, end);
    FindChar(s, end[0]);
    assert s[at..at + |end|][0] == s[at];
  }

  /** A false alarm in a safe body is the only one, and the end tag never comes. */
  lemma FalseAlarmIsLone(end: string, body: string, seen: string)
    requires end != "" && SafeBody(end, body) && seen <= body && Find(seen, end) == -1
    requires var first := Find(seen, [end[0]]); first >= 0 && |seen| - first >= |end|
    ensures Lone(end, body)
  {
    var first := Find(seen, [end[0]]);
    FindIsFirst(seen, end);
    FindInPrefix(seen, body, [end[0]]);
    OccursInPrefix(seen, body, end, first);
  }

  ghost predicate ScanOk(tags: Tags, body: string, seen: string, q: Parser, reasoning: string)
    requires tags.end != ""
  {
    var (p, out) := Scan(tags, q);
    p.all == q.all && p.started && BodyOk(tags.end, body, seen, Progress(p, out.content, reasoning + out.reasoning))
  }

  /** One look at the buffer, when nothing said so far can contain the start of the end tag
      unless the body holds a lone false alarm. */
  lemma ScanKeepsOk(tags: Tags, body: string, seen: string, q: Parser, reasoning: string)
    requires tags.end != "" && SafeBody(tags.end, body) && seen <= body
    requires q.started && !q.ended && reasoning + q.buffer == seen
    requires tags.end[0] !in reasoning || Lone(tags.end, body)
    ensures ScanOk(tags, body, seen, q, reasoning)
  {
    var end := tags.end;
    if end[0] in reasoning {
      LoneScan(tags, body, seen, q, reasoning);
    } else {
      FindAfter(reasoning, q.buffer, end);
      FindAfter(reasoning, q.buffer, [end[0]]);
      var index := Find(q.buffer, [end[0]]);
      if index == -1 || |q.buffer| - index < |end| {
        QuietScan(tags, body, seen, q, reasoning);
      } else if Find(q.buffer, end) >= 0 {
        TagScan(tags, body, seen, q, reasoning);
      } else {
        AlarmScan(tags, body, seen, q, reasoning);
      }
    }
  }

  lemma QuietScan(tags: Tags, body: string, seen: string, q: Parser, reasoning: string)
    requires tags.end != "" && q.started && !q.ended && reasoning + q.buffer == seen
    requires var index := Find(q.buffer, [tags.end[0]]); index == -1 || |q.buffer| - index < |tags.end|
    requires Find(seen, tags.end)
             == (if Find(q.buffer, tags.end) == -1 then -1 else |reasoning| + Find(q.buffer, tags.end))
    requires Find(seen, [tags.end[0]]) == (if Find(q.buffer, [tags.end[0]]) == -1 then -1
                                           else |reasoning| + Find(q.buffer, [tags.end[0]]))
    ensures ScanOk(tags, body, seen, q, reasoning)
  {
    if Find(seen, tags.end) >= 0 { FirstCharFirst(seen, tags.end); }
    assert reasoning + q.buffer + "" == seen && reasoning + "" == reasoning;
  }

  lemma TagScan(tags: Tags, body: string, seen: string, q: Parser, reasoning: string)
    requires tags.end != "" && q.started && !q.ended && reasoning + q.buffer == seen
    requires var index := Find(q.buffer, [tags.end[0]]); index >= 0 && |q.buffer| - index >= |tags.end|
    requires Find(q.buffer, tags.end) >= 0 && Find(seen, tags.end) == |reasoning| + Find(q.buffer, tags.end)
    ensures ScanOk(tags, body, seen, q, reasoning)
  {
    var at := Find(q.buffer, tags.end);
    assert seen[..|reasoning| + at] == reasoning + q.buffer[..at];
    assert seen[|reasoning| + at + |tags.end|..] == q.buffer[at + |tags.end|..];
  }

  lemma AlarmScan(tags: Tags, body: string, seen: string, q: Parser, reasoning: string)
    requires tags.end != "" && SafeBody(tags.end, body) && seen <= body
    requires q.started && !q.ended && reasoning + q.buffer == seen
    requires var index := Find(q.buffer, [tags.end[0]]); index >= 0 && |q.buffer| - index >= |tags.end|
    requires Find(q.buffer, tags.end) == -1 && Find(seen, tags.end) == -1
    requires Find(seen, [tags.end[0]]) == |reasoning| + Find(q.buffer, [tags.end[0]])
    ensures ScanOk(tags, body, seen, q, reasoning)
  {
    var index := Find(q.buffer, [tags.end[0]]);
    FindChar(q.buffer, tags.end[0]);
    FalseAlarmIsLone(tags.end, body, seen);
    FalseAlarmReleases(tags.end, body, seen, reasoning, q.buffer, index);
  }

  lemma NothingAfterAlarm(end: string, body: string, seen: string, first: nat)
    requires end != "" && Lone(end, body) && seen <= body && Find(seen, [end[0]]) == first < |seen|
    ensures end[0] !in seen[first + 1..]
  {
    FindInPrefix(seen, body, [end[0]]);
    forall k | first < k < |seen|
      ensures seen[k] != end[0]
    {
      assert seen[k] == body[first + 1..][k - first - 1];
    }
  }

  /** A prefix that ends in the only occurrence of a character goes once. */
  lemma RemoveOnce(buffer: string, index: nat, c: char)
    requires index < |buffer| && buffer[index] == c && c !in buffer[index + 1..]
    ensures Remove(buffer, buffer[..index + 1]) == buffer[index + 1..]
  {
    var released, rest := buffer[..index + 1], buffer[index + 1..];
    assert released[index] == c;
    RemoveAbsent(rest, released, c);
  }

  lemma Resplit(reasoning: string, buffer: string, n: nat)
    requires n <= |buffer|
    ensures (reasoning + buffer[..n]) + buffer[n..] == reasoning + buffer
    ensures (reasoning + buffer)[|reasoning| + n..] == buffer[n..]
  {
  }

  /** The released prefix ends in the lone false alarm, so removing it everywhere removes it once. */
  lemma FalseAlarmReleases(end: string, body: string, seen: string, reasoning: string, buffer: string, index: nat)
    requires end != "" && Lone(end, body) && seen <= body && reasoning + buffer == seen
    requires index < |buffer| && Find(seen, [end[0]]) == |reasoning| + index && buffer[index] == end[0]
    ensures Remove(buffer, buffer[..index + 1]) == buffer[index + 1..]
    ensures end[0] !in buffer[index + 1..]
    ensures (reasoning + buffer[..index + 1]) + buffer[index + 1..] == seen
  {
    NothingAfterAlarm(end, body, seen, |reasoning| + index);
    Resplit(reasoning, buffer, index + 1);
    RemoveOnce(buffer, index, end[0]);
  }

  lemma LoneScan(tags: Tags, body: string, seen: string, q: Parser, reasoning: string)
    requires tags.end != "" && seen <= body && q.started && !q.ended && reasoning + q.buffer == seen
    requires tags.end[0] in reasoning && Lone(tags.end, body)
    ensures ScanOk(tags, body, seen, q, reasoning)
  {
    var end := tags.end;
    var first := Find(body, [end[0]]);
    FindChar(body, end[0]);
    var k :| 0 <= k < |reasoning| && reasoning[k] == end[0];
    assert body[k] == end[0];
    assert first <= k;
    forall j | 0 <= j < |q.buffer|
      ensures q.buffer[j] != end[0]
    {
      assert q.buffer[j] == seen[|reasoning| + j] == body[first + 1..][|reasoning| + j - first - 1];
    }
    FindChar(q.buffer, end[0]);
    FindChar(seen, end[0]);
    assert seen[k] == end[0];
    if Find(seen, end) >= 0 { FindInPrefix(seen, body, end); }
    assert reasoning + q.buffer + "" == seen;
  }

  ghost predicate StepOk(tags: Tags, text: string, seen: string, g: Progress, chunk: Chunk)
    requires tags.start != "" && tags.end != ""
  {
    var (parser, out) := Step(tags, g.parser, chunk);
    Ok(tags, text, seen + chunk.content, Progress(parser, g.content + out.content, g.reasoning + out.reasoning))
  }

  lemma StepKeepsOk(tags: Tags, text: string, seen: string, g: Progress, chunk: Chunk)
    requires tags.start != "" && tags.end != "" && Safe(tags, text)
    requires seen + chunk.content <= text && Ok(tags, text, seen, g)
    ensures StepOk(tags, text, seen, g, chunk)
  {
    if |seen| < |tags.start| {
      StepBeforeTag(tags, text, seen, g, chunk);
    } else if !(tags.start <= seen) {
      StepWithoutTag(tags, text, seen, g, chunk);
    } else {
      StepInBody(tags, text, seen, g, chunk);
    }
  }

  lemma StepWithoutTag(tags: Tags, text: string, seen: string, g: Progress, chunk: Chunk)
    requires tags.start != "" && tags.end != ""
    requires Ok(tags, text, seen, g) && |seen| >= |tags.start| && !(tags.start <= seen)
    ensures StepOk(tags, text, seen, g, chunk)
  {
    var seen' := seen + chunk.content;
    assert seen'[..|tags.start|] == seen[..|tags.start|];
    assert !(tags.start <= seen');
    assert g.reasoning + "" == "";
  }

  lemma StepInBody(tags: Tags, text: string, seen: string, g: Progress, chunk: Chunk)
    requires tags.start != "" && tags.end != "" && Safe(tags, text)
    requires seen + chunk.content <= text && Ok(tags, text, seen, g) && tags.start <= seen
    ensures StepOk(tags, text, seen, g, chunk)
  {
    var n := |tags.start|;
    assert (seen + chunk.content)[n..] == seen[n..] + chunk.content;
    assert text[n..][..|seen| + |chunk.content| - n] == seen[n..] + chunk.content;
    BodyStep(tags, text[n..], seen[n..], g, chunk);
  }

  lemma StepBeforeTag(tags: Tags, text: string, seen: string, g: Progress, chunk: Chunk)
    requires tags.start != "" && tags.end != "" && Safe(tags, text)
    requires seen + chunk.content <= text && Ok(tags, text, seen, g) && |seen| < |tags.start|
    ensures StepOk(tags, text, seen, g, chunk)
  {
    var seen' := seen + chunk.content;
    if |seen'| < |tags.start| {
      NothingBuffered(tags, seen');
    } else if tags.start <= seen' {
      TagArrives(tags, text, seen, g, chunk);
    } else {
      assert "" + seen' == seen';
    }
  }

  lemma TagArrives(tags: Tags, text: string, seen: string, g: Progress, chunk: Chunk)
    requires tags.start != "" && tags.end != "" && Safe(tags, text)
    requires seen + chunk.content <= text && Ok(tags, text, seen, g) && |seen| < |tags.start|
    requires tags.start <= seen + chunk.content
    ensures StepOk(tags, text, seen, g, chunk)
  {
    var seen', n := seen + chunk.content, |tags.start|;
    assert tags.start <= text && seen'[n..] <= text[n..];
    var q := Parser(seen', true, false, seen'[n..]);
    assert "" + q.buffer == q.buffer;
    ScanKeepsOk(tags, text[n..], seen'[n..], q, "");
    var (parser, out) := Scan(tags, q);
    assert Step(tags, g.parser, chunk) == (parser, out);
    assert "" + out.reasoning == out.reasoning && "" + out.content == out.content;
  }

  lemma NothingBuffered(tags: Tags, seen: string)
    requires tags.end != ""
    ensures Scan(tags, Parser(seen, false, false, "")) == (Parser(seen, false, false, ""), Said("", ""))
  {
    FindChar("", tags.end[0]);
  }

  lemma BodyStep(tags: Tags, body: string, seen: string, g: Progress, chunk: Chunk)
    requires tags.start != "" && tags.end != "" && SafeBody(tags.end, body)
    requires seen + chunk.content <= body && g.parser.started && BodyOk(tags.end, body, seen, g)
    ensures var (parser, out) := Step(tags, g.parser, chunk);
            && parser.started && parser.all == g.parser.all + chunk.content
            && BodyOk(tags.end, body, seen + chunk.content,
                      Progress(parser, g.content + out.content, g.reasoning + out.reasoning))
  {
    if Find(seen, tags.end) >= 0 {
      AfterTag(tags, body, seen, g, chunk);
    } else {
      BodyScan(tags, body, seen, g, chunk);
    }
  }

  lemma StepAfterEnd(tags: Tags, p: Parser, chunk: Chunk)
    requires tags.start != "" && tags.end != "" && p.started && p.ended
    ensures Step(tags, p, chunk)
            == (Parser(p.all + chunk.content, true, true, p.buffer + chunk.content),
                Output(chunk.content, "", chunk.extra))
  {
  }

  lemma AfterTag(tags: Tags, body: string, seen: string, g: Progress, chunk: Chunk)
    requires tags.start != "" && tags.end != "" && Find(seen, tags.end) >= 0
    requires g.parser.started && BodyOk(tags.end, body, seen, g)
    ensures var (parser, out) := Step(tags, g.parser, chunk);
            && parser.started && parser.all == g.parser.all + chunk.content
            && BodyOk(tags.end, body, seen + chunk.content,
                      Progress(parser, g.content + out.content, g.reasoning + out.reasoning))
  {
    var seen', at := seen + chunk.content, Find(seen, tags.end);
    StepAfterEnd(tags, g.parser, chunk);
    FindInPrefix(seen, seen', tags.end);
    assert seen'[..at] == seen[..at] && seen'[at + |tags.end|..] == seen[at + |tags.end|..] + chunk.content;
    assert g.reasoning + "" == g.reasoning;
  }

  lemma BodyScan(tags: Tags, body: string, seen: string, g: Progress, chunk: Chunk)
    requires tags.start != "" && tags.end != "" && SafeBody(tags.end, body) && Find(seen, tags.end) == -1
    requires seen + chunk.content <= body && g.parser.started && BodyOk(tags.end, body, seen, g)
    ensures var (parser, out) := Step(tags, g.parser, chunk);
            && parser.started && parser.all == g.parser.all + chunk.content
            && BodyOk(tags.end, body, seen + chunk.content,
                      Progress(parser, g.content + out.content, g.reasoning + out.reasoning))
  {
    var q := Parser(g.parser.all + chunk.content, true, false, g.parser.buffer + chunk.content);
    var (parser, out) := Scan(tags, q);
    assert Step(tags, g.parser, chunk) == (parser, out);
    SaidHasNoTagStart(tags.end, body, seen, g);
    assert g.reasoning + q.buffer == seen + chunk.content;
    ScanKeepsOk(tags, body, seen + chunk.content, q, g.reasoning);
    assert "" + out.content == out.content;
  }

  lemma SaidHasNoTagStart(end: string, body: string, seen: string, g: Progress)
    requires end != "" && BodyOk(end, body, seen, g) && Find(seen, end) == -1
    ensures end[0] !in g.reasoning || Lone(end, body)
  {
    FindChar(seen, end[0]);
    if end[0] in g.reasoning {
      var k :| 0 <= k < |g.reasoning| && g.reasoning[k] == end[0];
      assert seen[k] == end[0];
      var first := Find(seen, [end[0]]);
      assert first <= k;
    }
  }

  lemma {:induction false} FeedKeepsOk(tags: Tags, text: string, chunks: seq<Chunk>)
    requires tags.start != "" && tags.end != "" && Safe(tags, text) && TextOf(chunks) <= text
    ensures Ok(tags, text, TextOf(chunks), Feed(tags, chunks))
  {
    if chunks != [] {
      var n := |chunks| - 1;
      FeedKeepsOk(tags, text, chunks[..n]);
      StepKeepsOk(tags, text, TextOf(chunks[..n]), Feed(tags, chunks[..n]), chunks[n]);
    }
  }

  /** The tag-less modes pass everything through. */
  lemma {:induction false} FeedWithoutTags(tags: Tags, chunks: seq<Chunk>)
    requires tags.start == "" || tags.end == ""
    ensures Feed(tags, chunks) == if tags.start == "" then Progress(Fresh, TextOf(chunks), "")
                                  else Progress(Fresh, "", TextOf(chunks))
  {
    if chunks != [] {
      FeedWithoutTags(tags, chunks[..|chunks| - 1]);
    }
  }

  /** However a safe text is cut into chunks, the outputs and the final flush add up to the one-shot split. */
  lemma SafeTextsSplitAlike(tags: Tags, chunks: seq<Chunk>)
    requires Safe(tags, TextOf(chunks))
    ensures Split(tags, chunks) == OneShot(tags, TextOf(chunks))
  {
    var text := TextOf(chunks);
    if tags.start == "" || tags.end == "" {
      FeedWithoutTags(tags, chunks);
      assert text + "" == text;
    } else {
      FeedKeepsOk(tags, text, chunks);
      OkFlushes(tags, text, Feed(tags, chunks));
    }
  }

  /** Once the whole text has been seen, the flush completes the one-shot split. */
  lemma OkFlushes(tags: Tags, text: string, g: Progress)
    requires tags.start != "" && tags.end != "" && Ok(tags, text, text, g)
    ensures Said(g.content + Flush(g.parser).content, g.reasoning + Flush(g.parser).reasoning) == OneShot(tags, text)
  {
    assert g.content + "" == g.content && g.reasoning + "" == g.reasoning && "" + text == text;
  }

  // ---------- Unsafe texts: some chunking disagrees ----------

  function Cut(content: string): Chunk {
    Chunk(content, "")
  }

  lemma FeedOne(tags: Tags, chunks: seq<Chunk>, c: Chunk)
    ensures var before := Feed(tags, chunks);
            var (parser, out) := Step(tags, before.parser, c);
            Feed(tags, chunks + [c]) == Progress(parser, before.content + out.content, before.reasoning + out.reasoning)
    ensures TextOf(chunks + [c]) == TextOf(chunks) + c.content
  {
    assert (chunks + [c])[..|chunks|] == chunks;
  }

  /** Cut right before the false alarm: everything up to it has been said and the buffer is empty. */
  lemma UpToAlarm(tags: Tags, lead: string)
    requires tags.start != "" && tags.end != "" && tags.end[0] !in lead
    ensures Feed(tags, [Cut(tags.start + lead)]) == Progress(Parser(tags.start + lead, true, false, ""), "", lead)
    ensures TextOf([Cut(tags.start + lead)]) == tags.start + lead
  {
    var c := Cut(tags.start + lead);
    assert [] + [c] == [c];
    FeedOne(tags, [], c);
    assert "" + c.content == c.content;
    assert (tags.start + lead)[|tags.start|..] == lead && tags.start <= tags.start + lead;
    FindChar(lead, tags.end[0]);
    assert "" + lead == lead;
  }

  lemma AlarmScanned(tags: Tags, q: Parser)
    requires tags.end != "" && |q.buffer| >= |tags.end| && q.buffer[0] == tags.end[0] && Find(q.buffer, tags.end) == -1
    ensures Scan(tags, q) == (q.(buffer := Remove(q.buffer, [tags.end[0]])), Said("", [tags.end[0]]))
  {
    FindChar(q.buffer, tags.end[0]);
    assert Find(q.buffer, [tags.end[0]]) == 0;
    assert q.buffer[..0 + 1] == [tags.end[0]];
  }

  /** A chunk that starts with the false alarm and is long enough: one character is said, and all of its kind are
      gone. */
  lemma AlarmChunk(tags: Tags, lead: string, alarm: string)
    requires tags.start != "" && tags.end != "" && tags.end[0] !in lead
    requires |alarm| >= |tags.end| && alarm[0] == tags.end[0] && Find(alarm, tags.end) == -1
    ensures var chunks := [Cut(tags.start + lead), Cut(alarm)];
            && Feed(tags, chunks)
               == Progress(Parser(tags.start + lead + alarm, true, false, Remove(alarm, [tags.end[0]])),
                                              "", lead + [tags.end[0]])
            && TextOf(chunks) == tags.start + lead + alarm
  {
    var a, b := Cut(tags.start + lead), Cut(alarm);
    UpToAlarm(tags, lead);
    assert [a] + [b] == [a, b];
    FeedOne(tags, [a], b);
    assert "" + alarm == alarm;
    AlarmScanned(tags, Parser(tags.start + lead + alarm, true, false, alarm));
  }

  lemma OneShotOfBody(tags: Tags, body: string)
    requires tags.start != "" && tags.end != ""
    ensures var at := Find(body, tags.end);
            OneShot(tags, tags.start + body)
            == if at == -1 then Said("", body) else Said(body[at + |tags.end|..], body[..at])
  {
    assert (tags.start + body)[|tags.start|..] == body;
  }

  lemma AlarmSplit(tags: Tags, lead: string, alarm: string)
    requires tags.start != "" && tags.end != "" && tags.end[0] !in lead
    requires |alarm| >= |tags.end| && alarm[0] == tags.end[0] && Find(alarm, tags.end) == -1
    ensures var chunks := [Cut(tags.start + lead), Cut(alarm)];
            && TextOf(chunks) == tags.start + (lead + alarm)
            && Split(tags, chunks) == Said("", lead + [tags.end[0]] + Remove(alarm, [tags.end[0]]))
  {
    AlarmChunk(tags, lead, alarm);
    Assoc(tags.start, lead, alarm);
  }

  /** Removing the alarm character everywhere loses text when it appears twice. */
  lemma SecondAlarmLost(alarm: string, c: char)
    requires alarm != "" && alarm[0] == c && c in alarm[1..]
    ensures |Remove(alarm, [c])| + 1 < |alarm|
  {
    assert alarm[..1] == [c];
    RemoveCharShorter(alarm[1..], c);
  }

  /** The end tag never comes, and a second alarm character is swallowed. */
  lemma SwallowedAlarm(tags: Tags, body: string) returns (chunks: seq<Chunk>)
    requires tags.start != "" && tags.end != "" && Find(body, tags.end) == -1
    requires var at := Find(body, [tags.end[0]]);
             at >= 0 && |body| - at >= |tags.end| && tags.end[0] in body[at + 1..]
    ensures TextOf(chunks) == tags.start + body
    ensures Split(tags, chunks) != OneShot(tags, tags.start + body)
  {
    var at := Find(body, [tags.end[0]]);
    FindChar(body, tags.end[0]);
    chunks := [Cut(tags.start + body[..at]), Cut(body[at..])];
    CutInTwo(tags, body, at);
    OneShotOfBody(tags, body);
  }

  lemma CutInTwo(tags: Tags, body: string, at: nat)
    requires tags.start != "" && tags.end != "" && Find(body, tags.end) == -1
    requires at + |tags.end| <= |body| && body[at] == tags.end[0] && tags.end[0] !in body[..at]
    requires tags.end[0] in body[at + 1..]
    ensures var chunks := [Cut(tags.start + body[..at]), Cut(body[at..])];
            TextOf(chunks) == tags.start + body && Split(tags, chunks) != Said("", body)
  {
    var lead, alarm := body[..at], body[at..];
    assert body == lead + alarm && alarm[1..] == body[at + 1..];
    FindAfter(lead, alarm, tags.end);
    AlarmSplit(tags, lead, alarm);
    SecondAlarmLost(alarm, tags.end[0]);
  }

  ghost predicate LateEnough(tags: Tags, kept: string, rest: string, q: Parser)
    requires tags.end != ""
  {
    var (p, out) := Scan(tags, q);
    var content, reasoning := out.content + Flush(p).content, out.reasoning + Flush(p).reasoning;
    (|content| < |rest| - 1 || content == "") && (|rest| == 1 ==> content == "" && reasoning == kept + rest)
  }

  /** What is said after a false alarm whose chunk ends just before the last character of the end tag. */
  lemma RestAfterAlarm(tags: Tags, kept: string, rest: string, q: Parser)
    requires |tags.end| >= 2 && tags.end[0] !in kept && q.started && !q.ended && q.buffer == kept + rest && rest != ""
    ensures LateEnough(tags, kept, rest, q)
  {
    var end := tags.end;
    FindAfter(kept, rest, end);
    FindAfter(kept, rest, [end[0]]);
    FindChar(rest, end[0]);
    if Find(rest, [end[0]]) == -1 {
      RestIsSaid(tags, kept, rest, q);
    } else if |rest| - Find(rest, [end[0]]) < |end| {
      RestIsHeld(tags, kept, rest, q);
    } else if Find(rest, end) >= 0 {
      RestHasTag(tags, kept, rest, q);
    } else {
      RestIsAlarm(tags, kept, rest, q);
    }
  }

  lemma RestIsSaid(tags: Tags, kept: string, rest: string, q: Parser)
    requires |tags.end| >= 2 && q.started && !q.ended && q.buffer == kept + rest && rest != ""
    requires Find(q.buffer, [tags.end[0]]) == -1
    ensures LateEnough(tags, kept, rest, q)
  {
    assert q.buffer + "" == q.buffer;
  }

  lemma RestIsHeld(tags: Tags, kept: string, rest: string, q: Parser)
    requires |tags.end| >= 2 && q.started && !q.ended && q.buffer == kept + rest && rest != ""
    requires var index := Find(q.buffer, [tags.end[0]]); index >= 0 && |q.buffer| - index < |tags.end|
    ensures LateEnough(tags, kept, rest, q)
  {
    assert "" + q.buffer == q.buffer;
  }

  lemma RestHasTag(tags: Tags, kept: string, rest: string, q: Parser)
    requires |tags.end| >= 2 && q.started && !q.ended && q.buffer == kept + rest && rest != ""
    requires var index := Find(q.buffer, [tags.end[0]]); index >= 0 && |q.buffer| - index >= |tags.end|
    requires Find(rest, tags.end) >= 0 && Find(q.buffer, tags.end) == |kept| + Find(rest, tags.end)
    ensures LateEnough(tags, kept, rest, q)
  {
    var (p, out) := Scan(tags, q);
    assert out.content + "" == out.content;
  }

  lemma RestIsAlarm(tags: Tags, kept: string, rest: string, q: Parser)
    requires |tags.end| >= 2 && q.started && !q.ended && q.buffer == kept + rest && rest != ""
    requires Find(rest, [tags.end[0]]) >= 0 && |rest| - Find(rest, [tags.end[0]]) >= |tags.end|
    requires Find(q.buffer, [tags.end[0]]) == |kept| + Find(rest, [tags.end[0]]) && Find(q.buffer, tags.end) == -1
    ensures LateEnough(tags, kept, rest, q)
  {
  }

  /** A text made only of one character, removed, is empty; and the other way round. */
  lemma {:induction false} RemoveAllGone(s: string, c: char)
    requires Remove(s, [c]) == ""
    ensures forall k :: 0 <= k < |s| ==> s[k] == c
  {
    if s != "" {
      assert s[..1] == [s[0]];
      RemoveAllGone(s[1..], c);
    }
  }

  /** Between the alarm and the first end tag, dropping the alarm characters cannot reproduce the text. */
  lemma GapIsNotReproduced(end: string, body: string, gap: string, alarm: string)
    requires |end| >= 2 && alarm == [end[0]] + gap + end[..|end| - 1]
    requires body == gap + end && Find(body, end) == |gap|
    ensures Remove(alarm, [end[0]]) + [end[|end| - 1]] != gap
  {
    var c, n, last := end[0], |end| - 1, [end[|end| - 1]];
    var kept := Remove(alarm, [c]);
    if kept + last == gap {
      assert [c][..1] == [c];
      RemoveCharConcat([c] + gap, end[..n], c);
      RemoveCharConcat([c], gap, c);
      RemoveCharConcat(kept, last, c);
      RemoveCharConcat(end[..n], last, c);
      assert end[..n] + last == end;
      RemoveCharGone(alarm, c);
      RemoveCharShorter(kept, c);
      assert |Remove(end, [c])| == 0;
      RemoveAllGone(end, c);
      assert gap[|gap| - 1] == c;
      var i := |gap| - 1;
      forall k | 0 <= k < |end|
        ensures body[i..i + |end|][k] == end[k]
      {
        assert k > 0 ==> body[i + k] == end[k - 1];
      }
      FindIsFirst(body, end);
      assert OccursAt(body, end, i);
    }
  }

  /** Three chunks, the second of which ends just before the last character of the end tag. */
  lemma ThreeChunks(tags: Tags, lead: string, alarm: string, rest: string) returns (chunks: seq<Chunk>)
    requires tags.start != "" && |tags.end| >= 2 && tags.end[0] !in lead && rest != ""
    requires |alarm| >= |tags.end| && alarm[0] == tags.end[0] && Find(alarm, tags.end) == -1
    ensures TextOf(chunks) == tags.start + (lead + alarm + rest)
    ensures var said := Split(tags, chunks);
            && (|said.content| < |rest| - 1 || said.content == "")
            && (|rest| == 1 ==> said.reasoning == lead + [tags.end[0]] + (Remove(alarm, [tags.end[0]]) + rest))
  {
    var c := tags.end[0];
    var two := [Cut(tags.start + lead), Cut(alarm)];
    var kept := Remove(alarm, [c]);
    AlarmChunk(tags, lead, alarm);
    FeedOne(tags, two, Cut(rest));
    chunks := two + [Cut(rest)];
    Assoc(tags.start, lead, alarm);
    Assoc(tags.start, lead + alarm, rest);
    RemoveCharGone(alarm, c);
    AfterTwo(tags, two, Feed(tags, two), kept, rest);
  }

  lemma AfterTwo(tags: Tags, two: seq<Chunk>, g: Progress, kept: string, rest: string)
    requires tags.start != "" && |tags.end| >= 2 && tags.end[0] !in kept && rest != ""
    requires g == Feed(tags, two) && g.content == ""
    requires g.parser.started && !g.parser.ended && g.parser.buffer == kept
    ensures var said := Split(tags, two + [Cut(rest)]);
            && (|said.content| < |rest| - 1 || said.content == "")
            && (|rest| == 1 ==> said.reasoning == g.reasoning + (kept + rest))
  {
    FeedOne(tags, two, Cut(rest));
    var q := Parser(g.parser.all + rest, true, false, kept + rest);
    RestAfterAlarm(tags, kept, rest, q);
    var (p, out) := Scan(tags, q);
    assert Step(tags, g.parser, Cut(rest)) == (p, out);
    Assoc("", out.content, Flush(p).content);
    Assoc(g.reasoning, out.reasoning, Flush(p).reasoning);
  }

  /** The end tag comes after a false alarm: cut so that the alarm swallows the tag's first character. */
  lemma SwallowedTag(tags: Tags, body: string) returns (chunks: seq<Chunk>)
    requires tags.start != "" && tags.end != "" && Find(body, tags.end) >= 0
    requires Find(body, [tags.end[0]]) >= 0 && !OccursAt(body, tags.end, Find(body, [tags.end[0]]))
    ensures TextOf(chunks) == tags.start + body
    ensures Split(tags, chunks) != OneShot(tags, tags.start + body)
  {
    AlarmPrecedesTag(body, tags.end);
    chunks := TagSwallowed(tags, body, Find(body, [tags.end[0]]), Find(body, tags.end));
  }

  lemma AlarmPrecedesTag(body: string, end: string)
    requires end != "" && Find(body, end) >= 0
    requires Find(body, [end[0]]) >= 0 && !OccursAt(body, end, Find(body, [end[0]]))
    ensures |end| >= 2 && Find(body, [end[0]]) < Find(body, end)
    ensures body[Find(body, [end[0]])] == end[0] && end[0] !in body[..Find(body, [end[0]])]
  {
    FindChar(body, end[0]);
    FirstCharFirst(body, end);
    Singleton(end);
    FindIsFirst(body, end);
  }

  lemma TagSwallowed(tags: Tags, body: string, at: nat, x: nat) returns (chunks: seq<Chunk>)
    requires tags.start != "" && |tags.end| >= 2 && Find(body, tags.end) == x && at < x
    requires body[at] == tags.end[0] && tags.end[0] !in body[..at]
    ensures TextOf(chunks) == tags.start + body && Split(tags, chunks) != OneShot(tags, tags.start + body)
  {
    var j := x + |tags.end| - 1;
    AlarmHasNoTag(body, tags.end, at, x, j);
    chunks := CutInThree(tags, body, at, j);
    Differs(tags, Split(tags, chunks), body, at, x, j);
  }

  /** What can have been said of `body` when cut at `i` and `j`. */
  ghost predicate SaidInThree(said: Output, body: string, end: string, i: nat, j: nat)
    requires end != "" && i <= j < |body|
  {
    && (|said.content| < |body| - j - 1 || said.content == "")
    && (|body| == j + 1 ==> said.reasoning == body[..i] + [end[0]] + (Remove(body[i..j], [end[0]]) + body[j..]))
  }

  lemma Differs(tags: Tags, said: Output, body: string, at: nat, x: nat, j: nat)
    requires tags.start != "" && |tags.end| >= 2 && at < x && Find(body, tags.end) == x && body[at] == tags.end[0]
    requires j == x + |tags.end| - 1 && SaidInThree(said, body, tags.end, at, j)
    ensures said != OneShot(tags, tags.start + body)
  {
    OneShotOfBody(tags, body);
    if |body| == x + |tags.end| {
      TagAtTheEnd(tags.end, body, at, x);
    }
  }

  lemma CutInThree(tags: Tags, body: string, i: nat, j: nat) returns (chunks: seq<Chunk>)
    requires tags.start != "" && |tags.end| >= 2 && i + |tags.end| <= j < |body| && body[i] == tags.end[0]
    requires tags.end[0] !in body[..i] && Find(body[i..j], tags.end) == -1
    ensures TextOf(chunks) == tags.start + body
    ensures SaidInThree(Split(tags, chunks), body, tags.end, i, j)
  {
    chunks := ThreeChunks(tags, body[..i], body[i..j], body[j..]);
    ThreePieces(body, i, j);
  }

  lemma ThreePieces(s: string, i: nat, j: nat)
    requires i <= j <= |s|
    ensures s[..i] + s[i..j] + s[j..] == s
  {
  }

  /** The end tag closes the text: the reasoning said lacks part of the gap before the tag. */
  lemma TagAtTheEnd(end: string, body: string, at: nat, x: nat)
    requires |end| >= 2 && Find(body, end) == x && at < x && body[at] == end[0] && |body| == x + |end|
    ensures body[..at] + [end[0]] + (Remove(body[at..x + |end| - 1], [end[0]]) + body[x + |end| - 1..]) != body[..x]
  {
    var n, tail, gap := |end| - 1, body[at + 1..], body[at + 1..x];
    FindIsFirst(body, end);
    assert body[x..x + |end|] == end;
    assert body[x + n..] == [end[n]] by { assert body[x..x + |end|][n] == body[x + n]; }
    assert tail == gap + end;
    AlarmUpToTag(end, body, at, x);
    FindInTail(body, end, at, x);
    GapIsNotReproduced(end, tail, gap, body[at..x + n]);
    assert body[..x][at + 1..] == gap;
    var kept := Remove(body[at..x + n], [end[0]]) + body[x + n..];
    assert (body[..at] + [end[0]] + kept)[at + 1..] == kept;
  }

  /** From the alarm up to the last character of the tag. */
  lemma AlarmUpToTag(end: string, body: string, at: nat, x: nat)
    requires end != "" && at < x && x + |end| <= |body| && body[at] == end[0] && body[x..x + |end|] == end
    ensures body[at..x + |end| - 1] == [end[0]] + body[at + 1..x] + end[..|end| - 1]
  {
    var n := |end| - 1;
    assert body[x..x + n] == end[..n] by { assert body[x..x + |end|][..n] == body[x..x + n]; }
    assert body[at..x] == [end[0]] + body[at + 1..x];
    assert body[at..x + n] == body[at..x] + body[x..x + n];
  }

  lemma AlarmHasNoTag(body: string, end: string, at: nat, x: nat, j: nat)
    requires end != "" && Find(body, end) == x && at < x && j == x + |end| - 1
    ensures Find(body[at..j], end) == -1
  {
    var alarm := body[at..j];
    if Find(alarm, end) >= 0 {
      var k := Find(alarm, end);
      FindIsFirst(alarm, end);
      FindIsFirst(body, end);
      OccursInSlice(body, end, at, j, k);
    }
  }

  lemma OccursInSlice(s: string, t: string, i: nat, j: nat, k: nat)
    requires i <= j <= |s| && k + |t| <= j - i
    ensures OccursAt(s[i..j], t, k) <==> OccursAt(s, t, i + k)
  {
    var a, b := s[i..j][k..k + |t|], s[i + k..i + k + |t|];
    assert |a| == |t| == |b|;
    forall m | 0 <= m < |t|
      ensures a[m] == b[m]
    {
      assert a[m] == s[i..j][k + m];
    }
    assert a == b;
  }

  lemma FindInTail(body: string, end: string, at: nat, x: nat)
    requires end != "" && Find(body, end) == x && at < x
    ensures Find(body[at + 1..], end) == x - at - 1
  {
    var lead, tail := body[..at + 1], body[at + 1..];
    assert body == lead + tail;
    FindIsFirst(body, end);
    FindIsFirst(tail, end);
    OccursInSuffix(lead, tail, end, x - at - 1);
    var f := Find(tail, end);
    assert f >= 0;
    OccursInSuffix(lead, tail, end, f);
  }

  /** The splitter equals the one-shot split for every way of cutting a text into chunks
      if and only if the text is safe. */
  lemma SplitsAlikeIffSafe(tags: Tags, text: string)
    ensures (forall chunks :: TextOf(chunks) == text ==> Split(tags, chunks) == OneShot(tags, text))
            <==> Safe(tags, text)
  {
    if Safe(tags, text) {
      forall chunks | TextOf(chunks) == text
        ensures Split(tags, chunks) == OneShot(tags, text)
      {
        SafeTextsSplitAlike(tags, chunks);
      }
    } else {
      var body := text[|tags.start|..];
      assert text == tags.start + body;
      var chunks := UnsafeBodyDisagrees(tags, body);
      assert TextOf(chunks) == text && Split(tags, chunks) != OneShot(tags, text);
    }
  }

  lemma UnsafeBodyDisagrees(tags: Tags, body: string) returns (chunks: seq<Chunk>)
    requires tags.start != "" && tags.end != "" && !SafeBody(tags.end, body)
    ensures TextOf(chunks) == tags.start + body
    ensures Split(tags, chunks) != OneShot(tags, tags.start + body)
  {
    FindChar(body, tags.end[0]);
    if Find(body, tags.end) == -1 {
      chunks := SwallowedAlarm(tags, body);
    } else {
      chunks := SwallowedTag(tags, body);
    }
  }

  // ---------- What the provider sent beside a chunk ----------

  /** Reasoning that the provider sends beside a chunk is passed on if and only if the answer has begun: the text does
      not begin with the start tag, or the end tag came before the chunk. Without tags it never is. */
  lemma ExtraPassesIff(tags: Tags, chunks: seq<Chunk>, chunk: Chunk)
    requires Safe(tags, TextOf(chunks) + chunk.content)
    ensures var seen, all := TextOf(chunks), TextOf(chunks) + chunk.content;
            Step(tags, Feed(tags, chunks).parser, chunk).1.extra
            == if tags.start != "" && tags.end != ""
                  && ((|all| >= |tags.start| && !(tags.start <= all))
                      || (tags.start <= seen && Find(seen[|tags.start|..], tags.end) >= 0)) then chunk.extra else ""
  {
    var seen := TextOf(chunks);
    if tags.start != "" && tags.end != "" {
      FeedKeepsOk(tags, seen + chunk.content, chunks);
      assert tags.start <= seen ==> tags.start <= seen + chunk.content;
    }
  }
}
