/**
 Streamed tool calls: argument texts arrive in pieces, interleaved over several calls, and are
 put together per key. What JSON is, is left to an oracle that obeys the JSON grammar.
 */
module Fragments {
  import opened Wrappers
  import opened Text

  /** Which strings are JSON object texts, and what two merged objects are written as. */
  datatype Json = Json(isObject: string -> bool, merged: (string, string) -> string)

  predicate IsSpace(c: char) {
    c == ' ' || c == '\t' || c == '\n' || c == '\r'
  }

  predicate Blank(s: string) {
    s == "" || (IsSpace(s[0]) && Blank(s[1..]))
  }

  /** The first character that is not whitespace is a brace. */
  predicate Opens(s: string) {
    s != "" && (s[0] == '{' || (IsSpace(s[0]) && Opens(s[1..])))
  }

  /** Sections 2 and 4 of RFC 8259: only whitespace may follow an object, whose text starts with a brace
      after optional whitespace. A written object starts with its brace. */
  ghost predicate Lawful(json: Json) {
    && json.isObject("{}")
    && (forall p, rest {:trigger json.isObject(p + rest)} ::
          json.isObject(p) && json.isObject(p + rest) ==> Blank(rest))
    && (forall t :: json.isObject(t) ==> Opens(t))
    && (forall p, q {:trigger json.merged(p, q)} ::
          json.isObject(p) && json.isObject(q) ==> json.merged(p, q) != "" && json.merged(p, q)[0] == '{')
  }

  // ---------- Keys ----------

  datatype Key = ByIndex(index: int) | ById(id: string)

  /** A fragment with its id stripped, or the end of a message. */
  datatype Event = Fragment(index: Option<int>, id: string, name: string, part: string) | Finish

  const CALL := "call_"

  function LastCall(s: string, i: nat): (r: int)
    requires i <= |s|
    ensures -1 <= r < i && (r >= 0 ==> OccursAt(s, CALL, r))
    ensures forall j :: r < j < i && 0 <= j ==> !OccursAt(s, CALL, j)
  {
    if i == 0 then -1 else if OccursAt(s, CALL, i - 1) then i - 1 else LastCall(s, i - 1)
  }

  /** `t` is what `s` ends with from its last `call_` on, or all of `s` if there is none. */
  ghost predicate FromLastCall(s: string, t: string) {
    if exists i: nat :: OccursAt(s, "call_", i) then
      exists i: nat :: OccursAt(s, "call_", i) && t == s[i..] && forall j: nat :: i < j ==> !OccursAt(s, "call_", j)
    else t == s
  }

  /** The id from the last `call_` on, or the id itself. */
  function ExtractToolId(s: string): (t: string)
    ensures FromLastCall(s, t)
  {
    var i := LastCall(s, |s|);
    assert forall j: nat :: OccursAt(s, CALL, j) ==> j <= i;
    if i >= 0 then s[i..] else s
  }

  lemma FromLastCallIsOne(s: string, t: string, t': string)
    requires FromLastCall(s, t) && FromLastCall(s, t')
    ensures t == t'
  {
  }

  lemma ExtractIsIdempotent(s: string)
    ensures ExtractToolId(ExtractToolId(s)) == ExtractToolId(s)
  {
    var i := LastCall(s, |s|);
    if i >= 0 {
      var t := s[i..];
      forall j | 0 < j < |t|
        ensures !OccursAt(t, CALL, j)
      {
        if OccursAt(t, CALL, j) {
          assert s[i + j..i + j + |CALL|] == t[j..j + |CALL|];
          assert OccursAt(s, CALL, i + j);
        }
      }
      assert LastCall(t, |t|) <= 0;
    }
  }

  function KeyOf(index: Option<int>, id: string): Option<Key> {
    if index.Some? then Some(ByIndex(index.value))
    else if id != "" then Some(ById(ExtractToolId(id)))
    else None
  }

  // ---------- Entries ----------

  datatype Entry = Entry(id: string, name: string, arguments: string, completed: bool)

  const Fresh := Entry("", "", "", false)

  predicate Placeholder(s: string) {
    s == "{}" || s == "[]"
  }

  function MergeArguments(json: Json, held: string, part: string): string {
    if part == "" then held
    else if Placeholder(held) && part[0] == '{' then part
    else if held == "" then part
    else if json.isObject(held) && json.isObject(part) then json.merged(held, part)
    else held + part
  }

  function UpsertEntry(json: Json, entry: Entry, id: string, name: string, part: string): Entry {
    var reset := id != "" && entry.completed && entry.id != "" && entry.id != id;
    var e := if reset then Fresh else entry;
    Entry(if id != "" then id else e.id, if name != "" then name else e.name,
          MergeArguments(json, e.arguments, part), e.completed)
  }

  function Complete(e: Entry): Entry {
    if e.id != "" && e.arguments != "" then e.(completed := true) else e
  }

  function EntryStep(json: Json, entry: Entry, e: Event): Entry {
    match e
    case Fragment(_, id, name, part) => UpsertEntry(json, entry, id, name, part)
    case Finish => Complete(entry)
  }

  // ---------- The accumulator ----------

  function Find(entries: map<Key, Entry>, k: Key): Entry {
    if k in entries then entries[k] else Fresh
  }

  function Apply(json: Json, entries: map<Key, Entry>, e: Event): map<Key, Entry> {
    match e
    case Fragment(index, id, name, part) =>
      var key := KeyOf(index, id);
      if key.None? then entries else entries[key.value := UpsertEntry(json, Find(entries, key.value), id, name, part)]
    case Finish => map k | k in entries :: Complete(entries[k])
  }

  function Run(json: Json, events: seq<Event>): map<Key, Entry> {
    if events == [] then map[] else Apply(json, Run(json, events[..|events| - 1]), events[|events| - 1])
  }

  class Accumulator {
    const json: Json
    var fragments: map<Key, Entry>

    constructor (json: Json)
      ensures this.json == json && fragments == map[]
    {
      this.json := json;
      fragments := map[];
    }

    method UpsertFragment(index: Option<int>, id: string, name: string, part: string)
      modifies this
      ensures fragments == Apply(json, old(fragments), Fragment(index, id, name, part))
    {
      var key := KeyOf(index, id);
      if key.None? {
        return;
      }
      if key.value !in fragments {
        fragments := fragments[key.value := Fresh];
      }
      var entry := fragments[key.value];
      if id != "" {
        if entry.completed && entry.id != "" && entry.id != id {
          entry := Fresh;
        }
        entry := entry.(id := id);
      }
      if name != "" {
        entry := entry.(name := name);
      }
      entry := entry.(arguments := MergeArguments(json, entry.arguments, part));
      fragments := fragments[key.value := entry];
    }

    method FinishMessage()
      modifies this
      ensures fragments == Apply(json, old(fragments), Finish)
    {
      var rest := fragments.Keys;
      while rest != {}
        invariant rest <= fragments.Keys == old(fragments).Keys
        invariant forall k :: k in fragments ==>
                                fragments[k] == if k in rest then old(fragments)[k] else Complete(old(fragments)[k])
        decreases |rest|
      {
        var k :| k in rest;
        var entry := fragments[k];
        if !entry.completed && entry.id != "" && entry.arguments != "" {
          fragments := fragments[k := entry.(completed := true)];
        }
        rest := rest - {k};
      }
    }
  }

  // ---------- Demultiplexing ----------

  /** What one key sees of the events. */
  ghost function Project(events: seq<Event>, k: Key): seq<Event> {
    if events == [] then []
    else
      var before, e := Project(events[..|events| - 1], k), events[|events| - 1];
      if e.Finish? || Concerns(e, k) then before + [e] else before
  }

  function EntryAfter(json: Json, entry: Entry, events: seq<Event>): Entry {
    if events == [] then entry
    else EntryStep(json, EntryAfter(json, entry, events[..|events| - 1]), events[|events| - 1])
  }

  /** The fragment bears the index of the key, or no index and an id that ends with the key's id. */
  ghost predicate Concerns(e: Event, k: Key) {
    && e.Fragment?
    && match k
       case ByIndex(index) => e.index == Some(index)
       case ById(id) => e.index == None && e.id != "" && FromLastCall(e.id, id)
  }

  lemma KeyConcerns(e: Event, k: Key)
    requires e.Fragment?
    ensures KeyOf(e.index, e.id) == Some(k) <==> Concerns(e, k)
  {
    if e.index.None? && k.ById? && FromLastCall(e.id, k.id) {
      FromLastCallIsOne(e.id, k.id, ExtractToolId(e.id));
    }
  }

  lemma ApplyAt(json: Json, entries: map<Key, Entry>, e: Event, k: Key)
    ensures Find(Apply(json, entries, e), k)
            == if e.Finish? || Concerns(e, k) then EntryStep(json, Find(entries, k), e) else Find(entries, k)
    ensures k in Apply(json, entries, e) <==> k in entries || Concerns(e, k)
  {
    if e.Fragment? { KeyConcerns(e, k); }
  }

  lemma EntryAfterSnoc(json: Json, entry: Entry, events: seq<Event>, e: Event)
    ensures EntryAfter(json, entry, events + [e]) == EntryStep(json, EntryAfter(json, entry, events), e)
  {
    assert (events + [e])[..|events|] == events;
  }

  /** Other keys never matter: an entry is what its own events make of it. */
  lemma {:induction false} Demultiplexes(json: Json, events: seq<Event>, k: Key)
    ensures Find(Run(json, events), k) == EntryAfter(json, Fresh, Project(events, k))
  {
    if events != [] {
      var before, e := events[..|events| - 1], events[|events| - 1];
      Demultiplexes(json, before, k);
      ApplyAt(json, Run(json, before), e, k);
      EntryAfterSnoc(json, Fresh, Project(before, k), e);
    }
  }

  /** A key has an entry iff some fragment bore it. */
  lemma {:induction false} HasEntryIff(json: Json, events: seq<Event>, k: Key)
    ensures k in Run(json, events) <==> exists e :: e in events && Concerns(e, k)
  {
    if events != [] {
      var before, e := events[..|events| - 1], events[|events| - 1];
      HasEntryIff(json, before, k);
      ApplyAt(json, Run(json, before), e, k);
      assert events == before + [e];
    }
  }

  /** Two fragments without an index share an entry if and only if their ids end alike from the last `call_` on. */
  lemma ShareEntryIff(e: Event, e': Event)
    requires e.Fragment? && e'.Fragment? && e.index == e'.index == None && e.id != "" && e'.id != ""
    ensures (exists k :: Concerns(e, k) && Concerns(e', k))
            <==> exists t :: FromLastCall(e.id, t) && FromLastCall(e'.id, t)
  {
    if t :| FromLastCall(e.id, t) && FromLastCall(e'.id, t) {
      assert Concerns(e, ById(t)) && Concerns(e', ById(t));
    }
  }

  /** Entries of two indexes, or of an index and an id, are never shared; a fragment with neither changes nothing. */
  lemma IndexesAreApart(json: Json, events: seq<Event>, e: Event, k: Key)
    requires e.Fragment?
    ensures (e.index.Some? && k != ByIndex(e.index.value)) || (e.index.None? && k.ByIndex?) ==>
              Find(Run(json, events + [e]), k) == Find(Run(json, events), k)
    ensures e.index.None? && e.id == "" ==> Run(json, events + [e]) == Run(json, events)
  {
    assert (events + [e])[..|events|] == events;
    ApplyAt(json, Run(json, events), e, k);
  }

  // ---------- Putting one text together ----------

  function Joined(parts: seq<string>): string {
    if parts == [] then "" else Joined(parts[..|parts| - 1]) + parts[|parts| - 1]
  }

  function Accumulate(json: Json, held: string, parts: seq<string>): string {
    if parts == [] then held
    else MergeArguments(json, Accumulate(json, held, parts[..|parts| - 1]), parts[|parts| - 1])
  }

  /** Inside one object text, a piece is always appended. */
  lemma PieceIsAppended(json: Json, text: string, done: string, part: string)
    requires Lawful(json) && json.isObject(text) && done + part <= text
    ensures MergeArguments(json, done, part) == done + part
  {
    assert done <= text;
    if part != "" && done != "" {
      assert text[|done|..][..|part|] == part;
      assert text[0] == done[0];
      if json.isObject(done) {
        assert done + text[|done|..] == text;
        BlankOpensNothing(text[|done|..], part);
      }
    }
  }

  lemma {:induction false} BlankOpensNothing(tail: string, part: string)
    requires Blank(tail) && part <= tail
    ensures !Opens(part)
  {
    if part != "" {
      BlankOpensNothing(tail[1..], part[1..]);
    }
  }

  /** However an object text is cut, at every moment exactly what came so far is held. */
  lemma {:induction false} PiecesReassemble(json: Json, text: string, done: string, parts: seq<string>)
    requires Lawful(json) && json.isObject(text) && done + Joined(parts) <= text
    ensures Accumulate(json, done, parts) == done + Joined(parts)
  {
    if parts == [] {
      assert done + "" == done;
    } else {
      var init, last := parts[..|parts| - 1], parts[|parts| - 1];
      Assoc(done, Joined(init), last);
      PiecesReassemble(json, text, done, init);
      PieceIsAppended(json, text, done + Joined(init), last);
    }
  }

  /** After a placeholder, every cut of the text comes out right if and only if the text itself opens with its brace. */
  lemma PlaceholderIsReplacedIff(json: Json, text: string, placeholder: string)
    requires Lawful(json) && json.isObject(text) && placeholder in ["{}", "[]"]
    ensures (forall parts :: Joined(parts) == text ==> Accumulate(json, placeholder, parts) == text) <==> text[0] == '{'
  {
    if text[0] == '{' {
      forall parts | Joined(parts) == text
        ensures Accumulate(json, placeholder, parts) == text
      {
        AfterPlaceholder(json, text, placeholder, parts);
      }
    } else {
      assert [text][..0] == [] && Joined([text]) == text;
      assert Accumulate(json, placeholder, [text]) == MergeArguments(json, placeholder, text);
      assert (placeholder + text)[0] != text[0] || |placeholder + text| != |text|;
    }
  }

  lemma {:induction false} AfterPlaceholder(json: Json, text: string, placeholder: string, parts: seq<string>)
    requires Lawful(json) && json.isObject(text) && Placeholder(placeholder) && text[0] == '{'
    requires Joined(parts) <= text
    ensures Accumulate(json, placeholder, parts) == if Joined(parts) == "" then placeholder else Joined(parts)
  {
    if parts != [] {
      var init, last := parts[..|parts| - 1], parts[|parts| - 1];
      assert Joined(init) <= text;
      AfterPlaceholder(json, text, placeholder, init);
      if Joined(init) == "" {
        assert "" + last == last;
      } else {
        PieceIsAppended(json, text, Joined(init), last);
      }
    }
  }

  // ---------- The first call under a key ----------

  /** The parts of the fragments. */
  function Pieces(events: seq<Event>): seq<string> {
    if events == [] then []
    else
      var e := events[|events| - 1];
      Pieces(events[..|events| - 1]) + if e.Fragment? then [e.part] else []
  }

  /** The last id that a fragment carried, "" if none did. */
  function LastId(events: seq<Event>): string {
    if events == [] then ""
    else
      var e := events[|events| - 1];
      if e.Fragment? && e.id != "" then e.id else LastId(events[..|events| - 1])
  }

  /** The last tool name that a fragment carried, "" if none did. */
  function LastName(events: seq<Event>): string {
    if events == [] then ""
    else
      var e := events[|events| - 1];
      if e.Fragment? && e.name != "" then e.name else LastName(events[..|events| - 1])
  }

  /** No message ends once both an id and some text have come: nothing is complete yet. */
  predicate NeverClosed(events: seq<Event>) {
    events != [] ==>
      var init, e := events[..|events| - 1], events[|events| - 1];
      NeverClosed(init) && (e.Finish? ==> LastId(init) == "" || Joined(Pieces(init)) == "")
  }

  lemma AccumulateSnoc(json: Json, held: string, parts: seq<string>, part: string)
    ensures Accumulate(json, held, parts + [part]) == MergeArguments(json, Accumulate(json, held, parts), part)
    ensures Joined(parts + [part]) == Joined(parts) + part
  {
    assert (parts + [part])[..|parts|] == parts;
  }

  /** No argument text comes of nothing. */
  lemma {:induction false} AccumulateNothing(json: Json, parts: seq<string>)
    requires Joined(parts) == ""
    ensures Accumulate(json, "", parts) == ""
  {
    if parts != [] {
      AccumulateNothing(json, parts[..|parts| - 1]);
    }
  }

  /** An entry that is not complete is never reset: whatever ids its fragments carry, and whenever they come,
      it accumulates every part and bears the last id and the last name. */
  lemma {:induction false} NeverClosedAccumulates(json: Json, events: seq<Event>)
    requires NeverClosed(events)
    ensures var r := EntryAfter(json, Fresh, events);
            && !r.completed && r.id == LastId(events) && r.name == LastName(events)
            && r.arguments == Accumulate(json, "", Pieces(events))
  {
    if events != [] {
      var init, e := events[..|events| - 1], events[|events| - 1];
      NeverClosedAccumulates(json, init);
      if e.Fragment? {
        AccumulateSnoc(json, "", Pieces(init), e.part);
      } else {
        assert Pieces(events) == Pieces(init);
        if LastId(init) != "" { AccumulateNothing(json, Pieces(init)); }
      }
    }
  }

  /** The fragments under a key none of whose calls is complete, arbitrarily interleaved with other keys, carrying
      ids early, late, several or none, add up at every moment to exactly the text that has come. */
  lemma FirstCallReassembles(json: Json, events: seq<Event>, k: Key, text: string)
    requires Lawful(json) && json.isObject(text)
    requires var own := Project(events, k); NeverClosed(own) && Joined(Pieces(own)) <= text
    ensures var own, r := Project(events, k), Find(Run(json, events), k);
            r.arguments == Joined(Pieces(own)) && r.id == LastId(own) && r.name == LastName(own) && !r.completed
  {
    var own := Project(events, k);
    Demultiplexes(json, events, k);
    NeverClosedAccumulates(json, own);
    assert "" + Joined(Pieces(own)) == Joined(Pieces(own));
    PiecesReassemble(json, text, "", Pieces(own));
  }

  /** Two whole objects under one key, the first of them not a placeholder, are merged. */
  lemma WholeObjectsMerge(json: Json, events: seq<Event>, k: Key, first: Event, second: Event)
    requires Lawful(json) && Project(events, k) == [first, second] && first.Fragment? && second.Fragment?
    requires json.isObject(first.part) && json.isObject(second.part) && first.part != "{}"
    ensures Find(Run(json, events), k).arguments == json.merged(first.part, second.part)
  {
    Demultiplexes(json, events, k);
    EntryAfterSnoc(json, Fresh, [], first);
    EntryAfterSnoc(json, Fresh, [first], second);
    assert [] + [first] == [first] && [first] + [second] == [first, second];
    assert Opens(first.part) && Opens(second.part) && !Opens("[]");
  }

  /** The same when a placeholder comes before the text. */
  lemma FirstCallAfterPlaceholder(json: Json, events: seq<Event>, k: Key, text: string, placeholder: string,
                                  rest: seq<string>)
    requires Lawful(json) && json.isObject(text) && text[0] == '{' && placeholder in ["{}", "[]"]
    requires NeverClosed(Project(events, k)) && Pieces(Project(events, k)) == [placeholder] + rest
    requires Joined(rest) <= text
    ensures var own, r := Project(events, k), Find(Run(json, events), k);
            && r.arguments == (if Joined(rest) == "" then placeholder else Joined(rest))
            && r.id == LastId(own) && r.name == LastName(own) && !r.completed
  {
    Demultiplexes(json, events, k);
    NeverClosedAccumulates(json, Project(events, k));
    AccumulateFirst(json, "", placeholder, rest);
    AfterPlaceholder(json, text, placeholder, rest);
  }

  lemma {:induction false} AccumulateFirst(json: Json, held: string, part: string, rest: seq<string>)
    ensures Accumulate(json, held, [part] + rest) == Accumulate(json, MergeArguments(json, held, part), rest)
  {
    if rest == [] {
      assert [part] + rest == [part] && [part][..0] == [];
    } else {
      assert ([part] + rest)[..|rest|] == [part] + rest[..|rest| - 1];
      AccumulateFirst(json, held, part, rest[..|rest| - 1]);
    }
  }

  // ---------- Calls one after another under one key ----------

  /** The fragments of one call, its parts the cut text or a placeholder and the cut text;
      `id` is the last one carried. */
  ghost predicate IsCall(json: Json, events: seq<Event>, id: string, text: string) {
    && events != [] && json.isObject(text) && LastId(events) == id
    && (forall e :: e in events ==> e.Fragment?)
    && (Joined(Pieces(events)) == text
        || (events[0].Fragment? && Placeholder(events[0].part) && text != "" && text[0] == '{'
            && Joined(Pieces(events[1..])) == text))
  }

  /** The call's first fragment finds the key new, or complete under another id. */
  predicate Begins(entry: Entry, first: Event) {
    first.Fragment?
    && (entry == Fresh || (entry.completed && entry.id != "" && first.id != "" && first.id != entry.id))
  }

  lemma {:induction false} RestOfCall(json: Json, entry: Entry, events: seq<Event>)
    requires !entry.completed && forall e :: e in events ==> e.Fragment?
    ensures var r := EntryAfter(json, entry, events);
            && !r.completed && r.id == (if LastId(events) == "" then entry.id else LastId(events))
            && r.name == (if LastName(events) == "" then entry.name else LastName(events))
            && r.arguments == Accumulate(json, entry.arguments, Pieces(events))
  {
    if events != [] {
      var init, e := events[..|events| - 1], events[|events| - 1];
      RestOfCall(json, entry, init);
      AccumulateSnoc(json, entry.arguments, Pieces(init), e.part);
    }
  }

  lemma {:induction false} AfterFirst(json: Json, entry: Entry, events: seq<Event>)
    requires events != []
    ensures EntryAfter(json, entry, events) == EntryAfter(json, EntryStep(json, entry, events[0]), events[1..])
  {
    if |events| == 1 {
      assert events[..0] == [] && events[1..] == [];
    } else {
      AfterFirst(json, entry, events[..|events| - 1]);
      assert events[..|events| - 1][1..] == events[1..][..|events| - 2];
    }
  }

  lemma FirstAndLast(events: seq<Event>)
    requires |events| > 1
    ensures var n := |events| - 1;
            events[..n][1..] == events[1..][..n - 1] && events[1..][n - 1] == events[n] && events[..n][0] == events[0]
  {
  }

  lemma {:induction false} PiecesFirst(events: seq<Event>)
    requires events != [] && forall e :: e in events ==> e.Fragment?
    ensures Pieces(events) == [events[0].part] + Pieces(events[1..])
  {
    if |events| == 1 {
      assert events[..0] == [] && events[1..] == [];
    } else {
      var n := |events| - 1;
      FirstAndLast(events);
      PiecesFirst(events[..n]);
    }
  }

  lemma {:induction false} LastOfFirst(events: seq<Event>)
    requires events != [] && forall e :: e in events ==> e.Fragment?
    ensures LastId(events) == if LastId(events[1..]) == "" then events[0].id else LastId(events[1..])
    ensures LastName(events) == if LastName(events[1..]) == "" then events[0].name else LastName(events[1..])
  {
    if |events| == 1 {
      assert events[..0] == [] && events[1..] == [];
    } else {
      FirstAndLast(events);
      LastOfFirst(events[..|events| - 1]);
    }
  }

  lemma {:induction false} JoinedFirst(part: string, rest: seq<string>)
    ensures Joined([part] + rest) == part + Joined(rest)
  {
    if rest == [] {
      assert [part] + rest == [part] && [part][..0] == [] && "" + part == part + "";
    } else {
      var n := |rest| - 1;
      assert ([part] + rest)[..|rest|] == [part] + rest[..n];
      JoinedFirst(part, rest[..n]);
      Assoc(part, Joined(rest[..n]), rest[n]);
    }
  }

  /** A key that is new, or whose last call is complete under another id, takes the next call's text exactly. */
  lemma CallReassembles(json: Json, entry: Entry, events: seq<Event>, id: string, text: string)
    requires Lawful(json) && IsCall(json, events, id, text) && Begins(entry, events[0])
    ensures var r := EntryAfter(json, entry, events);
            r.id == id && r.name == LastName(events) && r.arguments == text && !r.completed
  {
    var e := EntryStep(json, entry, events[0]);
    assert events[0] in events;
    AfterFirst(json, entry, events);
    LastOfFirst(events);
    RestOfCall(json, e, events[1..]);
    CallText(json, events, id, text);
  }

  /** The pieces of a call, taken after the first, add up to its text. */
  lemma CallText(json: Json, events: seq<Event>, id: string, text: string)
    requires Lawful(json) && IsCall(json, events, id, text)
    ensures Accumulate(json, events[0].part, Pieces(events[1..])) == text
  {
    var first, rest := events[0].part, Pieces(events[1..]);
    PiecesFirst(events);
    if Joined(Pieces(events)) == text {
      JoinedFirst(first, rest);
      PiecesReassemble(json, text, first, rest);
    } else {
      AfterPlaceholder(json, text, first, rest);
    }
  }

  /** A complete entry takes up what comes without an id or with its own, and stays complete. */
  lemma {:induction false} StaysComplete(json: Json, entry: Entry, events: seq<Event>)
    requires entry.completed && entry.id != ""
    requires forall e :: e in events ==> e.Fragment? && (e.id == "" || e.id == entry.id)
    ensures var r := EntryAfter(json, entry, events);
            && r.completed && r.id == entry.id
            && r.name == (if LastName(events) == "" then entry.name else LastName(events))
            && r.arguments == Accumulate(json, entry.arguments, Pieces(events))
  {
    if events != [] {
      var init, e := events[..|events| - 1], events[|events| - 1];
      StaysComplete(json, entry, init);
      assert e in events;
      AccumulateSnoc(json, entry.arguments, Pieces(init), e.part);
    }
  }

  /** Under a key that is complete, what comes before the new id is dropped; only the parts from
      there on are put together. */
  lemma LateIdDropsWhatCameBefore(json: Json, entry: Entry, early: seq<Event>, events: seq<Event>)
    requires entry.completed && entry.id != ""
    requires forall e :: e in early ==> e.Fragment? && (e.id == "" || e.id == entry.id)
    requires events != [] && Begins(entry, events[0]) && forall e :: e in events ==> e.Fragment?
    ensures var r := EntryAfter(json, entry, early + events);
            && r.id == LastId(events) && r.name == LastName(events)
            && r.arguments == Accumulate(json, "", Pieces(events)) && !r.completed
  {
    var held := EntryAfter(json, entry, early);
    EntryAfterConcat(json, entry, early, events);
    StaysComplete(json, entry, early);
    AfterFirst(json, held, events);
    PiecesFirst(events);
    LastOfFirst(events);
    RestOfCall(json, EntryStep(json, held, events[0]), events[1..]);
    AccumulateFirst(json, "", events[0].part, Pieces(events[1..]));
  }

  datatype Call = Call(id: string, text: string, events: seq<Event>, idle: nat)

  function Finishes(n: nat): seq<Event> {
    if n == 0 then [] else Finishes(n - 1) + [Finish]
  }

  /** Calls made one after another under the same key, each closed by the end of its message,
      with `idle` messages that leave the key alone before the first call and after each. */
  function Played(idle: nat, calls: seq<Call>): seq<Event> {
    if calls == [] then Finishes(idle) else Played(idle, calls[..|calls| - 1]) + Turn(calls[|calls| - 1])
  }

  lemma {:induction false} IdleMessages(json: Json, entry: Entry, n: nat)
    ensures EntryAfter(json, entry, Finishes(n)) == if n == 0 then entry else Complete(entry)
  {
    if n > 0 {
      IdleMessages(json, entry, n - 1);
      assert (Finishes(n - 1) + [Finish])[..|Finishes(n - 1)|] == Finishes(n - 1);
    }
  }

  /** Each call is complete, and the next begins with another id. */
  ghost predicate Turns(json: Json, calls: seq<Call>) {
    && (forall i :: 0 <= i < |calls| ==> IsCall(json, calls[i].events, calls[i].id, calls[i].text))
    && (forall i, j :: 0 <= i < |calls| && j == i + 1 < |calls| ==> Follows(calls[i], calls[j]))
  }

  predicate Follows(before: Call, call: Call) {
    && before.id != "" && call.events != []
    && call.events[0].Fragment? && call.events[0].id != "" && call.events[0].id != before.id
  }

  lemma {:induction false} EntryAfterConcat(json: Json, entry: Entry, a: seq<Event>, b: seq<Event>)
    ensures EntryAfter(json, entry, a + b) == EntryAfter(json, EntryAfter(json, entry, a), b)
  {
    if b == [] {
      assert a + b == a;
    } else {
      assert (a + b)[..|a + b| - 1] == a + b[..|b| - 1];
      EntryAfterConcat(json, entry, a, b[..|b| - 1]);
    }
  }

  /** The entry has the call's text, id and name, and is complete if there is an id. */
  predicate Holds(e: Entry, call: Call) {
    && e.id == call.id && e.name == LastName(call.events) && e.arguments == call.text
    && (e.completed <==> call.id != "")
  }

  function Turn(call: Call): seq<Event> {
    call.events + Finishes(1 + call.idle)
  }

  lemma Closing(json: Json, entry: Entry, call: Call)
    ensures EntryAfter(json, entry, Turn(call)) == Complete(EntryAfter(json, entry, call.events))
  {
    EntryAfterConcat(json, entry, call.events, Finishes(1 + call.idle));
    IdleMessages(json, EntryAfter(json, entry, call.events), 1 + call.idle);
  }

  lemma OneTurn(json: Json, before: seq<Event>, call: Call)
    requires Lawful(json) && IsCall(json, call.events, call.id, call.text)
    requires Begins(EntryAfter(json, Fresh, before), call.events[0])
    ensures Holds(EntryAfter(json, Fresh, before + Turn(call)), call)
  {
    var entry := EntryAfter(json, Fresh, before);
    EntryAfterConcat(json, Fresh, before, Turn(call));
    Closing(json, entry, call);
    CallReassembles(json, entry, call.events, call.id, call.text);
    assert call.text != "";
  }

  lemma {:induction false} TurnsReassemble(json: Json, idle: nat, calls: seq<Call>)
    requires Lawful(json) && Turns(json, calls)
    ensures var r := EntryAfter(json, Fresh, Played(idle, calls));
            if calls == [] then r == Fresh else Holds(r, calls[|calls| - 1])
  {
    if calls == [] {
      IdleMessages(json, Fresh, idle);
    } else {
      var init, n := calls[..|calls| - 1], |calls| - 1;
      TurnsBefore(json, calls);
      TurnsReassemble(json, idle, init);
      assert calls[n].events[0] in calls[n].events;
      OneTurn(json, Played(idle, init), calls[n]);
    }
  }

  lemma TurnsBefore(json: Json, calls: seq<Call>)
    requires Turns(json, calls) && calls != []
    ensures var init, n := calls[..|calls| - 1], |calls| - 1;
            && Turns(json, init) && IsCall(json, calls[n].events, calls[n].id, calls[n].text)
            && (n > 0 ==> Follows(init[n - 1], calls[n]))
  {
    var n := |calls| - 1;
    assert n > 0 ==> IsCall(json, calls[n - 1].events, calls[n - 1].id, calls[n - 1].text);
  }

  /** Whatever else happens under other keys, a key that sees these calls ends up holding
      exactly the last call's text. */
  lemma CallsDemultiplex(json: Json, events: seq<Event>, k: Key, idle: nat, calls: seq<Call>)
    requires Lawful(json) && Turns(json, calls) && calls != [] && Project(events, k) == Played(idle, calls)
    ensures k in Run(json, events)
    ensures Holds(Run(json, events)[k], calls[|calls| - 1])
  {
    Demultiplexes(json, events, k);
    TurnsReassemble(json, idle, calls);
  }
}
