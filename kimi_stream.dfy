/** The server-sent-events parser inside the Kimi adapter's
    `streamComplete`: decoded chunks are appended to a buffer, the complete
    lines are handled in order and the unfinished tail stays buffered; each
    `data: ` line's delta yields its text and adds its tool-call fragments
    to a per-index buffer, which is turned into function calls at the end. */
module KimiStream {
  import opened Wrappers
  import opened Json
  import opened LlmEntities
  import opened JsText
  import Kimi

  // ---------------------------------------------------------------------
  // Lines
  // ---------------------------------------------------------------------

  /** `text.split("\n")`: the pieces between line feeds, always at least one. */
  function SplitLines(text: string): (pieces: seq<string>)
    ensures |pieces| >= 1
  {
    if text == [] then [""]
    else
      var rest := SplitLines(text[1..]);
      if text[0] == '\n' then [""] + rest
      else [[text[0]] + rest[0]] + rest[1..]
  }

  /** The pieces followed by a line feed: what the `for` loop handles. */
  function CompleteLines(text: string): seq<string> {
    var pieces := SplitLines(text);
    pieces[..|pieces| - 1]
  }

  /** `lines.pop()`: the text after the last line feed, kept in `buffer`. */
  function Tail(text: string): string {
    var pieces := SplitLines(text);
    pieces[|pieces| - 1]
  }

  /** The pieces joined back with line feeds. */
  function JoinLines(pieces: seq<string>): string
    requires |pieces| >= 1
  {
    if |pieces| == 1 then pieces[0] else pieces[0] + "\n" + JoinLines(pieces[1..])
  }

  /** Splitting loses nothing: joining the pieces gives the text back, and
      no piece contains a line feed. */
  lemma SplitLinesInverse(text: string)
    ensures JoinLines(SplitLines(text)) == text
    ensures forall i :: 0 <= i < |SplitLines(text)| ==> '\n' !in SplitLines(text)[i]
  {
    JoinSplit(text);
    PiecesHaveNoLineFeed(text);
  }

  lemma {:induction false} JoinSplit(text: string)
    ensures JoinLines(SplitLines(text)) == text
    decreases |text|
  {
    if text != [] {
      JoinSplit(text[1..]);
      JoinCons(text[0], SplitLines(text[1..]), text[1..]);
      assert text == [text[0]] + text[1..];
    }
  }

  /** Joining after one more character was split off. */
  lemma JoinCons(c: char, rest: seq<string>, tail: string)
    requires |rest| >= 1 && JoinLines(rest) == tail
    ensures JoinLines([""] + rest) == "\n" + tail
    ensures JoinLines([[c] + rest[0]] + rest[1..]) == [c] + tail
  {
    JoinAfterEmpty(rest, tail);
    if |rest| > 1 {
      JoinGrowFirst(c, rest);
    } else {
      assert [[c] + rest[0]] + rest[1..] == [[c] + rest[0]];
    }
  }

  lemma JoinAfterEmpty(rest: seq<string>, tail: string)
    requires |rest| >= 1 && JoinLines(rest) == tail
    ensures JoinLines([""] + rest) == "\n" + tail
  {
    var r := [""] + rest;
    assert r[0] == "" && r[1..] == rest;
    assert JoinLines(r) == "" + "\n" + tail;
    assert "" + "\n" + tail == "\n" + tail;
  }

  lemma JoinGrowFirst(c: char, rest: seq<string>)
    requires |rest| > 1
    ensures JoinLines([[c] + rest[0]] + rest[1..]) == [c] + JoinLines(rest)
  {
    var r := [[c] + rest[0]] + rest[1..];
    assert r[1..] == rest[1..];
    Regroup([c], rest[0], JoinLines(rest[1..]));
  }

  lemma Regroup(a: string, b: string, j: string)
    ensures (a + b) + "\n" + j == a + (b + "\n" + j)
  {
  }

  lemma {:induction false} PiecesHaveNoLineFeed(text: string)
    ensures forall i :: 0 <= i < |SplitLines(text)| ==> '\n' !in SplitLines(text)[i]
    decreases |text|
  {
    if text != [] {
      PiecesHaveNoLineFeed(text[1..]);
      ConsNoLineFeed(text[0], SplitLines(text[1..]));
    }
  }

  /** Splitting off one more character adds no line feed to any piece. */
  lemma ConsNoLineFeed(c: char, rest: seq<string>)
    requires |rest| >= 1 && forall i :: 0 <= i < |rest| ==> '\n' !in rest[i]
    ensures forall i :: 0 <= i < |rest| + 1 ==> '\n' !in ([""] + rest)[i]
    ensures c != '\n' ==> forall i :: 0 <= i < |rest| ==> '\n' !in ([[c] + rest[0]] + rest[1..])[i]
  {
    if c != '\n' {
      var r := [[c] + rest[0]] + rest[1..];
      forall i | 0 <= i < |rest| ensures '\n' !in r[i] {
        if i > 0 {
          assert r[i] == rest[i];
        }
      }
    }
  }

  /** The pieces of `c` followed by a text split into `pieces`. */
  function Cons(c: char, pieces: seq<string>): seq<string>
    requires |pieces| >= 1
  {
    if c == '\n' then [""] + pieces else [[c] + pieces[0]] + pieces[1..]
  }

  /** The pieces of two texts one after the other: the last piece of the
      first and the first piece of the second become one. */
  function Glue(p: seq<string>, q: seq<string>): seq<string>
    requires |p| >= 1 && |q| >= 1
  {
    p[..|p| - 1] + [p[|p| - 1] + q[0]] + q[1..]
  }

  lemma ConsGlue(c: char, p: seq<string>, q: seq<string>)
    requires |p| >= 1 && |q| >= 1
    ensures |Glue(p, q)| >= 1 && |Cons(c, p)| >= 1
    ensures Cons(c, Glue(p, q)) == Glue(Cons(c, p), q)
  {
    if c == '\n' {
      ConsGlueFeed(p, q);
    } else if |p| == 1 {
      ConsGlueSingle(c, p, q);
    } else {
      ConsGlueLonger(c, p, q);
    }
  }

  /** `ConsGlue` for a line feed. */
  lemma ConsGlueFeed(p: seq<string>, q: seq<string>)
    requires |p| >= 1 && |q| >= 1
    ensures Cons('\n', Glue(p, q)) == Glue(Cons('\n', p), q)
  {
    var l := Cons('\n', p);
    assert l == [""] + p;
    assert l[..|l| - 1] == [""] + p[..|p| - 1];
    assert l[|l| - 1] == p[|p| - 1];
  }

  /** `ConsGlue` for a character other than a line feed and a single piece. */
  lemma ConsGlueSingle(c: char, p: seq<string>, q: seq<string>)
    requires c != '\n' && |p| == 1 && |q| >= 1
    ensures Cons(c, Glue(p, q)) == Glue(Cons(c, p), q)
  {
    assert Glue(p, q) == [p[0] + q[0]] + q[1..];
    assert Cons(c, p) == [[c] + p[0]];
    assert [c] + (p[0] + q[0]) == ([c] + p[0]) + q[0];
  }

  /** `ConsGlue` for a character other than a line feed and several pieces. */
  lemma ConsGlueLonger(c: char, p: seq<string>, q: seq<string>)
    requires c != '\n' && |p| >= 2 && |q| >= 1
    ensures Cons(c, Glue(p, q)) == Glue(Cons(c, p), q)
  {
    var first, middle, joined := [c] + p[0], p[1..|p| - 1], p[|p| - 1] + q[0];
    var g := Glue(p, q);
    assert g == [p[0]] + middle + [joined] + q[1..] by {
      assert p[..|p| - 1] == [p[0]] + middle;
    }
    assert g[1..] == middle + [joined] + q[1..];
    var l := Cons(c, p);
    assert l == [first] + p[1..];
    assert l[..|l| - 1] == [first] + middle && l[|l| - 1] == p[|p| - 1];
  }

  /** Splitting is compatible with concatenation. */
  lemma {:induction false} SplitConcat(a: string, b: string)
    ensures SplitLines(a + b) == Glue(SplitLines(a), SplitLines(b))
    decreases |a|
  {
    if a == [] {
      assert a + b == b;
      assert "" + SplitLines(b)[0] == SplitLines(b)[0];
    } else {
      assert (a + b)[1..] == a[1..] + b;
      assert (a + b)[0] == a[0];
      SplitConcat(a[1..], b);
      assert SplitLines(a + b) == Cons(a[0], SplitLines(a[1..] + b));
      assert SplitLines(a) == Cons(a[0], SplitLines(a[1..]));
      ConsGlue(a[0], SplitLines(a[1..]), SplitLines(b));
    }
  }

  /** Splitting a text that grew by `more` only re-splits its old tail: the
      complete lines so far stay, and the tail plus `more` supplies the rest.
      This is why keeping only the tail in `buffer` is enough. */
  lemma SplitAppend(text: string, more: string)
    ensures CompleteLines(text + more) == CompleteLines(text) + CompleteLines(Tail(text) + more)
    ensures Tail(text + more) == Tail(Tail(text) + more)
  {
    var p := SplitLines(text);
    var g := SplitLines(text + more);
    var h := SplitLines(Tail(text) + more);
    SplitAppendPieces(text, more, p, SplitLines(more), g, h);
    assert CompleteLines(text + more) == g[..|g| - 1];
    assert CompleteLines(Tail(text) + more) == h[..|h| - 1];
  }

  /** `SplitAppend` on the pieces themselves. */
  lemma SplitAppendPieces(text: string, more: string, p: seq<string>, q: seq<string>, g: seq<string>, h: seq<string>)
    requires p == SplitLines(text) && q == SplitLines(more)
    requires g == SplitLines(text + more) && h == SplitLines(Tail(text) + more)
    ensures |p| >= 1 && |g| >= 1 && |h| >= 1
    ensures g[..|g| - 1] == p[..|p| - 1] + h[..|h| - 1]
    ensures g[|g| - 1] == h[|h| - 1]
  {
    SplitConcat(text, more);
    TailSplit(text, more);
    GluePartsOf(p, q, g, h);
  }

  /** `GlueParts` for pieces already glued. */
  lemma GluePartsOf(p: seq<string>, q: seq<string>, g: seq<string>, h: seq<string>)
    requires |p| >= 1 && |q| >= 1
    requires g == Glue(p, q) && h == Glue([p[|p| - 1]], q)
    ensures g[..|g| - 1] == p[..|p| - 1] + h[..|h| - 1]
    ensures g[|g| - 1] == h[|h| - 1]
  {
    GlueParts(p, q);
  }

  /** The old tail followed by `more` splits as the tail glued to the
      pieces of `more`. */
  lemma TailSplit(text: string, more: string)
    ensures SplitLines(Tail(text) + more) == Glue([Tail(text)], SplitLines(more))
  {
    var t := Tail(text);
    TailHasNoLineFeed(text);
    NoLineFeed(t);
    SplitConcat(t, more);
  }

  /** Gluing on more pieces keeps all but the last piece, and the rest is
      the last piece glued to the new ones. */
  lemma GlueParts(p: seq<string>, q: seq<string>)
    requires |p| >= 1 && |q| >= 1
    ensures var g := Glue(p, q);
      var h := Glue([p[|p| - 1]], q);
      && g[..|g| - 1] == p[..|p| - 1] + h[..|h| - 1]
      && g[|g| - 1] == h[|h| - 1]
  {
    var h := Glue([p[|p| - 1]], q);
    assert [p[|p| - 1]][..0] == [];
    assert h == [p[|p| - 1] + q[0]] + q[1..];
    assert Glue(p, q) == p[..|p| - 1] + h;
    DropLast(p[..|p| - 1], h);
  }

  lemma DropLast<T>(a: seq<T>, r: seq<T>)
    requires |r| >= 1
    ensures (a + r)[..|a + r| - 1] == a + r[..|r| - 1]
    ensures (a + r)[|a + r| - 1] == r[|r| - 1]
  {
  }

  lemma TailHasNoLineFeed(text: string)
    ensures '\n' !in Tail(text)
  {
    SplitLinesInverse(text);
    var p := SplitLines(text);
    assert Tail(text) == p[|p| - 1];
  }

  /** Lines each followed by a line feed. */
  function Terminated(lines: seq<string>): string {
    if lines == [] then "" else lines[0] + "\n" + Terminated(lines[1..])
  }

  /** What `buffer` keeps is exactly what follows the last line feed: the
      text is its complete lines, each ended by a line feed, then the tail,
      which holds no line feed. */
  lemma {:induction false} TextIsLinesThenTail(text: string)
    ensures text == Terminated(CompleteLines(text)) + Tail(text)
    ensures '\n' !in Tail(text)
    decreases |text|
  {
    TailHasNoLineFeed(text);
    if text != [] {
      var c := text[0];
      var rest := text[1..];
      var s := SplitLines(rest);
      TextIsLinesThenTail(rest);
      assert SplitLines(text) == Cons(c, s);
      if c == '\n' {
        assert CompleteLines(text) == [""] + CompleteLines(rest);
        assert Tail(text) == Tail(rest);
      } else if |s| == 1 {
        assert CompleteLines(text) == [];
        assert Tail(text) == [c] + s[0];
        assert CompleteLines(rest) == [];
      } else {
        var cl := CompleteLines(rest);
        assert CompleteLines(text) == [[c] + cl[0]] + cl[1..];
        assert Tail(text) == Tail(rest);
        assert Terminated(CompleteLines(text)) == [c] + Terminated(cl);
      }
      assert text == [c] + rest;
    }
  }

  /** The decoded text of the chunks read so far. */
  function Concat(chunks: seq<string>): string {
    if chunks == [] then "" else Concat(chunks[..|chunks| - 1]) + chunks[|chunks| - 1]
  }

  // ---------------------------------------------------------------------
  // Deltas and the tool-call buffer
  // ---------------------------------------------------------------------

  /** One `tool_calls` entry of a delta. */
  datatype ToolCallFragment = ToolCallFragment(index: nat, name: Option<string>, arguments: Option<string>)

  /** A choice's `delta`: its optional text and optional tool-call fragments. */
  datatype Delta = Delta(content: Option<string>, toolCalls: Option<seq<ToolCallFragment>>)

  /** A validated stream message: the deltas of its `choices`. */
  datatype KimiDelta = KimiDelta(choices: seq<Delta>)

  /** How a payload becomes a message: `None` when it is not valid JSON or
      fails the schema, which the loop skips. */
  type Decoder = string -> Option<KimiDelta>

  /** `JSON.parse` of the accumulated arguments: the value, or the message
      of the `SyntaxError` it throws. */
  type ArgumentsParser = string -> Result<Json, string>

  /** A buffered call: the latest name and the arguments so far. */
  datatype PendingCall = PendingCall(name: string, arguments: string)

  /** The `Map` from index to pending call, with its insertion order. */
  datatype Calls = Calls(entries: map<nat, PendingCall>, order: seq<nat>)

  /** The `Map`'s shape: every key once in the order, and nothing else. */
  ghost predicate Tracked(c: Calls) {
    (forall k :: k in c.order <==> k in c.entries) &&
    (forall i, j :: 0 <= i < j < |c.order| ==> c.order[i] != c.order[j])
  }

  const NoCalls: Calls := Calls(map[], [])

  /** One fragment: its index's entry is created empty if new (and takes
      the last place in the order), a non-empty name replaces the stored
      one, and non-empty arguments are appended. */
  function AddFragment(c: Calls, f: ToolCallFragment): (r: Calls)
    ensures r.entries.Keys == c.entries.Keys + {f.index}
    ensures forall k :: k in c.entries && k != f.index ==> r.entries[k] == c.entries[k]
    ensures r.order == if f.index in c.entries then c.order else c.order + [f.index]
    ensures Tracked(c) ==> Tracked(r)
  {
    var existing := if f.index in c.entries then c.entries[f.index] else PendingCall("", "");
    var name := if f.name.Some? && f.name.value != "" then f.name.value else existing.name;
    var arguments := if f.arguments.Some? && f.arguments.value != "" then existing.arguments + f.arguments.value
                     else existing.arguments;
    Calls(c.entries[f.index := PendingCall(name, arguments)],
          if f.index in c.entries then c.order else c.order + [f.index])
  }

  /** The fragments of a delta, one after the other. */
  function AddFragments(c: Calls, fragments: seq<ToolCallFragment>): (r: Calls)
    ensures Tracked(c) ==> Tracked(r)
  {
    if fragments == [] then c
    else AddFragment(AddFragments(c, fragments[..|fragments| - 1]), fragments[|fragments| - 1])
  }

  /** The arguments sent for index `i`, concatenated in order. */
  function ArgumentsFor(fragments: seq<ToolCallFragment>, i: nat): string {
    if fragments == [] then ""
    else
      var last := fragments[|fragments| - 1];
      ArgumentsFor(fragments[..|fragments| - 1], i) +
        (if last.index == i && last.arguments.Some? then last.arguments.value else "")
  }

  /** The last non-empty name sent for index `i`, or "". */
  function NameFor(fragments: seq<ToolCallFragment>, i: nat): string {
    if fragments == [] then ""
    else
      var last := fragments[|fragments| - 1];
      if last.index == i && last.name.Some? && last.name.value != "" then last.name.value
      else NameFor(fragments[..|fragments| - 1], i)
  }

  /** What the buffer holds after a run of fragments, starting empty: an
      entry for exactly the indices that occurred, each with the last name
      given for it and all of its arguments in arrival order. */
  lemma {:induction false} AddFragmentsCollects(fragments: seq<ToolCallFragment>, i: nat)
    ensures i in AddFragments(NoCalls, fragments).entries <==> exists f :: f in fragments && f.index == i
    ensures i in AddFragments(NoCalls, fragments).entries ==>
      AddFragments(NoCalls, fragments).entries[i] == PendingCall(NameFor(fragments, i), ArgumentsFor(fragments, i))
  {
    AddFragmentsKeys(fragments, i);
    if fragments != [] {
      var init := fragments[..|fragments| - 1];
      AddFragmentsCollects(init, i);
      var before := AddFragments(NoCalls, init);
      if i !in before.entries {
        NothingFor(init, i);
      }
      AddFragmentEntry(before, fragments[|fragments| - 1], i, NameFor(init, i), ArgumentsFor(init, i));
    }
  }

  /** The buffer has an entry for exactly the indices that occurred. */
  lemma {:induction false} AddFragmentsKeys(fragments: seq<ToolCallFragment>, i: nat)
    ensures i in AddFragments(NoCalls, fragments).entries <==> exists f :: f in fragments && f.index == i
  {
    if fragments != [] {
      var init := fragments[..|fragments| - 1];
      var last := fragments[|fragments| - 1];
      AddFragmentsKeys(init, i);
      assert forall f :: f in fragments <==> f in init || f == last;
    }
  }

  /** One fragment's effect on the entry for index `i`, from an entry that
      holds `name` and `arguments` (or from no entry, as if both were ""). */
  lemma AddFragmentEntry(before: Calls, last: ToolCallFragment, i: nat, name: string, arguments: string)
    requires i in before.entries ==> before.entries[i] == PendingCall(name, arguments)
    requires i !in before.entries ==> name == "" && arguments == ""
    ensures var after := AddFragment(before, last).entries;
      && (i in after <==> i in before.entries || last.index == i)
      && (i in after ==> after[i] == PendingCall(
            if last.index == i && last.name.Some? && last.name.value != "" then last.name.value else name,
            arguments + (if last.index == i && last.arguments.Some? then last.arguments.value else "")))
  {
  }

  lemma {:induction false} NothingFor(fragments: seq<ToolCallFragment>, i: nat)
    requires forall f :: f in fragments ==> f.index != i
    ensures NameFor(fragments, i) == "" && ArgumentsFor(fragments, i) == ""
  {
    if fragments != [] {
      var init := fragments[..|fragments| - 1];
      assert forall f :: f in init ==> f in fragments;
      NothingFor(init, i);
    }
  }

  // ---------------------------------------------------------------------
  // Handling a line
  // ---------------------------------------------------------------------

  /** What the lines handled so far have produced: the text chunks yielded
      and the tool-call buffer. */
  datatype LineState = LineState(emitted: seq<StreamChunk>, calls: Calls)

  const Start: LineState := LineState([], NoCalls)

  const DataPrefix: string := "data: "
  const Done: string := "[DONE]"

  /** The payload of a `data: ` line, trimmed; `None` for any other line. */
  function Payload(line: string): Option<string> {
    if DataPrefix <= line then Some(Trim(line[|DataPrefix|..])) else None
  }

  /** `choices[0]?.delta` of a decoded payload, if it is one the loop uses. */
  function DeltaOf(line: string, decode: Decoder): Option<Delta> {
    var payload := Payload(line);
    if payload.None? || payload.value == "" || payload.value == Done then None
    else
      var message := decode(payload.value);
      if message.None? || message.value.choices == [] then None
      else Some(message.value.choices[0])
  }

  /** One line of the `for` loop: lines that are not data, an empty payload,
      "[DONE]" and payloads that do not decode change nothing; otherwise a
      non-empty text is yielded and the fragments are buffered. */
  function Step(st: LineState, line: string, decode: Decoder): (r: LineState)
    ensures Tracked(st.calls) ==> Tracked(r.calls)
    ensures DeltaOf(line, decode).None? ==> r == st
    ensures st.emitted <= r.emitted && |r.emitted| <= |st.emitted| + 1
  {
    var delta := DeltaOf(line, decode);
    if delta.None? then st
    else
      var d := delta.value;
      LineState(
        st.emitted + (if d.content.Some? && d.content.value != "" then [TextChunk(d.content.value)] else []),
        if d.toolCalls.Some? then AddFragments(st.calls, d.toolCalls.value) else st.calls)
  }

  /** The lines handled in order. */
  function ProcessLines(st: LineState, lines: seq<string>, decode: Decoder): (r: LineState)
    ensures Tracked(st.calls) ==> Tracked(r.calls)
    ensures st.emitted <= r.emitted
  {
    if lines == [] then st
    else Step(ProcessLines(st, lines[..|lines| - 1], decode), lines[|lines| - 1], decode)
  }

  /** Handling two runs of lines is handling their concatenation. */
  lemma {:induction false} ProcessLinesAppend(st: LineState, xs: seq<string>, ys: seq<string>, decode: Decoder)
    ensures ProcessLines(st, xs + ys, decode) == ProcessLines(ProcessLines(st, xs, decode), ys, decode)
  {
    if ys == [] {
      assert xs + ys == xs;
    } else {
      assert (xs + ys)[..|xs + ys| - 1] == xs + ys[..|ys| - 1];
      ProcessLinesAppend(st, xs, ys[..|ys| - 1], decode);
    }
  }

  /** The fragments the lines carry, in order: those of every delta the
      loop uses. */
  function FragmentsOf(lines: seq<string>, decode: Decoder): seq<ToolCallFragment> {
    if lines == [] then []
    else
      var delta := DeltaOf(lines[|lines| - 1], decode);
      FragmentsOf(lines[..|lines| - 1], decode) +
        (if delta.Some? && delta.value.toolCalls.Some? then delta.value.toolCalls.value else [])
  }

  /** The text chunks the lines yield, in order: one per delta with a
      non-empty text. */
  function TextsOf(lines: seq<string>, decode: Decoder): seq<StreamChunk> {
    if lines == [] then []
    else
      var delta := DeltaOf(lines[|lines| - 1], decode);
      TextsOf(lines[..|lines| - 1], decode) +
        (if delta.Some? && delta.value.content.Some? && delta.value.content.value != ""
         then [TextChunk(delta.value.content.value)] else [])
  }

  /** Buffering two runs of fragments is buffering their concatenation. */
  lemma {:induction false} AddFragmentsAppend(c: Calls, xs: seq<ToolCallFragment>, ys: seq<ToolCallFragment>)
    ensures AddFragments(c, xs + ys) == AddFragments(AddFragments(c, xs), ys)
  {
    if ys == [] {
      assert xs + ys == xs;
    } else {
      assert (xs + ys)[..|xs + ys| - 1] == xs + ys[..|ys| - 1];
      AddFragmentsAppend(c, xs, ys[..|ys| - 1]);
    }
  }

  /** From the start, the lines yield their text chunks in order, and the
      buffer holds exactly what their fragments, taken one after the other
      across all lines, put there. */
  lemma {:induction false} ProcessLinesCollects(lines: seq<string>, decode: Decoder)
    ensures ProcessLines(Start, lines, decode) ==
      LineState(TextsOf(lines, decode), AddFragments(NoCalls, FragmentsOf(lines, decode)))
  {
    if lines != [] {
      var init := lines[..|lines| - 1];
      ProcessLinesCollects(init, decode);
      var st := ProcessLines(Start, init, decode);
      var last := lines[|lines| - 1];
      var delta := DeltaOf(last, decode);
      var r := Step(st, last, decode);
      assert ProcessLines(Start, lines, decode) == r;
      if delta.None? {
        assert r == st;
        assert FragmentsOf(lines, decode) == FragmentsOf(init, decode) by {
          assert FragmentsOf(lines, decode) == FragmentsOf(init, decode) + [];
        }
        assert TextsOf(lines, decode) == TextsOf(init, decode) by {
          assert TextsOf(lines, decode) == TextsOf(init, decode) + [];
        }
      } else {
        var d := delta.value;
        var more := if d.toolCalls.Some? then d.toolCalls.value else [];
        assert FragmentsOf(lines, decode) == FragmentsOf(init, decode) + more;
        assert r.calls == AddFragments(st.calls, more) by {
          if d.toolCalls.None? {
            assert AddFragments(st.calls, []) == st.calls;
          }
        }
        AddFragmentsAppend(NoCalls, FragmentsOf(init, decode), more);
        assert r.calls == AddFragments(NoCalls, FragmentsOf(lines, decode));
        assert r.emitted == TextsOf(lines, decode);
      }
      var texts, calls := TextsOf(lines, decode), AddFragments(NoCalls, FragmentsOf(lines, decode));
      assert r.emitted == texts && r.calls == calls;
      assert r == LineState(texts, calls);
    } else {
      assert ProcessLines(Start, lines, decode) == Start;
      assert TextsOf(lines, decode) == [];
      assert AddFragments(NoCalls, FragmentsOf(lines, decode)) == NoCalls;
    }
  }

  // ---------------------------------------------------------------------
  // The end of the stream
  // ---------------------------------------------------------------------

  /** What the generator yields, and the error it throws if it throws. */
  datatype StreamEnd = StreamEnd(chunks: seq<StreamChunk>, error: Option<LLMError>)

  /** The arguments text handed to `JSON.parse`: "{}" when there are none. */
  function ArgumentsText(call: PendingCall): string {
    if call.arguments == "" then "{}" else call.arguments
  }

  /** The buffered calls from position `k` of the insertion order that
      have a name, in that order. */
  function NamedFrom(c: Calls, k: nat): (r: seq<PendingCall>)
    requires Tracked(c) && k <= |c.order|
    ensures |r| <= |c.order| - k
    ensures forall j :: 0 <= j < |r| ==> r[j].name != ""
    decreases |c.order| - k
  {
    if k == |c.order| then []
    else
      var call := c.entries[c.order[k]];
      (if call.name == "" then [] else [call]) + NamedFrom(c, k + 1)
  }

  /** Exactly the entries with a name at position `k` or later are there. */
  lemma {:induction false} NamedFromMembers(c: Calls, k: nat, x: PendingCall)
    requires Tracked(c) && k <= |c.order|
    ensures x in NamedFrom(c, k) <==>
      x.name != "" && exists p :: k <= p < |c.order| && c.order[p] in c.entries && c.entries[c.order[p]] == x
    decreases |c.order| - k
  {
    if k < |c.order| {
      NamedFromMembers(c, k + 1, x);
      var call := c.entries[c.order[k]];
      assert NamedFrom(c, k) == (if call.name == "" then [] else [call]) + NamedFrom(c, k + 1);
      if x.name != "" && x == call {
        assert k <= k < |c.order| && c.order[k] in c.entries && c.entries[c.order[k]] == x;
      }
    }
  }

  /** The position of the first call whose arguments do not parse, or the
      number of calls when all of them parse. */
  function FirstFailure(calls: seq<PendingCall>, parse: ArgumentsParser): (n: nat)
    ensures n <= |calls|
    ensures forall j :: 0 <= j < n ==> parse(ArgumentsText(calls[j])).Ok?
    ensures n < |calls| ==> parse(ArgumentsText(calls[n])).Err?
  {
    if calls == [] || parse(ArgumentsText(calls[0])).Err? then 0
    else 1 + FirstFailure(calls[1..], parse)
  }

  /** The final `for` loop from position `k` of the insertion order: a
      call without a name is skipped; arguments that do not parse throw,
      and the error goes through `handleError`. */
  function EmitFrom(c: Calls, k: nat, parse: ArgumentsParser): (r: StreamEnd)
    requires Tracked(c) && k <= |c.order|
    ensures |r.chunks| <= |c.order| - k
    ensures forall j :: 0 <= j < |r.chunks| ==> r.chunks[j].FunctionCallChunk? && r.chunks[j].functionName != ""
    decreases |c.order| - k
  {
    if k == |c.order| then StreamEnd([], None)
    else
      var call := c.entries[c.order[k]];
      if call.name == "" then EmitFrom(c, k + 1, parse)
      else
        match parse(ArgumentsText(call))
        case Err(message) => StreamEnd([], Some(Unavailable(Kimi.UnexpectedError(message))))
        case Ok(arguments) =>
          var rest := EmitFrom(c, k + 1, parse);
          StreamEnd([FunctionCallChunk(call.name, arguments)] + rest.chunks, rest.error)
  }

  /** `r` is what the final loop makes of the named calls `named`: a
      function call for each, in order, with its parsed arguments, up to
      the first whose arguments do not parse, which is thrown as an
      unexpected error with the parser's message; nothing is thrown exactly
      when all of them parse. */
  ghost predicate EmitsNamed(r: StreamEnd, named: seq<PendingCall>, parse: ArgumentsParser) {
    var n := FirstFailure(named, parse);
    && |r.chunks| == n
    && (forall j :: 0 <= j < n ==>
          r.chunks[j] == FunctionCallChunk(named[j].name, parse(ArgumentsText(named[j])).value))
    && (r.error.None? <==> n == |named|)
    && (n < |named| ==>
          r.error == Some(Unavailable(Kimi.UnexpectedError(parse(ArgumentsText(named[n])).error))))
  }

  /** A call whose arguments parse, in front of calls handled as `rest`,
      is yielded first and the rest follow. */
  lemma EmitsNamedCons(call: PendingCall, named: seq<PendingCall>, rest: StreamEnd, parse: ArgumentsParser)
    requires parse(ArgumentsText(call)).Ok?
    requires EmitsNamed(rest, named, parse)
    ensures EmitsNamed(StreamEnd([FunctionCallChunk(call.name, parse(ArgumentsText(call)).value)] + rest.chunks, rest.error),
                       [call] + named, parse)
  {
    var all := [call] + named;
    assert all[1..] == named;
    var r := StreamEnd([FunctionCallChunk(call.name, parse(ArgumentsText(call)).value)] + rest.chunks, rest.error);
    var n := FirstFailure(all, parse);
    assert n == 1 + FirstFailure(named, parse);
    forall j | 0 <= j < n
      ensures r.chunks[j] == FunctionCallChunk(all[j].name, parse(ArgumentsText(all[j])).value)
    {
      if j > 0 {
        assert r.chunks[j] == rest.chunks[j - 1];
        assert all[j] == named[j - 1];
      }
    }
  }

  /** The loop from position `k` does with the buffer what `EmitsNamed`
      says of its named calls. */
  lemma {:induction false} EmitFromCalls(c: Calls, k: nat, parse: ArgumentsParser)
    requires Tracked(c) && k <= |c.order|
    ensures EmitsNamed(EmitFrom(c, k, parse), NamedFrom(c, k), parse)
    decreases |c.order| - k
  {
    if k < |c.order| {
      EmitFromCalls(c, k + 1, parse);
      var call := c.entries[c.order[k]];
      var named := NamedFrom(c, k);
      var rest := EmitFrom(c, k + 1, parse);
      if call.name == "" {
        assert named == NamedFrom(c, k + 1) by {
          assert named == [] + NamedFrom(c, k + 1);
        }
        assert EmitFrom(c, k, parse) == rest;
      } else {
        assert named == [call] + NamedFrom(c, k + 1);
        match parse(ArgumentsText(call))
        case Err(message) =>
          assert named[0] == call;
          assert FirstFailure(named, parse) == 0;
        case Ok(arguments) =>
          assert EmitFrom(c, k, parse) == StreamEnd([FunctionCallChunk(call.name, arguments)] + rest.chunks, rest.error);
          EmitsNamedCons(call, NamedFrom(c, k + 1), rest, parse);
      }
    }
  }

  /** Everything the generator does with the chunks it reads: the text
      chunks of the complete lines in order, then the buffered calls. The
      unfinished last line is never handled. */
  function StreamSpec(chunks: seq<string>, decode: Decoder, parse: ArgumentsParser): StreamEnd {
    var st := ProcessLines(Start, CompleteLines(Concat(chunks)), decode);
    var calls := EmitFrom(st.calls, 0, parse);
    StreamEnd(st.emitted + calls.chunks, calls.error)
  }

  /** The whole stream in terms of the fragments its complete lines carry:
      first every text chunk, then, for the indices in the order they first
      occurred, the call with the last name sent for the index and all of
      its arguments in arrival order, named ones only, up to the first
      whose arguments do not parse. */
  lemma StreamSpecCalls(chunks: seq<string>, decode: Decoder, parse: ArgumentsParser)
    ensures Tracked(ProcessLines(Start, CompleteLines(Concat(chunks)), decode).calls)
    ensures var lines := CompleteLines(Concat(chunks));
      var fragments := FragmentsOf(lines, decode);
      var c := ProcessLines(Start, lines, decode).calls;
      var calls := EmitFrom(c, 0, parse);
      && (forall i :: i in c.entries <==> exists f :: f in fragments && f.index == i)
      && (forall i :: i in c.entries ==> c.entries[i] == PendingCall(NameFor(fragments, i), ArgumentsFor(fragments, i)))
      && StreamSpec(chunks, decode, parse) == StreamEnd(TextsOf(lines, decode) + calls.chunks, calls.error)
      && EmitsNamed(calls, NamedFrom(c, 0), parse)
  {
    var lines := CompleteLines(Concat(chunks));
    var fragments := FragmentsOf(lines, decode);
    ProcessLinesCollects(lines, decode);
    var c := ProcessLines(Start, lines, decode).calls;
    assert c == AddFragments(NoCalls, fragments);
    forall i
      ensures i in c.entries <==> exists f :: f in fragments && f.index == i
      ensures i in c.entries ==> c.entries[i] == PendingCall(NameFor(fragments, i), ArgumentsFor(fragments, i))
    {
      AddFragmentsCollects(fragments, i);
    }
    EmitFromCalls(c, 0, parse);
  }

  // ---------------------------------------------------------------------
  // The loops
  // ---------------------------------------------------------------------

  /** The inner `for (const toolCall of delta.tool_calls)` loop, updating
      the buffer entry by entry. */
  method AddToolCalls(c: Calls, fragments: seq<ToolCallFragment>) returns (r: Calls)
    ensures r == AddFragments(c, fragments)
  {
    r := c;
    for j := 0 to |fragments|
      invariant r == AddFragments(c, fragments[..j])
    {
      assert fragments[..j + 1][..j] == fragments[..j];
      var f := fragments[j];
      var existing := if f.index in r.entries then r.entries[f.index] else PendingCall("", "");
      var isNew := f.index !in r.entries;
      if f.name.Some? && f.name.value != "" {
        existing := existing.(name := f.name.value);
      }
      if f.arguments.Some? && f.arguments.value != "" {
        existing := existing.(arguments := existing.arguments + f.arguments.value);
      }
      r := Calls(r.entries[f.index := existing], if isNew then r.order + [f.index] else r.order);
    }
    assert fragments[..|fragments|] == fragments;
  }

  /** One line of the `for (const line of lines)` loop. */
  method HandleLine(st: LineState, line: string, decode: Decoder) returns (r: LineState)
    ensures r == Step(st, line, decode)
  {
    r := st;
    if !(DataPrefix <= line) {
      return;
    }
    var payload := Trim(line[|DataPrefix|..]);
    if payload == "" || payload == Done {
      return;
    }
    var parsed := decode(payload);
    if parsed.None? || parsed.value.choices == [] {
      return;
    }
    var delta := parsed.value.choices[0];
    if delta.content.Some? && delta.content.value != "" {
      r := r.(emitted := r.emitted + [TextChunk(delta.content.value)]);
    }
    if delta.toolCalls.Some? {
      var calls := AddToolCalls(r.calls, delta.toolCalls.value);
      r := r.(calls := calls);
    }
  }

  /** One turn of the `while` loop: the chunk joins the buffer, the
      complete lines are handled in order, and the tail is kept. */
  method ReadChunk(st: LineState, buffer: string, chunk: string, decode: Decoder) returns (r: LineState, rest: string)
    ensures rest == Tail(buffer + chunk)
    ensures r == ProcessLines(st, CompleteLines(buffer + chunk), decode)
  {
    var lines := SplitLines(buffer + chunk);
    rest := lines[|lines| - 1];
    lines := lines[..|lines| - 1];
    r := st;
    for j := 0 to |lines|
      invariant r == ProcessLines(st, lines[..j], decode)
    {
      assert lines[..j + 1][..j] == lines[..j];
      r := HandleLine(r, lines[j], decode);
    }
    assert lines[..|lines|] == lines;
  }

  /** One more chunk read: the complete lines of the longer text are those
      handled so far followed by those of the buffer plus the chunk. */
  lemma ReadStep(chunks: seq<string>, i: nat, decode: Decoder)
    requires i < |chunks|
    ensures var text := Concat(chunks[..i]);
      && Tail(Concat(chunks[..i + 1])) == Tail(Tail(text) + chunks[i])
      && ProcessLines(Start, CompleteLines(Concat(chunks[..i + 1])), decode)
         == ProcessLines(ProcessLines(Start, CompleteLines(text), decode), CompleteLines(Tail(text) + chunks[i]), decode)
  {
    var text := Concat(chunks[..i]);
    assert chunks[..i + 1][..i] == chunks[..i];
    assert Concat(chunks[..i + 1]) == text + chunks[i];
    SplitAppend(text, chunks[i]);
    ProcessLinesAppend(Start, CompleteLines(text), CompleteLines(Tail(text) + chunks[i]), decode);
  }

  /** The `while` loop: every chunk read, the complete lines handled and
      the unfinished tail left in the buffer. */
  method ReadAll(chunks: seq<string>, decode: Decoder) returns (st: LineState, buffer: string)
    ensures st == ProcessLines(Start, CompleteLines(Concat(chunks)), decode)
    ensures buffer == Tail(Concat(chunks))
  {
    buffer := "";
    st := Start;
    var i := 0;
    while i < |chunks|
      invariant 0 <= i <= |chunks|
      invariant buffer == Tail(Concat(chunks[..i]))
      invariant st == ProcessLines(Start, CompleteLines(Concat(chunks[..i])), decode)
    {
      ReadStep(chunks, i, decode);
      st, buffer := ReadChunk(st, buffer, chunks[i], decode);
      i := i + 1;
    }
    assert chunks[..|chunks|] == chunks;
  }

  /** The final `for (const toolCall of toolCallBuffer.values())` loop. */
  method EmitCalls(c: Calls, parse: ArgumentsParser) returns (calls: seq<StreamChunk>, error: Option<LLMError>)
    requires Tracked(c)
    ensures StreamEnd(calls, error) == EmitFrom(c, 0, parse)
  {
    calls := [];
    for k := 0 to |c.order|
      invariant EmitFrom(c, 0, parse) == StreamEnd(calls + EmitFrom(c, k, parse).chunks, EmitFrom(c, k, parse).error)
    {
      var call := c.entries[c.order[k]];
      if call.name != "" {
        var arguments := parse(ArgumentsText(call));
        if arguments.Err? {
          error := Some(Unavailable(Kimi.UnexpectedError(arguments.error)));
          return;
        }
        calls := calls + [FunctionCallChunk(call.name, arguments.value)];
      }
    }
    error := None;
  }

  /** The body of `streamComplete` from the first read to the end: it
      yields exactly what `StreamSpec` says. */
  method StreamComplete(chunks: seq<string>, decode: Decoder, parse: ArgumentsParser) returns (out: seq<StreamChunk>, error: Option<LLMError>)
    ensures StreamEnd(out, error) == StreamSpec(chunks, decode, parse)
  {
    var st, buffer := ReadAll(chunks, decode);
    var calls;
    calls, error := EmitCalls(st.calls, parse);
    out := st.emitted + calls;
  }

  const NullBody: string := "Response body is null"

  /** `streamComplete` as a whole, given what the fetch did and the decoded
      chunks of the body (`None` for a null body): a failed fetch, a failed
      status or a null body throw through `handleError` before anything is
      yielded, and otherwise the body is read as `StreamSpec` says. */
  function StreamOutcome(s: Kimi.KimiSettings, outcome: HttpOutcome, body: Option<seq<string>>,
                         decode: Decoder, parse: ArgumentsParser,
                         showStatus: int -> string, showTimeout: real -> string): (r: StreamEnd)
    ensures outcome.NotSent? ==> r == StreamEnd([], Some(Kimi.HandleError(s, outcome.failure, showTimeout)))
    ensures outcome.Sent? && !outcome.reply.ok ==>
      r == StreamEnd([], Some(Kimi.HandleErrorResponse(outcome.reply.status, outcome.reply.text, showStatus)))
    ensures outcome.Sent? && outcome.reply.ok && body.None? ==> r == StreamEnd([], Some(Unavailable(NullBody)))
    ensures outcome.Sent? && outcome.reply.ok && body.Some? ==> r == StreamSpec(body.value, decode, parse)
  {
    match outcome
    case NotSent(failure) => StreamEnd([], Some(Kimi.HandleError(s, failure, showTimeout)))
    case Sent(reply) =>
      if !reply.ok then
        StreamEnd([], Some(Kimi.HandleError(s, LLM(Kimi.HandleErrorResponse(reply.status, reply.text, showStatus)), showTimeout)))
      else if body.None? then StreamEnd([], Some(Kimi.HandleError(s, LLM(Unavailable(NullBody)), showTimeout)))
      else StreamSpec(body.value, decode, parse)
  }

  /** Before the body is read, streaming and `complete` fail alike: the
      same fetch failure or failed status gives the same error, and the
      stream yields nothing. */
  lemma StreamFailsLikeComplete(s: Kimi.KimiSettings, request: CompletionRequest, outcome: HttpOutcome,
                                body: Option<seq<string>>, decode: Decoder, parse: ArgumentsParser,
                                mapperParse: Kimi.KimiParser, showStatus: int -> string, showTimeout: real -> string)
    requires outcome.NotSent? || !outcome.reply.ok
    ensures var stream := StreamOutcome(s, outcome, body, decode, parse, showStatus, showTimeout);
      var complete := Kimi.KimiComplete(s, request, outcome, mapperParse, showStatus, showTimeout);
      && stream.chunks == []
      && complete.Err?
      && stream.error == Some(complete.error)
  {
  }

  // ---------------------------------------------------------------------
  // What the parser can and cannot yield
  // ---------------------------------------------------------------------

  /** A decoder that accepts nothing leaves every line without effect. */
  lemma {:induction false} SilentDecoderChangesNothing(st: LineState, lines: seq<string>, decode: Decoder)
    requires forall payload :: decode(payload).None?
    ensures ProcessLines(st, lines, decode) == st
  {
    if lines != [] {
      SilentDecoderChangesNothing(st, lines[..|lines| - 1], decode);
    }
  }

  /** The delta schema is an object schema: it rejects every string. */
  ghost predicate RejectsStrings(validate: Json -> Option<KimiDelta>) {
    forall s :: validate(JString(s)).None?
  }

  /** The decoder as written: the schema is applied to the payload string
      itself, not to the JSON it holds. */
  function AsWrittenDecoder(validate: Json -> Option<KimiDelta>): Decoder {
    payload => validate(JString(payload))
  }

  /** As written, the stream yields nothing at all, whatever the server
      sends: no text and, since no fragment is ever buffered, no call. */
  lemma AsWrittenYieldsNothing(chunks: seq<string>, validate: Json -> Option<KimiDelta>, parse: ArgumentsParser)
    requires RejectsStrings(validate)
    ensures StreamSpec(chunks, AsWrittenDecoder(validate), parse) == StreamEnd([], None)
  {
    var decode := AsWrittenDecoder(validate);
    forall payload
      ensures decode(payload).None?
    {
      assert decode(payload) == validate(JString(payload));
    }
    SilentDecoderChangesNothing(Start, CompleteLines(Concat(chunks)), decode);
  }

  /** The decoder the loop's `catch` is written for: `JSON.parse` first
      (a payload that is not JSON is skipped), then the schema. */
  function ParsedDecoder(jsonParse: string -> Option<Json>, validate: Json -> Option<KimiDelta>): Decoder {
    payload => if jsonParse(payload).Some? then validate(jsonParse(payload).value) else None
  }

  /** With the JSON parsed first, a single `data: ` line whose first delta
      carries text yields exactly that text. */
  lemma ParsedDecoderYieldsText(payload: string, text: string, jsonParse: string -> Option<Json>,
                                validate: Json -> Option<KimiDelta>, parse: ArgumentsParser)
    requires Trim(payload) == payload && payload != "" && payload != Done && '\n' !in payload
    requires jsonParse(payload).Some?
    requires validate(jsonParse(payload).value) == Some(KimiDelta([Delta(Some(text), None)]))
    requires text != ""
    ensures StreamSpec([DataPrefix + payload + "\n"], ParsedDecoder(jsonParse, validate), parse)
      == StreamEnd([TextChunk(text)], None)
  {
    var line := DataPrefix + payload;
    var decode := ParsedDecoder(jsonParse, validate);
    assert Concat([line + "\n"]) == line + "\n" by {
      assert [line + "\n"][..0] == [];
    }
    assert '\n' !in line by {
      assert forall i :: 0 <= i < |line| ==> line[i] == if i < |DataPrefix| then DataPrefix[i] else payload[i - |DataPrefix|];
    }
    OneLineThenFeed(line);
    assert CompleteLines(line + "\n") == [line];
    assert line[|DataPrefix|..] == payload;
    assert DeltaOf(line, decode) == Some(Delta(Some(text), None));
    assert [line][..0] == [];
    assert ProcessLines(Start, [line], decode) == LineState([TextChunk(text)], NoCalls);
  }

  lemma {:induction false} NoLineFeed(line: string)
    requires '\n' !in line
    ensures SplitLines(line) == [line]
  {
    if line != [] {
      assert '\n' !in line[1..];
      NoLineFeed(line[1..]);
      assert line == [line[0]] + line[1..];
    }
  }

  lemma {:induction false} OneLineThenFeed(line: string)
    requires '\n' !in line
    ensures SplitLines(line + "\n") == [line, ""]
  {
    if line == [] {
      assert line + "\n" == "\n";
    } else {
      assert (line + "\n")[1..] == line[1..] + "\n";
      assert '\n' !in line[1..];
      OneLineThenFeed(line[1..]);
      assert line == [line[0]] + line[1..];
    }
  }
}
