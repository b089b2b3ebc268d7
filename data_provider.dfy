/** The benchmark's text source (benchmark/data-provider.ts): the non-blank
    lines of the text file, and the word-by-word token stream that imitates a
    model's streamed answer. The file's content is an input. */
module DataProvider {
  import opened JsText

  // ---------------------------------------------------------------------
  // Characters, splitting and joining

  /** The pieces between the separator characters, empty pieces included
      (`String.prototype.split` with a one-character separator). */
  function Fields(s: string, sep: char -> bool): (r: seq<string>)
    ensures |r| >= 1
    ensures forall i, k :: 0 <= i < |r| && 0 <= k < |r[i]| ==> !sep(r[i][k])
  {
    if s == [] then [""]
    else
      var rest := Fields(s[1..], sep);
      if sep(s[0]) then [""] + rest
      else
        assert forall k :: 1 <= k < |[s[0]] + rest[0]| ==> ([s[0]] + rest[0])[k] == rest[0][k - 1];
        [[s[0]] + rest[0]] + rest[1..]
  }

  /** `parts.join(sep)` for a one-character separator. */
  function Join(parts: seq<string>, sep: char): string
    requires |parts| >= 1
  {
    if |parts| == 1 then parts[0] else parts[0] + [sep] + Join(parts[1..], sep)
  }

  /** Splitting at a character and joining with it gives back the text. */
  lemma {:induction false} JoinFields(s: string, sep: char -> bool, ch: char)
    requires forall c :: sep(c) <==> c == ch
    ensures Join(Fields(s, sep), ch) == s
  {
    if s != [] {
      JoinFields(s[1..], sep, ch);
      var rest := Fields(s[1..], sep);
      if sep(s[0]) {
        assert s == [ch] + s[1..];
      } else if |rest| == 1 {
        assert s == [s[0]] + s[1..];
      } else {
        assert [s[0]] + rest[0] + [ch] + Join(rest[1..], ch) == [s[0]] + (rest[0] + [ch] + Join(rest[1..], ch));
        assert s == [s[0]] + s[1..];
      }
    }
  }

  function Filter<T>(s: seq<T>, keep: T -> bool): seq<T> {
    if s == [] then [] else (if keep(s[0]) then [s[0]] else []) + Filter(s[1..], keep)
  }

  /** Filtering keeps exactly the elements that pass, and keeps their order. */
  lemma {:induction false} FilterMembers<T>(s: seq<T>, keep: T -> bool)
    ensures forall x :: x in Filter(s, keep) <==> x in s && keep(x)
  {
    if s != [] {
      FilterMembers(s[1..], keep);
      assert s == [s[0]] + s[1..];
    }
  }

  lemma {:induction false} FilterAppend<T>(s: seq<T>, t: seq<T>, keep: T -> bool)
    ensures Filter(s + t, keep) == Filter(s, keep) + Filter(t, keep)
  {
    if s != [] {
      assert (s + t)[0] == s[0] && (s + t)[1..] == s[1..] + t;
      FilterAppend(s[1..], t, keep);
    } else {
      assert s + t == t;
    }
  }

  // ---------------------------------------------------------------------
  // Lines

  predicate IsNewline(c: char) {
    c == '\n'
  }

  predicate NotBlank(line: string) {
    |Trim(line)| > 0
  }

  /** `content.split("\n").filter((line) => line.trim().length > 0)` */
  function Lines(content: string): seq<string> {
    Filter(Fields(content, IsNewline), NotBlank)
  }

  /** The lines kept are exactly the lines of the text with a visible
      character; none of them holds a line feed. */
  lemma LinesAreVisibleLines(content: string)
    ensures forall line :: line in Lines(content) <==>
      line in Fields(content, IsNewline) && HasVisibleChar(line)
    ensures forall line :: line in Lines(content) ==> '\n' !in line
  {
    FilterMembers(Fields(content, IsNewline), NotBlank);
    forall line ensures NotBlank(line) <==> HasVisibleChar(line) {
      TrimNonEmptyIffVisible(line);
    }
    forall line | line in Lines(content) ensures '\n' !in line {
      var i :| 0 <= i < |Fields(content, IsNewline)| && Fields(content, IsNewline)[i] == line;
    }
  }

  // ---------------------------------------------------------------------
  // Words and tokens

  predicate NonEmpty(w: string) {
    |w| > 0
  }

  /** `line.split(/\s+/).filter((w) => w.length > 0)`: splitting at every
      white-space character and dropping the empty pieces gives the same
      words as splitting at runs of white space. */
  function Words(line: string): (ws: seq<string>)
    ensures forall i :: 0 <= i < |ws| ==> |ws[i]| > 0
    ensures forall i, k :: 0 <= i < |ws| && 0 <= k < |ws[i]| ==> !IsJsSpace(ws[i][k])
  {
    var ws := Filter(Fields(line, IsJsSpace), NonEmpty);
    FilterMembers(Fields(line, IsJsSpace), NonEmpty);
    assert forall i :: 0 <= i < |ws| ==> ws[i] in ws;
    ws
  }

  /** The words joined by single spaces (`accumulated` after each word). */
  function JoinWords(ws: seq<string>): string {
    if ws == [] then ""
    else if |ws| == 1 then ws[0]
    else JoinWords(ws[..|ws| - 1]) + " " + ws[|ws| - 1]
  }

  datatype StreamToken = StreamToken(lineIndex: nat, word: string, accumulated: string, isComplete: bool)

  /** The tokens the inner loop yields, one per word. */
  function WordTokens(lineIndex: nat, ws: seq<string>): (ts: seq<StreamToken>)
    ensures |ts| == |ws|
    ensures forall w :: 0 <= w < |ts| ==> ts[w] == StreamToken(lineIndex, ws[w], JoinWords(ws[..w + 1]), false)
  {
    seq(|ws|, w requires 0 <= w < |ws| => StreamToken(lineIndex, ws[w], JoinWords(ws[..w + 1]), false))
  }

  /** The tokens of one line: one per word, then the completion token. */
  function LineTokens(lineIndex: nat, line: string): (ts: seq<StreamToken>)
    ensures |ts| == |Words(line)| + 1
  {
    WordTokens(lineIndex, Words(line)) + [StreamToken(lineIndex, "", line, true)]
  }

  /** The whole stream, starting at line `from`. */
  function StreamFrom(lines: seq<string>, from: nat): seq<StreamToken>
    requires from <= |lines|
    decreases |lines| - from
  {
    if from == |lines| then [] else LineTokens(from, lines[from]) + StreamFrom(lines, from + 1)
  }

  function Stream(lines: seq<string>): seq<StreamToken> {
    StreamFrom(lines, 0)
  }

  /** Σ (words + 1) over the lines from `from` on. */
  function TokenBudget(lines: seq<string>, from: nat): nat
    requires from <= |lines|
    decreases |lines| - from
  {
    if from == |lines| then 0 else |Words(lines[from])| + 1 + TokenBudget(lines, from + 1)
  }

  /** One token per word and one completion token per line. */
  lemma {:induction false} StreamLength(lines: seq<string>, from: nat)
    requires from <= |lines|
    ensures |StreamFrom(lines, from)| == TokenBudget(lines, from)
    decreases |lines| - from
  {
    if from < |lines| {
      StreamLength(lines, from + 1);
    }
  }

  /** `accumulated` grows word by word: the first word alone, then each
      further word after a single space. */
  lemma JoinWordsSnoc(ws: seq<string>, w: nat)
    requires w < |ws|
    ensures JoinWords(ws[..w + 1]) == if w == 0 then ws[0] else JoinWords(ws[..w]) + " " + ws[w]
  {
    assert ws[..w + 1][..w] == ws[..w];
  }

  /** Each word token's `accumulated` is the previous one's plus a space and
      the word, and the first one is the word itself. */
  lemma AccumulatedExtends(lineIndex: nat, line: string, w: nat)
    requires w < |Words(line)|
    ensures var ts := LineTokens(lineIndex, line);
      ts[w].accumulated == if w == 0 then ts[w].word else ts[w - 1].accumulated + " " + ts[w].word
  {
    var ws := Words(line);
    var wt := WordTokens(lineIndex, ws);
    assert LineTokens(lineIndex, line)[w] == wt[w];
    assert w > 0 ==> LineTokens(lineIndex, line)[w - 1] == wt[w - 1];
    JoinWordsSnoc(ws, w);
  }

  /** A token is a completion token exactly when its word is empty; the last
      token of each line is the completion token carrying the line's text. */
  lemma LineTokensShape(lineIndex: nat, line: string)
    ensures var ts := LineTokens(lineIndex, line);
      (forall k :: 0 <= k < |ts| ==> ts[k].lineIndex == lineIndex && (ts[k].isComplete <==> ts[k].word == "")) &&
      ts[|ts| - 1] == StreamToken(lineIndex, "", line, true)
  {
    var ws := Words(line);
    var wt := WordTokens(lineIndex, ws);
    var ts := LineTokens(lineIndex, line);
    forall k | 0 <= k < |ts| ensures ts[k].lineIndex == lineIndex && (ts[k].isComplete <==> ts[k].word == "") {
      if k < |ws| {
        assert ts[k] == wt[k];
        assert |ws[k]| > 0;
      }
    }
  }

  /** Line indices stay within the lines and start at `from`. */
  lemma {:induction false} StreamLineIndexBounds(lines: seq<string>, from: nat)
    requires from <= |lines|
    ensures forall k :: 0 <= k < |StreamFrom(lines, from)| ==> from <= StreamFrom(lines, from)[k].lineIndex < |lines|
    decreases |lines| - from
  {
    if from < |lines| {
      StreamLineIndexBounds(lines, from + 1);
      LineTokensShape(from, lines[from]);
      var head := LineTokens(from, lines[from]);
      var tail := StreamFrom(lines, from + 1);
      var ts := StreamFrom(lines, from);
      assert ts == head + tail;
      forall k | 0 <= k < |ts| ensures from <= ts[k].lineIndex < |lines| {
        if k < |head| {
          assert ts[k] == head[k];
        } else {
          assert ts[k] == tail[k - |head|];
        }
      }
    }
  }

  /** Line indices never decrease along the stream. */
  lemma {:induction false} StreamLineIndexOrder(lines: seq<string>, from: nat)
    requires from <= |lines|
    ensures forall j, k :: 0 <= j <= k < |StreamFrom(lines, from)| ==>
      StreamFrom(lines, from)[j].lineIndex <= StreamFrom(lines, from)[k].lineIndex
    decreases |lines| - from
  {
    if from < |lines| {
      StreamLineIndexOrder(lines, from + 1);
      StreamLineIndexBounds(lines, from + 1);
      LineTokensShape(from, lines[from]);
      assert StreamFrom(lines, from) == LineTokens(from, lines[from]) + StreamFrom(lines, from + 1);
      OrderedConcat(LineTokens(from, lines[from]), StreamFrom(lines, from + 1), from);
    }
  }

  /** Tokens all of line `b`, followed by ordered tokens of later lines,
      are ordered. */
  lemma OrderedConcat(head: seq<StreamToken>, tail: seq<StreamToken>, b: nat)
    requires forall k :: 0 <= k < |head| ==> head[k].lineIndex == b
    requires forall k :: 0 <= k < |tail| ==> b < tail[k].lineIndex
    requires forall j, k :: 0 <= j <= k < |tail| ==> tail[j].lineIndex <= tail[k].lineIndex
    ensures forall j, k :: 0 <= j <= k < |head + tail| ==> (head + tail)[j].lineIndex <= (head + tail)[k].lineIndex
  {
    var ts := head + tail;
    forall j, k | 0 <= j <= k < |ts| ensures ts[j].lineIndex <= ts[k].lineIndex {
      if k < |head| {
        assert ts[j] == head[j] && ts[k] == head[k];
      } else if j < |head| {
        assert ts[j] == head[j] && ts[k] == tail[k - |head|];
      } else {
        assert ts[j] == tail[j - |head|] && ts[k] == tail[k - |head|];
      }
    }
  }

  /** Over the whole stream, only completion tokens have an empty word. */
  lemma {:induction false} StreamCompletionTokens(lines: seq<string>, from: nat)
    requires from <= |lines|
    ensures forall k :: 0 <= k < |StreamFrom(lines, from)| ==>
      (StreamFrom(lines, from)[k].isComplete <==> StreamFrom(lines, from)[k].word == "")
    decreases |lines| - from
  {
    if from < |lines| {
      StreamCompletionTokens(lines, from + 1);
      LineTokensShape(from, lines[from]);
      var head := LineTokens(from, lines[from]);
      var tail := StreamFrom(lines, from + 1);
      var ts := StreamFrom(lines, from);
      assert ts == head + tail;
      forall k | 0 <= k < |ts| ensures ts[k].isComplete <==> ts[k].word == "" {
        if k < |head| {
          assert ts[k] == head[k];
          assert head[k].isComplete <==> head[k].word == "";
        } else {
          assert ts[k] == tail[k - |head|];
          assert tail[k - |head|].isComplete <==> tail[k - |head|].word == "";
        }
      }
    }
  }

  /** Every line contributes its completion token, carrying the line's text. */
  lemma {:induction false} StreamCoversLines(lines: seq<string>, from: nat, i: nat)
    requires from <= i < |lines|
    ensures StreamToken(i, "", lines[i], true) in StreamFrom(lines, from)
    decreases |lines| - from
  {
    LineTokensShape(from, lines[from]);
    var head := LineTokens(from, lines[from]);
    if i == from {
      assert head[|head| - 1] in head;
    } else {
      StreamCoversLines(lines, from + 1, i);
    }
  }

  /** The generator's outer loop, collecting what it yields. */
  method StreamTokens(lines: seq<string>) returns (tokens: seq<StreamToken>)
    ensures tokens == Stream(lines)
  {
    tokens := [];
    for lineIndex := 0 to |lines|
      invariant tokens + StreamFrom(lines, lineIndex) == Stream(lines)
    {
      var lineTokens := YieldLine(lineIndex, lines[lineIndex]);
      LineStep(lines, lineIndex, tokens, tokens + lineTokens);
      tokens := tokens + lineTokens;
    }
  }

  lemma LineStep(lines: seq<string>, i: nat, start: seq<StreamToken>, tokens: seq<StreamToken>)
    requires i < |lines|
    requires tokens == start + LineTokens(i, lines[i])
    ensures tokens + StreamFrom(lines, i + 1) == start + StreamFrom(lines, i)
  {
  }

  /** The body of the outer loop: the inner loop over the words, then the
      completion token. */
  method YieldLine(lineIndex: nat, line: string) returns (tokens: seq<StreamToken>)
    ensures tokens == LineTokens(lineIndex, line)
  {
    tokens := YieldWords(lineIndex, Words(line));
    tokens := tokens + [StreamToken(lineIndex, "", line, true)];
  }

  /** The inner loop: one token per word, `accumulated` growing by a space
      and the word each time. */
  method YieldWords(lineIndex: nat, words: seq<string>) returns (tokens: seq<StreamToken>)
    ensures tokens == WordTokens(lineIndex, words)
  {
    var accumulated := "";
    tokens := [];
    ghost var wordTokens := WordTokens(lineIndex, words);
    for w := 0 to |words|
      invariant w > 0 ==> accumulated == JoinWords(words[..w])
      invariant tokens == wordTokens[..w]
    {
      JoinWordsSnoc(words, w);
      if w > 0 {
        accumulated := accumulated + " " + words[w];
      } else {
        accumulated := words[w];
      }
      tokens := tokens + [StreamToken(lineIndex, words[w], accumulated, false)];
      assert wordTokens[..w + 1] == wordTokens[..w] + [wordTokens[w]];
    }
    assert wordTokens[..|words|] == wordTokens;
  }
}
