/** How a typed command line is cut into a command name and its arguments:
    `command.trim().split(/\s+(.+)/)` in the TypeScript generations and
    `command.strip().split(maxsplit=1)` in the Python one. */
module CommandLine {
  import opened Wrappers
  import opened JsText

  /** The characters `.` does not match in a JavaScript regular expression. */
  predicate IsLineTerminator(c: char) {
    c == '\n' || c == '\r' || c == '\U{2028}' || c == '\U{2029}'
  }

  /** The first white-space position at or after `i`, or `|s|`. */
  function SpaceFrom(s: string, i: nat): (k: nat)
    requires i <= |s|
    ensures i <= k <= |s|
    ensures forall j :: i <= j < k ==> !IsJsSpace(s[j])
    ensures k < |s| ==> IsJsSpace(s[k])
    decreases |s| - i
  {
    if i == |s| || IsJsSpace(s[i]) then i else SpaceFrom(s, i + 1)
  }

  /** The end of the white-space run starting at `i`. */
  function SpacesEnd(s: string, i: nat): (k: nat)
    requires i <= |s|
    ensures i <= k <= |s|
    ensures forall j :: i <= j < k ==> IsJsSpace(s[j])
    ensures k < |s| ==> !IsJsSpace(s[k])
    decreases |s| - i
  {
    if i < |s| && IsJsSpace(s[i]) then SpacesEnd(s, i + 1) else i
  }

  /** The first line terminator at or after `i`, or `|s|`: where `(.+)` stops. */
  function LineEnd(s: string, i: nat): (k: nat)
    requires i <= |s|
    ensures i <= k <= |s|
    ensures forall j :: i <= j < k ==> !IsLineTerminator(s[j])
    ensures k < |s| ==> IsLineTerminator(s[k])
    decreases |s| - i
  {
    if i == |s| || IsLineTerminator(s[i]) then i else LineEnd(s, i + 1)
  }

  datatype ParsedCommand = ParsedCommand(name: string, arguments: string)

  /** `parts[0] ?? ""` and `parts[1] ?? ""`. The first white-space run of the
      trimmed text is what `\s+` matches; `(.+)` then captures the rest of that
      line, which cannot be empty because the trimmed text does not end in
      white space. Without white space there is no match and `parts` is the
      whole text alone. */
  function SplitCommand(command: string): ParsedCommand {
    var t := Trim(command);
    var p := SpaceFrom(t, 0);
    if p == |t| then ParsedCommand(t, "")
    else
      var q := SpacesEnd(t, p);
      ParsedCommand(t[..p], t[q..LineEnd(t, q)])
  }

  /** The name is the trimmed text up to its first white space; the
      arguments are empty exactly when there is none, and otherwise are the
      rest of that line after the white-space run: they start with a visible
      character and hold no line terminator. */
  lemma SplitCommandShape(command: string)
    ensures var p := SplitCommand(command);
      && p.name <= Trim(command)
      && (forall j :: 0 <= j < |p.name| ==> !IsJsSpace(p.name[j]))
      && (forall j :: 0 <= j < |p.arguments| ==> !IsLineTerminator(p.arguments[j]))
      && (p.arguments == [] <==> p.name == Trim(command))
      && (p.arguments != [] ==> !IsJsSpace(p.arguments[0]))
      && (p.arguments != [] ==>
        exists gap, rest :: |gap| > 0 && (forall j :: 0 <= j < |gap| ==> IsJsSpace(gap[j])) &&
          Trim(command) == p.name + gap + p.arguments + rest)
  {
    var t := Trim(command);
    var p := SpaceFrom(t, 0);
    if p < |t| {
      TrimmedEnds(command);
      var q := SpacesEnd(t, p);
      SplitParts(t, p, q, LineEnd(t, q));
    }
  }

  /** The pieces of a trimmed text whose first white-space run is `p..q`
      and whose line after it ends at `e`. */
  lemma SplitParts(t: string, p: nat, q: nat, e: nat)
    requires p < q <= e <= |t| && !IsJsSpace(t[|t| - 1])
    requires forall j :: 0 <= j < p ==> !IsJsSpace(t[j])
    requires forall j :: p <= j < q ==> IsJsSpace(t[j])
    requires q < |t| ==> !IsJsSpace(t[q])
    requires forall j :: q <= j < e ==> !IsLineTerminator(t[j])
    requires e < |t| ==> IsLineTerminator(t[e])
    ensures q < e && t[..p] <= t && t[..p] != t && !IsJsSpace(t[q..e][0])
    ensures exists gap, rest ::
      && |gap| > 0
      && (forall j :: 0 <= j < |gap| ==> IsJsSpace(gap[j]))
      && t == t[..p] + gap + t[q..e] + rest
  {
    assert q < |t|;
    assert !IsLineTerminator(t[q]);
    var gap, rest := t[p..q], t[e..];
    assert forall j :: 0 <= j < |gap| ==> gap[j] == t[p + j];
    assert t == t[..p] + gap + t[q..e] + rest;
  }

  /** A name without white space followed by a space and arguments that are
      one line, trimmed, splits back into that name and those arguments. */
  lemma SplitJoined(name: string, arguments: string)
    requires name != [] && forall j :: 0 <= j < |name| ==> !IsJsSpace(name[j])
    requires forall j :: 0 <= j < |arguments| ==> !IsLineTerminator(arguments[j])
    requires arguments != [] ==> !IsJsSpace(arguments[0]) && !IsJsSpace(arguments[|arguments| - 1])
    ensures arguments != [] ==> SplitCommand(name + " " + arguments) == ParsedCommand(name, arguments)
    ensures SplitCommand(name) == ParsedCommand(name, "")
  {
    assert Trim(name) == name by {
      assert TrimStart(name) == name;
      assert TrimEnd(name) == name;
    }
    assert SpaceFrom(name, 0) == |name|;
    if arguments != [] {
      JoinedTrimmed(name, arguments);
      JoinedPositions(name, arguments);
    }
  }

  /** `name + " " + arguments` is already trimmed. */
  lemma JoinedTrimmed(name: string, arguments: string)
    requires name != [] && !IsJsSpace(name[0])
    requires arguments != [] && !IsJsSpace(arguments[|arguments| - 1])
    ensures Trim(name + " " + arguments) == name + " " + arguments
  {
    var t := name + " " + arguments;
    assert TrimStart(t) == t;
    assert TrimEnd(t) == t;
  }

  /** Where `SplitCommand` cuts `name + " " + arguments`. */
  lemma JoinedPositions(name: string, arguments: string)
    requires forall j :: 0 <= j < |name| ==> !IsJsSpace(name[j])
    requires forall j :: 0 <= j < |arguments| ==> !IsLineTerminator(arguments[j])
    requires arguments != [] && !IsJsSpace(arguments[0])
    ensures var t, p := name + " " + arguments, |name|;
      && SpaceFrom(t, 0) == p && SpacesEnd(t, p) == p + 1 && LineEnd(t, p + 1) == |t|
      && t[..p] == name && t[p + 1..] == arguments
  {
    var t := name + " " + arguments;
    var p := |name|;
    assert t[p] == ' ';
    assert forall j :: 0 <= j < p ==> t[j] == name[j];
    assert SpaceFrom(t, 0) == p;
    assert t[p + 1] == arguments[0];
    assert SpacesEnd(t, p) == p + 1;
    assert forall j :: p + 1 <= j < |t| ==> t[j] == arguments[j - p - 1];
    assert LineEnd(t, p + 1) == |t|;
    assert t[..p] == name;
    assert t[p + 1..] == arguments;
  }

  /** Python's `str.isspace` characters, which `strip()` and `split()` use. */
  predicate IsPySpace(c: char) {
    c == '\t' || c == '\n' || c == '\U{000B}' || c == '\U{000C}' || c == '\r' ||
    ('\U{001C}' <= c <= '\U{001F}') || c == ' ' || c == '\U{0085}' || c == '\U{00A0}' ||
    c == '\U{1680}' || ('\U{2000}' <= c <= '\U{200A}') || c == '\U{2028}' || c == '\U{2029}' ||
    c == '\U{202F}' || c == '\U{205F}' || c == '\U{3000}'
  }

  function PySpacesEnd(s: string, i: nat): (k: nat)
    requires i <= |s|
    ensures i <= k <= |s|
    ensures forall j :: i <= j < k ==> IsPySpace(s[j])
    ensures k < |s| ==> !IsPySpace(s[k])
    decreases |s| - i
  {
    if i < |s| && IsPySpace(s[i]) then PySpacesEnd(s, i + 1) else i
  }

  function PyWordEnd(s: string, i: nat): (k: nat)
    requires i <= |s|
    ensures i <= k <= |s|
    ensures forall j :: i <= j < k ==> !IsPySpace(s[j])
    ensures k < |s| ==> IsPySpace(s[k])
    decreases |s| - i
  {
    if i == |s| || IsPySpace(s[i]) then i else PyWordEnd(s, i + 1)
  }

  /** `command.strip().split(maxsplit=1)[0]`: the first white-space separated
      word, or `None` where the list is empty and indexing it raises
      `IndexError`. Stripping only removes outer white space, which `split()`
      skips anyway, so the word is found on the command as typed. */
  function PyCommandName(command: string): Option<string> {
    var i := PySpacesEnd(command, 0);
    if i == |command| then None else Some(command[i..PyWordEnd(command, i)])
  }

  /** There is no name exactly when the command is blank. */
  lemma PyNoNameIffBlank(command: string)
    ensures PyCommandName(command).None? <==> forall j :: 0 <= j < |command| ==> IsPySpace(command[j])
  {
    var i := PySpacesEnd(command, 0);
    if i < |command| {
      assert !IsPySpace(command[i]);
    }
  }

  /** A name is a non-empty word, preceded only by white space and followed
      by white space or nothing. */
  lemma PyCommandNameShape(command: string)
    ensures var name := PyCommandName(command);
      name.Some? ==>
      && name.value != [] && (forall j :: 0 <= j < |name.value| ==> !IsPySpace(name.value[j]))
      && exists lead, rest ::
           && command == lead + name.value + rest
           && (forall j :: 0 <= j < |lead| ==> IsPySpace(lead[j]))
           && (rest == [] || IsPySpace(rest[0]))
  {
    var i := PySpacesEnd(command, 0);
    if i < |command| {
      PyWordParts(command, i, PyWordEnd(command, i));
    }
  }

  /** The pieces around a word that starts after white space at `i` and
      ends at `k`. */
  lemma PyWordParts(command: string, i: nat, k: nat)
    requires i < k <= |command|
    requires forall j :: 0 <= j < i ==> IsPySpace(command[j])
    requires forall j :: i <= j < k ==> !IsPySpace(command[j])
    requires k < |command| ==> IsPySpace(command[k])
    ensures var word := command[i..k];
      && word != []
      && (forall j :: 0 <= j < |word| ==> !IsPySpace(word[j]))
      && exists lead, rest ::
           && command == lead + word + rest
           && (forall j :: 0 <= j < |lead| ==> IsPySpace(lead[j]))
           && (rest == [] || IsPySpace(rest[0]))
  {
    var lead, word, rest := command[..i], command[i..k], command[k..];
    assert command == lead + word + rest;
    assert forall j :: 0 <= j < |lead| ==> lead[j] == command[j];
    assert forall j :: 0 <= j < |word| ==> word[j] == command[i + j];
    assert rest != [] ==> rest[0] == command[k];
  }

  /** The name the Python port reads from a word followed by anything. */
  lemma PyNameOfWord(word: string, rest: string)
    requires word != [] && forall j :: 0 <= j < |word| ==> !IsPySpace(word[j])
    requires rest == [] || IsPySpace(rest[0])
    ensures PyCommandName(word + rest) == Some(word)
  {
    var s := word + rest;
    assert s[0] == word[0];
    assert PySpacesEnd(s, 0) == 0;
    assert forall j :: 0 <= j < |word| ==> s[j] == word[j];
    if rest != [] {
      assert s[|word|] == rest[0];
    }
    assert PyWordEnd(s, 0) == |word|;
    assert s[..|word|] == word;
  }
}
