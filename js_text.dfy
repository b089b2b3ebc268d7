/** JavaScript's notion of white space, and `String.prototype.trim`. */
module JsText {

  /** The characters JavaScript's `\s` and `trim()` treat as white space. */
  predicate IsJsSpace(c: char) {
    c == '\t' || c == '\n' || c == '\U{000B}' || c == '\U{000C}' || c == '\r' || c == ' ' ||
    c == '\U{00A0}' || c == '\U{1680}' || ('\U{2000}' <= c <= '\U{200A}') ||
    c == '\U{2028}' || c == '\U{2029}' || c == '\U{202F}' || c == '\U{205F}' ||
    c == '\U{3000}' || c == '\U{FEFF}'
  }

  function TrimStart(s: string): string {
    if s != [] && IsJsSpace(s[0]) then TrimStart(s[1..]) else s
  }

  function TrimEnd(s: string): string {
    if s != [] && IsJsSpace(s[|s| - 1]) then TrimEnd(s[..|s| - 1]) else s
  }

  /** `s.trim()` */
  function Trim(s: string): string {
    TrimEnd(TrimStart(s))
  }

  predicate HasVisibleChar(s: string) {
    exists k :: 0 <= k < |s| && !IsJsSpace(s[k])
  }

  lemma {:induction false} TrimEndEmptyIffBlank(s: string)
    ensures TrimEnd(s) == [] <==> !HasVisibleChar(s)
  {
    if s != [] && IsJsSpace(s[|s| - 1]) {
      var init := s[..|s| - 1];
      TrimEndEmptyIffBlank(init);
      if HasVisibleChar(s) {
        var k :| 0 <= k < |s| && !IsJsSpace(s[k]);
        assert init[k] == s[k];
      }
      if HasVisibleChar(init) {
        var k :| 0 <= k < |init| && !IsJsSpace(init[k]);
        assert s[k] == init[k];
      }
    }
  }

  lemma {:induction false} TrimStartVisible(s: string)
    ensures HasVisibleChar(TrimStart(s)) <==> HasVisibleChar(s)
  {
    if s != [] && IsJsSpace(s[0]) {
      TrimStartVisible(s[1..]);
      if HasVisibleChar(s) {
        var k :| 0 <= k < |s| && !IsJsSpace(s[k]);
        assert s[1..][k - 1] == s[k];
      }
      if HasVisibleChar(s[1..]) {
        var k :| 0 <= k < |s[1..]| && !IsJsSpace(s[1..][k]);
        assert s[k + 1] == s[1..][k];
      }
    }
  }

  /** `line.trim().length > 0` holds exactly when the line has a character
      that is not white space. */
  lemma TrimNonEmptyIffVisible(s: string)
    ensures |Trim(s)| > 0 <==> HasVisibleChar(s)
  {
    TrimStartVisible(s);
    TrimEndEmptyIffBlank(TrimStart(s));
  }

  /** `TrimEnd` keeps a prefix of the text. */
  lemma {:induction false} TrimEndPrefix(s: string)
    ensures TrimEnd(s) <= s
  {
    if s != [] && IsJsSpace(s[|s| - 1]) {
      TrimEndPrefix(s[..|s| - 1]);
    }
  }

  lemma {:induction false} TrimStartHead(s: string)
    ensures TrimStart(s) != [] ==> !IsJsSpace(TrimStart(s)[0])
  {
    if s != [] && IsJsSpace(s[0]) {
      TrimStartHead(s[1..]);
    }
  }

  lemma {:induction false} TrimEndLast(s: string)
    ensures TrimEnd(s) != [] ==> !IsJsSpace(TrimEnd(s)[|TrimEnd(s)| - 1])
  {
    if s != [] && IsJsSpace(s[|s| - 1]) {
      TrimEndLast(s[..|s| - 1]);
    }
  }

  /** A trimmed text neither starts nor ends with white space, so trimming
      it again changes nothing. */
  lemma TrimmedEnds(s: string)
    ensures Trim(s) != [] ==> !IsJsSpace(Trim(s)[0]) && !IsJsSpace(Trim(s)[|Trim(s)| - 1])
    ensures Trim(Trim(s)) == Trim(s)
  {
    var t := TrimStart(s);
    TrimStartHead(s);
    TrimEndPrefix(t);
    TrimEndLast(t);
    var r := Trim(s);
    if r != [] {
      assert r[0] == t[0];
      assert TrimStart(r) == r;
      assert TrimEnd(r) == r;
    }
  }
}
