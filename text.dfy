/**
 * String helpers with Python's semantics: `str.isspace`, `lower`, `upper`,
 * `strip`, the `in` test for substrings, slicing, `split()` / `" ".join`,
 * and the whitespace normaliser `_clean_text` of the MCP tool modules.
 */
module Text {

  /** Python's `str.isspace()` on one code point. */
  predicate IsSpace(c: char) {
    || c == ' '
    || ('\t' <= c <= '\r')
    || ('\U{1c}' <= c <= '\U{1f}')
    || c == '\U{85}' || c == '\U{a0}' || c == '\U{1680}'
    || ('\U{2000}' <= c <= '\U{200a}')
    || c == '\U{2028}' || c == '\U{2029}' || c == '\U{202f}' || c == '\U{205f}' || c == '\U{3000}'
  }

  function LowerChar(c: char): char {
    if 'A' <= c <= 'Z' then (c as int + 32) as char else c
  }

  function UpperChar(c: char): char {
    if 'a' <= c <= 'z' then (c as int - 32) as char else c
  }

  /** `s.lower()` on ASCII letters; every other code point is kept. */
  function Lower(s: string): string {
    seq(|s|, i requires 0 <= i < |s| => LowerChar(s[i]))
  }

  /** `s.upper()` on ASCII letters; every other code point is kept. */
  function Upper(s: string): string {
    seq(|s|, i requires 0 <= i < |s| => UpperChar(s[i]))
  }

  function TrimStart(s: string): string {
    if s != [] && IsSpace(s[0]) then TrimStart(s[1..]) else s
  }

  function TrimEnd(s: string): string {
    if s != [] && IsSpace(s[|s| - 1]) then TrimEnd(s[..|s| - 1]) else s
  }

  /** `s.strip()`: drops leading and trailing whitespace. */
  function Strip(s: string): string {
    TrimEnd(TrimStart(s))
  }

  predicate AllSpace(s: string) {
    forall i :: 0 <= i < |s| ==> IsSpace(s[i])
  }

  predicate OccursAt(s: string, sub: string, i: int) {
    0 <= i <= |s| - |sub| && s[i..i + |sub|] == sub
  }

  /** `sub in s` for strings. */
  predicate Contains(s: string, sub: string) {
    exists i | 0 <= i <= |s| - |sub| :: OccursAt(s, sub, i)
  }

  /** Python's slice `s[:n]`. */
  function Take(s: string, n: nat): string {
    if |s| <= n then s else s[..n]
  }

  lemma {:induction false} TrimStartShape(s: string)
    ensures |TrimStart(s)| <= |s|
    ensures TrimStart(s) == s[|s| - |TrimStart(s)|..]
    ensures AllSpace(s[..|s| - |TrimStart(s)|])
    ensures TrimStart(s) != [] ==> !IsSpace(TrimStart(s)[0])
  {
    if s != [] && IsSpace(s[0]) {
      TrimStartShape(s[1..]);
      var n := |s| - |TrimStart(s)|;
      assert s[..n] == [s[0]] + s[1..][..n - 1];
    }
  }

  lemma {:induction false} TrimEndShape(s: string)
    ensures |TrimEnd(s)| <= |s|
    ensures TrimEnd(s) == s[..|TrimEnd(s)|]
    ensures AllSpace(s[|TrimEnd(s)|..])
    ensures TrimEnd(s) != [] ==> !IsSpace(TrimEnd(s)[|TrimEnd(s)| - 1])
  {
    if s != [] && IsSpace(s[|s| - 1]) {
      var t := s[..|s| - 1];
      TrimEndShape(t);
      var n := |TrimEnd(t)|;
      assert s[n..] == t[n..] + [s[|s| - 1]];
    }
  }

  /**
   * `s.strip()` is empty exactly when `s` is all whitespace, and otherwise
   * starts and ends with a non-space character.
   */
  lemma StripShape(s: string)
    ensures Strip(s) == "" <==> AllSpace(s)
    ensures Strip(s) != "" ==> !IsSpace(Strip(s)[0]) && !IsSpace(Strip(s)[|Strip(s)| - 1])
  {
    var t := TrimStart(s);
    TrimStartShape(s);
    TrimEndShape(t);
    var k := |s| - |t|;
    if Strip(s) == "" {
      assert AllSpace(t[|TrimEnd(t)|..]);
      assert t == [];
      forall i | 0 <= i < |s| ensures IsSpace(s[i]) {
        assert s[i] == s[..k][i];
      }
    } else {
      assert TrimEnd(t)[0] == t[0];
    }
  }

  lemma LowerKeepsSpaces(s: string)
    ensures AllSpace(Lower(s)) <==> AllSpace(s)
  {
    assert forall i :: 0 <= i < |s| ==> (IsSpace(Lower(s)[i]) <==> IsSpace(s[i]));
  }

  // ---------------------------------------------------------------
  // str.split() and " ".join(...)
  // ---------------------------------------------------------------

  /** A token produced by `str.split()`: non-empty, without whitespace. */
  predicate IsWord(w: string) {
    w != [] && forall i :: 0 <= i < |w| ==> !IsSpace(w[i])
  }

  /** Length of the run of non-space characters at the start of `s`. */
  function WordEnd(s: string): (n: nat)
    ensures n <= |s|
    ensures forall i :: 0 <= i < n ==> !IsSpace(s[i])
    ensures n < |s| ==> IsSpace(s[n])
  {
    if s == [] || IsSpace(s[0]) then 0 else 1 + WordEnd(s[1..])
  }

  /** Python's `s.split()` with no argument: the maximal runs of non-whitespace. */
  function Split(s: string): seq<string>
    decreases |s|
  {
    if s == [] then []
    else if IsSpace(s[0]) then Split(s[1..])
    else var n := WordEnd(s); [s[..n]] + Split(s[n..])
  }

  /** `" ".join(ws)`. */
  function Join(ws: seq<string>): string {
    if ws == [] then "" else if |ws| == 1 then ws[0] else ws[0] + " " + Join(ws[1..])
  }

  /** `sep.join(ws)` for any separator. */
  function JoinWith(sep: string, ws: seq<string>): string {
    if ws == [] then "" else if |ws| == 1 then ws[0] else ws[0] + sep + JoinWith(sep, ws[1..])
  }

  function ReplaceControl(c: char): char {
    if c == '\n' || c == '\t' || c == '\r' then ' ' else c
  }

  /** `text.replace("\n", " ").replace("\t", " ").replace("\r", " ")`. */
  function ReplaceControls(s: string): string {
    seq(|s|, i requires 0 <= i < |s| => ReplaceControl(s[i]))
  }

  /**
   * `_clean_text(text)` of tools_functions.py and of its twin in functions.py:
   * "" for empty input, otherwise the whitespace-separated words joined by one space.
   */
  function CleanText(s: string): string {
    if s == "" then "" else Join(Split(ReplaceControls(s)))
  }

  /** The output shape promised by `_clean_text`. */
  predicate Normalized(r: string) {
    && (forall i :: 0 <= i < |r| ==> IsSpace(r[i]) ==> r[i] == ' ')
    && (r != [] ==> r[0] != ' ' && r[|r| - 1] != ' ')
    && (forall i :: 0 <= i < |r| - 1 ==> !(r[i] == ' ' && r[i + 1] == ' '))
  }

  lemma {:induction false} SplitWords(s: string)
    ensures forall k :: 0 <= k < |Split(s)| ==> IsWord(Split(s)[k])
    decreases |s|
  {
    if s == [] {
    } else if IsSpace(s[0]) {
      SplitWords(s[1..]);
    } else {
      var n := WordEnd(s);
      SplitWords(s[n..]);
      assert Split(s) == [s[..n]] + Split(s[n..]);
    }
  }

  /** A word followed by a space-led (or empty) tail splits off as one token. */
  lemma {:induction false} SplitWordThen(w: string, t: string)
    requires IsWord(w)
    requires t == [] || IsSpace(t[0])
    ensures Split(w + t) == [w] + Split(t)
  {
    var s := w + t;
    WordEndOf(w, t);
    assert s[..|w|] == w && s[|w|..] == t;
  }

  lemma {:induction false} WordEndOf(w: string, t: string)
    requires IsWord(w)
    requires t == [] || IsSpace(t[0])
    ensures WordEnd(w + t) == |w|
    decreases |w|
  {
    if |w| > 1 {
      assert IsWord(w[1..]);
      WordEndOf(w[1..], t);
      assert (w + t)[1..] == w[1..] + t;
    } else {
      assert (w + t)[1..] == t;
    }
  }

  /** Splitting a join of words gives the words back. */
  lemma {:induction false} SplitJoin(ws: seq<string>)
    requires forall k :: 0 <= k < |ws| ==> IsWord(ws[k])
    ensures Split(Join(ws)) == ws
  {
    if |ws| == 1 {
      SplitWordThen(ws[0], "");
      assert ws[0] + "" == ws[0];
    } else if |ws| > 1 {
      var rest := Join(ws[1..]);
      SplitJoin(ws[1..]);
      assert Join(ws) == ws[0] + (" " + rest);
      SplitWordThen(ws[0], " " + rest);
      assert (" " + rest)[1..] == rest;
    }
  }

  lemma {:induction false} JoinNormalized(ws: seq<string>)
    requires forall k :: 0 <= k < |ws| ==> IsWord(ws[k])
    ensures Normalized(Join(ws))
    ensures ws != [] ==> Join(ws) != [] && Join(ws)[0] == ws[0][0]
  {
    if |ws| > 1 {
      JoinNormalized(ws[1..]);
      var w, rest := ws[0], Join(ws[1..]);
      var r := w + " " + rest;
      assert Join(ws) == r;
      forall i | 0 <= i < |r| && IsSpace(r[i]) ensures r[i] == ' ' {
        if i > |w| { assert r[i] == rest[i - |w| - 1]; }
      }
      forall i | 0 <= i < |r| - 1 ensures !(r[i] == ' ' && r[i + 1] == ' ') {
        if i > |w| { assert r[i] == rest[i - |w| - 1] && r[i + 1] == rest[i - |w|]; }
        else if i == |w| { assert r[i + 1] == rest[0]; }
      }
      assert r[|r| - 1] == rest[|rest| - 1];
    }
  }

  /**
   * `_clean_text` returns "" for empty input, and its result never holds a
   * newline, tab or carriage return, never starts or ends with a space and
   * never holds two spaces in a row.
   */
  lemma CleanTextNormalForm(s: string)
    ensures s == "" ==> CleanText(s) == ""
    ensures Normalized(CleanText(s))
    ensures forall i :: 0 <= i < |CleanText(s)| ==>
      CleanText(s)[i] != '\n' && CleanText(s)[i] != '\t' && CleanText(s)[i] != '\r'
  {
    if s != "" {
      SplitWords(ReplaceControls(s));
      JoinNormalized(Split(ReplaceControls(s)));
    }
  }

  lemma {:induction false} SplitIgnoresControls(s: string)
    ensures Split(ReplaceControls(s)) == Split(s)
    decreases |s|
  {
    var r := ReplaceControls(s);
    if s != [] {
      assert r[1..] == ReplaceControls(s[1..]);
      if IsSpace(s[0]) {
        SplitIgnoresControls(s[1..]);
      } else {
        var n := WordEnd(s);
        WordEndIgnoresControls(s);
        assert r[..n] == s[..n];
        assert r[n..] == ReplaceControls(s[n..]);
        SplitIgnoresControls(s[n..]);
      }
    }
  }

  lemma {:induction false} WordEndIgnoresControls(s: string)
    ensures WordEnd(ReplaceControls(s)) == WordEnd(s)
    decreases |s|
  {
    if s != [] {
      assert ReplaceControls(s)[1..] == ReplaceControls(s[1..]);
      WordEndIgnoresControls(s[1..]);
    }
  }

  /** `_clean_text` keeps exactly the words of its input, in order. */
  lemma CleanTextKeepsWords(s: string)
    ensures Split(CleanText(s)) == Split(s)
  {
    if s != "" {
      SplitWords(ReplaceControls(s));
      SplitJoin(Split(ReplaceControls(s)));
      SplitIgnoresControls(s);
    }
  }

  lemma {:induction false} NoControlsFixed(s: string)
    requires forall i :: 0 <= i < |s| ==> s[i] != '\n' && s[i] != '\t' && s[i] != '\r'
    ensures ReplaceControls(s) == s
  {
  }

  /** Cleaning twice is the same as cleaning once. */
  lemma CleanTextIdempotent(s: string)
    ensures CleanText(CleanText(s)) == CleanText(s)
  {
    var c := CleanText(s);
    if c != "" {
      CleanTextNormalForm(s);
      NoControlsFixed(c);
      SplitWords(ReplaceControls(s));
      SplitJoin(Split(ReplaceControls(s)));
    }
  }
}
