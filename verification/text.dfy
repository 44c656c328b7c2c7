/** The string primitives the classifier and the report builder rely on:
    whitespace splitting (`str.split()` with no argument), splitting on one
    separator character (`str.split(sep)`), joining, and ASCII case mapping
    (`lower`, `upper`, `capitalize`). */
module Text {

  // ---------------------------------------------------------------------------
  // Whitespace and tokens
  // ---------------------------------------------------------------------------

  /** The characters a string method treats as whitespace: the space, the
      ASCII controls TAB, LF, VT, FF, CR, the separators FS/GS/RS/US, NEL
      (U+0085), and the Unicode space separators and line/paragraph
      separators. */
  predicate IsSpace(c: char) {
    c == ' ' || c == '\t' || c == '\n' || c == '\U{B}' || c == '\U{C}' || c == '\r'
    || ('\U{1C}' <= c <= '\U{1F}') || c == '\U{85}' || c == '\U{A0}' || c == '\U{1680}'
    || ('\U{2000}' <= c <= '\U{200A}') || c == '\U{2028}' || c == '\U{2029}'
    || c == '\U{202F}' || c == '\U{205F}' || c == '\U{3000}'
  }

  predicate NoSpace(s: string) {
    forall i :: 0 <= i < |s| ==> !IsSpace(s[i])
  }

  /** A piece that whitespace splitting can produce: non-empty, no whitespace. */
  predicate IsToken(s: string) {
    |s| > 0 && NoSpace(s)
  }

  predicate Blank(s: string) {
    forall i :: 0 <= i < |s| ==> IsSpace(s[i])
  }

  /** Length of the longest whitespace-free prefix of `s`. */
  function TokenLen(s: string): (n: nat)
    ensures n <= |s|
    ensures NoSpace(s[..n])
    ensures n < |s| ==> IsSpace(s[n])
  {
    if s == [] || IsSpace(s[0]) then 0
    else
      var m := TokenLen(s[1..]);
      assert s[..m + 1] == [s[0]] + s[1..][..m];
      m + 1
  }

  /** Splitting on runs of whitespace, dropping empty pieces. */
  function Split(s: string): (parts: seq<string>)
    ensures forall i :: 0 <= i < |parts| ==> IsToken(parts[i])
    decreases |s|
  {
    if s == [] then []
    else if IsSpace(s[0]) then Split(s[1..])
    else
      var n := TokenLen(s);
      [s[..n]] + Split(s[n..])
  }

  /** Joining with a separator placed between consecutive pieces; the result
      holds no character that is in neither the separator nor a piece. */
  function Join(parts: seq<string>, sep: string): (r: string)
    ensures forall ch :: ch !in sep && NotInAny(parts, ch) ==> ch !in r
  {
    if |parts| == 0 then ""
    else if |parts| == 1 then parts[0]
    else parts[0] + sep + Join(parts[1..], sep)
  }

  predicate NotInAny(parts: seq<string>, ch: char) {
    forall i :: 0 <= i < |parts| ==> ch !in parts[i]
  }

  /** A name is split into nothing exactly when it is empty or all whitespace. */
  lemma {:induction false} SplitEmptyIffBlank(s: string)
    ensures Split(s) == [] <==> Blank(s)
    decreases |s|
  {
    if s != [] {
      if IsSpace(s[0]) {
        SplitEmptyIffBlank(s[1..]);
        if Blank(s[1..]) {
          forall i | 0 <= i < |s| ensures IsSpace(s[i]) {
            if i > 0 { assert s[i] == s[1..][i - 1]; }
          }
        } else {
          var i :| 0 <= i < |s[1..]| && !IsSpace(s[1..][i]);
          assert !IsSpace(s[i + 1]);
        }
      } else {
        assert !IsSpace(s[0]);
      }
    }
  }

  lemma TokenLenOfTokenThenSpace(t: string, rest: string)
    requires IsToken(t)
    requires rest == [] || IsSpace(rest[0])
    ensures TokenLen(t + rest) == |t|
    decreases |t|
  {
    var s := t + rest;
    assert s[0] == t[0];
    if |t| > 1 {
      assert s[1..] == t[1..] + rest;
      TokenLenOfTokenThenSpace(t[1..], rest);
    } else {
      assert s[1..] == rest;
    }
  }

  /** A token followed by whitespace (or by nothing) is the first piece. */
  lemma SplitTokenThen(t: string, rest: string)
    requires IsToken(t)
    requires rest == [] || IsSpace(rest[0])
    ensures Split(t + rest) == [t] + Split(rest)
  {
    var s := t + rest;
    TokenLenOfTokenThenSpace(t, rest);
    assert s[..|t|] == t;
    assert s[|t|..] == rest;
  }

  /** Leading whitespace, of any kind and any length, does not change the
      split. */
  lemma {:induction false} SplitSkipsBlank(w: string, s: string)
    requires Blank(w)
    ensures Split(w + s) == Split(s)
    decreases |w|
  {
    if w != [] {
      assert (w + s)[0] == w[0];
      assert (w + s)[1..] == w[1..] + s;
      SplitSkipsBlank(w[1..], s);
    } else {
      assert w + s == s;
    }
  }

  /** Tokens with whitespace runs between, before and after them: `gaps[i]`
      precedes `parts[i]`, and the last gap trails. */
  function Interleave(gaps: seq<string>, parts: seq<string>): string
    requires |gaps| == |parts| + 1
  {
    if parts == [] then gaps[0]
    else gaps[0] + parts[0] + Interleave(gaps[1..], parts[1..])
  }

  /** Splitting finds exactly the tokens, however the whitespace between them
      is made up and whether or not there is whitespace at either end. */
  lemma {:induction false} SplitInterleaved(gaps: seq<string>, parts: seq<string>)
    requires |gaps| == |parts| + 1
    requires forall i :: 0 <= i < |gaps| ==> Blank(gaps[i])
    requires forall i :: 0 <= i < |parts| ==> IsToken(parts[i])
    requires forall i :: 0 < i < |parts| ==> gaps[i] != []
    ensures Split(Interleave(gaps, parts)) == parts
  {
    if parts == [] {
      SplitEmptyIffBlank(gaps[0]);
    } else {
      var rest := Interleave(gaps[1..], parts[1..]);
      SplitInterleaved(gaps[1..], parts[1..]);
      if |parts| > 1 {
        assert rest == gaps[1] + parts[1] + Interleave(gaps[2..], parts[2..]);
        assert rest[0] == gaps[1][0];
      }
      assert gaps[0] + parts[0] + rest == gaps[0] + (parts[0] + rest);
      SplitSkipsBlank(gaps[0], parts[0] + rest);
      SplitTokenThen(parts[0], rest);
      assert parts == [parts[0]] + parts[1..];
    }
  }

  /** Round trip: splitting tokens joined by single spaces gives the tokens back. */
  lemma {:induction false} SplitJoin(parts: seq<string>)
    requires forall i :: 0 <= i < |parts| ==> IsToken(parts[i])
    ensures Split(Join(parts, " ")) == parts
  {
    if |parts| == 1 {
      SplitTokenThen(parts[0], "");
      assert parts[0] + "" == parts[0];
    } else if |parts| > 1 {
      var rest := Join(parts[1..], " ");
      SplitJoin(parts[1..]);
      assert Join(parts, " ") == parts[0] + (" " + rest);
      SplitTokenThen(parts[0], " " + rest);
      assert (" " + rest)[1..] == rest;
      assert parts == [parts[0]] + parts[1..];
    }
  }

  /** Every piece of a split is made of characters of the text. */
  lemma {:induction false} SplitKeepsOut(s: string, ch: char)
    requires ch !in s
    ensures forall i :: 0 <= i < |Split(s)| ==> ch !in Split(s)[i]
    decreases |s|
  {
    if s != [] {
      assert ch !in s[1..];
      SplitKeepsOut(s[1..], ch);
      if !IsSpace(s[0]) {
        var n := TokenLen(s);
        assert ch !in s[n..];
        SplitKeepsOut(s[n..], ch);
        assert ch !in s[..n];
        var rest := Split(s[n..]);
        assert Split(s) == [s[..n]] + rest;
        assert forall i :: 1 <= i < |Split(s)| ==> Split(s)[i] == rest[i - 1];
      }
    }
  }

  // ---------------------------------------------------------------------------
  // Splitting on a separator character
  // ---------------------------------------------------------------------------

  /** Splitting on every occurrence of `d`, keeping empty pieces; there is
      always one piece more than there are separators. */
  function SplitOn(s: string, d: char): (pieces: seq<string>)
    ensures |pieces| >= 1
    ensures NotInAny(pieces, d)
  {
    if s == [] then [""]
    else
      var rest := SplitOn(s[1..], d);
      if s[0] == d then [""] + rest
      else [[s[0]] + rest[0]] + rest[1..]
  }

  /** Without a separator, the text is its own single piece. */
  lemma {:induction false} SplitOnNone(s: string, d: char)
    requires d !in s
    ensures SplitOn(s, d) == [s]
  {
    if s != [] {
      assert d !in s[1..];
      SplitOnNone(s[1..], d);
      assert [s[0]] + s[1..] == s;
    }
  }

  /** Joining the pieces with the separator gives the text back. */
  lemma {:induction false} JoinSplitOn(s: string, d: char)
    ensures Join(SplitOn(s, d), [d]) == s
  {
    if s != [] {
      var rest := SplitOn(s[1..], d);
      JoinSplitOn(s[1..], d);
      if s[0] == d {
        assert Join([""] + rest, [d]) == "" + [d] + Join(rest, [d]);
      } else if |rest| == 1 {
        assert SplitOn(s, d) == [[s[0]] + rest[0]];
      } else {
        assert Join(rest, [d]) == rest[0] + [d] + Join(rest[1..], [d]);
        assert SplitOn(s, d) == [[s[0]] + rest[0]] + rest[1..];
        assert SplitOn(s, d)[1..] == rest[1..];
      }
      assert s == [s[0]] + s[1..];
    }
  }

  /** Splitting undoes joining with a one-character separator, provided no
      piece holds the separator. */
  lemma {:induction false} SplitOnJoin(parts: seq<string>, d: char)
    requires |parts| >= 1 && NotInAny(parts, d)
    ensures SplitOn(Join(parts, [d]), d) == parts
  {
    if |parts| == 1 {
      SplitOnNone(parts[0], d);
    } else {
      var tail := parts[1..];
      SplitOnJoin(tail, d);
      SplitOnNone(parts[0], d);
      SplitOnAround(parts[0], Join(tail, [d]), d);
      assert parts == [parts[0]] + tail;
    }
  }

  /** A separator splits the text into the pieces of what precedes it followed
      by the pieces of what follows it. */
  lemma {:induction false} SplitOnAround(a: string, b: string, d: char)
    ensures SplitOn(a + [d] + b, d) == SplitOn(a, d) + SplitOn(b, d)
  {
    var s := a + [d] + b;
    if a == [] {
      assert s[1..] == b;
    } else {
      assert s[1..] == a[1..] + [d] + b;
      SplitOnAround(a[1..], b, d);
    }
  }

  // ---------------------------------------------------------------------------
  // ASCII case mapping
  // ---------------------------------------------------------------------------

  function LowerChar(c: char): char {
    if 'A' <= c <= 'Z' then (c as int + 32) as char else c
  }

  function UpperChar(c: char): char {
    if 'a' <= c <= 'z' then (c as int - 32) as char else c
  }

  predicate IsUpperLetter(c: char) { 'A' <= c <= 'Z' }

  predicate IsLowerLetter(c: char) { 'a' <= c <= 'z' }

  /** No upper-case letter left; `CaseMappingUpToCase` states that the text
      is otherwise the same. */
  function Lower(s: string): (r: string)
    ensures |r| == |s|
    ensures forall i :: 0 <= i < |r| ==> !IsUpperLetter(r[i])
  {
    seq(|s|, i requires 0 <= i < |s| => LowerChar(s[i]))
  }

  /** No lower-case letter left. */
  function Upper(s: string): (r: string)
    ensures |r| == |s|
    ensures forall i :: 0 <= i < |r| ==> !IsLowerLetter(r[i])
  {
    seq(|s|, i requires 0 <= i < |s| => UpperChar(s[i]))
  }

  /** The first character not a lower-case letter, and no upper-case letter
      after it. */
  function Capitalize(s: string): (r: string)
    ensures |r| == |s|
    ensures r != [] ==> !IsLowerLetter(r[0])
    ensures forall i :: 1 <= i < |r| ==> !IsUpperLetter(r[i])
  {
    if s == [] then [] else [UpperChar(s[0])] + Lower(s[1..])
  }

  /** Case mapping never turns a non-space character into whitespace. */
  lemma CaseMappingKeepsNoSpace(s: string)
    requires NoSpace(s)
    ensures NoSpace(Lower(s)) && NoSpace(Upper(s)) && NoSpace(Capitalize(s))
  {
    if s != [] {
      assert forall i :: 0 <= i < |s| - 1 ==> s[1..][i] == s[i + 1];
    }
  }

  /** Case mapping never introduces a character that is not a letter. */
  lemma CaseMappingKeepsOut(s: string, ch: char)
    requires ch !in s && !('A' <= ch <= 'Z') && !('a' <= ch <= 'z')
    ensures ch !in Lower(s) && ch !in Upper(s) && ch !in Capitalize(s)
  {
    if s != [] {
      assert ch !in s[1..];
    }
  }

  /** Lower, upper and capitalize change only the case of letters: mapping
      the results back to one case gives the same text. */
  lemma CaseMappingUpToCase(s: string)
    ensures Upper(Lower(s)) == Upper(s)
    ensures Lower(Upper(s)) == Lower(s)
    ensures Lower(Capitalize(s)) == Lower(s)
  {
    if s != [] {
      assert Lower(Capitalize(s)) == [LowerChar(UpperChar(s[0]))] + Lower(Lower(s[1..]));
      assert Lower(Lower(s[1..])) == Lower(s[1..]);
      assert Lower(s) == [LowerChar(s[0])] + Lower(s[1..]);
    }
  }

  /** `capitalize` only looks at a string up to case. */
  lemma CapitalizeIgnoresCase(s: string)
    ensures Capitalize(Lower(s)) == Capitalize(s)
  {
    if s != [] {
      assert Lower(s)[1..] == Lower(s[1..]);
      assert Lower(Lower(s)[1..]) == Lower(s[1..]);
    }
  }
}
