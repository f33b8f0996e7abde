/** The few Python `str` operations the handlers rely on: `isspace`/`strip`,
    ASCII `lower` and `split` on a one-character separator. */
module Text {

  /** Python's `str.isspace` for a single character: the characters that
      `str.strip()` with no argument removes. */
  predicate IsSpace(c: char)
  {
    var n := c as int;
    || (0x09 <= n <= 0x0D) || (0x1C <= n <= 0x20) || n == 0x85 || n == 0xA0
    || n == 0x1680 || (0x2000 <= n <= 0x200A) || n == 0x2028 || n == 0x2029
    || n == 0x202F || n == 0x205F || n == 0x3000
  }

  /** Every character is whitespace (this includes the empty string). */
  predicate IsBlank(s: string)
  {
    forall i :: 0 <= i < |s| ==> IsSpace(s[i])
  }

  /** `s.lstrip()`: the suffix left after dropping leading whitespace. */
  function TrimStart(s: string): (r: string)
    ensures |r| <= |s| && r == s[|s| - |r|..]
    ensures forall i :: 0 <= i < |s| - |r| ==> IsSpace(s[i])
    ensures r == [] || !IsSpace(r[0])
  {
    if |s| > 0 && IsSpace(s[0]) then
      var r := TrimStart(s[1..]);
      assert forall i :: 1 <= i < |s| - |r| ==> s[i] == s[1..][i - 1];
      r
    else s
  }

  /** `s.rstrip()`: the prefix left after dropping trailing whitespace. */
  function TrimEnd(s: string): (r: string)
    ensures |r| <= |s| && r == s[..|r|]
    ensures forall i :: |r| <= i < |s| ==> IsSpace(s[i])
    ensures r == [] || !IsSpace(r[|r| - 1])
  {
    if |s| > 0 && IsSpace(s[|s| - 1]) then
      var r := TrimEnd(s[..|s| - 1]);
      assert forall i :: |r| <= i < |s| - 1 ==> s[i] == s[..|s| - 1][i];
      r
    else s
  }

  /** `s.strip()`. It is empty exactly when `s` is blank, and otherwise starts
      and ends with a non-whitespace character. */
  function Strip(s: string): (r: string)
    ensures r == [] <==> IsBlank(s)
    ensures r != [] ==> !IsSpace(r[0]) && !IsSpace(r[|r| - 1])
  {
    var t := TrimStart(s);
    var r := TrimEnd(t);
    if t == [] then
      assert r == [];
      r
    else
      assert !IsSpace(s[|s| - |t|]);
      assert r != [];
      assert r[0] == t[0];
      r
  }

  /** Python's `str.lower` on one character, for ASCII letters. */
  function LowerChar(c: char): char
  {
    if 'A' <= c <= 'Z' then (c as int + 32) as char else c
  }

  /** Python's `str.lower`, applied character by character (ASCII letters only). */
  function Lower(s: string): (r: string)
    ensures |r| == |s|
    ensures forall i :: 0 <= i < |s| ==> r[i] == LowerChar(s[i])
  {
    if s == [] then [] else [LowerChar(s[0])] + Lower(s[1..])
  }

  /** No upper-case ASCII letter survives lower-casing. */
  lemma LowerLeavesNoUpperCase(s: string)
    ensures forall i :: 0 <= i < |Lower(s)| ==> !('A' <= Lower(s)[i] <= 'Z')
  {
  }

  /** Lower-casing works piece by piece. */
  lemma LowerConcat(a: string, b: string)
    ensures Lower(a + b) == Lower(a) + Lower(b)
  {
    assert forall i :: 0 <= i < |a + b| ==> Lower(a + b)[i] == (Lower(a) + Lower(b))[i];
  }

  /** Position of the last occurrence of `c` in `s`. */
  function LastIndex(s: string, c: char): (i: nat)
    requires c in s
    ensures i < |s| && s[i] == c
    ensures forall j :: i < j < |s| ==> s[j] != c
  {
    if s[|s| - 1] == c then |s| - 1
    else
      assert c in s[..|s| - 1] by {
        var k :| 0 <= k < |s| && s[k] == c;
        assert s[..|s| - 1][k] == c;
      }
      LastIndex(s[..|s| - 1], c)
  }

  /** Python's `s.split(sep)` for a one-character separator: the pieces between
      separators, in order. There is always at least one piece. The pieces are
      peeled off from the right, which gives the same list. */
  function Split(s: string, sep: char): (parts: seq<string>)
    ensures |parts| >= 1
    decreases |s|
  {
    if sep !in s then [s]
    else
      var i := LastIndex(s, sep);
      Split(s[..i], sep) + [s[i + 1..]]
  }

  /** Python's `sep.join(parts)`. */
  function Join(parts: seq<string>, sep: char): string
  {
    if |parts| == 0 then []
    else if |parts| == 1 then parts[0]
    else Join(parts[..|parts| - 1], sep) + [sep] + parts[|parts| - 1]
  }

  /** No piece of a split contains the separator. */
  lemma {:induction false} SplitPiecesSeparatorFree(s: string, sep: char)
    ensures forall k :: 0 <= k < |Split(s, sep)| ==> sep !in Split(s, sep)[k]
    decreases |s|
  {
    if sep in s {
      var i := LastIndex(s, sep);
      var front := Split(s[..i], sep);
      SplitPiecesSeparatorFree(s[..i], sep);
      assert Split(s, sep) == front + [s[i + 1..]];
      var rest := s[i + 1..];
      assert forall k :: 0 <= k < |rest| ==> rest[k] != sep;
    }
  }

  /** Joining one more piece onto at least one puts a separator between. */
  lemma JoinStep(front: seq<string>, last: string, sep: char)
    requires |front| >= 1
    ensures Join(front + [last], sep) == Join(front, sep) + [sep] + last
  {
    assert (front + [last])[..|front|] == front;
  }

  /** One step of splitting: the pieces before the last separator, then the
      text after it. */
  lemma SplitStep(s: string, sep: char)
    requires sep in s
    ensures Split(s, sep) == Split(s[..LastIndex(s, sep)], sep) + [s[LastIndex(s, sep) + 1..]]
  {
  }

  /** A text is its prefix, the separator at position `i`, and its suffix. */
  lemma Reassemble(s: string, i: nat, sep: char)
    requires i < |s| && s[i] == sep
    ensures s == s[..i] + [sep] + s[i + 1..]
  {
  }

  /** Splitting loses nothing: joining the pieces back gives the original text. */
  lemma {:induction false} JoinSplit(s: string, sep: char)
    ensures Join(Split(s, sep), sep) == s
    decreases |s|
  {
    if sep in s {
      var i := LastIndex(s, sep);
      var front := Split(s[..i], sep);
      var rest := s[i + 1..];
      JoinSplit(s[..i], sep);
      SplitStep(s, sep);
      JoinStep(front, rest, sep);
      Reassemble(s, i, sep);
      calc {
        Join(Split(s, sep), sep);
        Join(front + [rest], sep);
        Join(front, sep) + [sep] + rest;
        s[..i] + [sep] + rest;
        s;
      }
    }
  }

  /** `r` is a suffix of `s` that is either all of `s` or directly preceded by `sep`. */
  predicate SuffixAfter(s: string, r: string, sep: char)
  {
    && |r| <= |s| && r == s[|s| - |r|..]
    && (|r| < |s| ==> s[|s| - |r| - 1] == sep)
  }

  /** The last piece of a split is the text after the last separator, or all of
      the text when there is none. */
  lemma SplitLastPiece(s: string, sep: char)
    ensures sep in s ==> Split(s, sep)[|Split(s, sep)| - 1] == s[LastIndex(s, sep) + 1..]
    ensures sep !in s ==> Split(s, sep)[|Split(s, sep)| - 1] == s
  {
  }

  /** `s.split(sep)[-1]`: the text after the last separator, or all of `s` when
      it holds no separator. The three facts below pin it down uniquely: the
      longest separator-free suffix of `s`. */
  function LastSegment(s: string, sep: char): (r: string)
    ensures sep !in r
    ensures |r| <= |s| && r == s[|s| - |r|..]
    ensures |r| < |s| ==> s[|s| - |r| - 1] == sep
  {
    SplitLastPiece(s, sep);
    SplitPiecesSeparatorFree(s, sep);
    var parts := Split(s, sep);
    parts[|parts| - 1]
  }

  /** Whatever comes before the last separator does not matter. */
  lemma LastSegmentAfterSeparator(prefix: string, sep: char, tail: string)
    requires sep !in tail
    ensures LastSegment(prefix + [sep] + tail, sep) == tail
  {
    var s := prefix + [sep] + tail;
    var r := LastSegment(s, sep);
    assert s[|prefix|] == sep;
    assert |r| == |tail|;
    assert s[|s| - |tail|..] == tail;
  }

  /** Only the part of the text after its last separator matters: any suffix
      that still holds a separator has the same last segment. */
  lemma LastSegmentOfSuffix(s: string, b: string, sep: char)
    requires sep in b
    requires |b| <= |s| && s[|s| - |b|..] == b
    ensures LastSegment(s, sep) == LastSegment(b, sep)
  {
    var t := LastSegment(b, sep);
    assert |t| < |b|;
    var i := |s| - |t| - 1;
    assert s[i] == b[|b| - |t| - 1] == sep;
    assert s[i + 1..] == t;
    assert s == s[..i] + [sep] + t;
    LastSegmentAfterSeparator(s[..i], sep, t);
  }

  /** A text with no separator is its own last segment. */
  lemma LastSegmentWithoutSeparator(s: string, sep: char)
    requires sep !in s
    ensures LastSegment(s, sep) == s
  {
  }
}
