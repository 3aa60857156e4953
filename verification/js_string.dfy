/**
 * The two JavaScript string operations the chat core relies on:
 * `String.prototype.trim` (the blank-input guard) and `Array.prototype.join`
 * (the bot message assembled from tool-result chunks).
 */
module JsString {

  /**
   * The characters `trim` strips: the ECMAScript WhiteSpace and
   * LineTerminator productions (sections 12.2 and 12.3 of ECMA-262).
   */
  predicate IsWhite(c: char) {
    || c == '\t' || c == '\n' || c == '\U{000B}' || c == '\U{000C}' || c == '\r' || c == ' '
    || c == '\U{00A0}' || c == '\U{1680}' || ('\U{2000}' <= c <= '\U{200A}')
    || c == '\U{2028}' || c == '\U{2029}' || c == '\U{202F}' || c == '\U{205F}'
    || c == '\U{3000}' || c == '\U{FEFF}'
  }

  /** True iff every character of `s` is one `trim` would strip. */
  predicate AllWhite(s: string) {
    forall i :: 0 <= i < |s| ==> IsWhite(s[i])
  }

  /** Drops leading white space: the result is the suffix that starts at the first non-white character. */
  function TrimStart(s: string): (r: string)
    ensures |r| <= |s| && r == s[|s| - |r|..]
    ensures forall i :: 0 <= i < |s| - |r| ==> IsWhite(s[i])
    ensures |r| > 0 ==> !IsWhite(r[0])
  {
    if |s| > 0 && IsWhite(s[0]) then TrimStart(s[1..]) else s
  }

  /** Drops trailing white space: the result is the prefix that ends at the last non-white character. */
  function TrimEnd(s: string): (r: string)
    ensures |r| <= |s| && r == s[..|r|]
    ensures forall i :: |r| <= i < |s| ==> IsWhite(s[i])
    ensures |r| > 0 ==> !IsWhite(r[|r| - 1])
  {
    if |s| > 0 && IsWhite(s[|s| - 1]) then TrimEnd(s[..|s| - 1]) else s
  }

  /** `s.trim()`: a piece of `s` that neither starts nor ends with white space. */
  function Trim(s: string): (r: string)
    ensures |r| <= |s|
    ensures |r| > 0 ==> !IsWhite(r[0]) && !IsWhite(r[|r| - 1])
  {
    TrimEnd(TrimStart(s))
  }

  /**
   * `!s.trim()`, JavaScript treating the empty string as false: true exactly
   * when `s` consists of white space only.
   */
  predicate IsBlank(s: string): (b: bool)
    ensures b <==> AllWhite(s)
  {
    Trim(s) == ""
  }

  /**
   * `parts.join(sep)`: the parts in order with `sep` between consecutive
   * ones, and "" for no parts; it ends right after the last part, with no
   * separator added at the end.
   */
  function Join(parts: seq<string>, sep: string): (r: string)
    ensures |parts| == 0 ==> r == ""
    ensures |parts| > 0 ==> |r| == Offset(parts, sep, |parts| - 1) + |parts[|parts| - 1]|
    decreases |parts|
  {
    if |parts| == 0 then ""
    else if |parts| == 1 then parts[0]
    else
      var rest := parts[1..];
      assert rest[|rest| - 1] == parts[|parts| - 1];
      assert Offset(parts, sep, |parts| - 1) == |parts[0]| + |sep| + Offset(rest, sep, |rest| - 1);
      parts[0] + sep + Join(rest, sep)
  }

  /** Where part `k` starts inside `Join(parts, sep)`: every earlier part followed by one separator. */
  function Offset(parts: seq<string>, sep: string, k: nat): nat
    requires k <= |parts|
  {
    if k == 0 then 0 else |parts[0]| + |sep| + Offset(parts[1..], sep, k - 1)
  }

  /** A slice of the right operand of a concatenation, read through the concatenation. */
  lemma SliceRight(a: string, b: string, i: nat, j: nat)
    requires i <= j <= |b|
    ensures (a + b)[|a| + i..|a| + j] == b[i..j]
  {
  }

  /** The left operand of a concatenation, read back as its prefix. */
  lemma SliceLeft(a: string, b: string)
    ensures (a + b)[0..|a|] == a
  {
  }

  /** Part `k` sits in the joined string at its offset. */
  lemma {:induction false} JoinPart(parts: seq<string>, sep: string, k: nat)
    requires k < |parts|
    ensures Offset(parts, sep, k) + |parts[k]| <= |Join(parts, sep)|
    ensures Join(parts, sep)[Offset(parts, sep, k)..Offset(parts, sep, k) + |parts[k]|] == parts[k]
    decreases k
  {
    if |parts| == 1 {
      assert Join(parts, sep) == parts[0];
      assert parts[0][0..|parts[0]|] == parts[0];
    } else {
      var rest := parts[1..];
      var jr := Join(rest, sep);
      var pre := parts[0] + sep;
      assert Join(parts, sep) == pre + jr;
      if k == 0 {
        SliceLeft(parts[0], sep + jr);
        assert pre + jr == parts[0] + (sep + jr);
      } else {
        JoinPart(rest, sep, k - 1);
        var o := Offset(rest, sep, k - 1);
        assert rest[k - 1] == parts[k];
        assert Offset(parts, sep, k) == |pre| + o;
        SliceRight(pre, jr, o, o + |parts[k]|);
      }
    }
  }

  /** Between part `k` and part `k + 1` the joined string holds exactly `sep`. */
  lemma {:induction false} JoinSeparator(parts: seq<string>, sep: string, k: nat)
    requires k + 1 < |parts|
    ensures Offset(parts, sep, k) + |parts[k]| + |sep| == Offset(parts, sep, k + 1)
    ensures Offset(parts, sep, k + 1) <= |Join(parts, sep)|
    ensures Join(parts, sep)[Offset(parts, sep, k) + |parts[k]|..Offset(parts, sep, k + 1)] == sep
    decreases k
  {
    var rest := parts[1..];
    var jr := Join(rest, sep);
    var pre := parts[0] + sep;
    assert Join(parts, sep) == pre + jr;
    if k == 0 {
      assert Offset(rest, sep, 0) == 0;
      assert Join(parts, sep)[|parts[0]|..|parts[0]| + |sep|] == sep by {
        assert pre + jr == parts[0] + (sep + jr);
        SliceRight(parts[0], sep + jr, 0, |sep|);
        SliceLeft(sep, jr);
      }
    } else {
      JoinSeparator(rest, sep, k - 1);
      assert rest[k - 1] == parts[k];
      var i := Offset(rest, sep, k - 1) + |parts[k]|;
      var j := Offset(rest, sep, k);
      assert Join(parts, sep)[|pre| + i..|pre| + j] == jr[i..j] by {
        SliceRight(pre, jr, i, j);
      }
    }
  }
}
