/** `String.prototype.trim`, as the settings page applies it. */
module JsString {

  /** ECMAScript WhiteSpace and LineTerminator code points: the characters
      `trim` removes. */
  predicate IsJsWhitespace(c: char)
  {
    var n := c as int;
    n == 0x09 || n == 0x0A || n == 0x0B || n == 0x0C || n == 0x0D || n == 0x20 ||
    n == 0xA0 || n == 0x1680 || (0x2000 <= n <= 0x200A) || n == 0x2028 || n == 0x2029 ||
    n == 0x202F || n == 0x205F || n == 0x3000 || n == 0xFEFF
  }

  predicate AllWhitespace(s: string)
  {
    forall i | 0 <= i < |s| :: IsJsWhitespace(s[i])
  }

  /** The result neither starts nor ends with whitespace. */
  predicate IsTrimmed(s: string)
  {
    s == [] || (!IsJsWhitespace(s[0]) && !IsJsWhitespace(s[|s| - 1]))
  }

  /** The end of the run of whitespace in `s` that starts at index `i`. */
  function WhitespaceEnd(s: string, i: nat): (n: nat)
    requires i <= |s|
    ensures i <= n <= |s|
    ensures forall k | i <= k < n :: IsJsWhitespace(s[k])
    ensures n < |s| ==> !IsJsWhitespace(s[n])
    decreases |s| - i
  {
    if i < |s| && IsJsWhitespace(s[i]) then WhitespaceEnd(s, i + 1) else i
  }

  /** The start of the run of whitespace in `s` that ends at index `j`, not
      going below `lo`. */
  function WhitespaceStart(s: string, lo: nat, j: nat): (n: nat)
    requires lo <= j <= |s|
    ensures lo <= n <= j
    ensures forall k | n <= k < j :: IsJsWhitespace(s[k])
    ensures lo < n ==> !IsJsWhitespace(s[n - 1])
  {
    if lo < j && IsJsWhitespace(s[j - 1]) then WhitespaceStart(s, lo, j - 1) else j
  }

  /** `String.prototype.trim`: the contiguous middle of `s` between a
      whitespace prefix and a whitespace suffix, itself trimmed. */
  function Trim(s: string): (r: string)
    ensures IsTrimmed(r)
    ensures exists i: nat, j: nat | i <= j <= |s| ::
      r == s[i..j] && AllWhitespace(s[..i]) && AllWhitespace(s[j..])
  {
    var i := WhitespaceEnd(s, 0);
    var j := WhitespaceStart(s, i, |s|);
    assert i < |s| ==> i < j;
    assert AllWhitespace(s[..i]) && AllWhitespace(s[j..]);
    s[i..j]
  }

  /** A string of blanks trims to the empty string. */
  lemma BlankTrimsToEmpty(s: string)
    requires AllWhitespace(s)
    ensures Trim(s) == ""
  {
    assert WhitespaceEnd(s, 0) == |s|;
  }

  /** Trimming is idempotent. */
  lemma TrimIdempotent(s: string)
    ensures Trim(Trim(s)) == Trim(s)
  {
    var r := Trim(s);
    TrimmedFixed(r);
  }

  /** A trimmed string is left unchanged by `trim`. */
  lemma TrimmedFixed(s: string)
    requires IsTrimmed(s)
    ensures Trim(s) == s
  {
    if s != [] {
      assert WhitespaceEnd(s, 0) == 0;
      assert WhitespaceStart(s, 0, |s|) == |s|;
    }
  }
}
