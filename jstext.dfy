/**
 * `String.prototype.trim` as the listing wizard uses it: drop the white space
 * and line terminators of ECMAScript (sections 12.2 and 12.3 of ECMA-262) from
 * both ends of a string.
 */
module JsText {

  /** WhiteSpace or LineTerminator code points in the sense of ECMA-262. */
  predicate IsJsSpace(c: char)
  {
    || c == '\t' || c == '\n' || c == '\U{000B}' || c == '\U{000C}' || c == '\r'
    || c == ' ' || c == '\U{00A0}' || c == '\U{1680}'
    || ('\U{2000}' <= c <= '\U{200A}')
    || c == '\U{2028}' || c == '\U{2029}' || c == '\U{202F}' || c == '\U{205F}'
    || c == '\U{3000}' || c == '\U{FEFF}'
  }

  /** Every character of `s` is white space. */
  predicate AllSpace(s: string)
  {
    forall k :: 0 <= k < |s| ==> IsJsSpace(s[k])
  }

  /** `s` with its leading white space removed. */
  function TrimStart(s: string): string
  {
    if s == [] || !IsJsSpace(s[0]) then s else TrimStart(s[1..])
  }

  /** `s` with its trailing white space removed. */
  function TrimEnd(s: string): string
  {
    if s == [] || !IsJsSpace(s[|s| - 1]) then s else TrimEnd(s[..|s| - 1])
  }

  /** `s.trim()`: never longer than `s`, and neither starting nor ending with white space. */
  function Trim(s: string): (r: string)
    ensures |r| <= |s|
    ensures r == [] || (!IsJsSpace(r[0]) && !IsJsSpace(r[|r| - 1]))
  {
    TrimStartShape(s);
    TrimEndShape(TrimStart(s));
    TrimEnd(TrimStart(s))
  }

  /** TrimStart keeps a suffix, drops only white space, and stops at a non-space. */
  lemma {:induction false} TrimStartShape(s: string)
    ensures |TrimStart(s)| <= |s| && TrimStart(s) == s[|s| - |TrimStart(s)|..]
    ensures AllSpace(s[..|s| - |TrimStart(s)|])
    ensures TrimStart(s) == [] || !IsJsSpace(TrimStart(s)[0])
    decreases |s|
  {
    if s != [] && IsJsSpace(s[0]) {
      TrimStartShape(s[1..]);
      var r := TrimStart(s[1..]);
      assert s[..|s| - |r|] == [s[0]] + s[1..][..|s| - 1 - |r|];
    }
  }

  /** TrimEnd keeps a prefix, drops only white space, and stops at a non-space. */
  lemma {:induction false} TrimEndShape(s: string)
    ensures |TrimEnd(s)| <= |s| && TrimEnd(s) == s[..|TrimEnd(s)|]
    ensures AllSpace(s[|TrimEnd(s)|..])
    ensures TrimEnd(s) == [] || !IsJsSpace(TrimEnd(s)[|TrimEnd(s)| - 1])
    decreases |s|
  {
    if s != [] && IsJsSpace(s[|s| - 1]) {
      TrimEndShape(s[..|s| - 1]);
      var r := TrimEnd(s[..|s| - 1]);
      assert s[|r|..] == s[..|s| - 1][|r|..] + [s[|s| - 1]];
    }
  }

  /**
   * What trim promises: the result is a contiguous piece of `s`, everything cut
   * away on either side is white space, and the result neither starts nor ends
   * with white space.
   */
  lemma TrimIsInnerSlice(s: string)
    ensures exists lo :: 0 <= lo <= |s| - |Trim(s)| && Trim(s) == s[lo..lo + |Trim(s)|]
              && AllSpace(s[..lo]) && AllSpace(s[lo + |Trim(s)|..])
    ensures Trim(s) == [] || (!IsJsSpace(Trim(s)[0]) && !IsJsSpace(Trim(s)[|Trim(s)| - 1]))
  {
    var t := TrimStart(s);
    var r := Trim(s);
    var lo := |s| - |t|;
    TrimStartShape(s);
    TrimEndShape(t);
    assert r == t[..|r|];
    assert t == s[lo..];
    assert r == s[lo..lo + |r|];
    assert t[|r|..] == s[lo + |r|..];
    if r != [] {
      if t[0] != r[0] { assert false; }
    }
  }

  /** Trimming twice is trimming once. */
  lemma TrimIdempotent(s: string)
    ensures Trim(Trim(s)) == Trim(s)
  {
    var r := Trim(s);
    TrimIsInnerSlice(s);
    TrimStartShape(r);
    TrimEndShape(r);
    assert TrimStart(r) == r;
    assert TrimEnd(r) == r;
  }

  /** A string trims to the empty string exactly when every character is white space. */
  lemma TrimEmptyIffAllSpace(s: string)
    ensures Trim(s) == [] <==> AllSpace(s)
  {
    var t := TrimStart(s);
    var r := Trim(s);
    TrimStartShape(s);
    TrimEndShape(t);
    if r == [] {
      assert t[|r|..] == t;
      assert s[..|s| - |t|] == s;
    } else {
      assert !IsJsSpace(r[0]);
      assert t[0] == r[0];
      assert s[|s| - |t|] == t[0];
    }
  }

  /** Trimming removes white space padding, chosen independently for each side. */
  lemma TrimPadded(s: string, lead: string, trail: string)
    requires AllSpace(lead) && AllSpace(trail)
    ensures Trim(lead + s + trail) == Trim(s)
  {
    TrimStartPadded(lead, s + trail);
    assert lead + s + trail == lead + (s + trail);
    TrimStartAppend(s, trail);
    TrimEndPadded(TrimStart(s), trail);
  }

  lemma {:induction false} TrimStartPadded(pad: string, s: string)
    requires AllSpace(pad)
    ensures TrimStart(pad + s) == TrimStart(s)
    decreases |pad|
  {
    if pad != [] {
      assert (pad + s)[0] == pad[0];
      assert (pad + s)[1..] == pad[1..] + s;
      TrimStartPadded(pad[1..], s);
    } else {
      assert pad + s == s;
    }
  }

  lemma {:induction false} TrimEndPadded(s: string, pad: string)
    requires AllSpace(pad)
    ensures TrimEnd(s + pad) == TrimEnd(s)
    decreases |pad|
  {
    if pad != [] {
      assert (s + pad)[|s + pad| - 1] == pad[|pad| - 1];
      assert (s + pad)[..|s + pad| - 1] == s + pad[..|pad| - 1];
      TrimEndPadded(s, pad[..|pad| - 1]);
    } else {
      assert s + pad == s;
    }
  }

  /** Trailing white space survives TrimStart when something non-blank precedes it, or vanishes with it. */
  lemma {:induction false} TrimStartAppend(s: string, pad: string)
    requires AllSpace(pad)
    ensures TrimEnd(TrimStart(s + pad)) == TrimEnd(TrimStart(s) + pad)
    decreases |s|
  {
    if s == [] {
      assert s + pad == pad;
      TrimStartPadded(pad, []);
      assert pad + [] == pad;
      TrimEndPadded([], pad);
      assert [] + pad == pad;
    } else if IsJsSpace(s[0]) {
      assert (s + pad)[0] == s[0];
      assert (s + pad)[1..] == s[1..] + pad;
      TrimStartAppend(s[1..], pad);
    } else {
      assert (s + pad)[0] == s[0];
    }
  }

  /** A string that neither starts nor ends with white space trims to itself. */
  lemma TrimUnpadded(s: string)
    requires s != [] && !IsJsSpace(s[0]) && !IsJsSpace(s[|s| - 1])
    ensures Trim(s) == s
  {
  }

  // ------------------------------------------------------------ length

  /**
   * How many UTF-16 code units a character takes: one inside the Basic
   * Multilingual Plane, two (a surrogate pair) above U+FFFF.
   */
  function CodeUnits(c: char): (n: nat)
    ensures n == 1 <==> c as int < 0x10000
    ensures n == 1 || n == 2
  {
    if c as int < 0x10000 then 1 else 2
  }

  /**
   * `s.length` in JavaScript: the number of UTF-16 code units of `s`. Every
   * character counts once or twice.
   */
  function Utf16Length(s: string): (n: nat)
    ensures |s| <= n <= 2 * |s|
  {
    if s == [] then 0 else CodeUnits(s[0]) + Utf16Length(s[1..])
  }

  /** The length of a concatenation is the sum of the lengths. */
  lemma {:induction false} Utf16LengthAppend(a: string, b: string)
    ensures Utf16Length(a + b) == Utf16Length(a) + Utf16Length(b)
    decreases |a|
  {
    if a == [] {
      assert a + b == b;
    } else {
      assert (a + b)[0] == a[0];
      assert (a + b)[1..] == a[1..] + b;
      Utf16LengthAppend(a[1..], b);
    }
  }

  /** `.length` counts characters exactly when none lies above U+FFFF. */
  lemma {:induction false} Utf16LengthIsSizeIffBmp(s: string)
    ensures Utf16Length(s) == |s| <==> forall k :: 0 <= k < |s| ==> s[k] as int < 0x10000
    decreases |s|
  {
    if s != [] {
      Utf16LengthIsSizeIffBmp(s[1..]);
      if forall k :: 0 <= k < |s| ==> s[k] as int < 0x10000 {
        assert forall k :: 0 <= k < |s[1..]| ==> s[1..][k] == s[k + 1];
      } else {
        var k :| 0 <= k < |s| && s[k] as int >= 0x10000;
        if k > 0 {
          assert s[1..][k - 1] == s[k];
        }
      }
    }
  }
}
