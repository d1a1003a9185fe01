/** JavaScript strings as the onboarding form sees them: sequences of UTF-16
    code units (what `.length` counts), and `String.prototype.trim`, which
    removes leading and then trailing white space and line terminators as the
    ECMAScript language specification defines them (the WhiteSpace and
    LineTerminator productions, used by the TrimString operation). */
module JsText {

  /** One UTF-16 code unit. */
  newtype CodeUnit = x: int | 0 <= x < 0x1_0000

  /** A JavaScript string value. */
  type JsString = seq<CodeUnit>

  /** True when `c` is removed by `trim`: a WhiteSpace code point (tab,
      vertical tab, form feed, space, no-break space, byte order mark and every
      other space separator) or a LineTerminator. All of them lie in the Basic
      Multilingual Plane, so each is a single code unit. */
  predicate IsWhiteSpace(c: CodeUnit) {
    // WhiteSpace: TAB, VT, FF, SP, NBSP, ZWNBSP
    || c == 0x0009 || c == 0x000B || c == 0x000C || c == 0x0020 || c == 0x00A0 || c == 0xFEFF
    // the remaining Unicode space separators (category Zs)
    || c == 0x1680 || (0x2000 <= c <= 0x200A) || c == 0x202F || c == 0x205F || c == 0x3000
    // LineTerminator: LF, CR, LS, PS
    || c == 0x000A || c == 0x000D || c == 0x2028 || c == 0x2029
  }

  /** Every code unit of `s` is white space (this includes the empty string). */
  ghost predicate IsBlank(s: JsString) {
    forall k :: 0 <= k < |s| ==> IsWhiteSpace(s[k])
  }

  /** `s` has nothing left to trim: it is empty, or it starts and ends with a
      code unit that is not white space. */
  predicate IsTrimmed(s: JsString) {
    s == [] || (!IsWhiteSpace(s[0]) && !IsWhiteSpace(s[|s| - 1]))
  }

  /** `s.trimStart()`: what follows the leading white space. */
  function TrimStart(s: JsString): (r: JsString)
    ensures |r| <= |s|
    ensures r == [] || !IsWhiteSpace(r[0])
  {
    if s != [] && IsWhiteSpace(s[0]) then TrimStart(s[1..]) else s
  }

  /** `s.trimEnd()`: what precedes the trailing white space. */
  function TrimEnd(s: JsString): (r: JsString)
    ensures |r| <= |s|
    ensures r == [] || !IsWhiteSpace(r[|r| - 1])
  {
    if s != [] && IsWhiteSpace(s[|s| - 1]) then TrimEnd(s[..|s| - 1]) else s
  }

  /** `trimStart` keeps a suffix of `s` and drops only white space before it. */
  lemma {:induction false} TrimStartSuffix(s: JsString)
    ensures TrimStart(s) == s[|s| - |TrimStart(s)|..]
    ensures forall k :: 0 <= k < |s| - |TrimStart(s)| ==> IsWhiteSpace(s[k])
  {
    if s != [] && IsWhiteSpace(s[0]) {
      TrimStartSuffix(s[1..]);
      assert s[1..][|s| - 1 - |TrimStart(s)|..] == s[|s| - |TrimStart(s)|..];
      forall k | 0 < k < |s| - |TrimStart(s)| ensures IsWhiteSpace(s[k]) {
        assert s[k] == s[1..][k - 1];
      }
    }
  }

  /** `trimEnd` keeps a prefix of `s` and drops only white space after it. */
  lemma {:induction false} TrimEndPrefix(s: JsString)
    ensures TrimEnd(s) == s[..|TrimEnd(s)|]
    ensures forall k :: |TrimEnd(s)| <= k < |s| ==> IsWhiteSpace(s[k])
  {
    if s != [] && IsWhiteSpace(s[|s| - 1]) {
      TrimEndPrefix(s[..|s| - 1]);
      assert s[..|s| - 1][..|TrimEnd(s)|] == s[..|TrimEnd(s)|];
      forall k | |TrimEnd(s)| <= k < |s| - 1 ensures IsWhiteSpace(s[k]) {
        assert s[k] == s[..|s| - 1][k];
      }
    }
  }

  /** `s.trim()`: strip the leading white space, then the trailing white space.
      What is left has nothing more to trim. */
  function Trim(s: JsString): (r: JsString)
    ensures |r| <= |s|
    ensures IsTrimmed(r)
  {
    var t := TrimStart(s);
    TrimEndPrefix(t);
    TrimEnd(t)
  }

  /** Trimming leaves nothing exactly when the string is blank. */
  lemma TrimEmptyIffBlank(s: JsString)
    ensures TrimStart(s) == [] <==> IsBlank(s)
    ensures Trim(s) == [] <==> IsBlank(s)
  {
    var t := TrimStart(s);
    TrimStartSuffix(s);
    TrimEndPrefix(t);
    if t != [] {
      assert !IsWhiteSpace(t[0]) && t[0] == s[|s| - |t|];
      assert TrimEnd(t) != [];
    }
  }

  /** `Trim` only removes white space: the trimmed string sits in `s` right
      after the leading white space, and every code unit of `s` before or after
      it is white space. */
  lemma TrimDecomposes(s: JsString)
    ensures var i := |s| - |TrimStart(s)|;
            && i + |Trim(s)| <= |s|
            && s[i..i + |Trim(s)|] == Trim(s)
            && (forall k :: 0 <= k < i ==> IsWhiteSpace(s[k]))
            && (forall k :: i + |Trim(s)| <= k < |s| ==> IsWhiteSpace(s[k]))
  {
    var t := TrimStart(s);
    var r := Trim(s);
    var i := |s| - |t|;
    assert t == s[i..] && forall k :: 0 <= k < i ==> IsWhiteSpace(s[k]) by {
      TrimStartSuffix(s);
    }
    assert r == t[..|r|] && forall k :: |r| <= k < |t| ==> IsWhiteSpace(t[k]) by {
      TrimEndPrefix(t);
    }
    forall k | i + |r| <= k < |s| ensures IsWhiteSpace(s[k]) {
      assert s[k] == t[k - i];
    }
    assert s[i..i + |r|] == t[..|r|];
  }

  /** A string with nothing to trim is its own trimmed form. */
  lemma TrimOfTrimmed(s: JsString)
    requires IsTrimmed(s)
    ensures Trim(s) == s
  {
    if s != [] {
      assert TrimStart(s) == s;
    }
  }

  /** Trimming twice is trimming once. */
  lemma TrimIdempotent(s: JsString)
    ensures Trim(Trim(s)) == Trim(s)
  {
    TrimOfTrimmed(Trim(s));
  }

  /** Leading white space does not change what `trimStart` keeps. */
  lemma {:induction false} TrimStartPadded(pre: JsString, s: JsString)
    requires IsBlank(pre)
    ensures TrimStart(pre + s) == TrimStart(s)
  {
    if pre != [] {
      assert (pre + s)[0] == pre[0];
      assert (pre + s)[1..] == pre[1..] + s;
      TrimStartPadded(pre[1..], s);
    } else {
      assert pre + s == s;
    }
  }

  /** Trailing white space does not change what `trimEnd` keeps. */
  lemma {:induction false} TrimEndPadded(s: JsString, post: JsString)
    requires IsBlank(post)
    ensures TrimEnd(s + post) == TrimEnd(s)
  {
    if post != [] {
      var last := |s + post| - 1;
      assert (s + post)[last] == post[|post| - 1];
      assert (s + post)[..last] == s + post[..|post| - 1];
      TrimEndPadded(s, post[..|post| - 1]);
    } else {
      assert s + post == s;
    }
  }

  /** Once a string has something other than white space, `trimStart` stops
      inside it, so whatever follows is kept whole. */
  lemma {:induction false} TrimStartAppend(s: JsString, post: JsString)
    requires !IsBlank(s)
    ensures TrimStart(s + post) == TrimStart(s) + post
  {
    assert (s + post)[0] == s[0];
    if IsWhiteSpace(s[0]) {
      assert !IsBlank(s[1..]);
      assert (s + post)[1..] == s[1..] + post;
      TrimStartAppend(s[1..], post);
    }
  }

  /** White space added around a string does not change its trimmed form. */
  lemma TrimIgnoresPadding(pre: JsString, s: JsString, post: JsString)
    requires IsBlank(pre) && IsBlank(post)
    ensures Trim(pre + s + post) == Trim(s)
  {
    assert TrimStart(pre + s + post) == TrimStart(s + post) by {
      assert pre + s + post == pre + (s + post);
      TrimStartPadded(pre, s + post);
    }
    if IsBlank(s) {
      assert IsBlank(s + post);
      assert TrimStart(s + post) == [] by {
        TrimEmptyIffBlank(s + post);
      }
      assert TrimStart(s) == [] by {
        TrimEmptyIffBlank(s);
      }
    } else {
      assert TrimStart(s + post) == TrimStart(s) + post by {
        TrimStartAppend(s, post);
      }
      TrimEndPadded(TrimStart(s), post);
    }
  }

  /** `Trim` is determined by what it removes: whenever `s` is a string with
      nothing to trim surrounded by blank text, that string is `Trim(s)`. With
      `TrimDecomposes` this characterises `Trim` completely. */
  lemma TrimUnique(pre: JsString, m: JsString, post: JsString)
    requires IsBlank(pre) && IsBlank(post) && IsTrimmed(m)
    ensures Trim(pre + m + post) == m
  {
    TrimIgnoresPadding(pre, m, post);
    TrimOfTrimmed(m);
  }
}
