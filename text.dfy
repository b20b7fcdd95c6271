/**
 * The string operations the views apply to the `city` parameter and to the
 * upstream weather description: Python's `str.strip()`, `str.lower()` and
 * `str.title()`. Whitespace is Python's full `str.isspace()` set; case
 * mapping is modelled for ASCII letters only (every other character is
 * uncased and left as it is).
 */
module Text {

  /** The characters Python's `str.strip()` removes when given no argument. */
  predicate IsSpace(c: char) {
    || c == ' '
    || ('\t' <= c <= '\r')
    || ('\U{1C}' <= c <= '\U{1F}')
    || c == '\U{85}' || c == '\U{A0}' || c == '\U{1680}'
    || ('\U{2000}' <= c <= '\U{200A}')
    || c == '\U{2028}' || c == '\U{2029}' || c == '\U{202F}'
    || c == '\U{205F}' || c == '\U{3000}'
  }

  /** Empty or made only of whitespace. */
  predicate Blank(s: string) {
    forall i :: 0 <= i < |s| ==> IsSpace(s[i])
  }

  /** `s.lstrip()`: drops the leading whitespace and nothing else. */
  function TrimStart(s: string): (r: string)
    ensures |r| <= |s| && r == s[|s| - |r|..]
    ensures Blank(s[..|s| - |r|])
    ensures r != [] ==> !IsSpace(r[0])
  {
    if s != [] && IsSpace(s[0]) then
      var r := TrimStart(s[1..]);
      assert s[..|s| - |r|] == [s[0]] + s[1..][..|s| - 1 - |r|];
      r
    else s
  }

  /** `s.rstrip()`: drops the trailing whitespace and nothing else. */
  function TrimEnd(s: string): (r: string)
    ensures |r| <= |s| && r == s[..|r|]
    ensures Blank(s[|r|..])
    ensures r != [] ==> !IsSpace(r[|r| - 1])
  {
    if s != [] && IsSpace(s[|s| - 1]) then
      var r := TrimEnd(s[..|s| - 1]);
      assert s[|r|..] == s[..|s| - 1][|r|..] + [s[|s| - 1]];
      r
    else s
  }

  /** `s.strip()`: the middle of `s` left after removing its leading and trailing whitespace;
      empty exactly when `s` is blank, otherwise framed by non-space characters. */
  function Strip(s: string): (r: string)
    ensures var k := |s| - |TrimStart(s)|;
      && k + |r| <= |s| && r == s[k..k + |r|]
      && Blank(s[..k]) && Blank(s[k + |r|..])
    ensures r == [] <==> Blank(s)
    ensures r != [] ==> !IsSpace(r[0]) && !IsSpace(r[|r| - 1])
  {
    var t := TrimStart(s);
    var r := TrimEnd(t);
    Infix(s, t, r);
    r
  }

  /** A blank prefix and a blank suffix cut off `s` frame its middle `r`. */
  lemma Infix(s: string, t: string, r: string)
    requires |t| <= |s| && t == s[|s| - |t|..] && Blank(s[..|s| - |t|])
    requires |r| <= |t| && r == t[..|r|] && Blank(t[|r|..])
    requires r != [] ==> !IsSpace(r[|r| - 1])
    ensures var k := |s| - |t|;
      && k + |r| <= |s| && r == s[k..k + |r|] && Blank(s[k + |r|..])
    ensures r == [] <==> Blank(s)
  {
    var k := |s| - |t|;
    assert t[|r|..] == s[k + |r|..];
    if r == [] {
      forall i | 0 <= i < |s| ensures IsSpace(s[i]) {
        if i < k { assert s[i] == s[..k][i]; } else { assert s[i] == t[i - k]; }
      }
    } else {
      assert s[k + |r| - 1] == r[|r| - 1];
    }
  }

  /** Leading blank padding is dropped by `lstrip()`. */
  lemma {:induction false} TrimStartDropsPadding(pre: string, x: string)
    requires Blank(pre)
    ensures TrimStart(pre + x) == TrimStart(x)
  {
    if pre == [] {
      assert pre + x == x;
    } else {
      assert (pre + x)[0] == pre[0];
      assert (pre + x)[1..] == pre[1..] + x;
      TrimStartDropsPadding(pre[1..], x);
    }
  }

  /** Trailing blank padding passes through `lstrip()` of a non-blank string. */
  lemma {:induction false} TrimStartKeepsTail(x: string, post: string)
    requires !Blank(x) && Blank(post)
    ensures TrimStart(x + post) == TrimStart(x) + post
  {
    assert (x + post)[0] == x[0];
    if IsSpace(x[0]) {
      assert (x + post)[1..] == x[1..] + post;
      TrimStartKeepsTail(x[1..], post);
    }
  }

  /** Trailing blank padding is dropped by `rstrip()`. */
  lemma {:induction false} TrimEndDropsPadding(x: string, post: string)
    requires Blank(post)
    ensures TrimEnd(x + post) == TrimEnd(x)
  {
    if post == [] {
      assert x + post == x;
    } else {
      assert (x + post)[|x + post| - 1] == post[|post| - 1];
      assert (x + post)[..|x + post| - 1] == x + post[..|post| - 1];
      TrimEndDropsPadding(x, post[..|post| - 1]);
    }
  }

  /** Surrounding whitespace does not change the stripped value. */
  lemma StripIgnoresPadding(pre: string, s: string, post: string)
    requires Blank(pre) && Blank(post)
    ensures Strip(pre + s + post) == Strip(s)
  {
    if Blank(s) {
      assert Blank(pre + s + post) by {
        forall i | 0 <= i < |pre + s + post| ensures IsSpace((pre + s + post)[i]) {
          if i < |pre| {
            assert (pre + s + post)[i] == pre[i];
          } else if i < |pre| + |s| {
            assert (pre + s + post)[i] == s[i - |pre|];
          } else {
            assert (pre + s + post)[i] == post[i - |pre| - |s|];
          }
        }
      }
    } else {
      assert pre + s + post == pre + (s + post);
      TrimStartDropsPadding(pre, s + post);
      TrimStartKeepsTail(s, post);
      TrimEndDropsPadding(TrimStart(s), post);
    }
  }

  /** Stripping twice is stripping once. */
  lemma StripIdempotent(s: string)
    ensures Strip(Strip(s)) == Strip(s)
  {
    var r := Strip(s);
    if r != [] {
      assert TrimStart(r) == r;
      assert TrimEnd(r) == r;
    }
  }

  predicate IsUpper(c: char) { 'A' <= c <= 'Z' }
  predicate IsLower(c: char) { 'a' <= c <= 'z' }
  predicate IsLetter(c: char) { IsUpper(c) || IsLower(c) }

  function LowerChar(c: char): char {
    if IsUpper(c) then (c as int + 32) as char else c
  }

  function UpperChar(c: char): char {
    if IsLower(c) then (c as int - 32) as char else c
  }

  /** Changing case never turns a letter into a non-letter or back. */
  lemma CaseKeepsLetters(c: char)
    ensures IsLetter(LowerChar(c)) == IsLetter(c) && IsLetter(UpperChar(c)) == IsLetter(c)
    ensures LowerChar(LowerChar(c)) == LowerChar(c) && LowerChar(UpperChar(c)) == LowerChar(c)
    ensures UpperChar(LowerChar(c)) == UpperChar(c) && UpperChar(UpperChar(c)) == UpperChar(c)
  {
  }

  /** `s.lower()`, character by character. */
  function Lower(s: string): (r: string)
    ensures |r| == |s|
    ensures forall i :: 0 <= i < |s| ==> r[i] == LowerChar(s[i])
  {
    if s == [] then [] else [LowerChar(s[0])] + Lower(s[1..])
  }

  /** Lower-casing neither creates nor removes whitespace, so it commutes with `lstrip()`. */
  lemma {:induction false} TrimStartLower(s: string)
    ensures TrimStart(Lower(s)) == Lower(TrimStart(s))
  {
    var l := Lower(s);
    if s != [] {
      assert IsSpace(l[0]) == IsSpace(s[0]);
      if IsSpace(s[0]) {
        assert l[1..] == Lower(s[1..]);
        assert TrimStart(l) == TrimStart(l[1..]);
        assert TrimStart(s) == TrimStart(s[1..]);
        TrimStartLower(s[1..]);
      } else {
        assert TrimStart(l) == l;
      }
    }
  }

  lemma {:induction false} TrimEndLower(s: string)
    ensures TrimEnd(Lower(s)) == Lower(TrimEnd(s))
  {
    var l := Lower(s);
    if s != [] {
      assert IsSpace(l[|s| - 1]) == IsSpace(s[|s| - 1]);
      if IsSpace(s[|s| - 1]) {
        assert l[..|s| - 1] == Lower(s[..|s| - 1]);
        assert TrimEnd(l) == TrimEnd(l[..|s| - 1]);
        assert TrimEnd(s) == TrimEnd(s[..|s| - 1]);
        TrimEndLower(s[..|s| - 1]);
      } else {
        assert TrimEnd(l) == l;
      }
    }
  }

  /** `s.strip().lower() == s.lower().strip()`. */
  lemma StripLower(s: string)
    ensures Lower(Strip(s)) == Strip(Lower(s))
  {
    TrimStartLower(s);
    TrimEndLower(TrimStart(s));
  }

  /** Two characters are the same letter in either case, or the same character. */
  predicate SameCharIgnoringCase(x: char, y: char) {
    x == y || (IsLetter(x) && IsLetter(y) && (x as int - y as int == 32 || y as int - x as int == 32))
  }

  /** Two strings that differ at most in the case of their letters. */
  predicate SameIgnoringCase(a: string, b: string) {
    |a| == |b| && forall i :: 0 <= i < |a| ==> SameCharIgnoringCase(a[i], b[i])
  }

  lemma LowerCharEq(x: char, y: char)
    ensures LowerChar(x) == LowerChar(y) <==> SameCharIgnoringCase(x, y)
  {
  }

  /** Lower-casing identifies exactly the strings that differ only in case. */
  lemma LowerEqIff(a: string, b: string)
    ensures Lower(a) == Lower(b) <==> SameIgnoringCase(a, b)
  {
    if Lower(a) == Lower(b) {
      forall i | 0 <= i < |a| ensures SameCharIgnoringCase(a[i], b[i]) {
        assert Lower(a)[i] == Lower(b)[i];
        LowerCharEq(a[i], b[i]);
      }
    }
    if SameIgnoringCase(a, b) {
      forall i | 0 <= i < |a| ensures Lower(a)[i] == Lower(b)[i] {
        LowerCharEq(a[i], b[i]);
      }
    }
  }

  /** `s.title()` continued after a character that was (`afterLetter`) or was not a letter. */
  function TitleFrom(s: string, afterLetter: bool): (r: string)
    ensures |r| == |s|
    ensures forall i :: 0 <= i < |s| ==>
      r[i] == (if (if i == 0 then afterLetter else IsLetter(s[i - 1])) then LowerChar(s[i]) else UpperChar(s[i]))
  {
    if s == [] then []
    else [if afterLetter then LowerChar(s[0]) else UpperChar(s[0])] + TitleFrom(s[1..], IsLetter(s[0]))
  }

  /** `s.title()`: a letter that starts a word is upper-cased, every other letter lower-cased. */
  function Title(s: string): (r: string)
    ensures |r| == |s|
    ensures forall i :: 0 <= i < |s| ==>
      r[i] == (if i > 0 && IsLetter(s[i - 1]) then LowerChar(s[i]) else UpperChar(s[i]))
  {
    TitleFrom(s, false)
  }

  /** Title-casing an already title-cased description changes nothing. */
  lemma TitleIdempotent(s: string)
    ensures Title(Title(s)) == Title(s)
  {
    var t := Title(s);
    forall i | 0 <= i < |s| ensures Title(t)[i] == t[i] {
      CaseKeepsLetters(s[i]);
      var lower := i > 0 && IsLetter(s[i - 1]);
      if i > 0 {
        CaseKeepsLetters(s[i - 1]);
        var j := i - 1;
        assert 0 <= j < |s|;
        assert t[j] == (if j > 0 && IsLetter(s[j - 1]) then LowerChar(s[j]) else UpperChar(s[j]));
        assert IsLetter(t[i - 1]) == IsLetter(s[i - 1]);
      }
      assert t[i] == if lower then LowerChar(s[i]) else UpperChar(s[i]);
      assert Title(t)[i] == if lower then LowerChar(t[i]) else UpperChar(t[i]);
    }
  }
}
