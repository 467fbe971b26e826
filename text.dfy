/**
 * The JavaScript string primitives the voice modules rely on: `toLowerCase`, `trim`
 * and `includes`.
 */
module Text {

  /** Characters `String.prototype.trim` removes (ECMAScript WhiteSpace and LineTerminator). */
  predicate IsSpace(c: char) {
    c == '\t' || c == '\n' || c == '\U{B}' || c == '\U{C}' || c == '\r' || c == ' ' ||
    c == '\U{A0}' || c == '\U{1680}' || ('\U{2000}' <= c <= '\U{200A}') ||
    c == '\U{2028}' || c == '\U{2029}' || c == '\U{202F}' || c == '\U{205F}' ||
    c == '\U{3000}' || c == '\U{FEFF}'
  }

  predicate IsUpper(c: char) {
    'A' <= c <= 'Z'
  }

  function LowerChar(c: char): (r: char)
    ensures !IsUpper(r)
    ensures IsUpper(c) ==> r as int == c as int + 32
    ensures !IsUpper(c) ==> r == c
  {
    if IsUpper(c) then (c as int + 32) as char else c
  }

  /** `toLowerCase`, on the ASCII letters. */
  function ToLower(s: string): (r: string)
    ensures |r| == |s|
  {
    if |s| == 0 then "" else [LowerChar(s[0])] + ToLower(s[1..])
  }

  /** `toLowerCase` maps each character on its own. */
  lemma {:induction false} ToLowerChars(s: string)
    ensures forall i :: 0 <= i < |s| ==> ToLower(s)[i] == LowerChar(s[i])
  {
    if |s| > 0 {
      ToLowerChars(s[1..]);
      assert forall i :: 1 <= i < |s| ==> ToLower(s)[i] == ToLower(s[1..])[i - 1];
    }
  }

  predicate NoUpper(s: string) {
    forall i :: 0 <= i < |s| ==> !IsUpper(s[i])
  }

  lemma ToLowerNoUpper(s: string)
    ensures NoUpper(ToLower(s))
  {
    ToLowerChars(s);
  }

  lemma ToLowerOfLower(s: string)
    requires NoUpper(s)
    ensures ToLower(s) == s
  {
    ToLowerChars(s);
  }

  lemma ToLowerIdempotent(s: string)
    ensures ToLower(ToLower(s)) == ToLower(s)
  {
    ToLowerNoUpper(s);
    ToLowerOfLower(ToLower(s));
  }

  /** Lower-casing leaves whitespace where it was. */
  lemma ToLowerKeepsSpace(s: string)
    ensures forall i :: 0 <= i < |s| ==> (IsSpace(ToLower(s)[i]) <==> IsSpace(s[i]))
  {
    ToLowerChars(s);
  }

  predicate AllSpace(s: string) {
    forall i :: 0 <= i < |s| ==> IsSpace(s[i])
  }

  /** `trimStart`: drops the leading whitespace (see `TrimStartShape`). */
  function TrimStart(s: string): (r: string)
    ensures |r| <= |s|
  {
    if |s| > 0 && IsSpace(s[0]) then TrimStart(s[1..]) else s
  }

  /** `trimStart` drops a whitespace prefix and stops at the first non-space. */
  lemma {:induction false} TrimStartShape(s: string)
    ensures TrimStart(s) == s[|s| - |TrimStart(s)|..]
    ensures forall i :: 0 <= i < |s| - |TrimStart(s)| ==> IsSpace(s[i])
    ensures |TrimStart(s)| > 0 ==> !IsSpace(TrimStart(s)[0])
  {
    if |s| > 0 && IsSpace(s[0]) {
      var r := TrimStart(s[1..]);
      TrimStartShape(s[1..]);
      assert s[1..][|s[1..]| - |r|..] == s[|s| - |r|..];
      SpacesShiftRight(s, s[1..], |s| - |r|);
    }
  }

  lemma SpacesShiftRight(s: string, tail: string, n: int)
    requires 0 < n <= |s| && IsSpace(s[0]) && tail == s[1..]
    requires forall i :: 0 <= i < n - 1 ==> IsSpace(tail[i])
    ensures forall i :: 0 <= i < n ==> IsSpace(s[i])
  {
    forall i | 0 < i < n
      ensures IsSpace(s[i])
    {
      assert s[i] == tail[i - 1];
    }
  }

  /** `trimEnd`: drops the trailing whitespace (see `TrimEndShape`). */
  function TrimEnd(s: string): (r: string)
    ensures |r| <= |s|
  {
    if |s| > 0 && IsSpace(s[|s| - 1]) then TrimEnd(s[..|s| - 1]) else s
  }

  /** `trimEnd` drops a whitespace suffix and stops at the last non-space. */
  lemma {:induction false} TrimEndShape(s: string)
    ensures TrimEnd(s) == s[..|TrimEnd(s)|]
    ensures forall i :: |TrimEnd(s)| <= i < |s| ==> IsSpace(s[i])
    ensures |TrimEnd(s)| > 0 ==> !IsSpace(TrimEnd(s)[|TrimEnd(s)| - 1])
  {
    if |s| > 0 && IsSpace(s[|s| - 1]) {
      var r := TrimEnd(s[..|s| - 1]);
      TrimEndShape(s[..|s| - 1]);
      assert s[..|s| - 1][..|r|] == s[..|r|];
      SpacesShiftLeft(s, s[..|s| - 1], |r|);
    }
  }

  lemma SpacesShiftLeft(s: string, front: string, n: int)
    requires 0 <= n < |s| && IsSpace(s[|s| - 1]) && front == s[..|s| - 1]
    requires forall i :: n <= i < |s| - 1 ==> IsSpace(front[i])
    ensures forall i :: n <= i < |s| ==> IsSpace(s[i])
  {
    forall i | n <= i < |s| - 1
      ensures IsSpace(s[i])
    {
      assert s[i] == front[i];
    }
  }

  /** `trim`: drops the leading and the trailing whitespace. */
  function Trim(s: string): (r: string)
    ensures |r| <= |s|
  {
    TrimEnd(TrimStart(s))
  }

  /** The trimmed text neither starts nor ends with whitespace. */
  lemma TrimEnds(s: string)
    ensures |Trim(s)| > 0 ==> !IsSpace(Trim(s)[0]) && !IsSpace(Trim(s)[|Trim(s)| - 1])
  {
    var t := TrimStart(s);
    TrimStartShape(s);
    TrimEndShape(t);
    if |Trim(s)| > 0 {
      assert Trim(s)[0] == t[0];
    }
  }

  /** What `trim` removes is whitespace on both sides of the result, and only that. */
  lemma TrimSplits(s: string) returns (pre: string, post: string)
    ensures s == pre + Trim(s) + post
    ensures AllSpace(pre)
    ensures AllSpace(post)
  {
    var t := TrimStart(s);
    pre := StartSplit(s);
    post := EndSplit(t);
    Rejoin(s, pre, t, Trim(s), post);
  }

  lemma Rejoin(s: string, pre: string, t: string, m: string, post: string)
    requires s == pre + t && t == m + post
    ensures s == pre + m + post
  {}

  /** `trimStart` removes a whitespace prefix. */
  lemma StartSplit(s: string) returns (pre: string)
    ensures s == pre + TrimStart(s)
    ensures AllSpace(pre)
  {
    TrimStartShape(s);
    pre := s[..|s| - |TrimStart(s)|];
    assert s == pre + TrimStart(s);
    assert AllSpace(pre) by {
      forall k | 0 <= k < |pre|
        ensures IsSpace(pre[k])
      {
        assert pre[k] == s[k];
      }
    }
  }

  /** `trimEnd` removes a whitespace suffix. */
  lemma EndSplit(t: string) returns (post: string)
    ensures t == TrimEnd(t) + post
    ensures AllSpace(post)
  {
    TrimEndShape(t);
    var m := TrimEnd(t);
    post := t[|m|..];
    assert t == m + post;
    assert AllSpace(post) by {
      forall k | 0 <= k < |post|
        ensures IsSpace(post[k])
      {
        assert post[k] == t[|m| + k];
      }
    }
  }

  lemma TrimIdempotent(s: string)
    ensures Trim(Trim(s)) == Trim(s)
  {
    TrimEnds(s);
    TrimFixed(Trim(s));
  }

  /** Leading whitespace before a non-space (or nothing) is exactly what `trimStart` drops. */
  lemma {:induction false} TrimStartSkips(pre: string, rest: string)
    requires AllSpace(pre) && (|rest| == 0 || !IsSpace(rest[0]))
    ensures TrimStart(pre + rest) == rest
    decreases |pre|
  {
    if |pre| > 0 {
      assert (pre + rest)[1..] == pre[1..] + rest;
      TrimStartSkips(pre[1..], rest);
    } else {
      assert pre + rest == rest;
    }
  }

  /** Trailing whitespace after a non-space (or nothing) is exactly what `trimEnd` drops. */
  lemma {:induction false} TrimEndSkips(rest: string, post: string)
    requires AllSpace(post) && (|rest| == 0 || !IsSpace(rest[|rest| - 1]))
    ensures TrimEnd(rest + post) == rest
    decreases |post|
  {
    if |post| > 0 {
      assert (rest + post)[..|rest + post| - 1] == rest + post[..|post| - 1];
      TrimEndSkips(rest, post[..|post| - 1]);
    } else {
      assert rest + post == rest;
    }
  }

  /** Any split into whitespace, a core with non-space ends, and whitespace determines `trim`. */
  lemma TrimUnique(pre: string, mid: string, post: string)
    requires AllSpace(pre) && AllSpace(post)
    requires |mid| > 0 ==> !IsSpace(mid[0]) && !IsSpace(mid[|mid| - 1])
    ensures Trim(pre + mid + post) == mid
  {
    if |mid| > 0 {
      assert pre + mid + post == pre + (mid + post);
      TrimStartSkips(pre, mid + post);
      TrimEndSkips(mid, post);
    } else {
      assert pre + mid + post == (pre + post) + "";
      assert AllSpace(pre + post) by {
        forall i | 0 <= i < |pre + post|
          ensures IsSpace((pre + post)[i])
        {
          if i >= |pre| {
            assert (pre + post)[i] == post[i - |pre|];
          }
        }
      }
      TrimStartSkips(pre + post, "");
    }
  }

  lemma ToLowerAppend(a: string, b: string)
    ensures ToLower(a + b) == ToLower(a) + ToLower(b)
  {
    ToLowerChars(a + b);
    ToLowerChars(a);
    ToLowerChars(b);
    assert forall i :: 0 <= i < |a + b| ==> ToLower(a + b)[i] == (ToLower(a) + ToLower(b))[i];
  }

  lemma TrimKeepsNoUpper(s: string)
    requires NoUpper(s)
    ensures NoUpper(Trim(s))
  {
    var pre, post := TrimSplits(s);
    var r := Trim(s);
    forall i | 0 <= i < |r|
      ensures !IsUpper(r[i])
    {
      assert r[i] == s[|pre| + i];
    }
  }

  /** `s.toLowerCase().trim()`: the normal form both voice routers match against. */
  function Normalize(s: string): string {
    Trim(ToLower(s))
  }

  /** The normal form has no upper-case letter and no whitespace at either end. */
  lemma NormalizeShape(s: string)
    ensures NoUpper(Normalize(s))
    ensures |Normalize(s)| > 0 ==> !IsSpace(Normalize(s)[0]) && !IsSpace(Normalize(s)[|Normalize(s)| - 1])
  {
    ToLowerNoUpper(s);
    TrimKeepsNoUpper(ToLower(s));
    TrimEnds(ToLower(s));
  }

  /** A normal form is its own normal form. */
  lemma NormalizeIdempotent(s: string)
    ensures Normalize(Normalize(s)) == Normalize(s)
  {
    var r := Normalize(s);
    NormalizeShape(s);
    ToLowerOfLower(r);
    TrimFixed(r);
  }

  /**
   * Trimming the raw text and lower-casing it first, as the speech client does before
   * handing the text on, does not change its normal form.
   */
  lemma NormalizeAfterTrimmedLower(s: string)
    ensures Normalize(ToLower(Trim(s))) == Normalize(s)
  {
    NormalizeIsLowerTrim(s);
    TrimEnds(s);
    NormalizeLowerCore(Trim(s));
  }

  /** The normal form is the lower-cased trimmed text. */
  lemma NormalizeIsLowerTrim(s: string)
    ensures Normalize(s) == ToLower(Trim(s))
  {
    var pre, post := TrimSplits(s);
    TrimEnds(s);
    LowerTrimOfSplit(pre, Trim(s), post);
  }

  lemma LowerTrimOfSplit(pre: string, m: string, post: string)
    requires AllSpace(pre) && AllSpace(post)
    requires |m| > 0 ==> !IsSpace(m[0]) && !IsSpace(m[|m| - 1])
    ensures Trim(ToLower(pre + m + post)) == ToLower(m)
  {
    LowerSplit(pre, m, post);
    TrimUnique(ToLower(pre), ToLower(m), ToLower(post));
  }

  lemma NormalizeLowerCore(m: string)
    requires |m| > 0 ==> !IsSpace(m[0]) && !IsSpace(m[|m| - 1])
    ensures Normalize(ToLower(m)) == ToLower(m)
  {
    var l := ToLower(m);
    LowerKeepsEnds(m);
    TrimFixed(l);
    ToLowerIdempotent(m);
    TrimOfEqual(ToLower(l), l);
  }

  lemma TrimOfEqual(a: string, b: string)
    requires a == b
    ensures Trim(a) == Trim(b)
  {}

  lemma LowerKeepsEnds(m: string)
    requires |m| > 0 ==> !IsSpace(m[0]) && !IsSpace(m[|m| - 1])
    ensures |ToLower(m)| > 0 ==> !IsSpace(ToLower(m)[0]) && !IsSpace(ToLower(m)[|m| - 1])
  {
    ToLowerKeepsSpace(m);
  }

  /** Text with non-space ends is its own trim. */
  lemma TrimFixed(l: string)
    requires |l| > 0 ==> !IsSpace(l[0]) && !IsSpace(l[|l| - 1])
    ensures Trim(l) == l
  {
    assert "" + l + "" == l;
    TrimUnique("", l, "");
  }

  /** Lower-casing a whitespace / core / whitespace split keeps its shape. */
  lemma LowerSplit(pre: string, m: string, post: string)
    requires AllSpace(pre) && AllSpace(post)
    requires |m| > 0 ==> !IsSpace(m[0]) && !IsSpace(m[|m| - 1])
    ensures ToLower(pre + m + post) == ToLower(pre) + ToLower(m) + ToLower(post)
    ensures AllSpace(ToLower(pre)) && AllSpace(ToLower(post))
    ensures |ToLower(m)| > 0 ==> !IsSpace(ToLower(m)[0]) && !IsSpace(ToLower(m)[|m| - 1])
  {
    ToLowerAppend(pre + m, post);
    ToLowerAppend(pre, m);
    ToLowerKeepsSpace(pre);
    ToLowerKeepsSpace(post);
    ToLowerKeepsSpace(m);
  }

  /** `pat` occurs in `text` starting at index `i`. */
  predicate OccursAt(text: string, pat: string, i: int) {
    0 <= i && i + |pat| <= |text| && text[i..i + |pat|] == pat
  }

  /** The pattern occurs in `text` at index `i` or at a later one (the scan behind `includes`). */
  predicate ContainsFrom(text: string, pat: string, i: nat)
    decreases |text| - i
  {
    i + |pat| <= |text| && (text[i..i + |pat|] == pat || ContainsFrom(text, pat, i + 1))
  }

  /** `text.includes(pat)`: the pattern occurs at some index. */
  predicate Contains(text: string, pat: string) {
    ContainsFrom(text, pat, 0)
  }

  lemma {:induction false} OccursFrom(text: string, pat: string, i: nat, j: int)
    requires i <= j && OccursAt(text, pat, j)
    ensures ContainsFrom(text, pat, i)
    decreases j - i
  {
    if i < j {
      OccursFrom(text, pat, i + 1, j);
    }
  }

  lemma {:induction false} FoundFrom(text: string, pat: string, i: nat) returns (j: nat)
    requires ContainsFrom(text, pat, i)
    ensures i <= j && OccursAt(text, pat, j)
    decreases |text| - i
  {
    if text[i..i + |pat|] == pat {
      j := i;
    } else {
      j := FoundFrom(text, pat, i + 1);
    }
  }

  lemma OccursContains(text: string, pat: string, i: int)
    requires OccursAt(text, pat, i)
    ensures Contains(text, pat)
  {
    OccursFrom(text, pat, 0, i);
  }

  /** An index at which a contained pattern occurs. */
  lemma FoundOccurs(text: string, pat: string) returns (i: nat)
    requires Contains(text, pat)
    ensures OccursAt(text, pat, i)
  {
    i := FoundFrom(text, pat, 0);
  }

  /** `Contains` holds exactly when the pattern occurs at some index. */
  lemma ContainsIff(text: string, pat: string)
    ensures Contains(text, pat) <==> exists i :: OccursAt(text, pat, i)
  {
    if Contains(text, pat) {
      var i := FoundOccurs(text, pat);
    }
    if exists i :: OccursAt(text, pat, i) {
      var i :| OccursAt(text, pat, i);
      OccursContains(text, pat, i);
    }
  }

  /** Every text contains itself. */
  lemma ContainsSelf(s: string)
    ensures Contains(s, s)
  {
    assert OccursAt(s, s, 0);
    OccursContains(s, s, 0);
  }

  /** `includes` is transitive: a text containing `b` contains everything `b` contains. */
  lemma ContainsTransitive(a: string, b: string, c: string)
    requires Contains(a, b) && Contains(b, c)
    ensures Contains(a, c)
  {
    var i := FoundOccurs(a, b);
    var j := FoundOccurs(b, c);
    forall k | 0 <= k < |c|
      ensures a[i + j + k] == c[k]
    {
      assert a[i..i + |b|][j + k] == a[i + j + k];
      assert b[j..j + |c|][k] == b[j + k];
    }
    assert a[i + j..i + j + |c|] == c;
    OccursContains(a, c, i + j);
  }

  /** Every character of a contained pattern occurs in the text. */
  lemma ContainedCharsOccur(text: string, pat: string, c: char)
    requires c in pat
    ensures Contains(text, pat) ==> c in text
  {
    if Contains(text, pat) {
      var i := FoundOccurs(text, pat);
      var m :| 0 <= m < |pat| && pat[m] == c;
      assert text[i..i + |pat|][m] == text[i + m];
    }
  }
}
