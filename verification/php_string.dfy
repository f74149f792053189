/**
 PHP's trim family (trim, ltrim, rtrim) on strings of characters. Each strips
 the characters of a mask from one or both ends; trim without a mask uses
 PHP's default set of blank characters.
 */
module PhpString {

  /** The characters trim strips when it is given no mask:
      space, tab, line feed, carriage return, NUL and vertical tab. */
  const Whitespace: set<char> := {' ', '\t', '\n', '\r', '\0', '\U{B}'}

  /** Every character of s belongs to mask. */
  predicate AllIn(s: string, mask: set<char>) {
    forall i :: 0 <= i < |s| ==> s[i] in mask
  }

  /** r sits in s at offset i, everything before it belongs to lead and
      everything after it belongs to trail. */
  predicate StrippedFrom(s: string, r: string, i: int, lead: set<char>, trail: set<char>) {
    && 0 <= i && i + |r| <= |s|
    && s[i..i + |r|] == r
    && AllIn(s[..i], lead)
    && AllIn(s[i + |r|..], trail)
  }

  /** Joining two strings of mask characters gives one. */
  lemma AllInJoin(s: string, t: string, mask: set<char>)
    requires AllIn(s, mask) && AllIn(t, mask)
    ensures AllIn(s + t, mask)
  {
    forall i | 0 <= i < |s + t| ensures (s + t)[i] in mask {
      if i >= |s| { assert (s + t)[i] == t[i - |s|]; }
    }
  }

  /** Neither end of s belongs to mask. */
  predicate Unpadded(s: string, mask: set<char>) {
    s == [] || (s[0] !in mask && s[|s| - 1] !in mask)
  }

  /** ltrim(s, mask): drops the longest prefix made of mask characters. */
  function LTrim(s: string, mask: set<char>): (r: string)
    ensures |r| <= |s|
    ensures r == [] || r[0] !in mask
  {
    if |s| > 0 && s[0] in mask then LTrim(s[1..], mask) else s
  }

  /** ltrim keeps a suffix of s and drops only mask characters. */
  lemma {:induction false} LTrimSplit(s: string, mask: set<char>)
    ensures LTrim(s, mask) == s[|s| - |LTrim(s, mask)|..]
    ensures AllIn(s[..|s| - |LTrim(s, mask)|], mask)
  {
    if |s| > 0 && s[0] in mask {
      var r := LTrim(s[1..], mask);
      LTrimSplit(s[1..], mask);
      assert s[..|s| - |r|] == [s[0]] + s[1..][..|s| - 1 - |r|];
    }
  }

  /** rtrim(s, mask): drops the longest suffix made of mask characters. */
  function RTrim(s: string, mask: set<char>): (r: string)
    ensures |r| <= |s|
    ensures r == [] || r[|r| - 1] !in mask
  {
    if |s| > 0 && s[|s| - 1] in mask then RTrim(s[..|s| - 1], mask) else s
  }

  /** rtrim keeps a prefix of s and drops only mask characters. */
  lemma {:induction false} RTrimSplit(s: string, mask: set<char>)
    ensures RTrim(s, mask) == s[..|RTrim(s, mask)|]
    ensures AllIn(s[|RTrim(s, mask)|..], mask)
  {
    if |s| > 0 && s[|s| - 1] in mask {
      var r := RTrim(s[..|s| - 1], mask);
      RTrimSplit(s[..|s| - 1], mask);
      assert s[|r|..] == s[..|s| - 1][|r|..] + [s[|s| - 1]];
    }
  }

  /** trim(s): drops blank characters from both ends. */
  function Trim(s: string): (r: string)
    ensures Unpadded(r, Whitespace)
  {
    BothTrimsUnpadded(s, Whitespace);
    LTrim(RTrim(s, Whitespace), Whitespace)
  }

  /** trim cuts its result from between blanks. */
  lemma TrimIsPiece(s: string)
    ensures StrippedFrom(s, Trim(s), |RTrim(s, Whitespace)| - |Trim(s)|, Whitespace, Whitespace)
  {
    var t := RTrim(s, Whitespace);
    var r := LTrim(t, Whitespace);
    RTrimSplit(s, Whitespace);
    LTrimSplit(t, Whitespace);
    assert s[..|t| - |r|] == t[..|t| - |r|];
  }

  /** The contract of LTrim determines it: whenever the first k characters
      of s are mask characters and the next one is not, ltrim removes
      exactly those k. */
  lemma {:induction false} LTrimUnique(s: string, mask: set<char>, k: nat)
    requires k <= |s| && AllIn(s[..k], mask)
    requires k == |s| || s[k] !in mask
    ensures LTrim(s, mask) == s[k..]
  {
    if k > 0 {
      assert s[0] == s[..k][0];
      assert s[1..][..k - 1] == s[1..k];
      LTrimUnique(s[1..], mask, k - 1);
      assert s[1..][k - 1..] == s[k..];
    }
  }

  /** The contract of RTrim determines it: whenever the last k characters
      of s are mask characters and the one before them is not, rtrim
      removes exactly those k. */
  lemma {:induction false} RTrimUnique(s: string, mask: set<char>, k: nat)
    requires k <= |s| && AllIn(s[|s| - k..], mask)
    requires k == |s| || s[|s| - k - 1] !in mask
    ensures RTrim(s, mask) == s[..|s| - k]
  {
    if k > 0 {
      assert s[|s| - 1] == s[|s| - k..][k - 1];
      var u := s[..|s| - 1];
      assert u[|u| - (k - 1)..] == s[|s| - k..|s| - 1];
      RTrimUnique(u, mask, k - 1);
      assert u[..|u| - (k - 1)] == s[..|s| - k];
    }
  }

  /** The contract of Trim determines it: a piece of s that is not padded
      with blanks and is surrounded only by blanks is trim(s). */
  lemma TrimUnique(s: string, r: string, i: int)
    requires StrippedFrom(s, r, i, Whitespace, Whitespace)
    requires Unpadded(r, Whitespace)
    ensures Trim(s) == r
  {
    TrimIsPiece(s);
    var j := i + |r|;
    if r == [] {
      assert forall n :: 0 <= n < |s| ==> s[n] in Whitespace by {
        forall n | 0 <= n < |s| ensures s[n] in Whitespace {
          if n < i { assert s[n] == s[..i][n]; } else { assert s[n] == s[j..][n - j]; }
        }
      }
      RTrimUnique(s, Whitespace, |s|);
      LTrimUnique([], Whitespace, 0);
    } else {
      assert s[j - 1] == r[|r| - 1];
      RTrimUnique(s, Whitespace, |s| - j);
      var t := s[..j];
      assert t[..i] == s[..i];
      assert t[i] == r[0];
      LTrimUnique(t, Whitespace, i);
      assert t[i..] == r;
    }
  }

  /** Stripping twice is stripping once: a piece of a piece of s, each cut
      out from between lead and trail characters, is such a piece of s. */
  lemma StrippedCompose(s: string, t: string, r: string, i: int, j: int, lead: set<char>, trail: set<char>)
    requires StrippedFrom(s, t, i, lead, trail)
    requires StrippedFrom(t, r, j, lead, trail)
    ensures StrippedFrom(s, r, i + j, lead, trail)
  {
    forall k | 0 <= k < |r| ensures s[i + j + k] == r[k] {
      assert r[k] == t[j..j + |r|][k] == t[j + k];
      assert t[j + k] == s[i..i + |t|][j + k];
    }
    assert s[i + j..i + j + |r|] == r;
    assert s[..i + j] == s[..i] + t[..j];
    assert s[i + j + |r|..] == t[j + |r|..] + s[i + |t|..];
  }
  /** A piece stripped from between some characters is also stripped from
      between any wider sets of characters. */
  lemma StrippedWiden(s: string, r: string, i: int, lead: set<char>, trail: set<char>, lead': set<char>, trail': set<char>)
    requires StrippedFrom(s, r, i, lead, trail)
    requires lead <= lead' && trail <= trail'
    ensures StrippedFrom(s, r, i, lead', trail')
  {
  }

  /** ltrim cuts its result from between mask characters and nothing. */
  lemma LTrimStripped(s: string, mask: set<char>)
    ensures StrippedFrom(s, LTrim(s, mask), |s| - |LTrim(s, mask)|, mask, {})
  {
    var r := LTrim(s, mask);
    LTrimSplit(s, mask);
    assert s[|s| - |r|..|s|] == s[|s| - |r|..];
    assert s[|s|..] == [];
  }

  /** rtrim cuts its result from between nothing and mask characters. */
  lemma RTrimStripped(s: string, mask: set<char>)
    ensures StrippedFrom(s, RTrim(s, mask), 0, {}, mask)
  {
    RTrimSplit(s, mask);
    assert s[..0] == [];
  }
  /** Stripping mask characters from the right and then from the left
      leaves neither end a mask character. */
  lemma BothTrimsUnpadded(s: string, mask: set<char>)
    ensures Unpadded(LTrim(RTrim(s, mask), mask), mask)
  {
    LTrimSplit(RTrim(s, mask), mask);
  }
  /** ltrim with lead characters keeps a piece cut from between lead and
      trail characters such a piece. */
  lemma LTrimPiece(s: string, u: string, i: int, mask: set<char>, lead: set<char>, trail: set<char>)
    requires StrippedFrom(s, u, i, lead, trail) && mask <= lead
    ensures StrippedFrom(s, LTrim(u, mask), i + |u| - |LTrim(u, mask)|, lead, trail)
  {
    var r := LTrim(u, mask);
    LTrimStripped(u, mask);
    StrippedWiden(u, r, |u| - |r|, mask, {}, lead, trail);
    StrippedCompose(s, u, r, i, |u| - |r|, lead, trail);
  }

  /** rtrim with trail characters keeps a piece cut from between lead and
      trail characters such a piece. */
  lemma RTrimPiece(s: string, u: string, i: int, mask: set<char>, lead: set<char>, trail: set<char>)
    requires StrippedFrom(s, u, i, lead, trail) && mask <= trail
    ensures StrippedFrom(s, RTrim(u, mask), i, lead, trail)
  {
    var r := RTrim(u, mask);
    RTrimStripped(u, mask);
    StrippedWiden(u, r, 0, {}, mask, lead, trail);
    StrippedCompose(s, u, r, i, 0, lead, trail);
  }
  /** trim removes blank padding around an unpadded string. */
  lemma TrimAround(pre: string, t: string, post: string)
    requires AllIn(pre, Whitespace) && AllIn(post, Whitespace) && Unpadded(t, Whitespace)
    ensures Trim(pre + t + post) == t
  {
    var s := pre + t + post;
    assert s[|pre|..|pre| + |t|] == t && s[..|pre|] == pre && s[|pre| + |t|..] == post;
    TrimUnique(s, t, |pre|);
  }

  /** ltrim removes a prefix of mask characters in front of a string that
      does not start with one. */
  lemma LTrimAround(pre: string, t: string, mask: set<char>)
    requires AllIn(pre, mask) && (t == [] || t[0] !in mask)
    ensures LTrim(pre + t, mask) == t
  {
    var s := pre + t;
    assert s[..|pre|] == pre && s[|pre|..] == t;
    LTrimUnique(s, mask, |pre|);
  }

  /** rtrim removes a suffix of mask characters behind a string that does
      not end with one. */
  lemma RTrimAround(t: string, post: string, mask: set<char>)
    requires AllIn(post, mask) && (t == [] || t[|t| - 1] !in mask)
    ensures RTrim(t + post, mask) == t
  {
    var s := t + post;
    assert s[|s| - |post|..] == post && s[..|s| - |post|] == t;
    RTrimUnique(s, mask, |post|);
  }
}
