/** The few System.String and System.Char operations the core relies on. */
module Text {
  import opened Wrappers

  /** char.IsWhiteSpace: the characters of the Unicode White_Space property. */
  predicate IsWhiteSpace(c: char) {
    || ('\t' <= c <= '\r')
    || c == ' ' || c == '\U{85}' || c == '\U{A0}' || c == '\U{1680}'
    || ('\U{2000}' <= c <= '\U{200A}')
    || c == '\U{2028}' || c == '\U{2029}' || c == '\U{202F}' || c == '\U{205F}' || c == '\U{3000}'
  }

  /** Every character of s is white space (vacuously true of ""). */
  predicate AllWhiteSpace(s: string) {
    forall i :: 0 <= i < |s| ==> IsWhiteSpace(s[i])
  }

  /** string.IsNullOrWhiteSpace. */
  predicate IsNullOrWhiteSpace(s: Option<string>) {
    s.None? || AllWhiteSpace(s.value)
  }

  /** No position of s in [lo, hi) holds c. */
  predicate Absent(s: string, c: char, lo: int, hi: int)
    requires 0 <= lo <= hi <= |s|
  {
    forall j :: lo <= j < hi ==> s[j] != c
  }

  /** string.IndexOf(char): the position of the first c in s, or -1. */
  function IndexOf(s: string, c: char): (k: int)
    ensures -1 <= k < |s|
    ensures k == -1 ==> Absent(s, c, 0, |s|)
    ensures k >= 0 ==> s[k] == c && Absent(s, c, 0, k)
  {
    if |s| == 0 then -1
    else if s[0] == c then 0
    else
      var k := IndexOf(s[1..], c);
      if k < 0 then -1 else k + 1
  }

  /** string.LastIndexOf(char): the position of the last c in s, or -1. */
  function LastIndexOf(s: string, c: char): (k: int)
    ensures -1 <= k < |s|
    ensures k == -1 ==> Absent(s, c, 0, |s|)
    ensures k >= 0 ==> s[k] == c && Absent(s, c, k + 1, |s|)
  {
    if |s| == 0 then -1
    else if s[|s| - 1] == c then |s| - 1
    else LastIndexOf(s[..|s| - 1], c)
  }

  /** IndexOf finds c exactly when c occurs in s. */
  lemma {:induction false} IndexOfFound(s: string, c: char)
    ensures IndexOf(s, c) >= 0 <==> c in s
    ensures LastIndexOf(s, c) >= 0 <==> c in s
  {
  }

  /** The first occurrence is the only position holding c with no c before it. */
  lemma {:induction false} IndexOfUnique(s: string, c: char, k: nat)
    requires k < |s| && s[k] == c && Absent(s, c, 0, k)
    ensures IndexOf(s, c) == k
  {
  }

  /** The last occurrence is the only position holding c with no c after it. */
  lemma {:induction false} LastIndexOfUnique(s: string, c: char, k: nat)
    requires k < |s| && s[k] == c && Absent(s, c, k + 1, |s|)
    ensures LastIndexOf(s, c) == k
  {
  }

  /** Text before s that holds no c shifts the first and the last c of s by its length. */
  lemma {:induction false} IndexOfAfterPrefix(w: string, s: string, c: char)
    requires Absent(w, c, 0, |w|)
    ensures IndexOf(w + s, c) == if IndexOf(s, c) >= 0 then |w| + IndexOf(s, c) else -1
    ensures LastIndexOf(w + s, c) == if LastIndexOf(s, c) >= 0 then |w| + LastIndexOf(s, c) else -1
  {
    var x := w + s;
    var k, l := IndexOf(s, c), LastIndexOf(s, c);
    if k >= 0 {
      assert Absent(x, c, 0, |w| + k) by {
        forall j | 0 <= j < |w| + k ensures x[j] != c {
          if j < |w| { assert x[j] == w[j]; } else { assert x[j] == s[j - |w|]; }
        }
      }
      IndexOfUnique(x, c, |w| + k);
      assert Absent(x, c, |w| + l + 1, |x|) by {
        forall j | |w| + l + 1 <= j < |x| ensures x[j] != c { assert x[j] == s[j - |w|]; }
      }
      LastIndexOfUnique(x, c, |w| + l);
    } else {
      assert Absent(x, c, 0, |x|) by {
        forall j | 0 <= j < |x| ensures x[j] != c {
          if j < |w| { assert x[j] == w[j]; } else { assert x[j] == s[j - |w|]; }
        }
      }
    }
  }

  /** Text after s that holds no c leaves the first and the last c of s where they were. */
  lemma {:induction false} IndexOfBeforeSuffix(s: string, w: string, c: char)
    requires Absent(w, c, 0, |w|)
    ensures IndexOf(s + w, c) == IndexOf(s, c)
    ensures LastIndexOf(s + w, c) == LastIndexOf(s, c)
  {
    var x := s + w;
    var k, l := IndexOf(s, c), LastIndexOf(s, c);
    if k >= 0 {
      assert Absent(x, c, 0, k) by {
        forall j | 0 <= j < k ensures x[j] != c { assert x[j] == s[j]; }
      }
      IndexOfUnique(x, c, k);
      assert Absent(x, c, l + 1, |x|) by {
        forall j | l + 1 <= j < |x| ensures x[j] != c {
          if j < |s| { assert x[j] == s[j]; } else { assert x[j] == w[j - |s|]; }
        }
      }
      LastIndexOfUnique(x, c, l);
    } else {
      assert Absent(x, c, 0, |x|) by {
        forall j | 0 <= j < |x| ensures x[j] != c {
          if j < |s| { assert x[j] == s[j]; } else { assert x[j] == w[j - |s|]; }
        }
      }
    }
  }

  /** string.TrimStart(): s without its leading white space. */
  function TrimStart(s: string): (r: string)
    ensures |r| <= |s| && r == s[|s| - |r|..]
    ensures AllWhiteSpace(s[..|s| - |r|])
    ensures r == [] || !IsWhiteSpace(r[0])
  {
    if |s| > 0 && IsWhiteSpace(s[0]) then
      var r := TrimStart(s[1..]);
      assert s[..|s| - |r|] == [s[0]] + s[1..][..|s| - 1 - |r|];
      r
    else s
  }

  /** string.TrimEnd(): s without its trailing white space. */
  function TrimEnd(s: string): (r: string)
    ensures |r| <= |s| && r == s[..|r|]
    ensures AllWhiteSpace(s[|r|..])
    ensures r == [] || !IsWhiteSpace(r[|r| - 1])
  {
    if |s| > 0 && IsWhiteSpace(s[|s| - 1]) then
      var r := TrimEnd(s[..|s| - 1]);
      assert s[|r|..] == s[..|s| - 1][|r|..] + [s[|s| - 1]];
      r
    else s
  }

  /** string.Trim(): s without its leading and trailing white space. */
  function Trim(s: string): (r: string)
  {
    TrimEnd(TrimStart(s))
  }

  /** The decimal digits of n, as int.ToString() writes them. */
  function NatToString(n: nat): string
  {
    var d := ['0' + (n % 10) as char];
    if n < 10 then d else NatToString(n / 10) + d
  }

  /** int.ToString() with the invariant culture. */
  function IntToString(i: int): string
  {
    if i < 0 then "-" + NatToString(-i) else NatToString(i)
  }
}
