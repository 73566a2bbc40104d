/** The few functions of Go's `strings` and `strconv` packages that the core relies on.

    A Go string is a sequence of bytes. The model writes it as a `string` holding ONE `char`
    PER BYTE, so `|s|` is Go's `len(s)` and `s[i..j]` is Go's `s[i:j]`. White space is the
    ASCII white space of `unicode.IsSpace`; letters are folded to lower case in ASCII only. */
module Text {

  /** `unicode.IsSpace` restricted to one-byte characters. */
  predicate IsSpace(c: char) {
    c == ' ' || c == '\t' || c == '\n' || c == '\U{000B}' || c == '\U{000C}' || c == '\r'
  }

  /** No white space at either end: what `strings.TrimSpace` produces. */
  predicate IsTrimmed(s: string) {
    s == [] || (!IsSpace(s[0]) && !IsSpace(s[|s| - 1]))
  }

  /** `strings.TrimLeft(s, <white space>)`: drops the leading white space. */
  function TrimLeftSpace(s: string): (r: string)
    ensures |r| <= |s| && r == s[|s| - |r|..]
    ensures r == [] || !IsSpace(r[0])
    ensures forall i :: 0 <= i < |s| - |r| ==> IsSpace(s[i])
  {
    if s != [] && IsSpace(s[0]) then TrimLeftSpace(s[1..]) else s
  }

  /** `strings.TrimRight(s, <white space>)`: drops the trailing white space. */
  function TrimRightSpace(s: string): (r: string)
    ensures |r| <= |s| && r == s[..|r|]
    ensures r == [] || !IsSpace(r[|r| - 1])
    ensures forall i :: |r| <= i < |s| ==> IsSpace(s[i])
  {
    if s != [] && IsSpace(s[|s| - 1]) then TrimRightSpace(s[..|s| - 1]) else s
  }

  /** Nothing but white space. */
  predicate AllSpace(s: string) {
    forall i :: 0 <= i < |s| ==> IsSpace(s[i])
  }

  /** `strings.TrimSpace`: the longest infix of `s` that starts and ends with a non-space, that
      is, `s` with its white space on both ends cut off and nothing else. */
  function TrimSpace(s: string): (r: string)
    ensures IsTrimmed(r)
    ensures |r| <= |s|
    ensures exists a :: 0 <= a <= |s| - |r| && r == s[a..a + |r|] && AllSpace(s[..a]) && AllSpace(s[a + |r|..])
  {
    var left := TrimLeftSpace(s);
    var r := TrimRightSpace(left);
    TrimBothEnds(s, left, r);
    r
  }

  /** Cutting white space off the front of `s`, giving `left`, then off the back of `left`,
      giving `r`, leaves `r` as an infix of `s` with only white space around it. */
  lemma TrimBothEnds(s: string, left: string, r: string)
    requires |left| <= |s| && left == s[|s| - |left|..] && forall i :: 0 <= i < |s| - |left| ==> IsSpace(s[i])
    requires |r| <= |left| && r == left[..|r|] && forall i :: |r| <= i < |left| ==> IsSpace(left[i])
    ensures 0 <= |s| - |left| <= |s| - |r|
    ensures r == s[|s| - |left|..|s| - |left| + |r|]
    ensures AllSpace(s[..|s| - |left|]) && AllSpace(s[|s| - |left| + |r|..])
  {
    var a := |s| - |left|;
    assert left == s[a..];
    assert r == left[..|r|] == s[a..][..|r|] == s[a..a + |r|];
    var head, tail := s[..a], s[a + |r|..];
    assert AllSpace(head) by {
      forall i | 0 <= i < |head| ensures IsSpace(head[i]) {
        assert head[i] == s[i];
      }
    }
    assert AllSpace(tail) by {
      forall i | 0 <= i < |tail| ensures IsSpace(tail[i]) {
        assert tail[i] == left[|r| + i];
      }
    }
  }

  /** Trimming changes nothing in a string that is already trimmed. */
  lemma TrimSpaceOfTrimmed(s: string)
    requires IsTrimmed(s)
    ensures TrimSpace(s) == s
  {
  }

  /** A string that is white space through and through trims to the empty string, and only such a string. */
  lemma TrimSpaceEmpty(s: string)
    ensures TrimSpace(s) == [] <==> forall i :: 0 <= i < |s| ==> IsSpace(s[i])
  {
    if forall i :: 0 <= i < |s| ==> IsSpace(s[i]) {
      TrimLeftAllSpace(s);
    }
  }

  lemma {:induction false} TrimLeftAllSpace(s: string)
    requires forall i :: 0 <= i < |s| ==> IsSpace(s[i])
    ensures TrimLeftSpace(s) == []
    decreases |s|
  {
    if s != [] {
      TrimLeftAllSpace(s[1..]);
    }
  }

  /** Leading white space does not survive trimming. */
  lemma TrimSpaceDropsLeading(pre: string, s: string)
    requires forall i :: 0 <= i < |pre| ==> IsSpace(pre[i])
    ensures TrimSpace(pre + s) == TrimSpace(s)
  {
    TrimLeftDropsLeading(pre, s);
  }

  lemma {:induction false} TrimLeftDropsLeading(pre: string, s: string)
    requires forall i :: 0 <= i < |pre| ==> IsSpace(pre[i])
    ensures TrimLeftSpace(pre + s) == TrimLeftSpace(s)
    decreases |pre|
  {
    if pre != [] {
      assert IsSpace((pre + s)[0]);
      assert (pre + s)[1..] == pre[1..] + s;
      assert forall i :: 0 <= i < |pre[1..]| ==> IsSpace(pre[1..][i]) by {
        forall i | 0 <= i < |pre[1..]| ensures IsSpace(pre[1..][i]) {
          assert pre[1..][i] == pre[i + 1];
        }
      }
      TrimLeftDropsLeading(pre[1..], s);
    } else {
      assert pre + s == s;
    }
  }

  /** Trimming is idempotent. */
  lemma TrimSpaceIdempotent(s: string)
    ensures TrimSpace(TrimSpace(s)) == TrimSpace(s)
  {
    TrimSpaceOfTrimmed(TrimSpace(s));
  }

  /** `strings.HasPrefix`. */
  predicate HasPrefix(s: string, prefix: string) {
    prefix <= s
  }

  /** `strings.IndexByte`: the index of the first `c` in `s`, or -1. */
  function IndexOf(s: string, c: char): (k: int)
    ensures -1 <= k < |s|
    ensures k == -1 <==> c !in s
    ensures k >= 0 ==> s[k] == c && c !in s[..k]
  {
    if s == [] then -1
    else if s[0] == c then 0
    else
      var k := IndexOf(s[1..], c);
      assert s == [s[0]] + s[1..];
      if k == -1 then -1 else k + 1
  }

  /** The end of the first white-space separated field of `s`: the index of the first white
      space, or `|s|` when there is none. For a string that does not start with white space,
      `strings.Fields(s)[0]` is `s[..FieldEnd(s)]`. */
  function FieldEnd(s: string): (k: nat)
    ensures k <= |s|
    ensures k < |s| ==> IsSpace(s[k])
    ensures forall i :: 0 <= i < k ==> !IsSpace(s[i])
  {
    if s == [] || IsSpace(s[0]) then 0 else 1 + FieldEnd(s[1..])
  }

  /** The first field of a word followed by white space is that word. */
  lemma {:induction false} FieldEndOfWord(w: string, rest: string)
    requires forall i :: 0 <= i < |w| ==> !IsSpace(w[i])
    requires rest == [] || IsSpace(rest[0])
    ensures FieldEnd(w + rest) == |w|
    decreases |w|
  {
    if w == [] {
      assert w + rest == rest;
    } else {
      assert (w + rest)[1..] == w[1..] + rest;
      FieldEndOfWord(w[1..], rest);
    }
  }

  /** `unicode.ToLower` on one ASCII byte. */
  function LowerChar(c: char): (d: char)
    ensures 'A' <= c <= 'Z' ==> d as int == c as int + 32
    ensures !('A' <= c <= 'Z') ==> d == c
  {
    if 'A' <= c <= 'Z' then (c as int + 32) as char else c
  }

  /** `strings.ToLower` on ASCII text: every upper-case letter is lowered, nothing else moves. */
  function ToLower(s: string): (r: string)
    ensures |r| == |s|
    ensures forall i :: 0 <= i < |s| ==> r[i] == LowerChar(s[i])
    ensures forall i :: 0 <= i < |r| ==> !('A' <= r[i] <= 'Z')
  {
    seq(|s|, i requires 0 <= i < |s| => LowerChar(s[i]))
  }

  /** Text without upper-case letters is its own lower case. */
  lemma ToLowerOfLower(s: string)
    requires forall i :: 0 <= i < |s| ==> !('A' <= s[i] <= 'Z')
    ensures ToLower(s) == s
  {
  }

  /** `strings.TrimRight(s, "/")`: drops every trailing slash. */
  function TrimTrailingSlashes(s: string): (r: string)
    ensures r <= s
    ensures r == [] || r[|r| - 1] != '/'
    ensures forall i :: |r| <= i < |s| ==> s[i] == '/'
  {
    if s != [] && s[|s| - 1] == '/' then TrimTrailingSlashes(s[..|s| - 1]) else s
  }

  function Digit(d: nat): (c: char)
    requires d < 10
    ensures '0' <= c <= '9'
    ensures c as int - '0' as int == d
  {
    ('0' as int + d) as char
  }

  /** Decimal digits only. */
  predicate IsDecimal(r: string) {
    forall i :: 0 <= i < |r| ==> '0' <= r[i] <= '9'
  }

  /** The number a string of decimal digits denotes, most significant digit first. */
  function DecimalValue(r: string): nat
    requires IsDecimal(r)
  {
    if r == [] then 0 else 10 * DecimalValue(r[..|r| - 1]) + (r[|r| - 1] as int - '0' as int)
  }

  /** The decimal digits of `n`, most significant first, without leading zeros. */
  function FormatNat(n: nat): (r: string)
    ensures r != [] && IsDecimal(r)
    ensures DecimalValue(r) == n
    ensures |r| > 1 ==> r[0] != '0'
  {
    if n < 10 then [Digit(n)]
    else
      var r := FormatNat(n / 10) + [Digit(n % 10)];
      assert r[..|r| - 1] == FormatNat(n / 10);
      r
  }

  /** `strconv.FormatInt(n, 10)`, which `fmt`'s `%d` also prints: a minus sign for a negative
      number, then the decimal digits of its magnitude. */
  function FormatInt(n: int): (r: string)
    ensures r != []
    ensures n < 0 <==> r[0] == '-'
    ensures n >= 0 ==> IsDecimal(r) && DecimalValue(r) == n
    ensures n < 0 ==> r[1..] != [] && IsDecimal(r[1..]) && DecimalValue(r[1..]) == -n
  {
    if n < 0 then
      var r := "-" + FormatNat(-n);
      assert r[1..] == FormatNat(-n);
      r
    else FormatNat(n)
  }

  /** Different numbers print differently. */
  lemma FormatIntInjective(m: int, n: int)
    requires FormatInt(m) == FormatInt(n)
    ensures m == n
  {
  }
}
