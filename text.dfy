/**
 * Character classes and scanners over strings: the building blocks of the
 * regular expressions in `extract_details`, of `str.strip()`, `str.lower()`
 * and `str.endswith()`.  Only the ASCII part of Python's Unicode semantics
 * is modelled: a digit is '0'..'9', whitespace is one of " \t\n\r\f\v",
 * and lower-casing maps 'A'..'Z' to 'a'..'z'.
 */
module Text {

  import opened Wrappers

  /** `\d`, restricted to ASCII. */
  predicate IsDigit(c: char) { '0' <= c <= '9' }

  /**
   * `\s` of a `str` pattern and the whitespace of `str.strip()`, restricted
   * to ASCII: space, `\t`, `\n`, `\v`, `\f`, `\r` and the four separators
   * `\x1c`-`\x1f`, which Python also counts as whitespace.
   */
  predicate IsSpace(c: char)
  {
    c == ' ' || ('\t' <= c <= '\r') || ('\U{001C}' <= c <= '\U{001F}')
  }

  /** The character classes a greedy repetition in the patterns runs over. */
  datatype CharClass = Space | Digit | NotNewline

  predicate InClass(c: char, k: CharClass)
  {
    match k
    case Space => IsSpace(c)
    case Digit => IsDigit(c)
    case NotNewline => c != '\n'   // `.` without DOTALL
  }

  /** Every character of `s[lo..hi]` is in class `k`. */
  predicate AllIn(s: string, lo: nat, hi: nat, k: CharClass)
    requires lo <= hi <= |s|
  {
    forall p :: lo <= p < hi ==> InClass(s[p], k)
  }

  /**
   * The end of the longest run of class-`k` characters that starts at
   * `from`: where a greedy `k*` stops.
   */
  function RunEnd(s: string, from: nat, k: CharClass): (e: nat)
    requires from <= |s|
    ensures from <= e <= |s|
    ensures AllIn(s, from, e, k)
    ensures e == |s| || !InClass(s[e], k)
    decreases |s| - from
  {
    if from < |s| && InClass(s[from], k) then RunEnd(s, from + 1, k) else from
  }

  /** A run that cannot be extended is the run `RunEnd` finds. */
  lemma RunEndUnique(s: string, from: nat, e: nat, k: CharClass)
    requires from <= e <= |s|
    requires AllIn(s, from, e, k)
    requires e == |s| || !InClass(s[e], k)
    ensures RunEnd(s, from, k) == e
  {
  }

  /**
   * The start of the longest run of class-`k` characters that ends at `hi`
   * and does not reach below `lo`: where a right-to-left scan stops.
   */
  function RunBack(s: string, lo: nat, hi: nat, k: CharClass): (b: nat)
    requires lo <= hi <= |s|
    ensures lo <= b <= hi
    ensures AllIn(s, b, hi, k)
    ensures b == lo || !InClass(s[b - 1], k)
    decreases hi - lo
  {
    if lo < hi && InClass(s[hi - 1], k) then RunBack(s, lo, hi - 1, k) else hi
  }

  /** `lit` occurs in `s` at position `i`. */
  predicate LiteralAt(s: string, i: nat, lit: string)
  {
    i + |lit| <= |s| && s[i..i + |lit|] == lit
  }

  /** The leftmost occurrence of `lit` in `s` at or after `from`. */
  function FindLiteral(s: string, from: nat, lit: string): (r: Option<nat>)
    ensures r.Some? ==> from <= r.value && LiteralAt(s, r.value, lit)
    ensures r.Some? ==> forall p :: from <= p < r.value ==> !LiteralAt(s, p, lit)
    ensures r.None? ==> forall p :: from <= p ==> !LiteralAt(s, p, lit)
    decreases |s| - from
  {
    if from + |lit| > |s| then None
    else if s[from..from + |lit|] == lit then Some(from)
    else FindLiteral(s, from + 1, lit)
  }

  /** The leftmost occurrence at or after `from` is what `FindLiteral` finds. */
  lemma FindLiteralAt(s: string, from: nat, lit: string, i: nat)
    requires from <= i && LiteralAt(s, i, lit)
    requires forall j: nat :: from <= j < i ==> !LiteralAt(s, j, lit)
    ensures FindLiteral(s, from, lit) == Some(i)
  {
  }

  /** A literal whose first character does not occur among the first `n` characters cannot start there. */
  lemma NotBefore(s: string, n: nat, lit: string)
    requires lit != [] && n <= |s|
    requires lit[0] !in s[..n]
    ensures forall p: nat :: p < n ==> !LiteralAt(s, p, lit)
  {
    forall p: nat | p < n
      ensures !LiteralAt(s, p, lit)
    {
      assert s[..n][p] == s[p];
      if p + |lit| <= |s| {
        assert s[p..p + |lit|][0] == s[p];
      }
    }
  }

  /**
   * `str.strip()`: drop the leading and then the trailing whitespace.  The
   * result is empty exactly when the input is all whitespace, and otherwise
   * begins and ends with a non-whitespace character.
   */
  function Strip(t: string): (r: string)
    ensures |r| <= |t|
    ensures r == [] <==> AllIn(t, 0, |t|, Space)
    ensures r != [] ==> !IsSpace(r[0]) && !IsSpace(r[|r| - 1])
  {
    var a := RunEnd(t, 0, Space);
    var b := RunBack(t, a, |t|, Space);
    assert a < |t| ==> b > a && !IsSpace(t[b - 1]);
    t[a..b]
  }

  /**
   * `Strip` removes exactly the whitespace around the text: whenever `t` is
   * whitespace + `r` + whitespace with `r` empty or bordered by
   * non-whitespace, `Strip(t)` is `r`.
   */
  lemma StripExact(u: string, r: string, v: string)
    requires AllIn(u, 0, |u|, Space) && AllIn(v, 0, |v|, Space)
    requires r != [] ==> !IsSpace(r[0]) && !IsSpace(r[|r| - 1])
    ensures Strip(u + r + v) == r
  {
    var t := u + r + v;
    if r == [] {
      assert t == u + v;
      assert AllIn(t, 0, |t|, Space) by {
        forall p | 0 <= p < |t| ensures IsSpace(t[p]) {
          if p < |u| { assert t[p] == u[p]; } else { assert t[p] == v[p - |u|]; }
        }
      }
    } else {
      assert AllIn(t, 0, |u|, Space) by {
        forall p | 0 <= p < |u| ensures IsSpace(t[p]) { assert t[p] == u[p]; }
      }
      assert t[|u|] == r[0];
      RunEndUnique(t, 0, |u|, Space);
      var hi := |u| + |r|;
      assert AllIn(t, hi, |t|, Space) by {
        forall p | hi <= p < |t| ensures IsSpace(t[p]) { assert t[p] == v[p - hi]; }
      }
      assert t[hi - 1] == r[|r| - 1];
      RunBackUnique(t, |u|, hi, |t|, Space);
      assert t[|u|..hi] == r;
    }
  }

  /** A backward run that cannot be extended is the run `RunBack` finds. */
  lemma RunBackUnique(s: string, lo: nat, b: nat, hi: nat, k: CharClass)
    requires lo <= b <= hi <= |s|
    requires AllIn(s, b, hi, k)
    requires b == lo || !InClass(s[b - 1], k)
    ensures RunBack(s, lo, hi, k) == b
  {
  }

  /** Stripping twice is stripping once. */
  lemma StripIdempotent(t: string)
    ensures Strip(Strip(t)) == Strip(t)
  {
    StripExact([], Strip(t), []);
    assert [] + Strip(t) + [] == Strip(t);
  }

  /** `str.lower()` on one character, restricted to ASCII. */
  function LowerChar(c: char): char
  {
    if 'A' <= c <= 'Z' then (c as int + 32) as char else c
  }

  /** `str.lower()`, character by character, restricted to ASCII. */
  function Lower(s: string): (r: string)
    ensures |r| == |s|
    ensures forall p :: 0 <= p < |s| ==> r[p] == LowerChar(s[p])
  {
    seq(|s|, p requires 0 <= p < |s| => LowerChar(s[p]))
  }

  /** Lower-casing is idempotent. */
  lemma LowerIdempotent(s: string)
    ensures Lower(Lower(s)) == Lower(s)
  {
    assert forall p :: 0 <= p < |s| ==> Lower(Lower(s))[p] == Lower(s)[p];
  }

  /** `str.endswith(suffix)`. */
  predicate EndsWith(s: string, suffix: string)
  {
    |suffix| <= |s| && s[|s| - |suffix|..] == suffix
  }
}
