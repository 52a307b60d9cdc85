/**
 * The five regular expressions of `extract_details`
 * (receipt_automation.py:66-70), each written out as a scanner that matches
 * at one position (`MatchAt`, Python's `pattern.match(text, i)` followed by
 * the group the source reads), and the leftmost search `re.search` runs over
 * them (`Search`, `Find`).  Beside each scanner stands a declarative
 * statement of what the pattern accepts (`DateAt`, `ReceiptSplit`,
 * `VendorSplit`, `TotalSplit`) and lemmas that the two agree.
 */
module Patterns {

  import opened Wrappers
  import opened Text

  datatype Pattern =
    | DatePattern           // \d{2}/\d{2}/\d{4}, group 0
    | ReceiptNumberPattern   // Receipt #:\s*(\d+), group 1
    | VendorPattern          // Vendor:\s*(.+), group 1
    | TotalPattern           // Total:\s*\$(\d+\.\d{2}), group 1
    | ItemsPattern           // Items:(.*?)(?=Total:) under DOTALL, group 1

  const ReceiptLabel: string := "Receipt #:"
  const VendorLabel: string := "Vendor:"
  const TotalLabel: string := "Total:"
  const ItemsLabel: string := "Items:"

  // ---------------------------------------------------------------------
  // What each pattern accepts, stated declaratively
  // ---------------------------------------------------------------------

  /** Two digits, '/', two digits, '/', four digits: no calendar check. */
  predicate DateShaped(d: string)
  {
    |d| == 10
    && IsDigit(d[0]) && IsDigit(d[1]) && d[2] == '/'
    && IsDigit(d[3]) && IsDigit(d[4]) && d[5] == '/'
    && IsDigit(d[6]) && IsDigit(d[7]) && IsDigit(d[8]) && IsDigit(d[9])
  }

  /** The date pattern matches at `i`. */
  predicate DateAt(s: string, i: nat)
  {
    i + 10 <= |s| && DateShaped(s[i..i + 10])
  }

  /** `Receipt #:` at `i`, whitespace up to `k`, and a digit at `k`. */
  predicate ReceiptSplit(s: string, i: nat, k: nat)
  {
    LiteralAt(s, i, ReceiptLabel) && i + |ReceiptLabel| <= k < |s|
    && AllIn(s, i + |ReceiptLabel|, k, Space) && IsDigit(s[k])
  }

  /** `Vendor:` at `i`, whitespace up to `c`, and a character other than a newline at `c`. */
  predicate VendorSplit(s: string, i: nat, c: nat)
  {
    LiteralAt(s, i, VendorLabel) && i + |VendorLabel| <= c < |s|
    && AllIn(s, i + |VendorLabel|, c, Space) && s[c] != '\n'
  }

  /**
   * `Total:` at `i`, whitespace up to `k`, `$` at `k`, one or more digits
   * up to `m`, `.` at `m` and two digits after it.
   */
  predicate TotalSplit(s: string, i: nat, k: nat, m: nat)
  {
    LiteralAt(s, i, TotalLabel) && i + |TotalLabel| <= k && k + 1 < m && m + 3 <= |s|
    && AllIn(s, i + |TotalLabel|, k, Space) && s[k] == '$' && AllIn(s, k + 1, m, Digit)
    && s[m] == '.' && IsDigit(s[m + 1]) && IsDigit(s[m + 2])
  }

  /** A receipt number as the pattern captures it: one or more digits. */
  predicate IsNumber(g: string)
  {
    g != [] && forall p :: 0 <= p < |g| ==> IsDigit(g[p])
  }

  /** A vendor as the pattern captures it: one or more characters other than a newline. */
  predicate IsLineText(g: string)
  {
    g != [] && '\n' !in g
  }

  /** An amount as the pattern captures it: digits, '.', exactly two digits; no '$'. */
  predicate IsAmount(g: string)
  {
    |g| >= 4 && g[|g| - 3] == '.'
    && (forall p :: 0 <= p < |g| - 3 ==> IsDigit(g[p]))
    && IsDigit(g[|g| - 2]) && IsDigit(g[|g| - 1])
  }

  // ---------------------------------------------------------------------
  // The scanners
  // ---------------------------------------------------------------------

  function MatchDate(s: string, i: nat): Option<string>
  {
    if DateAt(s, i) then Some(s[i..i + 10]) else None
  }

  /**
   * Greedy `\s*` then `\d+`: giving back whitespace never helps, since the
   * character given back is whitespace and not a digit.
   */
  function MatchReceiptNumber(s: string, i: nat): Option<string>
  {
    if !LiteralAt(s, i, ReceiptLabel) then None
    else
      var k := RunEnd(s, i + |ReceiptLabel|, Space);
      if k < |s| && IsDigit(s[k]) then Some(s[k..RunEnd(s, k, Digit)]) else None
  }

  /**
   * Backtracking of the greedy `\s*` before `.+`: starting at the end `k` of
   * the whitespace run, give characters back one at a time (down to `lo`)
   * until `.+` can start, i.e. until the position holds a character other
   * than a newline.  Returns where `.+` starts.
   */
  function VendorStart(s: string, lo: nat, k: nat): (c: Option<nat>)
    requires lo <= k <= |s|
    ensures c.Some? ==> lo <= c.value <= k && c.value < |s| && s[c.value] != '\n'
    ensures c.Some? ==> forall d :: c.value < d <= k ==> d == |s| || s[d] == '\n'
    ensures c.None? ==> forall d :: lo <= d <= k ==> d == |s| || s[d] == '\n'
    decreases k
  {
    if k < |s| && s[k] != '\n' then Some(k)
    else if k == lo then None
    else VendorStart(s, lo, k - 1)
  }

  function MatchVendor(s: string, i: nat): Option<string>
  {
    if !LiteralAt(s, i, VendorLabel) then None
    else
      var lo := i + |VendorLabel|;
      match VendorStart(s, lo, RunEnd(s, lo, Space))
      case None => None
      case Some(c) => Some(s[c..RunEnd(s, c, NotNewline)])
  }

  /**
   * Greedy `\s*` then `\$`, greedy `\d+` then `\.`: in both places a
   * character given back is of the repeated class, so it cannot be the
   * literal that follows, and the greedy choice is the only one.
   */
  function MatchTotal(s: string, i: nat): Option<string>
  {
    if !LiteralAt(s, i, TotalLabel) then None
    else
      var k := RunEnd(s, i + |TotalLabel|, Space);
      if k < |s| && s[k] == '$' then
        var m := RunEnd(s, k + 1, Digit);
        if k + 1 < m && m + 3 <= |s| && s[m] == '.' && IsDigit(s[m + 1]) && IsDigit(s[m + 2])
        then Some(s[k + 1..m + 3])
        else None
      else None
  }

  /** Lazy `(.*?)` up to the first `Total:` after the label (the lookahead consumes nothing). */
  function MatchItems(s: string, i: nat): (r: Option<string>)
    ensures r.Some? <==> LiteralAt(s, i, ItemsLabel) && exists q :: q >= i + |ItemsLabel| && LiteralAt(s, q, TotalLabel)
    ensures r.Some? ==>
              var q := i + |ItemsLabel| + |r.value|;
              && LiteralAt(s, q, TotalLabel)
              && s[i + |ItemsLabel|..q] == r.value
              && forall p :: i + |ItemsLabel| <= p < q ==> !LiteralAt(s, p, TotalLabel)
  {
    if !LiteralAt(s, i, ItemsLabel) then None
    else
      match FindLiteral(s, i + |ItemsLabel|, TotalLabel)
      case None => None
      case Some(q) => Some(s[i + |ItemsLabel|..q])
  }

  /** The pattern matched at position `i` (anchored), giving the group the source reads. */
  function MatchAt(p: Pattern, s: string, i: nat): Option<string>
  {
    match p
    case DatePattern => MatchDate(s, i)
    case ReceiptNumberPattern => MatchReceiptNumber(s, i)
    case VendorPattern => MatchVendor(s, i)
    case TotalPattern => MatchTotal(s, i)
    case ItemsPattern => MatchItems(s, i)
  }

  // ---------------------------------------------------------------------
  // re.search: the leftmost position that matches
  // ---------------------------------------------------------------------

  /** The first position at or after `from` where `p` matches, with its group. */
  function Search(p: Pattern, s: string, from: nat): (r: Option<(nat, string)>)
    ensures r.Some? ==> from <= r.value.0 <= |s| && MatchAt(p, s, r.value.0) == Some(r.value.1)
    ensures r.Some? ==> forall j :: from <= j < r.value.0 ==> MatchAt(p, s, j).None?
    ensures r.None? ==> forall j :: from <= j <= |s| ==> MatchAt(p, s, j).None?
    decreases |s| + 1 - from
  {
    if from > |s| then None
    else
      match MatchAt(p, s, from)
      case Some(g) => Some((from, g))
      case None => Search(p, s, from + 1)
  }

  /** `re.search(pattern, text)` and the group the source reads from it. */
  function Find(p: Pattern, s: string): (r: Option<string>)
    ensures r.None? <==> forall j :: 0 <= j <= |s| ==> MatchAt(p, s, j).None?
    ensures r.Some? ==> exists i :: 0 <= i <= |s| && MatchAt(p, s, i) == r
                                    && forall j :: 0 <= j < i ==> MatchAt(p, s, j).None?
  {
    match Search(p, s, 0)
    case None => None
    case Some((_, g)) => Some(g)
  }

  /** The group of the leftmost position that matches is what `Find` returns. */
  lemma FindLeftmost(p: Pattern, s: string, i: nat)
    requires MatchAt(p, s, i).Some?
    requires forall j :: 0 <= j < i ==> MatchAt(p, s, j).None?
    ensures Find(p, s) == MatchAt(p, s, i)
  {
  }

  // ---------------------------------------------------------------------
  // The scanners agree with the declarative statements
  // ---------------------------------------------------------------------

  /** Every group has the shape its pattern promises. */
  lemma MatchShape(p: Pattern, s: string, i: nat)
    ensures MatchAt(p, s, i).Some? && p == DatePattern ==> DateShaped(MatchAt(p, s, i).value)
    ensures MatchAt(p, s, i).Some? && p == ReceiptNumberPattern ==> IsNumber(MatchAt(p, s, i).value)
    ensures MatchAt(p, s, i).Some? && p == VendorPattern ==> IsLineText(MatchAt(p, s, i).value)
    ensures MatchAt(p, s, i).Some? && p == TotalPattern ==> IsAmount(MatchAt(p, s, i).value)
  {
    match p
    case ReceiptNumberPattern => ReceiptNumberShape(s, i);
    case VendorPattern => VendorShape(s, i);
    case TotalPattern => TotalShape(s, i);
    case _ =>
  }

  lemma ReceiptNumberShape(s: string, i: nat)
    ensures MatchReceiptNumber(s, i).Some? ==> IsNumber(MatchReceiptNumber(s, i).value)
  {
    if MatchReceiptNumber(s, i).Some? {
      var k := RunEnd(s, i + |ReceiptLabel|, Space);
      var g := s[k..RunEnd(s, k, Digit)];
      assert forall q :: 0 <= q < |g| ==> g[q] == s[k + q];
    }
  }

  lemma VendorShape(s: string, i: nat)
    ensures MatchVendor(s, i).Some? ==> IsLineText(MatchVendor(s, i).value)
  {
    if MatchVendor(s, i).Some? {
      var lo := i + |VendorLabel|;
      var c := VendorStart(s, lo, RunEnd(s, lo, Space)).value;
      var g := s[c..RunEnd(s, c, NotNewline)];
      assert forall q :: 0 <= q < |g| ==> g[q] == s[c + q];
    }
  }

  lemma TotalShape(s: string, i: nat)
    ensures MatchTotal(s, i).Some? ==> IsAmount(MatchTotal(s, i).value)
  {
    if MatchTotal(s, i).Some? {
      var k := RunEnd(s, i + |TotalLabel|, Space);
      var m := RunEnd(s, k + 1, Digit);
      var g := s[k + 1..m + 3];
      assert forall q :: 0 <= q < |g| ==> g[q] == s[k + 1 + q];
    }
  }

  /** The receipt-number scanner matches exactly where a split exists, and captures the whole digit run after it. */
  lemma ReceiptNumberMatch(s: string, i: nat, k: nat)
    requires ReceiptSplit(s, i, k)
    ensures MatchAt(ReceiptNumberPattern, s, i) == Some(s[k..RunEnd(s, k, Digit)])
  {
    RunEndUnique(s, i + |ReceiptLabel|, k, Space);
  }

  /** Where the receipt-number scanner matches, there is a split at the end of the whitespace run. */
  lemma ReceiptNumberSound(s: string, i: nat)
    ensures MatchAt(ReceiptNumberPattern, s, i).Some? ==>
              var k := RunEnd(s, i + |ReceiptLabel|, Space);
              ReceiptSplit(s, i, k) && MatchAt(ReceiptNumberPattern, s, i) == Some(s[k..RunEnd(s, k, Digit)])
  {
  }

  lemma ReceiptNumberNoMatch(s: string, i: nat)
    requires forall k :: !ReceiptSplit(s, i, k)
    ensures MatchAt(ReceiptNumberPattern, s, i).None?
  {
    ReceiptNumberSound(s, i);
  }

  /**
   * The vendor scanner, with its backtracking, captures from the LAST
   * position that can follow the label's whitespace and start `.+`, to the
   * end of that line: exactly the greedy choice of `\s*`.
   */
  lemma VendorMatch(s: string, i: nat, c: nat)
    requires VendorSplit(s, i, c)
    requires forall d :: c < d ==> !VendorSplit(s, i, d)
    ensures MatchAt(VendorPattern, s, i) == Some(s[c..RunEnd(s, c, NotNewline)])
  {
    var lo := i + |VendorLabel|;
    var e := RunEnd(s, lo, Space);
    VendorSplitBound(s, i);
    var r := VendorStart(s, lo, e);
    assert r.Some? && r.value >= c;
    assert AllIn(s, lo, r.value, Space);
    assert VendorSplit(s, i, r.value);
  }

  /** Where the vendor scanner matches, its start is the last split. */
  lemma VendorSound(s: string, i: nat)
    ensures MatchAt(VendorPattern, s, i).Some? ==>
              var lo := i + |VendorLabel|;
              var c := VendorStart(s, lo, RunEnd(s, lo, Space)).value;
              && VendorSplit(s, i, c)
              && MatchAt(VendorPattern, s, i) == Some(s[c..RunEnd(s, c, NotNewline)])
              && forall d :: c < d ==> !VendorSplit(s, i, d)
  {
    if MatchAt(VendorPattern, s, i).Some? {
      var lo := i + |VendorLabel|;
      var e := RunEnd(s, lo, Space);
      var c := VendorStart(s, lo, e).value;
      assert AllIn(s, lo, c, Space);
      VendorSplitBound(s, i);
    }
  }

  lemma VendorNoMatch(s: string, i: nat)
    requires forall c :: !VendorSplit(s, i, c)
    ensures MatchAt(VendorPattern, s, i).None?
  {
    VendorSound(s, i);
  }

  /** A split never reaches past the whitespace run after the label. */
  lemma VendorSplitBound(s: string, i: nat)
    ensures forall c: nat :: VendorSplit(s, i, c) ==> c <= RunEnd(s, i + |VendorLabel|, Space)
  {
  }

  /** The total scanner matches exactly where a split exists, and captures the amount without `$`. */
  lemma TotalMatch(s: string, i: nat, k: nat, m: nat)
    requires TotalSplit(s, i, k, m)
    ensures MatchAt(TotalPattern, s, i) == Some(s[k + 1..m + 3])
  {
    RunEndUnique(s, i + |TotalLabel|, k, Space);
    RunEndUnique(s, k + 1, m, Digit);
  }

  /** Where the total scanner matches, there is a split at the greedy positions. */
  lemma TotalSound(s: string, i: nat)
    ensures MatchAt(TotalPattern, s, i).Some? ==>
              var k := RunEnd(s, i + |TotalLabel|, Space);
              var m := RunEnd(s, k + 1, Digit);
              TotalSplit(s, i, k, m) && MatchAt(TotalPattern, s, i) == Some(s[k + 1..m + 3])
  {
  }

  lemma TotalNoMatch(s: string, i: nat)
    requires forall k, m :: !TotalSplit(s, i, k, m)
    ensures MatchAt(TotalPattern, s, i).None?
  {
    TotalSound(s, i);
  }
}
