/**
 * `extract_details` (receipt_automation.py:65-84): five independent
 * leftmost-match searches over the text, each giving one optional field of
 * the record.  The function is total: every text yields a record, possibly
 * with every field absent.
 */
module Extraction {

  import opened Wrappers
  import opened Text
  import opened Patterns

  /**
   * The dictionary `extract_details` returns, with its keys in insertion
   * order: date, receipt_number, vendor, total, items.
   */
  datatype Receipt = Receipt(
    date: Option<string>,
    receiptNumber: Option<string>,
    vendor: Option<string>,
    total: Option<string>,
    items: Option<string>)

  /** No leading and no trailing whitespace. */
  predicate Stripped(g: string)
  {
    g == [] || (!IsSpace(g[0]) && !IsSpace(g[|g| - 1]))
  }

  function ExtractDetails(text: string): (r: Receipt)
    ensures r.date.Some? ==> DateShaped(r.date.value)
    ensures r.receiptNumber.Some? ==> IsNumber(r.receiptNumber.value)
    ensures r.vendor.Some? ==> IsLineText(r.vendor.value)
    ensures r.total.Some? ==> IsAmount(r.total.value)
    ensures r.items.Some? ==> Stripped(r.items.value)
  {
    FindShape(DatePattern, text);
    FindShape(ReceiptNumberPattern, text);
    FindShape(VendorPattern, text);
    FindShape(TotalPattern, text);
    var items := Find(ItemsPattern, text);
    Receipt(
      Find(DatePattern, text),
      Find(ReceiptNumberPattern, text),
      Find(VendorPattern, text),
      Find(TotalPattern, text),
      if items.Some? then Some(Strip(items.value)) else None)
  }

  /** What `Find` returns has the shape its pattern captures. */
  lemma FindShape(p: Pattern, s: string)
    ensures Find(p, s).Some? && p == DatePattern ==> DateShaped(Find(p, s).value)
    ensures Find(p, s).Some? && p == ReceiptNumberPattern ==> IsNumber(Find(p, s).value)
    ensures Find(p, s).Some? && p == VendorPattern ==> IsLineText(Find(p, s).value)
    ensures Find(p, s).Some? && p == TotalPattern ==> IsAmount(Find(p, s).value)
  {
    if Find(p, s).Some? {
      var i :| 0 <= i <= |s| && MatchAt(p, s, i) == Find(p, s)
               && forall j :: 0 <= j < i ==> MatchAt(p, s, j).None?;
      MatchShape(p, s, i);
    }
  }

  // ---------------------------------------------------------------------
  // The empty record
  // ---------------------------------------------------------------------

  /** A text with no label and no date-shaped substring gives a record with every field absent. */
  lemma NothingFound(s: string)
    requires forall i: nat :: !DateAt(s, i)
    requires forall i: nat :: !LiteralAt(s, i, ReceiptLabel) && !LiteralAt(s, i, VendorLabel)
    requires forall i: nat :: !LiteralAt(s, i, TotalLabel) && !LiteralAt(s, i, ItemsLabel)
    ensures ExtractDetails(s) == Receipt(None, None, None, None, None)
  {
  }

  // ---------------------------------------------------------------------
  // date
  // ---------------------------------------------------------------------

  /** The date is the leftmost date-shaped substring, whole; absent iff there is none. */
  lemma DateField(s: string)
    ensures ExtractDetails(s).date.None? <==> forall i: nat :: !DateAt(s, i)
    ensures ExtractDetails(s).date.Some? ==>
              exists i: nat :: DateAt(s, i) && ExtractDetails(s).date.value == s[i..i + 10]
                               && forall j: nat :: j < i ==> !DateAt(s, j)
  {
    assert forall i: nat :: MatchAt(DatePattern, s, i).Some? <==> DateAt(s, i);
  }

  /** A text without '/' has no date. */
  lemma NoSlashNoDate(s: string)
    requires '/' !in s
    ensures ExtractDetails(s).date.None?
  {
    forall i: nat | i + 10 <= |s| ensures !DateAt(s, i) {
      assert s[i..i + 10][2] == s[i + 2];
    }
    DateField(s);
  }

  /** No calendar check: any two digits, '/', two digits, '/', four digits is a date. */
  lemma DateWithoutCalendar(d: string, post: string)
    requires DateShaped(d)
    ensures ExtractDetails(d + post).date == Some(d)
  {
    var s := d + post;
    assert s[0..10] == d;
    FindLeftmost(DatePattern, s, 0);
  }

  // ---------------------------------------------------------------------
  // receipt_number
  // ---------------------------------------------------------------------

  /**
   * The receipt number is the whole digit run after the first `Receipt #:`
   * that whitespace and then a digit follow.
   */
  lemma ReceiptNumberField(s: string, i: nat, k: nat)
    requires ReceiptSplit(s, i, k)
    requires forall j: nat, k': nat :: j < i ==> !ReceiptSplit(s, j, k')
    ensures ExtractDetails(s).receiptNumber == Some(s[k..RunEnd(s, k, Digit)])
  {
    ReceiptNumberMatch(s, i, k);
    forall j: nat | j < i ensures MatchAt(ReceiptNumberPattern, s, j).None? {
      ReceiptNumberNoMatch(s, j);
    }
    FindLeftmost(ReceiptNumberPattern, s, i);
  }

  /** The receipt number is absent iff no `Receipt #:` is followed by whitespace and a digit. */
  lemma ReceiptNumberAbsent(s: string)
    ensures ExtractDetails(s).receiptNumber.None? <==> forall i: nat, k: nat :: !ReceiptSplit(s, i, k)
  {
    if ExtractDetails(s).receiptNumber.None? {
      forall i: nat, k: nat ensures !ReceiptSplit(s, i, k) {
        if i <= |s| {
          assert MatchAt(ReceiptNumberPattern, s, i).None?;
          ReceiptNumberSound(s, i);
          if ReceiptSplit(s, i, k) {
            ReceiptNumberMatch(s, i, k);
          }
        }
      }
    } else {
      var i :| 0 <= i <= |s| && MatchAt(ReceiptNumberPattern, s, i).Some?;
      ReceiptNumberSound(s, i);
    }
  }

  /** `pre Receipt #: <whitespace> <digits> post`, with no earlier label, gives exactly those digits. */
  lemma ReceiptNumberAfterLabel(pre: string, ws: string, digits: string, post: string)
    requires AllIn(ws, 0, |ws|, Space) && IsNumber(digits)
    requires post == [] || !IsDigit(post[0])
    requires forall j: nat :: j < |pre| ==> !LiteralAt(pre + ReceiptLabel + ws + digits + post, j, ReceiptLabel)
    ensures ExtractDetails(pre + ReceiptLabel + ws + digits + post).receiptNumber == Some(digits)
  {
    var s := pre + ReceiptLabel + ws + digits + post;
    var i := |pre|;
    var k := i + |ReceiptLabel| + |ws|;
    var e := k + |digits|;
    Pieces(pre, ReceiptLabel, ws, digits, post);
    assert AllIn(s, i + |ReceiptLabel|, k, Space) by {
      forall p | i + |ReceiptLabel| <= p < k ensures IsSpace(s[p]) { assert s[p] == ws[p - i - |ReceiptLabel|]; }
    }
    assert AllIn(s, k, e, Digit) by {
      forall p | k <= p < e ensures IsDigit(s[p]) { assert s[p] == digits[p - k]; }
    }
    assert e < |s| ==> s[e] == post[0];
    RunEndUnique(s, k, e, Digit);
    ReceiptNumberField(s, i, k);
  }

  /** The ASCII separator `\x1c` counts as `\s`: `Receipt #:\x1c42` yields the number `42`. */
  lemma SeparatorIsSpace()
    ensures ExtractDetails(ReceiptLabel + "\U{001C}" + "42").receiptNumber == Some("42")
  {
    var s := ReceiptLabel + "\U{001C}" + "42";
    assert s == [] + ReceiptLabel + "\U{001C}" + "42" + [];
    ReceiptNumberAfterLabel([], "\U{001C}", "42", []);
  }

  // ---------------------------------------------------------------------
  // vendor
  // ---------------------------------------------------------------------

  /**
   * The vendor comes from the first `Vendor:` that can match: from the last
   * position the label's whitespace can give back to `.+`, to the end of
   * that line.
   */
  lemma VendorField(s: string, i: nat, c: nat)
    requires VendorSplit(s, i, c)
    requires forall d: nat :: c < d ==> !VendorSplit(s, i, d)
    requires forall j: nat, d: nat :: j < i ==> !VendorSplit(s, j, d)
    ensures ExtractDetails(s).vendor == Some(s[c..RunEnd(s, c, NotNewline)])
  {
    VendorMatch(s, i, c);
    forall j: nat | j < i ensures MatchAt(VendorPattern, s, j).None? {
      VendorNoMatch(s, j);
    }
    FindLeftmost(VendorPattern, s, i);
  }

  /** The vendor is absent iff no `Vendor:` is followed by whitespace and a character other than a newline. */
  lemma VendorAbsent(s: string)
    ensures ExtractDetails(s).vendor.None? <==> forall i: nat, c: nat :: !VendorSplit(s, i, c)
  {
    if ExtractDetails(s).vendor.None? {
      forall i: nat, c: nat ensures !VendorSplit(s, i, c) {
        if i <= |s| {
          assert MatchAt(VendorPattern, s, i).None?;
          VendorSound(s, i);
          VendorSplitBound(s, i);
        }
      }
    } else {
      var i :| 0 <= i <= |s| && MatchAt(VendorPattern, s, i).Some?;
      VendorSound(s, i);
    }
  }

  /**
   * `pre Vendor: <whitespace> <line> post`, where the line does not start
   * with whitespace and runs to a newline or the end, gives exactly the line.
   */
  lemma VendorRestOfLine(pre: string, ws: string, line: string, post: string)
    requires AllIn(ws, 0, |ws|, Space)
    requires IsLineText(line) && !IsSpace(line[0])
    requires post == [] || post[0] == '\n'
    requires forall j: nat :: j < |pre| ==> !LiteralAt(pre + VendorLabel + ws + line + post, j, VendorLabel)
    ensures ExtractDetails(pre + VendorLabel + ws + line + post).vendor == Some(line)
  {
    var s := pre + VendorLabel + ws + line + post;
    var i := |pre|;
    var lo := i + |VendorLabel|;
    var c := lo + |ws|;
    var e := c + |line|;
    Pieces(pre, VendorLabel, ws, line, post);
    assert AllIn(s, lo, c, Space) by {
      forall p | lo <= p < c ensures IsSpace(s[p]) { assert s[p] == ws[p - lo]; }
    }
    assert s[c] == line[0];
    forall d: nat | c < d ensures !VendorSplit(s, i, d) {
      assert !IsSpace(s[c]);
    }
    assert AllIn(s, c, e, NotNewline) by {
      forall p | c <= p < e ensures s[p] != '\n' { assert s[p] == line[p - c]; }
    }
    assert e < |s| ==> s[e] == post[0];
    RunEndUnique(s, c, e, NotNewline);
    VendorField(s, i, c);
  }

  // ---------------------------------------------------------------------
  // total
  // ---------------------------------------------------------------------

  /** The total is the amount after the first `Total:` that whitespace, `$` and a two-decimal amount follow. */
  lemma TotalField(s: string, i: nat, k: nat, m: nat)
    requires TotalSplit(s, i, k, m)
    requires forall j: nat, k': nat, m': nat :: j < i ==> !TotalSplit(s, j, k', m')
    ensures ExtractDetails(s).total == Some(s[k + 1..m + 3])
  {
    TotalMatch(s, i, k, m);
    forall j: nat | j < i ensures MatchAt(TotalPattern, s, j).None? {
      TotalNoMatch(s, j);
    }
    FindLeftmost(TotalPattern, s, i);
  }

  /** The total is absent iff no `Total:` is followed by whitespace, `$` and a two-decimal amount. */
  lemma TotalAbsent(s: string)
    ensures ExtractDetails(s).total.None? <==> forall i: nat, k: nat, m: nat :: !TotalSplit(s, i, k, m)
  {
    if ExtractDetails(s).total.None? {
      forall i: nat, k: nat, m: nat ensures !TotalSplit(s, i, k, m) {
        if i <= |s| {
          assert MatchAt(TotalPattern, s, i).None?;
          if TotalSplit(s, i, k, m) {
            TotalMatch(s, i, k, m);
          }
        }
      }
    } else {
      var i :| 0 <= i <= |s| && MatchAt(TotalPattern, s, i).Some?;
      TotalSound(s, i);
    }
  }

  /**
   * `pre Total: <whitespace> $<digits>.<d1><d2> post`, with no earlier
   * label, gives `<digits>.<d1><d2>` whatever `post` holds.
   */
  lemma TotalAfterLabel(pre: string, ws: string, amount: string, post: string)
    requires AllIn(ws, 0, |ws|, Space) && IsAmount(amount)
    requires forall j: nat :: j < |pre| ==> !LiteralAt(pre + TotalLabel + ws + ("$" + amount) + post, j, TotalLabel)
    ensures ExtractDetails(pre + TotalLabel + ws + ("$" + amount) + post).total == Some(amount)
  {
    var s := pre + TotalLabel + ws + ("$" + amount) + post;
    var i := |pre|;
    var lo := i + |TotalLabel|;
    var k := lo + |ws|;
    var m := k + |amount| - 2;
    Pieces(pre, TotalLabel, ws, "$" + amount, post);
    assert AllIn(s, lo, k, Space) by {
      forall p | lo <= p < k ensures IsSpace(s[p]) { assert s[p] == ws[p - lo]; }
    }
    assert forall p :: k < p <= k + |amount| ==> s[p] == amount[p - k - 1];
    assert s[k] == '$';
    assert AllIn(s, k + 1, m, Digit);
    assert TotalSplit(s, i, k, m);
    assert s[k + 1..m + 3] == amount;
    TotalField(s, i, k, m);
  }

  /** `Total: $12.5` with no third character of amount cannot match: exactly two decimals are required. */
  lemma TotalNeedsTwoDecimals(pre: string, post: string)
    requires post == [] || !IsDigit(post[0])
    requires forall j: nat, k: nat, m: nat :: j != |pre| ==> !TotalSplit(pre + "Total: $12.5" + post, j, k, m)
    ensures ExtractDetails(pre + "Total: $12.5" + post).total.None?
  {
    var s := pre + "Total: $12.5" + post;
    var i := |pre|;
    assert forall p :: 0 <= p < 12 ==> s[i + p] == "Total: $12.5"[p];
    assert |s| > i + 12 ==> s[i + 12] == post[0];
    assert s[i..i + 6] == TotalLabel;
    RunEndUnique(s, i + 6, i + 7, Space);
    RunEndUnique(s, i + 8, i + 10, Digit);
    assert MatchAt(TotalPattern, s, i).None?;
    forall j: nat | j != i ensures MatchAt(TotalPattern, s, j).None? {
      TotalNoMatch(s, j);
    }
  }

  // ---------------------------------------------------------------------
  // items
  // ---------------------------------------------------------------------

  /**
   * The items are decided by the FIRST `Items:` alone: absent when there is
   * no `Items:` or no `Total:` after it; otherwise the text between it and
   * the nearest `Total:` after it, stripped.
   */
  lemma ItemsField(s: string)
    ensures ExtractDetails(s).items ==
              match FindLiteral(s, 0, ItemsLabel)
              case None => None
              case Some(i) =>
                match FindLiteral(s, i + |ItemsLabel|, TotalLabel)
                case None => None
                case Some(q) => Some(Strip(s[i + |ItemsLabel|..q]))
  {
    match FindLiteral(s, 0, ItemsLabel)
    case None =>
      assert forall j: nat :: MatchAt(ItemsPattern, s, j).None?;
    case Some(i) =>
      match FindLiteral(s, i + |ItemsLabel|, TotalLabel)
      case None =>
        forall j: nat ensures MatchAt(ItemsPattern, s, j).None? {
          if j >= i && LiteralAt(s, j, ItemsLabel) {
            assert FindLiteral(s, j + |ItemsLabel|, TotalLabel).None?;
          }
        }
      case Some(q) =>
        FindLeftmost(ItemsPattern, s, i);
  }

  /**
   * `pre Items: body Total: post`, where `pre` has no `Items:` and no
   * `Total:` starts inside `body`, gives the body stripped.
   */
  lemma ItemsBetween(pre: string, body: string, post: string)
    requires forall j: nat :: j < |pre| ==> !LiteralAt(pre + ItemsLabel + body + TotalLabel + post, j, ItemsLabel)
    requires forall j: nat :: |pre| + |ItemsLabel| <= j < |pre| + |ItemsLabel| + |body| ==>
               !LiteralAt(pre + ItemsLabel + body + TotalLabel + post, j, TotalLabel)
    ensures ExtractDetails(pre + ItemsLabel + body + TotalLabel + post).items == Some(Strip(body))
  {
    var s := pre + ItemsLabel + body + TotalLabel + post;
    var i := |pre|;
    var q := i + |ItemsLabel| + |body|;
    assert LiteralAt(s, i, ItemsLabel) by {
      assert s[i..i + |ItemsLabel|] == ItemsLabel;
    }
    assert LiteralAt(s, q, TotalLabel) by {
      assert s[q..q + |TotalLabel|] == TotalLabel;
    }
    FindLiteralAt(s, 0, ItemsLabel, i);
    FindLiteralAt(s, i + |ItemsLabel|, TotalLabel, q);
    assert s[i + |ItemsLabel|..q] == body;
    ItemsField(s);
  }

  // ---------------------------------------------------------------------
  // Worked example
  // ---------------------------------------------------------------------

  /** A receipt laid out line by line, with no date. */
  const LabelledText: string :=
    "Receipt #: 42\n" + "Vendor: X\n" + "Items:\n" + "widget x2\n" + "Total: $3.00"

  /** The labelled receipt yields every field but the date. */
  lemma LabelledReceipt()
    ensures LabelledText == "Receipt #: 42\nVendor: X\nItems:\nwidget x2\nTotal: $3.00"
    ensures ExtractDetails(LabelledText) == Receipt(None, Some("42"), Some("X"), Some("3.00"), Some("widget x2"))
  {
    LabelledSpelledOut();
    LabelledDate();
    LabelledNumber();
    LabelledVendor();
    LabelledTotal();
    LabelledItems();
  }

  lemma LabelledSpelledOut()
    ensures LabelledText == "Receipt #: 42\nVendor: X\nItems:\nwidget x2\nTotal: $3.00"
  {
    assert "Receipt #: 42\n" + "Vendor: X\n" == "Receipt #: 42\nVendor: X\n";
    assert "Receipt #: 42\nVendor: X\n" + "Items:\n" == "Receipt #: 42\nVendor: X\nItems:\n";
    assert "Receipt #: 42\nVendor: X\nItems:\n" + "widget x2\n" == "Receipt #: 42\nVendor: X\nItems:\nwidget x2\n";
  }

  lemma LabelledDate()
    ensures ExtractDetails(LabelledText).date.None?
  {
    assert '/' !in LabelledText;
    NoSlashNoDate(LabelledText);
  }

  lemma LabelledNumber()
    ensures ExtractDetails(LabelledText).receiptNumber == Some("42")
  {
    var rest := "Vendor: X\n" + "Items:\n" + "widget x2\n" + "Total: $3.00";
    var post := "\n" + rest;
    assert LabelledText == [] + ReceiptLabel + " " + "42" + post;
    ReceiptNumberAfterLabel([], " ", "42", post);
  }

  lemma LabelledVendor()
    ensures ExtractDetails(LabelledText).vendor == Some("X")
  {
    var s := LabelledText;
    var pre := "Receipt #: 42\n";
    var post := "\n" + ("Items:\n" + "widget x2\n" + "Total: $3.00");
    assert s == pre + VendorLabel + " " + "X" + post;
    assert s[..|pre|] == pre;
    NotBefore(s, |pre|, VendorLabel);
    VendorRestOfLine(pre, " ", "X", post);
  }

  lemma LabelledTotal()
    ensures ExtractDetails(LabelledText).total == Some("3.00")
  {
    var s := LabelledText;
    var pre := "Receipt #: 42\n" + "Vendor: X\n" + "Items:\n" + "widget x2\n";
    assert s == pre + TotalLabel + " " + ("$" + "3.00") + [];
    assert s[..|pre|] == pre;
    assert 'T' !in pre;
    NotBefore(s, |pre|, TotalLabel);
    TotalAfterLabel(pre, " ", "3.00", []);
  }

  lemma LabelledItems()
    ensures ExtractDetails(LabelledText).items == Some("widget x2")
  {
    var pre := "Receipt #: 42\n" + "Vendor: X\n";
    var body := "\n" + "widget x2\n";
    LabelledItemsLabels(pre, body);
    StripExact("\n", "widget x2", "\n");
    assert "\n" + "widget x2" + "\n" == body;
    ItemsBetween(pre, body, " $3.00");
  }

  /** In the labelled receipt the first `Items:` follows the vendor line, and no `Total:` starts before the last line. */
  lemma LabelledItemsLabels(pre: string, body: string)
    requires pre == "Receipt #: 42\n" + "Vendor: X\n" && body == "\n" + "widget x2\n"
    ensures LabelledText == pre + ItemsLabel + body + TotalLabel + " $3.00"
    ensures forall j: nat :: j < |pre| ==> !LiteralAt(LabelledText, j, ItemsLabel)
    ensures forall j: nat :: j < |pre| + |ItemsLabel| + |body| ==> !LiteralAt(LabelledText, j, TotalLabel)
  {
    var s := LabelledText;
    assert s == pre + ItemsLabel + body + TotalLabel + " $3.00";
    assert s[..|pre|] == pre;
    assert 'I' !in pre;
    NotBefore(s, |pre|, ItemsLabel);
    var upTo := |pre| + |ItemsLabel| + |body|;
    assert s[..upTo] == pre + ItemsLabel + body;
    assert 'T' !in pre + ItemsLabel + body;
    NotBefore(s, upTo, TotalLabel);
  }

  // ---------------------------------------------------------------------
  // Sequence bookkeeping
  // ---------------------------------------------------------------------

  /** Where the pieces of `a + b + c + d + e` sit. */
  lemma Pieces(a: string, b: string, c: string, d: string, e: string)
    ensures var s := a + b + c + d + e;
            && |s| == |a| + |b| + |c| + |d| + |e|
            && s[|a|..|a| + |b|] == b
            && s[|a| + |b|..|a| + |b| + |c|] == c
            && s[|a| + |b| + |c|..|a| + |b| + |c| + |d|] == d
            && (forall p :: 0 <= p < |b| ==> s[|a| + p] == b[p])
            && (forall p :: 0 <= p < |c| ==> s[|a| + |b| + p] == c[p])
            && (forall p :: 0 <= p < |d| ==> s[|a| + |b| + |c| + p] == d[p])
            && (forall p :: 0 <= p < |e| ==> s[|a| + |b| + |c| + |d| + p] == e[p])
  {
  }
}
