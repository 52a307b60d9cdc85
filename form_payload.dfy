/**
 * The request body `submit_to_google_form` builds
 * (receipt_automation.py:91-96): one response per value of the record, in
 * the record's key order, each holding the single text answer
 * `str(value)`.
 */
module FormPayload {

  import opened Wrappers
  import opened Patterns
  import opened Extraction

  /** `{'value': ...}` */
  datatype Answer = Answer(value: string)

  /** `{'textAnswers': {'answers': [...]}}` */
  datatype Response = Response(answers: seq<Answer>)

  /** `str(value)` for a field: the text itself, or `"None"` when absent. */
  function Render(v: Option<string>): string
  {
    match v
    case Some(text) => text
    case None => "None"
  }

  /** `details.values()`: the fields in insertion order. */
  function FieldValues(r: Receipt): (vs: seq<Option<string>>)
    ensures |vs| == 5
  {
    [r.date, r.receiptNumber, r.vendor, r.total, r.items]
  }

  /** The `responses` list of the request body. */
  function FormBody(r: Receipt): (b: seq<Response>)
    ensures |b| == |FieldValues(r)|
    ensures forall k :: 0 <= k < |b| ==> b[k] == Response([Answer(Render(FieldValues(r)[k]))])
  {
    seq(5, k requires 0 <= k < 5 => Response([Answer(Render(FieldValues(r)[k]))]))
  }

  /** Reading one answer back: the text `"None"` stands for an absent field. */
  function Unrender(text: string): Option<string>
  {
    if text == "None" then None else Some(text)
  }

  /** The record a request body describes, if it has the shape `FormBody` produces. */
  function ReadBack(b: seq<Response>): (r: Option<Receipt>)
    ensures r.Some? <==> |b| == 5 && forall k :: 0 <= k < |b| ==> |b[k].answers| == 1
  {
    if |b| == 5 && forall k :: 0 <= k < |b| ==> |b[k].answers| == 1 then
      Some(Receipt(
        Unrender(b[0].answers[0].value), Unrender(b[1].answers[0].value), Unrender(b[2].answers[0].value),
        Unrender(b[3].answers[0].value), Unrender(b[4].answers[0].value)))
    else None
  }

  /** No present field holds the text `"None"`. */
  predicate NoNoneText(r: Receipt)
  {
    forall v :: v in FieldValues(r) ==> v != Some("None")
  }

  /**
   * The body describes the record: in order date, receipt_number, vendor,
   * total, items, each field can be read back from its answer unless its
   * text is itself `"None"`.
   */
  lemma {:induction false} PayloadRoundTrip(r: Receipt)
    requires NoNoneText(r)
    ensures ReadBack(FormBody(r)) == Some(r)
  {
    var vs := FieldValues(r);
    forall k | 0 <= k < 5 ensures Unrender(Render(vs[k])) == vs[k] {
      assert vs[k] in vs;
    }
    assert vs[0] == r.date && vs[1] == r.receiptNumber && vs[2] == r.vendor;
    assert vs[3] == r.total && vs[4] == r.items;
  }

  /**
   * An absent field and a field whose text is `"None"` give the same body:
   * the submission cannot tell `Vendor: None` from a receipt with no vendor.
   */
  lemma NoneTextIsAmbiguous(r: Receipt)
    ensures FormBody(r.(vendor := None)) == FormBody(r.(vendor := Some("None")))
  {
  }

  /** The record read back from a body holds each field as its answer reads. */
  lemma ReadBackFields(r: Receipt)
    ensures ReadBack(FormBody(r)) == Some(Receipt(
              Unrender(Render(r.date)), Unrender(Render(r.receiptNumber)), Unrender(Render(r.vendor)),
              Unrender(Render(r.total)), Unrender(Render(r.items))))
  {
    var b := FormBody(r);
    assert b[0].answers[0].value == Render(r.date) && b[1].answers[0].value == Render(r.receiptNumber);
    assert b[2].answers[0].value == Render(r.vendor) && b[3].answers[0].value == Render(r.total);
    assert b[4].answers[0].value == Render(r.items);
  }

  /**
   * For an extracted record the date, receipt-number and total answers
   * always read back: their patterns can never capture the text `"None"`.
   */
  lemma ExtractedShapesReadBack(text: string)
    ensures var r := ExtractDetails(text);
            var back := ReadBack(FormBody(r));
            back.Some? && back.value.date == r.date && back.value.receiptNumber == r.receiptNumber
            && back.value.total == r.total
  {
    var r := ExtractDetails(text);
    ReadBackFields(r);
    assert r.date != Some("None") by {
      assert r.date.Some? ==> r.date.value[2] == '/';
      assert "None"[2] != '/';
    }
    assert r.receiptNumber != Some("None") by {
      assert !IsNumber("None") by { assert "None"[0] == 'N' && !Text.IsDigit('N'); }
    }
    assert r.total != Some("None") by {
      assert !IsAmount("None");
    }
  }
}
