/**
 * The loop of `main` (receipt_automation.py:135-142): for each fetched
 * attachment, in order, process it, submit the record to the form and send
 * the notification mail; any exception ends that attachment's turn with an
 * error line and the loop goes on with the next one.
 *
 * The external collaborators are parameters: the two text producers
 * (`extract_from_pdf` / `extract_from_image` without their call to
 * `extract_details`), the form submission and the notification mail.  The
 * last two are given the position of the attachment in the batch, so that
 * their success or failure may differ from call to call.
 *
 * A turn of the loop first runs `process_attachment`; everything after it
 * depends only on the file name and on what that call gave (a `Turn`), so
 * the batch is specified over the sequence of turns, and `Turns` links it
 * to the attachments.
 */
module Batch {

  import opened Wrappers
  import opened Extraction
  import opened Attachments
  import opened FormPayload

  /** A fetched attachment: file name and payload bytes. */
  datatype Attachment = Attachment(name: string, data: seq<byte>)

  /**
   * The external collaborators; a `Failure` result stands for an
   * `Exception` and carries `str(e)`.  A `BaseException` that is not an
   * `Exception` ends the loop and is not modelled.
   */
  datatype Services = Services(
    pdfText: seq<byte> -> Result<string, string>,
    imageText: seq<byte> -> Result<string, string>,
    submit: (nat, seq<Response>) -> Result<(), string>,
    notify: (nat, Receipt) -> Result<(), string>)

  /** The file name of an attachment and what `process_attachment` gave for it. */
  datatype Turn = Turn(name: string, details: Result<Receipt, Failure>)

  /** The line printed for one attachment: `Processed: …` or `Error processing …: …`. */
  datatype Outcome = Processed(name: string) | Failed(name: string, failure: Failure)

  /** A call made to an external service, whether or not it then succeeded. */
  datatype Effect = SubmitAttempt(index: nat, body: seq<Response>) | NotifyAttempt(index: nat, details: Receipt)

  /** The text of the printed line. */
  function Line(o: Outcome): string
  {
    match o
    case Processed(name) => "Processed: " + name
    case Failed(name, f) => "Error processing " + name + ": " + Message(f)
  }

  /** The printed line tells a processed attachment from a failed one, and names the attachment. */
  lemma LineTellsOutcome(o: Outcome)
    ensures o.Processed? <==> |Line(o)| >= 11 && Line(o)[..11] == "Processed: "
    ensures o.Processed? ==> Line(o)[11..] == o.name
    ensures o.Failed? ==> Line(o)[..17] == "Error processing " && Line(o)[17..17 + |o.name|] == o.name
  {
    if o.Failed? {
      assert Line(o)[0] == 'E';
    }
  }

  /** The record of attachment `a`, or why there is none. */
  function Details(a: Attachment, svc: Services): Result<Receipt, Failure>
  {
    ProcessAttachment(a.name, a.data, svc.pdfText, svc.imageText)
  }

  /** The turns of a batch, one per attachment, in order. */
  function Turns(atts: seq<Attachment>, svc: Services): (ts: seq<Turn>)
    ensures |ts| == |atts|
    ensures forall k :: 0 <= k < |atts| ==> ts[k] == Turn(atts[k].name, Details(atts[k], svc))
  {
    seq(|atts|, k requires 0 <= k < |atts| => Turn(atts[k].name, Details(atts[k], svc)))
  }

  /** The outcome of the `k`-th turn `t`: the first step that fails decides it. */
  function ItemOutcome(k: nat, t: Turn, svc: Services): (o: Outcome)
    ensures o.name == t.name
  {
    match t.details
    case Failure(f) => Failed(t.name, f)
    case Success(r) =>
      match svc.submit(k, FormBody(r))
      case Failure(m) => Failed(t.name, SubmitFailed(m))
      case Success(_) =>
        match svc.notify(k, r)
        case Failure(m) => Failed(t.name, NotifyFailed(m))
        case Success(_) => Processed(t.name)
  }

  /** The calls the `k`-th turn makes: submission once there is a record, notification once submission worked. */
  function ItemEffects(k: nat, t: Turn, svc: Services): seq<Effect>
  {
    match t.details
    case Failure(_) => []
    case Success(r) =>
      if svc.submit(k, FormBody(r)).Failure? then [SubmitAttempt(k, FormBody(r))]
      else [SubmitAttempt(k, FormBody(r)), NotifyAttempt(k, r)]
  }

  /** The outcomes of the first `n` turns, in order. */
  function Outcomes(ts: seq<Turn>, svc: Services, n: nat): (os: seq<Outcome>)
    requires n <= |ts|
    ensures |os| == n
  {
    if n == 0 then [] else Outcomes(ts, svc, n - 1) + [ItemOutcome(n - 1, ts[n - 1], svc)]
  }

  /** The calls made in the first `n` turns, in order. */
  function Effects(ts: seq<Turn>, svc: Services, n: nat): seq<Effect>
    requires n <= |ts|
  {
    if n == 0 then [] else Effects(ts, svc, n - 1) + ItemEffects(n - 1, ts[n - 1], svc)
  }

  /**
   * One turn of the loop of `main`, the body of its `try`: the steps run in
   * order and the first that fails decides the outcome; the later steps are
   * not attempted.  `t` names the turn the steps make up.
   */
  method ProcessOne(i: nat, a: Attachment, svc: Services, ghost t: Turn) returns (o: Outcome, calls: seq<Effect>)
    requires t == Turn(a.name, Details(a, svc))
    ensures o == ItemOutcome(i, t, svc)
    ensures calls == ItemEffects(i, t, svc)
  {
    calls := [];
    var details := ProcessAttachment(a.name, a.data, svc.pdfText, svc.imageText);
    if details.Failure? {
      return Failed(a.name, details.error), calls;
    }
    var body := FormBody(details.value);
    calls := calls + [SubmitAttempt(i, body)];
    var submitted := svc.submit(i, body);
    if submitted.Failure? {
      return Failed(a.name, SubmitFailed(submitted.error)), calls;
    }
    calls := calls + [NotifyAttempt(i, details.value)];
    var notified := svc.notify(i, details.value);
    if notified.Failure? {
      return Failed(a.name, NotifyFailed(notified.error)), calls;
    }
    o := Processed(a.name);
  }

  /**
   * The loop of `main`: every attachment gets its turn, in order, and
   * whatever failed in one turn is caught and recorded there.
   */
  method ProcessBatch(atts: seq<Attachment>, svc: Services) returns (outcomes: seq<Outcome>, effects: seq<Effect>)
    ensures |outcomes| == |atts|
    ensures outcomes == Outcomes(Turns(atts, svc), svc, |atts|)
    ensures effects == Effects(Turns(atts, svc), svc, |atts|)
  {
    ghost var ts := Turns(atts, svc);
    outcomes, effects := [], [];
    for i := 0 to |atts|
      invariant outcomes == Outcomes(ts, svc, i)
      invariant effects == Effects(ts, svc, i)
    {
      var o, calls := ProcessOne(i, atts[i], svc, ts[i]);
      outcomes := outcomes + [o];
      effects := effects + calls;
    }
  }

  /** The `k`-th outcome of a batch is that of the `k`-th attachment's turn. */
  lemma BatchOutcomes(atts: seq<Attachment>, svc: Services)
    ensures forall k :: 0 <= k < |atts| ==>
              Outcomes(Turns(atts, svc), svc, |atts|)[k] == ItemOutcome(k, Turn(atts[k].name, Details(atts[k], svc)), svc)
  {
    var ts := Turns(atts, svc);
    OutcomesInOrder(ts, svc, |ts|);
  }

  // ---------------------------------------------------------------------
  // One outcome per attachment, in input order
  // ---------------------------------------------------------------------

  /**
   * The `k`-th outcome is the `k`-th turn's own: one entry per attachment,
   * in input order, whatever the other turns do.
   */
  lemma {:induction false} OutcomesInOrder(ts: seq<Turn>, svc: Services, n: nat)
    requires n <= |ts|
    ensures forall k :: 0 <= k < n ==> Outcomes(ts, svc, n)[k] == ItemOutcome(k, ts[k], svc)
  {
    if n > 0 {
      OutcomesInOrder(ts, svc, n - 1);
    }
  }

  /**
   * Failure isolation: two batches that agree on the `k`-th turn give it the
   * same outcome, however the other turns fare.
   */
  lemma FailureIsolated(ts: seq<Turn>, others: seq<Turn>, svc: Services, k: nat)
    requires k < |ts| && k < |others| && ts[k] == others[k]
    ensures Outcomes(ts, svc, |ts|)[k] == Outcomes(others, svc, |others|)[k]
  {
    OutcomesInOrder(ts, svc, |ts|);
    OutcomesInOrder(others, svc, |others|);
  }

  /** A turn ends `Processed` iff it has a record, the submission worked and the notification worked. */
  lemma ProcessedIffAllStepsSucceed(k: nat, t: Turn, svc: Services)
    ensures ItemOutcome(k, t, svc).Processed? <==> AllStepsSucceed(k, t, svc)
  {
  }

  /** Every step of the `k`-th turn `t` succeeds. */
  predicate AllStepsSucceed(k: nat, t: Turn, svc: Services)
  {
    && t.details.Success?
    && svc.submit(k, FormBody(t.details.value)).Success?
    && svc.notify(k, t.details.value).Success?
  }

  /** A batch whose names all passed the fetch filter never reports an unsupported file type. */
  lemma FetchedBatchHasNoUnsupported(atts: seq<Attachment>, svc: Services)
    requires forall a :: a in atts ==> FetchAccepts(Some(a.name))
    ensures forall o :: o in Outcomes(Turns(atts, svc), svc, |atts|) && o.Failed? ==> !o.failure.UnsupportedFileType?
  {
    var ts := Turns(atts, svc);
    OutcomesInOrder(ts, svc, |ts|);
    forall k | 0 <= k < |ts| ensures !ItemOutcome(k, ts[k], svc).Failed? || !ItemOutcome(k, ts[k], svc).failure.UnsupportedFileType? {
      assert atts[k] in atts;
      FetchedAreDispatchable(atts[k].name);
    }
  }

  // ---------------------------------------------------------------------
  // The calls made to the external services
  // ---------------------------------------------------------------------

  /** A call made in the first `m` turns is among the calls of the first `n`, for `m <= n`. */
  lemma {:induction false} EffectsGrow(ts: seq<Turn>, svc: Services, n: nat, m: nat, e: Effect)
    requires m <= n <= |ts| && e in Effects(ts, svc, m)
    ensures e in Effects(ts, svc, n)
  {
    if n > m {
      EffectsGrow(ts, svc, n - 1, m, e);
      var prev := Effects(ts, svc, n - 1);
      assert e in prev + ItemEffects(n - 1, ts[n - 1], svc);
    }
  }

  /**
   * Notification is attempted only right after a submission of the same
   * record that succeeded.
   */
  lemma {:induction false} NotifyOnlyAfterSubmit(ts: seq<Turn>, svc: Services, n: nat, p: nat)
    requires n <= |ts| && p < |Effects(ts, svc, n)|
    requires Effects(ts, svc, n)[p].NotifyAttempt?
    ensures var e := Effects(ts, svc, n);
            var k := e[p].index;
            && k < n && 0 < p
            && ts[k].details == Success(e[p].details)
            && e[p - 1] == SubmitAttempt(k, FormBody(e[p].details))
            && svc.submit(k, FormBody(e[p].details)).Success?
  {
    var prev := Effects(ts, svc, n - 1);
    var item := ItemEffects(n - 1, ts[n - 1], svc);
    assert Effects(ts, svc, n) == prev + item;
    if p < |prev| {
      NotifyOnlyAfterSubmit(ts, svc, n - 1, p);
    } else {
      assert Effects(ts, svc, n)[p] == item[p - |prev|];
    }
  }

  /**
   * A service is called for turn `k` exactly when it has a record, and then
   * that record's body is submitted, whatever happened in the turns before.
   */
  lemma {:induction false} SubmittedIffRecord(ts: seq<Turn>, svc: Services, n: nat, k: nat)
    requires k < n <= |ts|
    ensures ts[k].details.Success? <==> exists e :: e in Effects(ts, svc, n) && e.index == k
    ensures ts[k].details.Success? ==> SubmitAttempt(k, FormBody(ts[k].details.value)) in Effects(ts, svc, n)
  {
    if ts[k].details.Failure? {
      NoCallsForFailed(ts, svc, n, k);
    } else {
      var e := SubmitAttempt(k, FormBody(ts[k].details.value));
      var item := ItemEffects(k, ts[k], svc);
      assert item[0] == e;
      assert Effects(ts, svc, k + 1) == Effects(ts, svc, k) + item;
      EffectsGrow(ts, svc, n, k + 1, e);
    }
  }

  /** A turn without a record makes no call at all. */
  lemma {:induction false} NoCallsForFailed(ts: seq<Turn>, svc: Services, n: nat, k: nat)
    requires k < n <= |ts| && ts[k].details.Failure?
    ensures forall e :: e in Effects(ts, svc, n) ==> e.index != k
  {
    var prev := Effects(ts, svc, n - 1);
    var item := ItemEffects(n - 1, ts[n - 1], svc);
    assert Effects(ts, svc, n) == prev + item;
    ItemEffectsConcern(n - 1, ts[n - 1], svc);
    if n - 1 > k {
      NoCallsForFailed(ts, svc, n - 1, k);
    } else {
      IndicesBelow(ts, svc, k);
    }
  }

  /** The calls of the first `n` turns concern those turns only. */
  lemma {:induction false} IndicesBelow(ts: seq<Turn>, svc: Services, n: nat)
    requires n <= |ts|
    ensures forall e :: e in Effects(ts, svc, n) ==> e.index < n
  {
    if n > 0 {
      IndicesBelow(ts, svc, n - 1);
      var prev := Effects(ts, svc, n - 1);
      var item := ItemEffects(n - 1, ts[n - 1], svc);
      assert Effects(ts, svc, n) == prev + item;
      ItemEffectsConcern(n - 1, ts[n - 1], svc);
    }
  }

  /** The calls of the `k`-th turn carry its position, and a turn without a record makes none. */
  lemma ItemEffectsConcern(k: nat, t: Turn, svc: Services)
    ensures forall e :: e in ItemEffects(k, t, svc) ==> e.index == k
    ensures t.details.Failure? ==> ItemEffects(k, t, svc) == []
  {
  }

  // ---------------------------------------------------------------------
  // Three attachments, the second unreadable
  // ---------------------------------------------------------------------

  /**
   * When the second of three turns has no record and the other two succeed
   * throughout, the report has three lines, only the second an error, and
   * the first and third are still submitted.
   */
  lemma MiddleTurnFails(ts: seq<Turn>, svc: Services)
    requires |ts| == 3 && AllStepsSucceed(0, ts[0], svc) && AllStepsSucceed(2, ts[2], svc)
    requires ts[1].details.Failure?
    ensures Outcomes(ts, svc, 3) == [Processed(ts[0].name), Failed(ts[1].name, ts[1].details.error), Processed(ts[2].name)]
    ensures SubmitAttempt(0, FormBody(ts[0].details.value)) in Effects(ts, svc, 3)
    ensures SubmitAttempt(2, FormBody(ts[2].details.value)) in Effects(ts, svc, 3)
  {
    OutcomesInOrder(ts, svc, 3);
    SubmittedIffRecord(ts, svc, 3, 0);
    SubmittedIffRecord(ts, svc, 3, 2);
  }

  /**
   * When the second of three attachments cannot be read, only its line is an
   * error, and the first and third are still submitted.
   */
  lemma SecondUnreadable(a0: Attachment, a1: Attachment, a2: Attachment, svc: Services, m: string)
    requires AllStepsSucceed(0, Turn(a0.name, Details(a0, svc)), svc)
    requires AllStepsSucceed(2, Turn(a2.name, Details(a2, svc)), svc)
    requires KindOf(a1.name).Success?
    requires (if KindOf(a1.name).value == Pdf then svc.pdfText(a1.data) else svc.imageText(a1.data)) == Failure(m)
    ensures var ts := Turns([a0, a1, a2], svc);
            && Outcomes(ts, svc, 3) == [Processed(a0.name), Failed(a1.name, TextFailed(m)), Processed(a2.name)]
            && SubmitAttempt(0, FormBody(Details(a0, svc).value)) in Effects(ts, svc, 3)
            && SubmitAttempt(2, FormBody(Details(a2, svc).value)) in Effects(ts, svc, 3)
  {
    var ts := Turns([a0, a1, a2], svc);
    assert ts[0] == Turn(a0.name, Details(a0, svc)) && ts[2] == Turn(a2.name, Details(a2, svc));
    assert ts[1] == Turn(a1.name, Failure(TextFailed(m)));
    MiddleTurnFails(ts, svc);
  }
}
