# Receipt automation, modelled in Dafny

`receipt_automation.py` collects receipt attachments from a mailbox, reads
their text (PDF text layer or OCR), pulls five fields out of that text with
regular expressions, submits the fields to a Google Form and mails a
notification to the finance team. This project models the logic between
those I/O steps and proves properties of it:

- **Field extraction** (`extract_details`). The five patterns are modelled
  in `patterns.dfy` as scanners that match at one position. A generic
  leftmost search stands for `re.search`. The date scanner is defined by
  the declarative date condition `DateAt` itself. The receipt-number,
  vendor and total patterns each have a declarative predicate saying what
  they accept, with lemmas that scanner and predicate agree. The items
  pattern is characterised by the leftmost-label search `Text.FindLiteral`
  and the contract of `Patterns.MatchItems`. `extraction.dfy` builds the
  five-field record and characterises every field exactly.
- **Attachment dispatch** (`process_attachment` and the file-name filter of
  `fetch_emails`), in `attachments.dfy`. PDF names are tested
  case-sensitively and image names case-insensitively. Any other name is an
  "Unsupported file type" error.
- **Form payload** (the body that `submit_to_google_form` builds), in
  `form_payload.dfy`. It has one `str(value)` answer per field, in record
  order.
- **Batch loop** (`main`), in `batch.dfy`. It is a method that walks the
  attachments in order and records one outcome and the service calls made
  for each. A failure only ends that attachment's turn.

The patterns are `str` patterns, so Python gives `\s`, `\d`, `str.strip`
and `str.lower` their Unicode meaning. The model covers the ASCII part of
that meaning:
- `\s` and the whitespace of `str.strip` are space, `\t`, `\n`, `\v`,
  `\f`, `\r` and the separators `\x1c`–`\x1f`;
- `\d` is `0`–`9`;
- `.` is any character except `\n`;
- `str.lower` lowers `A`–`Z`.

The greedy `\s*` of the vendor pattern backtracks, and the model does the
same. For example, `Vendor:` followed only by two spaces at the end of the text yields
the vendor `" "`.

The external services are parameters of the model:
- the PDF reader and the OCR engine, each a function from bytes to text or
  an error message;
- the form submission and the notification mail, each a function from the
  attachment's position and its request to success or an error message.

## Model

| member | source | states |
|---|---|---|
| Text.Strip | receipt_automation.py:83 | the stripped text is empty exactly when the input is all whitespace, and otherwise it begins and ends with a non-whitespace character |
| Text.StripExact | receipt_automation.py:83 | whitespace around a text with non-whitespace ends is removed, and only that whitespace |
| Text.StripIdempotent | receipt_automation.py:83 | stripping twice gives the same text as stripping once |
| Text.Lower | receipt_automation.py:36 | `lower()` keeps the length and lowers each character |
| Text.LowerIdempotent | receipt_automation.py:48 | lowering twice gives the same text as lowering once |
| Text.FindLiteral | receipt_automation.py:70 | the leftmost occurrence of a label at or after a position, or none at all |
| Text.EndsWith | receipt_automation.py:36 | `str.endswith`; `Attachments.KindOf` and `Attachments.DispatchByCase` state the answers it gives for file names |
| Patterns.MatchDate | receipt_automation.py:66 | the date scanner matches exactly where `DateAt` holds, giving the ten characters there; `Extraction.DateField` and `Patterns.MatchShape` state this |
| Patterns.MatchReceiptNumber | receipt_automation.py:67 | the receipt-number scanner; `Patterns.ReceiptNumberMatch`, `ReceiptNumberSound` and `ReceiptNumberNoMatch` state what it accepts |
| Patterns.MatchVendor | receipt_automation.py:68 | the vendor scanner; `Patterns.VendorMatch`, `VendorSound` and `VendorNoMatch` state what it accepts |
| Patterns.MatchTotal | receipt_automation.py:69 | the total scanner; `Patterns.TotalMatch`, `TotalSound` and `TotalNoMatch` state what it accepts |
| Patterns.MatchItems | receipt_automation.py:70 | a match exactly when `Items:` is at `i` and some `Total:` starts after it; the group then runs from the label to the nearest such `Total:`, and no `Total:` starts inside it |
| Patterns.MatchAt | receipt_automation.py:66-70 | the anchored match of each pattern, one scanner per pattern; `Patterns.MatchShape` states the shape of every group |
| Patterns.Search | receipt_automation.py:72-76 | the first position from `from` on where the pattern matches, with its group, and no match at any earlier position; or no match anywhere |
| Patterns.Find | receipt_automation.py:72-76 | `re.search` finds nothing exactly when the pattern matches at no position, and otherwise returns the group of a match |
| Patterns.FindLeftmost | receipt_automation.py:72-76 | a match at `i` with none before it is the one `re.search` returns |
| Patterns.MatchShape | receipt_automation.py:66-70 | a date match is `DD/DD/DDDD`, a receipt number is one or more digits, a vendor is non-empty with no newline, and a total is digits, `.` and two digits with no `$` |
| Patterns.ReceiptNumberMatch | receipt_automation.py:67 | after `Receipt #:`, whitespace and a digit, the group is the maximal digit run starting at that digit |
| Patterns.ReceiptNumberSound | receipt_automation.py:67 | every receipt-number match has that declarative shape |
| Patterns.ReceiptNumberNoMatch | receipt_automation.py:67 | without that shape at a position there is no match there |
| Patterns.VendorStart | receipt_automation.py:68 | the backtracking of `\s*`: the last position of the whitespace run holding a character other than a newline, or none |
| Patterns.VendorMatch | receipt_automation.py:68 | the group starts at the latest possible character after `Vendor:` and whitespace, and runs to the end of that line |
| Patterns.VendorSound | receipt_automation.py:68 | every vendor match has that declarative shape and starts at the latest possible position |
| Patterns.VendorNoMatch | receipt_automation.py:68 | without that shape at a position there is no match there |
| Patterns.VendorSplitBound | receipt_automation.py:68 | the group cannot start past the end of the whitespace that follows the label |
| Patterns.TotalMatch | receipt_automation.py:69 | after `Total:`, whitespace and `$`, the group is the digits, the `.` and the two decimals |
| Patterns.TotalSound | receipt_automation.py:69 | every total match has that declarative shape |
| Patterns.TotalNoMatch | receipt_automation.py:69 | without that shape at a position there is no match there |
| Extraction.ExtractDetails | receipt_automation.py:65-84 | total over all texts, and each field that is present has its pattern's shape; the items are stripped |
| Extraction.FindShape | receipt_automation.py:72-75 | the first four searches return text of their pattern's shape |
| Extraction.NothingFound | receipt_automation.py:72-84 | a text with no label and no `DD/DD/DDDD` gives a record with all five fields absent |
| Extraction.DateField | receipt_automation.py:79 | the date is absent exactly when no position holds `DD/DD/DDDD`, and otherwise it is the whole leftmost such substring |
| Extraction.NoSlashNoDate | receipt_automation.py:66 | a text without `/` has no date |
| Extraction.DateWithoutCalendar | receipt_automation.py:66 | any `DD/DD/DDDD` at the start is taken as the date, with no calendar check |
| Extraction.ReceiptNumberField | receipt_automation.py:80 | the receipt number is the maximal digit run after the first `Receipt #:` that is followed by whitespace and a digit |
| Extraction.ReceiptNumberAbsent | receipt_automation.py:80 | the receipt number is absent exactly when no `Receipt #:` is followed by whitespace and a digit |
| Extraction.ReceiptNumberAfterLabel | receipt_automation.py:73 | `Receipt #:`, whitespace and digits, with no earlier label, give exactly those digits |
| Extraction.SeparatorIsSpace | receipt_automation.py:67 | the ASCII separator `\x1c` counts as `\s`: `Receipt #:` then `\x1c42` gives the number `42` |
| Extraction.VendorField | receipt_automation.py:81 | the vendor is the rest of the line from the latest possible start after the first matching `Vendor:` |
| Extraction.VendorAbsent | receipt_automation.py:81 | the vendor is absent exactly when no `Vendor:` is followed by whitespace and a character other than a newline |
| Extraction.VendorRestOfLine | receipt_automation.py:74 | `Vendor: Acme Corp\n` and every text of that form yield the line text, here `Acme Corp` |
| Extraction.TotalField | receipt_automation.py:82 | the total is the amount after the first well-formed `Total: $…`, without the `$` |
| Extraction.TotalAbsent | receipt_automation.py:82 | the total is absent exactly when no `Total:` is followed by whitespace, `$`, digits, `.` and two digits |
| Extraction.TotalAfterLabel | receipt_automation.py:75 | `Total: $12.50` and every text of that form yield the amount, here `12.50` |
| Extraction.TotalNeedsTwoDecimals | receipt_automation.py:69 | `Total: $12.5` with no other well-formed total gives no total |
| Extraction.ItemsField | receipt_automation.py:83 | the items are absent when there is no `Items:` or no `Total:` after the first one, and otherwise they are the stripped text between the first `Items:` and the nearest `Total:` after it |
| Extraction.ItemsBetween | receipt_automation.py:76 | `Items: body Total:` gives the body stripped |
| Extraction.LabelledReceipt | receipt_automation.py:65-84 | the labelled receipt `Receipt #: 42 … Total: $3.00` gives number `42`, vendor `X`, total `3.00`, items `widget x2` and no date |
| Attachments.IsPdfName | receipt_automation.py:46 | the case-sensitive `.pdf` test; `Attachments.KindOf` states that it selects the PDF path and `Attachments.DispatchByCase` that `scan.PDF` fails it |
| Attachments.IsImageName | receipt_automation.py:48 | the case-insensitive image test; `Attachments.ImageNameIgnoresCase` states that it ignores case and `Attachments.KindOf` that it selects the image path |
| Attachments.FetchAccepts | receipt_automation.py:35-36 | the fetch filter; `Attachments.FetchedAreDispatchable` states that it accepts a name exactly when the name has a text path |
| Attachments.Message | receipt_automation.py:51 | the text `str(e)` of a failure; `Batch.LineTellsOutcome` states how it appears in the printed line |
| Attachments.KindOf | receipt_automation.py:46-51 | the PDF path iff the name ends in `.pdf` (case-sensitive); the image path iff not, and the lowered name ends in `.png`, `.jpg` or `.jpeg`; otherwise "Unsupported file type" naming the file |
| Attachments.ProcessAttachment | receipt_automation.py:45-51 | an unsupported name fails before any text is read; otherwise the chosen producer's text is extracted, or its error is the failure |
| Attachments.FetchedAreDispatchable | receipt_automation.py:36 | a name passes the fetch filter exactly when it has a text path |
| Attachments.ImageNameIgnoresCase | receipt_automation.py:48 | the image test gives the same answer for a name and its lowered form |
| Attachments.DispatchByCase | receipt_automation.py:46-51 | `scan.pdf` is a PDF and `scan.JPG` an image, while `scan.PDF` is unsupported and is not fetched |
| FormPayload.Render | receipt_automation.py:93 | `str(value)` of a field; `FormPayload.PayloadRoundTrip` states that text other than `"None"` reads back, and `FormPayload.NoneTextIsAmbiguous` that `"None"` does not |
| FormPayload.FieldValues | receipt_automation.py:94 | a record has five values |
| FormPayload.FormBody | receipt_automation.py:91-96 | one response per field value, each holding the single answer `str(value)` |
| FormPayload.PayloadRoundTrip | receipt_automation.py:91-96 | the body lists date, receipt number, vendor, total and items in that order, and a record with no `"None"` text can be read back from it |
| FormPayload.NoneTextIsAmbiguous | receipt_automation.py:93 | an absent vendor and the vendor text `"None"` give the same body |
| FormPayload.ExtractedShapesReadBack | receipt_automation.py:93 | the date, receipt-number and total answers of an extracted record always read back |
| Batch.Turns | receipt_automation.py:135-137 | one turn per attachment, in order, each holding the file name and what `process_attachment` gives for it |
| Batch.ItemOutcome | receipt_automation.py:136-142 | an attachment's outcome carries its file name |
| Batch.Outcomes | receipt_automation.py:135-142 | the outcomes of the first `n` turns are `n` entries |
| Batch.Line | receipt_automation.py:140-142 | the printed line of an outcome; `Batch.LineTellsOutcome` states that it tells success from failure and names the attachment |
| Batch.ItemEffects | receipt_automation.py:137-139 | the calls one turn makes; `Batch.ItemEffectsConcern`, `Batch.SubmittedIffRecord` and `Batch.NotifyOnlyAfterSubmit` state them |
| Batch.Effects | receipt_automation.py:135-139 | the calls of the first `n` turns in order; `Batch.EffectsGrow` and `Batch.IndicesBelow` state what it keeps |
| Batch.ProcessOne | receipt_automation.py:136-142 | one turn: extraction, then submission, then notification, stopping at the first failure, with the outcome and the calls made as `ItemOutcome` and `ItemEffects` say |
| Batch.ProcessBatch | receipt_automation.py:135-142 | one outcome per attachment, in input order, and the service calls of every turn in turn |
| Batch.BatchOutcomes | receipt_automation.py:135-142 | the `k`-th outcome is that of the `k`-th attachment, whatever the other attachments do |
| Batch.OutcomesInOrder | receipt_automation.py:135 | the `k`-th outcome is the outcome of the `k`-th turn |
| Batch.FailureIsolated | receipt_automation.py:136-142 | two batches that share the `k`-th turn give it the same outcome, whatever the others do |
| Batch.ProcessedIffAllStepsSucceed | receipt_automation.py:137-140 | `Processed` iff extraction, submission and notification all succeed |
| Batch.FetchedBatchHasNoUnsupported | receipt_automation.py:135-142 | a batch of fetched attachments never reports an unsupported file type |
| Batch.EffectsGrow | receipt_automation.py:135-139 | a call made in earlier turns stays in the record of calls when later turns run |
| Batch.NotifyOnlyAfterSubmit | receipt_automation.py:138-139 | each notification directly follows a successful submission of the same record in the same turn |
| Batch.SubmittedIffRecord | receipt_automation.py:137-138 | a turn makes a service call exactly when it yields a record, and then it submits that record's body |
| Batch.NoCallsForFailed | receipt_automation.py:137 | a turn that yields no record makes no call |
| Batch.IndicesBelow | receipt_automation.py:135-139 | the calls made in the first `n` turns concern only those turns |
| Batch.ItemEffectsConcern | receipt_automation.py:137-139 | the calls of a turn carry its position, and a turn without a record makes none |
| Batch.MiddleTurnFails | receipt_automation.py:135-142 | when the middle one of three turns fails, only its line is an error, and the first and third turns still submit |
| Batch.SecondUnreadable | receipt_automation.py:135-142 | if the second of three attachments cannot be read, only its line is an error, and the first and third are still submitted |
| Batch.LineTellsOutcome | receipt_automation.py:140-142 | the printed line starts with `Processed: ` exactly for a processed attachment, and it names the attachment |

## Left out

- Mailbox access in `fetch_emails`: IMAP login, search and fetch, message walking and MIME decoding (receipt_automation.py:13-42). These are network and library I/O. Only the file-name test of line 36 is modelled (`Attachments.FetchAccepts`).
- PDF text decoding and OCR (receipt_automation.py:53-63). These are foreign libraries, modelled as functions from bytes that return text or fail.
- Google credentials, the Forms API call, and the SMTP session with its TLS and login (receipt_automation.py:88-89, 98, 101-123). These are network clients, and only their success or failure reaches the loop. The notification mail text (receipt_automation.py:107-116) is therefore not modelled.
- The hard-coded addresses, passwords and form id in `main` (receipt_automation.py:127-133). The `print` calls are represented by the outcome sequence and `Batch.Line`.
- Rejecting records whose fields are all absent. The source submits every extracted record (receipt_automation.py:137-138), and the model does the same.
- Python's Unicode meaning of `\s`, `\d`, `str.lower` and `str.strip`. Only ASCII characters are treated as whitespace, digits and upper-case letters. Non-ASCII whitespace such as `\x85` and `\xa0`, non-ASCII digits and non-ASCII case mappings are not modelled.
- Batch.ProcessBatch: the services are modelled as functions of the attachment's position and its request. A service whose answer depends on earlier calls in some other way (a rate limit, a session that expires) is modelled only through that position.
- Exceptions that are not an `Exception`. The `except Exception` of receipt_automation.py:141 does not catch a `BaseException` such as `KeyboardInterrupt` or `SystemExit`, which would end the loop. The model treats every failure of a turn as caught.
- Whether the text producers can succeed. Lines 54 and 61 of receipt_automation.py pass the raw attachment bytes to `PyPDF2.PdfReader` and `Image.open`, which expect a file or a file-like object. Those libraries are not part of this model, so whether these calls succeed is not decided here. The producers are parameters, and scenarios in which an attachment is read (such as `Batch.SecondUnreadable`) hold for producers that succeed, which the program may never supply.
