# Payments hub: a Dafny model

This project models the parts of the payments hub whose correctness is hardest to see from the code:
the CNAB 240 printer and parser, the orchestration of payments and runs over a shared database, and
the rule arithmetic. Every property below is proved by the Dafny verifier; `dafny verify
dfyconfig.toml` checks the whole project.

**CNAB 240.** `CnabFields`, `CnabEncoder`, `CnabLayout`, `CnabDecoder`, `CnabReturn` and `CnabRoundTrip`
follow `internal/adapters/banks/itau/cnab`. The encoder is an object with a buffer; the parser is a loop
over lines. `CnabRoundTrip.FileRoundTrip` covers every sequence of encoder calls and says exactly which
files the parser accepts and what it returns; `CnabReturn` says what any line of a bank gives;
`CnabLayout` reads every column of every record, the constant ones included.

**Orchestration.** `Hub` describes the tables and gives one function per step: intake, prevalidation
worker, attach, detach, auto-group, approve, hold, unhold, cancel, reject, reschedule, submit to bank,
PIX submission worker, webhook, reconciliation sweep, expiry of idempotency records. `Services` holds
the same steps as classes that update a database object write by write, each method proved equal to its
step. A bank call may get lost before or after the bank has booked it, and the worker may stop at that
point or run again later; the bank deduplicates on the idempotency key.

`HubWrites` shows every step to be a sequence of single writes, each made under a condition: a checked
write looked at what it changes, while the two workers make blind ones. The laws are then proved write by
write, over every interleaving of steps and every retry.

- `HubCore`: what no step can break, jobs that run again after they are done included. From it `HubLaws`
  draws run totals, one debit per payment of its amount, a debit for every delivered payment, one payment
  per key, one intake event, and a user's approval before any event into SUBMITTING.
- `HubTrail`, `HubLaws`, `HubLinks`: what the blind writes can break, each with the exact condition: the
  agreement of a payment's trail with its status (`TrailIff`), the approval of the payments of locked runs
  (`LockedPaymentsApproved`), no debit before submission (`NoEarlyDebit`), and trails that stay on the
  lifecycle table (`TrailsOnTableIff`). `StepIff` and `InvThroughoutIff` put the first three together, and
  `PrevalidateSafeIff` and `SubmitPixSafeIff` say which stored statuses make a job safe whatever it will
  be answered.
- `HubOutcomes`: what each single step stores and logs and why it is refused, spelt out field by field.
- `HubExact`, `HubHistory`, `BankNotices`: exact outcomes of the steps that touch many payments, what
  happens once, can be undone or tried again, and webhooks with sweeps.

`Attainable` means reached by any steps from an empty hub, `Traced` by steps that are due for a payment.

**Rules.** `PaymentStatus`, `RunStatus`, `CheckDigits`, `BatchRules`, `PreAnalysis`, `WindowLimit`,
`RetryLoop` and `Money`, with int64 wrap-around written out (`MachineInts`) and decimal text in
`Decimal`.

## Where the code and its documentation differ

The model follows the code.

- `internal/adapters/queue/jobs.go:217-222` can move a payment from SUBMITTING to SETTLED, which the
  table in `internal/domain/payment/status.go:88-92` does not list. `HubLinks.TrailsOnTableIff` says
  exactly when a trail leaves the table.
- `internal/app/preanalysis.go:34-35` announces the most restrictive verdict; the code returns the
  first rule that hits. `PreAnalysis.MostRestrictiveIff` says exactly when the two coincide.
- `internal/adapters/http/handlers/webhooks.go:45` announces that a repeated event id is a no-op;
  nothing records event ids. `BankNotices.RedeliveryNoOpIff` says when a repeated delivery is a no-op.
- `internal/adapters/queue/autorun.go:18-19` announces that a run is created if needed; the code creates
  one whenever anything is PREVALIDATED, also when nothing can be attached to it
  (`HubExact.GroupingAgainIsEmpty`).
- `db/migrations/00017_reschedule_and_batch_execution.sql` expects a rescheduled payment to go back to
  RECEIVED; the code writes PREVALIDATED (`HubHistory.RescheduleExact`).
- `internal/adapters/banks/itau/cnab/decoder.go:43-48` does not count Segment B lines in `TotalLines`.
- The daily total of `internal/app/preanalysis.go:139-143` already contains the evaluated payment, which
  is then added a second time (`WindowLimit.ReadAgreesIff`).
- `internal/domain/payment/rules.go:180-181` reads `p.ID` while it reports that `p` is nil
  (`BatchRules.CrashIff`).

## Model

| member | source | states |
|---|---|---|
| CnabRoundTrip.FileRoundTrip | internal/adapters/banks/itau/cnab/decoder.go:31-62 | For every sequence of encoder calls: the parser accepts the file if and only if no written record has a line feed in a field that is copied verbatim; it then returns the last header, exactly the Segment A rows in order, and the number of lines other than Segment B |
| CnabRoundTrip.WriteAndDecode | internal/adapters/banks/itau/cnab/decoder.go:31-62 | An encoder object that is given any records, and the parser run on its bytes: the length of the file, when the parser accepts it, and exactly what it returns |
| CnabRoundTrip.RowOfSegmentA | internal/adapters/banks/itau/cnab/decoder.go:49-56 | A written Segment A line reads back as batch mod 10^4, sequence mod 10^5, amount mod 10^15, and the reference normalised, cut to 20 and trimmed |
| CnabRoundTrip.RowKeepsReference | internal/adapters/banks/itau/cnab/decoder.go:52-53 | A clean reference of at most 20 bytes and an amount below 10^15 come back unchanged |
| CnabRoundTrip.AfterSummary | internal/adapters/banks/itau/cnab/decoder.go:32-61 | The parser's running state over a file is its last header, its Segment A rows and its count |
| CnabRoundTrip.BrokenRecordFails | internal/adapters/banks/itau/cnab/decoder.go:38-40 | A record with a line feed in a verbatim field makes the parser stop with a width error wherever it stands |
| CnabRoundTrip.LineFeedInServiceBreaksFile | internal/adapters/banks/itau/cnab/encoder.go:71-72 | A concrete batch header that is written without error and makes the file unreadable |
| CnabEncoder.FitsIff | internal/adapters/banks/itau/cnab/encoder.go:24-31 | A call succeeds if and only if the fields copied without padding have their joint width; every padded field always fits |
| CnabEncoder.FileLength | internal/adapters/banks/itau/cnab/encoder.go:24-31 | The file holds 242 bytes per successful call and none for a failed one |
| CnabEncoder.FileOfAppend | internal/adapters/banks/itau/cnab/encoder.go:28-29 | One more call appends exactly its own record to the file of the calls before |
| CnabEncoder.Encoder.constructor | internal/adapters/banks/itau/cnab/encoder.go:16-18 | A new encoder holds the file of no calls |
| CnabEncoder.Encoder.Bytes | internal/adapters/banks/itau/cnab/encoder.go:21 | The bytes are the file of all calls made so far |
| CnabEncoder.Encoder.WriteLine | internal/adapters/banks/itau/cnab/encoder.go:24-31 | Succeeds exactly for a line of 240 bytes and appends it with CRLF; otherwise leaves the buffer alone |
| CnabEncoder.Encoder.WriteFileHeader | internal/adapters/banks/itau/cnab/encoder.go:34-61 | Succeeds exactly when the file header record fits, appends it then and nothing otherwise; the buffer stays the file of the calls |
| CnabEncoder.Encoder.WriteBatchHeader | internal/adapters/banks/itau/cnab/encoder.go:64-95 | Succeeds exactly when the batch header record fits, appends it then and nothing otherwise; the buffer stays the file of the calls |
| CnabEncoder.Encoder.WriteSegmentA | internal/adapters/banks/itau/cnab/encoder.go:98-129 | Succeeds exactly when the Segment A record fits, appends it then and nothing otherwise; the buffer stays the file of the calls |
| CnabEncoder.Encoder.WriteSegmentB | internal/adapters/banks/itau/cnab/encoder.go:132-159 | Succeeds exactly when the Segment B record fits, appends it then and nothing otherwise; the buffer stays the file of the calls |
| CnabEncoder.Encoder.WriteBatchTrailer | internal/adapters/banks/itau/cnab/encoder.go:162-175 | Succeeds exactly when the batch trailer record fits, appends it then and nothing otherwise; the buffer stays the file of the calls |
| CnabEncoder.Encoder.WriteFileTrailer | internal/adapters/banks/itau/cnab/encoder.go:178-189 | Succeeds exactly when the file trailer record fits, appends it then and nothing otherwise; the buffer stays the file of the calls |
| CnabEncoder.SegmentALayout | internal/adapters/banks/itau/cnab/encoder.go:99-127 | The columns the parser reads hold the record type, the segment, the padded numbers, the reference and the reserved blanks |
| CnabEncoder.RecordMarks | internal/adapters/banks/itau/cnab/encoder.go:34-189 | Column 8 of each record holds its type and column 14 of a detail record its segment |
| CnabEncoder.BankNameField | internal/adapters/banks/itau/cnab/encoder.go:49 | The bank name column is the name followed by blanks |
| CnabLayout.FileHeaderReads | internal/adapters/banks/itau/cnab/encoder.go:34-61 | Each field of a written file header reads back from its columns: numbers and digits modulo their width, text normalised, cut and trimmed |
| CnabLayout.BatchHeaderReads | internal/adapters/banks/itau/cnab/encoder.go:64-95 | The same for the batch header, service and form being copied as they are |
| CnabLayout.SegmentAPayeeReads | internal/adapters/banks/itau/cnab/encoder.go:107-114 | The same for the payee and the date of Segment A |
| CnabLayout.SegmentBReads | internal/adapters/banks/itau/cnab/encoder.go:132-159 | The same for Segment B |
| CnabLayout.BatchTrailerReads | internal/adapters/banks/itau/cnab/encoder.go:162-175 | Batch number, record count and total read back modulo 10^4, 10^6 and 10^18 |
| CnabLayout.FileTrailerReads | internal/adapters/banks/itau/cnab/encoder.go:178-189 | Batch and record counts read back modulo 10^6 |
| CnabLayout.FileHeaderFixed | internal/adapters/banks/itau/cnab/encoder.go:35-59 | The constant columns of a file header: bank code, record type, version, density, bank name, blanks |
| CnabLayout.BatchHeaderFixed | internal/adapters/banks/itau/cnab/encoder.go:66-93 | The constant columns of a batch header |
| CnabLayout.SegmentAFixed | internal/adapters/banks/itau/cnab/encoder.go:99-127 | The constant columns of Segment A: movement, currency, quantity, blanks |
| CnabLayout.SegmentBFixed | internal/adapters/banks/itau/cnab/encoder.go:133-157 | The constant columns of Segment B |
| CnabLayout.BatchTrailerFixed | internal/adapters/banks/itau/cnab/encoder.go:163-173 | The constant columns of a batch trailer |
| CnabLayout.FileTrailerFixed | internal/adapters/banks/itau/cnab/encoder.go:179-187 | The constant columns of a file trailer |
| CnabLayout.PadLeftNumStrValue | internal/adapters/banks/itau/cnab/fields.go:32-38 | A padded digit text spells the digits of the text modulo 10^width |
| CnabDecoder.Decode | internal/adapters/banks/itau/cnab/decoder.go:31-62 | The parser's loop computes the line-by-line specification, width errors included |
| CnabDecoder.PiecesLine | internal/adapters/banks/itau/cnab/decoder.go:33 | A line without line feeds that ends in CRLF is recovered exactly, carriage returns inside it included |
| CnabDecoder.FirstPiece | internal/adapters/banks/itau/cnab/decoder.go:33 | Before a line feed, the first piece is the text up to it less one carriage return |
| CnabReturn.DecodeLine | internal/adapters/banks/itau/cnab/decoder.go:34-60 | Any line of 240 bytes alone: a Segment A line gives one row whose numbers are the digits of its columns and whose texts are its columns without white space at the ends; a file header is kept without trailing blanks; other detail lines are skipped; all lines but these are counted |
| CnabReturn.OccurrenceCodesRead | internal/adapters/banks/itau/cnab/decoder.go:55 | Codes followed by blanks in the last ten columns of a Segment A line come back as they are |
| CnabReturn.WrongWidthFails | internal/adapters/banks/itau/cnab/decoder.go:35-40 | An empty line is skipped, a line of any other width but 240 is the error that names its width |
| CnabReturn.DecodeNext | internal/adapters/banks/itau/cnab/decoder.go:32-61 | A line in front of any file adds what it gives alone, in front; the last file header stays; the first error counts |
| CnabReturn.BareLineFeed | internal/adapters/banks/itau/cnab/decoder.go:33 | A line that ends in a line feed alone is read as one that ends in CRLF |
| CnabReturn.LastLineUnterminated | internal/adapters/banks/itau/cnab/decoder.go:33-37 | The last line needs no line end |
| CnabFields.PadLeftNumValue | internal/adapters/banks/itau/cnab/fields.go:23-29 | For every integer and width the field spells the magnitude modulo 10^width |
| CnabFields.NumFieldRoundTrip | internal/adapters/banks/itau/cnab/fields.go:58-70 | Wherever a numeric field of width up to 18 stands, reading it gives the magnitude modulo 10^width |
| CnabFields.NumAtBounded | internal/adapters/banks/itau/cnab/fields.go:58-70 | Reading any 18 bytes or fewer cannot overflow int64 and stays below 10^width |
| CnabFields.ReadNum | internal/adapters/banks/itau/cnab/fields.go:58-70 | The trimming and accumulating loop computes the number spelt by the digits of the slice, wrapped to int64 |
| CnabFields.AlphaFieldRoundTrip | internal/adapters/banks/itau/cnab/fields.go:43-49 | A text field reads back as its normalised text, cut to the width and trimmed |
| CnabFields.NormalizedFixesClean | internal/adapters/banks/itau/cnab/fields.go:90-116 | Normalisation leaves a text alone if and only if it is printable ASCII without lower-case letters |
| CnabFields.NormalizeAlpha | internal/adapters/banks/itau/cnab/fields.go:90-116 | The loop computes the normalised text, which is clean |
| CnabFields.FoldedLetters | internal/adapters/banks/itau/cnab/fields.go:90-116 | Which plain letter each accented letter becomes |
| CnabFields.FoldedAscii | internal/adapters/banks/itau/cnab/fields.go:90-116 | Small letters become capitals, other printable ASCII stays, control characters go |
| CnabFields.NormalizedConcat | internal/adapters/banks/itau/cnab/fields.go:90-116 | A text is normalised piece by piece, in order |
| CnabFields.TextFieldExact | internal/adapters/banks/itau/cnab/fields.go:43-49 | A text field holds the normalised text from its first column on, then blanks |
| CnabFields.NumFieldExact | internal/adapters/banks/itau/cnab/fields.go:23-29 | A numeric field is the last columns of zeros and the decimal text, all digits when the number is not negative |
| CnabFields.DigitFieldExact | internal/adapters/banks/itau/cnab/fields.go:32-38 | The same for the digits of a text |
| CnabFields.TrimSpaceExact | internal/adapters/banks/itau/cnab/fields.go:58-59 | Trimming takes exactly the white space off at both ends |
| CnabFields.StripNonDigits | internal/adapters/banks/itau/cnab/fields.go:78-86 | The loop computes the digits of the text in order |
| HubLaws.StepIff | internal/adapters/queue/jobs.go:54-236 | From a state that satisfies the whole invariant, a step leads to one that does if and only if it is due; only the two unguarded workers can be undue |
| HubLaws.InvThroughoutIff | internal/app/runs.go:56-325 | The whole invariant holds at every point of a run from an empty hub if and only if all its steps are due |
| HubCore.StepCore | internal/adapters/queue/jobs.go:54-236 | No step breaks the core, due or not |
| HubCore.AttainableCore | internal/app/runs.go:56-325 | Every state reachable through any steps satisfies the core |
| HubWrites.CheckedWrites | internal/app/runs.go:56-325 | Every step but those of the two workers is a sequence of writes, each made under the condition that was checked for it |
| HubWrites.PrevalidateWrites | internal/adapters/queue/jobs.go:65-148 | The prevalidation worker writes RECEIVED to VALIDATED_LOCAL if that is the status, and then its verdict whatever the status is |
| HubWrites.SubmitPixWrites | internal/adapters/queue/jobs.go:190-231 | The submission worker writes APPROVED to SUBMITTING if that is the status, the bank books a new key, and a usable answer is written whatever the status is |
| HubCore.WriteCore | internal/app/runs.go:125-135 | No single write, checked or blind, breaks the core |
| HubLaws.RunTotals | internal/app/runs.go:97-162 | After any steps, due or not, the counters of an APPROVED, EXECUTING or PARTIALLY_SETTLED run are the count, sum and per-channel counts over the payments attached now |
| HubLaws.LockedPaymentsApproved | internal/app/runs.go:114-144 | At every point of a run the payments of approved runs have been approved and at most been canceled since, if and only if no prevalidation writes a verdict to one of them |
| HubLaws.StepLockedIff | internal/adapters/queue/jobs.go:92-148 | One step keeps this if and only if it is no such verdict |
| HubTrail.StepTrail | internal/adapters/queue/jobs.go:54-236 | A step keeps the trail of a payment if it is due for it, and otherwise breaks it for good |
| HubTrail.TrailIff | internal/adapters/queue/jobs.go:54-236 | After any steps the trail of a payment is intact if and only if every verdict on it found it RECEIVED or VALIDATED_LOCAL and every usable answer APPROVED or SUBMITTING |
| HubTrail.LogIff | internal/adapters/queue/jobs.go:54-236 | All trails are intact if and only if this holds for every payment |
| HubTrail.TrailAgreesWithStatus | internal/app/runs.go:241-248 | If the steps were due for a payment, its events form one chain from RECEIVED over permitted links, and it ends in the stored status |
| HubLaws.OneIntakeEvent | internal/app/receive_payment.go:136-144 | After any steps each stored payment has exactly one event without origin, its first, into RECEIVED |
| HubLaws.ApprovedBeforeBank | internal/adapters/queue/jobs.go:190-202 | After any steps, before any event into SUBMITTING lies a user's approval of that payment with no event into PREVALIDATED in between |
| HubTrail.ApprovedBeforeDelivery | internal/adapters/queue/jobs.go:217-231 | If the steps were due for the payment, a user's approval still in force lies before any event into ON_HOLD, SENT, SETTLED or FAILED, and is or precedes any event into APPROVED |
| HubLaws.DebitedOnce | internal/adapters/queue/jobs.go:204-224 | After any steps, whatever calls are lost and however often the job runs again, a payment has at most one debit, of its amount |
| HubLaws.DeliveredIsDebited | internal/adapters/queue/jobs.go:204-224 | After any steps a SENT, SETTLED or FAILED payment has its debit |
| HubLaws.NoStrayDebit | internal/adapters/queue/jobs.go:204-224 | After any steps every debit belongs to exactly one stored payment, of that key and amount |
| HubLaws.NoEarlyDebit | internal/adapters/queue/jobs.go:190-215 | At every point of a run no payment has a debit before it was submitted, if and only if no verdict is written to a debited payment and no lost call reaches the bank for one that was not waiting to be sent |
| HubLaws.StepDebitsIff | internal/adapters/queue/jobs.go:190-215 | One step keeps this if and only if it is due in this respect |
| HubLaws.DueIff | internal/adapters/queue/jobs.go:54-236 | Being due is being due for every trail, for the locked runs and for the debits |
| HubLaws.IntakeAnswersOwner | internal/app/receive_payment.go:84-166 | After any steps: exactly which requests succeed; a success answers with the only owner of the key; a refusal changes no table; a recorded key always has its payment |
| HubLaws.SameKeySamePayment | internal/app/receive_payment.go:97-113 | Two successful calls with one key answer with one payment, whatever steps lie between them |
| HubLaws.RepeatAfterExpiryRefused | internal/app/receive_payment.go:132-134 | After its record has expired the same request is refused as a duplicate row |
| HubOutcomes.IntakeStores | internal/app/receive_payment.go:116-166 | A new request stores its own type, amount, payee method and key as RECEIVED without bank reference, as the newest payment, with one event of the caller and its hash; nothing else changes |
| HubOutcomes.IntakeOutcome | internal/app/receive_payment.go:85-113 | Which requests succeed and which error the others get; only a new request changes anything |
| HubOutcomes.ExpireExact | internal/app/receive_payment.go:154-161 | An expired record takes nothing else with it |
| HubOutcomes.PrevalidationVerdict | internal/adapters/queue/jobs.go:65-148 | One attempt on a payment in any status: which answers of directory and rules lead to which verdict or retry, and the whole database afterwards |
| HubOutcomes.WorkerOutcome | internal/adapters/queue/jobs.go:185-215 | A missing payment is reported; a submission is done if and only if the bank gave a usable answer |
| HubOutcomes.CreateRunExact | internal/app/runs.go:46-52 | A new run is open with all counters zero |
| HubOutcomes.AttachExact | internal/app/runs.go:56-80 | Attaching succeeds if and only if the run is OPEN and the payment PREVALIDATED and attached nowhere; TED goes to the CNAB channel, all else to PIX |
| HubOutcomes.DetachExact | internal/app/runs.go:83-92 | Detaching succeeds if and only if the run is OPEN, and takes the payment out of that run only |
| HubOutcomes.HoldExact | internal/app/runs.go:165-172 | Holding moves APPROVED to ON_HOLD, releasing moves it back, with one event of the user; anything else is refused |
| HubOutcomes.CancelExact | internal/app/runs.go:175-216 | From which statuses a payment is canceled or rejected, and the whole database afterwards |
| HubOutcomes.SubmitToBankExact | internal/adapters/http/handlers/runs.go:354-373 | Submission succeeds if and only if the run is APPROVED; it then executes and each attached payment gets one self link of the user, in order |
| HubOutcomes.ItemIdsAscending | queries/payment_runs.sql:42-43 | The list of a run is complete and ascending |
| HubOutcomes.ListIsNewest | queries/payments.sql:28-32 | A list by status leaves a payment out only when it is full of newer ones |
| HubOutcomes.SelectedInOrder | queries/payments.sql:28-32 | A list by status is newest first |
| HubOutcomes.AmountSumConcat | internal/domain/money/money.go:15-16 | The sum of a list is the sum of its parts |
| HubOutcomes.AmountSumOne | internal/domain/money/money.go:15-16 | The sum of one payment is its amount |
| HubOutcomes.WebhookExact | internal/adapters/http/handlers/webhooks.go:75-135 | The first listed sent payment with the reference becomes SETTLED for FINALIZADO, APROVADO, SETTLED and LIQUIDADO, FAILED for REJEITADO, FALHOU and FAILED, with one event of the bank; any other text changes nothing |
| HubOutcomes.WebhookUnknown | internal/adapters/http/handlers/webhooks.go:54-88 | A missing or unknown reference changes nothing |
| HubCore.StepLater | internal/app/runs.go:218-249 | No step removes a payment or changes its key, amount or type, rewrites the log, or takes a run back |
| HubLaws.PrevalidateSafeIff | internal/adapters/queue/jobs.go:54-152 | An attempt keeps the invariant under all replies if and only if the payment is missing, RECEIVED or VALIDATED_LOCAL |
| HubLaws.SubmitPixSafeIff | internal/adapters/queue/jobs.go:179-236 | An attempt keeps the invariant whatever becomes of the bank call if and only if the payment is missing, APPROVED or SUBMITTING |
| HubLinks.SubmitPixRegularIff | internal/adapters/queue/jobs.go:217-231 | An attempt on any stored payment adds only links of the table if and only if the bank does not answer it as settled; otherwise the last one is SUBMITTING to SETTLED |
| HubLinks.StepRegularIff | internal/domain/payment/status.go:55-113 | Any step adds only table edges, reschedules and self links if and only if it is not a submission answered as settled |
| HubLinks.TrailsOnTableIff | internal/domain/payment/status.go:55-113 | Over any sequence of steps, all links of all trails are such links if and only if no submission was answered as settled |
| HubLists.BankBooks | internal/adapters/banks/itau/rest/pix.go:30-48 | A request books one debit unless it never arrives or its key is known; an answer without reference is an error |
| HubExact.ApproveItemsExact | internal/app/runs.go:114-144 | The loop approves the longest approvable prefix, each payment once with one user event in order, and succeeds if and only if the ids are distinct existing PREVALIDATED payments |
| HubExact.ApproveExact | internal/app/runs.go:97-162 | Approval succeeds if and only if the run is OPEN and all its payments are PREVALIDATED; the whole resulting database, in both cases |
| HubExact.ApprovedTotals | internal/app/runs.go:138-150 | Items equal PIX plus TED and the number of payments if and only if that number fits 32 bits; the total is the true sum if and only if it fits int64 |
| HubExact.RetryOfPartialApprovalFails | internal/app/runs.go:119-121 | After an approval that stopped halfway, approving again fails and changes nothing |
| HubExact.AutoGroupExact | internal/adapters/queue/autorun.go:39-76 | The newest 1000 PREVALIDATED payments end attached; the new run holds exactly those of them attached nowhere before, on the channel of their type; nothing else changes; a run is created whenever anything is PREVALIDATED |
| HubExact.AutoGroupLeavesNone | internal/adapters/queue/autorun.go:40-68 | With at most 1000 PREVALIDATED payments none is left unattached |
| HubExact.GroupingAgainIsEmpty | internal/adapters/queue/autorun.go:49-68 | Grouping again only adds an empty run, however many older payments are still unattached |
| HubExact.AttachAllExact | internal/adapters/queue/autorun.go:55-68 | The loop attaches the unattached and leaves the others in their runs |
| HubTrail.TerminalForever | internal/domain/payment/status.go:42-48 | A SETTLED, REJECTED, CANCELED or EXPIRED payment keeps its status through all steps that are due for it, whatever happens to others |
| HubCore.PlayLater | internal/app/runs.go:128-135 | The same over any sequence of steps, due or not |
| HubHistory.SubmittedOnce | internal/adapters/http/handlers/runs.go:347-365 | After a run was submitted, every later submission is refused whatever happened in between |
| HubHistory.ApprovedOnce | internal/app/runs.go:102-104 | After a run was approved, every later approval is refused whatever happened in between |
| HubHistory.PrevalidationResumes | internal/adapters/queue/jobs.go:88-111 | An attempt that failed leaves nothing the next attempt would not have done |
| HubHistory.FailedAttemptsLeaveNoTrace | internal/adapters/queue/jobs.go:191-215 | However many submissions fail first, the answered one leaves the tables as if it were the only one |
| HubHistory.DetachUndoesAttach | internal/app/runs.go:56-92 | Detaching after a successful attach restores every table |
| HubHistory.UnholdUndoesHold | internal/app/runs.go:165-172 | Releasing a hold restores every table but the log |
| HubHistory.RescheduleExact | internal/app/runs.go:255-325 | Exactly when rescheduling succeeds, and the whole database afterwards: PREVALIDATED, detached, one event |
| AuditLog.AcceptedChain | internal/app/runs.go:128-135 | A trail accepted by the replay automaton is a chain of permitted links |
| AuditLog.AcceptedApproval | internal/app/runs.go:128-135 | In an accepted trail an approval still in force precedes every event into a status that needs one |
| AuditLog.LastEvent | internal/app/runs.go:241-248 | An accepted trail stands at the destination of its last event |
| BankNotices.NoticesAgree | internal/adapters/http/handlers/webhooks.go:66-135 | Under any order and duplication of consistent deliveries and sweeps, a sent payment ends SENT with no event or at its verdict with one; others are untouched |
| BankNotices.SweepExact | internal/adapters/queue/reconcile.go:44-107 | A sweep applies the poll to each of the newest 500 sent payments and to nothing else |
| BankNotices.SweepLogs | internal/adapters/queue/reconcile.go:91-98 | A sweep logs one event of the system for each payment it moves, in list order |
| BankNotices.SweepReachesBank | internal/adapters/queue/reconcile.go:56-89 | Each of these that is an answered PIX payment with a reference gets the polled status |
| BankNotices.SweepTwiceIff | internal/adapters/queue/reconcile.go:44-107 | A second sweep with the same answers changes nothing if and only if it moves none of the payments that move up into the list; with at most 500 sent there are none |
| BankNotices.RedeliveryNoOpIff | internal/adapters/http/handlers/webhooks.go:75-115 | Repeating a delivery is a no-op if and only if it says nothing final or at most one of the newest 1001 sent payments carries its reference |
| BankNotices.DeliveryNoOpIff | internal/adapters/http/handlers/webhooks.go:66-115 | At any time a delivery does nothing if and only if it says nothing final or none of the newest 1000 sent payments carries its reference |
| BankNotices.LateRedeliveryNoOp | internal/adapters/http/handlers/webhooks.go:44-115 | With unique references a delivery that moved its payment has no effect when repeated later, after any other deliveries and sweeps |
| Services.Database.GetByKey | internal/app/receive_payment.go:103 | Finds the payment with a key |
| Services.Database.AddPayment | db/migrations/00005_payments.sql:3-27 | Inserts unless the id or the key is taken |
| Services.Database.UpdateStatus | queries/payments.sql:21-25 | Writes the status and keeps the bank reference when none is given |
| Services.Database.AddItem | db/migrations/00007_payment_runs.sql:23-31 | Attaches a payment to one run at most |
| Services.Database.RemoveItem | queries/payment_runs.sql:40 | Removes the item of that run and payment only |
| Services.ReceivePayment.Execute | internal/app/receive_payment.go:84-166 | The whole new database, outcome and answer of an intake call |
| Services.PrevalidatePaymentWorker.Work | internal/adapters/queue/jobs.go:54-152 | The whole new database and outcome of one attempt |
| Services.BankGateway.SendPix | internal/adapters/banks/itau/rest/pix.go:30-48 | The search of the book by key, the booking and the answer perform one request at the bank |
| Services.SubmitPixWorker.Work | internal/adapters/queue/jobs.go:179-236 | The whole new database, the bank's book and the outcome of one attempt |
| Services.ReconcilePixWorker.Work | internal/adapters/queue/reconcile.go:44-107 | The loop over the listed payments performs the sweep |
| Services.AutoGroupRunWorker.Work | internal/adapters/queue/autorun.go:39-76 | The loop performs the grouping and counts the attached |
| Services.WebhookHandler.HandleItau | internal/adapters/http/handlers/webhooks.go:46-140 | The search loop and the write perform the delivery |
| Services.RunService.Create | internal/app/runs.go:46-53 | Adds an open run without counters |
| Services.RunService.AttachPayment | internal/app/runs.go:56-80 | The whole new database and outcome |
| Services.RunService.DetachPayment | internal/app/runs.go:83-92 | The whole new database and outcome |
| Services.RunService.ApproveEach | internal/app/runs.go:111-144 | The loop performs the approvals, and on success total, PIX and TED counts are those of the list |
| Services.RunService.ApproveRun | internal/app/runs.go:97-162 | The whole new database and outcome |
| Services.RunService.HoldPayment | internal/app/runs.go:165-167 | The whole new database and outcome |
| Services.RunService.UnholdPayment | internal/app/runs.go:170-172 | The whole new database and outcome |
| Services.RunService.CancelPayment | internal/app/runs.go:175-194 | The whole new database and outcome |
| Services.RunService.RejectPayment | internal/app/runs.go:197-216 | The whole new database and outcome |
| Services.RunService.TransitionPayment | internal/app/runs.go:218-249 | The whole new database and outcome, for any list of required origins |
| Services.RunService.ReschedulePayment | internal/app/runs.go:255-325 | The whole new database and outcome |
| Services.RunsHandler.Submit | internal/adapters/http/handlers/runs.go:347-373 | The compare-and-set on the run and the audit rows, or nothing |
| PaymentStatus.TerminalIffNoWayOut | internal/domain/payment/status.go:42-103 | The statuses called terminal are exactly those with no outgoing edge |
| PaymentStatus.Origins | internal/domain/payment/status.go:55-113 | Where a payment in each status may come from |
| PaymentStatus.HistoryBound | internal/domain/payment/status.go:55-103 | A legal history with a review returns, b releases, c resubmissions and d retries has at most 6 + 2a + 2b + c + 3d transitions, and nothing follows a terminal status |
| PaymentStatus.BoundReached | internal/domain/payment/status.go:55-103 | For every a, b, c, d some legal history has exactly that many |
| RunStatus.Run.ApplyTransition | internal/domain/run/run.go:91-97 | Changes the status exactly when the table allows it |
| RunStatus.Origins | internal/domain/run/run.go:40-55 | Where a run in each status may come from |
| RunStatus.RunHistoryBound | internal/domain/run/run.go:40-55 | A run's history has at most four transitions, repeats no status and ends once closed or failed |
| PreAnalysis.MostRestrictiveIff | internal/app/preanalysis.go:34-78 | Whenever there is a verdict, it is the most restrictive one if and only if it is not the case that, without a blacklist entry, a limit hits and a duplicate rule rejects |
| PreAnalysis.EvaluateExact | internal/app/preanalysis.go:36-206 | The verdict and the rule it names, from the facts alone: which document, which limit against which total, in which order, and which lookup may fail |
| PreAnalysis.LimitHidesDuplicate | internal/app/preanalysis.go:49-75 | A concrete payment that should be rejected and is only reviewed |
| PreAnalysis.WindowPassesIff | internal/app/preanalysis.go:143 | A window check passes if and only if the sum is within the limit or beyond int64 |
| WindowLimit.StepIff | internal/app/preanalysis.go:131-173 | From a window within its limit, one step of intake, unlocked read, verdict write or cancellation leads to one within it if and only if it is due: an overflowing read or a revival must find room |
| WindowLimit.LimitHoldsIff | internal/app/preanalysis.go:131-173 | Over every interleaving, the admitted live payments are within the daily or monthly limit at every point if and only if every step is due |
| WindowLimit.LimitHolds | internal/app/preanalysis.go:131-173 | If no read of a live payment overflows and no admitted payment comes back from the dead, the admitted live payments of the day or month sum to at most the limit |
| WindowLimit.ReadAgreesIff | internal/app/preanalysis.go:139-143 | A read agrees with the limit on the total except exactly when the total is within it but not with the payment counted twice, or beyond it and the sum wraps |
| WindowLimit.AlonePassesIff | internal/app/preanalysis.go:139-143 | Alone in its window a payment passes if and only if twice its amount is within the limit or beyond int64 |
| WindowLimit.HugePaymentPasses | internal/app/preanalysis.go:143 | Every amount above half of MaxInt64 passes every smaller limit, because the sum wraps |
| WindowLimit.LateVerdictsBreakLimit | internal/adapters/queue/jobs.go:138-141 | Three payments canceled before their late verdicts come back to life beyond the limit |
| CheckDigits.ValidateCpf | internal/domain/payment/rules.go:266-285 | Accepted if and only if the digits are not all equal and each check digit completes the sum with weights 10 to 2, then 11 to 2, to a multiple of eleven, or is zero where ten would be needed |
| CheckDigits.ValidateCnpj | internal/domain/payment/rules.go:287-310 | The same with the two weight rows of the CNPJ |
| CheckDigits.ValidateDocumentNumber | internal/domain/payment/rules.go:254-264 | Formatting is ignored and the number of digits selects the check |
| CheckDigits.DocumentVerdictIff | internal/domain/payment/rules.go:254-264 | The verdict on any text from its digits: eleven are a CPF, fourteen a CNPJ, any other number is reported |
| Decimal.DigitsConcat | internal/domain/payment/rules.go:326-334 | The digits of a text are those of its parts, in order |
| CheckDigits.AllSameRune | internal/domain/payment/rules.go:336-347 | True exactly for a non-empty text of one repeated character |
| CheckDigits.CpfSingleError | internal/domain/payment/rules.go:266-285 | Two accepted CPFs that differ in one digit differ at index 0 by 1 or at index 5 by 2 or 9; every other single error is rejected |
| CheckDigits.CnpjSingleError | internal/domain/payment/rules.go:287-310 | Two accepted CNPJs that differ in one digit differ at index 0 or 8 by 2 or 9, or at index 4 by 5 or 6 |
| CheckDigits.CpfMissedIff | internal/domain/payment/rules.go:270-283 | For each of those exceptions, exactly for which sums of the original the error goes unnoticed |
| CheckDigits.CnpjMissedIff | internal/domain/payment/rules.go:291-308 | The same for CNPJ |
| CheckDigits.CpfPairUnique | internal/domain/payment/rules.go:266-285 | Each base of nine digits has exactly one pair of check digits that passes the loop |
| CheckDigits.CnpjPairUnique | internal/domain/payment/rules.go:287-310 | Each base of twelve digits has exactly one pair of check digits that passes the loop |
| BatchRules.AmountsPassIff | internal/domain/payment/rules.go:127-160 | For a payment that passes, exactly which other amounts would pass: one interval set by the minimum, the single cap and the night cap |
| BatchRules.DaysPassIff | internal/domain/payment/rules.go:107-149 | For a payment that passes, exactly which other dates would pass: the scheduling horizon, or none at all before the TED cutoff |
| BatchRules.ValidatePaymentExact | internal/domain/payment/rules.go:39-160 | The first thing that is wrong with a payment, from its data, in the order of the checks |
| BatchRules.PayeeShapeExact | internal/domain/payment/rules.go:68-105 | Which payees have the right shape, spelt out |
| BatchRules.ValidateBatch | internal/domain/payment/rules.go:170-191 | The loop with its int64 running total computes the item-by-item specification, error cases included |
| BatchRules.BatchClosedForm | internal/domain/payment/rules.go:170-191 | A batch is accepted if and only if it is non-empty, within the item cap, all items validate and no wrapped running total exceeds a limit |
| BatchRules.CrashIff | internal/domain/payment/rules.go:170-182 | Exactly when a missing item brings the validation down, and which one |
| BatchRules.BatchStopsAt | internal/domain/payment/rules.go:179-189 | The first item that is missing, not fine or over a limit decides what a batch is refused for |
| BatchRules.BatchSizeRefused | internal/domain/payment/rules.go:171-176 | An empty or too large batch is refused as such, before its items |
| BatchRules.MissingItemCrashes | internal/domain/payment/rules.go:180-181 | A batch of one missing item does so under all limits |
| BatchRules.AcceptedIff | internal/domain/payment/rules.go:170-191 | If no amount exceeds MaxInt64 minus the limit: accepted if and only if non-empty, within the cap, all valid, and the final true total within each limit |
| BatchRules.RefusalReportsTrueTotal | internal/domain/payment/rules.go:181-188 | Under the same guard the running total does not wrap in the refusing step either: the reported total is the true total of a prefix and exceeds that limit |
| BatchRules.AgreementIff | internal/domain/payment/rules.go:181-188 | Given payments that attain the limit and an amount M of at least the limit, all batches with amounts up to M are decided as by the simple rule if and only if M is at most MaxInt64 minus the limit, or a batch has one item only |
| BatchRules.GuardIsTight | internal/domain/payment/rules.go:181-188 | After an item at the limit, a second one gets through if and only if it breaks the guard |
| BatchRules.SubBatchAccepted | internal/domain/payment/rules.go:170-191 | Acceptance is independent of the order and inherited by every non-empty sub-batch |
| RetryLoop.DoWithRetry | internal/adapters/banks/bankcore/client.go:115-183 | The loop computes result, number of requests and waiting time of the attempt-by-attempt specification |
| RetryLoop.FirstDecisiveDecides | internal/adapters/banks/bankcore/client.go:133-178 | The first decisive attempt k among the first n decides the result if and only if the backoff can be doubled as often as attempt k needs, and nothing is sent after it; otherwise the loop panics |
| RetryLoop.LastErrorDecides | internal/adapters/banks/bankcore/client.go:160-182 | Without a decisive attempt the last retryable error is the result if and only if the backoff can be doubled as often as n attempts need, and n requests are sent; otherwise the loop panics |
| RetryLoop.ReplyDecides | internal/adapters/banks/bankcore/client.go:119-177 | After transient replies (none, 429, 5xx) a 2xx reply is the answer and any other a rejection, with k + 1 requests; giving up, a missing token or an invalid request end the loop with k |
| RetryLoop.TransientExhaust | internal/adapters/banks/bankcore/client.go:158-182 | When all replies are transient the error of the last one is the answer: unreachable, rate limited for 429, server error for 5xx |
| RetryLoop.RequestBounds | internal/adapters/banks/bankcore/client.go:118-182 | At most n requests are sent, and the fallback error is reached if and only if n is not positive |
| RetryLoop.NeverPanicsIff | internal/adapters/banks/bankcore/client.go:119-127 | Drawing the jitter cannot panic, whatever the bank does, if and only if there is at most one attempt, or the backoff is at least 2 and doubled n - 2 times still fits int64 |
| RetryLoop.WaitBounds | internal/adapters/banks/bankcore/client.go:119-127 | All ways to use up n attempts wait at least b(2^(n-1) - 1) and less than 1.5 times that if and only if b is at least 2 and the last backoff can carry its largest jitter in int64 |
| RetryLoop.LongestBackoffWaitsNothing | internal/adapters/banks/bankcore/client.go:120-122 | One retry after the longest backoff with the largest jitter does not wait at all |
| Money.ReadBackIff | internal/domain/money/money.go:31-50 | Reading the digits of the printed text back gives the amount if and only if it is not the smallest int64 |
| Money.TextShape | internal/domain/money/money.go:31-50 | The printed text part by part: sign and mark, the digits of the reais in order with their dots, a comma, two digits |
| Money.PrintInjective | internal/domain/money/money.go:31-50 | Different amounts are printed differently, the smallest included |
| Money.DotsEveryThree | internal/domain/money/money.go:52-65 | Dots stand exactly before every third digit from the right |
| Money.GroupedFromRight | internal/domain/money/money.go:52-65 | The left-to-right loop produces the groups of three counted from the right |
| Money.GroupThousands | internal/domain/money/money.go:52-65 | The loop, with its shortcut for short numbers, computes that text |
| Money.Print | internal/domain/money/money.go:31-50 | The builder computes the printed text |
| Money.SmallestText | internal/domain/money/money.go:32-36 | The smallest amount is printed with a minus sign in front of the reais and another in front of the cents |

## Left out

- HTTP routing, JSON, authentication, tenants, logging, metrics and configuration; request bodies arrive parsed.
- Text outside ASCII and the accented letters of the folding table; digits outside ASCII; byte length against rune length.
- Dates are day numbers or ready-made text without line breaks; time zones and daylight saving are not modelled.
- Regular expressions for e-mail, telephone and random PIX keys: their verdict is an input of `BatchRules`.
- Reasons, descriptions, external ids, snapshots and correlation ids of payments and events.
- Steps are atomic: races between the writes of one step and database failures in the middle of one are not modelled, except that a worker may stop between the bank's booking and its own status write.
- Payments created at the same instant: rows are listed in order of insertion, newest first.
- Token sources, the circuit breaker, SFTP and the REST adapters of the banks; the bank is a book that deduplicates on the idempotency key.
- The replies of the key directory and of the rules engine are inputs of the prevalidation worker; `PreAnalysis` and `WindowLimit` treat the engine on its own.
- The job that generates CNAB files is a stub in the repository; trailer counts come from the caller.
- Occurrence codes, role hierarchy, bank registry, the lifecycle of CNAB files: small finite tables.
- No code of the repository moves a run beyond EXECUTING; `Hub.AdvanceRun` stands for any later bookkeeping along the run table.
- WindowLimit.LimitHolds: states the usual case only; `WindowLimit.LimitHoldsIff` gives the exact condition, and `HugePaymentPasses` and `LateVerdictsBreakLimit` runs that fail it.
