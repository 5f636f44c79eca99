# Challan sender — a Dafny model

yarc is a PyQt5 desktop form, `ChallanSender` in `yarc.py`. It collects five
values from the user. It builds a traffic-violation notice ("challan") as
JSON and sends it in one HTTP POST to a live or a staging government
endpoint. A background `Worker` thread makes the request and the form shows
the result. This project models the form's decision logic as pure Dafny
functions:

- auto-capitalisation of the Location and District fields, including the
  re-entrant `textChanged` handler (`Capitalization`);
- the generated identifiers `REAMN…A…`, `DL4CQ…` and `GTFGF…`, described as
  layouts of literals and digit runs with a parser (`Identifiers`);
- the two time fields fixed when the widget starts (`Timestamps`), built on
  decimal rendering and zero padding (`Decimal`);
- endpoint selection (`Endpoints`);
- status-code categorisation and the status line (`Status`);
- the notice record, its JSON body and a strict decoder (`Payload`);
- the widget as a state machine over Qt events: edits, selector changes,
  button clicks and the worker's `response_received`, `error` and `finished`
  signals (`Sender`).

Randomness, the clock, the network and JSON pretty-printing are parameters.
A `Draw` carries the digits `random.choices` returned. A `Date` is the date
two days before start-up. A `NetResult` is what `requests.post` came to. A
`Response.pretty` is the indented body, or `None` when it is not JSON.

Three behaviours of the code are easy to misread, and the model follows the code in each:

- `set_auto_dates` runs once, in `__init__` (yarc.py:137), not on every
  submission. Every submission from one window therefore carries the same
  `voilationTime` and `actionTime`. `Sender.Init` fixes the clock and `Step`
  never changes it.
- `update_url` sends every index other than 0 to staging with offence id
  "9759", not only index 1.
- A code below 200 is labelled "Server Error". The if/elif chain has no
  other branch for it.

One more behaviour of the code matters for the send button.
`on_request_error` re-enables the button (yarc.py:635) before the worker's
`finished` arrives (yarc.py:131). A click in that window starts a second
worker while the first has not finished signalling.
`Sender.SecondPostBeforeFinished` states this. `Sender.Rounds` builds
event sequences in which each click comes after the previous worker's
`finished`. Only one request is out at a time in those sequences because of
that ordering, not because of anything the button enforces.
`Sender.SessionReEnables` proves, for them, that the button ends enabled and
that there is one post per round.

## Model

| member | source | states |
|---|---|---|
| Capitalization.Upper | yarc.py:443 | an ASCII lower-case letter becomes its upper-case letter; every other character is unchanged; the result is never lower-case |
| Capitalization.Capitalize | yarc.py:439-445 | empty text is unchanged; otherwise the first character is upper-cased, the length is kept and every character after index 0 is unchanged |
| Capitalization.CapitalizeIdempotent | yarc.py:443-445 | capitalising an already capitalised text gives the same text, so the write-back guard sees no change the second time |
| Capitalization.SettledIff | yarc.py:442-445 | the handler leaves a field alone exactly when it is empty or does not start with a lower-case letter |
| Capitalization.PendingAfterWrite | yarc.py:443-445 | writing the capitalised text into a field that needed it lowers the count of fields needing a write by exactly one |
| Capitalization.OnTextChanged | yarc.py:435-445 | the handler terminates even though each `setText` re-enters it from the first field; afterwards every field holds its capitalised text, and the number of `setText` calls equals the number of fields that needed one |
| Capitalization.HandlerQuiescent | yarc.py:436-445 | running the handler on its own result makes no `setText` call, so the `textChanged` chain stops |
| Capitalization.DelhiExample | yarc.py:443-445 | "delhi" in Location becomes "Delhi" with one write and the empty District is untouched |
| Decimal.Pad | yarc.py:462-463 | zero-padded digits read back as the number and are exactly the requested width when the number fits |
| Decimal.Show | yarc.py:568 | `str(code)` is non-empty, reads back as the code, has a '-' sign exactly for negatives, and has no leading zero (after the sign for negatives) |
| Identifiers.ParseFill | yarc.py:466-470 | parsing an identifier built from a layout returns the digit runs it was built from |
| Identifiers.FillParse | yarc.py:466-470 | every string the layout parser accepts is the identifier built from the runs it reports |
| Identifiers.FillInjective | yarc.py:466-470 | different digit runs never build the same identifier |
| Identifiers.TransactionNo | yarc.py:466-468 | the transaction number has length 22, starts with "REAMN", has 'A' at index 17 and digits at 5-16 and 18-21, and parses back to its two runs |
| Identifiers.RegistrationNo | yarc.py:469 | the registration number is "DL4CQ" and five digits, length 10, and parses back to its digits |
| Identifiers.EquipmentId | yarc.py:470 | the equipment id is "GTFGF" and five digits, length 10, and parses back to its digits |
| Identifiers.NewIds | yarc.py:465-470 | all three regenerated identifiers match their layouts |
| Identifiers.NewIdsInjective | yarc.py:465-470 | each identifier is equal for two draws exactly when the digits drawn for it are equal |
| Timestamps.DateText | yarc.py:462-463 | `%Y-%m-%d` is ten characters with '-' at 4 and 7, and its three digit fields read back as year, month and day |
| Timestamps.ViolationTime | yarc.py:462 | the violation time is the formatted date followed by " 10:14:45.0", 21 characters |
| Timestamps.ActionTime | yarc.py:463 | the action time is the formatted date followed by " 10:44:00.0", 21 characters |
| Timestamps.DateTextInjective | yarc.py:459-463 | equal violation times come only from equal dates |
| Timestamps.SameDayDifferentClock | yarc.py:462-463 | both time fields carry the same date and the two strings differ |
| Timestamps.AutoDates | yarc.py:459-463 | both stored time fields begin with the same shifted date and end with the fixed clock times " 10:14:45.0" and " 10:44:00.0" |
| Endpoints.SelectEndpoint | yarc.py:472-479 | index 0 and only index 0 yields the live `itmschallan` URL with offence id "4391"; every other index yields staging with "9759" |
| Endpoints.SelectionAgreesWithTargets | yarc.py:472-479 | choosing a selector entry reaches the endpoint that entry names, and URL and offence id always travel together |
| Status.Classify | yarc.py:565-580 | [200,300) is Success, [300,400) Redirection, [400,500) Client Error, and every other code, below 200 included, Server Error |
| Status.ClassifyPartition | yarc.py:565-580 | each code lies in exactly one hundreds band, and that band is the one the classifier reports |
| Status.LabelInjective | yarc.py:568-580 | different categories carry different label words |
| Status.Label | yarc.py:568-580 | the category words are "Success", "Redirection", "Client Error" and "Server Error", each naming exactly one category |
| Status.StatusText | yarc.py:568-580 | the status line is `str(code)`, then " - ", then the category's label |
| Payload.NoticeToJson | yarc.py:521-544 | a notice becomes a JSON object with the 22 keys in the order the dict lists them, each carrying the field of that name |
| Payload.NoticeRoundTrip | yarc.py:520-545 | decoding the JSON object of a notice gives back that notice |
| Payload.NoticeDecodeExact | yarc.py:520-545 | the decoder accepts only objects with exactly the notice's keys in order, and re-encodes each to itself |
| Payload.PayloadToJson | yarc.py:519-546 | the body is an object with the single key `cctvNoticeData` holding an array of exactly one element |
| Payload.PayloadRoundTrip | yarc.py:519-546 | decoding the whole body gives back the notice it was built from |
| Payload.PayloadDecodeExact | yarc.py:519-546 | any body the decoder accepts is the encoding of the notice it yields |
| Payload.BuildNotice | yarc.py:519-546 | the notice has the fixed values (`dpCd` "TP", `stateCd` "HP", `vendorName` "I2V", `voilationSource` "OSV", speeds 50 and 40, weight 0, coordinates 1.0), the five user texts verbatim, the endpoint's offence id, the fresh identifiers, the stored times and the static image |
| Payload.BuildNoticeComplete | yarc.py:519-546 | any notice with those properties is the built one, so nothing else varies between submissions |
| Payload.WireContents | yarc.py:513-546 | a receiver decoding the body finds one notice with the fixed values, the user's text unchanged, the selected offence id and the new transaction number |
| Sender.Init | yarc.py:134-138 | a new widget has empty fields, the selector on entry 0 (live), the button enabled, nothing posted, no endpoint chosen yet and the clock fixed from the start-up date |
| Sender.Edit | yarc.py:436-445 | an edit of Location or District leaves both fields capitalised; an edit of a numeric field is stored as typed |
| Sender.Formatted | yarc.py:620-623 | a response is shown as its indented JSON when the body parses, and as the raw body text otherwise |
| Sender.Outgoing | yarc.py:511-553 | the worker's request goes to the selected endpoint's URL, and its body decodes to the notice built from the current form |
| Sender.Step | yarc.py:511-636 | a choice in the selector sets the index and nothing else does; an edit changes the form exactly as `Edit` does and nothing else does; the button is enabled afterwards exactly when the event was `error` or `finished`, or it was already enabled and the event was not a click; only a click on an enabled button posts, and it posts one request; the post log only grows; the clock and image never change |
| Sender.WorkerSignals | yarc.py:124-131 | the worker emits exactly one outcome signal and then `finished` from the `finally` clause: `response_received` carrying the response itself for an answer, `error` carrying "An error occurred: " and the description for a `RequestException`; an exception the worker does not catch yields `finished` alone |
| Sender.ClickWhileSendingIgnored | yarc.py:512 | a click while the button is disabled changes nothing and posts no request |
| Sender.SecondPostBeforeFinished | yarc.py:511-636 | after `error` the button is already enabled, so a click before the same worker's `finished` posts a second request |
| Sender.ClickSends | yarc.py:511-553 | a click on the enabled button disables it, appends exactly the outgoing request to the post log, and records as the current endpoint the selected one, whose URL the request goes to |
| Sender.FreshWindowPostsLive | yarc.py:337-339 | the first click of a new window posts to the live URL with offence id "4391", because the selector starts on entry 0 and `update_url` runs inside `send_challan` |
| Sender.SelectThenClick | yarc.py:472-514 | after choosing a selector entry, the next click posts to that entry's URL with that entry's offence id |
| Sender.SignalsReEnable | yarc.py:631-636 | after the worker's signals the button is enabled and nothing more is posted; a response alone leaves it disabled until `finished` |
| Sender.TransportFailureReported | yarc.py:128-131 | after a transport failure the response area shows "An error occurred: " and the description, and the button is enabled |
| Sender.ResponseReported | yarc.py:555-632 | after a response the status line is the code's category text, the formatted body is shown inline when at most 50 characters and in a dialog otherwise, and the button is enabled |
| Sender.SessionReEnables | yarc.py:511-636 | from an enabled button, any number of submissions made one after another, each click waiting for the previous worker's signals, with any outcomes, honour every click, post one request each, and end with the button enabled |

## Left out

- Capitalization.Upper: maps only ASCII letters. Python's `str.upper()` also maps other Unicode letters and can change the text's length.
- Timestamps.DateText: always pads the year to four digits. On glibc, `strftime("%Y")` prints years below 1000 without padding; such dates cannot come from a present-day clock.
- Numeric-field validation: the `QIntValidator(0, 9999)` filter on User ID, District ID and Office Code is Qt behaviour. The model stores whatever text the field holds, which is also what the payload copies.
- Clock: `datetime.now()` and the two-day `timedelta` are not modelled. `Sender.Init` takes the already shifted date.
- Randomness: `random.choices` is not modelled. A `Draw` supplies its digits.
- Network: `requests.post`, its 40-second timeout and the response object are foreign I/O. They are replaced by a `NetResult`: an answer, a `RequestException` (a timeout is one) or any other exception. Elapsed time and the request-URL display are not modelled.
- Sender.WorkerSignals: for an exception other than `RequestException` the model emits `finished` alone and stops there. The exception still escapes `Worker.run`, and what PyQt5 then does with it, which may end the process, is not modelled.
- JSON rendering: `response.json()` and `json.dumps(..., indent=4)` are library code. `Response.pretty` stands for their result, and `None` for the `ValueError` fallback to the raw text.
- Static image: the base64 `image1` literal is an opaque parameter. It is the same for every submission.
- Threads: `QThread` scheduling and cross-thread signal delivery are not modelled. The widget receives the worker's signals in the order they are emitted.
- Presentation: the progress bar is not modelled. Its frame is hidden at yarc.py:410 and never shown, and `on_request_error` does not hide the bar. Also left out: status colours and HTML, `ResponseDialog` modality, `SmoothTextEdit`, `scroll_to_widget`, `FadeEffect`, frame animation, stylesheets and `center`.
