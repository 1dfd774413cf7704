# Food-Pantry-Inventory: the scanner and box-number front end

A functional Dafny model of the few pieces of `fpiweb/views.py` that are
plain logic rather than framework calls:

- the keyed-in box-number normalisation of the JSON scanner endpoint
  (`ScannerView.get_keyed_in_box_number`): keep the ASCII digits, read them as
  a decimal number, format that number;
- the scanner's `{success, data, errors}` response envelope
  (`ScannerView.response`, `ScannerView.error_response`) with Python's truth
  test deciding the defaults;
- the input part of `ScannerView.get_box`: a keyed-in number or decoded scan
  data, or a `ScannerViewError`;
- the URL helpers `TestScanView.get_box_scanned_url` (drop a leading "box")
  and `PrintLabelsView.get_base_url` (`scheme://host/` from the request's
  META dictionary);
- the session-driven redirect choices of `BoxNewView.post` and
  `BoxScannedView.get`.

Functions of the application that are defined in files outside this model
(`BoxNumber.format_box_number`, `BoxNumber.validate`, the barcode decoder
`read_box_number`) are never given bodies: every model function that calls
one takes it as a function-valued parameter, so every property holds for
every formatter, validator and decoder that returns (the decoder may also
report a `CodeReaderError`). Framework outcomes (`reverse`, `redirect`,
`render`, the error page) are the abstract `Routes.Outcome` and
`Routes.Route` values.

Files, one module each: `wrappers.dfy` (Option, Result), `strings.dfy`
(digits, ASCII lower-casing, prefix and split helpers), `decimal.dfy`
(decimal value and rendering of numbers), `json.dfy` (JSON values and
Python truthiness), `scanner.dfy` (`ScannerView`), `test_scan.dfy`
(`TestScanView`), `print_labels.dfy` (`PrintLabelsView`), `routes.dfy`
(view outcomes), `box_views.dfy` (`BoxNewView`, `BoxScannedView`).

## Model

| member | source | states |
|---|---|---|
| Scanner.KeyedInBoxNumber | fpiweb/views.py:499-519 | the result is None exactly when the field is missing or has no ASCII digit; otherwise it is the formatter applied to the number the field's digits denote |
| Scanner.KeyedInMissingOrEmpty | fpiweb/views.py:505-507 | a missing field and an empty field both give None |
| Scanner.KeyedInExample | fpiweb/views.py:505-519 | "box 0-12" gives the formatted 12: letters, space and dash are dropped and the leading zero does not count |
| Scanner.KeyedInIgnoresNonDigit | fpiweb/views.py:509-512 | inserting any non-digit character anywhere in the field never changes the result |
| Scanner.KeyedInOnlyDigitsMatter | fpiweb/views.py:509-512 | the field and its digit subsequence alone give the same result |
| Scanner.KeyedInIgnoresLeadingZero | fpiweb/views.py:514-519 | a leading '0' before a field that already has a digit does not change the result |
| Scanner.KeyedInOfNumeral | fpiweb/views.py:509-519 | keying in the decimal numeral of n yields the formatted n |
| Scanner.KeyedInParseNeverFails | fpiweb/views.py:514-517 | `int()` of the digit string always succeeds, so the ValueError branch is unreachable |
| Decimal.Parse | fpiweb/views.py:514-517 | `int()` of the digit string: a non-empty ASCII-digit string parses, anything else fails, and the value is below 10 to the power of the length |
| Strings.Lower | fpiweb/views.py:368 | `str.lower()` keeps the length; each ASCII capital becomes its own small letter, every other character is kept, and no capital is left |
| Json.Truthy | fpiweb/views.py:485-486 | Python's truth test: a value is false exactly when it is None, False, 0, "", [] or {} |
| Strings.Digits | fpiweb/views.py:509-510 | the filtered string holds only ASCII digits, is no longer than the input, and is empty exactly when the input has no digit |
| Strings.DigitsAppend | fpiweb/views.py:510 | filtering distributes over concatenation, so the digits keep their order |
| Strings.DigitsOfDigits | fpiweb/views.py:510 | a string of digits is its own filtered string |
| Decimal.ParseDigitsSucceeds | fpiweb/views.py:514-517 | parsing succeeds on every non-empty ASCII-digit string |
| Decimal.ValueOfToDecimal | fpiweb/views.py:515 | the value of the canonical numeral of n is n |
| Decimal.ParseToDecimal | fpiweb/views.py:515 | parsing the canonical numeral of n gives back n |
| Decimal.LeadingZero | fpiweb/views.py:515 | a leading zero does not change the value of a digit string |
| Scanner.Response | fpiweb/views.py:480-489 | success and status pass through; a falsy data becomes {} and a falsy errors becomes [], truthy ones are kept |
| Scanner.ResponseIdempotent | fpiweb/views.py:481-489 | feeding an envelope's fields back into response gives the same envelope |
| Scanner.ResponseFalsyValuesAgree | fpiweb/views.py:485-486 | all falsy data values (None, False, 0, "", [], {}) and all falsy errors values give the same envelope |
| Scanner.ErrorResponse | fpiweb/views.py:491-497 | success is false, the status is kept, errors is always [], a truthy error list is carried under data and a falsy one leaves data {} |
| Scanner.ErrorResponseMisplacesErrors | fpiweb/views.py:492-497 | the envelope for one error message, as the scanner's post handler builds it, has the message list under data and an empty errors list, status 400 |
| Scanner.ErrorResponseIntended | fpiweb/views.py:492-497 | corrected error envelope: success false, data {}, the truthy error list under errors |
| Scanner.ErrorResponseDiffersFromIntended | fpiweb/views.py:492-497 | for every non-empty error list the as-written envelope's errors differ from the intended ones, and its data holds what errors should |
| Scanner.GetBox | fpiweb/views.py:521-530 | fails with "missing scan_data and box_number" when both inputs are falsy; a truthy keyed-in number is used as is; otherwise the decoder's number or its error message is the outcome; it fails exactly in those cases |
| Scanner.GetBoxNeverDecodesKeyedIn | fpiweb/views.py:526-530 | with a truthy keyed-in number neither the scan data nor the decoder affect the outcome |
| Scanner.PostedBoxNumber | fpiweb/views.py:563-571 | a field with a digit whose formatted number is non-empty decides the box number; when the normalised field is None or empty the scan data is decoded, and with no scan data either the missing-input error results |
| TestScan.HasBoxPrefixIffLetters | fpiweb/views.py:368 | the lower-cased string starts with "box" exactly when its first three characters are b/B, o/O, x/X |
| TestScan.StripBoxPrefix | fpiweb/views.py:367-369 | with the prefix exactly the first three characters are removed and the rest is kept; without it the string is unchanged |
| TestScan.StripBoxPrefixOnce | fpiweb/views.py:368-369 | "BoxBox12" becomes "Box12", which still starts with "box": removal happens once |
| TestScan.StripBoxPrefixUndoesPrefix | fpiweb/views.py:368-369 | any three-letter spelling of "box" put in front of a number is removed again |
| TestScan.StripBoxPrefixKeepsOthers | fpiweb/views.py:368-370 | a number not starting with a case-insensitive "box" passes through unchanged |
| TestScan.BoxScannedUrl | fpiweb/views.py:366-370 | the scanned-box route's argument is the number with a leading "box" removed, or the number itself |
| Strings.BeforeFirst | fpiweb/views.py:587 | `split('/')[0]` is a prefix without '/', ending at the first '/' or at the end of the string |
| PrintLabels.Scheme | fpiweb/views.py:586-587 | the scheme has no '/', is the lower-cased prefix of the protocol (default "HTTP/1.1") up to its first '/' or its end |
| PrintLabels.BaseUrl | fpiweb/views.py:584-590 | the URL starts with the scheme and "://", the host text sits between that and the final '/', and it always ends in '/' |
| PrintLabels.BaseUrlSchemeRecoverable | fpiweb/views.py:585-590 | the text of the URL before its first '/' is the scheme and a colon |
| PrintLabels.BaseUrlDefaultsToHttp | fpiweb/views.py:586-587 | without SERVER_PROTOCOL the URL is "http://" + host + "/" |
| PrintLabels.SchemeOfHttps | fpiweb/views.py:587 | protocol "HTTPS/2" gives scheme "https" |
| PrintLabels.SchemeWithoutSlash | fpiweb/views.py:587 | a protocol without '/' ("Http") is used whole, lower-cased |
| PrintLabels.BaseUrlWithHost | fpiweb/views.py:585-590 | with HTTP_HOST present the URL is the scheme, "://", that host and "/" |
| PrintLabels.BaseUrlMissingHost | fpiweb/views.py:589-590 | a missing HTTP_HOST is rendered as the text "None" |
| BoxViews.BoxNewPost | fpiweb/views.py:261-297 | missing box number and invalid box number give their error pages; an invalid form re-renders; otherwise a redirect carrying the saved box's key |
| BoxViews.BoxNewPostRedirect | fpiweb/views.py:286-297 | after a save the redirect goes to build_pallet_add_box exactly when the session action is build-pallet, and to box_details exactly when it is not |
| BoxViews.BoxScannedGet | fpiweb/views.py:340-359 | an absent number gives the missing page; it redirects exactly when a number is given and the action is build-pallet, otherwise the unexpected-action page; box_new only for numbers not in the box table, build_pallet only with a key of the table |
| BoxViews.BoxScannedGetLookup | fpiweb/views.py:344-359 | while building a pallet, the formatted number goes to box_new exactly when no box has it, and otherwise to build_pallet with that box's key |
| BoxViews.BoxScannedGetEmptyNumber | fpiweb/views.py:341-343 | an empty number is not treated as missing (the test is `is None`) |

## Left out

- Django request, response, session and auth objects, `reverse`, `redirect` and `render`: outcomes are abstract route and page values.
- ORM access: `Box.objects.get_or_create` in `get_box`, `Box.objects.get` in `BoxScannedView.get` (a box table as a map, so one box per number; `MultipleObjectsReturned` is not modelled), `new_box_form.save()` (its primary key is a parameter), `aggregate(Max(...))`.
- `read_box_number`, `BoxNumber.format_box_number` and `BoxNumber.validate` are defined outside this model; they are parameters, and only a decoder's `CodeReaderError` is modelled (as a failure message), not other exceptions it may raise.
- `BoxNumber.format_box_number` and `BoxNumber.validate` are assumed to return normally. If the formatter raised, `BoxScannedView.get` (fpiweb/views.py:344, before the action test) would end in an error instead of the unexpected-action page, and `ScannerView.post` calls `get_keyed_in_box_number` (fpiweb/views.py:566-568) before its `try` block (fpiweb/views.py:570), so an exception from the formatter escapes the handler; neither case is modelled.
- `ScannerView.get_box_data` and the success path of `ScannerView.post`: JSON serialisation of the box through `serialize`/`loads`.
- `QRCodePrinter`, PDF and `BytesIO` output of `PrintLabelsView.post`; the form-validation classes and their tests.
- `BoxScannedView.get` calls `redirect('fpiweb:build_pallet', args=(box.pk,))`, which Django turns into a URL keyword named `args`; whether that reverses depends on the URL configuration, which is not part of this model, so the outcome is kept as the abstract build-pallet route with the key.
- Strings.Lower: ASCII lower-casing only. For the "box" test this is exact, since no other character lower-cases to b, o or x; a non-ASCII `SERVER_PROTOCOL` would be lower-cased differently by Python.
- Decimal.Parse: only the part of Python's `int()` grammar reachable here (a non-empty run of ASCII digits); signs, whitespace, underscores and non-ASCII digits cannot reach it after the digit filter. The digit-count limit of recent Python versions on `int()` of long strings (which would make the ValueError branch reachable for fields of more than 4300 digits) is not modelled.
- Json: numbers are integers only; floating-point values (whose zero is falsy) are not modelled.
- BoxViews.ActionText: a session action that is neither None nor a string is not modelled. The text of `Action.ACTION_BUILD_PALLET` is defined outside this model, so the build-pallet action is a constructor of its own, and `Other` is taken never to hold that text.

## Findings

| source | as written | input that shows it | evidently intended | confidence | as-written member | corrected member |
|---|---|---|---|---|---|---|
| fpiweb/views.py:492-497 | `error_response` passes the error list as the second positional argument of `response`, which is `data` | `error_response(['missing scan_data and box_number'])` gives `{success: false, data: ['missing …'], errors: []}` | the error list under `errors`, `data` empty | medium, not executed (the client script reading the envelope is not part of this model) | Scanner.ErrorResponse, Scanner.ErrorResponseMisplacesErrors | Scanner.ErrorResponseIntended, Scanner.ErrorResponseDiffersFromIntended |
