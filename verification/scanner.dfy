/** The JSON scanner endpoint (`ScannerView`): its response envelope, the
    normalisation of a keyed-in box number, and the choice between a keyed-in
    number and decoded scan data. */
module Scanner {
  import opened Wrappers
  import opened Strings
  import opened Decimal
  import opened Json

  /** The `{success, data, errors}` body of a JsonResponse with its HTTP status. */
  datatype Envelope = Envelope(success: bool, data: Json, errors: Json, status: int)

  const DefaultStatus := 200
  const DefaultErrorStatus := 400
  const MissingInputMessage := "missing scan_data and box_number"

  /** `ScannerView.response`: `success` and `status` pass through; a falsy
      `data` becomes `{}` and a falsy `errors` becomes `[]`. */
  function Response(success: bool, data: Json := JNull, errors: Json := JNull,
                    status: int := DefaultStatus): (r: Envelope)
    ensures r.success == success && r.status == status
    ensures Truthy(data) ==> r.data == data
    ensures !Truthy(data) ==> r.data == EmptyObject
    ensures Truthy(errors) ==> r.errors == errors
    ensures !Truthy(errors) ==> r.errors == EmptyArray
  {
    Envelope(
      success,
      if Truthy(data) then data else EmptyObject,
      if Truthy(errors) then errors else EmptyArray,
      status)
  }

  /** Every envelope `Response` builds is a fixed point of it: the defaults it
      substitutes are themselves falsy and map to themselves. */
  lemma ResponseIdempotent(success: bool, data: Json, errors: Json, status: int)
    ensures var r := Response(success, data, errors, status);
      Response(r.success, r.data, r.errors, r.status) == r
  {
  }

  /** Only the truth of `data` and `errors` matters when they are falsy: every
      falsy value (None, False, 0, "", [], {}) gives the same envelope. */
  lemma ResponseFalsyValuesAgree(success: bool, d1: Json, d2: Json, e1: Json, e2: Json, status: int)
    requires !Truthy(d1) && !Truthy(d2) && !Truthy(e1) && !Truthy(e2)
    ensures Response(success, d1, e1, status) == Response(success, d2, e2, status)
  {
  }

  /** `ScannerView.error_response` as written: the error list is passed in the
      position of `data`, so it lands under `data` and `errors` is always `[]`. */
  function ErrorResponse(errors: Json, status: int := DefaultErrorStatus): (r: Envelope)
    ensures !r.success && r.status == status
    ensures r.errors == EmptyArray
    ensures Truthy(errors) ==> r.data == errors
    ensures !Truthy(errors) ==> r.data == EmptyObject
  {
    Response(false, errors, status := status)
  }

  /** What the scanner endpoint sends for a `ScannerViewError` with message
      `msg`: the one-element error list is under `data`, `errors` is empty. */
  lemma ErrorResponseMisplacesErrors(msg: string)
    ensures var r := ErrorResponse(JArray([JString(msg)]));
      && r == Envelope(false, JArray([JString(msg)]), EmptyArray, 400)
      && !Truthy(r.errors)
  {
  }

  /** The error envelope the name `error_response` promises: the errors under
      `errors` and an empty `data`. */
  function ErrorResponseIntended(errors: Json, status: int := DefaultErrorStatus): (r: Envelope)
    ensures !r.success && r.status == status
    ensures r.data == EmptyObject
    ensures Truthy(errors) ==> r.errors == errors
    ensures !Truthy(errors) ==> r.errors == EmptyArray
  {
    Response(false, errors := errors, status := status)
  }

  /** The two envelopes differ for every non-empty error list: the as-written
      one never reports an error in `errors`. */
  lemma ErrorResponseDiffersFromIntended(errors: Json, status: int)
    requires Truthy(errors)
    ensures ErrorResponseIntended(errors, status).errors == errors
    ensures ErrorResponse(errors, status).errors != ErrorResponseIntended(errors, status).errors
    ensures ErrorResponse(errors, status).data == ErrorResponseIntended(errors, status).errors
  {
  }

  /** `ScannerView.get_keyed_in_box_number`: None for a missing or empty field
      and for a field without an ASCII digit; otherwise the formatted number
      that the field's digits, read in order, denote. `format` stands for
      `BoxNumber.format_box_number`, whose body is not part of this model. */
  function KeyedInBoxNumber(input: Option<string>, format: nat -> string): (r: Option<string>)
    ensures r.None? <==> input.None? || !HasDigit(input.value)
    ensures r.Some? ==> r.value == format(Value(Digits(input.value)))
  {
    var s := input.GetOr("");
    if s == "" then None
    else
      var d := Digits(s);
      if d == "" then None
      else
        match Parse(d)
        case None => None
        case Some(n) => Some(format(n))
  }

  /** Missing and empty fields give None. */
  lemma KeyedInMissingOrEmpty(format: nat -> string)
    ensures KeyedInBoxNumber(None, format) == None
    ensures KeyedInBoxNumber(Some(""), format) == None
  {
  }

  /** A worked example: letters, a space and a dash are dropped, the leading
      zero does not count. */
  lemma KeyedInExample(format: nat -> string)
    ensures KeyedInBoxNumber(Some("box 0-12"), format) == Some(format(12))
  {
    assert Digits("2") == "2";
    assert Digits("12") == "12";
    assert Digits("-12") == "12";
    assert Digits("0-12") == "012";
    assert Digits(" 0-12") == "012";
    assert Digits("x 0-12") == "012";
    assert Digits("ox 0-12") == "012";
    assert Digits("box 0-12") == "012";
    assert Value("012") == 12 by {
      assert "012"[..2] == "01" && "01"[..1] == "0" && "0"[..0] == "";
    }
  }

  /** Inserting a non-digit character anywhere never changes the result. */
  lemma KeyedInIgnoresNonDigit(a: string, c: char, b: string, format: nat -> string)
    requires !IsDigit(c)
    ensures KeyedInBoxNumber(Some(a + [c] + b), format) == KeyedInBoxNumber(Some(a + b), format)
  {
    DigitsAppend(a + [c], b);
    DigitsAppend(a, [c]);
    DigitsAppend(a, b);
    assert Digits([c]) == [];
    var x, y := a + [c] + b, a + b;
    assert Digits(x) == Digits(y);
    assert HasDigit(x) <==> HasDigit(y);
  }

  /** Only the digit subsequence matters: the field and its digits alone give
      the same box number. */
  lemma KeyedInOnlyDigitsMatter(s: string, format: nat -> string)
    ensures KeyedInBoxNumber(Some(s), format) == KeyedInBoxNumber(Some(Digits(s)), format)
  {
    DigitsOfDigits(Digits(s));
  }

  /** A leading zero in front of a field that already has a digit does not
      change the result. */
  lemma KeyedInIgnoresLeadingZero(s: string, format: nat -> string)
    requires HasDigit(s)
    ensures KeyedInBoxNumber(Some(['0'] + s), format) == KeyedInBoxNumber(Some(s), format)
  {
    DigitsAppend(['0'], s);
    assert Digits(['0']) == ['0'];
    LeadingZero(Digits(s));
  }

  /** Keying in the decimal numeral of `n` yields the formatted `n`: the digit
      filter and the parse undo the rendering. */
  lemma KeyedInOfNumeral(n: nat, format: nat -> string)
    ensures KeyedInBoxNumber(Some(ToDecimal(n)), format) == Some(format(n))
  {
    DigitsOfDigits(ToDecimal(n));
    ValueOfToDecimal(n);
  }

  /** The `int()` step never fails: whenever the digit filter leaves something,
      it parses to the value the result is formatted from. */
  lemma KeyedInParseNeverFails(s: string)
    requires HasDigit(s)
    ensures Parse(Digits(s)) == Some(Value(Digits(s)))
  {
    ParseDigitsSucceeds(Digits(s));
  }

  /** The input part of `ScannerView.get_box`: the box number to look up, or
      the `ScannerViewError` message. A truthy keyed-in number wins and the
      scan data is not decoded; otherwise the scan data is decoded by `read`
      (standing for `read_box_number`, whose `CodeReaderError` message is
      re-raised unchanged). */
  function GetBox(scanData: Option<string>, boxNumber: Option<string>,
                  read: string -> Result<string, string>): (r: Result<string, string>)
    ensures !NonEmpty(scanData) && !NonEmpty(boxNumber) ==> r == Failure(MissingInputMessage)
    ensures NonEmpty(boxNumber) ==> r == Success(boxNumber.value)
    ensures r.Failure? <==>
      !NonEmpty(boxNumber) && (!NonEmpty(scanData) || read(scanData.value).Failure?)
    ensures !NonEmpty(boxNumber) && NonEmpty(scanData) ==> r == read(scanData.value)
  {
    if !NonEmpty(scanData) && !NonEmpty(boxNumber) then Failure(MissingInputMessage)
    else if !NonEmpty(boxNumber) then
      match read(scanData.value)
      case Failure(msg) => Failure(msg)
      case Success(n) => Success(n)
    else Success(boxNumber.value)
  }

  /** With a truthy keyed-in number neither the scan data nor the decoder can
      affect the outcome. */
  lemma GetBoxNeverDecodesKeyedIn(scan1: Option<string>, scan2: Option<string>, boxNumber: Option<string>,
                                  read1: string -> Result<string, string>, read2: string -> Result<string, string>)
    requires NonEmpty(boxNumber)
    ensures GetBox(scan1, boxNumber, read1) == GetBox(scan2, boxNumber, read2)
  {
  }

  /** The box number `ScannerView.post` (and `BoxItemFormView.post`) hands to
      the box lookup: the keyed-in field normalised first, the scan data as
      the fallback, also when the formatted number is empty (and so false). */
  function PostedBoxNumber(scanData: Option<string>, boxNumberField: Option<string>,
                           format: nat -> string, read: string -> Result<string, string>): (r: Result<string, string>)
    ensures boxNumberField.Some? && HasDigit(boxNumberField.value)
            && format(Value(Digits(boxNumberField.value))) != "" ==>
              r == Success(format(Value(Digits(boxNumberField.value))))
    ensures !NonEmpty(KeyedInBoxNumber(boxNumberField, format)) && !NonEmpty(scanData) ==>
              r == Failure(MissingInputMessage)
    ensures !NonEmpty(KeyedInBoxNumber(boxNumberField, format)) && NonEmpty(scanData) ==>
              r == read(scanData.value)
  {
    GetBox(scanData, KeyedInBoxNumber(boxNumberField, format), read)
  }
}
