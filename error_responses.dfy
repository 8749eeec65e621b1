/** Error-to-response translation in snapshots/09_main.py: a custom
    `UnicornException` rendered as a 418 body, validation failures rendered as
    400 instead of 422, a 404 with a custom header, and a handler that raises
    one of two exceptions depending on the name it is given. */
module ErrorResponses {
  import opened Common
  import opened Strings

  // ---------------------------------------------------------------------------
  // UnicornException and its registered handler

  const DEFAULT_UNICORN_MESSAGE := "A unicorn related error occurred"

  /** `UnicornException(name, message="A unicorn related error occurred")`. */
  datatype UnicornException = UnicornException(name: string, message: string := DEFAULT_UNICORN_MESSAGE)

  /** The JSON body that `unicorn_exception_handler` sends. */
  datatype UnicornBody = UnicornBody(errorType: string, failedItemName: string, message: string, requestUrl: string)

  datatype UnicornReply = UnicornReply(status: int, body: UnicornBody)

  /** `unicorn_exception_handler`: status 418 with the exception's name and message. */
  function UnicornExceptionHandler(requestUrl: string, exc: UnicornException): (r: UnicornReply)
    ensures r.status == 418
    ensures r.body.errorType == "Unicorn Error"
    ensures r.body.failedItemName == exc.name && r.body.message == exc.message
    ensures r.body.requestUrl == requestUrl
  {
    UnicornReply(418, UnicornBody("Unicorn Error", exc.name, exc.message, requestUrl))
  }

  /** An exception raised without a message carries the default one into the body. */
  lemma UnicornDefaultMessage(requestUrl: string, name: string)
    ensures UnicornExceptionHandler(requestUrl, UnicornException(name)).body.message == DEFAULT_UNICORN_MESSAGE
  {
  }

  // ---------------------------------------------------------------------------
  // RequestValidationError and its replacement handler

  /** One component of an error location: a field name or a list index. */
  datatype LocPart = Key(key: string) | Index(index: int)

  /** One entry of `exc.errors()`: where it happened and the message. */
  datatype ErrorEntry = ErrorEntry(loc: seq<LocPart>, msg: string)

  /** `str(part)`. */
  function LocPartText(p: LocPart): string
  {
    match p
    case Key(k) => k
    case Index(i) => IntToString(i)
  }

  function LocTexts(loc: seq<LocPart>): (r: seq<string>)
    ensures |r| == |loc| && forall i :: 0 <= i < |loc| ==> r[i] == LocPartText(loc[i])
  {
    seq(|loc|, i requires 0 <= i < |loc| => LocPartText(loc[i]))
  }

  const LOC_SEPARATOR := " -> "

  /** `f"field '{field}':{message}"` with the location parts joined by `" -> "`. */
  function FormatDetail(e: ErrorEntry): (d: string)
    ensures |d| >= 9 + |e.msg| && d[..7] == "field '"
  {
    "field '" + Join(LocTexts(e.loc), LOC_SEPARATOR) + "':" + e.msg
  }

  /** A formatted detail is the location, quoted after `field`, then the message. */
  lemma FormatDetailShape(e: ErrorEntry)
    ensures var d := FormatDetail(e);
            var field := Join(LocTexts(e.loc), LOC_SEPARATOR);
            && |d| == 9 + |field| + |e.msg|
            && d[..7] == "field '" && d[7..7 + |field|] == field
            && d[7 + |field|..9 + |field|] == "':" && d[9 + |field|..] == e.msg
  {
  }

  /** The location text grows by each part and one separator between parts. */
  lemma FieldTextLength(e: ErrorEntry)
    requires |e.loc| >= 1
    ensures |Join(LocTexts(e.loc), LOC_SEPARATOR)| == SumOfLengths(LocTexts(e.loc)) + 4 * (|e.loc| - 1)
  {
    JoinLength(LocTexts(e.loc), LOC_SEPARATOR);
  }

  /** A body-field error: `["body", "price"]` is written `body -> price`. */
  lemma FormatDetailExample()
    ensures FormatDetail(ErrorEntry([Key("body"), Key("price")], "bad")) == "field 'body -> price':bad"
  {
    var texts := LocTexts([Key("body"), Key("price")]);
    assert texts == ["body", "price"];
    assert texts[..1] == ["body"];
  }

  /** The loop of `validation_exception_handler` that builds `error_details`:
      one formatted string per error, in order. */
  method FormatErrorDetails(errors: seq<ErrorEntry>) returns (details: seq<string>)
    ensures |details| == |errors|
    ensures forall i :: 0 <= i < |errors| ==> details[i] == FormatDetail(errors[i])
  {
    details := [];
    for i := 0 to |errors|
      invariant |details| == i
      invariant forall j :: 0 <= j < i ==> details[j] == FormatDetail(errors[j])
    {
      var field := Join(LocTexts(errors[i].loc), LOC_SEPARATOR);
      details := details + ["field '" + field + "':" + errors[i].msg];
    }
  }

  /** The JSON body that `validation_exception_handler` sends: the message and the
      unmodified error list (the formatted list is built but its key is commented out). */
  datatype ValidationBody = ValidationBody(message: string, details: seq<ErrorEntry>)

  const INVALID_INPUT := "Invalid input provided."

  /** `validation_exception_handler`: status 400 (not 422) with every error, in order.
      `errorDetails` is the formatted list the handler computes and does not send. */
  method ValidationExceptionHandler(errors: seq<ErrorEntry>)
    returns (status: int, body: ValidationBody, errorDetails: seq<string>)
    ensures status == HTTP_400_BAD_REQUEST
    ensures body.message == INVALID_INPUT && body.details == errors
    ensures |errorDetails| == |errors|
    ensures forall i :: 0 <= i < |errors| ==> errorDetails[i] == FormatDetail(errors[i])
  {
    errorDetails := FormatErrorDetails(errors);
    status := HTTP_400_BAD_REQUEST;
    body := ValidationBody(INVALID_INPUT, errors);
  }

  // ---------------------------------------------------------------------------
  // read_item

  /** A value of `items_db`: `{"name": ...}`. */
  datatype NamedItem = NamedItem(name: string)

  function ItemsDb(): map<int, NamedItem>
  {
    map[1 := NamedItem("keyboard"), 2 := NamedItem("Mouse")]
  }

  /** `read_item`: the stored value, or 404 naming the id with an `X-Error-Source` header. */
  function ReadItem(id: int): (r: Result<NamedItem>)
    ensures r.Raised? <==> id !in ItemsDb()
    ensures r.Ok? ==> r.value == ItemsDb()[id]
    ensures r.Raised? ==> r.error.status == HTTP_404_NOT_FOUND
                          && r.error.detail == "Item with ID " + IntToString(id) + " not found."
                          && r.error.headers == map["X-Error-Source" := "Read Item Endpoint"]
  {
    if id !in ItemsDb() then
      Raised(HttpError(HTTP_404_NOT_FOUND, "Item with ID " + IntToString(id) + " not found.",
                       map["X-Error-Source" := "Read Item Endpoint"]))
    else Ok(ItemsDb()[id])
  }

  /** Different missing ids give different details. */
  lemma NotFoundDetailNamesId(i: int, j: int)
    requires ReadItem(i).Raised? && ReadItem(j).Raised?
    requires ReadItem(i).error.detail == ReadItem(j).error.detail
    ensures i == j
  {
    var a := "Item with ID " + IntToString(i) + " not found.";
    var b := "Item with ID " + IntToString(j) + " not found.";
    assert |IntToString(i)| == |IntToString(j)|;
    assert a[13..|a| - 11] == IntToString(i);
    assert b[13..|b| - 11] == IntToString(j);
    IntToStringInjective(i, j);
  }

  // ---------------------------------------------------------------------------
  // generate_unicorn_error and what reaches the client

  /** `{"unicorn_name": name, "status": "ok"}`. */
  datatype UnicornStatus = UnicornStatus(unicornName: string, status: string)

  /** How a call of `generate_unicorn_error` ends. */
  datatype UnicornOutcome =
    | Returned(body: UnicornStatus)
    | RaisedUnicorn(exc: UnicornException)
    | RaisedValueError(message: string)

  const SPARKLE_MESSAGE := "Sparkle caused a rainbow overload!"
  const UNHANDLED_MESSAGE := "This is an unhandled ValueError"

  /** `generate_unicorn_error`: "sparkle" raises a `UnicornException`, "invalid" a
      `ValueError`, and every other name is answered with status "ok". */
  function GenerateUnicornError(name: string): (r: UnicornOutcome)
    ensures name == "sparkle" <==> r.RaisedUnicorn?
    ensures name == "invalid" <==> r.RaisedValueError?
    ensures r.RaisedUnicorn? ==> r.exc == UnicornException("sparkle", SPARKLE_MESSAGE)
    ensures r.RaisedValueError? ==> r.message == UNHANDLED_MESSAGE
    ensures r.Returned? ==> r.body == UnicornStatus(name, "ok")
  {
    if name == "sparkle" then RaisedUnicorn(UnicornException(name, SPARKLE_MESSAGE))
    else if name == "invalid" then RaisedValueError(UNHANDLED_MESSAGE)
    else Returned(UnicornStatus(name, "ok"))
  }

  /** What the client receives: the returned body, the registered handler's 418
      reply, or a generic 500 for the exception no handler is registered for. */
  datatype UnicornResponse =
    | Sent(status: int, body: UnicornStatus)
    | Translated(reply: UnicornReply)
    | InternalServerError

  /** The `UnicornException` handler is the only one registered for these outcomes. */
  function Dispatch(requestUrl: string, outcome: UnicornOutcome): (r: UnicornResponse)
    ensures r.Sent? <==> outcome.Returned?
    ensures r.Sent? ==> r.status == HTTP_200_OK && r.body == outcome.body
    ensures r.Translated? <==> outcome.RaisedUnicorn?
    ensures r.Translated? ==> r.reply.status == 418 && r.reply.body.failedItemName == outcome.exc.name
                              && r.reply.body.message == outcome.exc.message
    ensures r.InternalServerError? <==> outcome.RaisedValueError?
  {
    match outcome
    case Returned(body) => Sent(HTTP_200_OK, body)
    case RaisedUnicorn(exc) => Translated(UnicornExceptionHandler(requestUrl, exc))
    case RaisedValueError(_) => InternalServerError
  }

  /** End to end: "sparkle" becomes a 418 naming the unicorn, "invalid" a 500 that
      carries no exception text, any other name a 200. */
  lemma UnicornRoute(requestUrl: string, name: string)
    ensures var resp := Dispatch(requestUrl, GenerateUnicornError(name));
            && (name == "sparkle" ==>
                  resp.Translated? && resp.reply.status == 418
                  && resp.reply.body.failedItemName == "sparkle" && resp.reply.body.message == SPARKLE_MESSAGE)
            && (name == "invalid" ==> resp == InternalServerError)
            && (name != "sparkle" && name != "invalid" ==> resp == Sent(HTTP_200_OK, UnicornStatus(name, "ok")))
  {
  }

  // ---------------------------------------------------------------------------
  // InputData and validate_endpoint

  /** `InputData`: `value` with the constraint `gt=10`. */
  datatype InputData = InputData(value: int)

  const INPUT_MIN_EXCLUSIVE := 10

  /** Validation of `InputData`: accepted exactly when the value exceeds 10; the
      error, located at `body -> value`, uses the validation library's wording. */
  function ValidateInputData(value: int): (r: Option<ErrorEntry>)
    ensures r.None? <==> value > INPUT_MIN_EXCLUSIVE
    ensures r.Some? ==> r.value.loc == [Key("body"), Key("value")]
  {
    if value > INPUT_MIN_EXCLUSIVE then None
    else Some(ErrorEntry([Key("body"), Key("value")], "Input should be greater than 10"))
  }

  datatype ValidReply = ValidReply(message: string, receivedValue: int)

  datatype ValidateResponse =
    | Valid(status: int, body: ValidReply)
    | Invalid(status: int, rejection: ValidationBody)

  /** `validate_endpoint` behind its body validation: the value is echoed when it
      is above 10; otherwise the replacement handler answers 400 with the error. */
  method ValidateEndpoint(value: int) returns (r: ValidateResponse)
    ensures value > INPUT_MIN_EXCLUSIVE ==> r == Valid(HTTP_200_OK, ValidReply("Data is valid!", value))
    ensures value <= INPUT_MIN_EXCLUSIVE ==>
              r.Invalid? && r.status == HTTP_400_BAD_REQUEST && r.rejection.message == INVALID_INPUT
              && |r.rejection.details| == 1 && r.rejection.details[0].loc == [Key("body"), Key("value")]
  {
    var error := ValidateInputData(value);
    if error.None? {
      r := Valid(HTTP_200_OK, ValidReply("Data is valid!", value));
    } else {
      var status, body, _ := ValidationExceptionHandler([error.value]);
      r := Invalid(status, body);
    }
  }
}
