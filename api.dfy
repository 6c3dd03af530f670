/**
 * The pure parts of the application controller: the response checks, the
 * prediction payload, and a reference definition of what one prediction
 * request must end in for each outcome of the network exchange.
 */
module Api {
  import opened Wrappers
  import opened JsonValues
  import Decimal

  /** The fixed endpoint every prediction request is posted to. */
  const ApiUrl: string := "http://localhost:8000/predict/custom"

  const FormatMessage: string := "Unexpected response format from API."

  /** The two gender labels the service may answer with, compared case-sensitively. */
  const Genders: seq<string> := ["Male", "Female"]

  /** What `response.json()` does: parse the body, or reject with the parser's message. */
  datatype Body = Parsed(value: Json) | Unparsable(message: string)

  datatype HttpResponse = HttpResponse(status: nat, body: Body)

  /** The single POST, abstracted: `fetch` rejects with a message, or a response arrives. */
  datatype FetchOutcome = TransportFailure(message: string) | Received(response: HttpResponse)

  /** A stored prediction, `{ age, gender }`. */
  datatype Prediction = Prediction(age: real, gender: string)

  /** An "ok status" in the sense of the WHATWG Fetch Standard (section 2.2.3, Statuses): 200 to 299. */
  predicate IsOkStatus(status: nat)
    ensures IsOkStatus(status) <==> status / 100 == 2
  {
    200 <= status <= 299
  }

  function ServerErrorMessage(status: nat): (m: string)
    ensures "Server error: " <= m && m[|"Server error: "|..] == Decimal.DecimalString(status)
  {
    "Server error: " + Decimal.DecimalString(status)
  }

  /** `checkResponseOk`: throws exactly when `response.ok` is false. */
  function CheckResponseOk(response: HttpResponse): (c: Completion)
    ensures c.Normal? <==> 200 <= response.status <= 299
    ensures c.Throw? ==> c.message == ServerErrorMessage(response.status)
  {
    if !IsOkStatus(response.status) then Throw(ServerErrorMessage(response.status)) else Normal
  }

  /** The allow-list: an object whose `age` is a number and whose `gender` is exactly "Male" or "Female". */
  predicate IsPredictionShape(data: Json) {
    && data.JObject?
    && "age" in data.fields && data.fields["age"].JNumber?
    && "gender" in data.fields && data.fields["gender"] in {JString("Male"), JString("Female")}
  }

  /**
   * `throwIfDataInvalid`: reads `data.age` (a TypeError on `null`), then `data.gender`,
   * and throws the fixed format message unless the age is a number and the gender is listed.
   */
  function ThrowIfDataInvalid(data: Json): (c: Completion)
    ensures c.Normal? <==> IsPredictionShape(data)
    ensures c.Throw? ==> c.message == if data.JNull? then NullReadMessage("age") else FormatMessage
  {
    match Get(data, "age")
    case Thrown(m) => Throw(m)
    case Ok(age) =>
      var ageIsNotNumber := TypeOf(age) != "number";
      match Get(data, "gender")
      case Thrown(m) => Throw(m)
      case Ok(gender) =>
        var genderIsNotMaleOrFemale := !Includes(Genders, gender);
        if ageIsNotNumber || genderIsNotMaleOrFemale then Throw(FormatMessage) else Normal
  }

  /** The `{ age, gender }` record taken from an accepted payload. */
  function ToPrediction(data: Json): (p: Prediction)
    requires IsPredictionShape(data)
    ensures JNumber(p.age) == data.fields["age"] && JString(p.gender) == data.fields["gender"]
    ensures p.gender in Genders
  {
    Prediction(data.fields["age"].n, data.fields["gender"].s)
  }

  /**
   * Reference definition of one prediction request's end: the prediction it stores,
   * or the message of the error that it shows.
   */
  function Expected(outcome: FetchOutcome): (r: Result<Prediction>)
    ensures r.Ok? ==> outcome.Received? && IsOkStatus(outcome.response.status) && r.value.gender in Genders
  {
    match outcome
    case TransportFailure(m) => Thrown(m)
    case Received(response) =>
      if !IsOkStatus(response.status) then Thrown(ServerErrorMessage(response.status))
      else match response.body
        case Unparsable(m) => Thrown(m)
        case Parsed(data) =>
          if IsPredictionShape(data) then Ok(ToPrediction(data))
          else if data.JNull? then Thrown(NullReadMessage("age"))
          else Thrown(FormatMessage)
  }

  /** A request succeeds exactly when the status is ok and the body parses to an accepted payload. */
  lemma ExpectedSucceedsIff(outcome: FetchOutcome)
    ensures Expected(outcome).Ok? <==>
      && outcome.Received?
      && IsOkStatus(outcome.response.status)
      && outcome.response.body.Parsed?
      && IsPredictionShape(outcome.response.body.value)
  {
  }

  /** A stored prediction is the payload's own `age` and `gender`, and its gender is one of the two labels. */
  lemma ExpectedSuccessValue(outcome: FetchOutcome)
    requires Expected(outcome).Ok?
    ensures outcome.Received? && outcome.response.body.Parsed?
    ensures var data := outcome.response.body.value;
      && Expected(outcome).value.age == data.fields["age"].n
      && JString(Expected(outcome).value.gender) == data.fields["gender"]
    ensures Expected(outcome).value.gender in Genders
  {
  }

  /** A status outside 200 to 299 always ends in the server-error message naming that status. */
  lemma ExpectedNonOkStatus(outcome: FetchOutcome)
    requires outcome.Received? && !(200 <= outcome.response.status <= 299)
    ensures Expected(outcome) == Thrown(ServerErrorMessage(outcome.response.status))
  {
  }

  /** A parsed body that is not an accepted payload is rejected with the fixed message, unless it is `null`. */
  lemma ExpectedRejectsShape(outcome: FetchOutcome)
    requires outcome.Received? && IsOkStatus(outcome.response.status)
    requires outcome.response.body.Parsed? && !IsPredictionShape(outcome.response.body.value)
    ensures outcome.response.body.value != JNull ==> Expected(outcome) == Thrown(FormatMessage)
    ensures outcome.response.body.value == JNull ==> Expected(outcome) == Thrown(NullReadMessage("age"))
  {
  }

  /** The server-error message starts with its fixed prefix and determines the status it reports. */
  lemma ServerErrorMessageInjective(a: nat, b: nat)
    requires ServerErrorMessage(a) == ServerErrorMessage(b)
    ensures a == b
  {
    var prefix := "Server error: ";
    assert ServerErrorMessage(a)[|prefix|..] == Decimal.DecimalString(a);
    assert ServerErrorMessage(b)[|prefix|..] == Decimal.DecimalString(b);
    Decimal.DecimalStringInjective(a, b);
  }

  /** A server-error message is never mistaken for the format message or for a success. */
  lemma ServerErrorIsNotFormatMessage(status: nat)
    ensures ServerErrorMessage(status) != FormatMessage
  {
    assert ServerErrorMessage(status)[0] == 'S' != FormatMessage[0];
  }

  /** The worked cases: 29/"Male" is stored, 500 is a server error, a string age and an unknown or lower-case gender are rejected. */
  lemma ExpectedExamples()
    ensures Expected(Received(HttpResponse(200, Parsed(JObject(map["age" := JNumber(29.0), "gender" := JString("Male")])))))
      == Ok(Prediction(29.0, "Male"))
    ensures Expected(Received(HttpResponse(500, Parsed(JNull)))) == Thrown("Server error: 500")
    ensures Expected(Received(HttpResponse(200, Parsed(JObject(map["age" := JString("old"), "gender" := JString("Male")])))))
      == Thrown(FormatMessage)
    ensures Expected(Received(HttpResponse(200, Parsed(JObject(map["age" := JNumber(30.0), "gender" := JString("Unknown")])))))
      == Thrown(FormatMessage)
    ensures Expected(Received(HttpResponse(200, Parsed(JObject(map["age" := JNumber(30.0), "gender" := JString("male")])))))
      == Thrown(FormatMessage)
    ensures Expected(Received(HttpResponse(200, Parsed(JObject(map["age" := JNumber(30.0)]))))) == Thrown(FormatMessage)
  {
  }
}
