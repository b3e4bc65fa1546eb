/** The last-invoice-number test: GET /Invoices/last-number. The body is
    expected to be a JSON string; when it does not parse, a text/plain
    response is checked as raw text instead, and anything else ends the
    iteration with `fail`. */
module LastInvoiceNumberTest {
  import opened Wrappers
  import opened JsText
  import opened JsValue
  import opened K6
  import opened Patterns
  import Env
  import Common

  const Url := Common.GetUrl("/Invoices/last-number")

  /** The request goes to this endpoint on the production host. */
  lemma RequestUrl()
    ensures Url[..|Env.CurrentHost|] == "https://maf.sdet.pl/api"
    ensures Url[|Env.CurrentHost|..] == "/Invoices/last-number"
  {
    Env.Tables();
  }

  /** The longest invoice number the length check accepts, in UTF-16 units. */
  const MaxLength: nat := 50

  // The check names, as k6 reports them.
  const StatusIs200 := "last-invoice-number: status is 200"
  const ResponseTime := "last-invoice-number: response time < 5000ms"
  const ContentTypeIsJson := "last-invoice-number: content-type is JSON"
  const ResponseIsString := "last-invoice-number: response is string"
  const ResponseIsNotEmpty := "last-invoice-number: response is not empty"
  const ReasonableFormat := "last-invoice-number: has reasonable format"
  const ReasonableLength := "last-invoice-number: length is reasonable"
  const PlainTextIsString := "last-invoice-number: plain text response is string"
  const PlainTextIsNotEmpty := "last-invoice-number: plain text response is not empty"

  function StatusBlock(res: Response): seq<NamedCheck> {
    [NamedCheck(StatusIs200, Normal(res.status == 200)),
     NamedCheck(ResponseTime, Normal(res.duration < 5000.0)),
     NamedCheck(ContentTypeIsJson, Normal(ContentTypeIncludes(res, "application/json")))]
  }

  function ShapeBlock(data: Json): seq<NamedCheck> {
    [NamedCheck(ResponseIsString, Normal(data.JStr?)),
     NamedCheck(ResponseIsNotEmpty, Normal(data.JStr? && Utf16Length(data.s) > 0))]
  }

  function FormatBlock(s: string): seq<NamedCheck> {
    [NamedCheck(ReasonableFormat, Normal(InvoiceNumberPattern(s))),
     NamedCheck(ReasonableLength, Normal(1 <= Utf16Length(s) <= MaxLength))]
  }

  /** The checks on `res.body`, which is a string unless the response had
      none. */
  function PlainTextBlock(body: Option<string>): seq<NamedCheck> {
    [NamedCheck(PlainTextIsString, Normal(body.Some?)),
     NamedCheck(PlainTextIsNotEmpty, Normal(body.Some? && Utf16Length(body.value) > 0))]
  }

  /** The default function. */
  function Default(res: Response): Iteration {
    var body := BodyChecks(res);
    Iteration(Results(StatusBlock(res)) + body.checks, body.failure)
  }

  /** What `Default` records after the response checks. */
  function BodyChecks(res: Response): Iteration {
    if res.status != 200 then Iteration([], None)
    else
      match res.body
      case Some(data) =>
        var shape := Results(ShapeBlock(data));
        if data.JStr? then Iteration(shape + Results(FormatBlock(data.s)), None)
        else Iteration(shape, None)
      case None =>
        if ContentTypeIncludes(res, "text/plain") then Iteration(Results(PlainTextBlock(res.rawBody)), None)
        else Iteration([], Some(ResponseParsingError))
  }

  lemma StatusChecksAlwaysRecorded(res: Response)
    ensures |Default(res).checks| >= 3
    ensures Default(res).checks[..3] ==
      [CheckResult(StatusIs200, res.status == 200),
       CheckResult(ResponseTime, res.duration < 5000.0),
       CheckResult(ContentTypeIsJson, ContentTypeIncludes(res, "application/json"))]
  {
  }

  lemma OnlyStatus200IsParsed(res: Response)
    requires res.status != 200
    ensures Default(res) == Iteration(Results(StatusBlock(res)), None)
  {
  }

  /** "response is not empty" passes only when "response is string" does, and
      holds exactly for a non-empty string. */
  lemma NotEmptyImpliesString(data: Json)
    ensures var shape := Results(ShapeBlock(data));
      (shape[1].passed ==> shape[0].passed) && (shape[1].passed <==> data.JStr? && data.s != [])
  {
    if data.JStr? {
      Utf16LengthBounds(data.s);
    }
  }

  /** The format and length checks run exactly when the parsed body is a
      string. */
  lemma FormatChecksOnlyForStrings(res: Response)
    requires res.status == 200 && res.body.Some?
    ensures |Default(res).checks| == 7 <==> res.body.value.JStr?
    ensures |Default(res).checks| == 5 <==> !res.body.value.JStr?
    ensures Default(res).failure == None
  {
  }

  /** The format check reads only the first character: it holds exactly
      when that is a letter, a digit, '/', '-' or '_'. */
  lemma FormatMeaning(s: string)
    ensures Results(FormatBlock(s))[0].passed <==> |s| >= 1 && InvoiceNumberChar(s[0])
  {
    InvoiceNumberPatternFirstChar(s);
  }

  /** The length check bounds the UTF-16 length by 1 and 50; the number of
      characters then lies between 1 and 50, and equals the length when
      every character is in the Basic Multilingual Plane. */
  lemma LengthMeaning(s: string)
    ensures Results(FormatBlock(s))[1].passed ==> 1 <= |s| <= MaxLength
    ensures IsBmp(s) ==> (Results(FormatBlock(s))[1].passed <==> 1 <= |s| <= MaxLength)
  {
    Utf16LengthBounds(s);
  }

  /** An invoice number may continue with any characters once its first is
      accepted, and no tail rescues a rejected first character. */
  lemma FormatIgnoresTail(c: char, tail: string)
    ensures Results(FormatBlock([c] + tail))[0].passed <==> InvoiceNumberChar(c)
  {
    FormatMeaning([c] + tail);
    assert ([c] + tail)[0] == c;
  }

  /** When the body does not parse, a text/plain response is checked as raw
      text and the iteration goes on. */
  lemma PlainTextFallback(res: Response)
    requires res.status == 200 && res.body.None? && ContentTypeIncludes(res, "text/plain")
    ensures Default(res) ==
      Iteration(Results(StatusBlock(res)) +
                [CheckResult(PlainTextIsString, res.rawBody.Some?),
                 CheckResult(PlainTextIsNotEmpty, res.rawBody.Some? && Utf16Length(res.rawBody.value) > 0)],
                None)
  {
  }

  /** Any other unparsable 200 ends the iteration with `fail`. */
  lemma ParseFailureFails(res: Response)
    requires res.status == 200 && res.body.None? && !ContentTypeIncludes(res, "text/plain")
    ensures Default(res) == Iteration(Results(StatusBlock(res)), Some(ResponseParsingError))
  {
  }
}
