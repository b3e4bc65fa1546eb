/** The invoices list test: GET /Invoices, three response checks, the array
    checks, five checks on the first invoice, and a check of that invoice's
    nested lines when it has a list of them. The date, amount, enumeration
    and line checks are shared with the invoice-by-id test. */
module InvoicesTest {
  import opened Wrappers
  import opened JsValue
  import opened K6
  import Env
  import Common

  const Url := Common.GetUrl("/Invoices")

  /** The request goes to this endpoint on the production host. */
  lemma RequestUrl()
    ensures Url[..|Env.CurrentHost|] == "https://maf.sdet.pl/api"
    ensures Url[|Env.CurrentHost|..] == "/Invoices"
  {
    Env.Tables();
  }

  // The check names, as k6 reports them.
  const StatusIs200 := "invoices: status is 200"
  const ResponseTime := "invoices: response time < 5000ms"
  const ContentTypeIsJson := "invoices: content-type is JSON"
  const ResponseIsArray := "invoices: response is array"
  const ArrayIsNotEmpty := "invoices: array is not empty"
  const ValidStructure := "invoices: first item has valid structure"
  const ValidPaymentStatus := "invoices: first item has valid payment status"
  const ValidPaymentMethod := "invoices: first item has valid payment method"
  const ValidDates := "invoices: first item has valid date formats"
  const ValidAmounts := "invoices: first item has valid amounts"
  const ValidInvoiceItems := "invoices: first item has valid invoice items"

  /** `new Date(v)` throws exactly when converting `v` to a primitive throws;
      a string that is not a date gives an invalid date, not an error. */
  predicate DateConstructs(v: Val) {
    ToPrimitive(v).Normal?
  }

  /** "valid date formats": the three constructions and the property reads
      sit inside the callback's own `try`, so the check never throws; it is
      false on a null or undefined item or when a construction throws. */
  function DatesCheck(item: Val): (r: Completion<bool>)
    ensures r.Normal?
    ensures IsNullish(item) ==> r == Normal(false)
  {
    if IsNullish(item) then Normal(false)
    else Normal(DateConstructs(Prop(item, "createdAt")) && DateConstructs(Prop(item, "issueDate")) &&
                DateConstructs(Prop(item, "dueDate")))
  }

  /** "valid amounts": `total >= 0 && paid >= 0 && paid <= total` with the
      operators' own conversions. */
  function AmountsCheck(item: Val): Completion<bool> {
    if IsNullish(item) then Thrown
    else
      var total := Prop(item, "totalAmount");
      var paid := Prop(item, "paidAmount");
      And(GreaterOrEqual(total, Num(0.0)), And(GreaterOrEqual(paid, Num(0.0)), LessOrEqual(paid, total)))
  }

  function PaymentStatusCheck(item: Val): Completion<bool> {
    match GetProp(item, "paymentStatus")
    case Thrown => Thrown
    case Normal(s) => Normal(Common.IsValidPaymentStatus(s))
  }

  function PaymentMethodCheck(item: Val): Completion<bool> {
    match GetProp(item, "paymentMethod")
    case Thrown => Thrown
    case Normal(m) => Normal(Common.IsValidPaymentMethod(m))
  }

  /** What `every` asks of one invoice line: a defined `id`, numeric
      `lineNumber`, `quantity` and `netPrice`, a string `description`, and,
      when `parentId` is given, an `invoiceId` strictly equal to it. */
  predicate LineFieldsOk(line: Json, parentId: Option<real>)
    requires line != JNull
  {
    var v := Defined(line);
    Prop(v, "id") != Undefined && IsNumber(Prop(v, "lineNumber")) && IsString(Prop(v, "description")) &&
    IsNumber(Prop(v, "quantity")) && IsNumber(Prop(v, "netPrice")) &&
    (parentId.Some? ==> Prop(v, "invoiceId") == Num(parentId.value))
  }

  /** The `every` callback: reading `id` of a null line throws. */
  function LineCheck(line: Json, parentId: Option<real>): Completion<bool> {
    if line == JNull then Thrown else Normal(LineFieldsOk(line, parentId))
  }

  /** `lines.every(...)`: stops at the first line that fails or throws. */
  function Every(lines: seq<Json>, parentId: Option<real>): Completion<bool> {
    if lines == [] then Normal(true)
    else And(LineCheck(lines[0], parentId), Every(lines[1..], parentId))
  }

  /** "valid invoice items": an empty list passes, otherwise `every`. */
  function InvoiceItemsCheck(items: seq<Json>, parentId: Option<real>): Completion<bool> {
    if |items| == 0 then Normal(true) else Every(items, parentId)
  }

  /** `x.invoiceItems && Array.isArray(x.invoiceItems)`: the nested lines,
      when there is a list of them. */
  function NestedItems(x: Val): (r: Option<seq<Json>>)
    requires !IsNullish(x)
    ensures r.Some? <==> x.json.JObj? && "invoiceItems" in x.json.fields && x.json.fields["invoiceItems"].JArr?
  {
    var li := Prop(x, "invoiceItems");
    if Truthy(li) && IsArray(li) then Some(li.json.elems) else None
  }

  function StatusBlock(res: Response): seq<NamedCheck> {
    [NamedCheck(StatusIs200, Normal(res.status == 200)),
     NamedCheck(ResponseTime, Normal(res.duration < 5000.0)),
     NamedCheck(ContentTypeIsJson, Normal(ContentTypeIncludes(res, "application/json")))]
  }

  function ShapeBlock(data: Json): seq<NamedCheck> {
    [NamedCheck(ResponseIsArray, Normal(data.JArr?)),
     NamedCheck(ArrayIsNotEmpty, Normal(IsNonEmptyArray(data)))]
  }

  function FirstInvoiceBlock(item: Json): seq<NamedCheck> {
    var v := Defined(item);
    [NamedCheck(ValidStructure, Normal(Common.CheckInvoiceStructure(v))),
     NamedCheck(ValidPaymentStatus, PaymentStatusCheck(v)),
     NamedCheck(ValidPaymentMethod, PaymentMethodCheck(v)),
     NamedCheck(ValidDates, DatesCheck(v)),
     NamedCheck(ValidAmounts, AmountsCheck(v))]
  }

  function ItemsBlock(items: seq<Json>): seq<NamedCheck> {
    [NamedCheck(ValidInvoiceItems, InvoiceItemsCheck(items, None))]
  }

  /** The default function: the response checks always; on a 200 the body
      checks, the first-invoice checks when the array is not empty, and the
      nested-lines check when the first invoice has a list of lines. A parse
      failure or a check that throws ends the iteration with `fail`. */
  function Default(res: Response): Iteration {
    var body := BodyChecks(res);
    Iteration(Results(StatusBlock(res)) + body.checks, body.failure)
  }

  /** What `Default` records after the response checks. */
  function BodyChecks(res: Response): Iteration {
    if res.status != 200 then Iteration([], None)
    else
      match res.body
      case None => Iteration([], Some(JsonParsingError))
      case Some(data) => ParsedChecks(data)
  }

  /** The checks on a parsed body. */
  function ParsedChecks(data: Json): Iteration {
    var shape := Results(ShapeBlock(data));
    if !IsNonEmptyArray(data) then Iteration(shape, None)
    else
      var first := FirstInvoiceChecks(data.elems[0]);
      Iteration(shape + first.checks, first.failure)
  }

  /** The checks on the first invoice and on its nested lines. */
  function FirstInvoiceChecks(item: Json): Iteration {
    var first := Record(FirstInvoiceBlock(item));
    if first.threw || item == JNull then Iteration(first.results, Some(JsonParsingError))
    else
      match NestedItems(Defined(item))
      case None => Iteration(first.results, None)
      case Some(items) =>
        var nested := Record(ItemsBlock(items));
        Iteration(first.results + nested.results, if nested.threw then Some(JsonParsingError) else None)
  }

  /** On numbers the amounts check is the ordering `0 <= paid <= total`. */
  lemma AmountsOnNumbers(m: map<string, Json>, total: real, paid: real)
    requires "totalAmount" in m && m["totalAmount"] == JNum(total)
    requires "paidAmount" in m && m["paidAmount"] == JNum(paid)
    ensures AmountsCheck(Defined(JObj(m))) == Normal(0.0 <= paid <= total)
  {
    NumericComparisons(total, 0.0);
    NumericComparisons(paid, 0.0);
    NumericComparisons(paid, total);
  }

  /** `null` converts to 0, so a null paid amount passes against a
      non-negative total, while a missing one fails. */
  lemma NullAndMissingPaidAmount(m: map<string, Json>, total: real)
    requires "totalAmount" in m && m["totalAmount"] == JNum(total) && 0.0 <= total
    ensures AmountsCheck(Defined(JObj(m["paidAmount" := JNull]))) == Normal(true)
    ensures AmountsCheck(Defined(JObj(m - {"paidAmount"}))) == Normal(false)
  {
    NumericComparisons(total, 0.0);
    NullAndUndefinedAgainstZero();
  }

  /** The date check holds exactly when none of the three fields holds an
      object with its own `toString`; a string that is no date passes. */
  lemma DatesCheckMeaning(item: Val)
    requires !IsNullish(item)
    ensures DatesCheck(item) == Normal(forall k :: k in ["createdAt", "issueDate", "dueDate"] ==>
              !(Prop(item, k).Defined? && HasToStringKey(Prop(item, k).json)))
  {
    forall k | k in ["createdAt", "issueDate", "dueDate"] && Prop(item, k).Defined? {
      ToPrimitiveThrowsOnlyOnToStringKey(Prop(item, k).json);
    }
  }

  /** An invoice that passes the structure check has string dates, and so
      passes the date check. */
  lemma DatesPassOnWellFormedInvoice(item: Val)
    requires Common.CheckInvoiceStructure(item)
    ensures DatesCheck(item) == Normal(true)
  {
    Common.InvoiceStructureMeaning(item);
    DatesCheckMeaning(item);
  }

  /** The date check is not always true: an object with its own `toString`
      makes the construction throw. */
  lemma DatesCheckCanFail(m: map<string, Json>)
    ensures DatesCheck(Defined(JObj(m["createdAt" := JObj(map["toString" := JStr("x")])]))) == Normal(false)
  {
  }

  /** `every` is true exactly when every line is non-null and has the fields
      it asks for; it can only throw on a null line. */
  lemma {:induction false} EveryMeaning(lines: seq<Json>, parentId: Option<real>)
    ensures Every(lines, parentId) == Normal(true) <==>
            forall i :: 0 <= i < |lines| ==> lines[i] != JNull && LineFieldsOk(lines[i], parentId)
    ensures Every(lines, parentId).Thrown? ==> exists i :: 0 <= i < |lines| && lines[i] == JNull
  {
    if lines != [] {
      EveryMeaning(lines[1..], parentId);
      assert forall i :: 1 <= i < |lines| ==> lines[1..][i - 1] == lines[i];
      if Every(lines[1..], parentId).Thrown? && Every(lines, parentId).Thrown? && lines[0] != JNull {
        var i :| 0 <= i < |lines[1..]| && lines[1..][i] == JNull;
        assert lines[i + 1] == JNull;
      }
    }
  }

  /** A line that passes the invoice-line structure check passes `every`'s
      test, and also its parent-id test when its `invoiceId` is that id. */
  lemma WellFormedLinePasses(line: Json, parentId: real)
    requires Common.CheckInvoiceItemStructure(Defined(line))
    ensures line != JNull && LineFieldsOk(line, None)
    ensures line.fields["invoiceId"] == JNum(parentId) ==> LineFieldsOk(line, Some(parentId))
  {
    Common.InvoiceItemStructureMeaning(Defined(line));
  }

  lemma StatusChecksAlwaysRecorded(res: Response)
    ensures |Default(res).checks| >= 3
    ensures Default(res).checks[..3] ==
      [CheckResult(StatusIs200, res.status == 200),
       CheckResult(ResponseTime, res.duration < 5000.0),
       CheckResult(ContentTypeIsJson, ContentTypeIncludes(res, "application/json"))]
  {
  }

  lemma OnlyStatus200IsParsed(res: Response)
    requires res.status != 200
    ensures Default(res) == Iteration(Results(StatusBlock(res)), None)
  {
  }

  lemma ParseFailureFails(res: Response)
    requires res.status == 200 && res.body.None?
    ensures Default(res) == Iteration(Results(StatusBlock(res)), Some(JsonParsingError))
  {
  }

  /** Only the first invoice is examined. */
  lemma OnlyFirstInvoiceExamined(res: Response, a: seq<Json>, b: seq<Json>)
    requires res.status == 200 && |a| > 0 && |b| > 0 && a[0] == b[0]
    ensures Default(WithBody(res, JArr(a))) == Default(WithBody(res, JArr(b)))
  {
    assert FirstInvoiceChecks(a[0]) == FirstInvoiceChecks(b[0]);
    assert ParsedChecks(JArr(a)) == ParsedChecks(JArr(b));
  }

  /** The nested-lines check runs exactly when the first invoice has a list
      of lines; it is then the last check, true exactly when every line
      passes (an empty list passes). */
  lemma NestedLinesCheck(res: Response, m: map<string, Json>, rest: seq<Json>)
    requires res.status == 200 && res.body == Some(JArr([JObj(m)] + rest))
    requires !Record(FirstInvoiceBlock(JObj(m))).threw
    ensures |Default(res).checks| == 11 <==> "invoiceItems" in m && m["invoiceItems"].JArr?
    ensures "invoiceItems" in m && m["invoiceItems"].JArr? ==>
      var lines := m["invoiceItems"].elems;
      Default(res).checks[10] ==
        CheckResult(ValidInvoiceItems,
                    forall i :: 0 <= i < |lines| ==> lines[i] != JNull && LineFieldsOk(lines[i], None))
  {
    var data := JArr([JObj(m)] + rest);
    assert data.elems[0] == JObj(m);
    FirstInvoiceIteration(res, data);
    NestedLines(m);
    assert |Results(StatusBlock(res)) + Results(ShapeBlock(data))| == 5;
  }

  /** After five first-invoice checks that do not throw, the nested check is
      added exactly when there is a list of lines. */
  lemma NestedLines(m: map<string, Json>)
    requires !Record(FirstInvoiceBlock(JObj(m))).threw
    ensures |FirstInvoiceChecks(JObj(m)).checks| == 6 <==> "invoiceItems" in m && m["invoiceItems"].JArr?
    ensures "invoiceItems" in m && m["invoiceItems"].JArr? ==>
      var lines := m["invoiceItems"].elems;
      FirstInvoiceChecks(JObj(m)).checks[5] ==
        CheckResult(ValidInvoiceItems,
                    forall i :: 0 <= i < |lines| ==> lines[i] != JNull && LineFieldsOk(lines[i], None))
  {
    assert |Record(FirstInvoiceBlock(JObj(m))).results| == 5;
    if "invoiceItems" in m && m["invoiceItems"].JArr? {
      EveryMeaning(m["invoiceItems"].elems, None);
    }
  }

  /** A fast 200 with a JSON content type passes the three response checks. */
  lemma StatusChecksPass(res: Response)
    requires res.status == 200 && res.duration < 5000.0 && ContentTypeIncludes(res, "application/json")
    ensures AllPassed(Results(StatusBlock(res)))
  {
  }

  /** A well-formed invoice with valid enumerations and ordered amounts
      passes the five first-invoice checks without throwing. */
  lemma WellFormedInvoiceChecks(m: map<string, Json>)
    requires Common.CheckInvoiceStructure(Defined(JObj(m)))
    requires Common.IsValidPaymentStatus(Defined(m["paymentStatus"]))
    requires Common.IsValidPaymentMethod(Defined(m["paymentMethod"]))
    requires 0.0 <= m["paidAmount"].n <= m["totalAmount"].n
    ensures var first := Record(FirstInvoiceBlock(JObj(m)));
      !first.threw && |first.results| == 5 && AllPassed(first.results)
  {
    var v := Defined(JObj(m));
    var block := FirstInvoiceBlock(JObj(m));
    Common.InvoiceStructureMeaning(v);
    assert block[3].outcome == Normal(true) by {
      DatesPassOnWellFormedInvoice(v);
    }
    assert block[4].outcome == Normal(true) by {
      AmountsOnNumbers(m, m["totalAmount"].n, m["paidAmount"].n);
    }
    RecordAllTrue(block);
  }

  /** On a 200 with a non-empty array the iteration is the response checks,
      the two array checks, then the first invoice's checks. */
  lemma FirstInvoiceIteration(res: Response, data: Json)
    requires res.status == 200 && res.body == Some(data) && IsNonEmptyArray(data)
    ensures Default(res).checks ==
            Results(StatusBlock(res)) + Results(ShapeBlock(data)) + FirstInvoiceChecks(data.elems[0]).checks
    ensures Default(res).failure == FirstInvoiceChecks(data.elems[0]).failure
  {
  }

  /** A fast JSON 200 whose first invoice passes those checks and has no
      list of lines passes all ten checks, and the iteration completes. */
  lemma WellFormedInvoicePasses(res: Response, m: map<string, Json>, rest: seq<Json>)
    requires res.status == 200 && res.duration < 5000.0 && ContentTypeIncludes(res, "application/json")
    requires res.body == Some(JArr([JObj(m)] + rest))
    requires Common.CheckInvoiceStructure(Defined(JObj(m)))
    requires Common.IsValidPaymentStatus(Defined(m["paymentStatus"]))
    requires Common.IsValidPaymentMethod(Defined(m["paymentMethod"]))
    requires 0.0 <= m["paidAmount"].n <= m["totalAmount"].n
    requires "invoiceItems" !in m
    ensures Default(res).failure == None && |Default(res).checks| == 10
    ensures AllPassed(Default(res).checks)
  {
    var data := JArr([JObj(m)] + rest);
    assert data.elems[0] == JObj(m);
    FirstInvoiceIteration(res, data);
    WellFormedInvoiceChecks(m);
    assert FirstInvoiceChecks(JObj(m)).checks == Record(FirstInvoiceBlock(JObj(m))).results;
    StatusChecksPass(res);
    var status := Results(StatusBlock(res));
    var shape := Results(ShapeBlock(data));
    assert AllPassed(shape);
    AllPassedAppend(status, shape);
    AllPassedAppend(status + shape, FirstInvoiceChecks(JObj(m)).checks);
  }
}
