/** The helpers shared by every scenario: URL and header construction, the
    structure validators of the three entities and the enumeration
    validators. Each validator is a total predicate: it returns a boolean for
    every value, a JSON one or `undefined`, and never throws. */
module Common {
  import opened Wrappers
  import opened JsValue
  import Env

  /** `${CURRENT_HOST}${path}` */
  function GetUrl(path: string): (url: string)
    ensures |url| == |Env.CurrentHost| + |path|
    ensures url[..|Env.CurrentHost|] == Env.CurrentHost
    ensures url[|Env.CurrentHost|..] == path
  {
    Env.CurrentHost + path
  }

  /** How a template literal renders a member a plain object inherits from
      `Object.prototype`: a native function, or the prototype object itself. */
  function InheritedMemberText(key: string): string
    requires key in ObjectPrototypeKeys
  {
    if key == "__proto__" then "[object Object]"
    else if key == "constructor" then "function Object() { [native code] }"
    else "function " + key + "() { [native code] }"
  }

  /** `${TOKENS[role]}`: the role's token, or the text of what the lookup
      finds instead. */
  function TokenText(role: string): string {
    match LookupMember(Env.Tokens, role)
    case Own(t) => t
    case Inherited => InheritedMemberText(role)
    case Absent => "undefined"
  }

  /** `getHeaders(role = 'USER')`; None is a call without an argument. */
  function GetHeaders(role: Option<string>): (h: map<string, string>)
    ensures h.Keys == {"Accept", "Content-Type", "Authorization"}
    ensures h["Accept"] == "application/json" && h["Content-Type"] == "application/json"
    ensures role.None? ==> h["Authorization"] == "Bearer " + Env.Tokens["USER"]
    ensures role.Some? && role.value in Env.Tokens ==> h["Authorization"] == "Bearer " + Env.Tokens[role.value]
    ensures role.Some? && role.value !in Env.Tokens && role.value !in ObjectPrototypeKeys ==>
      h["Authorization"] == "Bearer undefined"
  {
    var r := if role.Some? then role.value else "USER";
    map["Accept" := "application/json",
        "Content-Type" := "application/json",
        "Authorization" := "Bearer " + TokenText(r)]
  }

  /** The header value of the role every scenario uses. */
  lemma DefaultRoleIsUser()
    ensures GetHeaders(None) == GetHeaders(Some("USER"))
    ensures GetHeaders(Some("ADMIN"))["Authorization"] == "Bearer your-admin-token-here"
  {
    assert TokenText("USER") == Env.Tokens["USER"];
    assert Env.Tokens["ADMIN"] == "your-admin-token-here";
  }

  predicate HasNumberField(m: map<string, Json>, key: string) {
    key in m && m[key].JNum?
  }

  predicate HasStringField(m: map<string, Json>, key: string) {
    key in m && m[key].JStr?
  }

  /** Present, and either null or a string. */
  predicate HasNullableStringField(m: map<string, Json>, key: string) {
    key in m && (m[key] == JNull || m[key].JStr?)
  }

  /** `x.key !== undefined && typeof x.key === kind` */
  predicate HasTyped(x: Val, key: string, kind: string)
    requires !IsNullish(x) && key in FieldKeys
  {
    Prop(x, key) != Undefined && TypeOf(Prop(x, key)) == kind
  }

  /** `x.key === null || typeof x.key === "string"` */
  predicate NullOrString(x: Val, key: string)
    requires !IsNullish(x) && key in FieldKeys
  {
    Prop(x, key) == Defined(JNull) || TypeOf(Prop(x, key)) == "string"
  }

  const ContractorStringFields: seq<string> :=
    ["createdAt", "name", "firstName", "lastName", "email", "taxId", "street",
     "buildingNumber", "apartmentNumber", "city", "postalCode"]

  function CheckContractorStructure(c: Val): (r: bool)
    ensures !Truthy(c) ==> !r
  {
    Truthy(c) &&
    HasTyped(c, "id", "number") &&
    HasTyped(c, "createdAt", "string") &&
    HasTyped(c, "name", "string") &&
    HasTyped(c, "firstName", "string") &&
    HasTyped(c, "lastName", "string") &&
    HasTyped(c, "email", "string") &&
    HasTyped(c, "taxId", "string") &&
    HasTyped(c, "street", "string") &&
    HasTyped(c, "buildingNumber", "string") &&
    HasTyped(c, "apartmentNumber", "string") &&
    HasTyped(c, "city", "string") &&
    HasTyped(c, "postalCode", "string")
  }

  const InvoiceNumberFields: seq<string> := ["id", "totalAmount", "paidAmount", "contractorId"]
  const InvoiceStringFields: seq<string> := ["createdAt", "issueDate", "paymentStatus", "dueDate", "paymentMethod"]
  const InvoiceNullableFields: seq<string> := ["number", "description"]

  function CheckInvoiceStructure(i: Val): (r: bool)
    ensures !Truthy(i) ==> !r
  {
    Truthy(i) &&
    HasTyped(i, "id", "number") &&
    HasTyped(i, "createdAt", "string") &&
    NullOrString(i, "number") &&
    HasTyped(i, "issueDate", "string") &&
    HasTyped(i, "totalAmount", "number") &&
    HasTyped(i, "paymentStatus", "string") &&
    HasTyped(i, "dueDate", "string") &&
    HasTyped(i, "paidAmount", "number") &&
    NullOrString(i, "description") &&
    HasTyped(i, "contractorId", "number") &&
    HasTyped(i, "paymentMethod", "string")
  }

  const ItemNumberFields: seq<string> := ["id", "lineNumber", "quantity", "netPrice", "invoiceId"]
  const ItemStringFields: seq<string> := ["description", "unit", "vatRate"]

  function CheckInvoiceItemStructure(item: Val): (r: bool)
    ensures !Truthy(item) ==> !r
  {
    Truthy(item) &&
    HasTyped(item, "id", "number") &&
    HasTyped(item, "lineNumber", "number") &&
    HasTyped(item, "description", "string") &&
    HasTyped(item, "quantity", "number") &&
    HasTyped(item, "unit", "string") &&
    HasTyped(item, "vatRate", "string") &&
    HasTyped(item, "netPrice", "number") &&
    HasTyped(item, "invoiceId", "number")
  }

  /** On an object, the typed-presence tests are the JSON shape tests. */
  lemma TypedFieldsOfObject(m: map<string, Json>, key: string)
    requires key in FieldKeys
    ensures HasTyped(Defined(JObj(m)), key, "number") <==> HasNumberField(m, key)
    ensures HasTyped(Defined(JObj(m)), key, "string") <==> HasStringField(m, key)
    ensures NullOrString(Defined(JObj(m)), key) <==> HasNullableStringField(m, key)
  {
  }

  /** A truthy value that is not an object has none of the fields. */
  lemma NoFieldsOutsideObjects(x: Val, key: string)
    requires Truthy(x) && !x.json.JObj? && key in FieldKeys
    ensures Prop(x, key) == Undefined
  {
  }

  /** A contractor passes exactly when it is an object whose `id` is a number
      and whose eleven other fields are all present strings. */
  lemma ContractorStructureMeaning(c: Val)
    ensures CheckContractorStructure(c) <==>
      c.Defined? && c.json.JObj? && HasNumberField(c.json.fields, "id") &&
      forall k :: k in ContractorStringFields ==> HasStringField(c.json.fields, k)
  {
    if c.Defined? && c.json.JObj? {
      var m := c.json.fields;
      forall k | k in ContractorStringFields || k == "id" {
        TypedFieldsOfObject(m, k);
      }
    } else if Truthy(c) {
      NoFieldsOutsideObjects(c, "id");
    }
  }

  /** An invoice passes exactly when it is an object whose four amount and
      identifier fields are numbers, whose five text fields are strings, and
      whose `number` and `description` are present and null or strings. */
  lemma InvoiceStructureMeaning(i: Val)
    ensures CheckInvoiceStructure(i) <==>
      i.Defined? && i.json.JObj? &&
      (forall k :: k in InvoiceNumberFields ==> HasNumberField(i.json.fields, k)) &&
      (forall k :: k in InvoiceStringFields ==> HasStringField(i.json.fields, k)) &&
      (forall k :: k in InvoiceNullableFields ==> HasNullableStringField(i.json.fields, k))
  {
    if i.Defined? && i.json.JObj? {
      var m := i.json.fields;
      forall k | k in InvoiceNumberFields || k in InvoiceStringFields || k in InvoiceNullableFields {
        TypedFieldsOfObject(m, k);
      }
    } else if Truthy(i) {
      NoFieldsOutsideObjects(i, "id");
    }
  }

  /** An invoice line passes exactly when it is an object whose five numeric
      fields are numbers and whose three text fields are strings. */
  lemma InvoiceItemStructureMeaning(item: Val)
    ensures CheckInvoiceItemStructure(item) <==>
      item.Defined? && item.json.JObj? &&
      (forall k :: k in ItemNumberFields ==> HasNumberField(item.json.fields, k)) &&
      (forall k :: k in ItemStringFields ==> HasStringField(item.json.fields, k))
  {
    if item.Defined? && item.json.JObj? {
      var m := item.json.fields;
      forall k | k in ItemNumberFields || k in ItemStringFields {
        TypedFieldsOfObject(m, k);
      }
    } else if Truthy(item) {
      NoFieldsOutsideObjects(item, "id");
    }
  }

  /** An absent `number` or `description` fails the invoice check although
      null passes: the source compares with null, not undefined. */
  lemma InvoiceNullableFieldsMustBePresent(m: map<string, Json>, key: string)
    requires key in InvoiceNullableFields
    ensures !CheckInvoiceStructure(Defined(JObj(m - {key})))
    ensures CheckInvoiceStructure(Defined(JObj(m))) ==> CheckInvoiceStructure(Defined(JObj(m[key := JNull])))
  {
    InvoiceStructureMeaning(Defined(JObj(m - {key})));
    assert !HasNullableStringField(m - {key}, key);
    InvoiceStructureMeaning(Defined(JObj(m)));
    InvoiceStructureMeaning(Defined(JObj(m[key := JNull])));
  }

  const PaymentStatuses: seq<string> := ["Paid", "PartiallyPaid", "Unpaid", "Overdue"]
  const PaymentMethods: seq<string> := ["Cash", "Transfer", "Card", "Other"]
  const Units: seq<string> := ["l", "szt", "m", "kg"]
  const VatRates: seq<string> := ["Zero", "Three", "Five", "Eight", "TwentyThree"]

  function IsValidPaymentStatus(status: Val): (r: bool)
    ensures r <==> exists s :: s in {"Paid", "PartiallyPaid", "Unpaid", "Overdue"} && status == Str(s)
  {
    IncludesString(PaymentStatuses, status)
  }

  function IsValidPaymentMethod(paymentMethod: Val): (r: bool)
    ensures r <==> exists s :: s in {"Cash", "Transfer", "Card", "Other"} && paymentMethod == Str(s)
  {
    IncludesString(PaymentMethods, paymentMethod)
  }

  function IsValidUnit(unit: Val): (r: bool)
    ensures r <==> exists s :: s in {"l", "szt", "m", "kg"} && unit == Str(s)
  {
    IncludesString(Units, unit)
  }

  function IsValidVatRate(vatRate: Val): (r: bool)
    ensures r <==> exists s :: s in {"Zero", "Three", "Five", "Eight", "TwentyThree"} && vatRate == Str(s)
  {
    IncludesString(VatRates, vatRate)
  }

  /** The enumerations compare case-sensitively. */
  lemma EnumerationsAreCaseSensitive()
    ensures !IsValidPaymentStatus(Str("paid")) && !IsValidPaymentMethod(Str("CASH"))
    ensures !IsValidUnit(Str("KG")) && !IsValidVatRate(Str("zero"))
  {
    assert "paid" !in PaymentStatuses;
    assert "CASH" !in PaymentMethods;
    assert "KG" !in Units;
    assert "zero" !in VatRates;
  }
}
