/** The JavaScript values a parsed JSON body can produce, and the operations
    of the language that the validators and checks apply to them: truthiness,
    `typeof`, property reads, conversion to a primitive, to text and to a
    number, the relational operators and `&&`. Every operation that can throw
    in JavaScript returns a `Completion`. */
module JsValue {
  import opened Wrappers
  import opened JsText
  import opened JsNumber

  datatype Json =
    | JNull
    | JBool(b: bool)
    | JNum(n: real)
    | JStr(s: string)
    | JArr(elems: seq<Json>)
    | JObj(fields: map<string, Json>)

  /** A property read may also find nothing: `undefined` is not a JSON value. */
  datatype Val = Undefined | Defined(json: Json)

  /** The outcome of evaluating an expression: a value, or an exception. */
  datatype Completion<+T> = Normal(value: T) | Thrown

  /** The result of ToPrimitive. */
  datatype Prim = PUndefined | PNull | PBool(b: bool) | PNum(n: real) | PStr(s: string)

  /** Own properties of `Object.prototype` (with those of Annex B): a plain
      object read at one of these names finds an inherited member. */
  const ObjectPrototypeKeys: set<string> :=
    {"constructor", "__proto__", "hasOwnProperty", "isPrototypeOf", "propertyIsEnumerable",
     "toLocaleString", "toString", "valueOf", "__defineGetter__", "__defineSetter__",
     "__lookupGetter__", "__lookupSetter__"}

  /** The entity field names the validators and checks read. No prototype of
      a JSON value (object, array, string, number, boolean) has a member of
      any of these names, so a read finds an own property or nothing. */
  const FieldKeys: set<string> :=
    {"id", "createdAt", "name", "firstName", "lastName", "email", "taxId", "street",
     "buildingNumber", "apartmentNumber", "city", "postalCode", "number", "issueDate",
     "totalAmount", "paymentStatus", "dueDate", "paidAmount", "description", "contractorId",
     "paymentMethod", "invoiceItems", "lineNumber", "quantity", "unit", "vatRate", "netPrice",
     "invoiceId"}

  function Num(n: real): Val {
    Defined(JNum(n))
  }

  function Str(s: string): Val {
    Defined(JStr(s))
  }

  predicate IsNullish(v: Val) {
    v == Undefined || v == Defined(JNull)
  }

  /** ToBoolean: `!v` is `!Truthy(v)`. */
  predicate Truthy(v: Val) {
    match v
    case Undefined => false
    case Defined(j) =>
      match j
      case JNull => false
      case JBool(b) => b
      case JNum(n) => n != 0.0
      case JStr(s) => s != []
      case JArr(_) => true
      case JObj(_) => true
  }

  function TypeOf(v: Val): string {
    match v
    case Undefined => "undefined"
    case Defined(j) =>
      match j
      case JNull => "object"
      case JBool(_) => "boolean"
      case JNum(_) => "number"
      case JStr(_) => "string"
      case JArr(_) => "object"
      case JObj(_) => "object"
  }

  predicate IsNumber(v: Val) {
    TypeOf(v) == "number"
  }

  predicate IsString(v: Val) {
    TypeOf(v) == "string"
  }

  /** `Array.isArray(v)`. */
  predicate IsArray(v: Val) {
    v.Defined? && v.json.JArr?
  }

  /** `v.key` on a value that is neither null nor undefined. */
  function Prop(v: Val, key: string): Val
    requires !IsNullish(v)
    requires key in FieldKeys || key == "length"
  {
    match v.json
    case JStr(s) => if key == "length" then Num(Utf16Length(s) as real) else Undefined
    case JArr(a) => if key == "length" then Num(|a| as real) else Undefined
    case JObj(m) => if key in m then Defined(m[key]) else Undefined
    case _ => Undefined
  }

  /** `v.key`: reading a property of null or undefined is a TypeError. */
  function GetProp(v: Val, key: string): (r: Completion<Val>)
    requires key in FieldKeys || key == "length"
    ensures r.Thrown? <==> IsNullish(v)
  {
    if IsNullish(v) then Thrown else Normal(Prop(v, key))
  }

  /** ToPrimitive on a JSON value. A JSON object never has a callable
      `valueOf` or `toString` of its own: an own `toString` key hides the
      inherited one and the conversion throws; otherwise it yields
      "[object Object]". An array converts through `join`. */
  function JsonToPrimitive(j: Json): Completion<Prim>
    decreases j
  {
    match j
    case JNull => Normal(PNull)
    case JBool(b) => Normal(PBool(b))
    case JNum(n) => Normal(PNum(n))
    case JStr(s) => Normal(PStr(s))
    case JArr(a) =>
      (match Join(a)
       case Normal(t) => Normal(PStr(t))
       case Thrown => Thrown)
    case JObj(m) => if "toString" in m then Thrown else Normal(PStr("[object Object]"))
  }

  /** `a.join(",")`: a null element contributes empty text, any other element
      its string conversion. */
  function Join(a: seq<Json>): Completion<string>
    decreases a
  {
    if a == [] then Normal("")
    else
      var first :=
        if a[0] == JNull then Normal("")
        else match JsonToPrimitive(a[0])
             case Normal(p) => Normal(PrimToString(p))
             case Thrown => Thrown;
      match first
      case Thrown => Thrown
      case Normal(t) =>
        if |a| == 1 then Normal(t)
        else
          match Join(a[1..])
          case Normal(u) => Normal(t + "," + u)
          case Thrown => Thrown
  }

  function ToPrimitive(v: Val): Completion<Prim> {
    match v
    case Undefined => Normal(PUndefined)
    case Defined(j) => JsonToPrimitive(j)
  }

  function PrimToString(p: Prim): string {
    match p
    case PUndefined => "undefined"
    case PNull => "null"
    case PBool(b) => if b then "true" else "false"
    case PNum(n) => NumberToString(Fin(n))
    case PStr(s) => s
  }

  /** ToString, as `RegExp.prototype.test` applies it to its argument. */
  function ToStringVal(v: Val): Completion<string> {
    match ToPrimitive(v)
    case Normal(p) => Normal(PrimToString(p))
    case Thrown => Thrown
  }

  function PrimToNumber(p: Prim): Num {
    match p
    case PUndefined => NaN
    case PNull => Fin(0.0)
    case PBool(b) => Fin(if b then 1.0 else 0.0)
    case PNum(n) => Fin(n)
    case PStr(s) => StringToNumber(s)
  }

  /** IsLessThan of ECMAScript: two strings compare by code units, anything
      else as numbers; None is the `undefined` a NaN produces. */
  function IsLessThan(x: Val, y: Val): Completion<Option<bool>> {
    match ToPrimitive(x)
    case Thrown => Thrown
    case Normal(px) =>
      match ToPrimitive(y)
      case Thrown => Thrown
      case Normal(py) =>
        if px.PStr? && py.PStr? then Normal(Some(UnitsLess(Utf16(px.s), Utf16(py.s))))
        else Normal(NumLess(PrimToNumber(px), PrimToNumber(py)))
  }

  /** `x > y` */
  function Greater(x: Val, y: Val): Completion<bool> {
    match IsLessThan(y, x)
    case Thrown => Thrown
    case Normal(r) => Normal(r == Some(true))
  }

  /** `x >= y` */
  function GreaterOrEqual(x: Val, y: Val): Completion<bool> {
    match IsLessThan(x, y)
    case Thrown => Thrown
    case Normal(r) => Normal(r == Some(false))
  }

  /** `x <= y` */
  function LessOrEqual(x: Val, y: Val): Completion<bool> {
    match IsLessThan(y, x)
    case Thrown => Thrown
    case Normal(r) => Normal(r == Some(false))
  }

  /** The truthiness of `a && b`: `b` is evaluated only when `a` completed
      with a truthy value. */
  function And(a: Completion<bool>, b: Completion<bool>): Completion<bool> {
    match a
    case Thrown => Thrown
    case Normal(x) => if x then b else Normal(false)
  }

  /** `list.includes(v)` for an array of string literals. */
  function IncludesString(list: seq<string>, v: Val): (r: bool)
    ensures r <==> v.Defined? && v.json.JStr? && v.json.s in list
  {
    if list == [] then false
    else v == Str(list[0]) || IncludesString(list[1..], v)
  }

  /** What `obj[key]` finds on a plain object literal. */
  datatype Member<T> = Own(value: T) | Inherited | Absent

  function LookupMember<T>(m: map<string, T>, key: string): (r: Member<T>)
    ensures r.Own? <==> key in m
    ensures r.Own? ==> r.value == m[key]
    ensures r.Inherited? <==> key !in m && key in ObjectPrototypeKeys
  {
    if key in m then Own(m[key])
    else if key in ObjectPrototypeKeys then Inherited
    else Absent
  }

  /** On two numbers the relational operators are the mathematical ones. */
  lemma NumericComparisons(a: real, b: real)
    ensures Greater(Num(a), Num(b)) == Normal(a > b)
    ensures GreaterOrEqual(Num(a), Num(b)) == Normal(a >= b)
    ensures LessOrEqual(Num(a), Num(b)) == Normal(a <= b)
  {
  }

  /** An array compared with zero is its joined text read as a number. */
  lemma JoinedArrayAgainstZero(a: seq<Json>, text: string, x: real)
    requires Join(a) == Normal(text) && StringToNumber(text) == Fin(x)
    ensures Greater(Defined(JArr(a)), Num(0.0)) == Normal(x > 0.0)
  {
  }

  /** A one-element array holding an integer compares with zero as that
      integer: `join` writes it out and ToNumber reads it back. */
  lemma IntegerArrayAgainstZero(i: int)
    ensures Greater(Defined(JArr([JNum(i as real)])), Num(0.0)) == Normal(i > 0)
  {
    var text := NumberToString(Fin(i as real));
    assert Join([JNum(i as real)]) == Normal(text);
    IntegerTextRoundTrip(i);
    JoinedArrayAgainstZero([JNum(i as real)], text, i as real);
  }

  /** Null converts to 0 and undefined to NaN, so `null >= 0` holds and
      `undefined >= 0` does not. */
  lemma NullAndUndefinedAgainstZero()
    ensures GreaterOrEqual(Defined(JNull), Num(0.0)) == Normal(true)
    ensures Greater(Defined(JNull), Num(0.0)) == Normal(false)
    ensures GreaterOrEqual(Undefined, Num(0.0)) == Normal(false)
    ensures LessOrEqual(Undefined, Num(0.0)) == Normal(false)
  {
  }

  /** Exactly an object with an own `toString` (or an array holding one)
      fails to convert; every other JSON value converts without throwing. */
  lemma {:induction false} ToPrimitiveThrowsOnlyOnToStringKey(j: Json)
    ensures JsonToPrimitive(j).Thrown? <==> HasToStringKey(j)
    decreases j
  {
    match j
    case JArr(a) => JoinThrowsOnlyOnToStringKey(a);
    case _ =>
  }

  lemma {:induction false} JoinThrowsOnlyOnToStringKey(a: seq<Json>)
    ensures Join(a).Thrown? <==> exists i :: 0 <= i < |a| && HasToStringKey(a[i])
    decreases a
  {
    if a != [] {
      ToPrimitiveThrowsOnlyOnToStringKey(a[0]);
      JoinThrowsOnlyOnToStringKey(a[1..]);
      if Join(a[1..]).Thrown? {
        var i :| 0 <= i < |a[1..]| && HasToStringKey(a[1..][i]);
        assert a[i + 1] == a[1..][i];
      }
      if exists i :: 1 <= i < |a| && HasToStringKey(a[i]) {
        var i :| 1 <= i < |a| && HasToStringKey(a[i]);
        assert a[1..][i - 1] == a[i];
      }
    }
  }

  /** Somewhere inside `j` an object has its own `toString` key. */
  predicate HasToStringKey(j: Json)
    decreases j
  {
    match j
    case JObj(m) => "toString" in m
    case JArr(a) => exists i :: 0 <= i < |a| && HasToStringKey(a[i])
    case _ => false
  }
}
