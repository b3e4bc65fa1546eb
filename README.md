# k6 API test suite: response validation, modelled in Dafny

The repository load-tests an invoicing REST API with k6. Each test file
requests one endpoint:
- the contractor list;
- the invoice list;
- the lines of invoice 1;
- contractor 1;
- invoice 1;
- the last invoice number.

`run-all.js` runs six lighter scenarios over the same endpoints side by side.

This project models the part of that suite that decides what a response is
worth. That part has four pieces:
- **Helpers.** The structure validators, the enumeration validators, URL and
  header construction (`helpers/common.js`).
- **Configuration.** The host, token and load-profile tables (`config/env.js`).
- **Options.** The profile lookup with its thresholds (`getOptions`,
  `getProfileSettings`, `options`).
- **Scenario bodies.** The body of every scenario function, which turns one
  HTTP response into the ordered list of named check results k6 records, and
  says whether the iteration ends with `fail`.

## How the model is built

Each scenario body is a pure function from a `Response` to an `Iteration`.
- **Response.** It holds the status, the duration, the `Content-Type` header,
  the parsed body (None when `res.json()` throws) and the raw body.
- **Iteration.** It holds the checks recorded, in order, and the message of
  the `fail` that ended the iteration, if any.
- **`check`.** It is `K6.Record`. It runs the callbacks of one block in order.
  When a callback throws, that check is recorded as failed, the exception
  leaves `check`, and the rest of the block does not run. In the
  per-endpoint tests that exception reaches the surrounding `catch` and
  becomes `fail("JSON parsing error")`.

The JavaScript semantics the callbacks depend on are modelled explicitly
(modules `JsValue`, `JsText`, `JsNumber`):
- truthiness and `typeof`;
- property reads, which throw on `null` and `undefined`;
- ToPrimitive, ToString and ToNumber;
- the relational operators, including string-against-string order on UTF-16
  code units;
- `&&`;
- `includes`;
- `length` in UTF-16 code units;
- the two regular expressions.

Three behaviours of the code as written follow from this modelling:
- **Date checks can fail.** The checks run `new Date(field)` inside their own
  `try`. A string that is not a date does not throw, so it passes. But a field
  holding an object with its own `toString` key makes the construction throw,
  and the check returns false. `InvoicesTest.DatesCheckCanFail` exhibits such
  a value.
- **`null` passes where missing fails.** `null >= 0` is true, so a null
  `paidAmount` passes the amounts check, while a missing one fails it.
- **"Response is object" in `run-all.js` accepts `null`.** It has no null
  test. The structure check that follows rejects `null`.

## Model

| member | source | states |
|---|---|---|
| Env.Tables | config/env.js:1-28 | requests go to the production host; exactly the USER and ADMIN roles have tokens; exactly LIGHT (5, 30s), MEDIUM (15, 2m) and HEAVY (50, 5m) exist; each profile has at least one user; the default profile is LIGHT |
| Common.GetUrl | helpers/common.js:3-5 | the URL is the current host followed by the path, with nothing inserted or removed |
| Common.GetHeaders | helpers/common.js:7-13 | there are exactly three headers; Accept and Content-Type are `application/json`; Authorization is `Bearer ` followed by the role's token; with no role it uses USER's token; an unknown role that is not an `Object.prototype` member gives `Bearer undefined` |
| Common.DefaultRoleIsUser | helpers/common.js:7-13 | calling without a role equals calling with USER; the ADMIN header carries the admin token |
| Common.CheckContractorStructure | helpers/common.js:20-36 | every falsy input is rejected |
| Common.CheckInvoiceStructure | helpers/common.js:38-53 | every falsy input is rejected |
| Common.CheckInvoiceItemStructure | helpers/common.js:55-67 | every falsy input is rejected |
| Common.TypedFieldsOfObject | helpers/common.js:23-34 | on an object, "defined and of type number/string" means the field is present with that JSON type, and "null or string" means present and null or a string |
| Common.NoFieldsOutsideObjects | helpers/common.js:21-34 | a truthy value that is not an object has none of the validated fields |
| Common.ContractorStructureMeaning | helpers/common.js:20-36 | the contractor check holds iff the value is an object, `id` is a number and the eleven other fields are present strings |
| Common.InvoiceStructureMeaning | helpers/common.js:38-53 | the invoice check holds iff the value is an object, the four numeric fields are numbers, the five text fields are strings, and `number` and `description` are present and null or strings |
| Common.InvoiceItemStructureMeaning | helpers/common.js:55-67 | the line check holds iff the value is an object, the five numeric fields are numbers and `description`, `unit` and `vatRate` are strings |
| Common.InvoiceNullableFieldsMustBePresent | helpers/common.js:43-49 | dropping `number` or `description` fails the invoice check; setting either to null keeps a passing invoice passing |
| Common.IsValidPaymentStatus | helpers/common.js:69-72 | true iff the value is one of the strings Paid, PartiallyPaid, Unpaid, Overdue |
| Common.IsValidPaymentMethod | helpers/common.js:74-77 | true iff the value is one of the strings Cash, Transfer, Card, Other |
| Common.IsValidUnit | helpers/common.js:79-82 | true iff the value is one of the strings l, szt, m, kg |
| Common.IsValidVatRate | helpers/common.js:84-87 | true iff the value is one of the strings Zero, Three, Five, Eight, TwentyThree |
| Common.EnumerationsAreCaseSensitive | helpers/common.js:69-87 | a differently cased value (`paid`, `CASH`, `KG`, `zero`) is rejected |
| JsValue.IncludesString | helpers/common.js:70-71 | `list.includes(v)` on string literals holds iff `v` is a string in the list |
| JsValue.LookupMember | helpers/common.js:11 | `TOKENS[role]` finds an own entry iff the role is a key, and an inherited member iff the role is an `Object.prototype` name that is not a key |
| JsValue.GetProp | tests/contractors_test.js:62 | reading a property throws exactly on null and undefined |
| JsValue.NumericComparisons | tests/invoices_test.js:75-77 | on two numbers `>`, `>=` and `<=` are the mathematical comparisons |
| JsValue.NullAndUndefinedAgainstZero | tests/invoices_test.js:75-77 | `null >= 0` holds and `null > 0` does not; undefined compares false both ways |
| JsValue.JoinedArrayAgainstZero | tests/invoice_items_test.js:67-68 | an array compared with zero by `>` is its joined text read as a number |
| JsValue.IntegerArrayAgainstZero | tests/invoice_items_test.js:67-68 | `[i] > 0` holds iff the integer `i` is positive |
| JsValue.ToPrimitiveThrowsOnlyOnToStringKey | tests/invoices_test.js:65-72 | converting a JSON value to a primitive throws iff an object inside it has its own `toString` key |
| JsValue.JoinThrowsOnlyOnToStringKey | tests/invoices_test.js:65-72 | joining an array throws iff one of its elements holds such an object |
| JsText.Utf16LengthBounds | tests/last_invoice_number_test.js:63-65 | `length` lies between the number of characters and twice it, and equals it iff every character is in the Basic Multilingual Plane |
| JsNumber.NumLess | tests/invoice_items_test.js:67-70 | `<` on numbers is undefined iff an operand is NaN, and otherwise is the order of the reals |
| JsNumber.PlainDigitsNumber | tests/invoice_items_test.js:67-70 | a non-empty decimal digit string, leading zeros included, converts to the number it denotes |
| JsNumber.NegativeDigitsNumber | tests/invoice_items_test.js:67-70 | a minus sign followed by digits converts to the negated number |
| JsNumber.IntegerTextRoundTrip | tests/invoices_test.js:75-77 | an integer written as text and read back is the same number |
| Patterns.EmailPatternCharacterization | tests/contractors_test.js:63 | the email pattern holds iff the text has no white space, exactly one `@` that is not first, and a `.` after it with text both before the dot and after it |
| Patterns.InvoiceNumberPatternFirstChar | tests/last_invoice_number_test.js:61 | the start-anchored invoice-number pattern holds iff the text is non-empty and its first character is a letter, a digit, `/`, `-` or `_` |
| K6.Record | tests/contractors_test.js:59-86 | each recorded check carries its callback's name and whether it returned true; the block throws iff a callback throws; then the throwing check is the last recorded, and all before it returned normally; otherwise every callback is recorded |
| K6.Results | tests/contractors_test.js:35-40 | a block that cannot throw records one result per callback, in order |
| K6.PlainObjectMeaning | tests/contractor_by_id_test.js:55-56 | "response is object" with its null test holds iff the value is a JSON object |
| K6.IdCheck | tests/contractor_by_id_test.js:66-67 | "has correct ID" throws iff the body is null; otherwise it holds iff the body is an object whose `id` is the requested number |
| TestOptions.ProfileName | tests/contractors_test.js:7 | an unset or empty PROFILE selects LIGHT; otherwise it is the variable's value |
| TestOptions.GetOptions | tests/contractors_test.js:6-17 | a known profile name gives that profile; an unknown name gives the default; an `Object.prototype` name gives no users or duration; the thresholds are always p(95)<5000 and rate<0.1 |
| TestOptions.OptionsProfiles | tests/contractors_test.js:6-17 | without PROFILE the test runs 5 users for 30s; any selected profile is one of the table's and has at least one user |
| ContractorsTest.NonEmptyStringField | tests/contractors_test.js:66 | a string field passes `f && f.length > 0` iff it is not empty |
| ContractorsTest.AllNonEmptyOnStrings | tests/contractors_test.js:65-76 | over string fields, the `&&` chain holds iff none of them is empty |
| ContractorsTest.NonEmptyFieldsMeaning | tests/contractors_test.js:65-76 | on a contractor whose ten fields are strings, the check holds iff none is empty |
| ContractorsTest.AllNonEmptyFrame | tests/contractors_test.js:65-76 | the chain reads only the keys it lists |
| ContractorsTest.NonEmptyFieldsIgnoreIdAndCreatedAt | tests/contractors_test.js:65-76 | changing `id` or `createdAt` never changes the non-empty check |
| ContractorsTest.EmailCheckMeaning | tests/contractors_test.js:61-64 | the check throws on a null item; it is false for a falsy email; for a string email it is the pattern |
| ContractorsTest.StatusChecksAlwaysRecorded | tests/contractors_test.js:35-40 | the status, response-time and content-type results come first, whatever the status |
| ContractorsTest.RequestUrl | tests/contractors_test.js:23 | the request goes to `https://maf.sdet.pl/api/Contractors`: the production host followed by the endpoint |
| ContractorsTest.OnlyStatus200IsParsed | tests/contractors_test.js:42 | any other status records the three response checks only, and the iteration completes |
| ContractorsTest.ParseFailureFails | tests/contractors_test.js:83-86 | an unparsable 200 ends with `fail("JSON parsing error")` after the response checks |
| ContractorsTest.NotEmptyImpliesArray | tests/contractors_test.js:47-50 | "array is not empty" passes only if "response is array" does, and the latter holds iff the body is an array |
| ContractorsTest.FirstItemChecksNeedNonEmptyArray | tests/contractors_test.js:56 | without a non-empty array exactly five checks are recorded, and the iteration completes |
| ContractorsTest.OnlyFirstItemExamined | tests/contractors_test.js:56-60 | two arrays with the same first element give the same iteration |
| ContractorsTest.NullItemChecks | tests/contractors_test.js:59-64 | a null first item fails the structure check and throws in the email check |
| ContractorsTest.NullFirstItemFails | tests/contractors_test.js:59-86 | with a null first element the last two checks are those two failures, and the iteration ends with `fail` |
| ContractorsTest.WellFormedContractorChecks | tests/contractors_test.js:59-77 | a well-formed contractor with non-empty fields and a matching email passes the three item checks without throwing |
| ContractorsTest.StatusChecksPass | tests/contractors_test.js:35-40 | a fast 200 with a JSON content type passes the three response checks |
| ContractorsTest.FirstItemIteration | tests/contractors_test.js:42-86 | on a non-empty array the record is response checks, then array checks, then item checks; the iteration fails iff an item check throws |
| ContractorsTest.WellFormedContractorPasses | tests/contractors_test.js:21-87 | a fast JSON 200 whose first contractor is well formed records eight checks, all passing, and completes |
| InvoicesTest.DatesCheck | tests/invoices_test.js:63-73 | the date check never throws, and is false for a null or undefined item |
| InvoicesTest.DatesCheckMeaning | tests/invoices_test.js:63-73 | the check holds iff none of the three date fields holds an object with its own `toString` key |
| InvoicesTest.DatesPassOnWellFormedInvoice | tests/invoices_test.js:63-73 | an invoice that passes the structure check passes the date check |
| InvoicesTest.DatesCheckCanFail | tests/invoices_test.js:63-73 | a `createdAt` object with its own `toString` key fails the date check |
| InvoicesTest.AmountsOnNumbers | tests/invoices_test.js:74-78 | on numeric amounts the check holds iff 0 <= paid <= total |
| InvoicesTest.NullAndMissingPaidAmount | tests/invoices_test.js:74-78 | a null paid amount passes against a non-negative total; a missing one fails |
| InvoicesTest.NestedItems | tests/invoices_test.js:85 | the nested-lines list exists iff the invoice is an object whose `invoiceItems` is an array |
| InvoicesTest.EveryMeaning | tests/invoices_test.js:87-96 | `every` is true iff each line is non-null and has a defined `id`, numeric `lineNumber`, `quantity` and `netPrice` and a string `description`; it throws only on a null line |
| InvoicesTest.WellFormedLinePasses | tests/invoices_test.js:89-95 | a line that passes the line structure check passes `every`'s test |
| InvoicesTest.StatusChecksAlwaysRecorded | tests/invoices_test.js:34-39 | the three response checks come first, whatever the status |
| InvoicesTest.RequestUrl | tests/invoices_test.js:22 | the request goes to `https://maf.sdet.pl/api/Invoices`: the production host followed by the endpoint |
| InvoicesTest.OnlyStatus200IsParsed | tests/invoices_test.js:41 | any other status records the response checks only |
| InvoicesTest.ParseFailureFails | tests/invoices_test.js:104-107 | an unparsable 200 ends with `fail("JSON parsing error")` |
| InvoicesTest.OnlyFirstInvoiceExamined | tests/invoices_test.js:54-57 | two arrays with the same first invoice give the same iteration |
| InvoicesTest.NestedLinesCheck | tests/invoices_test.js:85-97 | eleven checks are recorded iff the first invoice has an array of lines; the eleventh holds iff every line passes `every`'s test (an empty list passes) |
| InvoicesTest.NestedLines | tests/invoices_test.js:85-97 | the nested check follows the five first-invoice checks iff there is an array of lines |
| InvoicesTest.StatusChecksPass | tests/invoices_test.js:34-39 | a fast JSON 200 passes the response checks |
| InvoicesTest.WellFormedInvoiceChecks | tests/invoices_test.js:57-79 | a well-formed invoice with valid enumerations and ordered amounts passes the five first-invoice checks without throwing |
| InvoicesTest.FirstInvoiceIteration | tests/invoices_test.js:41-107 | on a non-empty array the record is response checks, then array checks, then the first invoice's checks, and the first invoice decides the failure |
| InvoicesTest.WellFormedInvoicePasses | tests/invoices_test.js:20-109 | a fast JSON 200 whose first invoice is such an invoice without lines records ten checks, all passing, and completes |
| InvoiceItemsTest.NotFoundFailsStatusCheck | tests/invoice_items_test.js:37-44 | a 404 fails "status is 200" and records nothing after the response checks |
| InvoiceItemsTest.StatusChecksAlwaysRecorded | tests/invoice_items_test.js:37-42 | the three response checks come first, whatever the status |
| InvoiceItemsTest.RequestUrl | tests/invoice_items_test.js:23-24 | the request goes to `https://maf.sdet.pl/api/InvoiceItems?invoiceId=1`: the production host followed by the endpoint |
| InvoiceItemsTest.ParseFailureFails | tests/invoice_items_test.js:83-86 | an unparsable 200 ends with `fail("JSON parsing error")` |
| InvoiceItemsTest.EmptyArrayAccepted | tests/invoice_items_test.js:78-82 | an empty array records "response is array" and the always-true "empty array is valid response", both passing |
| InvoiceItemsTest.NonArrayRecordsShapeOnly | tests/invoice_items_test.js:48-82 | a body that is not an array records only a failed "response is array" |
| InvoiceItemsTest.OnlyFirstItemExamined | tests/invoice_items_test.js:56-57 | two arrays with the same first line give the same checks |
| InvoiceItemsTest.QuantityAndPriceOnNumbers | tests/invoice_items_test.js:67-70 | on numbers, quantity passes iff it is > 0 and net price iff it is >= 0 |
| InvoiceItemsTest.QuantityAsDigitText | tests/invoice_items_test.js:67-68 | a quantity sent as decimal digit text passes iff the digits denote more than zero (`"007"` counts as 7) |
| InvoiceItemsTest.QuantityAsOneElementArray | tests/invoice_items_test.js:67-68 | a quantity sent as a one-element array of an integer passes iff that integer is positive |
| InvoiceItemsTest.FieldChecksMeaning | tests/invoice_items_test.js:61-72 | the unit and VAT checks hold iff the field is a string in its enumeration; "correct invoiceId" holds iff `invoiceId` is the number 1 |
| InvoiceItemsTest.NullFirstItemFails | tests/invoice_items_test.js:59-86 | a null first line fails the structure check, throws in the unit check, and the iteration ends with `fail` |
| InvoiceItemsTest.WellFormedLineChecks | tests/invoice_items_test.js:59-73 | a well-formed line of invoice 1 with a known unit and VAT rate, a description, positive quantity and non-negative price passes the seven line checks without throwing |
| InvoiceItemsTest.WellFormedLinePasses | tests/invoice_items_test.js:44-82 | an array starting with such a line records eight passing body checks and completes |
| ContractorByIdTest.DateCheck | tests/contractor_by_id_test.js:84-91 | the date check never throws |
| ContractorByIdTest.DateCheckMeaning | tests/contractor_by_id_test.js:84-91 | the check is false iff `createdAt` holds an object with its own `toString` key |
| ContractorByIdTest.SharesListRules | tests/contractor_by_id_test.js:68-83 | the email and non-empty checks are exactly the contractor-list ones |
| ContractorByIdTest.StatusChecksAlwaysRecorded | tests/contractor_by_id_test.js:36-39 | the two status checks come first; 200 and 404 both pass the first |
| ContractorByIdTest.RequestUrl | tests/contractor_by_id_test.js:22-23 | the request goes to `https://maf.sdet.pl/api/Contractors/1`: the production host followed by the endpoint |
| ContractorByIdTest.NotFoundIsAccepted | tests/contractor_by_id_test.js:102-107 | a 404 adds only the always-true "404 response is acceptable" check |
| ContractorByIdTest.OtherStatusRecordsStatusOnly | tests/contractor_by_id_test.js:36-41 | any status other than 200 and 404 records the two status checks only |
| ContractorByIdTest.ContentTypeCheckedOn200 | tests/contractor_by_id_test.js:41-45 | on a 200 the third check is the content-type check |
| ContractorByIdTest.ParseFailureFails | tests/contractor_by_id_test.js:98-101 | an unparsable 200 ends with `fail` after the content-type check |
| ContractorByIdTest.ArrayBodyFails | tests/contractor_by_id_test.js:54-92 | an array body fails the object, structure, id, email and non-empty checks, passes the date check, and does not abort |
| ContractorByIdTest.NullBodyFails | tests/contractor_by_id_test.js:54-101 | a null body fails both structure checks, then throws reading its id, and the iteration ends with `fail` |
| InvoiceByIdTest.ContractorIdMeaning | tests/invoice_by_id_test.js:87-89 | "valid contractor ID" holds iff `contractorId` is a number greater than 0 |
| InvoiceByIdTest.StatusChecksAlwaysRecorded | tests/invoice_by_id_test.js:36-39 | the two status checks come first; 200 and 404 both pass the first |
| InvoiceByIdTest.RequestUrl | tests/invoice_by_id_test.js:23-24 | the request goes to `https://maf.sdet.pl/api/Invoices/1`: the production host followed by the endpoint |
| InvoiceByIdTest.NotFoundIsAccepted | tests/invoice_by_id_test.js:120-125 | a 404 adds only the always-true "404 response is acceptable" check |
| InvoiceByIdTest.OtherStatusRecordsStatusOnly | tests/invoice_by_id_test.js:36-41 | any status other than 200 and 404 records the two status checks only |
| InvoiceByIdTest.ContentTypeCheckedOn200 | tests/invoice_by_id_test.js:41-45 | on a 200 the third check is the content-type check |
| InvoiceByIdTest.ParseFailureFails | tests/invoice_by_id_test.js:116-119 | an unparsable 200 ends with `fail` after the content-type check |
| InvoiceByIdTest.NullBodyFails | tests/invoice_by_id_test.js:54-119 | a null body fails both structure checks, then throws reading its id, and the iteration ends with `fail` |
| InvoiceByIdTest.NestedLinesCheck | tests/invoice_by_id_test.js:96-109 | the nested check runs iff the invoice has an array of lines; it holds iff every line passes `every`'s test and has `invoiceId` 1 |
| InvoiceByIdTest.ForeignLineFails | tests/invoice_by_id_test.js:100-106 | a well-formed line of another invoice fails the nested check |
| InvoiceByIdTest.WellFormedInvoiceChecks | tests/invoice_by_id_test.js:54-90 | a well-formed invoice 1 with valid enumerations, ordered amounts and a positive contractor id passes the structure and six validation checks |
| InvoiceByIdTest.WellFormedInvoicePasses | tests/invoice_by_id_test.js:36-125 | in a fast JSON 200 such an invoice without lines gives eleven passing checks, and the iteration completes |
| LastInvoiceNumberTest.StatusChecksAlwaysRecorded | tests/last_invoice_number_test.js:34-39 | the three response checks come first, whatever the status |
| LastInvoiceNumberTest.RequestUrl | tests/last_invoice_number_test.js:22 | the request goes to `https://maf.sdet.pl/api/Invoices/last-number`: the production host followed by the endpoint |
| LastInvoiceNumberTest.OnlyStatus200IsParsed | tests/last_invoice_number_test.js:41 | any other status records the response checks only |
| LastInvoiceNumberTest.NotEmptyImpliesString | tests/last_invoice_number_test.js:45-49 | "not empty" passes only if "is string" does, and holds iff the body is a non-empty string |
| LastInvoiceNumberTest.FormatChecksOnlyForStrings | tests/last_invoice_number_test.js:56-71 | on a parsed 200, seven checks are recorded iff the body is a string, five otherwise, and the iteration completes |
| LastInvoiceNumberTest.FormatMeaning | tests/last_invoice_number_test.js:58-62 | the format check holds iff the first character is in the invoice-number class |
| LastInvoiceNumberTest.LengthMeaning | tests/last_invoice_number_test.js:63-65 | a passing length check bounds the characters by 1 and 50; for text in the Basic Multilingual Plane that is iff |
| LastInvoiceNumberTest.FormatIgnoresTail | tests/last_invoice_number_test.js:61 | for every first character and every tail, the format check holds iff the first character is accepted: any continuation passes, and none rescues a rejected start |
| LastInvoiceNumberTest.PlainTextFallback | tests/last_invoice_number_test.js:73-84 | an unparsable text/plain 200 records the two raw-body checks and completes |
| LastInvoiceNumberTest.ParseFailureFails | tests/last_invoice_number_test.js:85-88 | any other unparsable 200 ends with `fail("Response parsing error")` |
| RunAll.ProfileSettings | run-all.js:6-9 | an unset PROFILE gives LIGHT; a known name gives its profile; an unknown name falls back to LIGHT; there are no users or duration iff the name is an `Object.prototype` member |
| RunAll.SameProfileAsPerEndpointTests | run-all.js:6-9 | the combined test selects the same profile as each per-endpoint `getOptions` |
| RunAll.ContractorsScenario | run-all.js:12-38 | never fails; passes its status check iff 200; on a parsed 200 the next two checks are "is array" (the body is an array) and "has valid structure" (an array that is empty or whose first element passes the contractor validator); any other response records the status check only |
| RunAll.InvoicesScenario | run-all.js:41-67 | never fails; passes its status check iff 200; on a parsed 200 the next two checks are "is array" and "has valid structure" (an array that is empty or whose first element passes the invoice validator); any other response records the status check only |
| RunAll.InvoiceItemsScenario | run-all.js:70-98 | never fails; passes its status check iff 200 or 404; on a parsed 200 the next two checks are "is array" and "has valid structure" (an array that is empty or whose first element passes the line validator); any other response records the status check only |
| RunAll.ContractorByIdScenario | run-all.js:101-129 | never fails; passes its status check iff 200 or 404; on a parsed 200 the next two checks are "is object" (`typeof` object and not an array, so null passes) and the contractor validator on the body; any other response records the status check only |
| RunAll.InvoiceByIdScenario | run-all.js:132-160 | never fails; passes its status check iff 200 or 404; on a parsed 200 the next two checks are "is object" (null passes) and the invoice validator on the body; any other response records the status check only |
| RunAll.LastInvoiceNumberScenario | run-all.js:163-190 | never fails; passes its status check iff 200; on a 200 the second check is "response is string" (the parsed body is a string) or, when the body does not parse, "response body is string" on the raw body; any other status records the status check only |
| RunAll.Exec | run-all.js:197-247 | an exec name runs a scenario iff it is one of the six exported functions |
| RunAll.NeverAborts | run-all.js:34-36 | no scenario of the combined test ends an iteration with `fail`, and each records its status check |
| RunAll.StatusPolicies | run-all.js:82-84 | the list scenarios pass only 200; the items and by-id scenarios pass 200 or 404, and a 404 records only that passing check |
| RunAll.InvoiceItemsStatusDiffers | run-all.js:82-84 | a 404 passes the combined test's invoice-items status check and fails the per-endpoint test's |
| RunAll.ParseFailureOnlyLogged | run-all.js:183-188 | an unparsable 200 records only the passing status check (plus the raw-body check for last-number) and does not fail |
| RunAll.ListStructureMeaning | run-all.js:31-32 | an empty array passes every list structure check; otherwise only the first element is validated, and for contractors that means an object with numeric `id` and the eleven string fields |
| RunAll.EmptyArrayPasses | run-all.js:29-33 | a 200 with an empty array passes all checks of the three list scenarios |
| RunAll.OnlyFirstElementValidated | run-all.js:31-32 | arrays with the same first element get the same structure result |
| RunAll.ScenariosValidateOnlyFirstElement | run-all.js:29-33 | two 200 responses whose non-empty arrays start with the same element record the same checks in each list scenario |
| RunAll.ObjectCheckMeaning | run-all.js:121-122 | "response is object" here holds iff the body is an object or null, that is, the per-endpoint check or null |
| RunAll.NullBodyPassesObjectCheck | run-all.js:120-123 | a null body passes "response is object" and fails the structure check, in both by-id scenarios |
| RunAll.Options | run-all.js:197-252 | the scenarios are those of the selected profile, and the thresholds are the per-endpoint tests' |
| RunAll.ScenariosRunEachExportOnce | run-all.js:198-247 | there are exactly six scenarios; each is `constant-vus` starting at 0s; each runs a distinct exported function, and every exported function has its scenario |
| RunAll.ScenariosShareTheProfile | run-all.js:193-247 | every scenario has the profile's users and duration, or neither when the profile has none |
| RunAll.DefaultLoad | run-all.js:193-247 | without PROFILE every scenario runs 5 users for 30s |

## Left out

- `http.get`, k6's metric recording, the `constant-vus` executor, scheduling
  of virtual users and scenarios, and threshold evaluation. These are the k6
  runtime, not part of this repository. The response is an input, `check` is
  `K6.Record`, and the options are data.
- `fail`'s abort mechanics: the iteration ends with the failure message and
  nothing after it is recorded.
- Parsing of JSON text by `res.json()`. The parsed body is an input, `None`
  when parsing throws.
- `logError` and all console output (helpers/common.js:15-18). They do not
  affect any result.
- `__ENV`. The environment is a parameter wherever it is read.
- `new Date` beyond whether it throws. The invalid date it returns for an
  unparsable string is never inspected by the checks.
- IEEE doubles. Numbers are exact reals, and `NumberToString` writes plain
  decimals, cut after 20 fraction digits, without exponent notation.
- Rounding, overflow to infinity and precision loss are therefore not
  modelled.
- The response duration is a real number of milliseconds, taken as given.
- quick_check_script.js and diagnostics_script.js are not part of this model.
  They are manual diagnostics made of fixed network calls and console output.
- The regular expressions are matched over characters, not UTF-16 code units.
  They can differ only on surrogate pairs, which neither pattern's classes
  single out.
- Lone surrogates. A JSON string may hold an unpaired surrogate such as
  `"\ud800"`; a Dafny `char` is a Unicode scalar value and cannot, so
  strings holding one are outside the model.
