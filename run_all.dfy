/** The combined load test: six scenario functions, one per endpoint, run
    side by side under one load profile. Each records a status check and, on
    a 200, two checks on the parsed body (one on the raw body when the
    last-number response does not parse). A parse failure is only logged:
    no iteration of these scenarios ends with `fail`. */
module RunAll {
  import opened Wrappers
  import opened JsValue
  import opened K6
  import Env
  import Common
  import TestOptions
  import InvoiceItemsTest

  /** `LOAD_PROFILES[__ENV.PROFILE || 'LIGHT'] || LOAD_PROFILES.LIGHT`. None
      is a value without `vus` and `duration`: what a name of an
      `Object.prototype` member finds. */
  function ProfileSettings(env: map<string, string>): (p: Option<Env.Profile>)
    ensures "PROFILE" !in env || env["PROFILE"] == [] ==> p == Some(Env.Profile(5, "30s"))
    ensures TestOptions.ProfileName(env) in Env.LoadProfiles ==>
      p == Some(Env.LoadProfiles[TestOptions.ProfileName(env)])
    ensures (TestOptions.ProfileName(env) !in Env.LoadProfiles &&
             TestOptions.ProfileName(env) !in ObjectPrototypeKeys) ==> p == Some(Env.LoadProfiles["LIGHT"])
    ensures p.None? <==> TestOptions.ProfileName(env) in ObjectPrototypeKeys
  {
    match LookupMember(Env.LoadProfiles, TestOptions.ProfileName(env))
    case Own(profile) => Some(profile)
    case Inherited => None
    case Absent => Some(Env.LoadProfiles["LIGHT"])
  }

  /** The combined test selects the same profile as every per-endpoint
      test's `getOptions`: its LIGHT fallback is the default profile. */
  lemma SameProfileAsPerEndpointTests(env: map<string, string>)
    ensures ProfileSettings(env) == TestOptions.GetOptions(env).profile
  {
  }

  // The check names, as k6 reports them.
  const ContractorsStatus := "contractors: status is 200"
  const ContractorsIsArray := "contractors: response is array"
  const ContractorsStructure := "contractors: has valid structure"
  const InvoicesStatus := "invoices: status is 200"
  const InvoicesIsArray := "invoices: response is array"
  const InvoicesStructure := "invoices: has valid structure"
  const InvoiceItemsStatus := "invoice-items: status is 200 or 404"
  const InvoiceItemsIsArray := "invoice-items: response is array"
  const InvoiceItemsStructure := "invoice-items: has valid structure"
  const ContractorByIdStatus := "contractor-by-id: status is 200 or 404"
  const ContractorByIdIsObject := "contractor-by-id: response is object"
  const ContractorByIdStructure := "contractor-by-id: has valid structure"
  const InvoiceByIdStatus := "invoice-by-id: status is 200 or 404"
  const InvoiceByIdIsObject := "invoice-by-id: response is object"
  const InvoiceByIdStructure := "invoice-by-id: has valid structure"
  const LastNumberStatus := "last-invoice-number: status is 200"
  const LastNumberIsString := "last-invoice-number: response is string"
  const LastNumberBodyIsString := "last-invoice-number: response body is string"

  /** `r.status === 200 || r.status === 404` */
  predicate FoundOrNotFound(status: int) {
    status == 200 || status == 404
  }

  /** "has valid structure" of a list: an array, and either empty or with a
      first element the validator accepts. */
  predicate ValidList(data: Json, validate: Val -> bool) {
    data.JArr? && (|data.elems| == 0 || validate(Defined(data.elems[0])))
  }

  /** "response is object": `typeof data === 'object' && !Array.isArray(data)`,
      with no test against null. */
  predicate IsObjectOrNull(data: Json) {
    TypeOf(Defined(data)) == "object" && !IsArray(Defined(data))
  }

  /** The two checks on a parsed list body. Neither callback can throw. */
  function ListBlock(isArrayName: string, structureName: string, validate: Val -> bool, data: Json)
    : seq<NamedCheck>
  {
    [NamedCheck(isArrayName, Normal(data.JArr?)),
     NamedCheck(structureName, Normal(ValidList(data, validate)))]
  }

  /** The two checks on a parsed single-entity body. */
  function ObjectBlock(isObjectName: string, structureName: string, validate: Val -> bool, data: Json)
    : seq<NamedCheck>
  {
    [NamedCheck(isObjectName, Normal(IsObjectOrNull(data))),
     NamedCheck(structureName, Normal(validate(Defined(data))))]
  }

  /** What follows the status check: the body checks on a 200 whose body
      parses, nothing otherwise (the parse failure is only logged). */
  function BodyChecks(res: Response, block: Json -> seq<NamedCheck>): seq<CheckResult>
    requires forall data, i :: 0 <= i < |block(data)| ==> block(data)[i].outcome.Normal?
  {
    if res.status == 200 && res.body.Some? then Results(block(res.body.value)) else []
  }

  function ContractorsScenario(res: Response): (r: Iteration)
    ensures r.failure == None
    ensures |r.checks| == (if res.status == 200 && res.body.Some? then 3 else 1)
    ensures r.checks[0] == CheckResult(ContractorsStatus, res.status == 200)
    ensures res.status == 200 && res.body.Some? ==>
      r.checks[1..] == [CheckResult(ContractorsIsArray, res.body.value.JArr?),
                        CheckResult(ContractorsStructure, ValidList(res.body.value, Common.CheckContractorStructure))]
  {
    var block := (data: Json) => ListBlock(ContractorsIsArray, ContractorsStructure, Common.CheckContractorStructure, data);
    Iteration(Results([NamedCheck(ContractorsStatus, Normal(res.status == 200))]) + BodyChecks(res, block), None)
  }

  function InvoicesScenario(res: Response): (r: Iteration)
    ensures r.failure == None
    ensures |r.checks| == (if res.status == 200 && res.body.Some? then 3 else 1)
    ensures r.checks[0] == CheckResult(InvoicesStatus, res.status == 200)
    ensures res.status == 200 && res.body.Some? ==>
      r.checks[1..] == [CheckResult(InvoicesIsArray, res.body.value.JArr?),
                        CheckResult(InvoicesStructure, ValidList(res.body.value, Common.CheckInvoiceStructure))]
  {
    var block := (data: Json) => ListBlock(InvoicesIsArray, InvoicesStructure, Common.CheckInvoiceStructure, data);
    Iteration(Results([NamedCheck(InvoicesStatus, Normal(res.status == 200))]) + BodyChecks(res, block), None)
  }

  function InvoiceItemsScenario(res: Response): (r: Iteration)
    ensures r.failure == None
    ensures |r.checks| == (if res.status == 200 && res.body.Some? then 3 else 1)
    ensures r.checks[0] == CheckResult(InvoiceItemsStatus, res.status == 200 || res.status == 404)
    ensures res.status == 200 && res.body.Some? ==>
      r.checks[1..] == [CheckResult(InvoiceItemsIsArray, res.body.value.JArr?),
                        CheckResult(InvoiceItemsStructure, ValidList(res.body.value, Common.CheckInvoiceItemStructure))]
  {
    var block := (data: Json) =>
      ListBlock(InvoiceItemsIsArray, InvoiceItemsStructure, Common.CheckInvoiceItemStructure, data);
    Iteration(Results([NamedCheck(InvoiceItemsStatus, Normal(FoundOrNotFound(res.status)))]) + BodyChecks(res, block),
              None)
  }

  function ContractorByIdScenario(res: Response): (r: Iteration)
    ensures r.failure == None
    ensures |r.checks| == (if res.status == 200 && res.body.Some? then 3 else 1)
    ensures r.checks[0] == CheckResult(ContractorByIdStatus, res.status == 200 || res.status == 404)
    ensures res.status == 200 && res.body.Some? ==>
      r.checks[1..] == [CheckResult(ContractorByIdIsObject, IsObjectOrNull(res.body.value)),
                        CheckResult(ContractorByIdStructure, Common.CheckContractorStructure(Defined(res.body.value)))]
  {
    var block := (data: Json) =>
      ObjectBlock(ContractorByIdIsObject, ContractorByIdStructure, Common.CheckContractorStructure, data);
    Iteration(Results([NamedCheck(ContractorByIdStatus, Normal(FoundOrNotFound(res.status)))]) + BodyChecks(res, block),
              None)
  }

  function InvoiceByIdScenario(res: Response): (r: Iteration)
    ensures r.failure == None
    ensures |r.checks| == (if res.status == 200 && res.body.Some? then 3 else 1)
    ensures r.checks[0] == CheckResult(InvoiceByIdStatus, res.status == 200 || res.status == 404)
    ensures res.status == 200 && res.body.Some? ==>
      r.checks[1..] == [CheckResult(InvoiceByIdIsObject, IsObjectOrNull(res.body.value)),
                        CheckResult(InvoiceByIdStructure, Common.CheckInvoiceStructure(Defined(res.body.value)))]
  {
    var block := (data: Json) =>
      ObjectBlock(InvoiceByIdIsObject, InvoiceByIdStructure, Common.CheckInvoiceStructure, data);
    Iteration(Results([NamedCheck(InvoiceByIdStatus, Normal(FoundOrNotFound(res.status)))]) + BodyChecks(res, block),
              None)
  }

  /** On a 200 the parsed body must be a string; when it does not parse,
      the raw body is checked instead. */
  function LastInvoiceNumberScenario(res: Response): (r: Iteration)
    ensures r.failure == None
    ensures |r.checks| == (if res.status == 200 then 2 else 1)
    ensures r.checks[0] == CheckResult(LastNumberStatus, res.status == 200)
    ensures res.status == 200 ==>
      r.checks[1] == (if res.body.Some? then CheckResult(LastNumberIsString, res.body.value.JStr?)
                      else CheckResult(LastNumberBodyIsString, res.rawBody.Some?))
  {
    var status := Results([NamedCheck(LastNumberStatus, Normal(res.status == 200))]);
    if res.status != 200 then Iteration(status, None)
    else
      match res.body
      case Some(data) => Iteration(status + Results([NamedCheck(LastNumberIsString, Normal(data.JStr?))]), None)
      case None => Iteration(status + Results([NamedCheck(LastNumberBodyIsString, Normal(res.rawBody.Some?))]), None)
  }

  /** The exported scenario functions, by name. */
  const Exports: set<string> :=
    {"contractorsTest", "invoicesTest", "invoiceItemsTest", "contractorByIdTest", "invoiceByIdTest",
     "lastInvoiceNumberTest"}

  /** Runs the exported function `exec` names on one response. */
  function Exec(exec: string, res: Response): (r: Option<Iteration>)
    ensures r.Some? <==> exec in Exports
  {
    if exec == "contractorsTest" then Some(ContractorsScenario(res))
    else if exec == "invoicesTest" then Some(InvoicesScenario(res))
    else if exec == "invoiceItemsTest" then Some(InvoiceItemsScenario(res))
    else if exec == "contractorByIdTest" then Some(ContractorByIdScenario(res))
    else if exec == "invoiceByIdTest" then Some(InvoiceByIdScenario(res))
    else if exec == "lastInvoiceNumberTest" then Some(LastInvoiceNumberScenario(res))
    else None
  }

  /** No scenario of the combined test ends an iteration with `fail`, and
      every one records its status check first. */
  lemma NeverAborts(exec: string, res: Response)
    requires exec in Exports
    ensures Exec(exec, res).value.failure == None
    ensures |Exec(exec, res).value.checks| >= 1
  {
  }

  /** The status policies: the list scenarios pass only a 200; the
      invoice-items and by-id scenarios also pass a 404, which then records
      nothing more. */
  lemma StatusPolicies(res: Response)
    ensures ContractorsScenario(res).checks[0].passed <==> res.status == 200
    ensures InvoicesScenario(res).checks[0].passed <==> res.status == 200
    ensures LastInvoiceNumberScenario(res).checks[0].passed <==> res.status == 200
    ensures InvoiceItemsScenario(res).checks[0].passed <==> FoundOrNotFound(res.status)
    ensures ContractorByIdScenario(res).checks[0].passed <==> FoundOrNotFound(res.status)
    ensures InvoiceByIdScenario(res).checks[0].passed <==> FoundOrNotFound(res.status)
    ensures res.status == 404 ==>
      InvoiceItemsScenario(res) == Iteration([CheckResult(InvoiceItemsStatus, true)], None) &&
      ContractorByIdScenario(res) == Iteration([CheckResult(ContractorByIdStatus, true)], None) &&
      InvoiceByIdScenario(res) == Iteration([CheckResult(InvoiceByIdStatus, true)], None)
  {
  }

  /** For the invoice-items endpoint a 404 passes here and fails the
      per-endpoint test's status check. */
  lemma InvoiceItemsStatusDiffers(res: Response)
    requires res.status == 404
    ensures InvoiceItemsScenario(res).checks[0].passed
    ensures !InvoiceItemsTest.Default(res).checks[0].passed
  {
    InvoiceItemsTest.NotFoundFailsStatusCheck(res);
  }

  /** A 200 whose body does not parse records only the status check (and,
      for last-number, the raw-body check), and the iteration goes on. */
  lemma ParseFailureOnlyLogged(res: Response)
    requires res.status == 200 && res.body.None?
    ensures ContractorsScenario(res) == Iteration([CheckResult(ContractorsStatus, true)], None)
    ensures InvoicesScenario(res) == Iteration([CheckResult(InvoicesStatus, true)], None)
    ensures InvoiceItemsScenario(res) == Iteration([CheckResult(InvoiceItemsStatus, true)], None)
    ensures ContractorByIdScenario(res) == Iteration([CheckResult(ContractorByIdStatus, true)], None)
    ensures InvoiceByIdScenario(res) == Iteration([CheckResult(InvoiceByIdStatus, true)], None)
    ensures LastInvoiceNumberScenario(res) ==
      Iteration([CheckResult(LastNumberStatus, true), CheckResult(LastNumberBodyIsString, res.rawBody.Some?)], None)
  {
  }

  /** The list structure check accepts an empty array and otherwise looks
      only at the first element: for contractors it passes exactly when the
      first element is an object with a numeric `id` and the eleven string
      fields. */
  lemma ListStructureMeaning(elems: seq<Json>)
    ensures ValidList(JArr([]), Common.CheckContractorStructure)
    ensures ValidList(JArr([]), Common.CheckInvoiceStructure)
    ensures ValidList(JArr([]), Common.CheckInvoiceItemStructure)
    ensures |elems| > 0 ==>
      (ValidList(JArr(elems), Common.CheckContractorStructure) <==>
       elems[0].JObj? && Common.HasNumberField(elems[0].fields, "id") &&
       forall k :: k in Common.ContractorStringFields ==> Common.HasStringField(elems[0].fields, k))
    ensures |elems| > 0 ==>
      (ValidList(JArr(elems), Common.CheckInvoiceStructure) <==> Common.CheckInvoiceStructure(Defined(elems[0])))
  {
    if |elems| > 0 {
      Common.ContractorStructureMeaning(Defined(elems[0]));
    }
  }

  /** An empty array passes both body checks of each list scenario. */
  lemma EmptyArrayPasses(res: Response)
    requires res.status == 200 && res.body == Some(JArr([]))
    ensures AllPassed(ContractorsScenario(res).checks)
    ensures AllPassed(InvoicesScenario(res).checks)
    ensures AllPassed(InvoiceItemsScenario(res).checks)
  {
  }

  /** Only the first element of a list is validated. */
  lemma OnlyFirstElementValidated(a: seq<Json>, b: seq<Json>, validate: Val -> bool)
    requires |a| > 0 && |b| > 0 && a[0] == b[0]
    ensures ValidList(JArr(a), validate) == ValidList(JArr(b), validate)
  {
  }

  /** The three list scenarios look only at the first element of a parsed
      array: two responses whose arrays start with the same element record
      the same checks. */
  lemma ScenariosValidateOnlyFirstElement(res: Response, res': Response)
    requires res.status == 200 && res'.status == 200
    requires res.body.Some? && res.body.value.JArr? && |res.body.value.elems| > 0
    requires res'.body.Some? && res'.body.value.JArr? && |res'.body.value.elems| > 0
    requires res.body.value.elems[0] == res'.body.value.elems[0]
    ensures ContractorsScenario(res) == ContractorsScenario(res')
    ensures InvoicesScenario(res) == InvoicesScenario(res')
    ensures InvoiceItemsScenario(res) == InvoiceItemsScenario(res')
  {
  }

  /** "response is object" passes exactly for an object or null; it is the
      by-id tests' object check with the null test left out. */
  lemma ObjectCheckMeaning(data: Json)
    ensures IsObjectOrNull(data) <==> data.JObj? || data == JNull
    ensures IsObjectOrNull(data) <==> IsPlainObject(Defined(data)) || data == JNull
  {
    PlainObjectMeaning(Defined(data));
  }

  /** A null body passes "response is object" and fails the structure
      check, which rejects every falsy value. */
  lemma NullBodyPassesObjectCheck(res: Response)
    requires res.status == 200 && res.body == Some(JNull)
    ensures ContractorByIdScenario(res).checks ==
      [CheckResult(ContractorByIdStatus, true), CheckResult(ContractorByIdIsObject, true),
       CheckResult(ContractorByIdStructure, false)]
    ensures InvoiceByIdScenario(res).checks ==
      [CheckResult(InvoiceByIdStatus, true), CheckResult(InvoiceByIdIsObject, true),
       CheckResult(InvoiceByIdStructure, false)]
  {
  }

  /** One entry of `options.scenarios`. A None `vus` or `duration` is the
      `undefined` of a profile without them. */
  datatype Scenario = Scenario(
    exec: string,
    executor: string,
    vus: Option<nat>,
    duration: Option<string>,
    startTime: string,
    testType: string)

  datatype RunOptions = RunOptions(scenarios: map<string, Scenario>, thresholds: map<string, seq<string>>)

  /** One `constant-vus` scenario starting at once under the profile. */
  function ConstantVus(exec: string, profile: Option<Env.Profile>, testType: string): Scenario {
    Scenario(exec, "constant-vus",
             if profile.Some? then Some(profile.value.vus) else None,
             if profile.Some? then Some(profile.value.duration) else None,
             "0s", testType)
  }

  /** `options.scenarios` under a profile. */
  function Scenarios(profile: Option<Env.Profile>): map<string, Scenario> {
    map["contractors_list" := ConstantVus("contractorsTest", profile, "contractors"),
        "invoices_list" := ConstantVus("invoicesTest", profile, "invoices"),
        "invoice_items" := ConstantVus("invoiceItemsTest", profile, "invoice-items"),
        "contractor_by_id" := ConstantVus("contractorByIdTest", profile, "contractor-by-id"),
        "invoice_by_id" := ConstantVus("invoiceByIdTest", profile, "invoice-by-id"),
        "last_invoice_number" := ConstantVus("lastInvoiceNumberTest", profile, "last-invoice-number")]
  }

  /** `options`: the six scenarios under the selected profile and the two
      thresholds every test shares. */
  function Options(env: map<string, string>): (o: RunOptions)
    ensures o.scenarios == Scenarios(ProfileSettings(env))
    ensures o.thresholds == TestOptions.Thresholds
  {
    RunOptions(Scenarios(ProfileSettings(env)), TestOptions.Thresholds)
  }

  /** The scenario that runs an exported function. */
  function ScenarioOf(exec: string): string {
    if exec == "contractorsTest" then "contractors_list"
    else if exec == "invoicesTest" then "invoices_list"
    else if exec == "invoiceItemsTest" then "invoice_items"
    else if exec == "contractorByIdTest" then "contractor_by_id"
    else if exec == "invoiceByIdTest" then "invoice_by_id"
    else "last_invoice_number"
  }

  /** Six scenarios, each a `constant-vus` one starting at once, each
      running an exported function, and no two the same one: every exported
      function is run by exactly the scenario `ScenarioOf` names. */
  lemma ScenariosRunEachExportOnce(profile: Option<Env.Profile>)
    ensures Scenarios(profile).Keys ==
      {"contractors_list", "invoices_list", "invoice_items", "contractor_by_id", "invoice_by_id",
       "last_invoice_number"}
    ensures forall name :: name in Scenarios(profile) ==>
      Scenarios(profile)[name].executor == "constant-vus" && Scenarios(profile)[name].startTime == "0s"
    ensures forall name :: name in Scenarios(profile) ==>
      Scenarios(profile)[name].exec in Exports && ScenarioOf(Scenarios(profile)[name].exec) == name
    ensures forall exec :: exec in Exports ==>
      ScenarioOf(exec) in Scenarios(profile) && Scenarios(profile)[ScenarioOf(exec)].exec == exec
  {
  }

  /** Every scenario runs the profile's load: its users and duration, or
      neither when the profile has none. */
  lemma ScenariosShareTheProfile(profile: Option<Env.Profile>, name: string)
    requires name in Scenarios(profile)
    ensures profile.Some? ==>
      Scenarios(profile)[name].vus == Some(profile.value.vus) &&
      Scenarios(profile)[name].duration == Some(profile.value.duration)
    ensures profile.None? ==> Scenarios(profile)[name].vus.None? && Scenarios(profile)[name].duration.None?
  {
  }

  /** Without PROFILE every scenario runs five users for thirty seconds. */
  lemma DefaultLoad(env: map<string, string>, name: string)
    requires "PROFILE" !in env && name in Options(env).scenarios
    ensures Options(env).scenarios[name].vus == Some(5)
    ensures Options(env).scenarios[name].duration == Some("30s")
  {
    ScenariosShareTheProfile(ProfileSettings(env), name);
  }
}
