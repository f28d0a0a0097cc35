/**
 * Saving a school's bank API settings: the request's fields are checked in a
 * fixed order, the school is looked up, and the new `bank_api_settings` entry
 * is merged into the school's payment settings (or into the default payment
 * settings when the school has none), keeping every other entry.
 *
 * Request bodies are JSON; the store's answers are parameters.
 */
module BankSettings {
  import opened Wrappers

  /** A JSON value; the contents of objects and arrays are not modelled, only that they are truthy. */
  datatype Json = JNull | JBool(b: bool) | JNum(n: real) | JStr(s: string) | JComposite

  /** JavaScript truthiness of a field that may be missing (`None`). */
  predicate Truthy(v: Option<Json>) {
    match v
    case None => false
    case Some(JNull) => false
    case Some(JBool(b)) => b
    case Some(JNum(n)) => n != 0.0
    case Some(JStr(s)) => s != ""
    case Some(JComposite) => true
  }

  /** The fields the route reads from the body, `None` when a key is missing. */
  datatype Request = Request(
    schoolId: Option<Json>,
    bankType: Option<Json>,
    apiKey: Option<Json>,
    apiSecret: Option<Json>,
    apiEndpoint: Option<Json>,
    webhookUrl: Option<Json>,
    isLive: Option<Json>)

  /** The body: a JSON object with those fields, or text that does not parse (its error message). */
  datatype Body = Unparsable(message: string) | Parsed(request: Request)

  /** The `bank_api_settings` entry the route writes. */
  datatype BankApiSettings = BankApiSettings(
    bankType: Json, apiKey: Json, apiSecret: Json, apiEndpoint: Json, webhookUrl: Json, isLive: Json)

  /** One entry of a school's `payment_settings` object. */
  datatype Setting = Plain(value: Json) | BankApi(api: BankApiSettings)

  type Settings = map<string, Setting>

  /** The school lookup: an error (no such school included), or its payment settings, `None` when they are null. */
  datatype SchoolReply = SchoolFailed(error: string) | SchoolFound(paymentSettings: Option<Settings>)

  datatype UpdateReply = UpdateFailed(error: string) | Updated

  /** The HTTP answer, and the school's payment settings as stored afterwards when they were written. */
  datatype Response = Response(status: nat, error: Option<string>, details: Option<string>, stored: Option<Settings>)

  const BankApiKey: string := "bank_api_settings"

  /** The payment settings of a school that has none yet. */
  const DefaultSettings: Settings := map[
    "bank_name" := Plain(JStr("")),
    "paybill_number" := Plain(JStr("")),
    "account_number" := Plain(JStr("")),
    "reference_format" := Plain(JStr("admission_number"))]

  /** `is_live ?? false`: a missing or null flag is false, anything else is kept as sent. */
  function LiveFlag(v: Option<Json>): (r: Json)
    ensures v.None? || v == Some(JNull) ==> r == JBool(false)
    ensures v.Some? && v != Some(JNull) ==> r == v.value
  {
    if v.None? || v.value.JNull? then JBool(false) else v.value
  }

  /** The field checks, in their order; `None` when the request passes them. */
  function Validate(req: Request): (r: Option<string>)
    ensures r.None? <==> Truthy(req.schoolId) && Truthy(req.bankType) && Truthy(req.apiKey)
                         && Truthy(req.apiSecret) && Truthy(req.apiEndpoint) && Truthy(req.webhookUrl)
  {
    if !Truthy(req.schoolId) then Some("School ID is required")
    else if !Truthy(req.bankType) then Some("Bank type is required")
    else if !Truthy(req.apiKey) || !Truthy(req.apiSecret) || !Truthy(req.apiEndpoint) || !Truthy(req.webhookUrl)
    then Some("All API fields are required")
    else None
  }

  function NewBankSettings(req: Request): BankApiSettings
    requires Validate(req).None?
  {
    BankApiSettings(req.bankType.value, req.apiKey.value, req.apiSecret.value, req.apiEndpoint.value,
                    req.webhookUrl.value, LiveFlag(req.isLive))
  }

  /** The existing settings spread, then `bank_api_settings` replaced. */
  function Merge(existing: Option<Settings>, api: BankApiSettings): Settings {
    (if existing.Some? then existing.value else DefaultSettings)[BankApiKey := BankApi(api)]
  }

  /** `POST /api/schools/bank-settings`. */
  function PostBankSettings(body: Body, school: SchoolReply, update: UpdateReply): Response {
    match body
    case Unparsable(message) => Response(500, Some("Failed to save bank settings"), Some(message), None)
    case Parsed(req) =>
      var invalid := Validate(req);
      if invalid.Some? then Response(400, invalid, None, None)
      else match school
        case SchoolFailed(_) => Response(404, Some("School not found"), None, None)
        case SchoolFound(existing) =>
          match update
          case UpdateFailed(e) => Response(500, Some("Failed to update bank settings"), Some(e), None)
          case Updated => Response(200, None, None, Some(Merge(existing, NewBankSettings(req))))
  }

  /**
   * The checks run in order and before the store is asked anything: the
   * first failing check decides the 400, whatever the store would answer.
   */
  lemma ValidationOrder(req: Request, s1: SchoolReply, u1: UpdateReply, s2: SchoolReply, u2: UpdateReply)
    ensures var r := PostBankSettings(Parsed(req), s1, u1);
      && (!Truthy(req.schoolId) ==> r == Response(400, Some("School ID is required"), None, None))
      && (Truthy(req.schoolId) && !Truthy(req.bankType) ==> r == Response(400, Some("Bank type is required"), None, None))
      && ((Truthy(req.schoolId) && Truthy(req.bankType)
           && !(Truthy(req.apiKey) && Truthy(req.apiSecret) && Truthy(req.apiEndpoint) && Truthy(req.webhookUrl))) ==>
            r == Response(400, Some("All API fields are required"), None, None))
      && (r.status == 400 <==> Validate(req).Some?)
      && (r.status == 400 ==> r == PostBankSettings(Parsed(req), s2, u2))
  {
  }

  /** Nothing is written unless the request is valid, the school exists and the update succeeds. */
  lemma WrittenOnlyOnSuccess(body: Body, school: SchoolReply, update: UpdateReply)
    ensures var r := PostBankSettings(body, school, update);
      && (r.stored.Some? <==> r.status == 200)
      && (r.status == 200 <==> body.Parsed? && Validate(body.request).None? && school.SchoolFound? && update.Updated?)
      && (body.Parsed? && Validate(body.request).None? && school.SchoolFailed? ==>
            r == Response(404, Some("School not found"), None, None))
  {
  }

  /**
   * A successful save replaces `bank_api_settings` with the request's fields
   * (the live flag defaulting to false) and keeps every other entry of the
   * school's settings, or of the default settings when it had none.
   */
  lemma MergeKeepsOtherSettings(req: Request, existing: Option<Settings>)
    requires Validate(req).None?
    ensures var r := PostBankSettings(Parsed(req), SchoolFound(existing), Updated);
      var base := if existing.Some? then existing.value else DefaultSettings;
      && r.status == 200 && r.stored.Some?
      && r.stored.value.Keys == base.Keys + {BankApiKey}
      && (forall k :: k in base && k != BankApiKey ==> r.stored.value[k] == base[k])
      && r.stored.value[BankApiKey].BankApi?
      && r.stored.value[BankApiKey].api.bankType == req.bankType.value
      && r.stored.value[BankApiKey].api.apiSecret == req.apiSecret.value
      && r.stored.value[BankApiKey].api.isLive == (if req.isLive.None? || req.isLive == Some(JNull)
                                                  then JBool(false) else req.isLive.value)
  {
  }

  /** A school without payment settings gets the defaults: blank paybill details, references by admission number. */
  lemma DefaultsForNewSchool(req: Request)
    requires Validate(req).None?
    ensures var r := PostBankSettings(Parsed(req), SchoolFound(None), Updated);
      && r.stored.Some?
      && r.stored.value.Keys == {"bank_name", "paybill_number", "account_number", "reference_format", BankApiKey}
      && r.stored.value["reference_format"] == Plain(JStr("admission_number"))
      && r.stored.value["paybill_number"] == Plain(JStr(""))
  {
  }

  /** Saving the same request twice stores the same settings as saving it once. */
  lemma SaveIdempotent(req: Request, existing: Option<Settings>)
    requires Validate(req).None?
    ensures var once := PostBankSettings(Parsed(req), SchoolFound(existing), Updated).stored;
      && once.Some?
      && PostBankSettings(Parsed(req), SchoolFound(once), Updated).stored == once
  {
    var once := Merge(existing, NewBankSettings(req));
    assert Merge(Some(once), NewBankSettings(req)) == once;
  }
}
