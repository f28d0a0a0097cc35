/**
 * Choosing the bank service for a configuration, and building the
 * configuration of a school from its stored payment settings.
 */
module BankFactory {
  import opened Wrappers
  import opened BankBase

  /** The service class a `bank_type` selects; `None` for any other text, the declared `other` included. */
  function KindOf(bankType: string): (r: Option<BankKind>)
    ensures r == Some(Kcb) <==> bankType == "kcb"
    ensures r == Some(Equity) <==> bankType == "equity"
    ensures r == Some(Cooperative) <==> bankType == "cooperative"
    ensures r == Some(Im) <==> bankType == "im"
    ensures r.None? <==> bankType !in {"kcb", "equity", "cooperative", "im"}
  {
    if bankType == "kcb" then Some(Kcb)
    else if bankType == "equity" then Some(Equity)
    else if bankType == "cooperative" then Some(Cooperative)
    else if bankType == "im" then Some(Im)
    else None
  }

  /** The `other` bank type is declared but has no service. */
  lemma OtherIsUnsupported()
    ensures KindOf("other").None?
  {
  }

  /** `createBankService`: a service of the selected kind, or the error for an unknown type. */
  method CreateBankService(config: BankConfig, backend: PaymentBackend) returns (r: Result<BankService, string>)
    ensures r.Err? <==> KindOf(config.bankType).None?
    ensures r.Err? ==> r.error == "Unsupported bank type: " + config.bankType
    ensures r.Ok? ==> fresh(r.value) && r.value.kind == KindOf(config.bankType).value
                      && r.value.config == config && r.value.backend == backend
  {
    match KindOf(config.bankType)
    case None =>
      r := Err("Unsupported bank type: " + config.bankType);
    case Some(kind) =>
      var service := new BankService(kind, config, backend);
      r := Ok(service);
  }

  /** What the `schools` lookup of `payment_settings` answered. */
  datatype SettingsLookup = LookupFailed(error: string) | LookupFound(settings: Option<PaymentSettings>)

  /**
   * The configuration a school's service is built from: its stored
   * `bank_api_settings` with `school_id` set to the requested school, or
   * nothing when the lookup failed or there are no bank settings.
   */
  function SchoolConfig(schoolId: string, lookup: SettingsLookup): (r: Option<BankConfig>)
    ensures r.Some? <==> lookup.LookupFound? && lookup.settings.Some? && lookup.settings.value.bankApiSettings.Some?
    ensures r.Some? ==> r.value.schoolId == Some(schoolId)
    ensures r.Some? ==> r.value.(schoolId := lookup.settings.value.bankApiSettings.value.schoolId)
                        == lookup.settings.value.bankApiSettings.value
  {
    match lookup
    case LookupFailed(_) => None
    case LookupFound(settings) =>
      if settings.None? || settings.value.bankApiSettings.None? then None
      else Some(settings.value.bankApiSettings.value.(schoolId := Some(schoolId)))
  }

  /**
   * `getSchoolBankService`: no service when there is no configuration, the
   * factory's error for an unsupported bank type, otherwise a new service
   * over the school's configuration.
   */
  method GetSchoolBankService(schoolId: string, lookup: SettingsLookup, backend: PaymentBackend)
    returns (r: Result<Option<BankService>, string>)
    ensures SchoolConfig(schoolId, lookup).None? ==> r == Ok(None)
    ensures r.Err? <==> SchoolConfig(schoolId, lookup).Some? && KindOf(SchoolConfig(schoolId, lookup).value.bankType).None?
    ensures r.Err? ==> r.error == "Unsupported bank type: " + SchoolConfig(schoolId, lookup).value.bankType
    ensures r.Ok? && r.value.Some? ==>
              && SchoolConfig(schoolId, lookup).Some?
              && r.value.value.config == SchoolConfig(schoolId, lookup).value
              && r.value.value.kind == KindOf(r.value.value.config.bankType).value
              && r.value.value.backend == backend
    ensures r.Ok? && r.value.None? ==> SchoolConfig(schoolId, lookup).None?
  {
    var config := SchoolConfig(schoolId, lookup);
    if config.None? {
      return Ok(None);
    }
    var service := CreateBankService(config.value, backend);
    if service.Err? {
      return Err(service.error);
    }
    r := Ok(Some(service.value));
  }
}
