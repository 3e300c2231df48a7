/** The api section of the configuration. The HTTP server itself is not part of this model. */
module Api {
  import opened Wrappers
  import opened JsonValues
  import Errors
  import Configs

  const ErrConfigNoAddress := "No address specified in api config"

  datatype ApiConfig = ApiConfig(address: string)

  /** `as_str().unwrap()` panics on an `address` that is present but not a string. */
  predicate AddressReadable(api: Json) {
    Member(api, "address").Some? ==> Member(api, "address").value.Str?
  }

  /** `Config::api`. */
  function Api(c: Configs.Config): (r: Result<ApiConfig, Errors.Error>)
    requires AddressReadable(Configs.Index(c, "api"))
    ensures Member(Configs.Index(c, "api"), "address").None? ==>
              r == Err(Errors.Configuration(ErrConfigNoAddress))
    ensures r.Ok? ==> Member(Configs.Index(c, "api"), "address") == Some(Str(r.value.address))
    ensures r.Err? ==> Member(Configs.Index(c, "api"), "address").None?
  {
    var json := Configs.Index(c, "api");
    match Member(json, "address")
    case Some(x) => Ok(ApiConfig(AsStr(x).value))
    case None => Err(Errors.Configuration(ErrConfigNoAddress))
  }

  /** Only the `api` section of the configuration is consulted. */
  lemma ApiReadsOnlyItsSection(c1: Configs.Config, c2: Configs.Config)
    requires Configs.Index(c1, "api") == Configs.Index(c2, "api")
    requires AddressReadable(Configs.Index(c1, "api"))
    ensures Api(c1) == Api(c2)
  {
  }
}
