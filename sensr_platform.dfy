/**
 * The Homebridge platform object of the plug-in: the API-version guard of
 * its constructor, the clean-up of the Sensr.net endpoint configuration,
 * and the choice of which accounts are queried once Homebridge has
 * finished launching. The queries themselves (HTTP, JSON, publishing the
 * cameras) are not modelled; a query is represented by the request it
 * would send.
 */
module SensrPlatforms {
  import opened Js

  /** The endpoint used when the configuration names none. */
  const DefaultBaseUrl: string := "https://api.sensr.net/u/v3/"

  /** The error thrown by the constructor for a missing or too old Homebridge API. */
  const ApiVersionError: string := "Homebridge API v2.1 or higher required."

  /** The Homebridge API object as the constructor sees it: only its version. */
  datatype HomebridgeApi = HomebridgeApi(version: Option<real>)

  /** One entry of `config.accounts`. */
  datatype Account = Account(token: Option<string>)

  /** The request issued for an account: the URL and the `Authorization` header. */
  datatype AccountRequest = AccountRequest(url: string, authorization: string)

  /** The three endpoint fields of `config.sensrApi`, each possibly absent. */
  datatype ApiSettings = ApiSettings(baseUrl: Option<string>, camerasBaseUrl: Option<string>, camerasOwnedUrl: Option<string>)

  /** `!api || api.version < 2.1`; a missing version compares as false. */
  predicate Rejects(api: Option<HomebridgeApi>) {
    api.None? || (api.value.version.Some? && api.value.version.value < 2.1)
  }

  predicate EndsWithSlash(u: string) {
    |u| > 0 && u[|u| - 1] == '/'
  }

  /**
   * `_sanitizeUrlSlash`: one '/' is appended unless the text already ends
   * with one. For the empty text the last character is `undefined`, which
   * differs from '/', so the result is "/".
   */
  function SanitizeUrlSlash(u: string): (r: string)
    ensures EndsWithSlash(r)
    ensures |u| <= |r| <= |u| + 1 && r[..|u|] == u
    ensures r == u <==> EndsWithSlash(u)
  {
    if |u| == 0 || u[|u| - 1] != '/' then u + "/" else u
  }

  /** Sanitising a sanitised URL changes nothing. */
  lemma SanitizeIdempotent(u: string)
    ensures SanitizeUrlSlash(SanitizeUrlSlash(u)) == SanitizeUrlSlash(u)
  {
  }

  /** The sanitised URL is the shortest extension of `u` that ends with '/'. */
  lemma SanitizeIsShortest(u: string, v: string)
    requires |u| <= |v| && v[..|u|] == u && EndsWithSlash(v)
    ensures |SanitizeUrlSlash(u)| <= |v|
  {
    if |v| == |u| {
      assert v == u;
    }
  }

  /**
   * The endpoints `_configureSensrApi` leaves behind: a falsy `baseUrl`
   * becomes the default, a falsy `camerasBaseUrl` is derived from the
   * cleaned `baseUrl`, a falsy `camerasOwnedUrl` from the cleaned
   * `camerasBaseUrl`; the two base URLs are sanitised, the owned-cameras
   * URL is not.
   */
  function Configure(s: ApiSettings): (r: ApiSettings)
    ensures r.baseUrl.Some? && r.camerasBaseUrl.Some? && r.camerasOwnedUrl.Some?
    ensures EndsWithSlash(r.baseUrl.value) && EndsWithSlash(r.camerasBaseUrl.value)
    ensures StringTruthy(s.camerasOwnedUrl) ==> r.camerasOwnedUrl == s.camerasOwnedUrl
  {
    var baseUrl := SanitizeUrlSlash(StringOr(s.baseUrl, DefaultBaseUrl));
    var camerasBaseUrl := SanitizeUrlSlash(StringOr(s.camerasBaseUrl, baseUrl + "cameras/"));
    var camerasOwnedUrl := StringOr(s.camerasOwnedUrl, camerasBaseUrl + "owned.json");
    ApiSettings(Some(baseUrl), Some(camerasBaseUrl), Some(camerasOwnedUrl))
  }

  /** With nothing configured, the plug-in talks to the public Sensr.net API. */
  lemma DefaultEndpoints()
    ensures Configure(ApiSettings(None, None, None))
         == ApiSettings(Some("https://api.sensr.net/u/v3/"),
                        Some("https://api.sensr.net/u/v3/cameras/"),
                        Some("https://api.sensr.net/u/v3/cameras/owned.json"))
  {
    var base := "https://api.sensr.net/u/v3/";
    assert EndsWithSlash(base);
    assert SanitizeUrlSlash(base) == base;
    var cameras := base + "cameras/";
    assert cameras == "https://api.sensr.net/u/v3/cameras/";
    assert cameras[|cameras| - 1] == '/';
    assert SanitizeUrlSlash(cameras) == cameras;
    assert cameras + "owned.json" == "https://api.sensr.net/u/v3/cameras/owned.json";
  }

  /**
   * Derived URLs extend the cleaned base: without a cameras URL the cameras
   * URL is the base followed by `cameras/` (no extra slash is added), and
   * without an owned-cameras URL that URL is the cameras URL followed by
   * `owned.json`.
   */
  lemma DerivedEndpoints(s: ApiSettings)
    ensures var r := Configure(s);
      && (!StringTruthy(s.camerasBaseUrl) ==> r.camerasBaseUrl.value == r.baseUrl.value + "cameras/")
      && (!StringTruthy(s.camerasOwnedUrl) ==> r.camerasOwnedUrl.value == r.camerasBaseUrl.value + "owned.json")
      && (StringTruthy(s.baseUrl) ==> r.baseUrl.value == SanitizeUrlSlash(s.baseUrl.value))
      && (!StringTruthy(s.baseUrl) ==> r.baseUrl.value == DefaultBaseUrl)
      && (StringTruthy(s.camerasBaseUrl) ==> r.camerasBaseUrl.value == SanitizeUrlSlash(s.camerasBaseUrl.value))
  {
    var r := Configure(s);
    var cameras := r.baseUrl.value + "cameras/";
    assert cameras[|cameras| - 1] == '/';
    assert EndsWithSlash(DefaultBaseUrl);
  }

  /** Cleaning an already cleaned configuration changes nothing. */
  lemma ConfigureIdempotent(s: ApiSettings)
    ensures Configure(Configure(s)) == Configure(s)
  {
    var r := Configure(s);
    SanitizeIdempotent(r.baseUrl.value);
    SanitizeIdempotent(r.camerasBaseUrl.value);
    var owned := r.camerasOwnedUrl.value;
    if !StringTruthy(s.camerasOwnedUrl) {
      assert |owned| >= |"owned.json"|;
    }
    assert StringTruthy(r.camerasOwnedUrl);
  }

  /**
   * The requests `didFinishLaunching` issues for `accounts`, in order: one
   * per account whose token is truthy, to `url`, with an `OAUTH` header.
   */
  function AccountRequests(accounts: seq<Account>, url: string): seq<AccountRequest>
  {
    if accounts == [] then []
    else
      var last := accounts[|accounts| - 1];
      AccountRequests(accounts[..|accounts| - 1], url)
      + (if StringTruthy(last.token) then [AccountRequest(url, "OAUTH " + last.token.value)] else [])
  }

  /**
   * Every request goes to `url` and carries the truthy token of some
   * account; there is at most one request per account, and exactly one per
   * account when every account has a token.
   */
  lemma {:induction false} RequestsComeFromTokens(accounts: seq<Account>, url: string)
    ensures var rs := AccountRequests(accounts, url);
      && |rs| <= |accounts|
      && ((forall i :: 0 <= i < |accounts| ==> StringTruthy(accounts[i].token)) ==> |rs| == |accounts|)
      && (forall r :: r in rs ==>
            && r.url == url
            && (exists i :: 0 <= i < |accounts| && StringTruthy(accounts[i].token)
                            && r.authorization == "OAUTH " + accounts[i].token.value))
  {
    if accounts != [] {
      var front := accounts[..|accounts| - 1];
      RequestsComeFromTokens(front, url);
      forall r | r in AccountRequests(accounts, url)
        ensures r.url == url
        ensures exists i :: 0 <= i < |accounts| && StringTruthy(accounts[i].token)
                            && r.authorization == "OAUTH " + accounts[i].token.value
      {
        if r in AccountRequests(front, url) {
          var i :| 0 <= i < |front| && StringTruthy(front[i].token) && r.authorization == "OAUTH " + front[i].token.value;
          assert accounts[i] == front[i];
        } else {
          assert accounts[|accounts| - 1] == accounts[|accounts| - 1];
        }
      }
      if forall i :: 0 <= i < |accounts| ==> StringTruthy(accounts[i].token) {
        assert forall i :: 0 <= i < |front| ==> front[i] == accounts[i];
      }
    }
  }

  /** The requests for two runs of accounts are those of the first run, then those of the second. */
  lemma {:induction false} AccountRequestsAppend(xs: seq<Account>, ys: seq<Account>, url: string)
    ensures AccountRequests(xs + ys, url) == AccountRequests(xs, url) + AccountRequests(ys, url)
    decreases |ys|
  {
    if ys == [] {
      assert xs + ys == xs;
    } else {
      var front := ys[..|ys| - 1];
      AccountRequestsAppend(xs, front, url);
      assert (xs + ys)[..|xs + ys| - 1] == xs + front;
      assert (xs + ys)[|xs + ys| - 1] == ys[|ys| - 1];
    }
  }

  /**
   * Each account contributes on its own, in its place: exactly one request,
   * with its own token, when that token is truthy, and none otherwise.
   */
  lemma EachAccountContributes(before: seq<Account>, account: Account, after: seq<Account>, url: string)
    ensures AccountRequests(before + [account] + after, url)
         == AccountRequests(before, url)
            + (if StringTruthy(account.token) then [AccountRequest(url, "OAUTH " + account.token.value)] else [])
            + AccountRequests(after, url)
  {
    AccountRequestsAppend(before, [account], url);
    AccountRequestsAppend(before + [account], after, url);
    assert [account][..0] == [];
  }

  /** An account whose token is falsy is skipped: removing it changes no request. */
  lemma {:induction false} TokenlessAccountIssuesNothing(before: seq<Account>, account: Account, after: seq<Account>, url: string)
    requires !StringTruthy(account.token)
    ensures AccountRequests(before + [account] + after, url) == AccountRequests(before + after, url)
    decreases |after|
  {
    if after == [] {
      assert before + [account] + after == before + [account];
      assert (before + [account])[..|before|] == before;
      assert before + after == before;
    } else {
      var front := after[..|after| - 1];
      var last := after[|after| - 1];
      TokenlessAccountIssuesNothing(before, account, front, url);
      assert before + [account] + after == (before + [account] + front) + [last];
      assert (before + [account] + after)[..|before + [account] + after| - 1] == before + [account] + front;
      assert before + after == (before + front) + [last];
      assert (before + after)[..|before + after| - 1] == before + front;
    }
  }

  /** `config.sensrApi`: an object whose endpoint fields are rewritten in place. */
  class SensrApiConfig {
    var baseUrl: Option<string>
    var camerasBaseUrl: Option<string>
    var camerasOwnedUrl: Option<string>

    /** `{}`. */
    constructor Empty()
      ensures baseUrl.None? && camerasBaseUrl.None? && camerasOwnedUrl.None?
    {
      baseUrl := None;
      camerasBaseUrl := None;
      camerasOwnedUrl := None;
    }

    function Settings(): ApiSettings
      reads this
    {
      ApiSettings(baseUrl, camerasBaseUrl, camerasOwnedUrl)
    }
  }

  /** The platform's configuration object: the parts the platform reads. */
  class Config {
    var sensrApi: Option<SensrApiConfig>
    var accounts: Option<seq<Account>>

    /** `{}`. */
    constructor Empty()
      ensures sensrApi.None? && accounts.None?
    {
      sensrApi := None;
      accounts := None;
    }
  }

  /** The `sensrApi` object, if there is one. */
  function ApiObject(a: Option<SensrApiConfig>): set<object> {
    if a.Some? then {a.value} else {}
  }

  /** The endpoint fields of a possibly missing `sensrApi` object. */
  function SettingsOf(a: Option<SensrApiConfig>): ApiSettings
    reads ApiObject(a)
  {
    if a.Some? then a.value.Settings() else ApiSettings(None, None, None)
  }

  class SensrPlatform {
    const config: Config
    const api: HomebridgeApi

    /** The configuration has been cleaned, so an owned-cameras URL exists. */
    predicate Valid()
      reads config, ApiObject(config.sensrApi)
    {
      config.sensrApi.Some? && config.sensrApi.value.camerasOwnedUrl.Some?
    }

    /** Field assignment of the constructor; the guard and clean-up are in `Create`. */
    constructor (config: Config, api: HomebridgeApi)
      ensures this.config == config && this.api == api
    {
      this.config := config;
      this.api := api;
    }

    /**
     * `_configureSensrApi`: the existing `sensrApi` object (or a new empty
     * one) gets its endpoints cleaned and is stored back in the
     * configuration; the accounts are left alone.
     */
    method ConfigureSensrApi()
      modifies config, ApiObject(config.sensrApi)
      ensures config.sensrApi.Some?
      ensures old(config.sensrApi).Some? ==> config.sensrApi == old(config.sensrApi)
      ensures old(config.sensrApi).None? ==> fresh(config.sensrApi.value)
      ensures config.sensrApi.value.Settings() == Configure(old(SettingsOf(config.sensrApi)))
      ensures config.accounts == old(config.accounts)
      ensures Valid()
    {
      var sensrApi: SensrApiConfig;
      if config.sensrApi.Some? {
        sensrApi := config.sensrApi.value;
      } else {
        sensrApi := new SensrApiConfig.Empty();
      }
      sensrApi.baseUrl := Some(SanitizeUrlSlash(StringOr(sensrApi.baseUrl, DefaultBaseUrl)));
      sensrApi.camerasBaseUrl := Some(SanitizeUrlSlash(StringOr(sensrApi.camerasBaseUrl, sensrApi.baseUrl.value + "cameras/")));
      sensrApi.camerasOwnedUrl := Some(StringOr(sensrApi.camerasOwnedUrl, sensrApi.camerasBaseUrl.value + "owned.json"));
      config.sensrApi := Some(sensrApi);
    }

    /**
     * `_processSensrAccounts`: an account without a truthy token issues no
     * request; any other account issues one request to the owned-cameras
     * URL with an `OAUTH` authorization header.
     */
    method ProcessSensrAccount(account: Account) returns (request: Option<AccountRequest>)
      requires Valid()
      ensures request.None? <==> !StringTruthy(account.token)
      ensures request.Some? ==>
        request.value == AccountRequest(config.sensrApi.value.camerasOwnedUrl.value, "OAUTH " + account.token.value)
    {
      var token := account.token;
      if !StringTruthy(token) {
        return None;
      }
      request := Some(AccountRequest(config.sensrApi.value.camerasOwnedUrl.value, "OAUTH " + token.value));
    }

    /**
     * `didFinishLaunching`: each configured account is processed in turn;
     * without an `accounts` entry nothing is issued.
     */
    method DidFinishLaunching() returns (requests: seq<AccountRequest>)
      requires Valid()
      ensures config.accounts.None? ==> requests == []
      ensures config.accounts.Some? ==>
        requests == AccountRequests(config.accounts.value, config.sensrApi.value.camerasOwnedUrl.value)
    {
      requests := [];
      if config.accounts.Some? {
        var accounts := config.accounts.value;
        var url := config.sensrApi.value.camerasOwnedUrl.value;
        for i := 0 to |accounts|
          invariant requests == AccountRequests(accounts[..i], url)
        {
          var request := ProcessSensrAccount(accounts[i]);
          assert accounts[..i + 1][..i] == accounts[..i];
          if request.Some? {
            requests := requests + [request.value];
          }
        }
        assert accounts[..|accounts|] == accounts;
      }
    }
  }

  /** Every object the constructor may change: the caller's configuration and its `sensrApi`. */
  function ConfigObjects(config: Option<Config>): set<object>
    reads if config.Some? then {config.value} else {}
  {
    if config.Some? then {config.value} + ApiObject(config.value.sensrApi) else {}
  }

  /**
   * `new SensrPlatform(log, config, api)`: `config || {}` becomes the
   * configuration; a missing API or one older than 2.1 throws before
   * anything changes; otherwise the Sensr.net endpoints are cleaned in the
   * configuration object itself.
   */
  method Create(config: Option<Config>, api: Option<HomebridgeApi>) returns (platform: Result<SensrPlatform>)
    modifies ConfigObjects(config)
    ensures platform.Failure? <==> Rejects(api)
    ensures platform.Failure? ==> platform.message == ApiVersionError
    ensures platform.Failure? && config.Some? ==>
      unchanged(config.value) && unchanged(ApiObject(config.value.sensrApi))
    ensures platform.Success? ==>
      && fresh(platform.value)
      && platform.value.api == api.value
      && (config.Some? ==> platform.value.config == config.value)
      && (config.None? ==> fresh(platform.value.config))
      && platform.value.Valid()
      && platform.value.config.sensrApi.value.Settings()
         == Configure(if config.Some? then old(SettingsOf(config.value.sensrApi)) else ApiSettings(None, None, None))
      && platform.value.config.accounts == (if config.Some? then old(config.value.accounts) else None)
  {
    var target: Config;
    if config.Some? {
      target := config.value;
    } else {
      target := new Config.Empty();
    }
    if Rejects(api) {
      return Failure(ApiVersionError);
    }
    var self := new SensrPlatform(target, api.value);
    self.ConfigureSensrApi();
    platform := Success(self);
  }
}
