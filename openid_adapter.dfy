/**
 * The OpenID 2.0 adapter: its configuration check, the three-way
 * `authenticate` decision, the begin and finish halves of the login, the
 * connected flag kept in one storage slot, and `disconnect` and
 * `getUserProfile`.
 *
 * The LightOpenID client is an oracle: what the provider's callback carried
 * (`mode`), whether the assertion verifies (`validate()`), the released
 * attributes (`getAttributes()`) and the identity it reports are fixed
 * values handed to it when it is created.
 */
module OpenId {
  import opened Wrappers
  import opened PhpStrings
  import opened UserProfile
  import opened SessionStore

  /** The adapter's exceptions, with the codes they are thrown with, and
      ClientFailure: an exception raised inside LightOpenID (discovery in
      `authUrl()`, verification in `validate()`) that the adapter lets pass.
      Its code is LightOpenID's business and is written 0 here. */
  datatype AuthError = MissingIdentifier | UserCancelled | InvalidRequest | NotConnected | ClientFailure {
    function Code(): (code: int)
      ensures code == 0 <==> this == ClientFailure
      ensures code == 4 <==> this == MissingIdentifier
      ensures code == 5 <==> this == UserCancelled || this == InvalidRequest
      ensures code == 6 <==> this == NotConnected
    {
      match this
      case MissingIdentifier => 4
      case UserCancelled => 5
      case InvalidRequest => 5
      case NotConnected => 6
      case ClientFailure => 0
    }
  }

  /** How `authenticate` ended when it did not throw: it found the user
      connected, it redirected to the provider's URL, or it stored the profile. */
  datatype Step = AlreadyAuthorized | RedirectIssued(url: string) | ProfileStored

  /** What the LightOpenID client answers in the request it was created in:
      the URL `authUrl()` discovers (None: it throws), the `openid_mode` it
      saw, the verdict of `validate()` (None: it throws), the attributes
      `getAttributes()` returns, and the identity it holds after validation. */
  datatype ProviderResponse = ProviderResponse(
    authUrl: Option<string>,
    mode: string,
    validation: Option<bool>,
    attributes: AttributeBag,
    claimedId: string)

  /** The storage key of the connected flag / stored profile. */
  function UserSlotKey(providerId: string): (key: string)
    ensures |key| == |providerId| + 5 && key[..|providerId|] == providerId && key[|providerId|..] == ".user"
  {
    providerId + ".user"
  }

  /** The host handed to LightOpenID: the endpoint's host, followed by ":"
      and the port when the endpoint names a (non-zero) port. */
  function HostUrl(host: string, port: Option<nat>): (url: string)
    ensures |host| <= |url| && url[..|host|] == host
    ensures url == host <==> port.None? || port.value == 0
  {
    if port.Some? && port.value != 0 then host + ":" + NatToDecimal(port.value) else host
  }

  /** Position of the first ':' in `s`, or |s| when there is none. */
  function ColonIndex(s: string): (i: nat)
    ensures i <= |s|
    ensures forall k :: 0 <= k < i ==> s[k] != ':'
    ensures i < |s| ==> s[i] == ':'
  {
    if s == [] || s[0] == ':' then 0 else 1 + ColonIndex(s[1..])
  }

  /** Splits "host:port" back into its parts; the reference for HostUrl. */
  function SplitHostUrl(url: string): (string, Option<nat>) {
    var i := ColonIndex(url);
    if i == |url| then (url, None)
    else
      var digits := url[i + 1..];
      (url[..i], if digits != [] && AllDigits(digits) then Some(DecimalValue(digits)) else None)
  }

  /** A host without ':' and its port are recovered from the composed host
      URL; a zero port is dropped like an absent one. */
  lemma HostUrlRoundTrip(host: string, port: Option<nat>)
    requires ':' !in host
    ensures SplitHostUrl(HostUrl(host, port)) ==
      (host, if port.Some? && port.value != 0 then port else None)
  {
    var url := HostUrl(host, port);
    if port.Some? && port.value != 0 {
      var digits := NatToDecimal(port.value);
      assert url[|host|] == ':';
      assert forall k :: 0 <= k < |host| ==> url[k] == host[k];
      assert ColonIndex(url) == |host|;
      assert url[|host| + 1..] == digits;
      DecimalRoundTrip(port.value);
    } else {
      assert forall k :: 0 <= k < |host| ==> host[k] != ':';
    }
  }

  // ----- the session state machine on values --------------------------------

  /** A result together with the storage it leaves behind. */
  datatype Transition = Transition(result: Result<Step, AuthError>, store: Store)

  /** `isAuthorized`: the slot under `key` holds a truthy value. */
  predicate Connected(store: Store, key: string)
    ensures Connected(store, key) ==> key in store
    ensures Get(store, key).ProfileObject? ==> Connected(store, key)
  {
    IsTruthy(Get(store, key))
  }

  /** `authenticateFinish`: a cancelled or unverifiable callback throws code 5,
      and an exception of `validate()` passes through; none of them writes.
      Otherwise the normalised profile is stored under `key` and under no
      other key. */
  function FinishTransition(store: Store, key: string, response: ProviderResponse): (t: Transition)
    ensures t.result.Err? ==> t.store == store
    ensures t.result.Err? ==> (t.result.error == UserCancelled <==> response.mode == "cancel")
    ensures t.result.Err? && t.result.error != ClientFailure ==> t.result.error.Code() == 5
    ensures t.result.Err? ==> (t.result.error == ClientFailure <==> response.mode != "cancel" && response.validation.None?)
    ensures t.result.Ok? <==> response.mode != "cancel" && response.validation == Some(true)
    ensures t.result.Ok? ==>
      && t.result.value == ProfileStored
      && Get(t.store, key) == ProfileObject(FetchUserProfile(response.attributes, response.claimedId))
      && forall k :: k != key ==> Get(t.store, k) == Get(store, k)
  {
    if response.mode == "cancel" then Transition(Err(UserCancelled), store)
    else if response.validation.None? then Transition(Err(ClientFailure), store)
    else if !response.validation.value then Transition(Err(InvalidRequest), store)
    else Transition(Ok(ProfileStored), Set(store, key, ProfileObject(FetchUserProfile(response.attributes, response.claimedId))))
  }

  /** `authenticateBegin`'s outcome: a redirect to the URL `authUrl()`
      discovered, or the exception discovery raised. */
  function BeginResult(response: ProviderResponse): (r: Result<Step, AuthError>)
    ensures r.Ok? <==> response.authUrl.Some?
    ensures r.Ok? ==> r.value == RedirectIssued(response.authUrl.value)
    ensures r.Err? ==> r.error == ClientFailure
  {
    match response.authUrl
    case Some(url) => Ok(RedirectIssued(url))
    case None => Err(ClientFailure)
  }

  /** `authenticate`: connected users are let through, otherwise the login
      begins when the request has no `openid_mode` and finishes when it has. */
  function AuthenticateTransition(store: Store, key: string, openidModeSet: bool, response: ProviderResponse): Transition {
    if Connected(store, key) then Transition(Ok(AlreadyAuthorized), store)
    else if !openidModeSet then Transition(BeginResult(response), store)
    else FinishTransition(store, key, response)
  }

  /** `getUserProfile`: the stored value when it is a profile object, code 6
      otherwise. */
  function StoredProfile(store: Store, key: string): (r: Result<Profile, AuthError>)
    ensures r.Ok? <==> Get(store, key).ProfileObject?
    ensures r.Ok? ==> Get(store, key) == ProfileObject(r.value)
    ensures r.Err? ==> r.error == NotConnected && r.error.Code() == 6
  {
    match Get(store, key)
    case ProfileObject(p) => Ok(p)
    case _ => Err(NotConnected)
  }

  /** A connected user is let through whatever the request and the client say,
      and the storage is left as it is. */
  lemma AuthenticateShortCircuit(store: Store, key: string, mode1: bool, response1: ProviderResponse,
                                 mode2: bool, response2: ProviderResponse)
    requires Connected(store, key)
    ensures AuthenticateTransition(store, key, mode1, response1) == Transition(Ok(AlreadyAuthorized), store)
    ensures AuthenticateTransition(store, key, mode1, response1) == AuthenticateTransition(store, key, mode2, response2)
  {
  }

  /** `authenticate` changes the storage only by finishing a login whose
      callback was neither cancelled nor rejected, and then only under `key`. */
  lemma AuthenticateWritesOnlyAfterValidation(store: Store, key: string, openidModeSet: bool, response: ProviderResponse)
    ensures var t := AuthenticateTransition(store, key, openidModeSet, response);
      && (t.store != store ==> openidModeSet && response.mode != "cancel" && response.validation == Some(true)
                               && !Connected(store, key))
      && (t.result.Err? ==> t.store == store)
      && forall k :: k != key ==> Get(t.store, k) == Get(store, k)
  {
  }

  /** After `authenticate` stored a profile the user is connected: a second
      `authenticate` returns at once, with any request and any client,
      without touching the storage, and `getUserProfile` returns the profile
      built from the released attributes. */
  lemma AuthenticateIdempotentAfterFinish(store: Store, key: string, openidModeSet: bool, response: ProviderResponse,
                                          again: bool, response2: ProviderResponse)
    requires AuthenticateTransition(store, key, openidModeSet, response).result == Ok(ProfileStored)
    ensures var t := AuthenticateTransition(store, key, openidModeSet, response);
      && Connected(t.store, key)
      && AuthenticateTransition(t.store, key, again, response2) == Transition(Ok(AlreadyAuthorized), t.store)
      && StoredProfile(t.store, key) == Ok(FetchUserProfile(response.attributes, response.claimedId))
  {
  }

  /** After `disconnect` the user is not connected and `getUserProfile` fails. */
  lemma DisconnectDisconnects(store: Store, key: string)
    ensures !Connected(Delete(store, key), key)
    ensures StoredProfile(Delete(store, key), key) == Err(NotConnected)
  {
  }

  // ----- the objects ------------------------------------------------------

  /** The LightOpenID client, with the fields the adapter sets and reads. */
  class LightOpenIdClient {
    const host: string
    const response: ProviderResponse
    var identity: string
    var returnUrl: string
    var required: seq<string>

    constructor (host: string, response: ProviderResponse)
      ensures this.host == host && this.response == response
      ensures identity == "" && required == []
    {
      this.host := host;
      this.response := response;
      identity := "";
      returnUrl := "";
      required := [];
    }

    /** `authUrl()`: the URL discovery found, or the exception it raised. */
    method AuthUrl() returns (r: Result<string, AuthError>)
      ensures response.authUrl.Some? ==> r == Ok(response.authUrl.value)
      ensures response.authUrl.None? ==> r == Err(ClientFailure)
    {
      match response.authUrl
      case Some(url) => r := Ok(url);
      case None => r := Err(ClientFailure);
    }

    /** `validate()`: the oracle's verdict, or the exception it raised; the
        client then reports the identity the provider asserted. */
    method Validate() returns (r: Result<bool, AuthError>)
      modifies this`identity
      ensures response.validation.Some? ==> r == Ok(response.validation.value)
      ensures response.validation.None? ==> r == Err(ClientFailure)
      ensures identity == response.claimedId
    {
      identity := response.claimedId;
      match response.validation
      case Some(ok) => r := Ok(ok);
      case None => r := Err(ClientFailure);
    }

    /** `getAttributes()`. */
    method GetAttributes() returns (attributes: AttributeBag)
      ensures attributes == response.attributes
    {
      attributes := response.attributes;
    }
  }

  /** The adapter. Its session state is the one slot `UserSlotKey(providerId)` of
      `storage`; the slot being truthy is the connected flag. */
  class OpenIdAdapter {
    const providerId: string
    const endpoint: string
    var openidIdentifier: string
    var client: LightOpenIdClient?
    var storage: Store

    /** The adapter before `initialize`: no identifier, no client. */
    constructor (providerId: string, endpoint: string, storage: Store)
      ensures this.providerId == providerId && this.endpoint == endpoint && this.storage == storage
      ensures openidIdentifier == "" && client == null
    {
      this.providerId := providerId;
      this.endpoint := endpoint;
      this.storage := storage;
      openidIdentifier := "";
      client := null;
    }

    function UserKey(): string {
      UserSlotKey(providerId)
    }

    /** `initialize`: takes `openid_identifier` from the configuration when
        it has one, throws code 4 when the identifier is then empty (to PHP),
        and otherwise creates the client for the endpoint's host and port. */
    method Initialize(config: map<string, string>, endpointHost: string, endpointPort: Option<nat>,
                      request: ProviderResponse) returns (r: Result<(), AuthError>)
      modifies this`openidIdentifier, this`client
      ensures openidIdentifier ==
        if "openid_identifier" in config then config["openid_identifier"] else old(openidIdentifier)
      ensures r.Err? <==> !Truthy(openidIdentifier)
      ensures r.Err? ==> r.error == MissingIdentifier && client == old(client)
      ensures r.Ok? ==> && client != null && fresh(client)
                        && client.host == HostUrl(endpointHost, endpointPort)
                        && client.response == request
                        && client.identity == "" && client.required == []
    {
      if "openid_identifier" in config {
        openidIdentifier := config["openid_identifier"];
      }
      if !Truthy(openidIdentifier) {
        return Err(MissingIdentifier);
      }
      client := new LightOpenIdClient(HostUrl(endpointHost, endpointPort), request);
      r := Ok(());
    }

    /** `isAuthorized`: true exactly when the user slot is present and truthy. */
    function IsAuthorized(): (b: bool)
      reads this
      ensures b ==> UserKey() in storage
      ensures b <==> UserKey() in storage && IsTruthy(storage[UserKey()])
    {
      Connected(storage, UserKey())
    }

    /** `authenticate`, with the presence of `$_GET['openid_mode']` passed in. */
    method Authenticate(openidModeSet: bool) returns (r: Result<Step, AuthError>)
      requires client != null
      modifies this`storage, client`identity, client`returnUrl, client`required
      ensures Transition(r, storage) ==
        AuthenticateTransition(old(storage), UserKey(), openidModeSet, client.response)
      ensures old(IsAuthorized()) ==> unchanged(client)
      ensures !old(IsAuthorized()) && !openidModeSet ==>
        && client.identity == openidIdentifier
        && client.returnUrl == endpoint
        && client.required == RequiredAttributes
      ensures !old(IsAuthorized()) && openidModeSet ==>
        && client.returnUrl == old(client.returnUrl)
        && client.required == old(client.required)
        && client.identity == if client.response.mode == "cancel" then old(client.identity)
                              else client.response.claimedId
    {
      if IsAuthorized() {
        return Ok(AlreadyAuthorized);
      }
      if !openidModeSet {
        r := AuthenticateBegin();
        return;
      }
      r := AuthenticateFinish();
    }

    /** `disconnect`: deletes the user slot and nothing else, and succeeds. */
    method Disconnect() returns (ok: bool)
      modifies this`storage
      ensures ok
      ensures storage == Delete(old(storage), UserKey())
      ensures !IsAuthorized()
    {
      storage := Delete(storage, UserKey());
      ok := true;
    }

    /** `authenticateBegin`: points the client at the configured identifier and
        the endpoint, requests the fixed attribute list, and redirects to the
        URL discovery finds (or passes on the exception discovery raises). */
    method AuthenticateBegin() returns (r: Result<Step, AuthError>)
      requires client != null
      modifies client`identity, client`returnUrl, client`required
      ensures client.identity == openidIdentifier
      ensures client.returnUrl == endpoint
      ensures client.required == RequiredAttributes
      ensures r == BeginResult(client.response)
    {
      client.identity := openidIdentifier;
      client.returnUrl := endpoint;
      client.required := RequiredAttributes;
      var url := client.AuthUrl();
      if url.Err? {
        return Err(url.error);
      }
      r := Ok(RedirectIssued(url.value));
    }

    /** `authenticateFinish`: rejects a cancelled callback, then one that does
        not validate, and only then stores the normalised profile. */
    method AuthenticateFinish() returns (r: Result<Step, AuthError>)
      requires client != null
      modifies this`storage, client`identity
      ensures Transition(r, storage) == FinishTransition(old(storage), UserKey(), client.response)
      ensures client.identity == if client.response.mode == "cancel" then old(client.identity)
                                 else client.response.claimedId
    {
      if client.response.mode == "cancel" {
        return Err(UserCancelled);
      }
      var valid := client.Validate();
      if valid.Err? {
        return Err(valid.error);
      }
      if !valid.value {
        return Err(InvalidRequest);
      }
      var attributes := client.GetAttributes();
      var profile := FetchUserProfile(attributes, client.identity);
      storage := Set(storage, UserKey(), ProfileObject(profile));
      r := Ok(ProfileStored);
    }

    /** `getUserProfile`: the stored profile object, or code 6; storage is
        only read. */
    method GetUserProfile() returns (r: Result<Profile, AuthError>)
      ensures r == StoredProfile(storage, UserKey())
    {
      var stored := Get(storage, UserKey());
      if !stored.ProfileObject? {
        return Err(NotConnected);
      }
      r := Ok(stored.profile);
    }
  }

  /** A whole login across the two HTTP requests it spans, each served by a
      fresh adapter over the same storage: the first request has no
      `openid_mode` and redirects to the discovered URL; the second carries a valid callback and
      stores the profile; a further `authenticate` in that request then
      returns at once, and `getUserProfile` returns the stored profile. */
  method LoginAcrossRequests(providerId: string, endpoint: string, identifier: string,
                             host: string, port: Option<nat>, store: Store,
                             beginRequest: ProviderResponse, callback: ProviderResponse)
    returns (begin: Result<Step, AuthError>, finish: Result<Step, AuthError>,
             again: Result<Step, AuthError>, profile: Result<Profile, AuthError>, finalStore: Store)
    requires Truthy(identifier)
    requires !Connected(store, UserSlotKey(providerId))
    requires beginRequest.authUrl.Some?
    requires callback.mode != "cancel" && callback.validation == Some(true)
    ensures begin == Ok(RedirectIssued(beginRequest.authUrl.value))
    ensures finish == Ok(ProfileStored)
    ensures again == Ok(AlreadyAuthorized)
    ensures profile == Ok(FetchUserProfile(callback.attributes, callback.claimedId))
    ensures finalStore == Set(store, UserSlotKey(providerId), ProfileObject(FetchUserProfile(callback.attributes, callback.claimedId)))
  {
    var config := map["openid_identifier" := identifier];

    var first := new OpenIdAdapter(providerId, endpoint, store);
    var init1 := first.Initialize(config, host, port, beginRequest);
    begin := first.Authenticate(false);

    var second := new OpenIdAdapter(providerId, endpoint, first.storage);
    var init2 := second.Initialize(config, host, port, callback);
    finish := second.Authenticate(true);
    again := second.Authenticate(true);
    profile := second.GetUserProfile();
    finalStore := second.storage;
  }
}
