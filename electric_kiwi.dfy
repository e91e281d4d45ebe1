/** The Electric Kiwi integration's entry lifecycle: setup classifies a failed
    token validation by HTTP status, checks the token's scopes, and only then
    registers the entry under `hass.data["electric_kiwi"]`; unload removes the
    entry only when its platforms unloaded. */
module ElectricKiwi {
  import opened Wrappers

  const DOMAIN: string := "electric_kiwi"

  /** The vendor API client built on an entry's OAuth2 session, reduced to the
      account it serves. */
  datatype ApiClient = ApiClient(customerNumber: string, connectionId: string)

  /** What setup stores for an entry: an empty dict, or the API client. */
  datatype RegistryValue = EmptyDict | Client(api: ApiClient)

  /** How `session.async_ensure_token_valid()` ended. A ClientResponseError
      carries the HTTP status; any other aiohttp ClientError carries nothing. */
  datatype TokenValidation = TokenValid | ClientResponseError(status: int) | OtherClientError

  /** The two exceptions setup raises to the host: ConfigEntryAuthFailed and
      ConfigEntryNotReady. */
  datatype SetupError = AuthFailed | NotReady

  /** The token's "scope" entry: a list of scopes, or a text in which Python's
      `in` looks for a substring. */
  datatype ScopeValue = ScopeList(items: seq<string>) | ScopeText(text: string)

  datatype Token = Token(scope: Option<ScopeValue>)

  /** The stored config-entry data; only its "token" key is read. */
  datatype EntryData = EntryData(token: Option<Token>)

  datatype ConfigEntry = ConfigEntry(entryId: string, data: EntryData)

  /** `entry.data.get("token", {}).get("scope", [])`: the token's scope when
      both are present, an empty list otherwise. */
  function TokenScopes(data: EntryData): (sv: ScopeValue)
    ensures data.token.Some? && data.token.value.scope.Some? ==> sv == data.token.value.scope.value
    ensures data.token.None? || data.token.value.scope.None? ==> sv == ScopeList([])
  {
    match data.token
    case None => ScopeList([])
    case Some(t) => if t.scope.Some? then t.scope.value else ScopeList([])
  }

  predicate IsPrefix(t: string, s: string) {
    |t| <= |s| && s[..|t|] == t
  }

  /** Python's `t in s` for two strings. */
  predicate IsSubstring(t: string, s: string)
    decreases |s|
  {
    IsPrefix(t, s) || (s != [] && IsSubstring(t, s[1..]))
  }

  /** Python's `required in scopes`. */
  predicate ScopeIn(required: string, scopes: ScopeValue) {
    match scopes
    case ScopeList(items) => required in items
    case ScopeText(text) => IsSubstring(required, text)
  }

  /** `async_entry_has_scopes`: the required scope (`get_feature_access(...).scope`,
      passed in) appears among the token's scopes. A missing token or a token
      without a scope counts as an empty list and gives false. */
  function EntryHasScopes(entry: ConfigEntry, required: string): (r: bool)
    ensures entry.data.token.None? ==> !r
    ensures entry.data.token.Some? && entry.data.token.value.scope.None? ==> !r
    ensures forall items :: entry.data.token == Some(Token(Some(ScopeList(items)))) ==> (r <==> required in items)
  {
    ScopeIn(required, TokenScopes(entry.data))
  }

  /** A text scope matches by substring: a token granting only "read_only"
      passes a check for "read". */
  lemma TextScopeMatchesSubstring()
    ensures EntryHasScopes(ConfigEntry("e", EntryData(Some(Token(Some(ScopeText("read_only")))))), "read")
  {
    assert IsPrefix("read", "read_only");
  }

  /** What `async_setup_entry` decides before it registers anything: the token
      check's except clauses in order, then the scope check. None means setup
      goes on. */
  function SetupCheck(token: TokenValidation, entry: ConfigEntry, required: string): (r: Option<SetupError>)
    ensures r == Some(AuthFailed) <==>
              (token.ClientResponseError? && 400 <= token.status < 500) ||
              (token.TokenValid? && !EntryHasScopes(entry, required))
    ensures r == Some(NotReady) <==>
              (token.ClientResponseError? && !(400 <= token.status < 500)) || token.OtherClientError?
    ensures r == None <==> token.TokenValid? && EntryHasScopes(entry, required)
  {
    match token
    case ClientResponseError(status) => if 400 <= status < 500 then Some(AuthFailed) else Some(NotReady)
    case OtherClientError => Some(NotReady)
    case TokenValid => if !EntryHasScopes(entry, required) then Some(AuthFailed) else None
  }

  type HassMap = map<string, map<string, RegistryValue>>

  /** `hass.data.get(DOMAIN, {})`. */
  function DomainEntries(data: HassMap): map<string, RegistryValue> {
    if DOMAIN in data then data[DOMAIN] else map[]
  }

  /** `hass.data.setdefault(DOMAIN, {})`. */
  function EnsureDomain(data: HassMap): (r: HassMap)
    ensures DOMAIN in r && r[DOMAIN] == DomainEntries(data)
    ensures forall d :: d != DOMAIN ==> (d in r <==> d in data)
    ensures forall d :: d != DOMAIN && d in data ==> r[d] == data[d]
  {
    data[DOMAIN := DomainEntries(data)]
  }

  /** The map after setup stores `v` for `entryId`. */
  function Register(data: HassMap, entryId: string, v: RegistryValue): (r: HassMap)
    ensures DOMAIN in r && entryId in r[DOMAIN] && r[DOMAIN][entryId] == v
    ensures forall e :: e != entryId ==> (e in r[DOMAIN] <==> e in DomainEntries(data))
    ensures forall e :: e != entryId && e in DomainEntries(data) ==> r[DOMAIN][e] == DomainEntries(data)[e]
    ensures forall d :: d != DOMAIN ==> (d in r <==> d in data)
    ensures forall d :: d != DOMAIN && d in data ==> r[d] == data[d]
  {
    data[DOMAIN := DomainEntries(data)[entryId := v]]
  }

  /** The entry is in the domain's map. */
  predicate IsRegistered(data: HassMap, entryId: string) {
    DOMAIN in data && entryId in data[DOMAIN]
  }

  /** The map after unload pops `entryId`. */
  function Unregister(data: HassMap, entryId: string): (r: HassMap)
    requires IsRegistered(data, entryId)
    ensures !IsRegistered(r, entryId) && DOMAIN in r
    ensures forall e :: e != entryId ==> (e in r[DOMAIN] <==> e in data[DOMAIN])
    ensures forall e :: e != entryId && e in data[DOMAIN] ==> r[DOMAIN][e] == data[DOMAIN][e]
    ensures forall d :: d != DOMAIN ==> (d in r <==> d in data)
  {
    data[DOMAIN := data[DOMAIN] - {entryId}]
  }

  /** Unloading an entry that setup registered, and that was not registered
      before, leaves the map as `setdefault` alone would have. */
  lemma UnloadUndoesSetup(data: HassMap, entryId: string, v: RegistryValue)
    requires !IsRegistered(data, entryId)
    ensures Unregister(Register(data, entryId, v), entryId) == EnsureDomain(data)
  {
    var after := Unregister(Register(data, entryId, v), entryId);
    assert after[DOMAIN] == DomainEntries(data);
  }

  /** The error paths register nothing: only the domain's map may appear. */
  lemma FailedSetupRegistersNothing(data: HassMap, entryId: string)
    ensures IsRegistered(EnsureDomain(data), entryId) <==> IsRegistered(data, entryId)
    ensures DomainEntries(EnsureDomain(data)) == DomainEntries(data)
  {
  }

  /** A failed lookup: `hass.data[DOMAIN].pop(entry_id)` found no such key. */
  datatype KeyError = KeyError(key: string)

  /** The host's `hass.data`, restricted to maps of per-entry values. */
  class HassData {
    var data: HassMap

    constructor ()
      ensures data == map[]
    {
      data := map[];
    }

    /** `async_setup_entry` as written: on success it stores an empty dict for
        the entry. */
    method AsyncSetupEntryAsWritten(entry: ConfigEntry, token: TokenValidation, required: string)
      returns (r: Result<bool, SetupError>)
      modifies this
      ensures r.Failure? <==> SetupCheck(token, entry, required).Some?
      ensures r.Failure? ==> r.error == SetupCheck(token, entry, required).value && data == EnsureDomain(old(data))
      ensures r.Success? ==> r.value && data == Register(old(data), entry.entryId, EmptyDict)
    {
      data := EnsureDomain(data);
      var check := SetupCheck(token, entry, required);
      if check.Some? {
        return Failure(check.value);
      }
      data := data[DOMAIN := data[DOMAIN][entry.entryId := EmptyDict]];
      return Success(true);
    }

    /** `async_setup_entry` storing the entry's API client, which is what the
        sensor platform reads back. */
    method AsyncSetupEntry(entry: ConfigEntry, token: TokenValidation, required: string, api: ApiClient)
      returns (r: Result<bool, SetupError>)
      modifies this
      ensures r.Failure? <==> SetupCheck(token, entry, required).Some?
      ensures r.Failure? ==> r.error == SetupCheck(token, entry, required).value && data == EnsureDomain(old(data))
      ensures r.Success? ==> r.value && data == Register(old(data), entry.entryId, Client(api))
    {
      data := EnsureDomain(data);
      var check := SetupCheck(token, entry, required);
      if check.Some? {
        return Failure(check.value);
      }
      data := data[DOMAIN := data[DOMAIN][entry.entryId := Client(api)]];
      return Success(true);
    }

    /** `async_unload_entry`: `unloadOk` is the host's platform-unload result. */
    method AsyncUnloadEntry(entry: ConfigEntry, unloadOk: bool) returns (r: Result<bool, KeyError>)
      modifies this
      ensures !unloadOk ==> r == Success(false) && data == old(data)
      ensures unloadOk && IsRegistered(old(data), entry.entryId) ==>
                r == Success(true) && data == Unregister(old(data), entry.entryId)
      ensures unloadOk && !IsRegistered(old(data), entry.entryId) ==> r.Failure? && data == old(data)
    {
      if !unloadOk {
        return Success(false);
      }
      if DOMAIN !in data {
        return Failure(KeyError(DOMAIN));
      }
      if entry.entryId !in data[DOMAIN] {
        return Failure(KeyError(entry.entryId));
      }
      data := data[DOMAIN := data[DOMAIN] - {entry.entryId}];
      return Success(true);
    }
  }
}
