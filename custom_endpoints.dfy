/**
 * Loading the custom endpoints of the configuration: keep the entries that
 * carry every required field, resolve their API key and base URL, skip those
 * whose key is empty or left to the user, and map each remaining endpoint's
 * normalized name to its configuration, a later entry overwriting an earlier
 * one of the same name.
 *
 * The three library helpers (resolving `${VAR}` references against the
 * environment, recognising the "user provided" marker, and normalizing an
 * endpoint name) are not modelled: they are parameters, so every property
 * below holds whatever they do.
 */
module CustomEndpoints {
  import opened Wrappers

  /** The three helpers the loader calls, left uninterpreted. */
  datatype Helpers = Helpers(
    extractEnvVariable: string -> string,
    isUserProvided: string -> bool,
    normalizeEndpointName: string -> string)

  datatype Models = Models(fetch: bool, default: Option<seq<string>>)

  /** Endpoint-specific request parameters, copied through unchanged. */
  datatype CustomParams = CustomParams(defaultParamsEndpoint: Option<string>, paramDefinitions: seq<string>)

  /** One entry of the configuration's custom endpoint list; every field may be absent. */
  datatype Endpoint = Endpoint(
    name: Option<string>,
    apiKey: Option<string>,
    baseURL: Option<string>,
    models: Option<Models>,
    iconURL: Option<string>,
    modelDisplayLabel: Option<string>,
    customParams: Option<CustomParams>)

  /** The value handed to the loader: absent (or falsy), some other non-array value, or a list. */
  datatype EndpointsInput = Undefined | NotAnArray | Endpoints(list: seq<Endpoint>)

  datatype EndpointType = Custom

  /** The configuration recorded for one endpoint name. */
  datatype EndpointConfig = EndpointConfig(
    endpointType: EndpointType,
    userProvide: bool,
    userProvideURL: bool,
    customParams: Option<CustomParams>,
    modelDisplayLabel: Option<string>,
    iconURL: Option<string>)

  /** JavaScript truthiness of an optional string: present and non-empty. */
  predicate Truthy(s: Option<string>) {
    s.Some? && s.value != ""
  }

  /** The filter: every required field present, and models either fetched or listed. */
  predicate HasRequiredFields(e: Endpoint) {
    && Truthy(e.baseURL)
    && Truthy(e.apiKey)
    && Truthy(e.name)
    && e.models.Some?
    && (e.models.value.fetch || e.models.value.default.Some?)
  }

  /** The entries that pass the filter, in their original order. */
  function FilterEndpoints(s: seq<Endpoint>): (r: seq<Endpoint>)
    ensures |r| <= |s|
    ensures forall e :: e in r <==> e in s && HasRequiredFields(e)
  {
    if s == [] then []
    else
      var last := s[|s| - 1];
      FilterEndpoints(s[..|s| - 1]) + (if HasRequiredFields(last) then [last] else [])
  }

  function ResolvedApiKey(h: Helpers, e: Endpoint): string {
    h.extractEnvVariable(e.apiKey.GetOr(""))
  }

  function ResolvedBaseURL(h: Helpers, e: Endpoint): string {
    h.extractEnvVariable(e.baseURL.GetOr(""))
  }

  /** The resolved key is non-empty and is not the "user provided" marker. */
  predicate HasValidApiKey(h: Helpers, e: Endpoint) {
    ResolvedApiKey(h, e) != "" && !h.isUserProvided(ResolvedApiKey(h, e))
  }

  /** An endpoint that contributes an entry: it passes the filter and has a valid key. */
  predicate Accepted(h: Helpers, e: Endpoint) {
    HasRequiredFields(e) && HasValidApiKey(h, e)
  }

  /** The map key of an endpoint (its name is present once the filter has passed it). */
  function Key(h: Helpers, e: Endpoint): string {
    h.normalizeEndpointName(e.name.GetOr(""))
  }

  /** The entry built for an endpoint whose key is valid. */
  function Entry(h: Helpers, e: Endpoint): EndpointConfig {
    EndpointConfig(
      Custom,
      h.isUserProvided(ResolvedApiKey(h, e)),
      h.isUserProvided(ResolvedBaseURL(h, e)),
      e.customParams,
      e.modelDisplayLabel,
      e.iconURL)
  }

  /** One iteration of the loop: skip an endpoint without a valid key, else (over)write its entry. */
  function Insert(h: Helpers, m: map<string, EndpointConfig>, e: Endpoint): (r: map<string, EndpointConfig>)
    ensures HasValidApiKey(h, e) ==> Key(h, e) in r && r[Key(h, e)] == Entry(h, e)
    ensures !HasValidApiKey(h, e) ==> r == m
    ensures forall k :: k != Key(h, e) ==> (k in r <==> k in m) && (k in m ==> r[k] == m[k])
  {
    if HasValidApiKey(h, e) then m[Key(h, e) := Entry(h, e)] else m
  }

  /** The map the loop has built after the endpoints `s`: no entry leaves its key to the user. */
  function BuildConfig(h: Helpers, s: seq<Endpoint>): (r: map<string, EndpointConfig>)
    ensures forall k :: k in r ==> r[k].endpointType == Custom && !r[k].userProvide
  {
    if s == [] then map[] else Insert(h, BuildConfig(h, s[..|s| - 1]), s[|s| - 1])
  }

  /** The map built from a whole endpoint list: every entry is of the custom type and uses an admin key. */
  function Load(h: Helpers, s: seq<Endpoint>): (r: map<string, EndpointConfig>)
    ensures forall k :: k in r ==> r[k].endpointType == Custom && !r[k].userProvide
  {
    BuildConfig(h, FilterEndpoints(s))
  }

  /** The loader's result: nothing for an absent input, an empty map for a non-array. */
  function LoadConfig(h: Helpers, input: EndpointsInput): (r: Option<map<string, EndpointConfig>>)
    ensures r.None? <==> input.Undefined?
    ensures input.NotAnArray? ==> r == Some(map[])
  {
    match input
    case Undefined => None
    case NotAnArray => Some(map[])
    case Endpoints(s) => Some(Load(h, s))
  }

  method LoadCustomEndpointsConfig(h: Helpers, input: EndpointsInput) returns (r: Option<map<string, EndpointConfig>>)
    ensures r == LoadConfig(h, input)
  {
    if input.Undefined? {
      return None;
    }
    var customEndpointsConfig: map<string, EndpointConfig> := map[];
    if input.Endpoints? {
      var filteredEndpoints := FilterEndpoints(input.list);
      for i := 0 to |filteredEndpoints|
        invariant customEndpointsConfig == BuildConfig(h, filteredEndpoints[..i])
      {
        assert filteredEndpoints[..i + 1][..i] == filteredEndpoints[..i];
        var endpoint := filteredEndpoints[i];
        var name := h.normalizeEndpointName(endpoint.name.GetOr(""));
        var resolvedApiKey := h.extractEnvVariable(endpoint.apiKey.GetOr(""));
        var resolvedBaseURL := h.extractEnvVariable(endpoint.baseURL.GetOr(""));
        var hasValidApiKey := resolvedApiKey != "" && !h.isUserProvided(resolvedApiKey);
        if !hasValidApiKey {
          continue;
        }
        customEndpointsConfig := customEndpointsConfig[name := EndpointConfig(
          Custom,
          h.isUserProvided(resolvedApiKey),
          h.isUserProvided(resolvedBaseURL),
          endpoint.customParams,
          endpoint.modelDisplayLabel,
          endpoint.iconURL)];
      }
      assert filteredEndpoints[..|filteredEndpoints|] == filteredEndpoints;
    }
    r := Some(customEndpointsConfig);
  }

  // ---------------------------------------------------------------------
  // Properties of the loaded map, stated over the original list
  // ---------------------------------------------------------------------

  /** Appending one endpoint to the list changes the map exactly when it is accepted. */
  lemma {:induction false} LoadSnoc(h: Helpers, s: seq<Endpoint>, e: Endpoint)
    ensures Load(h, s + [e]) == if Accepted(h, e) then Load(h, s)[Key(h, e) := Entry(h, e)] else Load(h, s)
  {
    var s' := s + [e];
    assert s'[..|s'| - 1] == s;
    var f := FilterEndpoints(s);
    if HasRequiredFields(e) {
      assert FilterEndpoints(s') == f + [e];
      assert (f + [e])[..|f|] == f;
    } else {
      assert FilterEndpoints(s') == f;
    }
  }

  /** The loaded names are exactly the normalized names of the accepted endpoints. */
  lemma {:induction false} LoadedKeys(h: Helpers, s: seq<Endpoint>)
    ensures Load(h, s).Keys == set e | e in s && Accepted(h, e) :: Key(h, e)
  {
    if s == [] {
      assert FilterEndpoints(s) == [];
    } else {
      var s0, last := s[..|s| - 1], s[|s| - 1];
      assert s == s0 + [last];
      LoadedKeys(h, s0);
      LoadSnoc(h, s0, last);
      var added: set<string> := if Accepted(h, last) then {Key(h, last)} else {};
      assert Load(h, s).Keys == Load(h, s0).Keys + added;
      var want := set e | e in s && Accepted(h, e) :: Key(h, e);
      var want0 := set e | e in s0 && Accepted(h, e) :: Key(h, e);
      assert want == want0 + added by {
        forall k | k in want ensures k in want0 + added {
          var e :| e in s && Accepted(h, e) && Key(h, e) == k;
          if e != last { assert e in s0; }
        }
      }
    }
  }

  /**
   * Every loaded entry was built from an accepted endpoint of that name: its
   * flags come from that endpoint's resolved key and base URL, and its
   * parameters, label and icon are that endpoint's.
   */
  lemma {:induction false} LoadedEntryProvenance(h: Helpers, s: seq<Endpoint>)
    ensures forall k :: k in Load(h, s) ==>
      exists e :: e in s && Accepted(h, e) && Key(h, e) == k && Load(h, s)[k] == Entry(h, e)
  {
    if s != [] {
      var s0, last := s[..|s| - 1], s[|s| - 1];
      assert s == s0 + [last];
      LoadedEntryProvenance(h, s0);
      LoadSnoc(h, s0, last);
      forall k | k in Load(h, s)
        ensures exists e :: e in s && Accepted(h, e) && Key(h, e) == k && Load(h, s)[k] == Entry(h, e)
      {
        if Accepted(h, last) && k == Key(h, last) {
          assert last in s;
        } else {
          var e :| e in s0 && Accepted(h, e) && Key(h, e) == k && Load(h, s0)[k] == Entry(h, e);
          assert e in s;
        }
      }
    }
  }

  /** Among accepted endpoints of the same name, the last one in the list is the one loaded. */
  lemma {:induction false} LastAcceptedWins(h: Helpers, s: seq<Endpoint>, j: int)
    requires 0 <= j < |s| && Accepted(h, s[j])
    requires forall i :: j < i < |s| ==> !(Accepted(h, s[i]) && Key(h, s[i]) == Key(h, s[j]))
    ensures Key(h, s[j]) in Load(h, s) && Load(h, s)[Key(h, s[j])] == Entry(h, s[j])
  {
    var s0, last := s[..|s| - 1], s[|s| - 1];
    assert s == s0 + [last];
    LoadSnoc(h, s0, last);
    if j < |s| - 1 {
      LastAcceptedWins(h, s0, j);
    }
  }

  /** An endpoint that fails the filter or has no valid key can be removed without changing the map. */
  lemma {:induction false} RejectedEndpointIsIgnored(h: Helpers, s1: seq<Endpoint>, e: Endpoint, s2: seq<Endpoint>)
    requires !Accepted(h, e)
    ensures Load(h, s1 + [e] + s2) == Load(h, s1 + s2)
  {
    if s2 == [] {
      assert s1 + [e] + s2 == s1 + [e];
      assert s1 + s2 == s1;
      LoadSnoc(h, s1, e);
    } else {
      var t, x := s2[..|s2| - 1], s2[|s2| - 1];
      assert s2 == t + [x];
      RejectedEndpointIsIgnored(h, s1, e, t);
      assert s1 + [e] + s2 == (s1 + [e] + t) + [x];
      assert s1 + s2 == (s1 + t) + [x];
      LoadSnoc(h, s1 + [e] + t, x);
      LoadSnoc(h, s1 + t, x);
    }
  }
}
