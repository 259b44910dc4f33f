/** The request dispatcher of the web-service workers (webservice::BaseWorker in
    WS_commons/baseworker.h): two name-indexed tables of APIs and their metadata, the
    splitting of a request into parameters, and the choice of the API from the path. */
module WebService {
  import opened Wrappers
  import opened Text
  import opened PercentDecoding

  datatype RequestMethod = GET | POST

  datatype RequestData = RequestData(
    requestMethod: RequestMethod,
    path: string,
    rawParams: string,
    data: string,
    params: map<string, string>)

  datatype ResponseData = ResponseData(contentType: string, response: string, api: string)

  /** An API handler. The worker's data argument is not modelled. */
  type ApiFun = RequestData -> ResponseData

  /** The parameter types that the help page knows. */
  datatype ParameterType = STRING | INT | DOUBLE | DATE | TIME | DATETIME | BOOLEAN | STRINGLIST

  datatype ApiParameter = ApiParameter(
    description: string,
    paramType: ParameterType,
    mandatory: bool,
    acceptedValues: seq<string>)

  datatype ApiMetadata = ApiMetadata(description: string, params: map<string, ApiParameter>)

  /** The answer to a request naming no registered API. */
  const UnknownApiResponse := ResponseData("text/xml", "<error>API inconnue</error>", "")

  /** The descriptions add_default_api registers. */
  const HelpDescription := "Liste des APIs utilisables"
  const StatsDescription := "Statistiques sur les appels d'api"
  const AnalyzeDescription := "Analyze une requête"
  const AnalyzeApiDescription := "Nom de l'api à analyser. Rajouter ensuite tous les paramètres habituels"

  /** The parameter one `&`-separated token yields: the lower-cased text before the first '='
      and the text after it, or the lower-cased token with an empty value when it has no '='.
      An empty token yields nothing. */
  function TokenEntry(token: string): (r: Option<(string, string)>)
    ensures token == "" ==> r == None
    ensures token != "" && '=' !in token ==> r == Some((ToLower(token), ""))
    ensures '=' in token ==>
              exists p :: 0 <= p < |token| && token[p] == '=' && '=' !in token[..p]
                          && r == Some((ToLower(token[..p]), token[p + 1..]))
  {
    match IndexOf(token, '=', 0)
    case Some(pos) =>
      assert '=' !in token[..pos] by {
        forall k | 0 <= k < pos ensures token[..pos][k] != '=' { }
      }
      Some((ToLower(token[..pos]), token[pos + 1..]))
    case None =>
      if |token| > 0 && token[0] != '=' then Some((ToLower(token), "")) else None
  }

  /** `request.params.insert(...)` for one token: std::map::insert keeps an existing value. */
  function AddToken(params: map<string, string>, token: string): map<string, string>
  {
    match TokenEntry(token)
    case None => params
    case Some((key, value)) => if key in params then params else params[key := value]
  }

  /** The parameter table after inserting the tokens in order. */
  function InsertTokens(params: map<string, string>, tokens: seq<string>): map<string, string>
  {
    if |tokens| == 0 then params
    else AddToken(InsertTokens(params, tokens[..|tokens| - 1]), tokens[|tokens| - 1])
  }

  predicate YieldsKey(token: string, key: string) {
    TokenEntry(token).Some? && TokenEntry(token).value.0 == key
  }

  /** The keys of the table: those it had and those some token yields. */
  lemma {:induction false} InsertTokensKeys(params: map<string, string>, tokens: seq<string>, key: string)
    ensures key in InsertTokens(params, tokens) <==>
            key in params || exists i :: 0 <= i < |tokens| && YieldsKey(tokens[i], key)
  {
    if |tokens| > 0 {
      var init := tokens[..|tokens| - 1];
      InsertTokensKeys(params, init, key);
      if exists i :: 0 <= i < |init| && YieldsKey(init[i], key) {
        var i :| 0 <= i < |init| && YieldsKey(init[i], key);
        assert tokens[i] == init[i];
      }
      if exists i :: 0 <= i < |tokens| && YieldsKey(tokens[i], key) {
        var i :| 0 <= i < |tokens| && YieldsKey(tokens[i], key);
        if i < |init| { assert init[i] == tokens[i]; }
      }
    }
  }

  /** Inserting never overwrites: every entry already in the table survives unchanged. */
  lemma {:induction false} InsertTokensKeepsExisting(params: map<string, string>, tokens: seq<string>)
    ensures forall k :: k in params ==> k in InsertTokens(params, tokens) && InsertTokens(params, tokens)[k] == params[k]
  {
    if |tokens| > 0 {
      InsertTokensKeepsExisting(params, tokens[..|tokens| - 1]);
    }
  }

  /** Inserting `a + b` is inserting `a`, then `b`. */
  lemma {:induction false} InsertTokensAppend(params: map<string, string>, a: seq<string>, b: seq<string>)
    ensures InsertTokens(params, a + b) == InsertTokens(InsertTokens(params, a), b)
  {
    if |b| == 0 {
      assert a + b == a;
    } else {
      assert (a + b)[..|a + b| - 1] == a + b[..|b| - 1];
      InsertTokensAppend(params, a, b[..|b| - 1]);
    }
  }

  /** The first token that yields a new key decides its value. */
  lemma {:induction false} InsertTokensFirstWins(params: map<string, string>, tokens: seq<string>, i: nat)
    requires i < |tokens| && TokenEntry(tokens[i]).Some?
    requires TokenEntry(tokens[i]).value.0 !in params
    requires forall j :: 0 <= j < i ==> !YieldsKey(tokens[j], TokenEntry(tokens[i]).value.0)
    ensures var (key, value) := TokenEntry(tokens[i]).value;
            key in InsertTokens(params, tokens) && InsertTokens(params, tokens)[key] == value
  {
    var (key, value) := TokenEntry(tokens[i]).value;
    assert tokens == tokens[..i] + [tokens[i]] + tokens[i + 1..];
    var before := InsertTokens(params, tokens[..i]);
    assert key !in before by {
      InsertTokensKeys(params, tokens[..i], key);
      forall j | 0 <= j < i ensures !YieldsKey(tokens[..i][j], key) { assert tokens[..i][j] == tokens[j]; }
    }
    assert ([] + tokens[..i] + [tokens[i]])[..i] == tokens[..i];
    InsertTokensAppend(params, tokens[..i], [tokens[i]]);
    assert InsertTokens(before, [tokens[i]]) == AddToken(before, tokens[i]) by {
      assert [tokens[i]][..0] == [];
    }
    InsertTokensAppend(params, tokens[..i] + [tokens[i]], tokens[i + 1..]);
    InsertTokensKeepsExisting(InsertTokens(params, tokens[..i] + [tokens[i]]), tokens[i + 1..]);
  }

  /** Body tokens are inserted before query-string tokens, so a key in the body keeps the body's
      value even when the query string repeats it. */
  lemma BodyBeforeQuery(params: map<string, string>, body: seq<string>, query: seq<string>, key: string)
    requires key in InsertTokens(params, body)
    ensures key in InsertTokens(params, body + query)
    ensures InsertTokens(params, body + query)[key] == InsertTokens(params, body)[key]
  {
    InsertTokensAppend(params, body, query);
    InsertTokensKeepsExisting(InsertTokens(params, body), query);
  }

  /** The API a path names: the lower-cased text after its last '/', or the whole path. */
  function ApiName(path: string): (r: string)
    ensures '/' !in path ==> r == ToLower(path)
    ensures '/' in path ==>
              exists k :: 0 <= k < |path| && path[k] == '/' && '/' !in path[k + 1..]
                          && r == ToLower(path[k + 1..])
  {
    match LastIndexOf(path, '/')
    case Some(position) =>
      var tail := path[position + 1..];
      assert '/' !in tail by {
        forall j | 0 <= j < |tail| ensures tail[j] != '/' {
          assert tail[j] == path[position + 1 + j];
        }
      }
      ToLower(tail)
    case None => ToLower(path)
  }

  /** run_query's split of a request line: the text before the first '?' is the path, the text after
      it the raw parameters; without '?' the whole line is the path. */
  function QueryParts(request: string): (r: (string, string))
    ensures '?' !in request ==> r == (request, "")
    ensures '?' in request ==> '?' !in r.0 && r.0 + "?" + r.1 == request
  {
    match IndexOf(request, '?', 0)
    case Some(pos) =>
      assert '?' !in request[..pos] by {
        forall k | 0 <= k < pos ensures request[..pos][k] != '?' { }
      }
      assert request[..pos] + "?" + request[pos + 1..] == request;
      (request[..pos], request[pos + 1..])
    case None => (request, "")
  }

  /** The request a handler receives: path and body decoded, parameters filled from the body
      tokens and then the query-string tokens. The raw parameters stay as they came. */
  function HandledRequest(request: RequestData): RequestData
  {
    var tokens := Split(Decoded(request.data), '&') + Split(Decoded(request.rawParams), '&');
    request.(path := Decoded(request.path), data := Decoded(request.data),
             params := InsertTokens(request.params, tokens))
  }

  /** The token loop of dispatch: `request.params.insert` for each token in order. */
  method FillParams(initial: map<string, string>, tokens: seq<string>) returns (params: map<string, string>)
    ensures params == InsertTokens(initial, tokens)
  {
    params := initial;
    for i := 0 to |tokens|
      invariant params == InsertTokens(initial, tokens[..i])
    {
      var entry := TokenEntry(tokens[i]);
      if entry.Some? && entry.value.0 !in params {
        params := params[entry.value.0 := entry.value.1];
      }
      assert tokens[..i + 1][..i] == tokens[..i];
    }
    assert tokens[..|tokens|] == tokens;
  }

  lemma LowerCaseName(s: string)
    requires forall i :: 0 <= i < |s| ==> IsLowerLetter(s[i])
    ensures ToLower(s) == s
  {
    ToLowerIsLowerCase(s);
  }

  /** A well-escaped request line has well-escaped parts, so RunQuery accepts every line the
      decoder accepts whole. */
  lemma WellEscapedParts(request: string)
    requires WellEscaped(request)
    ensures WellEscaped(QueryParts(request).0) && WellEscaped(QueryParts(request).1)
  {
    match IndexOf(request, '?', 0)
    case Some(pos) =>
      WellEscapedSlice(request, 0, pos);
      WellEscapedSlice(request, pos + 1, |request|);
      assert request[0..pos] == request[..pos];
      assert request[pos + 1..|request|] == request[pos + 1..];
    case None =>
  }

  lemma WellEscapedSlice(s: string, i: nat, j: nat)
    requires i <= j <= |s| && WellEscaped(s)
    ensures WellEscaped(s[i..j])
  {
    forall k | 0 <= k && k + 2 < |s[i..j]| && s[i..j][k] == '%'
      ensures IsHex(s[i..j][k + 1]) && IsHex(s[i..j][k + 2])
    {
      assert s[i..j][k] == s[i + k] && s[i..j][k + 1] == s[i + k + 1] && s[i..j][k + 2] == s[i + k + 2];
    }
  }

  /** Three updates under distinct keys: each key holds its own value afterwards. */
  lemma UpdatedThrice<V>(m: map<string, V>, k1: string, v1: V, k2: string, v2: V, k3: string, v3: V)
    requires k1 != k2 && k1 != k3 && k2 != k3
    ensures var r := m[k1 := v1][k2 := v2][k3 := v3];
            && r.Keys == m.Keys + {k1, k2, k3} && r[k1] == v1 && r[k2] == v2 && r[k3] == v3
            && forall k | k in m && k != k1 && k != k2 && k != k3 :: r[k] == m[k]
  {
  }

  class BaseWorker {
    /** The API handlers, indexed by lower-case name. */
    var apis: map<string, ApiFun>
    /** The API descriptions and parameters, indexed by lower-case name. */
    var apiMetadata: map<string, ApiMetadata>

    /** Every registered API has metadata and the reverse, so the `api_metadata[api]` lookups
        of dispatch never insert; names and parameter names are stored lower-cased. */
    ghost predicate Valid()
      reads this
    {
      && apis.Keys == apiMetadata.Keys
      && (forall name | name in apiMetadata :: IsLowerCase(name))
      && (forall name, p | name in apiMetadata && p in apiMetadata[name].params :: IsLowerCase(p))
    }

    constructor ()
      ensures Valid() && apis == map[] && apiMetadata == map[]
    {
      apis := map[];
      apiMetadata := map[];
    }

    /** register_api: the lower-cased name gets the handler, replacing any previous one, and
        metadata holding only the description (previous parameters are dropped). */
    method RegisterApi(name: string, fun: ApiFun, description: string)
      requires Valid()
      modifies this
      ensures Valid()
      ensures apis == old(apis)[ToLower(name) := fun]
      ensures apiMetadata == old(apiMetadata)[ToLower(name) := ApiMetadata(description, map[])]
    {
      var key := ToLower(name);
      ToLowerIsLowerCase(name);
      apis := apis[key := fun];
      apiMetadata := apiMetadata[key := ApiMetadata(description, map[])];
    }

    /** add_param: false and no change for an unregistered API; otherwise the lower-cased
        parameter is set or overwritten and no other API changes. */
    method AddParam(api: string, name: string, description: string, paramType: ParameterType,
                    mandatory: bool, acceptedValues: seq<string>) returns (ok: bool)
      requires Valid()
      modifies this
      ensures Valid()
      ensures ok <==> ToLower(api) in old(apiMetadata)
      ensures apis == old(apis)
      ensures !ok ==> apiMetadata == old(apiMetadata)
      ensures ok ==> var a := ToLower(api);
                     apiMetadata == old(apiMetadata)[a := old(apiMetadata)[a].(params :=
                       old(apiMetadata)[a].params[ToLower(name) := ApiParameter(description, paramType, mandatory, acceptedValues)])]
    {
      var a := ToLower(api);
      var n := ToLower(name);
      if a !in apiMetadata {
        return false;
      }
      ToLowerIsLowerCase(name);
      var param := ApiParameter(description, paramType, mandatory, acceptedValues);
      var meta := apiMetadata[a];
      apiMetadata := apiMetadata[a := meta.(params := meta.params[n := param])];
      return true;
    }

    /** add_default_api: registers help, stats and analyze (their HTML pages are given as
        handlers) and declares analyze's mandatory string parameter "api". */
    method AddDefaultApi(help: ApiFun, stats: ApiFun, analyze: ApiFun)
      requires Valid()
      modifies this
      ensures Valid()
      ensures apis.Keys == old(apis).Keys + {"help", "stats", "analyze"}
      ensures apis["help"] == help && apis["stats"] == stats && apis["analyze"] == analyze
      ensures apiMetadata["help"] == ApiMetadata(HelpDescription, map[])
      ensures apiMetadata["stats"] == ApiMetadata(StatsDescription, map[])
      ensures apiMetadata["analyze"] == ApiMetadata(AnalyzeDescription, map["api" := ApiParameter(AnalyzeApiDescription, STRING, true, [])])
      ensures forall k | k in old(apis) && k != "help" && k != "stats" && k != "analyze" :: apis[k] == old(apis)[k]
      ensures forall k | k in old(apiMetadata) && k != "help" && k != "stats" && k != "analyze" ::
                apiMetadata[k] == old(apiMetadata)[k]
    {
      LowerCaseName("help");
      LowerCaseName("stats");
      LowerCaseName("analyze");
      LowerCaseName("api");
      assert |"help"| == 4 && |"stats"| == 5 && |"analyze"| == 7;
      ghost var apis0: map<string, ApiFun>, meta0 := apis, apiMetadata;
      RegisterApi("help", help, HelpDescription);
      RegisterApi("stats", stats, StatsDescription);
      RegisterApi("analyze", analyze, AnalyzeDescription);
      UpdatedThrice(apis0, "help", help, "stats", stats, "analyze", analyze);
      UpdatedThrice(meta0, "help", ApiMetadata(HelpDescription, map[]), "stats", ApiMetadata(StatsDescription, map[]),
                    "analyze", ApiMetadata(AnalyzeDescription, map[]));
      var _ := AddParam("analyze", "api", AnalyzeApiDescription, STRING, true, []);
    }

    /** dispatch: decode, tokenise, pick the API from the path; an unknown API gets the
        `text/xml` error and no handler runs, a known one gets its handler's response tagged
        with the API name. */
    method Dispatch(request: RequestData) returns (resp: ResponseData)
      requires Valid()
      requires WellEscaped(request.path) && WellEscaped(request.rawParams) && WellEscaped(request.data)
      ensures var api := ApiName(Decoded(request.path));
              && (api !in apis ==> resp == UnknownApiResponse)
              && (api in apis ==> resp == apis[api](HandledRequest(request)).(api := api))
    {
      var path := Decode(request.path);
      var rawParams := Decode(request.rawParams);
      var data := Decode(request.data);
      var tokens := Split(data, '&');
      var tokens2 := Split(rawParams, '&');
      ghost var bodyTokens := tokens;
      for i := 0 to |tokens2|
        invariant tokens == bodyTokens + tokens2[..i]
      {
        tokens := tokens + [tokens2[i]];
        assert tokens2[..i + 1] == tokens2[..i] + [tokens2[i]];
      }
      assert tokens2[..|tokens2|] == tokens2;
      var params := FillParams(request.params, tokens);
      var handled := request.(path := path, data := data, params := params);
      var api := ApiName(path);
      if api !in apis {
        return UnknownApiResponse;
      }
      resp := apis[api](handled);
      resp := resp.(api := api);
    }

    /** run_query: a GET request built from a request line, dispatched. The timing line that
        run_query prints before the response is not modelled. */
    method RunQuery(request: string) returns (resp: ResponseData)
      requires Valid()
      requires WellEscaped(QueryParts(request).0) && WellEscaped(QueryParts(request).1)
      ensures var (path, rawParams) := QueryParts(request);
              resp == (var api := ApiName(Decoded(path));
                       if api in apis then apis[api](HandledRequest(RequestData(GET, path, rawParams, "", map[]))).(api := api)
                       else UnknownApiResponse)
    {
      var query := RequestData(GET, "", "", "", map[]);
      var pos := IndexOf(request, '?', 0);
      if pos.None? {
        query := query.(path := request);
      } else {
        query := query.(path := request[..pos.value], rawParams := request[pos.value + 1..]);
      }
      resp := Dispatch(query);
    }
  }
}
