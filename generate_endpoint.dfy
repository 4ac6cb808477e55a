/** src/generateEndpoint.ts: the endpoint name, the per-action parameter
    allow-list, the query descriptor (`generateQueryFn`) and the RTK-Query
    builder call (`generateEndpoint`). */
module GenerateEndpoint {
  import opened Wrappers
  import opened OpenApi
  import opened TsUtils
  import opened Text
  import opened PathTemplate

  /** `parametersForAction`: the parameters each Kubernetes action may pass.
      Any other action has no entry, and then every parameter is kept. */
  function ParametersForAction(action: string): (r: Option<seq<string>>)
    ensures r.Some? <==> action in ["list", "post", "delete", "deletecollection", "get", "patch", "put"]
    ensures r.Some? ==> |r.value| > 0 && r.value[0] == "namespace"
    ensures r.Some? ==> ("name" in r.value <==> action in ["delete", "get", "patch", "put"])
  {
    if action == "list" then Some(["namespace", "continue", "labelSelector", "fieldSelector", "limit"])
    else if action == "post" then Some(["namespace"])
    else if action == "delete" then Some(["namespace", "name"])
    else if action == "deletecollection" then Some(["namespace"])
    else if action == "get" then Some(["namespace", "name"])
    else if action == "patch" then Some(["namespace", "name"])
    else if action == "put" then Some(["namespace", "name"])
    else None
  }

  /** `xs.filter(f)`: the elements satisfying `f`, in their order. */
  function Keep<T(!new)>(xs: seq<T>, f: T -> bool): (r: seq<T>)
    ensures |r| <= |xs|
    ensures forall x :: x in r <==> x in xs && f(x)
    ensures (forall x :: x in xs ==> f(x)) ==> r == xs
  {
    if |xs| == 0 then []
    else
      var rest := Keep(xs[1..], f);
      assert forall x :: x in xs <==> x == xs[0] || x in xs[1..];
      if f(xs[0]) then [xs[0]] + rest else rest
  }

  /** Filtering a concatenation filters each part: relative order is kept. */
  lemma {:induction false} KeepAppend<T(!new)>(a: seq<T>, b: seq<T>, f: T -> bool)
    ensures Keep(a + b, f) == Keep(a, f) + Keep(b, f)
  {
    if |a| == 0 {
      assert a + b == b;
    } else {
      var h := if f(a[0]) then [a[0]] else [];
      assert (a + b)[0] == a[0];
      assert (a + b)[1..] == a[1..] + b;
      KeepCons(a + b, f);
      KeepCons(a, f);
      KeepAppend(a[1..], b, f);
      AppendAssoc(h, Keep(a[1..], f), Keep(b, f));
    }
  }

  lemma KeepCons<T(!new)>(xs: seq<T>, f: T -> bool)
    requires |xs| > 0
    ensures Keep(xs, f) == (if f(xs[0]) then [xs[0]] else []) + Keep(xs[1..], f)
  {
  }

  /** The inline parameter objects of a list, in order.  A `$ref` object has
      neither `name` nor `in`, so no later test on those fields accepts it. */
  function InlineParams(ps: seq<ParamRef>): (r: seq<Parameter>)
    ensures forall q :: q in r <==> InlineParam(q) in ps
    ensures (forall i :: 0 <= i < |ps| ==> ps[i].InlineParam?) ==>
      |r| == |ps| && forall i :: 0 <= i < |ps| ==> r[i] == ps[i].param
  {
    if |ps| == 0 then []
    else
      var rest := InlineParams(ps[1..]);
      assert forall x :: x in ps <==> x == ps[0] || x in ps[1..];
      if ps[0].InlineParam? then [ps[0].param] + rest else rest
  }

  lemma {:induction false} InlineParamsAppend(a: seq<ParamRef>, b: seq<ParamRef>)
    ensures InlineParams(a + b) == InlineParams(a) + InlineParams(b)
  {
    if |a| == 0 {
      assert a + b == b;
    } else {
      assert (a + b)[0] == a[0];
      assert (a + b)[1..] == a[1..] + b;
      InlineParamsAppend(a[1..], b);
    }
  }

  /** `k8sAllowedParams?.includes(param.name) ?? true`. */
  predicate Allowed(table: Option<seq<string>>, p: ParamRef) {
    table.None? || (p.InlineParam? && p.param.name in table.value)
  }

  function AllowedBy(table: Option<seq<string>>): ParamRef -> bool {
    p => Allowed(table, p)
  }

  function AsRefs(ps: seq<Parameter>): (r: seq<ParamRef>)
    ensures |r| == |ps| && forall i :: 0 <= i < |ps| ==> r[i] == InlineParam(ps[i])
  {
    seq(|ps|, i requires 0 <= i < |ps| => InlineParam(ps[i]))
  }

  /** `[...(pathParameters ?? []), ...(operation.parameters ?? [])]`. */
  function AllParams(def: OperationDef): seq<ParamRef> {
    AsRefs(if def.pathParameters.Some? then def.pathParameters.value else [])
      + (if def.operation.parameters.Some? then def.operation.parameters.value else [])
  }

  /** `allParams`: the parameters the action's allow-list admits. */
  function FilteredParams(def: OperationDef, action: string): seq<ParamRef> {
    Keep(AllParams(def), AllowedBy(ParametersForAction(action)))
  }

  predicate IsQueryParam(p: Parameter) {
    p.location == InQuery
  }

  /** `(p.in === "path" || p.in === "query") && p.name !== "namespace"`. */
  predicate IsUsedParam(p: Parameter) {
    (p.location == InPath || p.location == InQuery) && p.name != "namespace"
  }

  function QueryParams(def: OperationDef, action: string): seq<Parameter> {
    Keep(InlineParams(FilteredParams(def, action)), IsQueryParam)
  }

  function UsedParams(def: OperationDef, action: string): seq<Parameter> {
    Keep(InlineParams(FilteredParams(def, action)), IsUsedParam)
  }

  /** The filtered parameters are the admitted path-level parameters followed
      by the admitted operation parameters, each part in its own order; an
      action without a table entry keeps every parameter. */
  lemma FilteredParamsOrder(def: OperationDef, action: string)
    ensures var pathPs := if def.pathParameters.Some? then def.pathParameters.value else [];
            var opPs := if def.operation.parameters.Some? then def.operation.parameters.value else [];
            FilteredParams(def, action)
              == Keep(AsRefs(pathPs), AllowedBy(ParametersForAction(action)))
               + Keep(opPs, AllowedBy(ParametersForAction(action)))
    ensures ParametersForAction(action).None? ==> FilteredParams(def, action) == AllParams(def)
    ensures forall p :: p in FilteredParams(def, action) <==>
      p in AllParams(def) && (ParametersForAction(action).None? ||
                              (p.InlineParam? && p.param.name in ParametersForAction(action).value))
  {
    var pathPs := if def.pathParameters.Some? then def.pathParameters.value else [];
    var opPs := if def.operation.parameters.Some? then def.operation.parameters.value else [];
    KeepAppend(AsRefs(pathPs), opPs, AllowedBy(ParametersForAction(action)));
  }

  /** Caller-facing parameters: exactly the admitted path or query parameters
      other than `namespace`; `namespace` never reaches the params type. */
  lemma UsedParamsExactly(def: OperationDef, action: string)
    ensures forall q :: q in UsedParams(def, action) <==>
      InlineParam(q) in FilteredParams(def, action) && (q.location == InPath || q.location == InQuery)
      && q.name != "namespace"
    ensures forall i :: 0 <= i < |UsedParams(def, action)| ==> UsedParams(def, action)[i].name != "namespace"
  {
    var used := UsedParams(def, action);
    assert forall i :: 0 <= i < |used| ==> used[i] in used;
  }

  /** The root the query function reads its arguments from. */
  const QueryArg: RootObject := RootIdentifier("queryArg")

  /** `replaceParam`: `namespace` is read from `config`; nothing else is replaced. */
  function ReplaceParam(isValidIdentifier: string -> bool): string -> Option<Expr> {
    name => if name == "namespace" then Some(AccessProperty(RootString("config"), "namespace", isValidIdentifier))
            else None
  }

  predicate IsSelector(name: string) {
    name == "labelSelector" || name == "fieldSelector"
  }

  /** The property a query parameter contributes to `params`. */
  function QueryProp(q: Parameter, isValidIdentifier: string -> bool): (p: Prop)
    ensures p.key == IdentKey(q.name)
    ensures p.value.Call? <==> IsSelector(q.name)
    ensures p.value.Call? ==>
      p.value == Call(Ident("stringifySelector"), [], [AccessProperty(QueryArg, q.name, isValidIdentifier)])
    ensures !p.value.Call? ==> p.value == AccessProperty(QueryArg, q.name, isValidIdentifier)
  {
    var read := AccessProperty(QueryArg, q.name, isValidIdentifier);
    Prop(IdentKey(q.name), if IsSelector(q.name) then Call(Ident("stringifySelector"), [], [read]) else read)
  }

  function UrlEntry(url: Expr): (string, Expr) {
    ("url", url)
  }

  /** `{ url, params? }`: `params` only when some query parameter survives. */
  function QueryObject(url: Expr, props: seq<Prop>): (e: Expr)
    ensures e.ObjectLit? && |e.props| >= 1 && e.props[0] == Prop(IdentKey("url"), url)
    ensures |e.props| == 2 <==> |props| > 0
    ensures |e.props| == 2 ==> e.props[1] == Prop(IdentKey("params"), ObjectLit(props))
  {
    CreateObject([UrlEntry(url)] + if |props| > 0 then [("params", ObjectLit(props))] else [])
  }

  /** The result of `generateQueryFn`. */
  datatype QueryFn = QueryFn(queryFn: Expr, usedStringifySelector: bool, usedParams: seq<Parameter>)

  predicate AnySelector(qs: seq<Parameter>) {
    exists i :: 0 <= i < |qs| && IsSelector(qs[i].name)
  }

  /** What `generateQueryFn` returns, or the error the path template throws. */
  function QueryFnOf(def: OperationDef, action: string, isValidIdentifier: string -> bool): Result<QueryFn, Error> {
    var declared := InlineParams(FilteredParams(def, action));
    match PathExpression(def.path, Some(declared), QueryArg, false, ReplaceParam(isValidIdentifier), isValidIdentifier)
    case Failure(e) => Failure(e)
    case Success(url) => Success(QueryFnFor(url, def, action, isValidIdentifier))
  }

  /** The query function around an already generated `url` expression. */
  function QueryFnFor(url: Expr, def: OperationDef, action: string, isValidIdentifier: string -> bool): QueryFn {
    var qs := QueryParams(def, action);
    var props := seq(|qs|, i requires 0 <= i < |qs| => QueryProp(qs[i], isValidIdentifier));
    QueryFn(Arrow("queryArg", Paren(QueryObject(url, props))), AnySelector(qs), UsedParams(def, action))
  }

  /** The loop of `generateQueryFn` over the query parameters: one property
      each, in order, and the flag set when a selector is wrapped. */
  method BuildQueryProps(qs: seq<Parameter>, isValidIdentifier: string -> bool)
    returns (props: seq<Prop>, usedStringifySelector: bool)
    ensures props == seq(|qs|, i requires 0 <= i < |qs| => QueryProp(qs[i], isValidIdentifier))
    ensures usedStringifySelector == AnySelector(qs)
  {
    props := [];
    usedStringifySelector := false;
    var i := 0;
    while i < |qs|
      invariant 0 <= i <= |qs|
      invariant |props| == i && forall k :: 0 <= k < i ==> props[k] == QueryProp(qs[k], isValidIdentifier)
      invariant usedStringifySelector <==> exists k :: 0 <= k < i && IsSelector(qs[k].name)
    {
      var propertyValue := AccessProperty(QueryArg, qs[i].name, isValidIdentifier);
      if qs[i].name == "labelSelector" || qs[i].name == "fieldSelector" {
        usedStringifySelector := true;
        propertyValue := Call(Ident("stringifySelector"), [], [propertyValue]);
      }
      props := props + [Prop(IdentKey(qs[i].name), propertyValue)];
      i := i + 1;
    }
  }

  /** `generateQueryFn`. */
  method GenerateQueryFn(def: OperationDef, action: string, isValidIdentifier: string -> bool)
    returns (r: Result<QueryFn, Error>)
    ensures r == QueryFnOf(def, action, isValidIdentifier)
  {
    var allParams := FilteredParams(def, action);
    var pathExpression := GeneratePathExpression(def.path, Some(InlineParams(allParams)), QueryArg, false,
                                                 ReplaceParam(isValidIdentifier), isValidIdentifier);
    if pathExpression.Failure? {
      return Failure(pathExpression.error);
    }
    var queryParams := QueryParams(def, action);
    var props, usedStringifySelector := BuildQueryProps(queryParams, isValidIdentifier);
    var queryObject := QueryObject(pathExpression.value, props);
    var usedParams := UsedParams(def, action);
    r := Success(QueryFn(Arrow("queryArg", Paren(queryObject)), usedStringifySelector, usedParams));
  }

  /** The query descriptor: `params` appears iff some admitted parameter is in
      `query`; the selector flag holds iff a surviving query parameter is a
      selector; exactly the selectors are wrapped in `stringifySelector`. */
  lemma QueryDescriptor(def: OperationDef, action: string, isValidIdentifier: string -> bool)
    requires QueryFnOf(def, action, isValidIdentifier).Success?
    ensures QueryShape(QueryFnOf(def, action, isValidIdentifier).value, def, action)
  {
    var declared := InlineParams(FilteredParams(def, action));
    var url := PathExpression(def.path, Some(declared), QueryArg, false, ReplaceParam(isValidIdentifier), isValidIdentifier).value;
    assert QueryFnOf(def, action, isValidIdentifier).value == QueryFnFor(url, def, action, isValidIdentifier);
    QueryFnForShape(url, def, action, isValidIdentifier);
  }

  /** The shape of a query descriptor for `def`. */
  ghost predicate QueryShape(q: QueryFn, def: OperationDef, action: string) {
    var qs := QueryParams(def, action);
    && q.queryFn.Arrow? && q.queryFn.param == "queryArg" && q.queryFn.body.Paren?
    && ParamsShape(q.queryFn.body.inner, qs)
    && (|q.queryFn.body.inner.props| == 2 <==> HasQueryParam(def, action))
    && (q.usedStringifySelector <==> exists x :: x in qs && IsSelector(x.name))
  }

  /** `{ url, params? }` with one `params` property per query parameter, in
      order, and exactly the selectors wrapped. */
  ghost predicate ParamsShape(obj: Expr, qs: seq<Parameter>) {
    && obj.ObjectLit? && 1 <= |obj.props| <= 2 && obj.props[0].key == IdentKey("url")
    && (|obj.props| == 2 <==> |qs| > 0)
    && (|obj.props| == 2 ==>
          && obj.props[1].key == IdentKey("params")
          && obj.props[1].value.ObjectLit?
          && |obj.props[1].value.props| == |qs|
          && forall i :: 0 <= i < |qs| ==>
               && obj.props[1].value.props[i].key == IdentKey(qs[i].name)
               && (obj.props[1].value.props[i].value.Call? <==> IsSelector(qs[i].name)))
  }

  /** Some admitted parameter is located in `query`. */
  ghost predicate HasQueryParam(def: OperationDef, action: string) {
    exists p :: p in FilteredParams(def, action) && p.InlineParam? && p.param.location == InQuery
  }

  /** The descriptor properties hold whatever `url` the path template produced. */
  lemma QueryFnForShape(url: Expr, def: OperationDef, action: string, isValidIdentifier: string -> bool)
    ensures QueryShape(QueryFnFor(url, def, action, isValidIdentifier), def, action)
  {
    var qs := QueryParams(def, action);
    QueryObjectShape(url, qs, isValidIdentifier);
    QueryParamsPresent(def, action);
    AnySelectorMember(qs);
  }

  lemma QueryObjectShape(url: Expr, qs: seq<Parameter>, isValidIdentifier: string -> bool)
    ensures ParamsShape(QueryObject(url, seq(|qs|, i requires 0 <= i < |qs| => QueryProp(qs[i], isValidIdentifier))), qs)
  {
  }

  /** Some query parameter survives exactly when an admitted parameter is in `query`. */
  lemma QueryParamsPresent(def: OperationDef, action: string)
    ensures |QueryParams(def, action)| > 0 <==> HasQueryParam(def, action)
  {
    var qs := QueryParams(def, action);
    if |qs| > 0 {
      var p := InlineParam(qs[0]);
      assert qs[0] in qs;
      assert p in FilteredParams(def, action);
    }
    if HasQueryParam(def, action) {
      var p :| p in FilteredParams(def, action) && p.InlineParam? && p.param.location == InQuery;
      assert p.param in qs;
    }
  }

  lemma AnySelectorMember(qs: seq<Parameter>)
    ensures AnySelector(qs) <==> exists x :: x in qs && IsSelector(x.name)
  {
    if AnySelector(qs) {
      var i :| 0 <= i < |qs| && IsSelector(qs[i].name);
      assert qs[i] in qs;
    }
  }

  /** Placeholders: the namespace placeholder reads `config.namespace`, every
      other placeholder reads the same-named property of `queryArg`. */
  lemma PlaceholderValues(def: OperationDef, action: string, isValidIdentifier: string -> bool)
    requires QueryFnOf(def, action, isValidIdentifier).Success?
    ensures var url := QueryFnOf(def, action, isValidIdentifier).value.queryFn.body.inner.props[0].value;
            var xs := ParsePath(def.path).placeholders;
            && (|xs| == 0 ==> url == NoSubstTemplate(def.path))
            && (url.Template? ==> forall k :: 0 <= k < |xs| ==>
                 url.spans[k].value == if xs[k].name == "namespace"
                                       then AccessProperty(RootString("config"), "namespace", isValidIdentifier)
                                       else AccessProperty(QueryArg, xs[k].name, isValidIdentifier))
  {
    var xs := ParsePath(def.path).placeholders;
    if |xs| == 0 {
      ScanWithoutPlaceholders(def.path, 0);
    }
  }

  /** `Boolean(pathParameters?.some((v) => v.name === "namespace"))`. */
  predicate IsNamespaced(def: OperationDef) {
    def.pathParameters.Some? && exists p :: p in def.pathParameters.value && p.name == "namespace"
  }

  /** `getEndpointName`: for an operation with an action and a
      group/version/kind, the action, the capitalized kind and, when no
      path-level parameter is named `namespace`, `ForAllNamespaces`; otherwise
      the operation name oazapfts derives.  An empty kind makes `capitalize` throw. */
  function EndpointName(def: OperationDef, apiGen: ApiGen): (r: Result<string, Error>)
    ensures r.Failure? <==> HasAction(def.operation) && def.operation.gvk.Some? && def.operation.gvk.value.kind == ""
    ensures !(HasAction(def.operation) && def.operation.gvk.Some?) ==>
      r == Success(apiGen.operationName(def.httpMethod, def.path, def.operation.operationId))
    ensures r.Success? && HasAction(def.operation) && def.operation.gvk.Some? ==>
      var action, kind := def.operation.action.value, def.operation.gvk.value.kind;
      var stem := action + Capitalize(kind);
      && |r.value| >= |stem| > |action|
      && r.value[..|stem|] == stem
      && (IsNamespaced(def) ==> r.value == stem)
      && (!IsNamespaced(def) ==> r.value[|stem|..] == "ForAllNamespaces")
  {
    var op := def.operation;
    var suffix := if HasAction(op) && !IsNamespaced(def) then "ForAllNamespaces" else "";
    if HasAction(op) && op.gvk.Some? then
      if op.gvk.value.kind == "" then Failure(TypeError("capitalize of an empty kind"))
      else
        var stem := op.action.value + Capitalize(op.gvk.value.kind);
        assert (stem + suffix)[..|stem|] == stem;
        Success(stem + suffix)
    else Success(apiGen.operationName(def.httpMethod, def.path, op.operationId))
  }

  /** The cluster-wide and the namespaced variant of one action on one kind
      never share a name. */
  lemma NamespacedVariantsDiffer(d1: OperationDef, d2: OperationDef, apiGen: ApiGen)
    requires EndpointName(d1, apiGen).Success? && EndpointName(d2, apiGen).Success?
    requires HasAction(d1.operation) && d1.operation.gvk.Some?
    requires d2.operation.action == d1.operation.action && d2.operation.gvk == d1.operation.gvk
    requires IsNamespaced(d1) && !IsNamespaced(d2)
    ensures EndpointName(d1, apiGen).value != EndpointName(d2, apiGen).value
  {
    var stem := d1.operation.action.value + Capitalize(d1.operation.gvk.value.kind);
    assert |EndpointName(d2, apiGen).value| == |stem| + |"ForAllNamespaces"|;
  }

  /** The playlist list operation. */
  function PlaylistList(): Operation {
    Operation(Some("listPlaylist"), Some("list"), Some(Gvk("playlist.grafana.app", "v0alpha1", "Playlist")), None, true)
  }

  /** Golden name of the playlist API under `/namespaces/{namespace}/`: `listPlaylist`. */
  lemma PlaylistNamespacedName(apiGen: ApiGen)
    ensures EndpointName(OperationDef("get", "/apis/playlist.grafana.app/v0alpha1/namespaces/{namespace}/playlists",
                                      PlaylistList(), Some([Parameter("namespace", InPath, true, None)])), apiGen)
            == Success("listPlaylist")
  {
    var ns := Parameter("namespace", InPath, true, None);
    var d := OperationDef("get", "/apis/playlist.grafana.app/v0alpha1/namespaces/{namespace}/playlists", PlaylistList(), Some([ns]));
    assert ns in d.pathParameters.value;
    assert Capitalize("Playlist") == "Playlist";
    assert "list" + "Playlist" == "listPlaylist";
  }

  /** Golden name of the playlist API without a namespace: `listPlaylistForAllNamespaces`. */
  lemma PlaylistClusterWideName(apiGen: ApiGen)
    ensures EndpointName(OperationDef("get", "/apis/playlist.grafana.app/v0alpha1/playlists", PlaylistList(), None), apiGen)
            == Success("listPlaylistForAllNamespaces")
  {
    var d := OperationDef("get", "/apis/playlist.grafana.app/v0alpha1/playlists", PlaylistList(), None);
    assert Capitalize("Playlist") == "Playlist";
    assert "list" + "Playlist" == "listPlaylist";
    assert "listPlaylist" + "ForAllNamespaces" == "listPlaylistForAllNamespaces";
    assert !IsNamespaced(d);
  }

  /** `returnType` / `paramsType`: a deprecated summary of the endpoint's types. */
  datatype TypeSummary = TypeSummary(name: string, action: string, gvk: Gvk)

  datatype ParamsSummary = ParamsSummary(name: string, paramSchemas: seq<Parameter>, action: string, gvk: Gvk)

  /** `EndpointDef` of src/types.ts. */
  datatype EndpointDef = EndpointDef(
    endpointName: string,
    builderCall: Expr,
    returnType: TypeSummary,
    paramsType: ParamsSummary,
    usedStringifySelector: bool)

  /** `build.query<Response, Params>({ query })` or `build.mutation<...>(...)`. */
  function BuilderCall(isMutation: bool, responseName: string, paramsName: string, queryFn: Expr): (e: Expr)
    ensures e.Call? && e.typeArgs == [responseName, paramsName]
    ensures e.callee == PropAccess(Ident("build"), if isMutation then "mutation" else "query")
    ensures e.args == [ObjectLit([Prop(IdentKey("query"), queryFn)])]
  {
    var builder := PropAccess(Ident("build"), if isMutation then "mutation" else "query");
    assert CreateObject([("query", queryFn)]).props == [Prop(IdentKey("query"), queryFn)];
    Call(builder, [responseName, paramsName], [CreateObject([("query", queryFn)])])
  }

  /** Whether the operation is skipped: a `watchlist` action, or a missing
      action or group/version/kind. */
  predicate Skipped(op: Operation) {
    op.action == Some("watchlist") || !HasAction(op) || op.gvk.None?
  }

  /** What `generateEndpoint` returns (`None` for `undefined`), or the error it throws. */
  function Endpoint(def: OperationDef, apiGen: ApiGen): Result<Option<EndpointDef>, Error> {
    var endpointName :- EndpointName(def, apiGen);
    var op := def.operation;
    if Skipped(op) then Success(None)
    else
      var action, gvk := op.action.value, op.gvk.value;
      var q :- QueryFnOf(def, action, apiGen.isValidIdentifier);
      var cap := Capitalize(endpointName);
      var responseName, paramsName := cap + "Response", cap + "Params";
      Success(Some(EndpointDef(
        endpointName,
        BuilderCall(def.httpMethod != "get", responseName, paramsName, q.queryFn),
        TypeSummary(responseName, action, gvk),
        ParamsSummary(paramsName, q.usedParams, action, gvk),
        q.usedStringifySelector)))
  }

  /** `generateEndpoint`. */
  method GenerateEndpoint(def: OperationDef, apiGen: ApiGen) returns (r: Result<Option<EndpointDef>, Error>)
    ensures r == Endpoint(def, apiGen)
  {
    var name := EndpointName(def, apiGen);
    if name.Failure? {
      return Failure(name.error);
    }
    var endpointName := name.value;
    var op := def.operation;
    if op.action == Some("watchlist") {
      return Success(None);
    }
    if !HasAction(op) || op.gvk.None? {
      return Success(None);
    }
    var action, gvk := op.action.value, op.gvk.value;
    var isMutation := def.httpMethod != "get";
    var q := GenerateQueryFn(def, action, apiGen.isValidIdentifier);
    if q.Failure? {
      return Failure(q.error);
    }
    var returnType := TypeSummary(Capitalize(endpointName) + "Response", action, gvk);
    var paramsType := ParamsSummary(Capitalize(endpointName) + "Params", q.value.usedParams, action, gvk);
    var builderCall := BuilderCall(isMutation, returnType.name, paramsType.name, q.value.queryFn);
    r := Success(Some(EndpointDef(endpointName, builderCall, returnType, paramsType, q.value.usedStringifySelector)));
  }

  /** No endpoint exactly for skipped operations (once the name is computed:
      the name is derived first, and its error comes first). */
  lemma SkipIff(def: OperationDef, apiGen: ApiGen)
    ensures EndpointName(def, apiGen).Failure? ==> Endpoint(def, apiGen).Failure?
    ensures EndpointName(def, apiGen).Success? ==>
      (Endpoint(def, apiGen) == Success(None) <==> Skipped(def.operation))
    ensures Endpoint(def, apiGen).Success? && Endpoint(def, apiGen).value.Some? ==>
      !Skipped(def.operation) && QueryFnOf(def, def.operation.action.value, apiGen.isValidIdentifier).Success?
  {
  }

  /** A generated endpoint carries the name of `getEndpointName`, the two
      derived type names, the `build.mutation`/`build.query` choice by
      `method !== "get"`, and the caller-facing parameters. */
  lemma EndpointShape(def: OperationDef, apiGen: ApiGen)
    requires Endpoint(def, apiGen).Success? && Endpoint(def, apiGen).value.Some?
    ensures var e := Endpoint(def, apiGen).value.value;
            && EndpointName(def, apiGen) == Success(e.endpointName)
            && |e.endpointName| > 0
            && e.returnType.name == Capitalize(e.endpointName) + "Response"
            && e.paramsType.name == Capitalize(e.endpointName) + "Params"
            && e.builderCall.Call?
            && e.builderCall.typeArgs == [e.returnType.name, e.paramsType.name]
            && (e.builderCall.callee == PropAccess(Ident("build"), "mutation") <==> def.httpMethod != "get")
            && (e.builderCall.callee == PropAccess(Ident("build"), "query") <==> def.httpMethod == "get")
            && e.paramsType.paramSchemas == UsedParams(def, def.operation.action.value)
            && e.returnType.action == e.paramsType.action == def.operation.action.value
            && e.returnType.gvk == e.paramsType.gvk == def.operation.gvk.value
  {
  }
}
