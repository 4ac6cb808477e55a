# RTK-Query endpoint generator for Kubernetes-style OpenAPI documents — Dafny model

The generator reads an OpenAPI v3 document whose operations carry the
Kubernetes extensions `x-kubernetes-action` and
`x-kubernetes-group-version-kind`. It does the following, in order:

1. It cleans the parsed document in place by deleting `description` keys
   (`preprocessSpec`).
2. It lists the operations under the HTTP method keys of every path.
3. It turns each Kubernetes operation into an RTK-Query endpoint: a name, a
   `build.query`/`build.mutation` call whose query function builds the URL
   template and the query `params`, and the names of the `…Response` and
   `…Params` types.
4. It registers, in three module-level tables, the Kind type of each
   group/version/kind, the response and params type aliases, and the names
   imported from the common library.
5. It emits one statement list: the import, `injectedRtkApi`, and the
   declarations.

The model covers these files:

- `src/preProcess.ts`;
- `src/generateEndpoint.ts`, including the URL-template regex replace of
  `generatePathExpression`;
- `src/tsUtils.ts`;
- `src/prepareEndpoints.ts` (`getAllOperations` and `getReturnType`);
- the two driver scripts, `run.ts` and `src/run.ts`.

How the model is organised:

- **JSON and typed view.** The document exists twice. `preprocessSpec` works
  on raw JSON (`Json.Json`), where `null`, arrays and primitives behave as in
  JavaScript. Everything after it works on a typed view (`OpenApi.Document`).
- **The parsed document.** The scripts read the cleaned document through a
  parameter, `decode : Json -> Document`. This is the interpretation the
  TypeScript casts assume.
- **oazapfts.** The code the generator calls from oazapfts is the record
  `OpenApi.ApiGen` of uninterpreted functions:
  - `isValidIdentifier`;
  - `getOperationName`;
  - `resolve`, for parameters and schemas;
  - the 200/JSON return schema of `src/openapiUtils.ts`.
- **Errors.** Every throw is an `Error` value in a `Result`. This includes
  TypeErrors raised by JavaScript itself: `in` or a property read on
  `null`, `forEach` on a non-array, and `capitalize("")` reading
  `undefined.toUpperCase`.
- **Loops and state.** Loops are methods proved equal to a specification
  function. The module-level tables of the scripts are the fields of
  `Registry.CodegenContext`. The in-place cleaning is
  `Preprocess.SpecDocument.Preprocess`.

`capitalize` is taken from `src/run.ts:391-393` (the same text as
`run.ts:419-421`). `src/utils.ts`, which the other files import it from, is
not part of this model.

Three behaviours of the code are easy to miss:

- **src/run.ts stops early.** `src/run.ts` stops at `process.exit(0)`
  (line 77), after only the `getReturnType` loop. The endpoint generation
  and registration code after that line cannot run. The model therefore
  takes that pipeline from `run.ts`, and it models `src/run.ts` up to line
  77.
- **Kind names can clash.** Kind names are not unique. Two group/version/kind
  triples with the same `kind` in different groups give two declarations
  named alike (`Registry.KindNamesMayClash`).
- **Nested descriptions stay.** `preprocessSpec` does not remove descriptions
  at every depth. A property's own nested `description` stays
  (`Preprocess.NestedPropertyDescriptionKept`), and so does a falsy one
  (`Preprocess.FalsyDescriptionKept`).

## Model

| member | source | states |
|---|---|---|
| Json.Get | src/preProcess.ts:36 | a property read finds exactly the keys present, with the value stored under them |
| Json.RemoveKey | src/preProcess.ts:37 | `delete` removes the key and keeps every other field, in order |
| Json.SetKey | src/preProcess.ts:15-19 | writing back under a present key changes that key's value only; keys and order stay |
| Json.Values | src/preProcess.ts:24-28 | the values the cleaning loops visit: an object's field values in order, an array's items; none for a string, a number, a boolean or `null` |
| Json.WithValues | src/preProcess.ts:7-31 | replacing the values in place keeps the container's kind and keys |
| Json.StripSetKey | src/preProcess.ts:15-19 | writing back a value equal up to descriptions changes nothing up to descriptions |
| Preprocess.DeleteDescription | src/preProcess.ts:35-39 | a truthy `description` is removed and nothing else changes; a falsy or absent one leaves the value as it is; `null` throws |
| Preprocess.CleanParams | src/preProcess.ts:15-20 | `null` parameters are left alone, an array has each element cleaned, anything else throws (`forEach` is not a function) |
| Preprocess.CleanOperation | src/preProcess.ts:11-21 | a primitive or array value is skipped, `null` throws, a cleaned operation has no truthy description |
| Preprocess.CleanPathItem | src/preProcess.ts:8-21 | a falsy path item is skipped; a cleaned one has no truthy description |
| Preprocess.CleanSchema | src/preProcess.ts:25-31 | `null` throws; a cleaned schema has no truthy description |
| Preprocess.CleanPaths | src/preProcess.ts:7 | fails exactly when the document or its `paths` is not an object to iterate |
| Preprocess.CleanComponents | src/preProcess.ts:24 | a document without `components.schemas` is unchanged |
| Preprocess.PreprocessOnlyDescriptions | src/preProcess.ts:4-33 | cleaning changes nothing but `description` keys: the result equals the input once all descriptions are stripped |
| Preprocess.PreprocessIdempotent | src/preProcess.ts:4-33 | cleaning a cleaned document succeeds and changes nothing |
| Preprocess.PreprocessRemovesDescriptions | src/preProcess.ts:4-33 | after cleaning, no path item, operation, parameter, component schema or direct property has a truthy description |
| Preprocess.CleanPathItemIdempotent | src/preProcess.ts:8-21 | cleaning a cleaned path item changes nothing |
| Preprocess.CleanSchemaIdempotent | src/preProcess.ts:25-31 | cleaning a cleaned schema changes nothing |
| Preprocess.CleanOperationRemoves | src/preProcess.ts:13-19 | a cleaned operation and its parameters have no truthy description |
| Preprocess.PathParametersUntouched | src/preProcess.ts:11-20 | the path-level `parameters` array is an entry that is an array, so it is left unchanged |
| Preprocess.NestedPropertyDescriptionKept | src/preProcess.ts:28-31 | a description nested below a property survives cleaning |
| Preprocess.ProcessParams | src/preProcess.ts:15-20 | the `forEach` loop computes `CleanParams` |
| Preprocess.ProcessOperation | src/preProcess.ts:12-20 | the loop body for one operation computes `CleanOperation` |
| Preprocess.ProcessPathItem | src/preProcess.ts:8-21 | the inner loop computes `CleanPathItem` |
| Preprocess.ProcessPaths | src/preProcess.ts:7-22 | the loop over `spec.paths` computes `CleanPaths` |
| Preprocess.ProcessProperties | src/preProcess.ts:28-31 | the loop over a schema's properties cleans each, stopping at the first throw |
| Preprocess.ProcessSchema | src/preProcess.ts:25-31 | the loop body for one schema computes `CleanSchema` |
| Preprocess.ProcessComponents | src/preProcess.ts:24-32 | the loop over component schemas computes `CleanComponents` |
| Preprocess.SpecDocument.Preprocess | src/preProcess.ts:4-33 | the document is replaced by its cleaned form, or left as it was and the error reported |
| Text.UpperChar | src/run.ts:392 | lower-case ASCII letters map to upper case, every other character to itself |
| Text.Capitalize | src/run.ts:391-393 | the first character is upper-cased, the rest kept, the length unchanged |
| Text.CapitalizeIdempotent | src/run.ts:391-393 | capitalizing twice is capitalizing once |
| TsUtils.AccessProperty | src/tsUtils.ts:43-61 | dot access exactly for valid identifiers, element access otherwise, on the same root and name |
| TsUtils.RootIdent | src/tsUtils.ts:47-50 | a string root becomes an identifier of that text; an identifier root is kept |
| TsUtils.CreateObject | src/tsUtils.ts:6-14 | one property assignment per entry, keys and values unchanged, in order |
| OpenApi.ResolveParams | run.ts:90-94 | every parameter is resolved, in order |
| PathTemplate.MatchAt | src/generateEndpoint.ts:219 | a match of the regex at an index runs from `{` to a `}` and its literal to the next `{` or the end; no match unless the index holds `{` |
| PathTemplate.MatchAtInterior | src/generateEndpoint.ts:219 | inside a match the name holds no `}` and no line terminator, and the literal holds no `{` and no line terminator |
| PathTemplate.FirstUndeclared | src/generateEndpoint.ts:221-227 | the first placeholder with no parameter of that name, or none exactly when all are declared |
| PathTemplate.BuildTemplateShape | src/generateEndpoint.ts:234-255 | no placeholder gives a plain template literal; otherwise one span per placeholder, the last a tail |
| PathTemplate.GeneratePathExpression | src/generateEndpoint.ts:207-256 | the replace loop computes `PathExpression`, throwing for an undeclared placeholder |
| PathTemplate.ParsePathRoundTrip | src/generateEndpoint.ts:218-232 | without line terminators and with every `{` closed, head, names and literals reassemble the path |
| PathTemplate.ParsePathHead | src/generateEndpoint.ts:218-232 | the head is the text before the first `{` |
| PathTemplate.NoPlaceholderPath | src/generateEndpoint.ts:234-255 | a path without placeholders becomes a no-substitution template of itself |
| PathTemplate.BracelessPath | src/generateEndpoint.ts:218-232 | a path without `{` has no placeholder |
| PathTemplate.PlaceholderShape | src/generateEndpoint.ts:219 | placeholder names contain no `}` and literals no `{` |
| PathTemplate.UnclosedTailMovesToHead | src/generateEndpoint.ts:218-232 | the round trip needs its condition: an unclosed `{` after a match is moved into the head |
| GenerateEndpoint.ParametersForAction | src/generateEndpoint.ts:7-15 | the allow-list exists for exactly the seven actions, starts with `namespace`, and names `name` exactly for the single-object actions |
| GenerateEndpoint.Keep | src/generateEndpoint.ts:133-135 | filtering keeps exactly the elements satisfying the predicate, and all when all do |
| GenerateEndpoint.KeepAppend | src/generateEndpoint.ts:130-135 | filtering a concatenation filters each part: order is kept |
| GenerateEndpoint.FilteredParamsOrder | src/generateEndpoint.ts:130-135 | admitted path-level parameters come before admitted operation parameters; without an allow-list all are admitted |
| GenerateEndpoint.UsedParamsExactly | src/generateEndpoint.ts:198-200 | the caller-facing parameters are exactly the admitted path or query parameters other than `namespace` |
| GenerateEndpoint.QueryProp | src/generateEndpoint.ts:163-178 | selectors are wrapped in `stringifySelector`, other parameters read from `queryArg` |
| GenerateEndpoint.QueryObject | src/generateEndpoint.ts:154-185 | `url` comes first; `params` is present exactly when some query parameter survives |
| GenerateEndpoint.BuildQueryProps | src/generateEndpoint.ts:161-183 | the loop builds one property per query parameter and sets the selector flag exactly when a selector occurs |
| GenerateEndpoint.GenerateQueryFn | src/generateEndpoint.ts:119-203 | the method computes `QueryFnOf` |
| GenerateEndpoint.QueryDescriptor | src/generateEndpoint.ts:152-194 | the query function is `(queryArg) => ({ url, params? })`, with `params` exactly when an admitted query parameter exists, and the selector flag exactly when a selector survives |
| GenerateEndpoint.PlaceholderValues | src/generateEndpoint.ts:139-150 | the namespace placeholder reads `config.namespace`, every other one `queryArg.<name>` |
| GenerateEndpoint.EndpointName | src/generateEndpoint.ts:97-117 | `action + Kind + "ForAllNamespaces"` for cluster-wide Kubernetes operations, without the suffix when namespaced, the oazapfts name otherwise; an empty kind throws |
| GenerateEndpoint.NamespacedVariantsDiffer | src/generateEndpoint.ts:105-113 | the namespaced and the cluster-wide variant of one action on one kind get different names |
| GenerateEndpoint.PlaylistNamespacedName | src/generateEndpoint.ts:111-114 | the playlist list operation under `/namespaces/{namespace}/` is named `listPlaylist` |
| GenerateEndpoint.PlaylistClusterWideName | src/generateEndpoint.ts:111-114 | the playlist list operation without a namespace is named `listPlaylistForAllNamespaces` |
| GenerateEndpoint.BuilderCall | src/generateEndpoint.ts:76-84 | `build.mutation` or `build.query` with the two type names and `{ query }` |
| GenerateEndpoint.GenerateEndpoint | src/generateEndpoint.ts:27-95 | the method computes `Endpoint` |
| GenerateEndpoint.SkipIff | src/generateEndpoint.ts:45-52 | no endpoint exactly for a `watchlist` action or missing Kubernetes metadata |
| GenerateEndpoint.EndpointShape | src/generateEndpoint.ts:54-94 | a generated endpoint has the computed name, the `…Response`/`…Params` names, the mutation choice by `method !== "get"`, and the used parameters |
| SchemaLookup.GvkMatches | run.ts:310-316 | field-wise match is equality of the triples |
| SchemaLookup.FirstSchemaMatching | run.ts:273-293 | the first schema, in order, whose resolved form lists the triple, or none exactly when none does |
| SchemaLookup.FirstMatchFound | run.ts:273-293 | the first match is what the search returns |
| SchemaLookup.SearchSchemas | run.ts:273-293 | the nested loops compute `FirstSchemaMatching` |
| SchemaLookup.SpecProperty | run.ts:298 | the `spec` property is found exactly when one exists |
| SchemaLookup.SpecSchemaOrNone | src/prepareEndpoints.ts:250-260 | the resolved `allOf[0]` of the resolved `spec` property, or undefined when a link is missing |
| SchemaLookup.SpecSchemaOrFail | run.ts:295-308 | the same, but a missing `allOf[0]` throws |
| SchemaLookup.SpecSchemaVariantsAgree | src/prepareEndpoints.ts:250-260 | the two variants fail and agree at the same inputs |
| PrepareEndpoints.IsOperationObject | src/prepareEndpoints.ts:10-14 | true exactly for objects with `responses`; `null` throws |
| PrepareEndpoints.SelectOperations | src/prepareEndpoints.ts:26-44 | exactly the method entries holding operation objects are kept; a `null` under a method key throws |
| PrepareEndpoints.SelectOperationsInOrder | src/prepareEndpoints.ts:26-44 | a path item that does not throw yields its selected entries in entry order, each once, as `SelectedDefs` lists them |
| PrepareEndpoints.SelectOperationsAppend | src/prepareEndpoints.ts:26-44 | selecting from a concatenation of entry lists gives the first list's operations, then the second's |
| PrepareEndpoints.OperationsForPath | src/prepareEndpoints.ts:21-45 | a null path item gives nothing; every operation carries the path and its resolved shared parameters |
| PrepareEndpoints.AllOperations | src/prepareEndpoints.ts:16-49 | every failure is a TypeError |
| PrepareEndpoints.AllOperationsAppend | src/prepareEndpoints.ts:20-46 | path order: the operations of a concatenation of path lists are the first list's, then the second's |
| PrepareEndpoints.AllOperationsInOrder | src/prepareEndpoints.ts:16-49 | a successful run lists the selected entries of the paths in path order, then entry order, each once, as `AllDefs` lists them |
| PrepareEndpoints.AllOperationsComplete | src/prepareEndpoints.ts:16-49 | every selected entry of every non-null path item yields its definition |
| PrepareEndpoints.AllOperationsSound | src/prepareEndpoints.ts:20-46 | every operation found stems from a selected entry of some path |
| PrepareEndpoints.LibTypeFor | src/prepareEndpoints.ts:148-163 | Resource, ResourceList or MetaStatus by action; any other action throws |
| PrepareEndpoints.FallbackReturnType | src/prepareEndpoints.ts:86-104 | the 200/JSON response schema, or a throw when there is none |
| PrepareEndpoints.KindContainer | src/prepareEndpoints.ts:219-248 | throws without component schemas, otherwise the first matching schema |
| PrepareEndpoints.FindSchemaForGroupVersionKind | src/prepareEndpoints.ts:219-248 | the method computes `KindContainer` |
| PrepareEndpoints.GetReturnType | src/prepareEndpoints.ts:116-177 | the method computes `ReturnTypeOf` |
| PrepareEndpoints.ReturnTypeChoice | src/prepareEndpoints.ts:127-146 | the basic fallback is chosen exactly when the metadata is missing or invalid or no kind schema is found |
| PrepareEndpoints.ReturnTypeNeverUnhandled | src/prepareEndpoints.ts:161-163 | the "Unhandled k8s action" throw is unreachable |
| PrepareEndpoints.CommonLibFields | src/prepareEndpoints.ts:165-176 | a common-library type has the derived alias name, the capitalized kind, the group and the action's library type |
| Registry.RegisterIn | run.ts:53-62 | a taken name throws; otherwise the name is added last and maps to the declaration, and other lookups are unchanged |
| Registry.RegisterInKeepsDistinct | run.ts:53-62 | registering keeps names unique |
| Registry.FindKind | run.ts:325-327 | a row is found exactly when the triple has been registered |
| Registry.RegisterGkvIn | run.ts:318-323 | a new triple is appended, a known one leaves the table unchanged |
| Registry.RegisterGkvKeepsDistinct | run.ts:318-323 | the Kind table keeps one row per triple |
| Registry.CreateAndRegisterKind | run.ts:329-358 | an empty kind throws; a known triple changes nothing; a new one appends exactly the row `KindEntry(gvk, KindDecl(gvk, specSchema))`: the `// {gvk}`-commented alias named after the capitalized kind, typed by `getTypeFromSchema(specSchema, "readOnly")` |
| Registry.CreateAndRegisterKindIdempotent | run.ts:329-358 | registering the same triple twice is registering it once |
| Registry.KindNamesMayClash | run.ts:333-357 | two groups with one kind name give two declarations of the same name |
| Registry.UseImport | run.ts:43-47 | the set gains the name once: a new name goes last, a known one changes nothing, so first-insertion order is kept |
| Registry.LibForAction | run.ts:158-179 | the wrapper name for each action, none for the others (both directions) |
| Registry.ResponseTypeNode | run.ts:156-179 | `Resource<Kind, "group">`, `ResourceList<Kind, "group">`, a `MetaStatus` reference, or none |
| Registry.ResponseTypeNodeAsWritten | src/run.ts:144-147 | for every action but the delete ones it agrees with `ResponseTypeNode` |
| Registry.MetaStatusNotInScope | src/run.ts:14-18 | delete actions throw a ReferenceError as written, while the corrected code emits `MetaStatus` |
| Registry.CodegenContext.UseCommonLibImport | run.ts:44-47 | records the name and hands it back |
| Registry.CodegenContext.RegisterInterface | run.ts:53-62 | the name table becomes `RegisterIn`'s result, or is unchanged on a throw |
| Registry.CodegenContext.RegisterGkvType | run.ts:318-323 | the Kind table becomes `RegisterGkvIn`'s result |
| Registry.CodegenContext.CreateAndRegisterKindInterface | run.ts:329-358 | the Kind table and the returned name follow `CreateAndRegisterKind` |
| Run.ExtractEntry | run.ts:85-105 | a string throws, `null` and primitives throw at `in`; an operation object is kept whole except that its `parameters` become the resolved list (`[]` when absent), an array becomes an empty operation with `[]`, and both carry method, path and the path's shared parameters |
| Run.ExtractAll | run.ts:85-106 | one definition per method entry, in order, all succeeding or the first throw |
| Run.ExtractOperations | run.ts:77-108 | an empty `paths` gives no operations |
| Run.ExtractOperationsAppend | run.ts:77-108 | path order: the operations of a concatenation of path lists are the first list's, then the second's (entry order within a path is `Run.ExtractAll`'s) |
| Run.ExtractOperationsComplete | run.ts:77-108 | every method entry of every non-null path item yields its definition |
| Run.ExtractOperationsSound | run.ts:79-104 | every operation is the `ExtractEntry` result of a method entry of some path, with that path's resolved shared parameters |
| Run.StringOperationRejected | run.ts:86-88 | a string under a method key stops the run with "expected operation to be an object" |
| Run.Collect | run.ts:116-122 | the loop succeeds exactly when every step does |
| Run.CollectMembers | run.ts:116-122 | the collected values are exactly the defined results, and there are no more of them than steps |
| Run.CollectInOrder | run.ts:116-122 | the loop keeps the defined values in step order, one per `Success(Some(_))` step (`Defined`) |
| Run.CollectedEndpoints | run.ts:116-122 | succeeds exactly when `generateEndpoint` succeeds on every operation |
| Run.CollectedEndpointsMembers | run.ts:116-122 | the endpoints are the defined `generateEndpoint` results in operation order, one per operation that yields one, and exactly those some operation generates |
| Run.CollectEndpoints | run.ts:114-122 | the loop computes `CollectedEndpoints` |
| Run.ParamSignature | run.ts:199-218 | identifier or computed name by validity, optional exactly when not required, the schema's type in `writeOnly` mode |
| Run.BuildParamTypes | run.ts:197-219 | one signature per parameter, in order |
| Run.ResponseDecl | run.ts:181-190 | a response alias exactly when the action has a wrapper, named `<Endpoint>Response`; an empty endpoint name throws |
| Run.ImportsFor | run.ts:158-179 | the import set gains exactly the action's wrapper name |
| Run.KindStep | run.ts:144-154 | a missing kind schema throws; on success the Kind is registered with the spec schema found |
| Run.KindStepEffect | run.ts:144-154 | the Kind table gains at most one row, keeps its prefix and stays duplicate-free |
| Run.InterfacesStepEffect | run.ts:181-230 | the name table becomes the old declarations unchanged, then the `ResponseDecl` alias if any, then the params alias, and stays duplicate-free |
| Run.EndpointTypesKeepsValid | run.ts:137-231 | one pass keeps all three tables duplicate-free |
| Run.EndpointTypesEffect | run.ts:137-231 | one pass sets the Kind table to `KindStep`'s (at most one row added, the rest kept), keeps the old declarations and appends the `<Endpoint>Response` alias over `ResponseTypeNode` exactly when the action has a wrapper, then the params alias, and adds the wrapper import |
| Run.DuplicateParamsNameFatal | run.ts:230 | a params name already taken makes the pass throw |
| Run.RegisterAllKeepsValid | run.ts:137-231 | the whole loop keeps the tables duplicate-free |
| Run.RegisterAllImports | run.ts:137-231 | the imports are exactly the wrapper names some endpoint's action uses (both directions) |
| Run.ProcessKind | run.ts:144-154 | the lookups and Kind registration follow `KindStep` |
| Run.BuildResponseType | run.ts:156-179 | the `if` chain builds `ResponseTypeNode` and records the wrapper import |
| Run.ProcessInterfaces | run.ts:181-230 | the two registrations follow `InterfacesStep` |
| Run.ProcessEndpoint | run.ts:138-230 | the loop body moves the tables to `EndpointTypes`, or reports its error |
| Run.RegisterEndpointTypes | run.ts:137-231 | the loop moves the tables to `RegisterAll`, or reports its error |
| Run.EndpointProps | run.ts:126-133 | one `"name": builderCall` property per endpoint, in order |
| Run.InjectedRtkApi | run.ts:234-271 | `api.injectEndpoints({ endpoints: (build) => ({...}) })` over those properties |
| Run.SourceStatements | run.ts:377-404 | import first, then `injectedRtkApi`, aliases, Kind declarations and interfaces, each in insertion order |
| Run.RunPipelineOutput | run.ts:64-404 | a successful run emits those statements from duplicate-free tables that import exactly the used wrapper names |
| Run.RunScript | run.ts:64-404 | the script computes `RunPipeline` |
| Run.PreparedReturnTypes | src/run.ts:73-75 | one return type per operation, in order, or the first throw |
| Run.PrepareEndpointsLoop | src/run.ts:73-75 | the loop computes `PreparedReturnTypes` |
| Run.SrcRunAsWritten | src/run.ts:60-75 | the script as written always fails; once cleaning succeeds, with a TypeError |
| Run.SrcRunDescribesEveryOperation | src/run.ts:71-75 | the corrected script describes every operation's return type, in order, failing only where `getReturnType` throws |
| Run.PreprocessResultDiscarded | src/run.ts:61 | on `{"paths": {}}` the corrected script succeeds and the script as written fails |
| Run.SrcRunScript | src/run.ts:60-75 | the corrected script computes `SrcRun` |

## Left out

- Reading the document, JSON parsing, printing, `prettier`, `emphasize`, `console.log` and writing the output file: their results are not modelled. The emitted file is the statement list `Run.SourceStatements`.
- Decoding the cleaned JSON into the typed document is the parameter `decode`. The model does not check that the casts the TypeScript code makes are justified.
- oazapfts: `isValidIdentifier`, `getOperationName`, `resolve` and `getTypeFromSchema` are uninterpreted. `getTypeFromSchema` results are the symbolic node `SchemaType(schema, name, mode)`.
- The `ApiGenerator` constructor is taken not to throw. It is built from the cleaned document (run.ts:66-69), but its `resolve`, `resolveArray` and `getTypeFromSchema` are parameters of the model, so nothing is assumed about what they return for either document.
- `apiGen.aliases` is the `aliases` parameter of `Run.RunPipeline`.
- In `preprocessSpec`, `apiGen.resolve` is taken as the identity. A `$ref` parameter or schema is therefore cleaned where it stands, not at its target.
- Preprocess.SpecDocument.Preprocess: on a throw the document is left as it was. The source has already deleted some descriptions by then.
- Text.UpperChar: only ASCII letters are upper-cased. `String.prototype.toUpperCase` also maps other scripts and expands some characters.
- Keys inherited from `Object.prototype` are not modelled. `parametersForAction[action]` and `name in interfaces` for names like `constructor` are affected. Every registered name ends in `Response` or `Params`, so only the allow-list lookup could differ.
- The entry order of `Object.entries`/`Object.values` is the document's key order. JavaScript puts integer-like keys first.
- Json.Values: for a string, `Object.values` gives its characters, and the model gives none. The cleaning loops do nothing to a one-character string, so no result differs.
- `async`/`await`: every call is taken to run to completion in order.
- src/run.ts after line 77 is not modelled separately. It is the same code as run.ts except for the unimported `CommonLibMetaStatus` (see Findings).
- `prepareEndpoint` beyond `getReturnType` only logs. Its `getTypeFromSchema` call for printing is not modelled.
- Registry.KindDecl: the comment `JSON.stringify(gvk)` is kept as the triple itself, not as text.

## Findings

| source | as written | input that shows it | evidently intended | confidence | as-written member | corrected member |
|---|---|---|---|---|---|---|
| src/run.ts:61 | `spec` is bound to what `preprocessSpec` returns, and it returns nothing, so `spec.paths` is read on `undefined` | the document `{"paths": {}}` | use the document `preprocessSpec` cleaned in place, as run.ts:64-66 does | not executed | Run.SrcRunAsWritten, Run.PreprocessResultDiscarded | Run.SrcRun, Run.SrcRunDescribesEveryOperation |
| src/run.ts:146 | `CommonLibMetaStatus` is used but not imported (src/run.ts:14-18), so a delete endpoint throws a ReferenceError (the code sits after `process.exit(0)` at line 77) | an endpoint whose action is `delete` | import `MetaStatus` as run.ts:22 does and emit a `MetaStatus` reference | not executed | Registry.ResponseTypeNodeAsWritten, Registry.MetaStatusNotInScope | Registry.ResponseTypeNode |
