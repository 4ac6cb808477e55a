/** The typed view of the OpenAPI v3 document that the generator reads
    (src/types.ts), the library names of src/commonLib.ts, the errors the
    pipeline can raise, and the oazapfts collaborators it calls but whose code
    is not part of this model. */
module OpenApi {
  import opened Wrappers
  import Json

  /** `GroupVersionKind`: the identity of a Kubernetes resource kind. */
  datatype Gvk = Gvk(group: string, version: string, kind: string)

  /** The `in` field of a parameter object. */
  datatype Location = InPath | InQuery | InHeader | InCookie

  /** A resolved parameter object. */
  datatype Parameter = Parameter(name: string, location: Location, required: bool, schema: Option<SchemaRef>)

  /** A parameter as written in the document: inline, or a `$ref` to be resolved. */
  datatype ParamRef = InlineParam(param: Parameter) | ParamRefTo(paramRef: string)

  datatype Property = Property(name: string, schema: SchemaRef)

  /** A schema object, reduced to the parts the generator reads:
      `x-kubernetes-group-version-kind`, `properties` and `allOf`. */
  datatype Schema = Schema(
    gvkList: Option<seq<Gvk>>,
    properties: Option<seq<Property>>,
    allOf: Option<seq<SchemaRef>>)

  datatype SchemaRef = InlineSchema(schema: Schema) | SchemaRefTo(schemaRef: string)

  /** An operation object (`OpenAPIOperation`) with its two vendor extensions. */
  datatype Operation = Operation(
    operationId: Option<string>,
    action: Option<string>,        // x-kubernetes-action
    gvk: Option<Gvk>,              // x-kubernetes-group-version-kind
    parameters: Option<seq<ParamRef>>,
    hasResponses: bool)            // "responses" in operation

  /** The value stored under one key of a path item. */
  datatype EntryValue =
    | OperationObject(op: Operation)   // any JSON object
    | TextEntry(text: string)          // e.g. "summary"
    | NullEntry
    | ArrayEntry(items: seq<Json.Json>)  // e.g. "servers"
    | ScalarEntry(scalar: Json.Json)     // a number or a boolean

  datatype Entry = Entry(key: string, value: EntryValue)

  /** A path item: its shared `parameters` list and its other keys in order. */
  datatype PathItem = PathItem(parameters: Option<seq<ParamRef>>, entries: seq<Entry>)

  /** One entry of `spec.paths`; a null path item is `None`. */
  datatype PathEntry = PathEntry(path: string, item: Option<PathItem>)

  datatype NamedSchema = NamedSchema(name: string, schema: SchemaRef)

  /** The document: `paths`, and `components.schemas` (`None` when absent). */
  datatype Document = Document(paths: seq<PathEntry>, schemas: Option<seq<NamedSchema>>)

  /** `OperationDef` of src/types.ts. */
  datatype OperationDef = OperationDef(
    httpMethod: string,
    path: string,
    operation: Operation,
    pathParameters: Option<seq<Parameter>>)

  /** The parts of oazapfts' `ApiGenerator` that the generator calls:
      `isValidIdentifier`, `getOperationName`, `resolve` for parameters and
      schemas, and `getReturnSchema` (src/openapiUtils.ts). */
  datatype ApiGen = ApiGen(
    isValidIdentifier: string -> bool,
    operationName: (string, string, Option<string>) -> string,
    resolveParameter: string -> Parameter,
    resolveSchema: string -> Schema,
    returnSchema: Operation -> Option<Schema>)

  function ResolveParam(apiGen: ApiGen, p: ParamRef): Parameter {
    match p
    case InlineParam(q) => q
    case ParamRefTo(r) => apiGen.resolveParameter(r)
  }

  function ResolveParams(apiGen: ApiGen, ps: seq<ParamRef>): (r: seq<Parameter>)
    ensures |r| == |ps| && forall i :: 0 <= i < |ps| ==> r[i] == ResolveParam(apiGen, ps[i])
  {
    seq(|ps|, i requires 0 <= i < |ps| => ResolveParam(apiGen, ps[i]))
  }

  function ResolveSchema(apiGen: ApiGen, s: SchemaRef): Schema {
    match s
    case InlineSchema(t) => t
    case SchemaRefTo(r) => apiGen.resolveSchema(r)
  }

  /** `k8sAction` is truthy: present and not the empty string. */
  predicate HasAction(op: Operation) {
    op.action.Some? && op.action.value != ""
  }

  /** The shared library type names of src/commonLib.ts. */
  datatype LibName =
    | ListOptions | ListOptionsFieldSelector | ListOptionsLabelSelector | MetaStatus
    | Resource | ResourceForCreate | ResourceList | ResourceServer

  /** The exceptions the pipeline can raise; each aborts the run. */
  datatype Error =
    | OperationNotAnObject                   // "expected operation to be an object"
    | TypeError(detail: string)              // raised by the JavaScript runtime itself
    | ReferenceError(identifier: string)     // an identifier that is not in scope
    | UndefinedPathParameter(name: string, path: string)
    | NoSchemasInSpec                        // "no schemas found in spec"
    | NoReturnSchema                         // "Unable to get return schema"
    | UnhandledAction(action: string)        // "Unhandled k8s action: ..."
    | SpecSchemaNotFound                     // "Unable to find specSchema"
    | SpecSchemaWithoutAllOf                 // "spec schema does not have allOf property"
    | AlreadyRegistered(name: string)        // "interface/type alias ... already registered"
}
