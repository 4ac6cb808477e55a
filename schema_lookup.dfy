/** The component-schema lookup shared by src/prepareEndpoints.ts, src/run.ts
    and run.ts: `gvkMatches`, `findSchemaForGroupVersionKind` and the two
    variants of `getSpecSchema`. */
module SchemaLookup {
  import opened Wrappers
  import opened OpenApi

  /** `gvkMatches`: field-wise equality of group, version and kind. */
  function GvkMatches(a: Gvk, b: Gvk): (r: bool)
    ensures r <==> a == b
  {
    a.group == b.group && a.version == b.version && a.kind == b.kind
  }

  /** The resolved schema lists a triple matching `gvk` under
      `x-kubernetes-group-version-kind`. */
  predicate Carries(s: Schema, gvk: Gvk) {
    s.gvkList.Some? && exists g :: g in s.gvkList.value && GvkMatches(g, gvk)
  }

  /** Index `i` holds the first schema whose resolved form carries `gvk`. */
  predicate IsFirstMatch(apiGen: ApiGen, schemas: seq<NamedSchema>, gvk: Gvk, i: int) {
    && 0 <= i < |schemas|
    && Carries(ResolveSchema(apiGen, schemas[i].schema), gvk)
    && forall j :: 0 <= j < i ==> !Carries(ResolveSchema(apiGen, schemas[j].schema), gvk)
  }

  /** The first schema, in registry order, whose resolved form carries `gvk`. */
  function FirstSchemaMatching(apiGen: ApiGen, schemas: seq<NamedSchema>, gvk: Gvk): (r: Option<Schema>)
    ensures r.None? <==> forall i :: 0 <= i < |schemas| ==> !Carries(ResolveSchema(apiGen, schemas[i].schema), gvk)
    ensures r.Some? ==> exists i :: IsFirstMatch(apiGen, schemas, gvk, i) && r.value == ResolveSchema(apiGen, schemas[i].schema)
  {
    if |schemas| == 0 then None
    else
      var resolved := ResolveSchema(apiGen, schemas[0].schema);
      if Carries(resolved, gvk) then Some(resolved)
      else
        var r := FirstSchemaMatching(apiGen, schemas[1..], gvk);
        assert forall i :: 1 <= i < |schemas| ==> schemas[i] == schemas[1..][i - 1];
        if r.Some? then
          ghost var i :| IsFirstMatch(apiGen, schemas[1..], gvk, i) && r.value == ResolveSchema(apiGen, schemas[1..][i].schema);
          assert IsFirstMatch(apiGen, schemas, gvk, i + 1);
          r
        else r
  }

  /** The first match is unique, so it is what the search returns. */
  lemma FirstMatchFound(apiGen: ApiGen, schemas: seq<NamedSchema>, gvk: Gvk, i: int)
    requires IsFirstMatch(apiGen, schemas, gvk, i)
    ensures FirstSchemaMatching(apiGen, schemas, gvk) == Some(ResolveSchema(apiGen, schemas[i].schema))
  {
    var r := FirstSchemaMatching(apiGen, schemas, gvk);
    var i' :| IsFirstMatch(apiGen, schemas, gvk, i') && r.value == ResolveSchema(apiGen, schemas[i'].schema);
    var c, c' := ResolveSchema(apiGen, schemas[i].schema), ResolveSchema(apiGen, schemas[i'].schema);
    assert Carries(c, gvk) && Carries(c', gvk);
    assert i' < i ==> !Carries(c', gvk);
    assert i < i' ==> !Carries(c, gvk);
  }

  /** The nested loops of `findSchemaForGroupVersionKind`: resolve each
      schema, scan its triples, return at the first match. */
  method SearchSchemas(apiGen: ApiGen, schemas: seq<NamedSchema>, gvk: Gvk) returns (r: Option<Schema>)
    ensures r == FirstSchemaMatching(apiGen, schemas, gvk)
  {
    var i := 0;
    while i < |schemas|
      invariant 0 <= i <= |schemas|
      invariant forall k :: 0 <= k < i ==> !Carries(ResolveSchema(apiGen, schemas[k].schema), gvk)
    {
      var resolvedSchema := ResolveSchema(apiGen, schemas[i].schema);
      if resolvedSchema.gvkList.Some? {
        var schemaGvks := resolvedSchema.gvkList.value;
        var j := 0;
        while j < |schemaGvks|
          invariant 0 <= j <= |schemaGvks|
          invariant forall m :: 0 <= m < j ==> !GvkMatches(schemaGvks[m], gvk)
        {
          if GvkMatches(schemaGvks[j], gvk) {
            assert schemaGvks[j] in schemaGvks;
            FirstMatchFound(apiGen, schemas, gvk, i);
            return Some(resolvedSchema);
          }
          j := j + 1;
        }
      }
      i := i + 1;
    }
    return None;
  }

  /** `schema?.properties?.spec`: the first property named `spec`. */
  function SpecProperty(s: Schema): (r: Option<SchemaRef>)
    ensures r.Some? <==> s.properties.Some? && exists p :: p in s.properties.value && p.name == "spec"
    ensures r.Some? ==> Property("spec", r.value) in s.properties.value
  {
    if s.properties.None? then None else PropertyNamed(s.properties.value, "spec")
  }

  function PropertyNamed(ps: seq<Property>, name: string): (r: Option<SchemaRef>)
    ensures r.Some? <==> exists p :: p in ps && p.name == name
    ensures r.Some? ==> Property(name, r.value) in ps
  {
    if |ps| == 0 then None
    else if ps[0].name == name then Some(ps[0].schema)
    else
      var r := PropertyNamed(ps[1..], name);
      assert forall p :: p in ps <==> p == ps[0] || p in ps[1..];
      r
  }

  /** `specSchema?.allOf?.[0]` for the resolved `spec` property. */
  function FirstAllOf(apiGen: ApiGen, s: Schema): Option<SchemaRef> {
    var specProperty := SpecProperty(s);
    if specProperty.None? then None
    else
      var specSchema := ResolveSchema(apiGen, specProperty.value);
      if specSchema.allOf.Some? && |specSchema.allOf.value| > 0 then Some(specSchema.allOf.value[0]) else None
  }

  /** `getSpecSchema` of src/prepareEndpoints.ts: the resolved first `allOf`
      entry of the resolved `spec` property, or undefined when any link is missing. */
  function SpecSchemaOrNone(apiGen: ApiGen, s: Schema): (r: Option<Schema>)
    ensures r.Some? <==> FirstAllOf(apiGen, s).Some?
    ensures r.Some? ==> r.value == ResolveSchema(apiGen, FirstAllOf(apiGen, s).value)
  {
    var allOfValue := FirstAllOf(apiGen, s);
    if allOfValue.None? then None else Some(ResolveSchema(apiGen, allOfValue.value))
  }

  /** `getSpecSchema` of src/run.ts and run.ts: the same schema, but a
      missing `allOf[0]` throws. */
  function SpecSchemaOrFail(apiGen: ApiGen, s: Schema): (r: Result<Schema, Error>)
    ensures r.Failure? ==> r.error == SpecSchemaWithoutAllOf
  {
    var allOfValue := FirstAllOf(apiGen, s);
    if allOfValue.None? then Failure(SpecSchemaWithoutAllOf) else Success(ResolveSchema(apiGen, allOfValue.value))
  }

  /** The two variants agree wherever both succeed, and the throwing variant
      throws exactly where the other gives undefined. */
  lemma SpecSchemaVariantsAgree(apiGen: ApiGen, s: Schema)
    ensures SpecSchemaOrFail(apiGen, s).Failure? <==> SpecSchemaOrNone(apiGen, s).None?
    ensures SpecSchemaOrFail(apiGen, s).Success? ==>
      SpecSchemaOrNone(apiGen, s) == Some(SpecSchemaOrFail(apiGen, s).value)
  {
  }
}
