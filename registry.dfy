/** The mutable tables that src/run.ts and run.ts fill while emitting types:
    the Kind table `gvkTypes`, the name table `interfaces` and the set
    `usedCommonLibImports`, with `registerInterface`, `gkvTypeExists`,
    `registerGKVType`, `createAndRegisterKindInterface` and
    `useCommonLibImport`.  Both files hold the same code. */
module Registry {
  import opened Wrappers
  import opened OpenApi
  import opened Text
  import SchemaLookup

  /** The type nodes the emitter builds.  `SchemaType` stands for the node
      `apiGen.getTypeFromSchema(schema, name, onlyMode)` returns, whose code is
      not part of this model. */
  datatype TypeNode =
    | LibTypeRef(lib: LibName, resource: string, group: string)   // Lib<Resource, "group">
    | LibTypeName(lib: LibName)                                    // a bare reference to a library type
    | TypeLiteral(members: seq<PropertySignature>)
    | SchemaType(schema: Option<SchemaRef>, name: Option<string>, onlyMode: Option<string>)

  /** A property name: an identifier, or a computed `["name"]`. */
  datatype PropName = IdentName(name: string) | ComputedName(text: string)

  /** `name?: type`. */
  datatype PropertySignature = PropertySignature(name: PropName, optional: bool, typ: TypeNode)

  /** `export type name = typ`, with the `// {gvk}` comment of a Kind declaration. */
  datatype Decl = TypeAlias(name: string, comment: Option<Gvk>, typ: TypeNode)

  /** One row of the Kind table. */
  datatype KindEntry = KindEntry(gvk: Gvk, decl: Decl)

  predicate Distinct<T(==)>(xs: seq<T>) {
    forall i, j :: 0 <= i < j < |xs| ==> xs[i] != xs[j]
  }

  function Names(ds: seq<Decl>): (r: seq<string>)
    ensures |r| == |ds| && forall i :: 0 <= i < |ds| ==> r[i] == ds[i].name
  {
    seq(|ds|, i requires 0 <= i < |ds| => ds[i].name)
  }

  function Gvks(es: seq<KindEntry>): (r: seq<Gvk>)
    ensures |r| == |es| && forall i :: 0 <= i < |es| ==> r[i] == es[i].gvk
  {
    seq(|es|, i requires 0 <= i < |es| => es[i].gvk)
  }

  /** `interfaces[name]`: the record maps each registered name to its declaration. */
  function Lookup(ds: seq<Decl>, name: string): (r: Option<Decl>)
    ensures r.None? <==> name !in Names(ds)
    ensures r.Some? ==> r.value in ds && r.value.name == name
  {
    if |ds| == 0 then None
    else if ds[0].name == name then Some(ds[0])
    else
      var r := Lookup(ds[1..], name);
      assert Names(ds) == [ds[0].name] + Names(ds[1..]);
      r
  }

  // ---------------------------------------------------------------------------
  // The name table.

  /** `registerInterface`: a name already in the table is fatal; otherwise the
      declaration is added, after all earlier ones (a record keeps string keys
      that are not array indices in insertion order, and every name the
      emitter registers ends in "Response" or "Params"). */
  function RegisterIn(interfaces: seq<Decl>, decl: Decl): (r: Result<seq<Decl>, Error>)
    ensures r.Failure? <==> decl.name in Names(interfaces)
    ensures r.Failure? ==> r.error == AlreadyRegistered(decl.name)
    ensures r.Success? ==> Lookup(r.value, decl.name) == Some(decl)
    ensures r.Success? ==> forall n :: n != decl.name ==> Lookup(r.value, n) == Lookup(interfaces, n)
    ensures r.Success? ==> Names(r.value) == Names(interfaces) + [decl.name]
  {
    if decl.name in Names(interfaces) then Failure(AlreadyRegistered(decl.name))
    else
      var r := interfaces + [decl];
      LookupAppend(interfaces, decl);
      Success(r)
  }

  lemma {:induction false} LookupAppend(ds: seq<Decl>, d: Decl)
    requires d.name !in Names(ds)
    ensures Lookup(ds + [d], d.name) == Some(d)
    ensures forall n :: n != d.name ==> Lookup(ds + [d], n) == Lookup(ds, n)
    ensures Names(ds + [d]) == Names(ds) + [d.name]
  {
    NamesAppend(ds, d);
    if |ds| > 0 {
      assert (ds + [d])[0] == ds[0] && (ds + [d])[1..] == ds[1..] + [d];
      NamesTail(ds);
      LookupAppend(ds[1..], d);
    } else {
      assert ds + [d] == [d];
    }
  }

  lemma NamesAppend(ds: seq<Decl>, d: Decl)
    ensures Names(ds + [d]) == Names(ds) + [d.name]
  {
  }

  lemma NamesTail(ds: seq<Decl>)
    requires |ds| > 0
    ensures Names(ds) == [ds[0].name] + Names(ds[1..])
  {
  }

  /** The name table never holds a name twice. */
  lemma RegisterInKeepsDistinct(interfaces: seq<Decl>, decl: Decl)
    requires Distinct(Names(interfaces)) && RegisterIn(interfaces, decl).Success?
    ensures Distinct(Names(RegisterIn(interfaces, decl).value))
  {
    var ns := Names(interfaces) + [decl.name];
    forall i, j | 0 <= i < j < |ns| ensures ns[i] != ns[j] {
      if j == |ns| - 1 {
        assert ns[i] in Names(interfaces);
      }
    }
  }

  // ---------------------------------------------------------------------------
  // The Kind table.

  /** `gkvTypeExists`: `gvkTypes.find` with `gvkMatches`, the first matching row. */
  function FindKind(entries: seq<KindEntry>, gvk: Gvk): (r: Option<KindEntry>)
    ensures r.None? <==> gvk !in Gvks(entries)
    ensures r.Some? ==> r.value in entries && r.value.gvk == gvk
  {
    if |entries| == 0 then None
    else if SchemaLookup.GvkMatches(entries[0].gvk, gvk) then Some(entries[0])
    else
      var r := FindKind(entries[1..], gvk);
      assert Gvks(entries) == [entries[0].gvk] + Gvks(entries[1..]);
      r
  }

  /** `registerGKVType`: appends a row only for a triple not yet in the table. */
  function RegisterGkvIn(entries: seq<KindEntry>, gvk: Gvk, decl: Decl): (r: seq<KindEntry>)
    ensures gvk in Gvks(entries) ==> r == entries
    ensures gvk !in Gvks(entries) ==> r == entries + [KindEntry(gvk, decl)]
  {
    if FindKind(entries, gvk).Some? then entries else entries + [KindEntry(gvk, decl)]
  }

  /** The Kind table never holds two rows with matching triples. */
  lemma RegisterGkvKeepsDistinct(entries: seq<KindEntry>, gvk: Gvk, decl: Decl)
    requires Distinct(Gvks(entries))
    ensures Distinct(Gvks(RegisterGkvIn(entries, gvk, decl)))
    ensures gvk in Gvks(RegisterGkvIn(entries, gvk, decl))
  {
    var r := RegisterGkvIn(entries, gvk, decl);
    if gvk !in Gvks(entries) {
      var gs := Gvks(r);
      assert gs == Gvks(entries) + [gvk];
      forall i, j | 0 <= i < j < |gs| ensures gs[i] != gs[j] {
        if j == |gs| - 1 {
          assert gs[i] in Gvks(entries);
        }
      }
      assert gs[|gs| - 1] == gvk;
    }
  }

  /** The declaration `createAndRegisterKindInterface` builds for a Kind:
      `export type Kind = <spec schema, readOnly>` under a `// {gvk}` comment.
      The source passes "readOnly" as the second argument of
      `getTypeFromSchema`, the name slot, not the mode slot. */
  function KindDecl(gvk: Gvk, specSchema: Schema): Decl
    requires |gvk.kind| > 0
  {
    TypeAlias(Capitalize(gvk.kind), Some(gvk), SchemaType(Some(InlineSchema(specSchema)), Some("readOnly"), None))
  }

  /** `createAndRegisterKindInterface`: always `capitalize(kind)` (which throws
      on an empty kind, before the table is consulted); the table grows by one
      row, carrying the triple, only for a triple not seen before. */
  function CreateAndRegisterKind(entries: seq<KindEntry>, gvk: Gvk, specSchema: Schema)
    : (r: Result<(string, seq<KindEntry>), Error>)
    ensures r.Failure? <==> gvk.kind == ""
    ensures r.Success? ==> r.value.0 == Capitalize(gvk.kind)
    ensures r.Success? && gvk in Gvks(entries) ==> r.value.1 == entries
    ensures r.Success? && gvk !in Gvks(entries) ==>
      && |r.value.1| == |entries| + 1 && r.value.1[..|entries|] == entries
      && r.value.1[|entries|].gvk == gvk
      && r.value.1[|entries|].decl.comment == Some(gvk)
      && r.value.1[|entries|].decl.name == r.value.0
    ensures r.Success? && gvk !in Gvks(entries) ==> r.value.1 == entries + [KindEntry(gvk, KindDecl(gvk, specSchema))]
  {
    if gvk.kind == "" then Failure(TypeError("cannot read properties of undefined (reading 'toUpperCase')"))
    else
      var tsName := Capitalize(gvk.kind);
      if FindKind(entries, gvk).Some? then Success((tsName, entries))
      else
        var r := entries + [KindEntry(gvk, KindDecl(gvk, specSchema))];
        assert r[..|entries|] == entries;
        Success((tsName, r))
  }

  /** A second call for the same triple returns the same name and changes nothing. */
  lemma CreateAndRegisterKindIdempotent(entries: seq<KindEntry>, gvk: Gvk, s1: Schema, s2: Schema)
    requires CreateAndRegisterKind(entries, gvk, s1).Success?
    ensures var (name, entries') := CreateAndRegisterKind(entries, gvk, s1).value;
      CreateAndRegisterKind(entries', gvk, s2) == Success((name, entries'))
  {
    var entries' := CreateAndRegisterKind(entries, gvk, s1).value.1;
    RegisterGkvKeepsDistinctMember(entries, gvk, KindDecl(gvk, s1));
    assert entries' == RegisterGkvIn(entries, gvk, KindDecl(gvk, s1));
  }

  lemma RegisterGkvKeepsDistinctMember(entries: seq<KindEntry>, gvk: Gvk, decl: Decl)
    ensures gvk in Gvks(RegisterGkvIn(entries, gvk, decl))
  {
    var r := RegisterGkvIn(entries, gvk, decl);
    if gvk !in Gvks(entries) {
      assert r[|r| - 1].gvk == gvk;
      assert Gvks(r)[|r| - 1] == gvk;
    }
  }

  /** Kind names are not checked for clashes: two triples with the same kind
      in different groups give two declarations of one name. */
  lemma KindNamesMayClash(s: Schema)
    ensures var g1, g2 := Gvk("a.app", "v1", "thing"), Gvk("b.app", "v1", "thing");
      var once := CreateAndRegisterKind([], g1, s).value.1;
      var twice := CreateAndRegisterKind(once, g2, s).value.1;
      |twice| == 2 && twice[0].decl.name == twice[1].decl.name == "Thing"
  {
    var g1, g2 := Gvk("a.app", "v1", "thing"), Gvk("b.app", "v1", "thing");
    assert Capitalize("thing") == "Thing";
    var once := CreateAndRegisterKind([], g1, s).value.1;
    assert Gvks(once) == [g1];
    assert g2 !in Gvks(once);
  }

  // ---------------------------------------------------------------------------
  // The import set and the response type.

  /** `usedCommonLibImports.add(lib)`: a Set keeps first-insertion order. */
  function UseImport(imports: seq<LibName>, lib: LibName): (r: seq<LibName>)
    ensures lib in r && forall l :: l in r <==> l in imports || l == lib
    ensures Distinct(imports) ==> Distinct(r)
    ensures lib in imports ==> r == imports
    ensures lib !in imports ==> r == imports + [lib]
  {
    if lib in imports then imports else imports + [lib]
  }

  /** The wrapper each action's response uses (src/run.ts:127-148, run.ts:158-179). */
  function LibForAction(action: string): (r: Option<LibName>)
    ensures r == Some(Resource) <==> action in ["get", "post", "put", "patch"]
    ensures r == Some(ResourceList) <==> action == "list"
    ensures r == Some(MetaStatus) <==> action in ["delete", "deletecollection"]
    ensures r.None? <==> action !in ["get", "post", "put", "patch", "list", "delete", "deletecollection"]
  {
    if action in ["get", "post", "put", "patch"] then Some(Resource)
    else if action == "list" then Some(ResourceList)
    else if action in ["delete", "deletecollection"] then Some(MetaStatus)
    else None
  }

  /** The type node of run.ts:158-179: `Resource<Kind, "group">`,
      `ResourceList<Kind, "group">` or a reference to `MetaStatus`. */
  function ResponseTypeNode(action: string, kindName: string, group: string): (r: Option<TypeNode>)
    ensures r.None? <==> LibForAction(action).None?
    ensures r.Some? && LibForAction(action) != Some(MetaStatus) ==>
      r.value == LibTypeRef(LibForAction(action).value, kindName, group)
    ensures r.Some? && LibForAction(action) == Some(MetaStatus) ==> r.value == LibTypeName(MetaStatus)
  {
    match LibForAction(action)
    case None => None
    case Some(MetaStatus) => Some(LibTypeName(MetaStatus))
    case Some(lib) => Some(LibTypeRef(lib, kindName, group))
  }

  /** The usage of the identifier `CommonLibMetaStatus` at src/run.ts:146: it
      is not imported there (src/run.ts:14-18), so evaluating it throws. */
  function ResponseTypeNodeAsWritten(action: string, kindName: string, group: string): (r: Result<Option<TypeNode>, Error>)
    ensures LibForAction(action) != Some(MetaStatus) ==> r == Success(ResponseTypeNode(action, kindName, group))
  {
    if LibForAction(action) == Some(MetaStatus) then Failure(ReferenceError("CommonLibMetaStatus"))
    else Success(ResponseTypeNode(action, kindName, group))
  }

  /** Delete responses can never be emitted by src/run.ts as written, while
      run.ts emits `MetaStatus` for them. */
  lemma MetaStatusNotInScope(kindName: string, group: string)
    ensures ResponseTypeNodeAsWritten("delete", kindName, group) == Failure(ReferenceError("CommonLibMetaStatus"))
    ensures ResponseTypeNodeAsWritten("deletecollection", kindName, group).Failure?
    ensures ResponseTypeNode("delete", kindName, group) == Some(LibTypeName(MetaStatus))
  {
    assert LibForAction("delete") == Some(MetaStatus);
    assert LibForAction("deletecollection") == Some(MetaStatus);
  }

  // ---------------------------------------------------------------------------
  // The three tables together.

  datatype Tables = Tables(kinds: seq<KindEntry>, interfaces: seq<Decl>, imports: seq<LibName>)

  /** What the tables keep: one row per triple, one declaration per name, one
      import per library name. */
  predicate Valid(t: Tables) {
    Distinct(Gvks(t.kinds)) && Distinct(Names(t.interfaces)) && Distinct(t.imports)
  }

  /** The module-level tables of src/run.ts and run.ts as one object. */
  class CodegenContext {
    var kinds: seq<KindEntry>
    var interfaces: seq<Decl>
    var imports: seq<LibName>

    function State(): Tables
      reads this
    {
      Tables(kinds, interfaces, imports)
    }

    constructor()
      ensures State() == Tables([], [], [])
      ensures Valid(State())
    {
      kinds, interfaces, imports := [], [], [];
    }

    /** `useCommonLibImport`: records the name and hands it back. */
    method UseCommonLibImport(lib: LibName) returns (r: LibName)
      modifies this
      ensures r == lib
      ensures State() == old(State()).(imports := UseImport(old(imports), lib))
    {
      imports := UseImport(imports, lib);
      r := lib;
    }

    /** `registerInterface`. */
    method RegisterInterface(decl: Decl) returns (r: Result<Decl, Error>)
      modifies this
      ensures RegisterIn(old(interfaces), decl).Failure? ==>
        r == Failure(RegisterIn(old(interfaces), decl).error) && State() == old(State())
      ensures RegisterIn(old(interfaces), decl).Success? ==>
        r == Success(decl) && State() == old(State()).(interfaces := RegisterIn(old(interfaces), decl).value)
    {
      if Lookup(interfaces, decl.name).Some? {
        return Failure(AlreadyRegistered(decl.name));
      }
      interfaces := interfaces + [decl];
      r := Success(decl);
    }

    /** `gkvTypeExists`. */
    function GkvTypeExists(gvk: Gvk): Option<KindEntry>
      reads this
    {
      FindKind(kinds, gvk)
    }

    /** `registerGKVType`. */
    method RegisterGkvType(gvk: Gvk, decl: Decl)
      modifies this
      ensures State() == old(State()).(kinds := RegisterGkvIn(old(kinds), gvk, decl))
    {
      var alreadyExists := GkvTypeExists(gvk);
      if alreadyExists.None? {
        kinds := kinds + [KindEntry(gvk, decl)];
      }
    }

    /** `createAndRegisterKindInterface`. */
    method CreateAndRegisterKindInterface(gvk: Gvk, specSchema: Schema) returns (r: Result<string, Error>)
      modifies this
      ensures CreateAndRegisterKind(old(kinds), gvk, specSchema).Failure? ==>
        r == Failure(CreateAndRegisterKind(old(kinds), gvk, specSchema).error) && State() == old(State())
      ensures CreateAndRegisterKind(old(kinds), gvk, specSchema).Success? ==>
        && r == Success(CreateAndRegisterKind(old(kinds), gvk, specSchema).value.0)
        && State() == old(State()).(kinds := CreateAndRegisterKind(old(kinds), gvk, specSchema).value.1)
    {
      if gvk.kind == "" {
        return Failure(TypeError("cannot read properties of undefined (reading 'toUpperCase')"));
      }
      var tsName := Capitalize(gvk.kind);
      if GkvTypeExists(gvk).Some? {
        return Success(tsName);
      }
      RegisterGkvType(gvk, KindDecl(gvk, specSchema));
      r := Success(tsName);
    }
  }
}
