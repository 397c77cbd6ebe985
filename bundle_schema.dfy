/** The JSON schema of a STIX 2.1 bundle that stix-builder.config.js exports
    as `STIX_SCHEMA`, and `buildSchemaDefinitions`, which fills in its
    `definitions` once per object type. Only the schema keywords the file
    uses are modelled. */
module BundleSchema {
  import opened Wrappers
  import opened Seqs
  import opened OrderedDict
  import opened StixCatalog
  import opened StixSchema

  /** The schema of one property: `{type: 'string'}` with an optional
      `pattern`, `{const: v}`, or `{type: 'array', items: {oneOf: refs}}`. */
  datatype PropSchema =
    | StringProp(pattern: Option<string>)
    | ConstProp(value: string)
    | ArrayOf(oneOf: seq<string>)

  /** `{type: 'object', required, properties}`. */
  datatype TypeSchema = TypeSchema(required: seq<string>, properties: Dict<PropSchema>)

  /** `baseProps`: `type`, `spec_version`, `id`, in that order. */
  const BaseProps: Dict<PropSchema> :=
    Dict(["type", "spec_version", "id"],
         map["type" := StringProp(None), "spec_version" := StringProp(None),
             "id" := StringProp(Some(StixIdPatternSource))])

  /** The definition written for one object type: the base properties with
      `type` replaced in place by a constant. */
  function DefinitionFor(objectType: string): (s: TypeSchema)
    ensures s.required == ["type"]
    ensures s.properties.Valid()
    ensures s.properties.keys == ["type", "spec_version", "id"]
    ensures s.properties.values["type"] == ConstProp(objectType)
    ensures s.properties.values["spec_version"] == StringProp(None)
    ensures s.properties.values["id"] == StringProp(Some(StixIdPatternSource))
  {
    assert BaseProps.Valid();
    TypeSchema(["type"], BaseProps.Put("type", ConstProp(objectType)))
  }

  /** The object type a definition admits: the value of its `type` constant. */
  function AdmittedType(s: TypeSchema): (t: Option<string>)
    ensures t.Some? <==> "type" in s.properties.values && s.properties.values["type"].ConstProp?
  {
    if "type" in s.properties.values && s.properties.values["type"].ConstProp?
    then Some(s.properties.values["type"].value)
    else None
  }

  /** `defs` after `defs[type] = schema` for each type of `types` in order. */
  function DefinitionsOnto(defs: Dict<TypeSchema>, types: seq<string>): (r: Dict<TypeSchema>)
    requires defs.Valid()
    ensures r.Valid()
  {
    if types == [] then defs
    else
      var t := types[|types| - 1];
      DefinitionsOnto(defs, types[..|types| - 1]).Put(t, DefinitionFor(t))
  }

  /** Writing the definitions into an empty table lists the types once each,
      in order, and gives each its own definition. */
  lemma {:induction false} DefinitionsOntoEmpty(types: seq<string>)
    requires Distinct(types)
    ensures DefinitionsOnto(Empty(), types).keys == types
    ensures forall t | t in types :: DefinitionsOnto(Empty(), types).values[t] == DefinitionFor(t)
    decreases |types|
  {
    if types != [] {
      var init := types[..|types| - 1];
      var t := types[|types| - 1];
      assert types == init + [t];
      DefinitionsOntoEmpty(init);
      assert t !in init;
    }
  }

  /** A definition admits exactly the type it was written for. */
  lemma DefinitionAdmitsItsType(objectType: string)
    ensures AdmittedType(DefinitionFor(objectType)) == Some(objectType)
  {
  }

  /** `'#/definitions/' + key`. */
  const RefPrefix: string := "#/definitions/"

  function RefTo(key: string): (ref: string)
    ensures |ref| == |RefPrefix| + |key|
    ensures ref[..|RefPrefix|] == RefPrefix && ref[|RefPrefix|..] == key
  {
    RefPrefix + key
  }

  /** `Object.keys(STIX_OBJECT_DEFS).map(key => ({$ref: '#/definitions/' + key}))`. */
  function OneOfRefs(keys: seq<string>): (refs: seq<string>)
    ensures |refs| == |keys|
    ensures forall i | 0 <= i < |keys| :: refs[i] == RefTo(keys[i])
  {
    seq(|keys|, i requires 0 <= i < |keys| => RefTo(keys[i]))
  }

  /** A local `$ref` into `definitions`: the definition named after the
      prefix, if there is one. */
  function Resolve(defs: Dict<TypeSchema>, ref: string): (r: Option<TypeSchema>)
    ensures r.Some? <==> |ref| >= |RefPrefix| && ref[..|RefPrefix|] == RefPrefix && ref[|RefPrefix|..] in defs.values
    ensures r.Some? ==> r.value == defs.values[ref[|RefPrefix|..]]
  {
    if |ref| >= |RefPrefix| && ref[..|RefPrefix|] == RefPrefix && ref[|RefPrefix|..] in defs.values
    then Some(defs.values[ref[|RefPrefix|..]])
    else None
  }

  /** The reference to a key resolves to that key's entry. */
  lemma ResolveRef(defs: Dict<TypeSchema>, key: string)
    ensures Resolve(defs, RefTo(key)) == (if key in defs.values then Some(defs.values[key]) else None)
  {
    var ref := RefTo(key);
    assert ref[|RefPrefix|..] == key;
  }

  /** Every reference of the `oneOf` list, built from distinct type names,
      resolves in the table written for those names to the definition of
      that very name. */
  lemma RefsResolve(types: seq<string>)
    requires Distinct(types)
    ensures forall i | 0 <= i < |types| ::
              Resolve(DefinitionsOnto(Empty(), types), OneOfRefs(types)[i]) == Some(DefinitionFor(types[i]))
  {
    DefinitionsOntoEmpty(types);
    var defs := DefinitionsOnto(Empty(), types);
    forall i | 0 <= i < |types|
      ensures Resolve(defs, OneOfRefs(types)[i]) == Some(DefinitionFor(types[i]))
    {
      var ref := OneOfRefs(types)[i];
      assert ref == RefTo(types[i]);
      assert types[i] in defs.keys;
      ResolveRef(defs, types[i]);
    }
  }

  /** The `oneOf` list never refers twice to the same definition. */
  lemma RefsDistinct(types: seq<string>)
    requires Distinct(types)
    ensures Distinct(OneOfRefs(types))
  {
    var refs := OneOfRefs(types);
    forall i, j | 0 <= i < j < |refs|
      ensures refs[i] != refs[j]
    {
      assert refs[i][|RefPrefix|..] == types[i];
      assert refs[j][|RefPrefix|..] == types[j];
    }
  }

  /** `oneOf` admits an object of type `t` through exactly one alternative:
      the alternatives admitting `t` are those at the positions of `t`, and
      distinct names give one position at most. */
  lemma OneAlternativePerType(types: seq<string>, t: string, i: int)
    requires Distinct(types)
    requires 0 <= i < |types|
    ensures AdmittedType(DefinitionFor(types[i])) == Some(t) <==> types[i] == t
    ensures forall j | 0 <= j < |types| && types[i] == t && types[j] == t :: j == i
  {
    DefinitionAdmitsItsType(types[i]);
  }

  /** `STIX_SCHEMA`. Its `type` is `'object'` and its `$schema` and `title`
      are fixed strings; neither is modelled. */
  class BundleSchema {
    const required: seq<string>
    const properties: Dict<PropSchema>
    var definitions: Dict<TypeSchema>

    ghost predicate Valid()
      reads this
    {
      definitions.Valid()
    }

    /** The literal, with `definitions: {}`. */
    constructor()
      ensures Valid()
      ensures required == ["type", "id", "spec_version", "objects"]
      ensures properties == BundleProperties(ObjectDefKeys)
      ensures definitions == Empty()
    {
      required := ["type", "id", "spec_version", "objects"];
      properties := BundleProperties(ObjectDefKeys);
      definitions := Empty();
    }

    /** `buildSchemaDefinitions`: one definition per key of the object
        definitions table (`STIX_OBJECT_DEFS`), in key order. */
    method BuildSchemaDefinitions(objectDefs: Dict<ObjectDef>)
      requires Valid()
      modifies this
      ensures Valid()
      ensures definitions == DefinitionsOnto(old(definitions), objectDefs.keys)
    {
      var types := objectDefs.keys;
      for i := 0 to |types|
        invariant definitions.Valid()
        invariant definitions == DefinitionsOnto(old(definitions), types[..i])
      {
        assert types[..i + 1][..i] == types[..i];
        definitions := definitions.Put(types[i], DefinitionFor(types[i]));
      }
      assert types[..|types|] == types;
    }
  }

  /** The bundle's `properties`: `type`, `id`, `spec_version`, `objects`. */
  function BundleProperties(keys: seq<string>): (p: Dict<PropSchema>)
    ensures p.Valid()
    ensures p.keys == ["type", "id", "spec_version", "objects"]
    ensures p.values["type"] == ConstProp("bundle")
    ensures p.values["id"] == StringProp(Some(StixIdPatternSource))
    ensures p.values["spec_version"] == ConstProp(StixVersion)
    ensures p.values["objects"] == ArrayOf(OneOfRefs(keys))
  {
    Dict(["type", "id", "spec_version", "objects"],
         map["type" := ConstProp("bundle"), "id" := StringProp(Some(StixIdPatternSource)),
             "spec_version" := ConstProp(StixVersion), "objects" := ArrayOf(OneOfRefs(keys))])
  }

  /** Once the definitions are built from distinct type names, every
      alternative of the bundle's `objects.items.oneOf` resolves, in order, to
      the definition of the object type it names, and those are all of the
      definitions. `ObjectDefsMerge` supplies the distinct names of
      `STIX_OBJECT_DEFS`. */
  lemma BuiltSchemaResolves(schema: BundleSchema, types: seq<string>)
    requires Distinct(types)
    requires schema.definitions == DefinitionsOnto(Empty(), types)
    requires schema.properties == BundleProperties(types)
    ensures schema.definitions.keys == types
    ensures schema.properties.values["objects"].oneOf == OneOfRefs(schema.definitions.keys)
    ensures Distinct(schema.properties.values["objects"].oneOf)
    ensures forall i | 0 <= i < |types| ::
              Resolve(schema.definitions, schema.properties.values["objects"].oneOf[i])
                == Some(DefinitionFor(types[i]))
  {
    DefinitionsOntoEmpty(types);
    RefsResolve(types);
    RefsDistinct(types);
  }
}
