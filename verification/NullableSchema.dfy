/** The rewrite that makes a field's JSON schema accept null as well, and when it does exactly that.

    Validity follows JSON Schema draft-07: sections 6.1.1 to 6.1.3 (type, enum, const) and 6.7.1 to 6.7.3 (allOf,
    anyOf, oneOf) of JSON Schema Validation, and section 8.3 of JSON Schema Core ($ref hides its siblings). */
module NullableSchema {
  import opened Common

  /** The `type` keyword: absent, one name, or a list of names. */
  datatype TypeKeyword = NoType | Single(name: string) | Several(names: seq<string>)

  /** The list of a combinator keyword, if it is there. */
  datatype Branches = NoBranches | Branches(list: seq<Schema>)

  datatype Schema = Schema(
    typ: TypeKeyword,
    ref: Option<string>,
    allOf: Branches,
    anyOf: Branches,
    oneOf: Branches,
    enumeration: Option<seq<Json>>,
    constant: Option<Json>,
    others: map<string, Json>)

  const Anything := Schema(NoType, None, NoBranches, NoBranches, NoBranches, None, None, map[])

  const NullTypeSchema := Anything.(typ := Single("null"), others := map["title" := JStr("None")])

  // ----- validity -----

  /** What references stand for, and what the keywords outside this model ask of a value. */
  datatype Meaning = Meaning(refs: (string, Json) -> bool, keyword: (string, Json, Json) -> bool)

  /** The keywords of section 10 of JSON Schema Validation, which say nothing about any value. */
  const ANNOTATIONS: set<string> := {"title", "description", "default", "readOnly", "writeOnly", "examples"}

  /** The other keywords speak of numbers, strings, arrays and objects only, and annotations of nothing. */
  ghost predicate Lawful(m: Meaning) {
    && (forall name, argument :: m.keyword(name, argument, JNull))
    && (forall name, argument, v :: name in ANNOTATIONS ==> m.keyword(name, argument, v))
  }

  predicate HasType(v: Json, name: string) {
    match v
    case JNull => name == "null"
    case JBool(_) => name == "boolean"
    case JInt(_) => name == "integer" || name == "number"
    case JReal(r) => name == "number" || (name == "integer" && r == r.Floor as real)
    case JStr(_) => name == "string"
    case JArr(_) => name == "array"
    case JObj(_) => name == "object"
  }

  predicate TypeAccepts(typ: TypeKeyword, v: Json) {
    match typ
    case NoType => true
    case Single(name) => HasType(v, name)
    case Several(names) => exists i :: 0 <= i < |names| && HasType(v, names[i])
  }

  predicate ValueAccepts(enumeration: Option<seq<Json>>, constant: Option<Json>, v: Json) {
    && (enumeration.Some? ==> v in enumeration.value)
    && (constant.Some? ==> v == constant.value)
  }

  ghost predicate OthersAccept(m: Meaning, others: map<string, Json>, v: Json) {
    forall name :: name in others ==> m.keyword(name, others[name], v)
  }

  ghost predicate Accepts(m: Meaning, s: Schema, v: Json)
    decreases s, 1
  {
    if s.ref.Some? then m.refs(s.ref.value, v)
    else
      && TypeAccepts(s.typ, v)
      && ValueAccepts(s.enumeration, s.constant, v)
      && OthersAccept(m, s.others, v)
      && (s.allOf.Branches? ==> AllTrue(Verdicts(m, s.allOf.list, v)))
      && (s.anyOf.Branches? ==> AnyTrue(Verdicts(m, s.anyOf.list, v)))
      && (s.oneOf.Branches? ==> OneTrue(Verdicts(m, s.oneOf.list, v)))
  }

  /** What each branch says of a value. */
  ghost function Verdicts(m: Meaning, schemas: seq<Schema>, v: Json): (verdicts: seq<bool>)
    ensures |verdicts| == |schemas|
    decreases schemas, 0
  {
    seq(|schemas|, i requires 0 <= i < |schemas| => Accepts(m, schemas[i], v))
  }

  predicate AllTrue(verdicts: seq<bool>) {
    forall i :: 0 <= i < |verdicts| ==> verdicts[i]
  }

  predicate AnyTrue(verdicts: seq<bool>) {
    exists i :: 0 <= i < |verdicts| && verdicts[i]
  }

  ghost predicate OneTrue(verdicts: seq<bool>) {
    exists i :: OnlyTrueAt(verdicts, i)
  }

  predicate OnlyTrueAt(verdicts: seq<bool>, i: int) {
    0 <= i < |verdicts| && verdicts[i] && forall j :: 0 <= j < |verdicts| && verdicts[j] ==> j == i
  }

  // ----- the rewrite -----

  datatype Outcome = Patched(schema: Schema) | TypeError

  /** The keyword names a type. */
  predicate Typed(typ: TypeKeyword) {
    (typ.Single? && typ.name != "") || (typ.Several? && typ.names != [])
  }

  /** Whether the keyword's value counts as true. */
  predicate Truthy(typ: TypeKeyword)
    ensures Truthy(typ) <==> Typed(typ)
  {
    match typ
    case NoType => false
    case Single(name) => name != ""
    case Several(names) => names != []
  }

  function Names(typ: TypeKeyword): seq<string> {
    match typ
    case NoType => []
    case Single(name) => [name]
    case Several(names) => names
  }

  predicate HasNullBranch(schemas: seq<Schema>)
    ensures HasNullBranch(schemas) <==> NullListed(schemas)
  {
    exists i :: 0 <= i < |schemas| && schemas[i].typ == Single("null")
  }

  function WithNullBranch(schemas: seq<Schema>): seq<Schema> {
    if HasNullBranch(schemas) then schemas else schemas + [NullTypeSchema]
  }

  function Nullable(f: Schema, openapi: bool): Outcome {
    if Truthy(f.typ) then
      if openapi then Patched(Anything.(anyOf := Branches([f, NullTypeSchema])))
      else Patched(f.(typ := Several(Names(f.typ) + ["null"])))
    else if f.ref.Some? then Patched(f.(anyOf := Branches([f, NullTypeSchema]), ref := None))
    else if f.allOf.Branches? then Patched(f.(anyOf := Branches(f.allOf.list + [NullTypeSchema]), allOf := NoBranches))
    else if f.anyOf.Branches? && f.anyOf.list != [] then Patched(f.(anyOf := Branches(WithNullBranch(f.anyOf.list))))
    else if f.oneOf.Branches? then Patched(f.(oneOf := Branches(WithNullBranch(f.oneOf.list))))
    else if f.anyOf.Branches? then TypeError   // an empty anyOf and no oneOf: there is no list to search
    else Patched(f)
  }

  const OPENAPI_PREFIX := "#/components/schemas/"

  /** The dictionary that pydantic hands over, which the patch writes to. */
  class SchemaObject {
    var typ: TypeKeyword
    var ref: Option<string>
    var allOf: Branches
    var anyOf: Branches
    var oneOf: Branches
    var enumeration: Option<seq<Json>>
    var constant: Option<Json>
    var others: map<string, Json>

    function Value(): Schema
      reads this
    {
      Schema(typ, ref, allOf, anyOf, oneOf, enumeration, constant, others)
    }

    constructor (s: Schema)
      ensures Value() == s
    {
      typ, ref, allOf, anyOf, oneOf := s.typ, s.ref, s.allOf, s.anyOf, s.oneOf;
      enumeration, constant, others := s.enumeration, s.constant, s.others;
    }

    /** Appends "null" to the list of types. */
    method AppendNullType()
      requires Typed(typ)
      modifies this`typ
      ensures Value() == old(Value()).(typ := Several(Names(old(typ)) + ["null"]))
      ensures typ == match old(typ)
                     case NoType => NoType
                     case Single(name) => Several([name, "null"])
                     case Several(names) => Several(names + ["null"])
    {
      if !typ.Several? {
        typ := Several([typ.name]);
      }
      typ := Several(typ.names + ["null"]);
    }

    /** Appends a null branch to the list the search ran over, unless it has one. */
    method AppendNullBranch() returns (failed: bool)
      requires anyOf.Branches? || oneOf.Branches?
      modifies this`anyOf, this`oneOf
      ensures failed <==> old(oneOf.NoBranches? && anyOf.list == [])
      ensures Value() ==
        if old(anyOf.Branches? && anyOf.list != [])
        then old(Value()).(anyOf := Branches(WithNullBranch(old(anyOf.list))))
        else if old(oneOf.Branches?) then old(Value()).(oneOf := Branches(WithNullBranch(old(oneOf.list))))
        else old(Value())
    {
      var useAny := anyOf.Branches? && anyOf.list != [];
      if !useAny && oneOf.NoBranches? {
        return true; // there is no list to search
      }
      var oneOrAny := if useAny then anyOf.list else oneOf.list;
      var found := false;
      for i := 0 to |oneOrAny|
        invariant !found && forall k :: 0 <= k < i ==> oneOrAny[k].typ != Single("null")
      {
        if oneOrAny[i].typ == Single("null") {
          found := true;
          break;
        }
      }
      if !found {
        if useAny {
          anyOf := Branches(oneOrAny + [NullTypeSchema]);
        } else {
          oneOf := Branches(oneOrAny + [NullTypeSchema]);
        }
      }
      failed := false;
    }
  }

  predicate NullListed(schemas: seq<Schema>) {
    exists i :: 0 <= i < |schemas| && schemas[i].typ == Single("null")
  }

  /** The list of a combinator with a null branch at the end, unless it has one of type null. */
  predicate Extends(before: Branches, after: Branches) {
    && before.Branches? && after.Branches?
    && after.list == before.list + if NullListed(before.list) then [] else [NullTypeSchema]
  }

  /** What becomes of the schema `f` of a field that allows None, form by form. */
  predicate PatchedAs(f: Schema, openapi: bool, failed: bool, g: Schema) {
    if f.typ.Single? && f.typ.name != "" then
      && !failed
      && g == if openapi then Anything.(anyOf := Branches([f, NullTypeSchema]))
              else f.(typ := Several([f.typ.name, "null"]))
    else if f.typ.Several? && f.typ.names != [] then
      && !failed
      && g == if openapi then Anything.(anyOf := Branches([f, NullTypeSchema]))
              else f.(typ := Several(f.typ.names + ["null"]))
    else if f.ref.Some? then
      !failed && g == f.(anyOf := Branches([f, NullTypeSchema]), ref := None)
    else if f.allOf.Branches? then
      !failed && g == f.(anyOf := Branches(f.allOf.list + [NullTypeSchema]), allOf := NoBranches)
    else if f.anyOf.Branches? && f.anyOf.list != [] then
      !failed && g == f.(anyOf := g.anyOf) && Extends(f.anyOf, g.anyOf)
    else if f.oneOf.Branches? then
      !failed && g == f.(oneOf := g.oneOf) && Extends(f.oneOf, g.oneOf)
    else if f.anyOf.Branches? then
      failed
    else
      !failed && g == f
  }

  lemma NullableIsPatched(f: Schema, openapi: bool)
    ensures match Nullable(f, openapi)
            case Patched(g) => PatchedAs(f, openapi, false, g)
            case TypeError => PatchedAs(f, openapi, true, f)
  {
    assert forall schemas: seq<Schema> :: schemas + [] == schemas;
    if f.typ.Single? {
      assert [f.typ.name] + ["null"] == [f.typ.name, "null"];
    }
  }

  /** The patched field_type_schema, given what pydantic returned for the field. It writes to the schema it was
      given, except that the OpenAPI form of a typed field is a new one around it; the rest is passed through. */
  method FieldTypeSchema<D, N>(made: SchemaObject, allowNone: bool, refPrefix: Option<string>, defs: D, nested: N)
    returns (failed: bool, schema: SchemaObject, definitions: D, nestedModels: N)
    modifies made
    ensures definitions == defs && nestedModels == nested
    ensures !allowNone ==> !failed && schema == made && made.Value() == old(made.Value())
    ensures var openapi := refPrefix == Some(OPENAPI_PREFIX); var outcome := Nullable(old(made.Value()), openapi);
      allowNone ==> (failed <==> outcome.TypeError?) && (!failed ==> schema.Value() == outcome.schema)
    ensures allowNone ==>
      PatchedAs(old(made.Value()), refPrefix == Some("#/components/schemas/"), failed, schema.Value())
    ensures failed ==> made.Value() == old(made.Value())
    ensures if allowNone && refPrefix == Some("#/components/schemas/") && Typed(old(made.typ))
            then fresh(schema) && made.Value() == old(made.Value())
            else schema == made
  {
    failed, schema, definitions, nestedModels := false, made, defs, nested;
    NullableIsPatched(made.Value(), refPrefix == Some(OPENAPI_PREFIX));
    if allowNone {
      if Truthy(made.typ) {
        if refPrefix == Some(OPENAPI_PREFIX) {
          schema := new SchemaObject(Anything.(anyOf := Branches([made.Value(), NullTypeSchema])));
        } else {
          made.AppendNullType();
        }
      } else if made.ref.Some? {
        made.anyOf := Branches([made.Value(), NullTypeSchema]);
        made.ref := None;
      } else if made.allOf.Branches? {
        made.anyOf := made.allOf;
        made.allOf := NoBranches;
        made.anyOf := Branches(made.anyOf.list + [NullTypeSchema]);
      } else if made.anyOf.Branches? || made.oneOf.Branches? {
        failed := made.AppendNullBranch();
      }
    }
  }

  // ----- the meaning of the pieces -----

  lemma NullSchemaMeansNull(m: Meaning, v: Json)
    requires Lawful(m)
    ensures Accepts(m, NullTypeSchema, v) <==> v == JNull
  {
  }

  lemma VerdictsWithNull(m: Meaning, schemas: seq<Schema>, v: Json)
    requires Lawful(m)
    ensures Verdicts(m, schemas + [NullTypeSchema], v) == Verdicts(m, schemas, v) + [v == JNull]
  {
    var more := schemas + [NullTypeSchema];
    NullSchemaMeansNull(m, v);
    forall i | 0 <= i < |more| ensures Verdicts(m, more, v)[i] == (Verdicts(m, schemas, v) + [v == JNull])[i] {
      assert more[i] == if i < |schemas| then schemas[i] else NullTypeSchema;
    }
  }

  lemma OneMoreAny(verdicts: seq<bool>, last: bool)
    ensures AnyTrue(verdicts + [last]) <==> AnyTrue(verdicts) || last
  {
    var more, n := verdicts + [last], |verdicts|;
    assert more[n] == last;
    if i :| 0 <= i < n && verdicts[i] { assert more[i]; }
  }

  lemma NoneBefore(verdicts: seq<bool>)
    ensures OneTrue(verdicts + [true]) <==> !AnyTrue(verdicts)
  {
    var more, n := verdicts + [true], |verdicts|;
    assert more[n] && forall i :: 0 <= i < n ==> more[i] == verdicts[i];
    if !AnyTrue(verdicts) {
      assert OnlyTrueAt(more, n);
    }
  }

  lemma NoneAfter(verdicts: seq<bool>)
    ensures OneTrue(verdicts + [false]) <==> OneTrue(verdicts)
  {
    var more, n := verdicts + [false], |verdicts|;
    assert !more[n] && forall j :: 0 <= j < n ==> more[j] == verdicts[j];
    assert forall i :: OnlyTrueAt(more, i) <==> OnlyTrueAt(verdicts, i);
  }

  /** One more branch: some branch accepts if one did or the new one does; exactly one does if the new one
      does and none did, or the new one does not and exactly one did. */
  lemma OneMoreVerdict(verdicts: seq<bool>, last: bool)
    ensures AnyTrue(verdicts + [last]) <==> AnyTrue(verdicts) || last
    ensures OneTrue(verdicts + [last]) <==> if last then !AnyTrue(verdicts) else OneTrue(verdicts)
  {
    OneMoreAny(verdicts, last);
    if last {
      NoneBefore(verdicts);
    } else {
      NoneAfter(verdicts);
    }
  }

  /** A type keyword accepts what one of its names does. */
  lemma NamesAccept(typ: TypeKeyword, v: Json)
    requires Typed(typ)
    ensures TypeAccepts(typ, v) <==> TypeAccepts(Several(Names(typ)), v)
  {
    if typ.Single? {
      assert HasType(v, typ.name) <==> HasType(v, Names(typ)[0]);
    }
  }

  lemma OneMoreName(names: seq<string>, v: Json)
    ensures TypeAccepts(Several(names + ["null"]), v) <==> TypeAccepts(Several(names), v) || v == JNull
  {
    var more, n := names + ["null"], |names|;
    assert more[n] == "null" && (HasType(v, more[n]) <==> v == JNull);
    if i :| 0 <= i < n && HasType(v, names[i]) {
      assert HasType(v, more[i]);
    }
    if i :| 0 <= i < n + 1 && HasType(v, more[i]) {
      assert i == n || HasType(v, names[i]);
    }
  }

  lemma TypeWithNull(typ: TypeKeyword, v: Json)
    requires Typed(typ)
    ensures TypeAccepts(Several(Names(typ) + ["null"]), v) <==> TypeAccepts(typ, v) || v == JNull
  {
    NamesAccept(typ, v);
    OneMoreName(Names(typ), v);
  }

  // ----- what each form of the rewrite accepts -----

  lemma TypeListAccepts(m: Meaning, f: Schema, v: Json)
    requires Typed(f.typ) && f.ref.None?
    ensures Accepts(m, f.(typ := Several(Names(f.typ) + ["null"])), v) <==>
            Accepts(m, f, v) || (v == JNull && Accepts(m, f.(typ := NoType), JNull))
  {
    TypeWithNull(f.typ, v);
  }

  lemma EitherOrNull(m: Meaning, f: Schema, v: Json)
    requires Lawful(m)
    ensures AnyTrue(Verdicts(m, [f, NullTypeSchema], v)) <==> Accepts(m, f, v) || v == JNull
  {
    VerdictsWithNull(m, [f], v);
    OneMoreVerdict(Verdicts(m, [f], v), v == JNull);
    assert [f] + [NullTypeSchema] == [f, NullTypeSchema];
    assert AnyTrue(Verdicts(m, [f], v)) <==> Verdicts(m, [f], v)[0];
  }

  lemma WrappedAccepts(m: Meaning, f: Schema, v: Json)
    requires Lawful(m)
    ensures Accepts(m, Anything.(anyOf := Branches([f, NullTypeSchema])), v) <==> Accepts(m, f, v) || v == JNull
  {
    EitherOrNull(m, f, v);
  }

  /** The keywords beside a reference, which nothing looks at until the reference has moved away. */
  function Siblings(f: Schema): Schema {
    f.(ref := None, anyOf := NoBranches)
  }

  lemma MovedReferenceAccepts(m: Meaning, f: Schema, v: Json)
    requires Lawful(m) && f.ref.Some?
    ensures Accepts(m, f.(anyOf := Branches([f, NullTypeSchema]), ref := None), v) <==>
            Accepts(m, Siblings(f), v) && (Accepts(m, f, v) || v == JNull)
  {
    EitherOrNull(m, f, v);
  }

  function WithoutAllOf(f: Schema): Schema {
    f.(allOf := NoBranches, anyOf := NoBranches)
  }

  lemma AllOfBecomesAnyOf(m: Meaning, f: Schema, v: Json)
    requires Lawful(m) && f.ref.None? && f.allOf.Branches?
    ensures Accepts(m, f.(anyOf := Branches(f.allOf.list + [NullTypeSchema]), allOf := NoBranches), v) <==>
            Accepts(m, WithoutAllOf(f), v) && (AnyTrue(Verdicts(m, f.allOf.list, v)) || v == JNull)
  {
    VerdictsWithNull(m, f.allOf.list, v);
    OneMoreVerdict(Verdicts(m, f.allOf.list, v), v == JNull);
  }

  lemma AnyOfAccepts(m: Meaning, f: Schema, v: Json)
    requires Lawful(m) && f.ref.None? && f.anyOf.Branches?
    ensures Accepts(m, f.(anyOf := Branches(f.anyOf.list + [NullTypeSchema])), v) <==>
            Accepts(m, f.(anyOf := NoBranches), v) && (AnyTrue(Verdicts(m, f.anyOf.list, v)) || v == JNull)
  {
    VerdictsWithNull(m, f.anyOf.list, v);
    OneMoreVerdict(Verdicts(m, f.anyOf.list, v), v == JNull);
  }

  lemma OneOfAccepts(m: Meaning, f: Schema, v: Json)
    requires Lawful(m) && f.ref.None? && f.oneOf.Branches?
    ensures Accepts(m, f.(oneOf := Branches(f.oneOf.list + [NullTypeSchema])), v) <==>
            Accepts(m, f.(oneOf := NoBranches), v) &&
            (if v == JNull then !AnyTrue(Verdicts(m, f.oneOf.list, v)) else OneTrue(Verdicts(m, f.oneOf.list, v)))
  {
    VerdictsWithNull(m, f.oneOf.list, v);
    OneMoreVerdict(Verdicts(m, f.oneOf.list, v), v == JNull);
  }

  // ----- when the rewrite is exact -----

  /** `g` accepts what `f` accepts, and null, and nothing else. */
  ghost predicate AcceptsAlsoNull(m: Meaning, f: Schema, g: Schema) {
    forall v :: Accepts(m, g, v) <==> Accepts(m, f, v) || v == JNull
  }

  ghost predicate TypeIsAllThatBarsNull(m: Meaning, f: Schema) {
    if f.ref.Some? then m.refs(f.ref.value, JNull) else Accepts(m, f.(typ := NoType), JNull)
  }

  /** The keywords beside the reference let through what it stands for, and null. */
  ghost predicate SiblingsBarNothing(m: Meaning, f: Schema)
    requires f.ref.Some?
  {
    forall v :: m.refs(f.ref.value, v) || v == JNull ==> Accepts(m, Siblings(f), v)
  }

  /** If one member accepts the value, all do, and so does the `anyOf` that is overwritten; without members there is
      nothing to accept it, so nothing may have. */
  ghost predicate MembersAgreeOn(m: Meaning, f: Schema, v: Json)
    requires f.allOf.Branches?
  {
    var members := Verdicts(m, f.allOf.list, v);
    var overwritten := f.anyOf.Branches? ==> AnyTrue(Verdicts(m, f.anyOf.list, v));
    if members == [] then !overwritten else AnyTrue(members) ==> AllTrue(members) && overwritten
  }

  /** The rest of the schema lets null through, and the members agree on all other values it lets through. */
  ghost predicate MembersAgree(m: Meaning, f: Schema)
    requires f.allOf.Branches?
  {
    && Accepts(m, WithoutAllOf(f), JNull)
    && forall v :: v != JNull && Accepts(m, WithoutAllOf(f), v) ==> MembersAgreeOn(m, f, v)
  }

  /** The condition, branch by branch in the order of the rewrite. */
  ghost predicate ExactWhen(m: Meaning, f: Schema, openapi: bool) {
    if Typed(f.typ) then openapi || TypeIsAllThatBarsNull(m, f)
    else if f.ref.Some? then SiblingsBarNothing(m, f)
    else if f.allOf.Branches? then MembersAgree(m, f)
    else if f.anyOf.Branches? && f.anyOf.list != [] then
      if NullListed(f.anyOf.list) then Accepts(m, f, JNull) else Accepts(m, f.(anyOf := NoBranches), JNull)
    else if f.oneOf.Branches? then
      if NullListed(f.oneOf.list) then Accepts(m, f, JNull)
      else Accepts(m, f.(oneOf := NoBranches), JNull) && !AnyTrue(Verdicts(m, f.oneOf.list, JNull))
    else Accepts(m, f, JNull)
  }

  lemma UnchangedExactIff(m: Meaning, f: Schema)
    ensures AcceptsAlsoNull(m, f, f) <==> Accepts(m, f, JNull)
  {
  }

  lemma TypedExactIff(m: Meaning, f: Schema, openapi: bool)
    requires Lawful(m) && Typed(f.typ)
    ensures AcceptsAlsoNull(m, f, Nullable(f, openapi).schema) <==> openapi || TypeIsAllThatBarsNull(m, f)
  {
    var g := Nullable(f, openapi).schema;
    if openapi {
      forall v ensures Accepts(m, g, v) <==> Accepts(m, f, v) || v == JNull {
        WrappedAccepts(m, f, v);
      }
    } else if f.ref.Some? {
      assert Accepts(m, g, JNull) <==> m.refs(f.ref.value, JNull);
    } else {
      forall v ensures Accepts(m, g, v) <==>
        Accepts(m, f, v) || (v == JNull && Accepts(m, f.(typ := NoType), JNull))
      {
        TypeListAccepts(m, f, v);
      }
      assert Accepts(m, f, JNull) ==> Accepts(m, f.(typ := NoType), JNull);
    }
  }

  lemma ReferenceExactIff(m: Meaning, f: Schema)
    requires Lawful(m) && !Typed(f.typ) && f.ref.Some?
    ensures AcceptsAlsoNull(m, f, Nullable(f, false).schema) <==> SiblingsBarNothing(m, f)
  {
    forall v ensures Accepts(m, Nullable(f, false).schema, v) <==>
      Accepts(m, Siblings(f), v) && (Accepts(m, f, v) || v == JNull)
    {
      MovedReferenceAccepts(m, f, v);
    }
  }

  /** Where the members agree, one of them is as good as all of them. */
  lemma AgreeingMembers(m: Meaning, f: Schema, v: Json)
    requires f.allOf.Branches?
    ensures var members := Verdicts(m, f.allOf.list, v);
      MembersAgreeOn(m, f, v) <==>
      (AnyTrue(members) <==> AllTrue(members) && (f.anyOf.Branches? ==> AnyTrue(Verdicts(m, f.anyOf.list, v))))
  {
    var members := Verdicts(m, f.allOf.list, v);
    if members != [] {
      assert AllTrue(members) ==> members[0];
    }
  }

  lemma AllOfExactIff(m: Meaning, f: Schema)
    requires Lawful(m) && !Typed(f.typ) && f.ref.None? && f.allOf.Branches?
    ensures AcceptsAlsoNull(m, f, Nullable(f, false).schema) <==> MembersAgree(m, f)
  {
    var g := Nullable(f, false).schema;
    forall v ensures Accepts(m, g, v) <==>
      Accepts(m, WithoutAllOf(f), v) && (AnyTrue(Verdicts(m, f.allOf.list, v)) || v == JNull)
    {
      AllOfBecomesAnyOf(m, f, v);
    }
    forall v ensures Accepts(m, f, v) <==>
      Accepts(m, WithoutAllOf(f), v) && AllTrue(Verdicts(m, f.allOf.list, v)) &&
      (f.anyOf.Branches? ==> AnyTrue(Verdicts(m, f.anyOf.list, v)))
    {
    }
    forall v ensures MembersAgreeOn(m, f, v) <==>
      (AnyTrue(Verdicts(m, f.allOf.list, v)) <==>
       AllTrue(Verdicts(m, f.allOf.list, v)) && (f.anyOf.Branches? ==> AnyTrue(Verdicts(m, f.anyOf.list, v))))
    {
      AgreeingMembers(m, f, v);
    }
  }

  /** For a single member, with no anyOf to overwrite, all that matters is whether the rest lets null through. */
  lemma SingleMemberExactIff(m: Meaning, f: Schema)
    requires Lawful(m) && !Typed(f.typ) && f.ref.None?
    requires f.allOf.Branches? && |f.allOf.list| == 1 && f.anyOf.NoBranches?
    ensures AcceptsAlsoNull(m, f, Nullable(f, false).schema) <==> Accepts(m, WithoutAllOf(f), JNull)
  {
    AllOfExactIff(m, f);
    forall v ensures AnyTrue(Verdicts(m, f.allOf.list, v)) <==> AllTrue(Verdicts(m, f.allOf.list, v)) {
      var verdicts := Verdicts(m, f.allOf.list, v);
      assert AnyTrue(verdicts) <==> verdicts[0];
    }
  }

  lemma AnyOfExactIff(m: Meaning, f: Schema)
    requires Lawful(m) && !Typed(f.typ) && f.ref.None? && f.allOf.NoBranches?
    requires f.anyOf.Branches? && f.anyOf.list != [] && !NullListed(f.anyOf.list)
    ensures AcceptsAlsoNull(m, f, Nullable(f, false).schema) <==> Accepts(m, f.(anyOf := NoBranches), JNull)
  {
    forall v ensures Accepts(m, Nullable(f, false).schema, v) <==>
      Accepts(m, f.(anyOf := NoBranches), v) && (AnyTrue(Verdicts(m, f.anyOf.list, v)) || v == JNull)
    {
      AnyOfAccepts(m, f, v);
    }
  }

  lemma OneOfExactIff(m: Meaning, f: Schema)
    requires Lawful(m) && !Typed(f.typ) && f.ref.None? && f.allOf.NoBranches?
    requires f.oneOf.Branches? && !NullListed(f.oneOf.list)
    ensures AcceptsAlsoNull(m, f, f.(oneOf := Branches(f.oneOf.list + [NullTypeSchema]))) <==>
            Accepts(m, f.(oneOf := NoBranches), JNull) && !AnyTrue(Verdicts(m, f.oneOf.list, JNull))
  {
    var g := f.(oneOf := Branches(f.oneOf.list + [NullTypeSchema]));
    forall v ensures Accepts(m, g, v) <==>
      (Accepts(m, f.(oneOf := NoBranches), v) &&
       if v == JNull then !AnyTrue(Verdicts(m, f.oneOf.list, v)) else OneTrue(Verdicts(m, f.oneOf.list, v)))
    {
      OneOfAccepts(m, f, v);
    }
  }

  // ----- exact whatever the references stand for -----

  /** The same meaning, with `name` standing for `target`. */
  function Standing(m: Meaning, name: string, target: Json -> bool): Meaning {
    m.(refs := (n, v) => if n == name then target(v) else m.refs(n, v))
  }

  predicate Mentions(s: Schema, name: string)
    decreases s, 1
  {
    s.ref == Some(name) ||
    (s.allOf.Branches? && AnyMentions(s.allOf.list, name)) ||
    (s.anyOf.Branches? && AnyMentions(s.anyOf.list, name)) ||
    (s.oneOf.Branches? && AnyMentions(s.oneOf.list, name))
  }

  predicate AnyMentions(schemas: seq<Schema>, name: string)
    decreases schemas, 0
  {
    exists i :: 0 <= i < |schemas| && Mentions(schemas[i], name)
  }

  lemma {:induction false} UnmentionedDoesNotMatter(m: Meaning, name: string, target: Json -> bool, s: Schema, v: Json)
    requires !Mentions(s, name)
    ensures Accepts(Standing(m, name, target), s, v) == Accepts(m, s, v)
    decreases s, 1
  {
    if s.ref.None? {
      if s.allOf.Branches? { UnmentionedInAny(m, name, target, s.allOf.list, v); }
      if s.anyOf.Branches? { UnmentionedInAny(m, name, target, s.anyOf.list, v); }
      if s.oneOf.Branches? { UnmentionedInAny(m, name, target, s.oneOf.list, v); }
    }
  }

  lemma {:induction false} UnmentionedInAny(m: Meaning, name: string, target: Json -> bool, schemas: seq<Schema>,
                                            v: Json)
    requires !AnyMentions(schemas, name)
    ensures Verdicts(Standing(m, name, target), schemas, v) == Verdicts(m, schemas, v)
    decreases schemas, 0
  {
    forall i | 0 <= i < |schemas|
      ensures Accepts(Standing(m, name, target), schemas[i], v) == Accepts(m, schemas[i], v)
    {
      UnmentionedDoesNotMatter(m, name, target, schemas[i], v);
    }
  }

  /** Moving a reference is exact whatever it stands for if and only if its siblings accept every value. */
  lemma ReferenceExactForAnyTargetIff(m: Meaning, f: Schema)
    requires Lawful(m) && !Typed(f.typ) && f.ref.Some? && !Mentions(Siblings(f), f.ref.value)
    ensures (forall target: Json -> bool ::
               AcceptsAlsoNull(Standing(m, f.ref.value, target), f, Nullable(f, false).schema)) <==>
            forall v :: Accepts(m, Siblings(f), v)
  {
    var name, g := f.ref.value, Nullable(f, false).schema;
    if v :| !Accepts(m, Siblings(f), v) {
      var anything: Json -> bool := v => true;
      var m' := Standing(m, name, anything);
      UnmentionedDoesNotMatter(m, name, anything, Siblings(f), v);
      ReferenceExactIff(m', f);
      assert m'.refs(name, v) && !Accepts(m', Siblings(f), v);
      assert !AcceptsAlsoNull(Standing(m, name, anything), f, g);
    } else {
      forall target: Json -> bool ensures AcceptsAlsoNull(Standing(m, name, target), f, g) {
        forall v ensures Accepts(Standing(m, name, target), Siblings(f), v) {
          UnmentionedDoesNotMatter(m, name, target, Siblings(f), v);
        }
        ReferenceExactIff(Standing(m, name, target), f);
      }
    }
  }

  /** Where the siblings mention the reference themselves this fails: here they bar whatever the reference bars but
      null, and the rewrite is exact under every meaning all the same. */
  lemma SelfMentionIsExact(m: Meaning)
    requires Lawful(m)
    ensures var either := Anything.(anyOf := Branches([Anything.(ref := Some("A")), NullTypeSchema]));
      var f := Anything.(ref := Some("A"), allOf := Branches([either]));
      && AcceptsAlsoNull(m, f, Nullable(f, false).schema)
      && forall v :: Accepts(m, Siblings(f), v) <==> m.refs("A", v) || v == JNull
  {
    var a := Anything.(ref := Some("A"));
    var either := Anything.(anyOf := Branches([a, NullTypeSchema]));
    var f := Anything.(ref := Some("A"), allOf := Branches([either]));
    forall v ensures Accepts(m, Siblings(f), v) <==> m.refs("A", v) || v == JNull {
      WrappedAccepts(m, a, v);
      assert AllTrue(Verdicts(m, [either], v)) <==> Verdicts(m, [either], v)[0];
    }
    ReferenceExactIff(m, f);
  }

  /** Every keyword accepts everything, except that `barred` accepts only null. */
  function OneBars(barred: string): Meaning {
    Meaning((name, v) => true, (name, argument, v) => name != barred || v == JNull)
  }

  /** A reference beside no other constraint than keywords outside this model can be moved, whatever all of them
      mean, if and only if those keywords are annotations. */
  lemma LoneReferenceExactIff(f: Schema)
    requires f.ref.Some? && f.typ.NoType? && f.allOf.NoBranches? && f.oneOf.NoBranches?
    requires f.enumeration.None? && f.constant.None?
    ensures (forall m :: Lawful(m) ==> AcceptsAlsoNull(m, f, Nullable(f, false).schema)) <==> AnnotationsOnly(f)
  {
    if AnnotationsOnly(f) {
      forall m | Lawful(m) ensures AcceptsAlsoNull(m, f, Nullable(f, false).schema) {
        ReferenceExactIff(m, f);
      }
    } else {
      var barred :| barred in f.others && barred !in ANNOTATIONS;
      var m := OneBars(barred);
      ReferenceExactIff(m, f);
      assert !m.keyword(barred, f.others[barred], JBool(true));
      assert m.refs(f.ref.value, JBool(true)) && !Accepts(m, Siblings(f), JBool(true));
    }
  }

  /** A reference stands for everything exactly if it has this name; keywords accept everything. */
  function OnlyNamed(name: string): Meaning {
    Meaning((n, v) => n == name, (n, argument, v) => true)
  }

  /** When the members of `allOf` are references, as pydantic writes them, turning them into alternatives is exact
      whatever they stand for if and only if there is one and all are the same. */
  lemma AllOfReferencesExactIff(f: Schema)
    requires f.typ.NoType? && f.ref.None? && f.anyOf.NoBranches? && f.oneOf.NoBranches?
    requires f.enumeration.None? && f.constant.None?
    requires f.allOf.Branches? && forall i :: 0 <= i < |f.allOf.list| ==> f.allOf.list[i].ref.Some?
    ensures (forall m :: Lawful(m) ==> AcceptsAlsoNull(m, f, Nullable(f, false).schema)) <==>
            f.allOf.list != [] && forall i :: 0 <= i < |f.allOf.list| ==> f.allOf.list[i].ref == f.allOf.list[0].ref
  {
    var list := f.allOf.list;
    if list != [] && forall i :: 0 <= i < |list| ==> list[i].ref == list[0].ref {
      forall m | Lawful(m) ensures AcceptsAlsoNull(m, f, Nullable(f, false).schema) {
        AllOfExactIff(m, f);
        forall v ensures MembersAgreeOn(m, f, v) {
          assert forall i :: 0 <= i < |list| ==> Verdicts(m, list, v)[i] == m.refs(list[i].ref.value, v);
        }
      }
    } else {
      var m := OnlyNamed(if list == [] then "" else list[0].ref.value);
      AllOfExactIff(m, f);
      var v := JBool(true);
      assert Accepts(m, WithoutAllOf(f), v);
      if list != [] {
        var i :| 0 <= i < |list| && list[i].ref != list[0].ref;
        assert Verdicts(m, list, v)[0] && !Verdicts(m, list, v)[i];
      }
      assert !MembersAgreeOn(m, f, v);
    }
  }

  /** The patched schema accepts exactly the values of the original and null if and only if the condition of the
      branch that was taken holds. */
  lemma RewriteExactIff(m: Meaning, f: Schema, openapi: bool)
    requires Lawful(m) && Nullable(f, openapi).Patched?
    ensures AcceptsAlsoNull(m, f, Nullable(f, openapi).schema) <==> ExactWhen(m, f, openapi)
  {
    if Typed(f.typ) {
      TypedExactIff(m, f, openapi);
    } else if f.ref.Some? {
      ReferenceExactIff(m, f);
    } else if f.allOf.Branches? {
      AllOfExactIff(m, f);
    } else if f.anyOf.Branches? && f.anyOf.list != [] {
      if NullListed(f.anyOf.list) { UnchangedExactIff(m, f); } else { AnyOfExactIff(m, f); }
    } else if f.oneOf.Branches? {
      if NullListed(f.oneOf.list) { UnchangedExactIff(m, f); } else { OneOfExactIff(m, f); }
    } else {
      UnchangedExactIff(m, f);
    }
  }

  // ----- schemas as pydantic makes them -----

  /** Every branch of type null accepts null. */
  ghost predicate NullBranchesAcceptNull(m: Meaning, schemas: seq<Schema>) {
    forall i :: 0 <= i < |schemas| && schemas[i].typ == Single("null") ==> Accepts(m, schemas[i], JNull)
  }

  predicate AnnotationsOnly(f: Schema) {
    forall name :: name in f.others ==> name in ANNOTATIONS
  }

  /** No enum or const, and one of: a type alone, a reference with annotations at most, a single allOf member, an
      anyOf, a oneOf whose only branch accepting null, if any, is the one of type null, or no constraint. */
  ghost predicate PydanticShape(m: Meaning, f: Schema) {
    && f.enumeration.None? && f.constant.None?
    && (f.ref.Some? ==> f.typ.NoType? && AnnotationsOnly(f))
    && (!f.typ.NoType? ==> f.allOf.NoBranches? && f.anyOf.NoBranches? && f.oneOf.NoBranches?)
    && (f.ref.Some? ==> f.allOf.NoBranches? && f.anyOf.NoBranches? && f.oneOf.NoBranches?)
    && (f.allOf.Branches? ==> |f.allOf.list| == 1 && f.anyOf.NoBranches? && f.oneOf.NoBranches?)
    && (f.anyOf.Branches? ==> f.oneOf.NoBranches? && NullBranchesAcceptNull(m, f.anyOf.list))
    && (f.oneOf.Branches? ==>
          if NullListed(f.oneOf.list) then OneTrue(Verdicts(m, f.oneOf.list, JNull))
          else !AnyTrue(Verdicts(m, f.oneOf.list, JNull)))
    && (f.typ.NoType? || Typed(f.typ))
  }

  /** On such schemas the rewrite is exact in both encodings. */
  lemma PydanticShapeIsExact(m: Meaning, f: Schema, openapi: bool)
    requires Lawful(m) && PydanticShape(m, f) && Nullable(f, openapi).Patched?
    ensures AcceptsAlsoNull(m, f, Nullable(f, openapi).schema)
  {
    RewriteExactIff(m, f, openapi);
    if f.typ.NoType? && f.allOf.Branches? {
      forall v ensures AnyTrue(Verdicts(m, f.allOf.list, v)) <==> AllTrue(Verdicts(m, f.allOf.list, v)) {
        var verdicts := Verdicts(m, f.allOf.list, v);
        assert AnyTrue(verdicts) <==> verdicts[0];
      }
    }
    if f.typ.NoType? && f.anyOf.Branches? && f.anyOf.list != [] && NullListed(f.anyOf.list) {
      var i :| 0 <= i < |f.anyOf.list| && f.anyOf.list[i].typ == Single("null");
      assert Verdicts(m, f.anyOf.list, JNull)[i];
    }
  }

  /** An optional field with a type and nothing beside it but keywords outside this model accepts, once patched, its
      old values and null, whatever the type and in either encoding. */
  method PatchOptionalType(typ: TypeKeyword, others: map<string, Json>, refPrefix: Option<string>)
    returns (schema: SchemaObject)
    requires (typ.Single? && typ.name != "") || (typ.Several? && typ.names != [])
    ensures forall m, v :: Lawful(m) ==>
      (Accepts(m, schema.Value(), v) <==> Accepts(m, Anything.(typ := typ, others := others), v) || v == JNull)
  {
    ghost var f := Anything.(typ := typ, others := others);
    var made := new SchemaObject(Anything.(typ := typ, others := others));
    var failed, defs, nested;
    failed, schema, defs, nested := FieldTypeSchema(made, true, refPrefix, (), ());
    forall m, v | Lawful(m)
      ensures Accepts(m, schema.Value(), v) <==> Accepts(m, f, v) || v == JNull
    {
      TypedExactIff(m, f, refPrefix == Some(OPENAPI_PREFIX));
      assert Accepts(m, f.(typ := NoType), JNull);
    }
  }

  /** The rewrite fails with a type error exactly for an empty anyOf with no other form to rewrite. */
  lemma FailsIff(f: Schema, openapi: bool)
    ensures Nullable(f, openapi).TypeError? <==>
      && !Typed(f.typ) && f.ref.None? && f.allOf.NoBranches? && f.oneOf.NoBranches?
      && f.anyOf == Branches([])
  {
  }

  /** The two encodings of a typed field accept the same values exactly when the type is all that bars null. */
  lemma FormsAgreeIff(m: Meaning, f: Schema)
    requires Lawful(m) && Typed(f.typ)
    ensures SameValues(m, Nullable(f, true).schema, Nullable(f, false).schema) <==> TypeIsAllThatBarsNull(m, f)
  {
    TypedExactIff(m, f, true);
    TypedExactIff(m, f, false);
    var a, b := Nullable(f, true).schema, Nullable(f, false).schema;
    assert SameValues(m, a, b) <==> AcceptsAlsoNull(m, f, b) by {
      forall v ensures Accepts(m, a, v) <==> Accepts(m, f, v) || v == JNull {
      }
    }
  }

  ghost predicate SameValues(m: Meaning, a: Schema, b: Schema) {
    forall v :: Accepts(m, a, v) <==> Accepts(m, b, v)
  }

  // ----- where it is not exact -----

  /** A string field restricted to an enum: the type list admits null but the enum still does not. */
  lemma EnumStillBarsNull(m: Meaning)
    requires Lawful(m)
    ensures var f := Anything.(typ := Single("string"), enumeration := Some([JStr("a")]));
      !AcceptsAlsoNull(m, f, Nullable(f, false).schema)
  {
    var f := Anything.(typ := Single("string"), enumeration := Some([JStr("a")]));
    RewriteExactIff(m, f, false);
  }

  /** An enum beside a reference, which the reference hid, comes to light when the reference moves away: the patched
      schema rejects a value the original accepts. */
  lemma HiddenEnumComesToLight(m: Meaning)
    requires Lawful(m) && m.refs("A", JStr("b"))
    ensures var f := Anything.(ref := Some("A"), enumeration := Some([JStr("a")]));
      && Accepts(m, f, JStr("b")) && !Accepts(m, Nullable(f, false).schema, JStr("b"))
      && !AcceptsAlsoNull(m, f, Nullable(f, false).schema)
  {
    var f := Anything.(ref := Some("A"), enumeration := Some([JStr("a")]));
    MovedReferenceAccepts(m, f, JStr("b"));
  }

  /** Two allOf members become alternatives: the patched schema accepts a string that is no integer. */
  lemma TwoMembersBecomeAlternatives(m: Meaning)
    requires Lawful(m)
    ensures var a, b := Anything.(typ := Single("string")), Anything.(typ := Single("integer"));
      var f := Anything.(allOf := Branches([a, b]));
      && !Accepts(m, f, JStr("a")) && Accepts(m, Nullable(f, false).schema, JStr("a"))
      && !AcceptsAlsoNull(m, f, Nullable(f, false).schema)
  {
    var a, b := Anything.(typ := Single("string")), Anything.(typ := Single("integer"));
    var f := Anything.(allOf := Branches([a, b]));
    assert Accepts(m, a, JStr("a")) && !Accepts(m, b, JStr("a"));
    assert Verdicts(m, [a, b], JStr("a")) == [true, false];
    assert [true, false][0] && ![true, false][1];
    AllOfBecomesAnyOf(m, f, JStr("a"));
  }
}
