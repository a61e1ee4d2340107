/** The evaluator against JSON Schema 2020-12, keyword by keyword: what a schema with one keyword accepts, and
    that keywords side by side are a conjunction. */
module SchemaKeywords {
  import opened Sanitizer
  import opened SchemaMeaning

  // A schema object with one keyword.
  predicate Just(s: Json, k: Word, value: Json) {
    s.Obj? && s.members.Keys == {k} && s.members[k] == value
  }

  lemma JustHolds(v: Meaning, root: Json, s: Json, k: Word, value: Json, x: Json, fuel: nat)
    requires Just(s, k, value)
    ensures Valid(v, root, s, x, fuel) == Holds(v, root, s, k, x, fuel)
  {
  }

  // ---------- assertions (Validation, sections 6.1 and 6.5.3) ----------

  lemma TypeMeans(v: Meaning, root: Json, s: Json, x: Json, fuel: nat, t: Word)
    requires Just(s, Type, Str(t))
    ensures Valid(v, root, s, x, fuel) <==> v.hasType(t, x)
  {
    JustHolds(v, root, s, Type, Str(t), x, fuel);
  }

  lemma ConstMeans(v: Meaning, root: Json, s: Json, x: Json, fuel: nat, value: Json)
    requires Just(s, Const, value)
    ensures Valid(v, root, s, x, fuel) <==> x == value
  {
    JustHolds(v, root, s, Const, value, x, fuel);
  }

  lemma EnumMeans(v: Meaning, root: Json, s: Json, x: Json, fuel: nat, values: seq<Json>)
    requires Just(s, Enum, Arr(values))
    ensures Valid(v, root, s, x, fuel) <==> x in values
  {
    JustHolds(v, root, s, Enum, Arr(values), x, fuel);
  }

  lemma RequiredMeans(v: Meaning, root: Json, s: Json, x: Json, fuel: nat, names: seq<Json>)
    requires Just(s, Required, Arr(names)) && x.Obj?
    ensures Valid(v, root, s, x, fuel) <==> forall name :: Str(name) in names ==> name in x.members
  {
    JustHolds(v, root, s, Required, Arr(names), x, fuel);
    assert forall i :: 0 <= i < |names| && names[i].Str? ==> Str(names[i].word) in names;
  }

  // ---------- applicators (Core, sections 10.2 and 10.3) ----------

  lemma AllOfMeans(v: Meaning, root: Json, s: Json, x: Json, fuel: nat, branches: seq<Json>)
    requires Just(s, AllOf, Arr(branches))
    ensures Valid(v, root, s, x, fuel) <==>
            forall i :: 0 <= i < |branches| ==> Valid(v, root, branches[i], x, fuel)
  {
    JustHolds(v, root, s, AllOf, Arr(branches), x, fuel);
  }

  lemma AnyOfMeans(v: Meaning, root: Json, s: Json, x: Json, fuel: nat, branches: seq<Json>)
    requires Just(s, AnyOf, Arr(branches))
    ensures Valid(v, root, s, x, fuel) <==>
            exists i :: 0 <= i < |branches| && Valid(v, root, branches[i], x, fuel)
  {
    JustHolds(v, root, s, AnyOf, Arr(branches), x, fuel);
  }

  // The branches that accept are exactly one.
  ghost predicate Sole(v: Meaning, root: Json, branches: seq<Json>, x: Json, fuel: nat, i: nat) {
    i < |branches| && forall j :: 0 <= j < |branches| ==> (Valid(v, root, branches[j], x, fuel) <==> j == i)
  }

  lemma HoldsSole(v: Meaning, root: Json, s: Json, x: Json, fuel: nat, branches: seq<Json>)
    requires Just(s, OneOf, Arr(branches)) && Holds(v, root, s, OneOf, x, fuel)
    ensures exists i: nat :: Sole(v, root, branches, x, fuel, i)
  {
    var i :| 0 <= i < |branches| && Valid(v, root, branches[i], x, fuel)
             && forall j :: 0 <= j < |branches| && j != i ==> !Valid(v, root, branches[j], x, fuel);
    assert Sole(v, root, branches, x, fuel, i);
  }

  lemma SoleHolds(v: Meaning, root: Json, s: Json, x: Json, fuel: nat, branches: seq<Json>, i: nat)
    requires Just(s, OneOf, Arr(branches)) && Sole(v, root, branches, x, fuel, i)
    ensures Holds(v, root, s, OneOf, x, fuel)
  {
    assert Valid(v, root, branches[i], x, fuel);
  }

  lemma OneOfMeans(v: Meaning, root: Json, s: Json, x: Json, fuel: nat, branches: seq<Json>)
    requires Just(s, OneOf, Arr(branches))
    ensures Valid(v, root, s, x, fuel) <==> exists i: nat :: Sole(v, root, branches, x, fuel, i)
  {
    JustHolds(v, root, s, OneOf, Arr(branches), x, fuel);
    if Valid(v, root, s, x, fuel) {
      HoldsSole(v, root, s, x, fuel, branches);
    } else if i: nat :| Sole(v, root, branches, x, fuel, i) {
      SoleHolds(v, root, s, x, fuel, branches, i);
    }
  }

  lemma NotMeans(v: Meaning, root: Json, s: Json, x: Json, fuel: nat, a: Json)
    requires Just(s, Not, a)
    ensures Valid(v, root, s, x, fuel) <==> !Valid(v, root, a, x, fuel)
  {
    JustHolds(v, root, s, Not, a, x, fuel);
  }

  lemma ItemsMeans(v: Meaning, root: Json, s: Json, x: Json, fuel: nat, a: Json)
    requires Just(s, Items, a) && x.Arr?
    ensures Valid(v, root, s, x, fuel) <==>
            forall i :: 0 <= i < |x.items| ==> Valid(v, root, a, x.items[i], fuel)
  {
    JustHolds(v, root, s, Items, a, x, fuel);
  }

  lemma PropertiesMeans(v: Meaning, root: Json, s: Json, x: Json, fuel: nat, schemas: map<Word, Json>)
    requires Just(s, Properties, Obj(schemas)) && x.Obj?
    ensures Valid(v, root, s, x, fuel) <==>
            forall n :: n in schemas && n in x.members ==> Valid(v, root, schemas[n], x.members[n], fuel)
  {
    JustHolds(v, root, s, Properties, Obj(schemas), x, fuel);
  }

  lemma PatternsMean(v: Meaning, root: Json, s: Json, x: Json, fuel: nat, schemas: map<Word, Json>)
    requires Just(s, PatternProperties, Obj(schemas)) && x.Obj?
    ensures Valid(v, root, s, x, fuel) <==>
            forall p, n :: p in schemas && n in x.members && v.matches(p, n) ==>
              Valid(v, root, schemas[p], x.members[n], fuel)
  {
    JustHolds(v, root, s, PatternProperties, Obj(schemas), x, fuel);
  }

  lemma DependentMeans(v: Meaning, root: Json, s: Json, x: Json, fuel: nat, schemas: map<Word, Json>)
    requires Just(s, DependentSchemas, Obj(schemas)) && x.Obj?
    ensures Valid(v, root, s, x, fuel) <==>
            forall n :: n in schemas && n in x.members ==> Valid(v, root, schemas[n], x, fuel)
  {
    JustHolds(v, root, s, DependentSchemas, Obj(schemas), x, fuel);
  }

  /** Beside `properties` and `patternProperties`, additional are the members neither speaks for. */
  lemma AdditionalMeans(v: Meaning, root: Json, s: Json, x: Json, fuel: nat,
                        named: map<Word, Json>, patterns: map<Word, Json>, a: Json)
    requires s == Obj(map[Properties := Obj(named), PatternProperties := Obj(patterns), AdditionalProperties := a])
    requires x.Obj?
    ensures Holds(v, root, s, AdditionalProperties, x, fuel) <==>
            forall n :: n in x.members && n !in named && (forall p :: p in patterns ==> !v.matches(p, n)) ==>
              Valid(v, root, a, x.members[n], fuel)
  {
    forall n ensures Additional(v, s.members, n) <==> n !in named && forall p :: p in patterns ==> !v.matches(p, n) {
      assert s.members[Properties] == Obj(named) && s.members[PatternProperties] == Obj(patterns);
    }
  }

  lemma AdditionalAlone(v: Meaning, root: Json, s: Json, x: Json, fuel: nat, a: Json)
    requires Just(s, AdditionalProperties, a) && x.Obj?
    ensures Valid(v, root, s, x, fuel) <==> forall n :: n in x.members ==> Valid(v, root, a, x.members[n], fuel)
  {
    JustHolds(v, root, s, AdditionalProperties, a, x, fuel);
    assert forall n :: Additional(v, s.members, n);
  }

  // ---------- references (Core, section 8.2), and schemas as a whole (section 4.3) ----------

  lemma RefMeans(v: Meaning, root: Json, s: Json, x: Json, fuel: nat, name: Word, target: Json)
    requires Just(s, Ref, Str(DefsRef(name)))
    requires root.Obj? && Defs in root.members && root.members[Defs].Obj?
    requires name in root.members[Defs].members && root.members[Defs].members[name] == target
    ensures Valid(v, root, s, x, fuel + 1) <==> Valid(v, root, target, x, fuel)
  {
    JustHolds(v, root, s, Ref, Str(DefsRef(name)), x, fuel + 1);
  }

  lemma UnsupportedMeans(v: Meaning, root: Json, s: Json, k: Word, value: Json, x: Json, fuel: nat)
    requires Just(s, k, value) && k in {Format, Pattern, Minimum, Maximum, ExclusiveMinimum, ExclusiveMaximum,
                                        MinLength, MaxLength, MultipleOf, MinItems, MaxItems, UniqueItems}
    ensures Valid(v, root, s, x, fuel) <==> v.holds(k, value, x)
  {
    JustHolds(v, root, s, k, value, x, fuel);
  }

  /** Keywords side by side are a conjunction, but that `additionalProperties` reads its neighbours. */
  lemma Conjunction(v: Meaning, root: Json, s: Json, x: Json, fuel: nat, each: map<Word, Json>)
    requires s.Obj? && AdditionalProperties !in s.members && each.Keys == s.members.Keys
    requires forall k :: k in each ==> Just(each[k], k, s.members[k])
    ensures Valid(v, root, s, x, fuel) <==> forall k :: k in each ==> Valid(v, root, each[k], x, fuel)
    ensures Valid(v, root, Boolean(true), x, fuel) && !Valid(v, root, Boolean(false), x, fuel)
  {
    forall k | k in each ensures Valid(v, root, each[k], x, fuel) == Holds(v, root, s, k, x, fuel) {
      JustHolds(v, root, each[k], k, s.members[k], x, fuel);
      SameKeyword(v, root, each[k], s, k, x, fuel);
    }
  }

  lemma SameKeyword(v: Meaning, root: Json, s: Json, t: Json, k: Word, x: Json, fuel: nat)
    requires s.Obj? && t.Obj? && k in s.members && k in t.members && s.members[k] == t.members[k]
    requires !k.AdditionalProperties?
    ensures Holds(v, root, s, k, x, fuel) == Holds(v, root, t, k, x, fuel)
  {
  }
}
