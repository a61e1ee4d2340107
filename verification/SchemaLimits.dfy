/** Where sanitizing is not safe, and exactly when it is: literals, negation and exclusive choice. */
module SchemaLimits {
  import opened Sanitizer
  import opened SchemaMeaning

  function Only(k: Word, value: Json): Json {
    Obj(map[k := value])
  }

  lemma OnlyAccepts(v: Meaning, k: Word, value: Json, x: Json, fuel: nat)
    ensures Valid(v, Only(k, value), Only(k, value), x, fuel) == Holds(v, Only(k, value), Only(k, value), k, x, fuel)
  {
  }

  // A literal is rewritten as if it were a schema.
  lemma StripOnly(k: Word, value: Json)
    requires !Unsupported(k) && !SchemaMap(k)
    ensures Strip(Only(k, value)) == Only(k, Strip(value))
  {
  }

  // A schema whose verdict does not depend on the depth.
  lemma AcceptsEverywhere(v: Meaning, root: Json, x: Json, verdict: bool)
    requires forall fuel: nat :: Valid(v, root, root, x, fuel) == verdict
    ensures Accepts(v, root, x) == verdict
  {
    if verdict {
      assert ValidFrom(v, root, x, 0);
    } else {
      forall depth: nat ensures !ValidFrom(v, root, x, depth) {
        assert !Valid(v, root, root, x, depth);
      }
    }
  }

  // ---------- literals ----------

  lemma ConstAccepts(v: Meaning, value: Json, x: Json)
    ensures Accepts(v, Only(Const, value), x) <==> x == value
  {
    forall fuel: nat { OnlyAccepts(v, Const, value, x, fuel); }
    AcceptsEverywhere(v, Only(Const, value), x, x == value);
  }

  /** A const is safe to sanitize exactly when its value holds no unsupported key. */
  lemma ConstWeakensIff(v: Meaning, value: Json)
    ensures WeakerOrEqual(v, Only(Const, value), Strip(Only(Const, value))) <==> Clean(value)
  {
    StripOnly(Const, value);
    FixedIffClean(value);
    forall x
      ensures Accepts(v, Only(Const, value), x) <==> x == value
      ensures Accepts(v, Only(Const, Strip(value)), x) <==> x == Strip(value)
    {
      ConstAccepts(v, value, x);
      ConstAccepts(v, Strip(value), x);
    }
    assert Accepts(v, Only(Const, value), value);
  }

  lemma EnumAccepts(v: Meaning, values: seq<Json>, x: Json)
    ensures Accepts(v, Only(Enum, Arr(values)), x) <==> x in values
  {
    forall fuel: nat { OnlyAccepts(v, Enum, Arr(values), x, fuel); }
    AcceptsEverywhere(v, Only(Enum, Arr(values)), x, x in values);
  }

  /** An enum is safe to sanitize exactly when none of its values holds an unsupported key. */
  lemma EnumWeakensIff(v: Meaning, values: seq<Json>)
    ensures WeakerOrEqual(v, Only(Enum, Arr(values)), Strip(Only(Enum, Arr(values)))) <==> Clean(Arr(values))
  {
    var listed := Strip(Arr(values)).items;
    StripOnly(Enum, Arr(values));
    forall x
      ensures Accepts(v, Only(Enum, Arr(values)), x) <==> x in values
      ensures Accepts(v, Only(Enum, Arr(listed)), x) <==> x in listed
    {
      EnumAccepts(v, values, x);
      EnumAccepts(v, listed, x);
    }
    StripCleans(Arr(values));
    if Clean(Arr(values)) {
      CleanUnchanged(Arr(values));
    } else {
      var i :| 0 <= i < |values| && !Clean(values[i]);
      assert values[i] in values && values[i] !in listed;
    }
  }

  /** The smallest failure: an enum of one object whose key is spelled like a keyword. */
  lemma EnumCounterexample(v: Meaning)
    ensures var literal := Obj(map[Format := Null]);
            var schema := Only(Enum, Arr([literal]));
            Accepts(v, schema, literal) && !Accepts(v, Strip(schema), literal)
  {
    var literal := Obj(map[Format := Null]);
    EnumAccepts(v, [literal], literal);
    StripOnly(Enum, Arr([literal]));
    EnumAccepts(v, [Strip(literal)], literal);
    assert Format in literal.members && Format !in Strip(literal).members;
    assert Strip(Arr([literal])).items == [Strip(literal)];
  }

  /** The smallest failure: a const object whose key is spelled like a keyword. */
  lemma ConstCounterexample(v: Meaning)
    ensures var literal := Obj(map[Format := Null]);
            Accepts(v, Only(Const, literal), literal) && !Accepts(v, Strip(Only(Const, literal)), literal)
  {
    var literal := Obj(map[Format := Null]);
    ConstAccepts(v, literal, literal);
    StripOnly(Const, literal);
    ConstAccepts(v, Strip(literal), literal);
    assert Format in literal.members && Format !in Strip(literal).members;
  }

  // ---------- negation ----------

  lemma RefFreeValid(v: Meaning, root: Json, s: Json, x: Json, fuel: nat)
    requires RefFree(s)
    ensures Valid(v, root, s, x, fuel) == Accepts(v, s, x)
  {
    forall f: nat ensures Valid(v, s, s, x, f) == Valid(v, root, s, x, fuel) {
      Local(v, s, root, s, f, fuel, iset{});
    }
    AcceptsEverywhere(v, s, x, Valid(v, root, s, x, fuel));
  }

  lemma NotAccepts(v: Meaning, s: Json, x: Json)
    requires RefFree(s)
    ensures Accepts(v, Only(Not, s), x) <==> !Accepts(v, s, x)
  {
    forall fuel: nat ensures Valid(v, Only(Not, s), Only(Not, s), x, fuel) == !Accepts(v, s, x) {
      OnlyAccepts(v, Not, s, x, fuel);
      RefFreeValid(v, Only(Not, s), s, x, fuel);
    }
    AcceptsEverywhere(v, Only(Not, s), x, !Accepts(v, s, x));
  }

  lemma {:induction false} StripRefFree(node: Json)
    requires RefFree(node)
    ensures RefFree(Strip(node))
  {
    match node
    case Obj(m) =>
      forall k | k in m && !Unsupported(k)
        ensures if SchemaMap(k) && m[k].Obj? then forall n :: n in m[k].members ==> RefFree(Strip(m[k].members[n]))
                else RefFree(Strip(m[k]))
      {
        if SchemaMap(k) && m[k].Obj? {
          forall n | n in m[k].members ensures RefFree(Strip(m[k].members[n])) {
            StripRefFree(m[k].members[n]);
          }
        } else {
          StripRefFree(m[k]);
          StripKind(m[k]);
        }
      }
    case Arr(items) =>
      forall i | 0 <= i < |items| ensures RefFree(Strip(items[i])) {
        StripRefFree(items[i]);
      }
    case _ =>
  }

  // What the negation of a schema, and its sanitized form, accept.
  lemma NegationAccepts(v: Meaning, s: Json, x: Json)
    requires Lit(s) && RefFree(s)
    ensures Accepts(v, Only(Not, s), x) <==> !Accepts(v, s, x)
    ensures Accepts(v, Strip(Only(Not, s)), x) <==> !Accepts(Ignoring(v), s, x)
  {
    StripOnly(Not, s);
    StripRefFree(s);
    NotAccepts(v, s, x);
    NotAccepts(v, Strip(s), x);
    SanitizingKeeps(v, s, x);
  }

  /** Sanitizing under `not` is safe exactly when what the negated schema accepts without the dropped
      keywords it accepts with them, at whatever depth they stand; so always when nothing is dropped. */
  lemma NotSafeIff(v: Meaning, s: Json)
    requires Lit(s) && RefFree(s)
    ensures WeakerOrEqual(v, Only(Not, s), Strip(Only(Not, s))) <==>
            forall x :: Accepts(Ignoring(v), s, x) ==> Accepts(v, s, x)
    ensures Clean(s) ==> WeakerOrEqual(v, Only(Not, s), Strip(Only(Not, s)))
  {
    forall x
      ensures Accepts(v, Only(Not, s), x) <==> !Accepts(v, s, x)
      ensures Accepts(v, Strip(Only(Not, s)), x) <==> !Accepts(Ignoring(v), s, x)
    {
      NegationAccepts(v, s, x);
    }
    if Clean(s) {
      StripOnly(Not, s);
      CleanUnchanged(s);
    }
  }

  /** And it never accepts more, where the negated schema is itself weakened. */
  lemma NotNeverWidens(v: Meaning, s: Json)
    requires Lit(s) && RefFree(s) && Guarded(s, iset{})
    ensures WeakerOrEqual(v, Strip(Only(Not, s)), Only(Not, s))
  {
    forall x ensures Accepts(v, Strip(Only(Not, s)), x) ==> Accepts(v, Only(Not, s), x) {
      NegationAccepts(v, s, x);
      SanitizingKeeps(v, s, x);
      if Accepts(v, s, x) {
        SanitizingWeakens(v, s, x, iset{});
      }
    }
  }

  // ---------- keywords dropped at the top of a schema ----------

  // Whatever is dropped, is dropped at the top: the kept members are unchanged.
  predicate Flat(s: Json) {
    s.Obj? ==> forall k :: k in s.members && !Unsupported(k) ==>
      if SchemaMap(k) && s.members[k].Obj? then forall n :: n in s.members[k].members ==> Clean(s.members[k].members[n])
      else Clean(s.members[k])
  }

  ghost predicate DroppedHold(v: Meaning, s: Json, x: Json) {
    s.Obj? ==> forall k :: k in s.members && Unsupported(k) ==> v.holds(k, s.members[k], x)
  }

  lemma FlatStrip(s: Json)
    requires s.Obj? && Flat(s)
    ensures Strip(s).members == map k | k in s.members && !Unsupported(k) :: s.members[k]
  {
    forall k | k in s.members && !Unsupported(k) ensures StripMember(s, k) == s.members[k] {
      if SchemaMap(k) && s.members[k].Obj? {
        forall n | n in s.members[k].members ensures Strip(s.members[k].members[n]) == s.members[k].members[n] {
          CleanUnchanged(s.members[k].members[n]);
        }
        assert StripMember(s, k).members == s.members[k].members;
      } else {
        CleanUnchanged(s.members[k]);
      }
    }
  }

  // A keyword reads its own value and, if it is additionalProperties, the names beside it.
  lemma SameValueHolds(v: Meaning, root: Json, s: Json, t: Json, k: Word, x: Json, fuel: nat)
    requires s.Obj? && t.Obj? && k in s.members && k in t.members && s.members[k] == t.members[k]
    requires k.AdditionalProperties? ==> forall n :: Additional(v, s.members, n) == Additional(v, t.members, n)
    ensures Holds(v, root, s, k, x, fuel) == Holds(v, root, t, k, x, fuel)
  {
  }

  lemma KeptHolds(v: Meaning, root: Json, s: Json, k: Word, x: Json, fuel: nat)
    requires s.Obj? && Flat(s) && k in s.members && !Unsupported(k)
    ensures k in Strip(s).members && Holds(v, root, s, k, x, fuel) == Holds(v, root, Strip(s), k, x, fuel)
  {
    FlatStrip(s);
    assert forall n :: Additional(v, s.members, n) == Additional(v, Strip(s).members, n);
    SameValueHolds(v, root, s, Strip(s), k, x, fuel);
  }

  lemma FlatValid(v: Meaning, s: Json, x: Json, fuel: nat)
    requires Flat(s) && RefFree(s)
    ensures Valid(v, s, s, x, fuel) <==> Valid(v, Strip(s), Strip(s), x, fuel) && DroppedHold(v, s, x)
  {
    if s.Obj? {
      FlatStrip(s);
      StripRefFree(s);
      Local(v, s, Strip(s), Strip(s), fuel, fuel, iset{});
      forall k | k in s.members && !Unsupported(k)
        ensures k in Strip(s).members && Holds(v, s, s, k, x, fuel) == Holds(v, s, Strip(s), k, x, fuel)
      {
        KeptHolds(v, s, s, k, x, fuel);
      }
    }
  }

  /** Such a schema is its sanitized form and the dropped keywords together. */
  lemma FlatAccepts(v: Meaning, s: Json, x: Json)
    requires Flat(s) && RefFree(s)
    ensures Accepts(v, s, x) <==> Accepts(v, Strip(s), x) && DroppedHold(v, s, x)
  {
    StripRefFree(s);
    RefFreeValid(v, s, s, x, 0);
    RefFreeValid(v, Strip(s), Strip(s), x, 0);
    FlatValid(v, s, x, 0);
  }

  /** With the dropped keywords at the top: exactly when they allow all that the kept ones allow. */
  lemma NotFlatIff(v: Meaning, s: Json)
    requires Flat(s) && RefFree(s)
    ensures WeakerOrEqual(v, Only(Not, s), Strip(Only(Not, s))) <==>
            forall x :: Accepts(v, Strip(s), x) ==> DroppedHold(v, s, x)
  {
    StripOnly(Not, s);
    StripRefFree(s);
    forall x
      ensures Accepts(v, Only(Not, s), x) <==> !(Accepts(v, Strip(s), x) && DroppedHold(v, s, x))
      ensures Accepts(v, Only(Not, Strip(s)), x) <==> !Accepts(v, Strip(s), x)
    {
      NotAccepts(v, s, x);
      NotAccepts(v, Strip(s), x);
      FlatAccepts(v, s, x);
    }
  }

  lemma EmptyAccepts(v: Meaning, x: Json)
    ensures Accepts(v, Obj(map[]), x)
  {
    AcceptsEverywhere(v, Obj(map[]), x, true);
  }

  // A schema that is one dropped keyword.
  lemma OneDropped(v: Meaning, k: Word, value: Json, x: Json)
    requires Unsupported(k) && RefFree(value)
    ensures var s := Only(k, value);
            && RefFree(s) && Flat(s) && Strip(s) == Obj(map[])
            && (DroppedHold(v, s, x) <==> v.holds(k, value, x))
  {
    var s := Only(k, value);
    assert s.members.Keys == {k} && s.members[k] == value;
    assert Strip(s).members == map[];
  }

  /** For one dropped keyword: exactly when it constrains nothing. */
  lemma NotDroppedIff(v: Meaning, k: Word, value: Json)
    requires Unsupported(k) && RefFree(value)
    ensures WeakerOrEqual(v, Only(Not, Only(k, value)), Strip(Only(Not, Only(k, value)))) <==>
            forall x :: v.holds(k, value, x)
  {
    OneDropped(v, k, value, Null);
    NotFlatIff(v, Only(k, value));
    forall x
      ensures Accepts(v, Strip(Only(k, value)), x) && (DroppedHold(v, Only(k, value), x) <==> v.holds(k, value, x))
    {
      OneDropped(v, k, value, x);
      EmptyAccepts(v, x);
    }
  }

  /** The smallest failure under `not`: an instance the dropped keyword refuses. */
  lemma NotCounterexample(v: Meaning, value: Json, x: Json)
    requires RefFree(value) && !v.holds(Minimum, value, x)
    ensures var schema := Only(Not, Only(Minimum, value));
            Accepts(v, schema, x) && !Accepts(v, Strip(schema), x)
  {
    var s := Only(Minimum, value);
    OneDropped(v, Minimum, value, x);
    StripOnly(Not, s);
    FlatAccepts(v, s, x);
    NotAccepts(v, s, x);
    NotAccepts(v, Obj(map[]), x);
    EmptyAccepts(v, x);
  }

  // ---------- exclusive choice ----------

  // What each branch says of an instance.
  ghost function Branches(v: Meaning, schemas: seq<Json>, x: Json): (r: seq<bool>)
    ensures |r| == |schemas| && forall i :: 0 <= i < |r| ==> r[i] == Accepts(v, schemas[i], x)
  {
    seq(|schemas|, i requires 0 <= i < |schemas| => Accepts(v, schemas[i], x))
  }

  ghost predicate ExactlyOne(verdicts: seq<bool>) {
    exists i :: 0 <= i < |verdicts| && verdicts[i] && forall j :: 0 <= j < |verdicts| && j != i ==> !verdicts[j]
  }

  lemma OneOfHolds(v: Meaning, root: Json, s: Json, schemas: seq<Json>, x: Json, fuel: nat)
    requires s == Only(OneOf, Arr(schemas))
    requires forall i :: 0 <= i < |schemas| ==> Valid(v, root, schemas[i], x, fuel) == Accepts(v, schemas[i], x)
    ensures Holds(v, root, s, OneOf, x, fuel) <==> ExactlyOne(Branches(v, schemas, x))
  {
  }

  lemma OneOfAccepts(v: Meaning, schemas: seq<Json>, x: Json)
    requires forall i :: 0 <= i < |schemas| ==> RefFree(schemas[i])
    ensures Accepts(v, Only(OneOf, Arr(schemas)), x) <==> ExactlyOne(Branches(v, schemas, x))
  {
    var s := Only(OneOf, Arr(schemas));
    forall fuel: nat ensures Valid(v, s, s, x, fuel) == ExactlyOne(Branches(v, schemas, x)) {
      forall i | 0 <= i < |schemas| ensures Valid(v, s, schemas[i], x, fuel) == Accepts(v, schemas[i], x) {
        RefFreeValid(v, s, schemas[i], x, fuel);
      }
      OnlyAccepts(v, OneOf, Arr(schemas), x, fuel);
      OneOfHolds(v, s, s, schemas, x, fuel);
    }
    AcceptsEverywhere(v, s, x, ExactlyOne(Branches(v, schemas, x)));
  }

  // What a choice, and its sanitized form, accept.
  lemma ChoiceAccepts(v: Meaning, schemas: seq<Json>, x: Json)
    requires forall i :: 0 <= i < |schemas| ==> Lit(schemas[i]) && RefFree(schemas[i])
    ensures Accepts(v, Only(OneOf, Arr(schemas)), x) <==> ExactlyOne(Branches(v, schemas, x))
    ensures Accepts(v, Strip(Only(OneOf, Arr(schemas))), x) <==> ExactlyOne(Branches(Ignoring(v), schemas, x))
  {
    var stripped := Strip(Arr(schemas)).items;
    StripOnly(OneOf, Arr(schemas));
    StripList(Arr(schemas));
    forall i | 0 <= i < |schemas|
      ensures RefFree(stripped[i]) && Accepts(v, stripped[i], x) == Accepts(Ignoring(v), schemas[i], x)
    {
      StripRefFree(schemas[i]);
      SanitizingKeeps(v, schemas[i], x);
    }
    OneOfAccepts(v, schemas, x);
    OneOfAccepts(v, stripped, x);
    assert Branches(v, stripped, x) == Branches(Ignoring(v), schemas, x);
  }

  /** Sanitizing under `oneOf`, with any branches and keywords dropped at any depth in any of them, is safe
      exactly when an instance that one branch alone accepts is still accepted by one alone without them. */
  lemma OneOfSafeIff(v: Meaning, schemas: seq<Json>)
    requires forall i :: 0 <= i < |schemas| ==> Lit(schemas[i]) && RefFree(schemas[i])
    ensures var choice := Only(OneOf, Arr(schemas));
            WeakerOrEqual(v, choice, Strip(choice)) <==>
            forall x :: ExactlyOne(Branches(v, schemas, x)) ==> ExactlyOne(Branches(Ignoring(v), schemas, x))
  {
    forall x
      ensures Accepts(v, Only(OneOf, Arr(schemas)), x) <==> ExactlyOne(Branches(v, schemas, x))
      ensures Accepts(v, Strip(Only(OneOf, Arr(schemas))), x) <==> ExactlyOne(Branches(Ignoring(v), schemas, x))
    {
      ChoiceAccepts(v, schemas, x);
    }
  }

  lemma OneOfTwo(verdicts: seq<bool>)
    requires |verdicts| == 2
    ensures ExactlyOne(verdicts) <==> verdicts[0] != verdicts[1]
  {
    if verdicts[0] != verdicts[1] {
      var i := if verdicts[0] then 0 else 1;
      assert verdicts[i] && forall j :: 0 <= j < 2 && j != i ==> !verdicts[j];
    }
  }

  /** The smallest failure under `oneOf`: a second branch begins to accept what the first accepts. */
  lemma OneOfCounterexample(v: Meaning, value: Json, x: Json)
    requires RefFree(value) && !v.holds(Minimum, value, x)
    ensures var choice := Only(OneOf, Arr([Boolean(true), Only(Minimum, value)]));
            Accepts(v, choice, x) && !Accepts(v, Strip(choice), x)
  {
    var b := Only(Minimum, value);
    OneDropped(v, Minimum, value, x);
    FlatAccepts(v, b, x);
    SanitizingKeeps(v, b, x);
    EmptyAccepts(v, x);
    AcceptsEverywhere(v, Boolean(true), x, true);
    AcceptsEverywhere(Ignoring(v), Boolean(true), x, true);
    ChoiceAccepts(v, [Boolean(true), b], x);
    OneOfTwo(Branches(v, [Boolean(true), b], x));
    OneOfTwo(Branches(Ignoring(v), [Boolean(true), b], x));
  }
}
