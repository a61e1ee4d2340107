/** What a schema accepts, and what its sanitized form accepts.

    The keywords are those of JSON Schema 2020-12: type, enum, const, required (Validation, section 6),
    properties, patternProperties, additionalProperties, items, anyOf, allOf, oneOf, not, dependentSchemas
    (Core, sections 10.2 and 10.3) and $ref into $defs (Core, section 8.2). Any other keyword is an
    annotation. The dropped keywords may mean anything at all. */
module SchemaMeaning {
  import opened Sanitizer

  // What is left open: the meaning of the dropped keywords, of `type`, and of a name pattern.
  datatype Meaning = Meaning(
    holds: (Word, Json, Json) -> bool,
    hasType: (Word, Json) -> bool,
    matches: (Word, Word) -> bool)

  // The definition a reference names.
  predicate Defines(root: Json, name: Word) {
    && root.Obj? && Defs in root.members && root.members[Defs].Obj?
    && name in root.members[Defs].members
  }

  function Definition(root: Json, name: Word): Json
    requires Defines(root, name)
  {
    root.members[Defs].members[name]
  }

  // A property no sibling keyword speaks for.
  ghost predicate Additional(v: Meaning, m: map<Word, Json>, name: Word) {
    && !(Properties in m && m[Properties].Obj? && name in m[Properties].members)
    && !(PatternProperties in m && m[PatternProperties].Obj?
         && exists p :: p in m[PatternProperties].members && v.matches(p, name))
  }

  ghost predicate TypeHolds(v: Meaning, t: Json, x: Json) {
    match t
    case Str(w) => v.hasType(w, x)
    case Arr(ts) => exists i :: 0 <= i < |ts| && ts[i].Str? && v.hasType(ts[i].word, x)
    case _ => true
  }

  ghost predicate RequiredHolds(names: Json, x: Json) {
    names.Arr? && x.Obj? ==>
      forall i :: 0 <= i < |names.items| && names.items[i].Str? ==> names.items[i].word in x.members
  }

  /** Instance x is valid against schema s of the document root, unfolding references at most `fuel` deep. */
  ghost predicate Valid(v: Meaning, root: Json, s: Json, x: Json, fuel: nat)
    decreases fuel, s, 1
  {
    match s
    case Boolean(b) => b
    case Obj(m) => forall k :: k in m ==> Holds(v, root, s, k, x, fuel)
    case _ => false
  }

  // One keyword of a schema object.
  ghost predicate Holds(v: Meaning, root: Json, s: Json, k: Word, x: Json, fuel: nat)
    requires s.Obj? && k in s.members
    decreases fuel, s, 0
  {
    var m := s.members;
    var value := m[k];
    match k
    case Type => TypeHolds(v, value, x)
    case Enum => value.Arr? ==> x in value.items
    case Const => x == value
    case Required => RequiredHolds(value, x)
    case Properties =>
      value.Obj? && x.Obj? ==>
        forall n :: n in value.members && n in x.members ==> Valid(v, root, value.members[n], x.members[n], fuel)
    case PatternProperties =>
      value.Obj? && x.Obj? ==>
        forall p, n :: p in value.members && n in x.members && v.matches(p, n) ==>
          Valid(v, root, value.members[p], x.members[n], fuel)
    case AdditionalProperties =>
      x.Obj? ==> forall n :: n in x.members && Additional(v, m, n) ==> Valid(v, root, value, x.members[n], fuel)
    case Items => x.Arr? ==> forall i :: 0 <= i < |x.items| ==> Valid(v, root, value, x.items[i], fuel)
    case AnyOf => value.Arr? ==> exists i :: 0 <= i < |value.items| && Valid(v, root, value.items[i], x, fuel)
    case AllOf => value.Arr? ==> forall i :: 0 <= i < |value.items| ==> Valid(v, root, value.items[i], x, fuel)
    case OneOf =>
      value.Arr? ==> exists i :: 0 <= i < |value.items| && Valid(v, root, value.items[i], x, fuel)
                                 && forall j :: 0 <= j < |value.items| && j != i ==>
                                      !Valid(v, root, value.items[j], x, fuel)
    case Not => !Valid(v, root, value, x, fuel)
    case DependentSchemas =>
      value.Obj? && x.Obj? ==>
        forall n :: n in value.members && n in x.members ==> Valid(v, root, value.members[n], x, fuel)
    case Ref =>
      value.Str? && value.word.DefsRef? ==>
        fuel > 0 && Defines(root, value.word.name) && Valid(v, root, Definition(root, value.word.name), x, fuel - 1)
    case _ => Unsupported(k) ==> v.holds(k, value, x)
  }

  // Valid at every depth from some depth on. A reference that a bound cuts off counts for nothing here,
  // under a negation or not.
  ghost predicate Accepts(v: Meaning, root: Json, x: Json) {
    exists depth: nat :: ValidFrom(v, root, x, depth)
  }

  ghost predicate ValidFrom(v: Meaning, root: Json, x: Json, depth: nat) {
    forall fuel: nat :: depth <= fuel ==> Valid(v, root, root, x, fuel)
  }

  ghost predicate WeakerOrEqual(v: Meaning, a: Json, b: Json) {
    forall x :: Accepts(v, a, x) ==> Accepts(v, b, x)
  }

  // ---------- comparing two schemas, each in a document of its own ----------

  // A meaning, a document and a depth to unfold to.
  datatype View = View(v: Meaning, root: Json, fuel: nat)

  ghost predicate Below(a: View, s: Json, b: View, t: Json) {
    forall x :: Valid(a.v, a.root, s, x, a.fuel) ==> Valid(b.v, b.root, t, x, b.fuel)
  }

  ghost predicate Agree(a: View, s: Json, b: View, t: Json) {
    Below(a, s, b, t) && Below(b, t, a, s)
  }

  function Deeper(a: View): View
    requires a.fuel > 0
  {
    a.(fuel := a.fuel - 1)
  }

  // A reference unfolds to no more on the left than on the right.
  ghost predicate TargetBelow(a: View, b: View, name: Word) {
    a.fuel > 0 && Defines(a.root, name) ==>
      && b.fuel > 0 && Defines(b.root, name)
      && Below(Deeper(a), Definition(a.root, name), Deeper(b), Definition(b.root, name))
  }

  ghost predicate ItemsBelow(a: View, p: Json, b: View, q: Json) {
    && p.Arr? == q.Arr?
    && (p.Arr? ==> |p.items| == |q.items| && forall i :: 0 <= i < |p.items| ==> Below(a, p.items[i], b, q.items[i]))
  }

  ghost predicate NamesBelow(a: View, p: Json, b: View, q: Json) {
    && p.Obj? == q.Obj?
    && (p.Obj? ==> p.members.Keys == q.members.Keys
                   && forall n :: n in p.members ==> Below(a, p.members[n], b, q.members[n]))
  }

  // What keyword k must know of the schemas inside for its meaning on the left to imply that on the right.
  ghost predicate InsideBelow(a: View, s: Json, b: View, t: Json, k: Word)
    requires s.Obj? && k in s.members && t.Obj? && k in t.members
  {
    var p, q := s.members[k], t.members[k];
    match k
    case Items => Below(a, p, b, q)
    case AdditionalProperties =>
      Below(a, p, b, q) && forall n :: Additional(b.v, t.members, n) ==> Additional(a.v, s.members, n)
    case Not => Below(b, q, a, p)
    case AnyOf => ItemsBelow(a, p, b, q)
    case AllOf => ItemsBelow(a, p, b, q)
    case OneOf => ItemsBelow(a, p, b, q) && ItemsBelow(b, q, a, p)
    case Properties => NamesBelow(a, p, b, q)
    case PatternProperties => NamesBelow(a, p, b, q)
    case DependentSchemas => NamesBelow(a, p, b, q)
    case Ref =>
      q.Str? && q.word.DefsRef? ==> p == q && TargetBelow(a, b, q.word.name)
    case Type => forall x :: TypeHolds(a.v, p, x) ==> TypeHolds(b.v, q, x)
    case Enum => q.Arr? ==> p.Arr? && forall x :: x in p.items ==> x in q.items
    case Const => p == q
    case Required => forall x :: RequiredHolds(p, x) ==> RequiredHolds(q, x)
    case _ => Unsupported(k) ==> forall x :: a.v.holds(k, p, x) ==> b.v.holds(k, q, x)
  }

  lemma OneOfBelow(a: View, s: Json, b: View, t: Json, x: Json)
    requires s.Obj? && OneOf in s.members && t.Obj? && OneOf in t.members && InsideBelow(a, s, b, t, OneOf)
    requires Holds(a.v, a.root, s, OneOf, x, a.fuel)
    ensures Holds(b.v, b.root, t, OneOf, x, b.fuel)
  {
    var p, q := s.members[OneOf], t.members[OneOf];
    if q.Arr? {
      assert forall i :: 0 <= i < |p.items| ==>
               Valid(a.v, a.root, p.items[i], x, a.fuel) == Valid(b.v, b.root, q.items[i], x, b.fuel);
    }
  }

  lemma NamesKeywordBelow(a: View, s: Json, b: View, t: Json, k: Word, x: Json)
    requires s.Obj? && k in s.members && t.Obj? && k in t.members && InsideBelow(a, s, b, t, k)
    requires SchemaMap(k) && a.v.matches == b.v.matches
    requires Holds(a.v, a.root, s, k, x, a.fuel)
    ensures Holds(b.v, b.root, t, k, x, b.fuel)
  {
  }

  lemma KeywordBelow(a: View, s: Json, b: View, t: Json, k: Word, x: Json)
    requires s.Obj? && k in s.members && t.Obj? && k in t.members && InsideBelow(a, s, b, t, k)
    requires a.v.matches == b.v.matches
    requires Holds(a.v, a.root, s, k, x, a.fuel)
    ensures Holds(b.v, b.root, t, k, x, b.fuel)
  {
    if k.OneOf? {
      OneOfBelow(a, s, b, t, x);
    } else if SchemaMap(k) {
      NamesKeywordBelow(a, s, b, t, k, x);
    } else if k.AnyOf? || k.AllOf? {
      ItemsKeywordBelow(a, s, b, t, k, x);
    }
  }

  lemma ItemsKeywordBelow(a: View, s: Json, b: View, t: Json, k: Word, x: Json)
    requires s.Obj? && k in s.members && t.Obj? && k in t.members && InsideBelow(a, s, b, t, k)
    requires k.AnyOf? || k.AllOf?
    requires Holds(a.v, a.root, s, k, x, a.fuel)
    ensures Holds(b.v, b.root, t, k, x, b.fuel)
  {
  }

  // Every keyword on the right is implied by the same keyword on the left, or by nothing.
  lemma ObjectBelow(a: View, s: Json, b: View, t: Json)
    requires s.Obj? && t.Obj? && a.v.matches == b.v.matches
    requires forall k :: k in t.members ==>
               || (k in s.members && InsideBelow(a, s, b, t, k))
               || (forall x :: Holds(b.v, b.root, t, k, x, b.fuel))
    ensures Below(a, s, b, t)
  {
    forall x, k | Valid(a.v, a.root, s, x, a.fuel) && k in t.members
      ensures Holds(b.v, b.root, t, k, x, b.fuel)
    {
      if k in s.members && InsideBelow(a, s, b, t, k) {
        KeywordBelow(a, s, b, t, k, x);
      }
    }
  }

  lemma TargetsAgree(a: View, b: View, name: Word)
    requires a.fuel == b.fuel && Defines(a.root, name) == Defines(b.root, name)
    requires a.fuel > 0 && Defines(a.root, name) ==>
               Agree(Deeper(a), Definition(a.root, name), Deeper(b), Definition(b.root, name))
    ensures TargetBelow(a, b, name) && TargetBelow(b, a, name)
  {
  }

  // ---------- a schema and the definitions it leads to ----------

  // The references inside name only definitions in d.
  ghost predicate RefsIn(node: Json, d: iset<Word>) {
    match node
    case Obj(m) =>
      forall k :: k in m ==>
        && (k.Ref? && m[k].Str? && m[k].word.DefsRef? ==> m[k].word.name in d)
        && if m[k].Obj? && SchemaMap(k) then forall n :: n in m[k].members ==> RefsIn(m[k].members[n], d)
           else RefsIn(m[k], d)
    case Arr(items) => forall i :: 0 <= i < |items| ==> RefsIn(items[i], d)
    case _ => true
  }

  ghost predicate RefFree(node: Json) {
    RefsIn(node, iset{})
  }

  // The two documents define the names in d alike, and those definitions lead nowhere else.
  ghost predicate SameDefinitions(r: Json, r': Json, d: iset<Word>) {
    forall n :: n in d ==>
      && Defines(r, n) == Defines(r', n)
      && (Defines(r, n) ==> Definition(r, n) == Definition(r', n) && RefsIn(Definition(r, n), d))
  }

  // With no reference to follow, the depth does not matter.
  ghost predicate SameDepth(f: nat, f': nat, d: iset<Word>) {
    forall n :: n in d ==> f == f'
  }

  /** A schema means the same in any two documents that agree on the definitions it leads to. */
  lemma {:induction false} Local(v: Meaning, r: Json, r': Json, s: Json, f: nat, f': nat, d: iset<Word>)
    requires RefsIn(s, d) && SameDefinitions(r, r', d) && SameDepth(f, f', d)
    ensures Agree(View(v, r, f), s, View(v, r', f'), s)
    decreases f, s, 1
  {
    var a, b := View(v, r, f), View(v, r', f');
    if s.Obj? {
      forall k | k in s.members ensures InsideBelow(a, s, b, s, k) && InsideBelow(b, s, a, s, k) {
        LocalInside(v, r, r', s, k, f, f', d);
      }
      ObjectBelow(a, s, b, s);
      ObjectBelow(b, s, a, s);
    }
  }

  lemma RefsInside(s: Json, k: Word, d: iset<Word>)
    requires s.Obj? && k in s.members && RefsIn(s, d)
    ensures var p := s.members[k];
            && (k.Ref? && p.Str? && p.word.DefsRef? ==> p.word.name in d)
            && (SchemaMap(k) && p.Obj? ==> forall n :: n in p.members ==> RefsIn(p.members[n], d))
            && (!SchemaMap(k) ==> RefsIn(p, d))
  {
  }

  // What a keyword must know of the schemas inside, by the shape of its value.
  lemma NamesInside(a: View, s: Json, b: View, k: Word)
    requires s.Obj? && k in s.members && SchemaMap(k) && NamesBelow(a, s.members[k], b, s.members[k])
    ensures InsideBelow(a, s, b, s, k)
  {
  }

  lemma ItemsInside(a: View, s: Json, b: View, k: Word)
    requires s.Obj? && k in s.members && (k.AnyOf? || k.AllOf? || k.OneOf?)
    requires ItemsBelow(a, s.members[k], b, s.members[k])
    requires k.OneOf? ==> ItemsBelow(b, s.members[k], a, s.members[k])
    ensures InsideBelow(a, s, b, s, k)
  {
  }

  lemma OneInside(a: View, s: Json, b: View, k: Word)
    requires s.Obj? && k in s.members && (k.Items? || k.AdditionalProperties? || k.Not?) && a.v.matches == b.v.matches
    requires if k.Not? then Below(b, s.members[k], a, s.members[k]) else Below(a, s.members[k], b, s.members[k])
    ensures InsideBelow(a, s, b, s, k)
  {
  }

  lemma LeafInside(a: View, s: Json, b: View, k: Word)
    requires s.Obj? && k in s.members && !SchemaMap(k) && !k.Ref?
    requires a.v.hasType == b.v.hasType && (Unsupported(k) ==> forall p, x :: a.v.holds(k, p, x) ==> b.v.holds(k, p, x))
    requires !k.AnyOf? && !k.AllOf? && !k.OneOf? && !k.Items? && !k.AdditionalProperties? && !k.Not?
    ensures InsideBelow(a, s, b, s, k)
  {
  }

  lemma {:induction false} LocalInside(v: Meaning, r: Json, r': Json, s: Json, k: Word, f: nat, f': nat, d: iset<Word>)
    requires s.Obj? && k in s.members
    requires RefsIn(s, d) && SameDefinitions(r, r', d) && SameDepth(f, f', d)
    ensures InsideBelow(View(v, r, f), s, View(v, r', f'), s, k)
    ensures InsideBelow(View(v, r', f'), s, View(v, r, f), s, k)
    decreases f, s, 0
  {
    var a, b := View(v, r, f), View(v, r', f');
    RefsInside(s, k, d);
    if k.Ref? {
      LocalRef(v, r, r', s, f, f', d);
    } else if SchemaMap(k) {
      LocalNames(v, r, r', s.members[k], f, f', d);
      NamesInside(a, s, b, k);
      NamesInside(b, s, a, k);
    } else if k.AnyOf? || k.AllOf? || k.OneOf? {
      LocalItems(v, r, r', s.members[k], f, f', d);
      ItemsInside(a, s, b, k);
      ItemsInside(b, s, a, k);
    } else if k.Items? || k.AdditionalProperties? || k.Not? {
      Local(v, r, r', s.members[k], f, f', d);
      OneInside(a, s, b, k);
      OneInside(b, s, a, k);
    } else {
      LeafInside(a, s, b, k);
      LeafInside(b, s, a, k);
    }
  }

  lemma {:induction false} LocalRef(v: Meaning, r: Json, r': Json, s: Json, f: nat, f': nat, d: iset<Word>)
    requires s.Obj? && Ref in s.members && SameDefinitions(r, r', d) && SameDepth(f, f', d)
    requires var p := s.members[Ref]; p.Str? && p.word.DefsRef? ==> p.word.name in d
    ensures InsideBelow(View(v, r, f), s, View(v, r', f'), s, Ref)
    ensures InsideBelow(View(v, r', f'), s, View(v, r, f), s, Ref)
    decreases f, s.members[Ref], 3
  {
    var p := s.members[Ref];
    if p.Str? && p.word.DefsRef? {
      LocalTarget(v, r, r', p, f, d);
    }
  }

  lemma {:induction false} LocalTarget(v: Meaning, r: Json, r': Json, p: Json, f: nat, d: iset<Word>)
    requires p.Str? && p.word.DefsRef? && p.word.name in d && SameDefinitions(r, r', d)
    ensures TargetBelow(View(v, r, f), View(v, r', f), p.word.name)
    ensures TargetBelow(View(v, r', f), View(v, r, f), p.word.name)
    decreases f, p, 1
  {
    var name := p.word.name;
    if f > 0 && Defines(r, name) {
      Local(v, r, r', Definition(r, name), f - 1, f - 1, d);
    }
    TargetsAgree(View(v, r, f), View(v, r', f), name);
  }

  lemma {:induction false} LocalNames(v: Meaning, r: Json, r': Json, p: Json, f: nat, f': nat, d: iset<Word>)
    requires p.Obj? ==> forall n :: n in p.members ==> RefsIn(p.members[n], d)
    requires SameDefinitions(r, r', d) && SameDepth(f, f', d)
    ensures NamesBelow(View(v, r, f), p, View(v, r', f'), p) && NamesBelow(View(v, r', f'), p, View(v, r, f), p)
    decreases f, p, 2
  {
    if p.Obj? {
      forall n | n in p.members ensures Agree(View(v, r, f), p.members[n], View(v, r', f'), p.members[n]) {
        Local(v, r, r', p.members[n], f, f', d);
      }
    }
  }

  lemma {:induction false} LocalItems(v: Meaning, r: Json, r': Json, p: Json, f: nat, f': nat, d: iset<Word>)
    requires RefsIn(p, d) && SameDefinitions(r, r', d) && SameDepth(f, f', d)
    ensures ItemsBelow(View(v, r, f), p, View(v, r', f'), p) && ItemsBelow(View(v, r', f'), p, View(v, r, f), p)
    decreases f, p, 2
  {
    if p.Arr? {
      forall i | 0 <= i < |p.items| ensures Agree(View(v, r, f), p.items[i], View(v, r', f'), p.items[i]) {
        Local(v, r, r', p.items[i], f, f', d);
      }
    }
  }

  // ---------- what sanitizing does to the meaning ----------

  // The same schema language with the dropped keywords read as annotations.
  function Ignoring(v: Meaning): Meaning {
    v.(holds := (k: Word, value: Json, x: Json) => true)
  }

  // Literal values hold nothing that the sanitizer would take for a keyword.
  predicate Lit(s: Json) {
    match s
    case Obj(m) => forall k :: k in m ==> LitMember(s, k)
    case _ => true
  }

  predicate LitMember(s: Json, k: Word)
    requires s.Obj? && k in s.members
    decreases s, 0
  {
    var value := s.members[k];
    if k.Enum? || k.Const? then Clean(value)
    else if SchemaMap(k) then value.Obj? ==> forall n :: n in value.members ==> Lit(value.members[n])
    else if k.AnyOf? || k.AllOf? || k.OneOf? then
      value.Arr? ==> forall i :: 0 <= i < |value.items| ==> Lit(value.items[i])
    else if k.Items? || k.AdditionalProperties? || k.Not? then Lit(value)
    else true
  }

  lemma TypeKept(v: Meaning, t: Json)
    ensures forall x :: TypeHolds(v, Strip(t), x) == TypeHolds(v, t, x)
    ensures forall x :: TypeHolds(Ignoring(v), t, x) == TypeHolds(v, t, x)
  {
    if t.Arr? {
      assert forall i :: 0 <= i < |t.items| ==> Strip(t).items[i] == Strip(t.items[i]);
      assert forall i :: 0 <= i < |t.items| && t.items[i].Str? ==> Strip(t.items[i]) == t.items[i];
    }
  }

  lemma RequiredKept(names: Json)
    ensures forall x :: RequiredHolds(Strip(names), x) == RequiredHolds(names, x)
  {
    if names.Arr? {
      assert forall i :: 0 <= i < |names.items| ==> Strip(names).items[i] == Strip(names.items[i]);
      assert forall i :: 0 <= i < |names.items| && names.items[i].Str? ==> Strip(names.items[i]) == names.items[i];
    }
  }

  // Names survive, so the same properties are additional.
  lemma AdditionalKept(v: Meaning, s: Json)
    requires s.Obj?
    ensures forall n :: Additional(v, Strip(s).members, n) == Additional(v, s.members, n)
  {
    if Properties in s.members {
      StripMemberKind(s, Properties);
    }
    if PatternProperties in s.members {
      StripMemberKind(s, PatternProperties);
    }
  }

  lemma StripMemberKind(s: Json, k: Word)
    requires s.Obj? && k in s.members && SchemaMap(k)
    ensures k in Strip(s).members && Strip(s).members[k].Obj? == s.members[k].Obj?
    ensures s.members[k].Obj? ==> Strip(s).members[k].members.Keys == s.members[k].members.Keys
  {
    if s.members[k].Obj? {
      StripNames(s, k);
    } else {
      StripKind(s.members[k]);
    }
  }

  lemma DefinitionStripped(root: Json, name: Word)
    ensures Defines(Strip(root), name) == Defines(root, name)
    ensures Defines(root, name) ==> Definition(Strip(root), name) == Strip(Definition(root, name))
    ensures Defines(root, name) && Lit(root) ==> Lit(Definition(root, name))
  {
    if root.Obj? && Defs in root.members {
      StripMemberKind(root, Defs);
      if root.members[Defs].Obj? {
        StripNames(root, Defs);
        assert Lit(root) ==> LitMember(root, Defs);
      }
    }
  }

  // The document's definitions, sanitized one by one.
  ghost predicate Sanitized(root: Json, doc: Json) {
    forall n ::
      && Defines(doc, n) == Defines(root, n)
      && (Defines(root, n) ==> Lit(Definition(root, n)) && Definition(doc, n) == Strip(Definition(root, n)))
  }

  /** Sanitizing is reading the dropped keywords as annotations, in every schema of a document. */
  lemma {:induction false} SameMeaning(v: Meaning, root: Json, doc: Json, s: Json, fuel: nat)
    requires Sanitized(root, doc) && Lit(s)
    ensures Agree(View(Ignoring(v), root, fuel), s, View(v, doc, fuel), Strip(s))
    decreases fuel, s, 1
  {
    var a, b := View(Ignoring(v), root, fuel), View(v, doc, fuel);
    StripKind(s);
    if s.Obj? {
      forall k | k in s.members && !Unsupported(k)
        ensures InsideBelow(a, s, b, Strip(s), k) && InsideBelow(b, Strip(s), a, s, k)
      {
        SameInside(v, root, doc, s, k, fuel);
      }
      ObjectBelow(a, s, b, Strip(s));
      ObjectBelow(b, Strip(s), a, s);
    }
  }

  lemma {:induction false} SameInside(v: Meaning, root: Json, doc: Json, s: Json, k: Word, fuel: nat)
    requires Sanitized(root, doc) && s.Obj? && k in s.members && !Unsupported(k) && LitMember(s, k)
    ensures var a, b := View(Ignoring(v), root, fuel), View(v, doc, fuel);
            InsideBelow(a, s, b, Strip(s), k) && InsideBelow(b, Strip(s), a, s, k)
    decreases fuel, s, 0
  {
    if k.Ref? {
      SameRef(v, root, doc, s, fuel);
    } else if SchemaMap(k) {
      SameNames(v, root, doc, s, k, fuel);
    } else if k.AnyOf? || k.AllOf? || k.OneOf? {
      SameItems(v, root, doc, s, k, fuel);
    } else if k.Items? || k.AdditionalProperties? || k.Not? {
      SameMeaning(v, root, doc, s.members[k], fuel);
      AdditionalKept(v, s);
      assert Strip(s).members[k] == Strip(s.members[k]);
    } else {
      SameLeaf(v, root, doc, s, k, fuel);
    }
  }

  lemma {:induction false} SameRef(v: Meaning, root: Json, doc: Json, s: Json, fuel: nat)
    requires Sanitized(root, doc) && s.Obj? && Ref in s.members
    ensures var a, b := View(Ignoring(v), root, fuel), View(v, doc, fuel);
            InsideBelow(a, s, b, Strip(s), Ref) && InsideBelow(b, Strip(s), a, s, Ref)
    decreases fuel, s.members[Ref], 2
  {
    var p := s.members[Ref];
    assert Strip(s).members[Ref] == Strip(p);
    StripKind(p);
    if p.Str? && p.word.DefsRef? {
      SameTarget(v, root, doc, p, fuel);
    }
  }

  lemma {:induction false} SameTarget(v: Meaning, root: Json, doc: Json, p: Json, fuel: nat)
    requires Sanitized(root, doc) && p.Str? && p.word.DefsRef?
    ensures var a, b := View(Ignoring(v), root, fuel), View(v, doc, fuel);
            TargetBelow(a, b, p.word.name) && TargetBelow(b, a, p.word.name)
    decreases fuel, p, 1
  {
    var name := p.word.name;
    if fuel > 0 && Defines(root, name) {
      SameMeaning(v, root, doc, Definition(root, name), fuel - 1);
    }
    TargetsAgree(View(Ignoring(v), root, fuel), View(v, doc, fuel), name);
  }

  lemma {:induction false} SameNames(v: Meaning, root: Json, doc: Json, s: Json, k: Word, fuel: nat)
    requires Sanitized(root, doc) && s.Obj? && k in s.members && SchemaMap(k) && LitMember(s, k)
    ensures var a, b := View(Ignoring(v), root, fuel), View(v, doc, fuel);
            InsideBelow(a, s, b, Strip(s), k) && InsideBelow(b, Strip(s), a, s, k)
    decreases fuel, s.members[k], 2
  {
    StripMemberKind(s, k);
    var p := s.members[k];
    if p.Obj? {
      StripNames(s, k);
      forall n | n in p.members
        ensures Agree(View(Ignoring(v), root, fuel), p.members[n], View(v, doc, fuel), Strip(p.members[n]))
      {
        SameMeaning(v, root, doc, p.members[n], fuel);
      }
    }
  }

  lemma {:induction false} SameItems(v: Meaning, root: Json, doc: Json, s: Json, k: Word, fuel: nat)
    requires Sanitized(root, doc) && s.Obj? && k in s.members && (k.AnyOf? || k.AllOf? || k.OneOf?) && LitMember(s, k)
    ensures var a, b := View(Ignoring(v), root, fuel), View(v, doc, fuel);
            InsideBelow(a, s, b, Strip(s), k) && InsideBelow(b, Strip(s), a, s, k)
    decreases fuel, s.members[k], 2
  {
    var p := s.members[k];
    assert Strip(s).members[k] == Strip(p);
    StripKind(p);
    if p.Arr? {
      StripList(p);
      forall i | 0 <= i < |p.items|
        ensures Agree(View(Ignoring(v), root, fuel), p.items[i], View(v, doc, fuel), Strip(p.items[i]))
      {
        SameMeaning(v, root, doc, p.items[i], fuel);
      }
    }
  }

  // The keywords with no schema inside.
  lemma SameLeaf(v: Meaning, root: Json, doc: Json, s: Json, k: Word, fuel: nat)
    requires s.Obj? && k in s.members && !Unsupported(k) && !SchemaMap(k) && !k.Ref? && LitMember(s, k)
    requires !k.AnyOf? && !k.AllOf? && !k.OneOf? && !k.Items? && !k.AdditionalProperties? && !k.Not?
    ensures var a, b := View(Ignoring(v), root, fuel), View(v, doc, fuel);
            InsideBelow(a, s, b, Strip(s), k) && InsideBelow(b, Strip(s), a, s, k)
  {
    var p := s.members[k];
    assert Strip(s).members[k] == Strip(p);
    match k
    case Enum => CleanUnchanged(p);
    case Const => CleanUnchanged(p);
    case Type => TypeKept(v, p);
    case Required => RequiredKept(p);
    case _ =>
  }

  /** Exactly the dropped keywords are given up, and nothing else: the sanitized schema accepts what the
      original accepts once those keywords are read as annotations. */
  lemma SanitizingKeeps(v: Meaning, schema: Json, x: Json)
    requires Lit(schema)
    ensures Accepts(v, Strip(schema), x) <==> Accepts(Ignoring(v), schema, x)
  {
    forall n { DefinitionStripped(schema, n); }
    forall fuel: nat
      ensures Valid(v, Strip(schema), Strip(schema), x, fuel) == Valid(Ignoring(v), schema, schema, x, fuel)
    {
      SameMeaning(v, schema, Strip(schema), schema, fuel);
    }
    forall depth: nat
      ensures ValidFrom(v, Strip(schema), x, depth) == ValidFrom(Ignoring(v), schema, x, depth)
    {
    }
  }

  /** So it is safe to sanitize a schema exactly when reading those keywords as annotations loses nothing. */
  lemma SafeIff(v: Meaning, schema: Json)
    requires Lit(schema)
    ensures WeakerOrEqual(v, schema, Strip(schema)) <==>
            forall x :: Accepts(v, schema, x) ==> Accepts(Ignoring(v), schema, x)
  {
    forall x ensures Accepts(v, Strip(schema), x) <==> Accepts(Ignoring(v), schema, x) {
      SanitizingKeeps(v, schema, x);
    }
  }

  // ---------- where reading them as annotations loses nothing ----------

  // The definitions named in d hold nothing to drop and lead to no others.
  ghost predicate CleanDefinitions(root: Json, d: iset<Word>) {
    forall n :: n in d && Defines(root, n) ==> Clean(Definition(root, n)) && RefsIn(Definition(root, n), d)
  }

  // Under `not` and `oneOf` there is nothing to drop, there or in the definitions they lead to.
  ghost predicate Guarded(s: Json, d: iset<Word>) {
    match s
    case Obj(m) => forall k :: k in m ==> GuardedMember(s, k, d)
    case _ => true
  }

  ghost predicate GuardedMember(s: Json, k: Word, d: iset<Word>)
    requires s.Obj? && k in s.members
    decreases s, 0
  {
    var value := s.members[k];
    if k.Not? || k.OneOf? then Clean(value) && RefsIn(value, d)
    else if SchemaMap(k) then value.Obj? ==> forall n :: n in value.members ==> Guarded(value.members[n], d)
    else if k.AnyOf? || k.AllOf? then
      value.Arr? ==> forall i :: 0 <= i < |value.items| ==> Guarded(value.items[i], d)
    else if k.Items? || k.AdditionalProperties? then Guarded(value, d)
    else true
  }

  lemma {:induction false} CleanIsLit(s: Json)
    requires Clean(s)
    ensures Lit(s)
  {
    if s.Obj? {
      forall k | k in s.members ensures LitMember(s, k) {
        CleanMemberIsLit(s, k);
      }
    }
  }

  lemma {:induction false} CleanMemberIsLit(s: Json, k: Word)
    requires s.Obj? && k in s.members && Clean(s)
    ensures LitMember(s, k)
    decreases s, 0
  {
    var p := s.members[k];
    if SchemaMap(k) {
      if p.Obj? {
        forall n | n in p.members ensures Lit(p.members[n]) {
          CleanIsLit(p.members[n]);
        }
      }
    } else {
      CleanIsLit(p);
      if p.Arr? {
        forall i | 0 <= i < |p.items| ensures Lit(p.items[i]) {
          CleanIsLit(p.items[i]);
        }
      }
    }
  }

  // The document cut down to the definitions in d.
  ghost function Core(root: Json, d: iset<Word>): Json {
    if root.Obj? && Defs in root.members && root.members[Defs].Obj? then
      var defs := root.members[Defs].members;
      Obj(map[Defs := Obj(map n | n in defs && n in d :: defs[n])])
    else
      Obj(map[])
  }

  lemma CoreKeeps(root: Json, d: iset<Word>)
    requires CleanDefinitions(root, d)
    ensures SameDefinitions(root, Core(root, d), d)
    ensures Sanitized(Core(root, d), Core(root, d))
  {
    forall n ensures Defines(Core(root, d), n) == (n in d && Defines(root, n))
      ensures n in d && Defines(root, n) ==> Definition(Core(root, d), n) == Definition(root, n)
    {
    }
    forall n | n in d && Defines(root, n)
      ensures Lit(Definition(root, n)) && Strip(Definition(root, n)) == Definition(root, n)
    {
      CleanIsLit(Definition(root, n));
      CleanUnchanged(Definition(root, n));
    }
  }

  /** Where nothing is dropped, there and in the definitions it leads to, the dropped keywords do not matter. */
  lemma CleanIgnores(v: Meaning, root: Json, s: Json, fuel: nat, d: iset<Word>)
    requires Clean(s) && RefsIn(s, d) && CleanDefinitions(root, d)
    ensures Agree(View(v, root, fuel), s, View(Ignoring(v), root, fuel), s)
  {
    var core := Core(root, d);
    CoreKeeps(root, d);
    CleanIsLit(s);
    CleanUnchanged(s);
    Local(v, root, core, s, fuel, fuel, d);
    Local(Ignoring(v), root, core, s, fuel, fuel, d);
    SameMeaning(v, core, core, s, fuel);
  }

  ghost predicate GuardedDefinitions(root: Json, d: iset<Word>) {
    CleanDefinitions(root, d) && forall n :: Defines(root, n) ==> Guarded(Definition(root, n), d)
  }

  // Elsewhere, giving up a keyword only makes a schema accept more.
  lemma {:induction false} Relaxes(v: Meaning, root: Json, s: Json, fuel: nat, d: iset<Word>)
    requires GuardedDefinitions(root, d) && Guarded(s, d)
    ensures Below(View(v, root, fuel), s, View(Ignoring(v), root, fuel), s)
    decreases fuel, s, 1
  {
    var a, b := View(v, root, fuel), View(Ignoring(v), root, fuel);
    if s.Obj? {
      forall k | k in s.members ensures InsideBelow(a, s, b, s, k) {
        assert GuardedMember(s, k, d);
        RelaxesInside(v, root, s, k, fuel, d);
      }
      ObjectBelow(a, s, b, s);
    }
  }

  lemma {:induction false} RelaxesInside(v: Meaning, root: Json, s: Json, k: Word, fuel: nat, d: iset<Word>)
    requires GuardedDefinitions(root, d) && s.Obj? && k in s.members && GuardedMember(s, k, d)
    ensures InsideBelow(View(v, root, fuel), s, View(Ignoring(v), root, fuel), s, k)
    decreases fuel, s, 0
  {
    var a, b, p := View(v, root, fuel), View(Ignoring(v), root, fuel), s.members[k];
    if k.Ref? {
      RelaxesRef(v, root, s, fuel, d);
    } else if SchemaMap(k) {
      RelaxesNames(v, root, p, fuel, d);
      NamesInside(a, s, b, k);
    } else if k.Not? {
      CleanIgnores(v, root, p, fuel, d);
      OneInside(a, s, b, k);
    } else if k.OneOf? {
      CleanItems(v, root, p, fuel, d);
      ItemsInside(a, s, b, k);
    } else if k.AnyOf? || k.AllOf? {
      RelaxesItems(v, root, p, fuel, d);
      ItemsInside(a, s, b, k);
    } else if k.Items? || k.AdditionalProperties? {
      Relaxes(v, root, p, fuel, d);
      OneInside(a, s, b, k);
    } else {
      LeafInside(a, s, b, k);
    }
  }

  lemma {:induction false} RelaxesRef(v: Meaning, root: Json, s: Json, fuel: nat, d: iset<Word>)
    requires GuardedDefinitions(root, d) && s.Obj? && Ref in s.members
    ensures InsideBelow(View(v, root, fuel), s, View(Ignoring(v), root, fuel), s, Ref)
    decreases fuel, s.members[Ref], 2
  {
    var p := s.members[Ref];
    if p.Str? && p.word.DefsRef? && fuel > 0 && Defines(root, p.word.name) {
      Relaxes(v, root, Definition(root, p.word.name), fuel - 1, d);
    }
  }

  lemma {:induction false} RelaxesNames(v: Meaning, root: Json, p: Json, fuel: nat, d: iset<Word>)
    requires GuardedDefinitions(root, d) && (p.Obj? ==> forall n :: n in p.members ==> Guarded(p.members[n], d))
    ensures NamesBelow(View(v, root, fuel), p, View(Ignoring(v), root, fuel), p)
    decreases fuel, p, 2
  {
    if p.Obj? {
      forall n | n in p.members
        ensures Below(View(v, root, fuel), p.members[n], View(Ignoring(v), root, fuel), p.members[n])
      {
        Relaxes(v, root, p.members[n], fuel, d);
      }
    }
  }

  lemma {:induction false} RelaxesItems(v: Meaning, root: Json, p: Json, fuel: nat, d: iset<Word>)
    requires GuardedDefinitions(root, d)
    requires p.Arr? ==> forall i :: 0 <= i < |p.items| ==> Guarded(p.items[i], d)
    ensures ItemsBelow(View(v, root, fuel), p, View(Ignoring(v), root, fuel), p)
    decreases fuel, p, 2
  {
    if p.Arr? {
      forall i | 0 <= i < |p.items|
        ensures Below(View(v, root, fuel), p.items[i], View(Ignoring(v), root, fuel), p.items[i])
      {
        Relaxes(v, root, p.items[i], fuel, d);
      }
    }
  }

  lemma CleanItems(v: Meaning, root: Json, p: Json, fuel: nat, d: iset<Word>)
    requires Clean(p) && RefsIn(p, d) && CleanDefinitions(root, d)
    ensures ItemsBelow(View(v, root, fuel), p, View(Ignoring(v), root, fuel), p)
    ensures ItemsBelow(View(Ignoring(v), root, fuel), p, View(v, root, fuel), p)
  {
    if p.Arr? {
      forall i | 0 <= i < |p.items|
        ensures Agree(View(v, root, fuel), p.items[i], View(Ignoring(v), root, fuel), p.items[i])
      {
        CleanIgnores(v, root, p.items[i], fuel, d);
      }
    }
  }

  lemma GuardedEverywhere(root: Json, d: iset<Word>)
    requires Guarded(root, d) && CleanDefinitions(root, d)
    ensures GuardedDefinitions(root, d)
  {
    if root.Obj? && Defs in root.members {
      assert GuardedMember(root, Defs, d);
    }
  }

  /** Sanitizing only weakens. Whatever the dropped keywords mean, every instance a schema accepts, its
      sanitized form accepts, where nothing is dropped under `not` and `oneOf` or in what they refer to. */
  lemma SanitizingWeakens(v: Meaning, schema: Json, x: Json, d: iset<Word>)
    requires Lit(schema) && Guarded(schema, d) && CleanDefinitions(schema, d)
    requires Accepts(v, schema, x)
    ensures Accepts(v, Strip(schema), x)
  {
    GuardedEverywhere(schema, d);
    forall fuel: nat ensures Valid(v, schema, schema, x, fuel) ==> Valid(Ignoring(v), schema, schema, x, fuel) {
      Relaxes(v, schema, schema, fuel, d);
    }
    var depth: nat :| ValidFrom(v, schema, x, depth);
    assert ValidFrom(Ignoring(v), schema, x, depth);
    SanitizingKeeps(v, schema, x);
  }

  lemma {:induction false} RefsAnywhere(s: Json, d: iset<Word>)
    requires forall w :: w in d
    ensures RefsIn(s, d)
  {
    match s
    case Obj(m) =>
      forall k | k in m
        ensures if m[k].Obj? && SchemaMap(k) then forall n :: n in m[k].members ==> RefsIn(m[k].members[n], d)
                else RefsIn(m[k], d)
      {
        if m[k].Obj? && SchemaMap(k) {
          forall n | n in m[k].members ensures RefsIn(m[k].members[n], d) {
            RefsAnywhere(m[k].members[n], d);
          }
        } else {
          RefsAnywhere(m[k], d);
        }
      }
    case Arr(items) =>
      forall i | 0 <= i < |items| ensures RefsIn(items[i], d) {
        RefsAnywhere(items[i], d);
      }
    case _ =>
  }

  lemma {:induction false} CleanIsGuarded(s: Json, d: iset<Word>)
    requires Clean(s) && forall w :: w in d
    ensures Guarded(s, d)
    decreases s, 1
  {
    if s.Obj? {
      forall k | k in s.members ensures GuardedMember(s, k, d) {
        CleanMemberIsGuarded(s, k, d);
      }
    }
  }

  lemma {:induction false} CleanMemberIsGuarded(s: Json, k: Word, d: iset<Word>)
    requires s.Obj? && k in s.members && Clean(s) && forall w :: w in d
    ensures GuardedMember(s, k, d)
    decreases s, 0
  {
    var p := s.members[k];
    RefsAnywhere(p, d);
    if SchemaMap(k) {
      if p.Obj? {
        forall n | n in p.members ensures Guarded(p.members[n], d) {
          CleanIsGuarded(p.members[n], d);
        }
      }
    } else {
      CleanIsGuarded(p, d);
      if p.Arr? {
        forall i | 0 <= i < |p.items| ensures Guarded(p.items[i], d) {
          CleanIsGuarded(p.items[i], d);
        }
      }
    }
  }

  /** A document with nothing to drop meets these conditions, whatever it refers to and from where. */
  lemma CleanIsSafe(schema: Json, d: iset<Word>)
    requires Clean(schema) && forall w :: w in d
    ensures Lit(schema) && Guarded(schema, d) && CleanDefinitions(schema, d)
  {
    CleanIsLit(schema);
    CleanIsGuarded(schema, d);
    forall n | Defines(schema, n) ensures Clean(Definition(schema, n)) && RefsIn(Definition(schema, n), d) {
      RefsAnywhere(Definition(schema, n), d);
    }
  }
}
