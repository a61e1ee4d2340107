/** The schema sanitizer (llm/schema_utils.py) on JSON trees. */
module Sanitizer {

  // Strings, as far as a schema tells them apart: the words the sanitizer or the evaluator knows, a
  // reference to a definition ("#/$defs/NAME"), and every other text. Property names are words too, so a
  // property may be spelled like a keyword.
  datatype Word =
    | Format | Pattern | Minimum | Maximum | ExclusiveMinimum | ExclusiveMaximum | MinLength | MaxLength
    | MultipleOf | MinItems | MaxItems | UniqueItems
    | Properties | Defs | Definitions | PatternProperties | DependentSchemas
    | Type | Enum | Const | Required | AdditionalProperties | Items | AnyOf | AllOf | OneOf | Not | Ref
    | DefsRef(name: Word)
    | Other(text: string)

  datatype Json =
    | Null
    | Boolean(value: bool)
    | Number(n: real)
    | Str(word: Word)
    | Arr(items: seq<Json>)
    | Obj(members: map<Word, Json>)

  // UNSUPPORTED_KEYWORDS
  predicate Unsupported(k: Word) {
    || k.Format? || k.Pattern? || k.Minimum? || k.Maximum? || k.ExclusiveMinimum? || k.ExclusiveMaximum?
    || k.MinLength? || k.MaxLength? || k.MultipleOf? || k.MinItems? || k.MaxItems? || k.UniqueItems?
  }

  // _SCHEMA_MAP_KEYS
  predicate SchemaMap(k: Word) {
    k.Properties? || k.Defs? || k.Definitions? || k.PatternProperties? || k.DependentSchemas?
  }

  function Strip(node: Json): Json {
    match node
    case Obj(m) => Obj(map k | k in m && !Unsupported(k) :: StripMember(node, k))
    case Arr(items) => Arr(seq(|items|, i requires 0 <= i < |items| => Strip(items[i])))
    case _ => node
  }

  // The value kept under one key: a map from names to schemas keeps its names.
  function StripMember(node: Json, k: Word): Json
    requires node.Obj? && k in node.members
    decreases node, 0
  {
    var value := node.members[k];
    if SchemaMap(k) && value.Obj? then
      Obj(map n | n in value.members :: Strip(value.members[n]))
    else
      Strip(value)
  }

  /** Of the members of a schema object exactly these twelve keywords go. Of what stays, each of these five maps
      keeps its names, and every other value is sanitized as a schema. */
  lemma StripMembers(m: map<Word, Json>, k: Word)
    ensures Strip(Obj(m)).Obj?
    ensures k in Strip(Obj(m)).members <==>
            && k in m
            && k !in {Format, Pattern, Minimum, Maximum, ExclusiveMinimum, ExclusiveMaximum, MinLength, MaxLength,
                      MultipleOf, MinItems, MaxItems, UniqueItems}
    ensures k in Strip(Obj(m)).members ==>
              var after := Strip(Obj(m)).members[k];
              if k in {Properties, Defs, Definitions, PatternProperties, DependentSchemas} && m[k].Obj? then
                && after.Obj? && after.members.Keys == m[k].members.Keys
                && forall n :: n in m[k].members ==> after.members[n] == Strip(m[k].members[n])
              else
                after == Strip(m[k])
  {
  }

  // The dict branch of _strip fills its result key by key, in any order.
  method StripObject(members: map<Word, Json>) returns (r: Json)
    ensures r == Strip(Obj(members))
  {
    var node := Obj(members);
    var result: map<Word, Json> := map[];
    var todo := members.Keys;
    while todo != {}
      invariant todo <= members.Keys
      invariant forall k :: k in result <==> k in members && k !in todo && !Unsupported(k)
      invariant forall k :: k in result ==> result[k] == StripMember(node, k)
      decreases todo
    {
      var key :| key in todo;
      todo := todo - {key};
      if Unsupported(key) {
        continue;
      }
      var value := members[key];
      if SchemaMap(key) && value.Obj? {
        result := result[key := Obj(map n | n in value.members :: Strip(value.members[n]))];
      } else {
        result := result[key := Strip(value)];
      }
    }
    r := Obj(result);
    assert result == Strip(node).members;
  }

  // ---------- what the tree looks like afterwards ----------

  // No unsupported keyword at a schema position, at any depth. A name in a schema map is not one.
  predicate Clean(node: Json) {
    match node
    case Obj(m) =>
      forall k :: k in m ==>
        && !Unsupported(k)
        && if SchemaMap(k) && m[k].Obj? then forall n :: n in m[k].members ==> Clean(m[k].members[n]) else Clean(m[k])
    case Arr(items) => forall i :: 0 <= i < |items| ==> Clean(items[i])
    case _ => true
  }

  /** Nothing unsupported is left, and a schema with nothing unsupported is returned as it was. */
  lemma {:induction false} StripCleans(node: Json)
    ensures Clean(Strip(node))
  {
    match node
    case Obj(m) =>
      forall k | k in m
        ensures !Unsupported(k) ==>
                  if SchemaMap(k) && m[k].Obj? then forall n :: n in m[k].members ==> Clean(Strip(m[k].members[n]))
                  else Clean(Strip(m[k]))
      {
        if SchemaMap(k) && m[k].Obj? {
          forall n | n in m[k].members ensures Clean(Strip(m[k].members[n])) {
            StripCleans(m[k].members[n]);
          }
        } else {
          StripCleans(m[k]);
        }
      }
    case Arr(items) =>
      forall i | 0 <= i < |items| ensures Clean(Strip(items[i])) {
        StripCleans(items[i]);
      }
    case _ =>
  }

  lemma {:induction false} CleanUnchanged(node: Json)
    requires Clean(node)
    ensures Strip(node) == node
  {
    match node
    case Obj(m) =>
      forall k | k in m ensures StripMember(node, k) == m[k] {
        if SchemaMap(k) && m[k].Obj? {
          forall n | n in m[k].members ensures Strip(m[k].members[n]) == m[k].members[n] {
            CleanUnchanged(m[k].members[n]);
          }
          assert StripMember(node, k).members == m[k].members;
        } else {
          CleanUnchanged(m[k]);
        }
      }
      assert Strip(node).members == m;
    case Arr(items) =>
      forall i | 0 <= i < |items| ensures Strip(items[i]) == items[i] {
        CleanUnchanged(items[i]);
      }
      assert Strip(node).items == items;
    case _ =>
  }

  /** The fixed points of sanitizing are exactly the clean schemas; so sanitizing twice is sanitizing once. */
  lemma FixedIffClean(node: Json)
    ensures Strip(node) == node <==> Clean(node)
    ensures Strip(Strip(node)) == Strip(node)
  {
    StripCleans(node);
    CleanUnchanged(Strip(node));
    if Clean(node) {
      CleanUnchanged(node);
    }
  }

  /** Every map of names to schemas keeps all its names, at every depth that is kept at all. */
  ghost predicate NamesKept(a: Json, b: Json) {
    match a
    case Obj(m) =>
      && b.Obj?
      && (forall k :: k in m && !Unsupported(k) ==>
            && k in b.members
            && if SchemaMap(k) && m[k].Obj? then
                 && b.members[k].Obj? && b.members[k].members.Keys == m[k].members.Keys
                 && forall n :: n in m[k].members ==> NamesKept(m[k].members[n], b.members[k].members[n])
               else
                 NamesKept(m[k], b.members[k]))
    case Arr(items) =>
      b.Arr? && |b.items| == |items| && forall i :: 0 <= i < |items| ==> NamesKept(items[i], b.items[i])
    case _ => b == a
  }

  lemma {:induction false} StripKeepsNames(node: Json)
    ensures NamesKept(node, Strip(node))
  {
    match node
    case Obj(m) =>
      forall k | k in m && !Unsupported(k)
        ensures if SchemaMap(k) && m[k].Obj? then
                  && StripMember(node, k).members.Keys == m[k].members.Keys
                  && forall n :: n in m[k].members ==> NamesKept(m[k].members[n], StripMember(node, k).members[n])
                else
                  NamesKept(m[k], StripMember(node, k))
      {
        if SchemaMap(k) && m[k].Obj? {
          forall n | n in m[k].members ensures NamesKept(m[k].members[n], Strip(m[k].members[n])) {
            StripKeepsNames(m[k].members[n]);
          }
        } else {
          StripKeepsNames(m[k]);
        }
      }
    case Arr(items) =>
      forall i | 0 <= i < |items| ensures NamesKept(items[i], Strip(items[i])) {
        StripKeepsNames(items[i]);
      }
    case _ =>
  }

  lemma StripKind(node: Json)
    ensures Strip(node).Obj? == node.Obj? && Strip(node).Arr? == node.Arr?
    ensures !node.Obj? && !node.Arr? ==> Strip(node) == node
  {
  }

  // What Strip does to a list, and to a map from names to schemas.
  lemma StripList(list: Json)
    requires list.Arr?
    ensures Strip(list).Arr? && |Strip(list).items| == |list.items|
    ensures forall i :: 0 <= i < |list.items| ==> Strip(list).items[i] == Strip(list.items[i])
  {
  }

  lemma StripNames(s: Json, k: Word)
    requires s.Obj? && k in s.members && SchemaMap(k) && s.members[k].Obj?
    ensures k in Strip(s).members && Strip(s).members[k].Obj?
    ensures Strip(s).members[k].members.Keys == s.members[k].members.Keys
    ensures forall n :: n in s.members[k].members ==> Strip(s).members[k].members[n] == Strip(s.members[k].members[n])
  {
  }
}
