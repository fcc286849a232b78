/**
 * `GetReadablePublicProperties`: the properties whose getter exists and is
 * public, declared on the runtime type first, then on its base type, and so
 * on up the chain until there is no base type. Nothing is de-duplicated.
 */
module ReflectionExtensions {
  import opened ObjectGraph

  predicate HasPublicGetter(p: PropertyInfo)
  {
    p.getter == PublicGetter
  }

  /** The properties of `ps` with a public getter, in order. */
  function PublicGetters(ps: seq<PropertyInfo>): (r: seq<PropertyInfo>)
    decreases |ps|
  {
    if ps == [] then []
    else PublicGetters(ps[..|ps| - 1]) + (if HasPublicGetter(ps[|ps| - 1]) then [ps[|ps| - 1]] else [])
  }

  /** The base-type chain starting at `t`, `t` first. */
  function BaseChain(g: Graph, t: TypeId): (chain: seq<TypeId>)
    requires WellFormedTypes(g)
    decreases t
  {
    match g.types(t).baseType
    case None => [t]
    case Some(b) => [t] + BaseChain(g, b)
  }

  /** Reference definition: one level's filtered declared properties, then the base type's. */
  function ReadablePublicProperties(g: Graph, t: TypeId): seq<PropertyInfo>
    requires WellFormedTypes(g)
    decreases t
  {
    PublicGetters(g.types(t).declaredProperties)
    + match g.types(t).baseType
      case None => []
      case Some(b) => ReadablePublicProperties(g, b)
  }

  /** Flattens each type's filtered declared properties, in chain order. */
  function LevelsConcat(g: Graph, chain: seq<TypeId>): seq<PropertyInfo>
  {
    if chain == [] then [] else PublicGetters(g.types(chain[0]).declaredProperties) + LevelsConcat(g, chain[1..])
  }

  lemma {:induction false} PublicGettersMembership(ps: seq<PropertyInfo>, p: PropertyInfo)
    ensures p in PublicGetters(ps) <==> p in ps && HasPublicGetter(p)
    decreases |ps|
  {
    if ps != [] {
      PublicGettersMembership(ps[..|ps| - 1], p);
      assert ps == ps[..|ps| - 1] + [ps[|ps| - 1]];
    }
  }

  /** The chain starts at `t`, strictly descends through base types, and ends at a type with no base. */
  lemma {:induction false} ChainTerminates(g: Graph, t: TypeId)
    requires WellFormedTypes(g)
    ensures var chain := BaseChain(g, t);
      && 1 <= |chain| <= t + 1
      && chain[0] == t
      && g.types(chain[|chain| - 1]).baseType.None?
      && forall i | 0 <= i < |chain| - 1 :: g.types(chain[i]).baseType == Some(chain[i + 1])
    decreases t
  {
    match g.types(t).baseType
    case None =>
    case Some(b) =>
      ChainTerminates(g, b);
  }

  /** The result is exactly each level's filtered declared properties, concatenated in chain order. */
  lemma {:induction false} ReadableIsConcatenationOfLevels(g: Graph, t: TypeId)
    requires WellFormedTypes(g)
    ensures ReadablePublicProperties(g, t) == LevelsConcat(g, BaseChain(g, t))
    decreases t
  {
    match g.types(t).baseType
    case None =>
      assert BaseChain(g, t)[1..] == [];
    case Some(b) =>
      ReadableIsConcatenationOfLevels(g, b);
      assert BaseChain(g, t)[1..] == BaseChain(g, b);
  }

  /** A property is listed iff some type on the chain declares it with a public getter. */
  lemma {:induction false} ReadableMembership(g: Graph, t: TypeId, p: PropertyInfo)
    requires WellFormedTypes(g)
    ensures p in ReadablePublicProperties(g, t) <==>
      HasPublicGetter(p) && exists u :: u in BaseChain(g, t) && p in g.types(u).declaredProperties
    decreases t
  {
    PublicGettersMembership(g.types(t).declaredProperties, p);
    match g.types(t).baseType
    case None =>
    case Some(b) =>
      ReadableMembership(g, b, p);
  }

  /** The runtime type's own readable properties come first. */
  lemma OwnPropertiesFirst(g: Graph, t: TypeId)
    requires WellFormedTypes(g)
    ensures var own := PublicGetters(g.types(t).declaredProperties);
      own <= ReadablePublicProperties(g, t)
  {
  }

  /** The `while (type != null)` walk over the chain; each level's properties are yielded in turn. */
  method GetReadablePublicProperties(g: Graph, t: TypeId) returns (ps: seq<PropertyInfo>)
    requires WellFormedTypes(g)
    ensures ps == ReadablePublicProperties(g, t)
  {
    ps := [];
    var current: Option<TypeId> := Some(t);
    ghost var rest := ReadablePublicProperties(g, t);
    while current.Some?
      invariant ps + rest == ReadablePublicProperties(g, t)
      invariant current.Some? ==> rest == ReadablePublicProperties(g, current.value)
      invariant current.None? ==> rest == []
      decreases if current.Some? then current.value + 1 else 0
    {
      var u := current.value;
      var own := DeclaredPublicGetters(g.types(u).declaredProperties);
      var next := g.types(u).baseType;
      ghost var later := if next.Some? then ReadablePublicProperties(g, next.value) else [];
      assert rest == own + later;
      assert ps + (own + later) == (ps + own) + later;
      ps := ps + own;
      rest := later;
      current := next;
    }
  }

  /** The inner `foreach`: the declared properties whose getter is public, in order. */
  method DeclaredPublicGetters(declared: seq<PropertyInfo>) returns (own: seq<PropertyInfo>)
    ensures own == PublicGetters(declared)
  {
    own := [];
    var j := 0;
    while j < |declared|
      invariant 0 <= j <= |declared|
      invariant own == PublicGetters(declared[..j])
    {
      assert declared[..j + 1][..j] == declared[..j];
      if declared[j].getter == PublicGetter {
        own := own + [declared[j]];
      }
      j := j + 1;
    }
    assert declared[..j] == declared;
  }
}
