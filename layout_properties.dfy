/**
 * The layout of collections in the reference semantics of the current
 * reflection formatter.
 *
 * The first group of lemmas shows that what a call writes does not depend
 * on what the sink already holds: running it after a prefix gives the same
 * state, with the prefix in front of the tokens. A nested value can
 * therefore be described by what it writes into an empty sink (`Own`),
 * and the second group gives the exact token sequence of an enumerable and
 * of a dictionary in terms of the tokens their items write on their own.
 */
module LayoutProperties {
  import opened ObjectGraph
  import opened Sink
  import opened ReflectionExtensions
  import opened RenderSpec
  import opened RenderProperties

  lemma {:induction false} InnerShifts(c: Config, k: Cleanup, g: Graph, o: Ref, level: int, pt: Option<TypeId>,
                                       s: St, front: seq<Token>)
    requires WellFormedTypes(g)
    ensures Inner(c, k, g, o, level, pt, Prefixed(front, s)) == PrefixedResult(front, Inner(c, k, g, o, level, pt, s))
    decreases c.maxDepth - level, 3, 0
  {
    if o.Null? {
      EmitPrefixed(front, s, [Text(NullMarker)]);
    } else if level >= c.maxDepth {
      EmitPrefixed(front, s, [Text(LimitMarker)]);
    } else if o.id in s.lineage {
      EmitPrefixed(front, s, [Text(ParentMarker(FirstIndex(s.lineage, o.id)))]);
    } else if ShouldFormatAsPrimitive(g, o) {
      EmitPrefixed(front, s, PrimitiveTokens(g.heap(o.id).shape.text));
    } else {
      var pushed := s.(lineage := [o.id] + s.lineage);
      assert Prefixed(front, s).(lineage := [o.id] + s.lineage) == Prefixed(front, pushed);
      RenderShifts(c, k, g, o.id, level, pt, pushed, front);
    }
  }

  lemma {:induction false} RenderShifts(c: Config, k: Cleanup, g: Graph, id: NodeId, level: int, pt: Option<TypeId>,
                                        s: St, front: seq<Token>)
    requires WellFormedTypes(g) && level < c.maxDepth && !g.heap(id).shape.Primitive?
    ensures Render(c, k, g, id, level, pt, Prefixed(front, s)) == PrefixedResult(front, Render(c, k, g, id, level, pt, s))
    decreases c.maxDepth - level, 2, 0
  {
    match g.heap(id).shape
    case Dictionary(_, _, _, _) => AsDictionaryShifts(c, k, g, id, level, pt, s, front);
    case Enumerable(_, _) => AsEnumerableShifts(c, k, g, id, level, s, front);
    case Plain => AsObjectShifts(c, k, g, id, level, pt, s, front);
  }

  lemma {:induction false} AsObjectShifts(c: Config, k: Cleanup, g: Graph, id: NodeId, level: int, pt: Option<TypeId>,
                                          s: St, front: seq<Token>)
    requires WellFormedTypes(g) && level < c.maxDepth
    ensures AsObject(c, k, g, id, level, pt, Prefixed(front, s)) == PrefixedResult(front, AsObject(c, k, g, id, level, pt, s))
    decreases c.maxDepth - level, 1, 0
  {
    var props := ReadablePublicProperties(g, g.heap(id).runtimeType);
    var start := ObjectOpening(c, g, id, level, pt, s);
    ObjectOpeningShifts(c, g, id, level, pt, s, front);
    ObjectPropertiesShifts(c, k, g, id, level, props, 0, start, level, front);
    AfterPropertiesShifts(ObjectProperties(c, k, g, id, level, props, 0, start, level), front);
  }

  lemma ObjectOpeningShifts(c: Config, g: Graph, id: NodeId, level: int, pt: Option<TypeId>, s: St, front: seq<Token>)
    ensures ObjectOpening(c, g, id, level, pt, Prefixed(front, s)) == Prefixed(front, ObjectOpening(c, g, id, level, pt, s))
  {
    var s1 := Emit(s, [Field("{")] + (if level > 0 then [EndLine(s.indent)] else []));
    EmitPrefixed(front, s, [Field("{")] + (if level > 0 then [EndLine(s.indent)] else []));
    var s2 := s1.(indent := s1.indent + 1);
    if ShowsType(c, g, id, pt) {
      EmitPrefixed(front, s2, [Field("type:"), Text(g.types(g.heap(id).runtimeType).displayName), Line(s2.indent)]);
    }
  }

  lemma AfterPropertiesShifts(walked: (St, int), front: seq<Token>)
    ensures AfterProperties(PrefixedResult(front, walked)) == PrefixedResult(front, AfterProperties(walked))
  {
    var w := walked.0;
    var w1 := Emit(w, if walked.1 > 1 then [EndLine(w.indent)] else []);
    EmitPrefixed(front, w, if walked.1 > 1 then [EndLine(w.indent)] else []);
    EmitPrefixed(front, w1.(indent := w1.indent - 1), [Field("}")]);
  }

  lemma {:induction false} ObjectPropertiesShifts(c: Config, k: Cleanup, g: Graph, id: NodeId, level: int,
                                                  props: seq<PropertyInfo>, i: nat, s: St, m: int, front: seq<Token>)
    requires WellFormedTypes(g) && level < c.maxDepth && i <= |props| && level <= m <= c.maxDepth
    ensures ObjectProperties(c, k, g, id, level, props, i, Prefixed(front, s), m)
            == PrefixedResult(front, ObjectProperties(c, k, g, id, level, props, i, s, m))
    decreases c.maxDepth - level, 0, |props| - i, 1
  {
    if i < |props| {
      OnePropertyShifts(c, k, g, id, level, props[i], s, m, front);
      var one := OneProperty(c, k, g, id, level, props[i], s, m);
      ObjectPropertiesShifts(c, k, g, id, level, props, i + 1, one.0, one.1, front);
    }
  }

  lemma {:induction false} OnePropertyShifts(c: Config, k: Cleanup, g: Graph, id: NodeId, level: int,
                                             p: PropertyInfo, s: St, m: int, front: seq<Token>)
    requires WellFormedTypes(g) && level < c.maxDepth && level <= m <= c.maxDepth
    ensures OneProperty(c, k, g, id, level, p, Prefixed(front, s), m)
            == PrefixedResult(front, OneProperty(c, k, g, id, level, p, s, m))
    decreases c.maxDepth - level, 0, 0, 0
  {
    var s1 := Emit(s, [Field(p.name)]);
    EmitPrefixed(front, s, [Field(p.name)]);
    if p.indexParameterCount > 0 {
      EmitPrefixed(front, s1, ErrorValue(false, IndexedPropertyMessage));
    } else {
      match g.heap(id).getValue(p)
      case Throws(text) =>
        EmitPrefixed(front, s1, ErrorValue(false, text));
      case Returns(v) =>
        var prefix := if c.includeTypeNames && !HasRuntimeType(g, v, p.propertyType)
          then [Text("("), Text(g.types(p.propertyType).displayName), Text(")")]
          else [];
        var s2 := Emit(s1, prefix + [Text(":")]);
        EmitPrefixed(front, s1, prefix + [Text(":")]);
        InnerShifts(c, k, g, v, level + 1, Some(p.propertyType), s2, front);
        var child := Inner(c, k, g, v, level + 1, Some(p.propertyType), s2);
        if child.1.Thrown? {
          EmitPrefixed(front, child.0, ErrorValue(true, child.1.text));
        }
    }
  }

  lemma {:induction false} AsDictionaryShifts(c: Config, k: Cleanup, g: Graph, id: NodeId, level: int,
                                              pt: Option<TypeId>, s: St, front: seq<Token>)
    requires WellFormedTypes(g) && level < c.maxDepth && g.heap(id).shape.Dictionary?
    ensures AsDictionary(c, k, g, id, level, pt, Prefixed(front, s)) == PrefixedResult(front, AsDictionary(c, k, g, id, level, pt, s))
    decreases c.maxDepth - level, 1, 0
  {
    var d := g.heap(id).shape;
    if |d.pairs| == 0 {
      EmitPrefixed(front, s, [Field("{}")]);
    } else {
      var start := DictionaryOpening(c, g, id, pt, s);
      DictionaryOpeningShifts(c, g, id, pt, s, front);
      DictionaryPairsShifts(c, k, g, id, level, 0, start, !ShowsType(c, g, id, pt), level, front);
      AfterPairsShifts(g, id, DictionaryPairs(c, k, g, id, level, 0, start, !ShowsType(c, g, id, pt), level), front);
    }
  }

  lemma DictionaryOpeningShifts(c: Config, g: Graph, id: NodeId, pt: Option<TypeId>, s: St, front: seq<Token>)
    ensures DictionaryOpening(c, g, id, pt, Prefixed(front, s)) == Prefixed(front, DictionaryOpening(c, g, id, pt, s))
  {
    var s1 := Emit(s, [Field("{")]);
    EmitPrefixed(front, s, [Field("{")]);
    var s2 := s1.(indent := s1.indent + 1);
    if ShowsType(c, g, id, pt) {
      EmitPrefixed(front, s2, [Field("type:"), Text(g.types(g.heap(id).runtimeType).displayName)]);
    }
  }

  lemma AfterPairsShifts(g: Graph, id: NodeId, walked: (St, Outcome), front: seq<Token>)
    requires g.heap(id).shape.Dictionary?
    ensures AfterPairs(g, id, PrefixedResult(front, walked)) == PrefixedResult(front, AfterPairs(g, id, walked))
  {
    var w := walked.0;
    EmitPrefixed(front, w, [EndLine(w.indent)]);
    var w1 := Emit(w, [EndLine(w.indent)]);
    EmitPrefixed(front, w1.(indent := w1.indent - 1), [Field("}")]);
  }

  lemma {:induction false} DictionaryPairsShifts(c: Config, k: Cleanup, g: Graph, id: NodeId, level: int,
                                                 i: nat, s: St, onFirstPair: bool, m: int, front: seq<Token>)
    requires WellFormedTypes(g) && level < c.maxDepth && g.heap(id).shape.Dictionary?
    requires i <= |g.heap(id).shape.pairs| && level <= m <= c.maxDepth
    ensures DictionaryPairs(c, k, g, id, level, i, Prefixed(front, s), onFirstPair, m)
            == PrefixedResult(front, DictionaryPairs(c, k, g, id, level, i, s, onFirstPair, m))
    decreases c.maxDepth - level, 0, |g.heap(id).shape.pairs| - i, 2
  {
    if i < |g.heap(id).shape.pairs| {
      var next, n, goesOn;
      if ShouldFormatAsPrimitive(g, g.heap(id).shape.pairs[i].0) {
        next, n, goesOn := PrimitivePairShifts(c, k, g, id, level, i, s, onFirstPair, m, front);
      } else {
        next, n, goesOn := ObjectPairShifts(c, k, g, id, level, i, s, onFirstPair, m, front);
      }
      if goesOn {
        DictionaryPairsShifts(c, k, g, id, level, i + 1, next, false, n, front);
      }
    }
  }

  /**
   * The `i`-th pair shifts: either the loop ends there, shifted, or it goes
   * on to the next pair from `next`, shifted or not alike.
   */
  lemma PrimitivePairShifts(c: Config, k: Cleanup, g: Graph, id: NodeId, level: int,
                   i: nat, s: St, onFirstPair: bool, m: int, front: seq<Token>)
    returns (next: St, n: int, goesOn: bool)
    requires WellFormedTypes(g) && level < c.maxDepth && g.heap(id).shape.Dictionary?
    requires i < |g.heap(id).shape.pairs| && level <= m <= c.maxDepth
    requires ShouldFormatAsPrimitive(g, g.heap(id).shape.pairs[i].0)
    ensures level <= n <= c.maxDepth
    ensures !goesOn ==> DictionaryPairs(c, k, g, id, level, i, Prefixed(front, s), onFirstPair, m)
                        == PrefixedResult(front, DictionaryPairs(c, k, g, id, level, i, s, onFirstPair, m))
    ensures goesOn ==>
      && DictionaryPairs(c, k, g, id, level, i, s, onFirstPair, m) == DictionaryPairs(c, k, g, id, level, i + 1, next, false, n)
      && DictionaryPairs(c, k, g, id, level, i, Prefixed(front, s), onFirstPair, m)
         == DictionaryPairs(c, k, g, id, level, i + 1, Prefixed(front, next), false, n)
    decreases c.maxDepth - level, 0, |g.heap(id).shape.pairs| - i, 1
  {
    var sep := (if onFirstPair then [] else [Text(",")]) + [EndLine(s.indent), Field("{")];
    EmitPrefixed(front, s, sep);
    var s1 := Emit(s, sep);
    var s2 := s1.(indent := s1.indent + 1);
    assert Emit(Prefixed(front, s), sep).(indent := s1.indent + 1) == Prefixed(front, s2);
    PrimitivePairUnfold(c, k, g, id, level, i, s, onFirstPair, m);
    PrimitivePairUnfold(c, k, g, id, level, i, Prefixed(front, s), onFirstPair, m);
    next, n, goesOn := PrimitiveKeyPairShifts(c, k, g, id, level, i, s2, m, front);
  }

  /** The same for a pair whose key is not primitive. */
  lemma ObjectPairShifts(c: Config, k: Cleanup, g: Graph, id: NodeId, level: int,
                   i: nat, s: St, onFirstPair: bool, m: int, front: seq<Token>)
    returns (next: St, n: int, goesOn: bool)
    requires WellFormedTypes(g) && level < c.maxDepth && g.heap(id).shape.Dictionary?
    requires i < |g.heap(id).shape.pairs| && level <= m <= c.maxDepth
    requires !ShouldFormatAsPrimitive(g, g.heap(id).shape.pairs[i].0)
    ensures level <= n <= c.maxDepth
    ensures !goesOn ==> DictionaryPairs(c, k, g, id, level, i, Prefixed(front, s), onFirstPair, m)
                        == PrefixedResult(front, DictionaryPairs(c, k, g, id, level, i, s, onFirstPair, m))
    ensures goesOn ==>
      && DictionaryPairs(c, k, g, id, level, i, s, onFirstPair, m) == DictionaryPairs(c, k, g, id, level, i + 1, next, false, n)
      && DictionaryPairs(c, k, g, id, level, i, Prefixed(front, s), onFirstPair, m)
         == DictionaryPairs(c, k, g, id, level, i + 1, Prefixed(front, next), false, n)
    decreases c.maxDepth - level, 0, |g.heap(id).shape.pairs| - i, 1
  {
    var sep := (if onFirstPair then [] else [Text(",")]) + [EndLine(s.indent), Field("{")];
    EmitPrefixed(front, s, sep);
    var s1 := Emit(s, sep);
    var s2 := s1.(indent := s1.indent + 1);
    assert Emit(Prefixed(front, s), sep).(indent := s1.indent + 1) == Prefixed(front, s2);
    ObjectPairUnfold(c, k, g, id, level, i, s, onFirstPair, m);
    ObjectPairUnfold(c, k, g, id, level, i, Prefixed(front, s), onFirstPair, m);
    next, n, goesOn := ObjectKeyPairShifts(c, k, g, id, level, i, s2, m, front);
  }

  /** One step of the pair loop at a primitive key: the line end and `{`, then `key:value`. */
  lemma PrimitivePairUnfold(c: Config, k: Cleanup, g: Graph, id: NodeId, level: int, i: nat, s: St, onFirstPair: bool, m: int)
    requires WellFormedTypes(g) && level < c.maxDepth && g.heap(id).shape.Dictionary?
    requires i < |g.heap(id).shape.pairs| && level <= m <= c.maxDepth
    requires ShouldFormatAsPrimitive(g, g.heap(id).shape.pairs[i].0)
    ensures var s1 := Emit(s, (if onFirstPair then [] else [Text(",")]) + [EndLine(s.indent), Field("{")]);
      DictionaryPairs(c, k, g, id, level, i, s, onFirstPair, m) == PrimitiveKeyPair(c, k, g, id, level, i, s1.(indent := s1.indent + 1), m)
  {
  }

  /** One step of the pair loop at a key that is not primitive: the line end and `{`, then `Key:` and `Value:`. */
  lemma ObjectPairUnfold(c: Config, k: Cleanup, g: Graph, id: NodeId, level: int, i: nat, s: St, onFirstPair: bool, m: int)
    requires WellFormedTypes(g) && level < c.maxDepth && g.heap(id).shape.Dictionary?
    requires i < |g.heap(id).shape.pairs| && level <= m <= c.maxDepth
    requires !ShouldFormatAsPrimitive(g, g.heap(id).shape.pairs[i].0)
    ensures var s1 := Emit(s, (if onFirstPair then [] else [Text(",")]) + [EndLine(s.indent), Field("{")]);
      DictionaryPairs(c, k, g, id, level, i, s, onFirstPair, m) == ObjectKeyPair(c, k, g, id, level, i, s1.(indent := s1.indent + 1), m)
  {
  }

  lemma PrimitiveKeyPairShifts(c: Config, k: Cleanup, g: Graph, id: NodeId, level: int,
                               i: nat, s: St, m: int, front: seq<Token>)
    returns (next: St, n: int, goesOn: bool)
    requires WellFormedTypes(g) && level < c.maxDepth && g.heap(id).shape.Dictionary?
    requires i < |g.heap(id).shape.pairs| && level <= m <= c.maxDepth
    requires ShouldFormatAsPrimitive(g, g.heap(id).shape.pairs[i].0)
    ensures level <= n <= c.maxDepth
    ensures !goesOn ==> PrimitiveKeyPair(c, k, g, id, level, i, Prefixed(front, s), m)
                        == PrefixedResult(front, PrimitiveKeyPair(c, k, g, id, level, i, s, m))
    ensures goesOn ==>
      && PrimitiveKeyPair(c, k, g, id, level, i, s, m) == DictionaryPairs(c, k, g, id, level, i + 1, next, false, n)
      && PrimitiveKeyPair(c, k, g, id, level, i, Prefixed(front, s), m)
         == DictionaryPairs(c, k, g, id, level, i + 1, Prefixed(front, next), false, n)
    decreases c.maxDepth - level, 0, |g.heap(id).shape.pairs| - i, 0
  {
    var d := g.heap(id).shape;
    var key := d.pairs[i].0;
    var s1 := Emit(s, [Text(s.delimiter)]);
    EmitPrefixed(front, s, [Text(s.delimiter)]);
    if key.To? {
      var s2 := Emit(s1, PrimitiveTokens(g.heap(key.id).shape.text) + [Text(":")]);
      EmitPrefixed(front, s1, PrimitiveTokens(g.heap(key.id).shape.text) + [Text(":")]);
      InnerShifts(c, k, g, d.pairs[i].1, level + 1, Some(d.valueType), s2, front);
      var child := Inner(c, k, g, d.pairs[i].1, level + 1, Some(d.valueType), s2);
      next, n, goesOn := PairEndShifts(c, k, g, id, level, i, child.0, child.1, m, front);
    } else {
      next, n, goesOn := s, m, false;
    }
  }

  lemma ObjectKeyPairShifts(c: Config, k: Cleanup, g: Graph, id: NodeId, level: int,
                            i: nat, s: St, m: int, front: seq<Token>)
    returns (next: St, n: int, goesOn: bool)
    requires WellFormedTypes(g) && level < c.maxDepth && g.heap(id).shape.Dictionary?
    requires i < |g.heap(id).shape.pairs| && level <= m <= c.maxDepth
    ensures level <= n <= c.maxDepth
    ensures !goesOn ==> ObjectKeyPair(c, k, g, id, level, i, Prefixed(front, s), m)
                        == PrefixedResult(front, ObjectKeyPair(c, k, g, id, level, i, s, m))
    ensures goesOn ==>
      && ObjectKeyPair(c, k, g, id, level, i, s, m) == DictionaryPairs(c, k, g, id, level, i + 1, next, false, n)
      && ObjectKeyPair(c, k, g, id, level, i, Prefixed(front, s), m)
         == DictionaryPairs(c, k, g, id, level, i + 1, Prefixed(front, next), false, n)
    decreases c.maxDepth - level, 0, |g.heap(id).shape.pairs| - i, 0
  {
    var d := g.heap(id).shape;
    var s1 := Emit(s, [Field("Key"), Text(":")]);
    EmitPrefixed(front, s, [Field("Key"), Text(":")]);
    InnerShifts(c, k, g, d.pairs[i].0, level + 1, Some(d.keyType), s1, front);
    var keyDone := Inner(c, k, g, d.pairs[i].0, level + 1, Some(d.keyType), s1);
    if keyDone.1.Normal? {
      var between := [Text(","), EndLine(keyDone.0.indent), Field("Value"), Text(":")];
      var s3 := Emit(keyDone.0, between);
      EmitPrefixed(front, keyDone.0, between);
      InnerShifts(c, k, g, d.pairs[i].1, level + 1, Some(d.valueType), s3, front);
      var valueDone := Inner(c, k, g, d.pairs[i].1, level + 1, Some(d.valueType), s3);
      next, n, goesOn := PairEndShifts(c, k, g, id, level, i, valueDone.0, valueDone.1, Max(m, keyDone.1.maxLevel), front);
    } else {
      next, n, goesOn := s, m, false;
    }
  }

  lemma PairEndShifts(c: Config, k: Cleanup, g: Graph, id: NodeId, level: int,
                      i: nat, s: St, out: Outcome, m: int, front: seq<Token>)
    returns (next: St, n: int, goesOn: bool)
    requires WellFormedTypes(g) && level < c.maxDepth && g.heap(id).shape.Dictionary?
    requires i < |g.heap(id).shape.pairs| && level <= m <= c.maxDepth
    requires out.Normal? ==> out.maxLevel <= c.maxDepth
    ensures level <= n <= c.maxDepth
    ensures !goesOn ==> PairEnd(c, k, g, id, level, i, Prefixed(front, s), out, m)
                        == PrefixedResult(front, PairEnd(c, k, g, id, level, i, s, out, m))
    ensures goesOn ==>
      && PairEnd(c, k, g, id, level, i, s, out, m) == DictionaryPairs(c, k, g, id, level, i + 1, next, false, n)
      && PairEnd(c, k, g, id, level, i, Prefixed(front, s), out, m)
         == DictionaryPairs(c, k, g, id, level, i + 1, Prefixed(front, next), false, n)
  {
    goesOn := out.Normal?;
    if goesOn {
      var value := g.heap(id).shape.pairs[i].1;
      var brk := if ShouldFormatAsPrimitive(g, value) then [] else [Line(s.indent)];
      var s1 := Emit(s, brk);
      EmitPrefixed(front, s, brk);
      var s2 := s1.(indent := s1.indent - 1);
      EmitPrefixed(front, s2, [Field("}")]);
      next, n := Emit(s2, [Field("}")]), Max(m, out.maxLevel);
    } else {
      next, n := s, m;
    }
  }

  lemma {:induction false} AsEnumerableShifts(c: Config, k: Cleanup, g: Graph, id: NodeId, level: int,
                                              s: St, front: seq<Token>)
    requires WellFormedTypes(g) && level < c.maxDepth && g.heap(id).shape.Enumerable?
    ensures AsEnumerable(c, k, g, id, level, Prefixed(front, s)) == PrefixedResult(front, AsEnumerable(c, k, g, id, level, s))
    decreases c.maxDepth - level, 1, 0
  {
    var e := g.heap(id).shape;
    var allPrimitive := AllPrimitive(g, e.elements);
    if |e.elements| == 0 {
      EmitPrefixed(front, s, [Field("[]")]);
    } else if !(allPrimitive && e.failure.Some?) {
      var s1 := Emit(s, [Field("[")]);
      EmitPrefixed(front, s, [Field("[")]);
      ElementsShifts(c, k, g, id, allPrimitive, level, 0, s1.(indent := s1.indent + 1), level, front);
      AfterElementsShifts(g, id, allPrimitive, Elements(c, k, g, id, allPrimitive, level, 0, s1.(indent := s1.indent + 1), level), front);
    }
  }

  lemma AfterElementsShifts(g: Graph, id: NodeId, allPrimitive: bool, walked: (St, Outcome), front: seq<Token>)
    requires g.heap(id).shape.Enumerable?
    ensures AfterElements(g, id, allPrimitive, PrefixedResult(front, walked)) == PrefixedResult(front, AfterElements(g, id, allPrimitive, walked))
  {
    var w := walked.0.(indent := walked.0.indent - 1);
    EmitPrefixed(front, w, (if allPrimitive then [] else [EndLine(w.indent)]) + [Field("]")]);
  }

  lemma {:induction false} ElementsShifts(c: Config, k: Cleanup, g: Graph, id: NodeId, allPrimitive: bool, level: int,
                                          i: nat, s: St, m: int, front: seq<Token>)
    requires WellFormedTypes(g) && level < c.maxDepth && g.heap(id).shape.Enumerable?
    requires i <= |g.heap(id).shape.elements| && level <= m <= c.maxDepth
    ensures Elements(c, k, g, id, allPrimitive, level, i, Prefixed(front, s), m)
            == PrefixedResult(front, Elements(c, k, g, id, allPrimitive, level, i, s, m))
    decreases c.maxDepth - level, 0, |g.heap(id).shape.elements| - i, 1
  {
    if i < |g.heap(id).shape.elements| {
      var next, n, goesOn := ElementShifts(c, k, g, id, allPrimitive, level, i, s, m, front);
      if goesOn {
        ElementsShifts(c, k, g, id, allPrimitive, level, i + 1, next, n, front);
      }
    }
  }

  /**
   * The `i`-th element shifts: either the loop ends there, shifted, or it
   * goes on to the next element from `next`, shifted or not alike.
   */
  lemma ElementShifts(c: Config, k: Cleanup, g: Graph, id: NodeId, allPrimitive: bool, level: int,
                      i: nat, s: St, m: int, front: seq<Token>)
    returns (next: St, n: int, goesOn: bool)
    requires WellFormedTypes(g) && level < c.maxDepth && g.heap(id).shape.Enumerable?
    requires i < |g.heap(id).shape.elements| && level <= m <= c.maxDepth
    ensures level <= n <= c.maxDepth
    ensures !goesOn ==> Elements(c, k, g, id, allPrimitive, level, i, Prefixed(front, s), m)
                        == PrefixedResult(front, Elements(c, k, g, id, allPrimitive, level, i, s, m))
    ensures goesOn ==>
      && Elements(c, k, g, id, allPrimitive, level, i, s, m) == Elements(c, k, g, id, allPrimitive, level, i + 1, next, n)
      && Elements(c, k, g, id, allPrimitive, level, i, Prefixed(front, s), m)
         == Elements(c, k, g, id, allPrimitive, level, i + 1, Prefixed(front, next), n)
    decreases c.maxDepth - level, 0, |g.heap(id).shape.elements| - i, 0
  {
    var elements := g.heap(id).shape.elements;
    var sep := (if i == 0 then [] else [Text(",")]) + (if allPrimitive then [] else [EndLine(s.indent)]);
    EmitPrefixed(front, s, sep);
    var s1 := Emit(s, sep);
    InnerShifts(c, k, g, elements[i], level + 1, None, s1, front);
    ElementsUnfold(c, k, g, id, allPrimitive, level, i, s, m);
    ElementsUnfold(c, k, g, id, allPrimitive, level, i, Prefixed(front, s), m);
    assert Prefixed(front, s).indent == s.indent;
    var child := Inner(c, k, g, elements[i], level + 1, None, s1);
    goesOn := child.1.Normal?;
    if goesOn {
      next, n := child.0, Max(m, child.1.maxLevel);
    } else {
      next, n := s, m;
    }
  }

  /** One step of the element loop: the `i`-th element, then the rest unless it threw. */
  lemma ElementsUnfold(c: Config, k: Cleanup, g: Graph, id: NodeId, allPrimitive: bool, level: int, i: nat, s: St, m: int)
    requires WellFormedTypes(g) && level < c.maxDepth && g.heap(id).shape.Enumerable?
    requires i < |g.heap(id).shape.elements| && level <= m <= c.maxDepth
    ensures var sep := (if i == 0 then [] else [Text(",")]) + (if allPrimitive then [] else [EndLine(s.indent)]);
      var child := Inner(c, k, g, g.heap(id).shape.elements[i], level + 1, None, Emit(s, sep));
      Elements(c, k, g, id, allPrimitive, level, i, s, m)
      == if child.1.Thrown? then child else Elements(c, k, g, id, allPrimitive, level, i + 1, child.0, Max(m, child.1.maxLevel))
  {
  }

  lemma Assoc(a: seq<Token>, b: seq<Token>, c: seq<Token>)
    ensures a + b + c == a + (b + c)
  {
  }

  lemma Regroup(a: seq<Token>, b: seq<Token>, c: seq<Token>, d: seq<Token>)
    ensures a + b + c + d == a + (b + c + d)
  {
    assert a + b + c + d == a + (b + c) + d;
  }

  /** Writing a pair's body, then stepping one indent out and writing its end, is writing both one indent out. */
  lemma StepOut(s: St, body: seq<Token>, close: seq<Token>)
    ensures Emit(Emit(s, body).(indent := s.indent - 1), close) == Emit(s.(indent := s.indent - 1), body + close)
  {
    Assoc(s.tokens, body, close);
  }

  /** A pair opened at `s`, written one indent deeper and stepped back out, is written at `s`. */
  lemma PairStep(s: St, open: seq<Token>, body: seq<Token>, close: seq<Token>)
    ensures var s2 := Emit(s, open).(indent := s.indent + 1);
      && Blank(s2) == Blank(s).(indent := s.indent + 1)
      && Blank(s2).(indent := s2.indent - 1) == Blank(s)
      && Emit(s2.(indent := s2.indent - 1), body + close) == Emit(s, open + body + close)
  {
    Assoc(s.tokens, open, body + close);
    Assoc(open, body, close);
  }

  /** The end of a pair, written after stepping one indent out, is written one indent out. */
  lemma CloseStep(s: St, brk: seq<Token>)
    ensures var s3 := Emit(Emit(s, brk).(indent := s.indent - 1), [Field("}")]);
      && Blank(s3) == Blank(s).(indent := s.indent - 1)
      && s3 == Emit(s.(indent := s.indent - 1), brk + [Field("}")])
  {
    Assoc(s.tokens, brk, [Field("}")]);
  }

  /** A collection opened at `s`, written one indent deeper, then closed on a line of its own, is written at `s`. */
  lemma BraceStep(s: St, open: seq<Token>, inner: seq<Token>)
    ensures var start := Emit(s, open).(indent := s.indent + 1);
      var w := Emit(start, inner);
      && Blank(start) == Blank(s).(indent := s.indent + 1)
      && Emit(Emit(w, [EndLine(w.indent)]).(indent := w.indent - 1), [Field("}")])
         == Emit(s, open + inner + [EndLine(s.indent + 1), Field("}")])
  {
    Regroup(s.tokens, open, inner, [EndLine(s.indent + 1), Field("}")]);
    Assoc(s.tokens + open + inner, [EndLine(s.indent + 1)], [Field("}")]);
  }

  /** What a value writes on its own when formatted at the place `at`. */
  function Own(c: Config, k: Cleanup, g: Graph, o: Ref, level: int, pt: Option<TypeId>, at: St): seq<Token>
    requires WellFormedTypes(g)
  {
    Inner(c, k, g, o, level, pt, Blank(at)).0.tokens
  }

  /**
   * A value's output is what the sink held followed by what the value
   * writes on its own, and how the call ends does not depend on the sink.
   */
  lemma InnerWritesOwn(c: Config, k: Cleanup, g: Graph, o: Ref, level: int, pt: Option<TypeId>, s: St)
    requires WellFormedTypes(g)
    ensures var r := Inner(c, k, g, o, level, pt, s);
      r.0.tokens == s.tokens + Own(c, k, g, o, level, pt, s) && r.1 == Inner(c, k, g, o, level, pt, Blank(s)).1
  {
    assert Prefixed(s.tokens, Blank(s)) == s;
    InnerShifts(c, k, g, o, level, pt, Blank(s), s.tokens);
  }

  /**
   * A nested value that returns normally leaves the sink as it found it
   * with its own tokens appended, and the lineage and indent as they were:
   * when either cleanup restores them, or when it is not descended into.
   */
  lemma ItemWritesOwn(c: Config, k: Cleanup, g: Graph, o: Ref, level: int, pt: Option<TypeId>, s: St)
    requires WellFormedTypes(g) && (Balanced(k, g) || ShouldFormatAsPrimitive(g, o))
    ensures var r := Inner(c, k, g, o, level, pt, s);
      r.1.Normal? ==> r.0 == Emit(s, Own(c, k, g, o, level, pt, s))
  {
    InnerWritesOwn(c, k, g, o, level, pt, s);
    if !Balanced(k, g) {
      LeafOnOneLine(c, k, g, o, level, pt, s);
    }
  }
  /**
   * A property whose getter returns `v`: its name, the `(<propertyType>)`
   * prefix when type names are on and `v`'s runtime type is not the
   * declared one (always so for null), `:`, then what `v` itself writes.
   * When formatting `v` throws, the exception follows what `v` wrote,
   * without a second `:`, and the running maximum is kept.
   */
  lemma OnePropertyLayout(c: Config, k: Cleanup, g: Graph, id: NodeId, level: int, p: PropertyInfo, s: St, m: int)
    requires WellFormedTypes(g) && level < c.maxDepth && level <= m <= c.maxDepth
    requires p.indexParameterCount == 0 && g.heap(id).getValue(p).Returns?
    ensures var v := g.heap(id).getValue(p).value;
      var prefix := if c.includeTypeNames && !HasRuntimeType(g, v, p.propertyType)
        then [Text("("), Text(g.types(p.propertyType).displayName), Text(")")]
        else [];
      var out := Inner(c, k, g, v, level + 1, Some(p.propertyType), Blank(s)).1;
      var r := OneProperty(c, k, g, id, level, p, s, m);
      && r.0.tokens == s.tokens + [Field(p.name)] + prefix + [Text(":")] + Own(c, k, g, v, level + 1, Some(p.propertyType), s)
                       + (if out.Normal? then [] else ErrorValue(true, out.text))
      && r.1 == (if out.Normal? then Max(m, out.maxLevel) else m)
  {
    var v := g.heap(id).getValue(p).value;
    var prefix := if c.includeTypeNames && !HasRuntimeType(g, v, p.propertyType)
      then [Text("("), Text(g.types(p.propertyType).displayName), Text(")")]
      else [];
    var s2 := Emit(Emit(s, [Field(p.name)]), prefix + [Text(":")]);
    assert Blank(s2) == Blank(s);
    InnerWritesOwn(c, k, g, v, level + 1, Some(p.propertyType), s2);
    assert s2.tokens == s.tokens + [Field(p.name)] + prefix + [Text(":")];
  }


  /**
   * What the element loop writes from the `i`-th element on, each element
   * at the place `at`: a comma before every element but the first, a line
   * end before each element unless all are primitive, and the element.
   */
  function ElementsWritten(c: Config, k: Cleanup, g: Graph, elements: seq<Ref>, allPrimitive: bool, level: int,
                           i: nat, at: St): seq<Token>
    requires WellFormedTypes(g)
    decreases |elements| - i
  {
    if i >= |elements| then []
    else ElementWritten(c, k, g, elements, allPrimitive, level, i, at)
         + ElementsWritten(c, k, g, elements, allPrimitive, level, i + 1, at)
  }

  /** What the element loop writes for the `i`-th element. */
  function ElementWritten(c: Config, k: Cleanup, g: Graph, elements: seq<Ref>, allPrimitive: bool, level: int,
                          i: nat, at: St): seq<Token>
    requires WellFormedTypes(g) && i < |elements|
  {
    (if i == 0 then [] else [Text(",")]) + (if allPrimitive then [] else [EndLine(at.indent)])
    + Own(c, k, g, elements[i], level + 1, None, at)
  }

  /** The element loop writes `ElementsWritten` whenever it returns normally and its elements restore the lineage. */
  lemma {:induction false} ElementsLayout(c: Config, k: Cleanup, g: Graph, id: NodeId, allPrimitive: bool, level: int,
                                          i: nat, s: St, m: int)
    requires WellFormedTypes(g) && level < c.maxDepth && g.heap(id).shape.Enumerable?
    requires i <= |g.heap(id).shape.elements| && level <= m <= c.maxDepth
    requires Balanced(k, g) || AllPrimitive(g, g.heap(id).shape.elements)
    ensures var r := Elements(c, k, g, id, allPrimitive, level, i, s, m);
      r.1.Normal? ==> r.0 == Emit(s, ElementsWritten(c, k, g, g.heap(id).shape.elements, allPrimitive, level, i, Blank(s)))
    decreases |g.heap(id).shape.elements| - i
  {
    var elements := g.heap(id).shape.elements;
    if i == |elements| {
      assert Emit(s, []) == s;
    } else {
      var next, n := ElementGoesOn(c, k, g, id, allPrimitive, level, i, s, m);
      ElementsLayout(c, k, g, id, allPrimitive, level, i + 1, next, n);
      if Elements(c, k, g, id, allPrimitive, level, i, s, m).1.Normal? {
        var sep := (if i == 0 then [] else [Text(",")]) + (if allPrimitive then [] else [EndLine(s.indent)]);
        var rest := ElementsWritten(c, k, g, elements, allPrimitive, level, i + 1, Blank(s));
        assert ElementsWritten(c, k, g, elements, allPrimitive, level, i, Blank(s))
               == ElementWritten(c, k, g, elements, allPrimitive, level, i, Blank(s)) + rest;
        assert ElementWritten(c, k, g, elements, allPrimitive, level, i, Blank(s))
               == sep + Own(c, k, g, elements[i], level + 1, None, s) by {
          assert Blank(Blank(s)) == Blank(s);
        }
        EmitTwice(s, ElementWritten(c, k, g, elements, allPrimitive, level, i, Blank(s)), rest);
      }
    }
  }

  /**
   * One element of a loop that returns normally: the loop goes on from the
   * sink with the element's separator and own tokens appended, at the same
   * indent and lineage.
   */
  lemma ElementGoesOn(c: Config, k: Cleanup, g: Graph, id: NodeId, allPrimitive: bool, level: int, i: nat, s: St, m: int)
    returns (next: St, n: int)
    requires WellFormedTypes(g) && level < c.maxDepth && g.heap(id).shape.Enumerable?
    requires i < |g.heap(id).shape.elements| && level <= m <= c.maxDepth
    requires Balanced(k, g) || AllPrimitive(g, g.heap(id).shape.elements)
    ensures level <= n <= c.maxDepth && Blank(next) == Blank(s)
    ensures var sep := (if i == 0 then [] else [Text(",")]) + (if allPrimitive then [] else [EndLine(s.indent)]);
      var r := Elements(c, k, g, id, allPrimitive, level, i, s, m);
      r.1.Normal? ==>
        && r == Elements(c, k, g, id, allPrimitive, level, i + 1, next, n)
        && next == Emit(s, sep + Own(c, k, g, g.heap(id).shape.elements[i], level + 1, None, s))
  {
    var elements := g.heap(id).shape.elements;
    var sep := (if i == 0 then [] else [Text(",")]) + (if allPrimitive then [] else [EndLine(s.indent)]);
    var s1 := Emit(s, sep);
    var child := Inner(c, k, g, elements[i], level + 1, None, s1);
    ElementsContinue(c, k, g, id, allPrimitive, level, i, s, m);
    if child.1.Normal? {
      ItemWritesOwn(c, k, g, elements[i], level + 1, None, s1);
      assert Blank(s1) == Blank(s);
      EmitTwice(s, sep, Own(c, k, g, elements[i], level + 1, None, s));
      next, n := child.0, Max(m, child.1.maxLevel);
    } else {
      next, n := s, m;
    }
  }

  /** A loop that returns normally went through its `i`-th element normally and went on from there. */
  lemma ElementsContinue(c: Config, k: Cleanup, g: Graph, id: NodeId, allPrimitive: bool, level: int, i: nat, s: St, m: int)
    requires WellFormedTypes(g) && level < c.maxDepth && g.heap(id).shape.Enumerable?
    requires i < |g.heap(id).shape.elements| && level <= m <= c.maxDepth
    ensures var sep := (if i == 0 then [] else [Text(",")]) + (if allPrimitive then [] else [EndLine(s.indent)]);
      var child := Inner(c, k, g, g.heap(id).shape.elements[i], level + 1, None, Emit(s, sep));
      var r := Elements(c, k, g, id, allPrimitive, level, i, s, m);
      r.1.Normal? ==> child.1.Normal? && r == Elements(c, k, g, id, allPrimitive, level, i + 1, child.0, Max(m, child.1.maxLevel))
  {
  }

  /**
   * An enumerable that is written without an exception escaping did not
   * fail to enumerate, and is written `[]` when empty; otherwise it is `[`,
   * the elements one indent deeper separated by commas, and `]`. When some
   * element is not primitive, every element and the closing bracket start
   * a line of their own.
   */
  lemma EnumerableLayout(c: Config, k: Cleanup, g: Graph, id: NodeId, level: int, s: St)
    requires WellFormedTypes(g) && level < c.maxDepth && g.heap(id).shape.Enumerable?
    requires Balanced(k, g) || AllPrimitive(g, g.heap(id).shape.elements)
    ensures var e := g.heap(id).shape;
      var allPrimitive := AllPrimitive(g, e.elements);
      var r := AsEnumerable(c, k, g, id, level, s);
      r.1.Normal? ==>
        && e.failure.None?
        && r.0 == Emit(s, if |e.elements| == 0 then [Field("[]")]
                          else [Field("[")]
                               + ElementsWritten(c, k, g, e.elements, allPrimitive, level, 0, Blank(s).(indent := s.indent + 1))
                               + (if allPrimitive then [] else [EndLine(s.indent)]) + [Field("]")])
  {
    var e := g.heap(id).shape;
    var allPrimitive := AllPrimitive(g, e.elements);
    if |e.elements| > 0 && !(allPrimitive && e.failure.Some?) {
      var s2 := Emit(s, [Field("[")]).(indent := s.indent + 1);
      ElementsLayout(c, k, g, id, allPrimitive, level, 0, s2, level);
      var walked := Elements(c, k, g, id, allPrimitive, level, 0, s2, level);
      if walked.1.Normal? && e.failure.None? {
        var written := ElementsWritten(c, k, g, e.elements, allPrimitive, level, 0, Blank(s2));
        var close := (if allPrimitive then [] else [EndLine(s.indent)]) + [Field("]")];
        assert Blank(s2) == Blank(s).(indent := s.indent + 1);
        assert walked.0 == s2.(tokens := s.tokens + [Field("[")] + written);
        var r := AsEnumerable(c, k, g, id, level, s);
        assert r.0 == Emit(walked.0.(indent := s.indent), close);
        Regroup(s.tokens, [Field("[")], written, close);
        assert r.0 == Emit(s, [Field("[")] + written + close);
      } else {
        assert AsEnumerable(c, k, g, id, level, s) == AfterElements(g, id, allPrimitive, walked);
      }
    }
  }

  /**
   * What one pair writes inside its braces, at the place `at`. A primitive
   * key: the delimiter, the key, a colon and the value; a null key throws
   * once the delimiter is written. Any other key: `Key:` and the key, a
   * comma, a line end, `Value:` and the value.
   */
  function PairBody(c: Config, k: Cleanup, g: Graph, id: NodeId, level: int, i: nat, at: St): seq<Token>
    requires WellFormedTypes(g) && g.heap(id).shape.Dictionary? && i < |g.heap(id).shape.pairs|
  {
    var d := g.heap(id).shape;
    var key := d.pairs[i].0;
    var value := Own(c, k, g, d.pairs[i].1, level + 1, Some(d.valueType), at);
    if !ShouldFormatAsPrimitive(g, key) then
      [Field("Key"), Text(":")] + Own(c, k, g, key, level + 1, Some(d.keyType), at)
      + [Text(","), EndLine(at.indent), Field("Value"), Text(":")] + value
    else if key.Null? then [Text(at.delimiter)]
    else [Text(at.delimiter)] + PrimitiveTokens(g.heap(key.id).shape.text) + [Text(":")] + value
  }

  /** What ends a pair: a line break after a value that is not primitive, then the closing brace. */
  function PairClose(g: Graph, id: NodeId, i: nat, indent: int): seq<Token>
    requires g.heap(id).shape.Dictionary? && i < |g.heap(id).shape.pairs|
  {
    (if ShouldFormatAsPrimitive(g, g.heap(id).shape.pairs[i].1) then [] else [Line(indent)]) + [Field("}")]
  }

  /**
   * What the pair loop writes from the `i`-th pair on, at the place `at`:
   * for each pair a comma unless it is the first, a line end, `{`, the
   * pair one indent deeper, and the pair's end.
   */
  function PairsWritten(c: Config, k: Cleanup, g: Graph, id: NodeId, level: int, i: nat, at: St, onFirstPair: bool): seq<Token>
    requires WellFormedTypes(g) && g.heap(id).shape.Dictionary?
    decreases |g.heap(id).shape.pairs| - i
  {
    if i >= |g.heap(id).shape.pairs| then []
    else PairWritten(c, k, g, id, level, i, at, onFirstPair) + PairsWritten(c, k, g, id, level, i + 1, at, false)
  }

  /** What the pair loop writes for the `i`-th pair: a comma unless it is the first, a line end, `{`, the body one indent deeper, and the end. */
  function PairWritten(c: Config, k: Cleanup, g: Graph, id: NodeId, level: int, i: nat, at: St, onFirstPair: bool): seq<Token>
    requires WellFormedTypes(g) && g.heap(id).shape.Dictionary? && i < |g.heap(id).shape.pairs|
  {
    (if onFirstPair then [] else [Text(",")]) + [EndLine(at.indent), Field("{")]
    + PairBody(c, k, g, id, level, i, at.(indent := at.indent + 1)) + PairClose(g, id, i, at.indent + 1)
  }

  /** Every key and value of the pairs is null or primitive. */
  predicate PrimitivePairs(g: Graph, pairs: seq<(Ref, Ref)>)
  {
    forall j | 0 <= j < |pairs| :: ShouldFormatAsPrimitive(g, pairs[j].0) && ShouldFormatAsPrimitive(g, pairs[j].1)
  }

  /** The items of a dictionary hand the lineage back as they found it. */
  ghost predicate PairsRestore(k: Cleanup, g: Graph, id: NodeId)
    requires g.heap(id).shape.Dictionary?
  {
    Balanced(k, g) || PrimitivePairs(g, g.heap(id).shape.pairs)
  }

  lemma {:induction false} DictionaryPairsLayout(c: Config, k: Cleanup, g: Graph, id: NodeId, level: int,
                                                 i: nat, s: St, onFirstPair: bool, m: int)
    requires WellFormedTypes(g) && level < c.maxDepth && g.heap(id).shape.Dictionary? && PairsRestore(k, g, id)
    requires i <= |g.heap(id).shape.pairs| && level <= m <= c.maxDepth
    ensures var r := DictionaryPairs(c, k, g, id, level, i, s, onFirstPair, m);
      r.1.Normal? ==> r.0 == Emit(s, PairsWritten(c, k, g, id, level, i, Blank(s), onFirstPair))
    decreases |g.heap(id).shape.pairs| - i
  {
    if i == |g.heap(id).shape.pairs| {
      assert Emit(s, []) == s;
    } else {
      var next, n := PairWritesOn(c, k, g, id, level, i, s, onFirstPair, m);
      DictionaryPairsLayout(c, k, g, id, level, i + 1, next, false, n);
      if DictionaryPairs(c, k, g, id, level, i, s, onFirstPair, m).1.Normal? {
        var rest := PairsWritten(c, k, g, id, level, i + 1, Blank(s), false);
        assert PairsWritten(c, k, g, id, level, i, Blank(s), onFirstPair)
               == PairWritten(c, k, g, id, level, i, Blank(s), onFirstPair) + rest;
        PairWrittenAt(c, k, g, id, level, i, s, onFirstPair);
        EmitTwice(s, PairWritten(c, k, g, id, level, i, Blank(s), onFirstPair), rest);
      }
    }
  }

  /** The `i`-th pair's tokens at a blank copy of the sink, in terms of the sink's own indent. */
  lemma PairWrittenAt(c: Config, k: Cleanup, g: Graph, id: NodeId, level: int, i: nat, s: St, onFirstPair: bool)
    requires WellFormedTypes(g) && g.heap(id).shape.Dictionary? && i < |g.heap(id).shape.pairs|
    ensures PairWritten(c, k, g, id, level, i, Blank(s), onFirstPair)
            == (if onFirstPair then [] else [Text(",")]) + [EndLine(s.indent), Field("{")]
               + PairBody(c, k, g, id, level, i, Blank(s).(indent := s.indent + 1)) + PairClose(g, id, i, s.indent + 1)
  {
  }

  /**
   * One pair of a loop that returns normally: the loop goes on to the next
   * pair from the sink with the pair's line end, `{`, body and end
   * appended, at the same indent and lineage.
   */
  lemma PairWritesOn(c: Config, k: Cleanup, g: Graph, id: NodeId, level: int, i: nat, s: St, onFirstPair: bool, m: int)
    returns (next: St, n: int)
    requires WellFormedTypes(g) && level < c.maxDepth && g.heap(id).shape.Dictionary? && PairsRestore(k, g, id)
    requires i < |g.heap(id).shape.pairs| && level <= m <= c.maxDepth
    ensures level <= n <= c.maxDepth && Blank(next) == Blank(s)
    ensures var open := (if onFirstPair then [] else [Text(",")]) + [EndLine(s.indent), Field("{")];
      var r := DictionaryPairs(c, k, g, id, level, i, s, onFirstPair, m);
      r.1.Normal? ==>
        && r == DictionaryPairs(c, k, g, id, level, i + 1, next, false, n)
        && next == Emit(s, open + PairBody(c, k, g, id, level, i, Blank(s).(indent := s.indent + 1)) + PairClose(g, id, i, s.indent + 1))
  {
    var d := g.heap(id).shape;
    var open := (if onFirstPair then [] else [Text(",")]) + [EndLine(s.indent), Field("{")];
    var s2 := Emit(s, open).(indent := s.indent + 1);
    PairStep(s, open, PairBody(c, k, g, id, level, i, Blank(s2)), PairClose(g, id, i, s2.indent));
    if ShouldFormatAsPrimitive(g, d.pairs[i].0) {
      PrimitivePairUnfold(c, k, g, id, level, i, s, onFirstPair, m);
      next, n := PrimitiveKeyPairLayout(c, k, g, id, level, i, s2, m);
    } else {
      ObjectPairUnfold(c, k, g, id, level, i, s, onFirstPair, m);
      next, n := ObjectKeyPairLayout(c, k, g, id, level, i, s2, m);
    }
  }

  /**
   * A pair with a primitive key that is written normally: its body, then
   * its end one indent out, and the loop goes on to the next pair from there.
   */
  lemma PrimitiveKeyPairLayout(c: Config, k: Cleanup, g: Graph, id: NodeId, level: int, i: nat, s: St, m: int)
    returns (next: St, n: int)
    requires WellFormedTypes(g) && level < c.maxDepth && g.heap(id).shape.Dictionary? && PairsRestore(k, g, id)
    requires i < |g.heap(id).shape.pairs| && level <= m <= c.maxDepth
    requires ShouldFormatAsPrimitive(g, g.heap(id).shape.pairs[i].0)
    ensures level <= n <= c.maxDepth && Blank(next) == Blank(s).(indent := s.indent - 1)
    ensures var r := PrimitiveKeyPair(c, k, g, id, level, i, s, m);
      r.1.Normal? ==>
        && r == DictionaryPairs(c, k, g, id, level, i + 1, next, false, n)
        && next == Emit(s.(indent := s.indent - 1), PairBody(c, k, g, id, level, i, Blank(s)) + PairClose(g, id, i, s.indent))
  {
    var d := g.heap(id).shape;
    next, n := s.(indent := s.indent - 1), m;
    if PrimitiveKeyPair(c, k, g, id, level, i, s, m).1.Normal? {
      PrimitiveKeyPairBody(c, k, g, id, level, i, s, m);
      var child := Inner(c, k, g, d.pairs[i].1, level + 1, Some(d.valueType),
                         Emit(s, [Text(s.delimiter)] + PrimitiveTokens(g.heap(d.pairs[i].0.id).shape.text) + [Text(":")]));
      var body := PairBody(c, k, g, id, level, i, Blank(s));
      assert Blank(Emit(s, body)) == Blank(s);
      next, n := PairEndLayout(c, k, g, id, level, i, Emit(s, body), child.1, m);
      StepOut(s, body, PairClose(g, id, i, s.indent));
    }
  }

  /** A pair with a primitive key that is written normally reaches the pair's end with its body written. */
  lemma PrimitiveKeyPairBody(c: Config, k: Cleanup, g: Graph, id: NodeId, level: int, i: nat, s: St, m: int)
    requires WellFormedTypes(g) && level < c.maxDepth && g.heap(id).shape.Dictionary? && PairsRestore(k, g, id)
    requires i < |g.heap(id).shape.pairs| && level <= m <= c.maxDepth
    requires ShouldFormatAsPrimitive(g, g.heap(id).shape.pairs[i].0)
    ensures var d := g.heap(id).shape;
      var r := PrimitiveKeyPair(c, k, g, id, level, i, s, m);
      r.1.Normal? ==>
        && d.pairs[i].0.To?
        && var s2 := Emit(s, [Text(s.delimiter)] + PrimitiveTokens(g.heap(d.pairs[i].0.id).shape.text) + [Text(":")]);
           var child := Inner(c, k, g, d.pairs[i].1, level + 1, Some(d.valueType), s2);
           r == PairEnd(c, k, g, id, level, i, Emit(s, PairBody(c, k, g, id, level, i, Blank(s))), child.1, m)
  {
    var d := g.heap(id).shape;
    var key := d.pairs[i].0;
    var value := d.pairs[i].1;
    var r := PrimitiveKeyPair(c, k, g, id, level, i, s, m);
    if r.1.Normal? {
      PrimitiveKeyPairContinue(c, k, g, id, level, i, s, m);
      var keyTokens := [Text(s.delimiter)] + PrimitiveTokens(g.heap(key.id).shape.text) + [Text(":")];
      var s2 := Emit(s, keyTokens);
      var child := Inner(c, k, g, value, level + 1, Some(d.valueType), s2);
      var own := Own(c, k, g, value, level + 1, Some(d.valueType), s);
      assert child.0 == Emit(s2, own) by {
        ItemWritesOwn(c, k, g, value, level + 1, Some(d.valueType), s2);
        assert Blank(s2) == Blank(s);
      }
      assert PairBody(c, k, g, id, level, i, Blank(s)) == keyTokens + own by {
        assert Blank(Blank(s)) == Blank(s);
      }
      EmitTwice(s, keyTokens, own);
    }
  }

  /** A pair with a primitive key that is written normally has a key that is not null, and goes on to the pair's end after the value. */
  lemma PrimitiveKeyPairContinue(c: Config, k: Cleanup, g: Graph, id: NodeId, level: int, i: nat, s: St, m: int)
    requires WellFormedTypes(g) && level < c.maxDepth && g.heap(id).shape.Dictionary?
    requires i < |g.heap(id).shape.pairs| && level <= m <= c.maxDepth
    requires ShouldFormatAsPrimitive(g, g.heap(id).shape.pairs[i].0)
    ensures var d := g.heap(id).shape;
      var r := PrimitiveKeyPair(c, k, g, id, level, i, s, m);
      r.1.Normal? ==>
        && d.pairs[i].0.To?
        && var s2 := Emit(s, [Text(s.delimiter)] + PrimitiveTokens(g.heap(d.pairs[i].0.id).shape.text) + [Text(":")]);
           var child := Inner(c, k, g, d.pairs[i].1, level + 1, Some(d.valueType), s2);
           r == PairEnd(c, k, g, id, level, i, child.0, child.1, m)
  {
    var d := g.heap(id).shape;
    if d.pairs[i].0.To? {
      var text := PrimitiveTokens(g.heap(d.pairs[i].0.id).shape.text);
      assert Emit(Emit(s, [Text(s.delimiter)]), text + [Text(":")]) == Emit(s, [Text(s.delimiter)] + text + [Text(":")]);
    }
  }

  /**
   * A pair with a key that is not primitive that is written normally: its
   * body, then its end one indent out, and the loop goes on to the next
   * pair from there.
   */
  lemma ObjectKeyPairLayout(c: Config, k: Cleanup, g: Graph, id: NodeId, level: int, i: nat, s: St, m: int)
    returns (next: St, n: int)
    requires WellFormedTypes(g) && level < c.maxDepth && g.heap(id).shape.Dictionary? && PairsRestore(k, g, id)
    requires i < |g.heap(id).shape.pairs| && level <= m <= c.maxDepth
    requires !ShouldFormatAsPrimitive(g, g.heap(id).shape.pairs[i].0)
    ensures level <= n <= c.maxDepth && Blank(next) == Blank(s).(indent := s.indent - 1)
    ensures var r := ObjectKeyPair(c, k, g, id, level, i, s, m);
      r.1.Normal? ==>
        && r == DictionaryPairs(c, k, g, id, level, i + 1, next, false, n)
        && next == Emit(s.(indent := s.indent - 1), PairBody(c, k, g, id, level, i, Blank(s)) + PairClose(g, id, i, s.indent))
  {
    var d := g.heap(id).shape;
    next, n := s.(indent := s.indent - 1), m;
    if ObjectKeyPair(c, k, g, id, level, i, s, m).1.Normal? {
      assert Balanced(k, g);
      ObjectKeyPairBody(c, k, g, id, level, i, s, m);
      var keyDone := Inner(c, k, g, d.pairs[i].0, level + 1, Some(d.keyType), Emit(s, [Field("Key"), Text(":")]));
      var s3 := Emit(keyDone.0, [Text(","), EndLine(keyDone.0.indent), Field("Value"), Text(":")]);
      var valueDone := Inner(c, k, g, d.pairs[i].1, level + 1, Some(d.valueType), s3);
      var body := PairBody(c, k, g, id, level, i, Blank(s));
      assert Blank(Emit(s, body)) == Blank(s);
      next, n := PairEndLayout(c, k, g, id, level, i, Emit(s, body), valueDone.1, Max(m, keyDone.1.maxLevel));
      StepOut(s, body, PairClose(g, id, i, s.indent));
    }
  }

  /** A pair with a key that is not primitive that is written normally reaches the pair's end with its body written. */
  lemma ObjectKeyPairBody(c: Config, k: Cleanup, g: Graph, id: NodeId, level: int, i: nat, s: St, m: int)
    requires WellFormedTypes(g) && level < c.maxDepth && g.heap(id).shape.Dictionary? && Balanced(k, g)
    requires i < |g.heap(id).shape.pairs| && level <= m <= c.maxDepth
    requires !ShouldFormatAsPrimitive(g, g.heap(id).shape.pairs[i].0)
    ensures var d := g.heap(id).shape;
      var keyDone := Inner(c, k, g, d.pairs[i].0, level + 1, Some(d.keyType), Emit(s, [Field("Key"), Text(":")]));
      var s3 := Emit(keyDone.0, [Text(","), EndLine(keyDone.0.indent), Field("Value"), Text(":")]);
      var valueDone := Inner(c, k, g, d.pairs[i].1, level + 1, Some(d.valueType), s3);
      var r := ObjectKeyPair(c, k, g, id, level, i, s, m);
      r.1.Normal? ==>
        && keyDone.1.Normal?
        && r == PairEnd(c, k, g, id, level, i, Emit(s, PairBody(c, k, g, id, level, i, Blank(s))), valueDone.1, Max(m, keyDone.1.maxLevel))
  {
    var d := g.heap(id).shape;
    var key := d.pairs[i].0;
    var value := d.pairs[i].1;
    var r := ObjectKeyPair(c, k, g, id, level, i, s, m);
    if r.1.Normal? {
      ObjectKeyPairContinue(c, k, g, id, level, i, s, m);
      var keyOpen := [Field("Key"), Text(":")];
      var s1 := Emit(s, keyOpen);
      var keyDone := Inner(c, k, g, key, level + 1, Some(d.keyType), s1);
      var ownKey := Own(c, k, g, key, level + 1, Some(d.keyType), s);
      assert keyDone.0 == Emit(s1, ownKey) by {
        ItemWritesOwn(c, k, g, key, level + 1, Some(d.keyType), s1);
        assert Blank(s1) == Blank(s);
      }
      var between := [Text(","), EndLine(s.indent), Field("Value"), Text(":")];
      var s3 := Emit(keyDone.0, between);
      var valueDone := Inner(c, k, g, value, level + 1, Some(d.valueType), s3);
      var ownValue := Own(c, k, g, value, level + 1, Some(d.valueType), s);
      assert valueDone.0 == Emit(s3, ownValue) by {
        ItemWritesOwn(c, k, g, value, level + 1, Some(d.valueType), s3);
        assert Blank(s3) == Blank(s);
      }
      assert PairBody(c, k, g, id, level, i, Blank(s)) == keyOpen + ownKey + between + ownValue by {
        assert Blank(Blank(s)) == Blank(s);
      }
      EmitTwice(s, keyOpen, ownKey);
      EmitTwice(s, keyOpen + ownKey, between);
      EmitTwice(s, keyOpen + ownKey + between, ownValue);
    }
  }

  /** A pair with a key that is not primitive that is written normally wrote its key normally and goes on to the pair's end after the value. */
  lemma ObjectKeyPairContinue(c: Config, k: Cleanup, g: Graph, id: NodeId, level: int, i: nat, s: St, m: int)
    requires WellFormedTypes(g) && level < c.maxDepth && g.heap(id).shape.Dictionary?
    requires i < |g.heap(id).shape.pairs| && level <= m <= c.maxDepth
    ensures var d := g.heap(id).shape;
      var keyDone := Inner(c, k, g, d.pairs[i].0, level + 1, Some(d.keyType), Emit(s, [Field("Key"), Text(":")]));
      var r := ObjectKeyPair(c, k, g, id, level, i, s, m);
      r.1.Normal? ==>
        && keyDone.1.Normal?
        && var s3 := Emit(keyDone.0, [Text(","), EndLine(keyDone.0.indent), Field("Value"), Text(":")]);
           var valueDone := Inner(c, k, g, d.pairs[i].1, level + 1, Some(d.valueType), s3);
           r == PairEnd(c, k, g, id, level, i, valueDone.0, valueDone.1, Max(m, keyDone.1.maxLevel))
  {
  }

  /**
   * The end of a pair that goes on normally: the value was written
   * normally, the pair's closing tokens follow one indent out, and the loop
   * goes on to the next pair from there.
   */
  lemma PairEndLayout(c: Config, k: Cleanup, g: Graph, id: NodeId, level: int, i: nat, s: St, out: Outcome, m: int)
    returns (next: St, n: int)
    requires WellFormedTypes(g) && level < c.maxDepth && g.heap(id).shape.Dictionary?
    requires i < |g.heap(id).shape.pairs| && level <= m <= c.maxDepth
    requires out.Normal? ==> out.maxLevel <= c.maxDepth
    ensures level <= n <= c.maxDepth && Blank(next) == Blank(s).(indent := s.indent - 1)
    ensures var r := PairEnd(c, k, g, id, level, i, s, out, m);
      r.1.Normal? ==>
        && out.Normal?
        && r == DictionaryPairs(c, k, g, id, level, i + 1, next, false, n)
        && next == Emit(s.(indent := s.indent - 1), PairClose(g, id, i, s.indent))
  {
    next, n := s.(indent := s.indent - 1), m;
    if PairEnd(c, k, g, id, level, i, s, out, m).1.Normal? {
      PairEndContinue(c, k, g, id, level, i, s, out, m);
      var brk := if ShouldFormatAsPrimitive(g, g.heap(id).shape.pairs[i].1) then [] else [Line(s.indent)];
      CloseStep(s, brk);
      next, n := Emit(Emit(s, brk).(indent := s.indent - 1), [Field("}")]), Max(m, out.maxLevel);
    }
  }

  /**
   * A dictionary that is written without an exception escaping did not
   * fail to enumerate, and is written `{}` when empty; otherwise it is `{`,
   * the optional `type:` announcement, the pairs one indent deeper, then a
   * line end and `}`.
   */
  lemma DictionaryLayout(c: Config, k: Cleanup, g: Graph, id: NodeId, level: int, pt: Option<TypeId>, s: St)
    requires WellFormedTypes(g) && level < c.maxDepth && g.heap(id).shape.Dictionary? && PairsRestore(k, g, id)
    ensures var d := g.heap(id).shape;
      var r := AsDictionary(c, k, g, id, level, pt, s);
      r.1.Normal? ==>
        && d.failure.None?
        && r.0 == Emit(s, if |d.pairs| == 0 then [Field("{}")]
                          else [Field("{")]
                               + (if ShowsType(c, g, id, pt) then [Field("type:"), Text(g.types(g.heap(id).runtimeType).displayName)] else [])
                               + PairsWritten(c, k, g, id, level, 0, Blank(s).(indent := s.indent + 1), !ShowsType(c, g, id, pt))
                               + [EndLine(s.indent + 1), Field("}")])
  {
    var d := g.heap(id).shape;
    if |d.pairs| > 0 {
      var announce := if ShowsType(c, g, id, pt) then [Field("type:"), Text(g.types(g.heap(id).runtimeType).displayName)] else [];
      var open := [Field("{")] + announce;
      var start := DictionaryOpening(c, g, id, pt, s);
      assert start == Emit(s, open).(indent := s.indent + 1);
      var walked := DictionaryPairs(c, k, g, id, level, 0, start, !ShowsType(c, g, id, pt), level);
      var pairs := PairsWritten(c, k, g, id, level, 0, Blank(s).(indent := s.indent + 1), !ShowsType(c, g, id, pt));
      BraceStep(s, open, pairs);
      if walked.1.Normal? && d.failure.None? {
        assert walked.0 == Emit(start, pairs) by {
          DictionaryPairsLayout(c, k, g, id, level, 0, start, !ShowsType(c, g, id, pt), level);
        }
        assert AsDictionary(c, k, g, id, level, pt, s) == AfterPairs(g, id, walked);
      } else {
        assert AsDictionary(c, k, g, id, level, pt, s) == AfterPairs(g, id, walked);
      }
    }
  }

  /** A pair's end that goes on normally had a value written normally, and goes on to the next pair one indent out. */
  lemma PairEndContinue(c: Config, k: Cleanup, g: Graph, id: NodeId, level: int, i: nat, s: St, out: Outcome, m: int)
    requires WellFormedTypes(g) && level < c.maxDepth && g.heap(id).shape.Dictionary?
    requires i < |g.heap(id).shape.pairs| && level <= m <= c.maxDepth
    requires out.Normal? ==> out.maxLevel <= c.maxDepth
    ensures var brk := if ShouldFormatAsPrimitive(g, g.heap(id).shape.pairs[i].1) then [] else [Line(s.indent)];
      var r := PairEnd(c, k, g, id, level, i, s, out, m);
      r.1.Normal? ==>
        && out.Normal?
        && r == DictionaryPairs(c, k, g, id, level, i + 1, Emit(Emit(s, brk).(indent := s.indent - 1), [Field("}")]), false, Max(m, out.maxLevel))
  {
  }

  /**
   * The pairs from the `i`-th on are walked normally only when none of
   * their keys is null: a null key reaches `FormatAsPrimitive`, which
   * throws.
   */
  lemma {:induction false} NormalPairsHaveKeys(c: Config, k: Cleanup, g: Graph, id: NodeId, level: int,
                                               i: nat, s: St, onFirstPair: bool, m: int)
    requires WellFormedTypes(g) && level < c.maxDepth && g.heap(id).shape.Dictionary?
    requires i <= |g.heap(id).shape.pairs| && level <= m <= c.maxDepth
    ensures var pairs := g.heap(id).shape.pairs;
      DictionaryPairs(c, k, g, id, level, i, s, onFirstPair, m).1.Normal? ==> forall j | i <= j < |pairs| :: pairs[j].0.To?
    decreases |g.heap(id).shape.pairs| - i
  {
    var d := g.heap(id).shape;
    if i < |d.pairs| && DictionaryPairs(c, k, g, id, level, i, s, onFirstPair, m).1.Normal? {
      var s3, m3 := PairGoesOn(c, k, g, id, level, i, s, onFirstPair, m);
      NormalPairsHaveKeys(c, k, g, id, level, i + 1, s3, false, m3);
    }
  }

  /** A pair loop that returns normally wrote its `i`-th pair, whose key is present, and went on to the next from some place. */
  lemma PairGoesOn(c: Config, k: Cleanup, g: Graph, id: NodeId, level: int, i: nat, s: St, onFirstPair: bool, m: int)
    returns (next: St, n: int)
    requires WellFormedTypes(g) && level < c.maxDepth && g.heap(id).shape.Dictionary?
    requires i < |g.heap(id).shape.pairs| && level <= m <= c.maxDepth
    ensures level <= n <= c.maxDepth
    ensures var r := DictionaryPairs(c, k, g, id, level, i, s, onFirstPair, m);
      r.1.Normal? ==> g.heap(id).shape.pairs[i].0.To? && r == DictionaryPairs(c, k, g, id, level, i + 1, next, false, n)
  {
    var d := g.heap(id).shape;
    var s2 := Emit(s, (if onFirstPair then [] else [Text(",")]) + [EndLine(s.indent), Field("{")]).(indent := s.indent + 1);
    if ShouldFormatAsPrimitive(g, d.pairs[i].0) {
      PrimitivePairUnfold(c, k, g, id, level, i, s, onFirstPair, m);
      next, n := PrimitivePairGoesOn(c, k, g, id, level, i, s2, m);
    } else {
      ObjectPairUnfold(c, k, g, id, level, i, s, onFirstPair, m);
      next, n := ObjectPairGoesOn(c, k, g, id, level, i, s2, m);
    }
  }

  /** A pair with a primitive key that is written normally has a present key and goes on to the next pair from some place. */
  lemma PrimitivePairGoesOn(c: Config, k: Cleanup, g: Graph, id: NodeId, level: int, i: nat, s: St, m: int)
    returns (next: St, n: int)
    requires WellFormedTypes(g) && level < c.maxDepth && g.heap(id).shape.Dictionary?
    requires i < |g.heap(id).shape.pairs| && level <= m <= c.maxDepth
    requires ShouldFormatAsPrimitive(g, g.heap(id).shape.pairs[i].0)
    ensures level <= n <= c.maxDepth
    ensures var r := PrimitiveKeyPair(c, k, g, id, level, i, s, m);
      r.1.Normal? ==> g.heap(id).shape.pairs[i].0.To? && r == DictionaryPairs(c, k, g, id, level, i + 1, next, false, n)
  {
    var d := g.heap(id).shape;
    next, n := s, m;
    if PrimitiveKeyPair(c, k, g, id, level, i, s, m).1.Normal? {
      PrimitiveKeyPairContinue(c, k, g, id, level, i, s, m);
      var child := Inner(c, k, g, d.pairs[i].1, level + 1, Some(d.valueType),
                         Emit(s, [Text(s.delimiter)] + PrimitiveTokens(g.heap(d.pairs[i].0.id).shape.text) + [Text(":")]));
      PairEndContinue(c, k, g, id, level, i, child.0, child.1, m);
      var brk := if ShouldFormatAsPrimitive(g, d.pairs[i].1) then [] else [Line(child.0.indent)];
      next, n := Emit(Emit(child.0, brk).(indent := child.0.indent - 1), [Field("}")]), Max(m, child.1.maxLevel);
    }
  }

  /** A pair with a key that is not primitive that is written normally goes on to the next pair from some place. */
  lemma ObjectPairGoesOn(c: Config, k: Cleanup, g: Graph, id: NodeId, level: int, i: nat, s: St, m: int)
    returns (next: St, n: int)
    requires WellFormedTypes(g) && level < c.maxDepth && g.heap(id).shape.Dictionary?
    requires i < |g.heap(id).shape.pairs| && level <= m <= c.maxDepth
    ensures level <= n <= c.maxDepth
    ensures var r := ObjectKeyPair(c, k, g, id, level, i, s, m);
      r.1.Normal? ==> r == DictionaryPairs(c, k, g, id, level, i + 1, next, false, n)
  {
    var d := g.heap(id).shape;
    next, n := s, m;
    if ObjectKeyPair(c, k, g, id, level, i, s, m).1.Normal? {
      ObjectKeyPairContinue(c, k, g, id, level, i, s, m);
      var keyDone := Inner(c, k, g, d.pairs[i].0, level + 1, Some(d.keyType), Emit(s, [Field("Key"), Text(":")]));
      var valueDone := Inner(c, k, g, d.pairs[i].1, level + 1, Some(d.valueType),
                             Emit(keyDone.0, [Text(","), EndLine(keyDone.0.indent), Field("Value"), Text(":")]));
      var m2 := Max(m, keyDone.1.maxLevel);
      PairEndContinue(c, k, g, id, level, i, valueDone.0, valueDone.1, m2);
      var brk := if ShouldFormatAsPrimitive(g, d.pairs[i].1) then [] else [Line(valueDone.0.indent)];
      next, n := Emit(Emit(valueDone.0, brk).(indent := valueDone.0.indent - 1), [Field("}")]), Max(m2, valueDone.1.maxLevel);
    }
  }

  /**
   * What the pair loop writes when every key is primitive and present and
   * every value is primitive or null, from the `i`-th pair on: for each
   * pair a comma unless it is the first, a line end, then `{`, the
   * delimiter, the key, `:`, the value's leaf text and `}` on that line.
   */
  function PrimitivePairsWritten(c: Config, g: Graph, pairs: seq<(Ref, Ref)>, level: int, i: nat, at: St, onFirstPair: bool): seq<Token>
    requires PrimitivePairs(g, pairs) && forall j | i <= j < |pairs| :: pairs[j].0.To?
    decreases |pairs| - i
  {
    if i >= |pairs| then []
    else PrimitivePairWritten(c, g, pairs, level, i, at, onFirstPair) + PrimitivePairsWritten(c, g, pairs, level, i + 1, at, false)
  }

  /** One pair of `PrimitivePairsWritten`. */
  function PrimitivePairWritten(c: Config, g: Graph, pairs: seq<(Ref, Ref)>, level: int, i: nat, at: St, onFirstPair: bool): seq<Token>
    requires PrimitivePairs(g, pairs) && i < |pairs| && pairs[i].0.To?
  {
    (if onFirstPair then [] else [Text(",")]) + [EndLine(at.indent), Field("{"), Text(at.delimiter)]
    + PrimitiveTokens(g.heap(pairs[i].0.id).shape.text) + [Text(":")]
    + LeafTokens(c, g, pairs[i].1, level + 1, at.lineage) + [Field("}")]
  }

  /** A primitive or null value writes its leaf text on its own. */
  lemma LeafOwn(c: Config, k: Cleanup, g: Graph, o: Ref, level: int, pt: Option<TypeId>, at: St)
    requires WellFormedTypes(g) && ShouldFormatAsPrimitive(g, o)
    ensures Own(c, k, g, o, level, pt, at) == LeafTokens(c, g, o, level, at.lineage)
  {
    LeafOnOneLine(c, k, g, o, level, pt, Blank(at));
    assert [] + LeafTokens(c, g, o, level, at.lineage) == LeafTokens(c, g, o, level, at.lineage);
  }

  /** With every key present and primitive and every value primitive or null, the pair loop's output is `PrimitivePairsWritten`. */
  lemma {:induction false} PrimitivePairsExact(c: Config, k: Cleanup, g: Graph, id: NodeId, level: int, i: nat, at: St, onFirstPair: bool)
    requires WellFormedTypes(g) && g.heap(id).shape.Dictionary? && PrimitivePairs(g, g.heap(id).shape.pairs)
    requires forall j | i <= j < |g.heap(id).shape.pairs| :: g.heap(id).shape.pairs[j].0.To?
    ensures PairsWritten(c, k, g, id, level, i, at, onFirstPair)
            == PrimitivePairsWritten(c, g, g.heap(id).shape.pairs, level, i, at, onFirstPair)
    decreases |g.heap(id).shape.pairs| - i
  {
    var d := g.heap(id).shape;
    if i < |d.pairs| {
      PrimitivePairSame(c, k, g, id, level, i, at, onFirstPair);
      PrimitivePairsExact(c, k, g, id, level, i + 1, at, false);
    }
  }

  /** A pair with a present primitive key and a primitive or null value is written as `PrimitivePairWritten` says. */
  lemma PrimitivePairSame(c: Config, k: Cleanup, g: Graph, id: NodeId, level: int, i: nat, at: St, onFirstPair: bool)
    requires WellFormedTypes(g) && g.heap(id).shape.Dictionary? && PrimitivePairs(g, g.heap(id).shape.pairs)
    requires i < |g.heap(id).shape.pairs| && g.heap(id).shape.pairs[i].0.To?
    ensures PairWritten(c, k, g, id, level, i, at, onFirstPair)
            == PrimitivePairWritten(c, g, g.heap(id).shape.pairs, level, i, at, onFirstPair)
  {
    var d := g.heap(id).shape;
    PrimitivePairPieces(c, k, g, id, level, i, at.(indent := at.indent + 1));
    PairTokensRegroup(if onFirstPair then [] else [Text(",")], EndLine(at.indent), Text(at.delimiter),
                      PrimitiveTokens(g.heap(d.pairs[i].0.id).shape.text),
                      LeafTokens(c, g, d.pairs[i].1, level + 1, at.lineage));
  }

  /** A pair with a present primitive key and a primitive or null value: its body is the delimiter, the key, `:` and the value's leaf text, and its end is `}`. */
  lemma PrimitivePairPieces(c: Config, k: Cleanup, g: Graph, id: NodeId, level: int, i: nat, at: St)
    requires WellFormedTypes(g) && g.heap(id).shape.Dictionary? && PrimitivePairs(g, g.heap(id).shape.pairs)
    requires i < |g.heap(id).shape.pairs| && g.heap(id).shape.pairs[i].0.To?
    ensures var d := g.heap(id).shape;
      && PairBody(c, k, g, id, level, i, at)
         == [Text(at.delimiter)] + PrimitiveTokens(g.heap(d.pairs[i].0.id).shape.text) + [Text(":")]
            + LeafTokens(c, g, d.pairs[i].1, level + 1, at.lineage)
      && PairClose(g, id, i, at.indent) == [Field("}")]
  {
    var d := g.heap(id).shape;
    LeafOwn(c, k, g, d.pairs[i].1, level + 1, Some(d.valueType), at);
  }

  /** Regrouping one primitive pair's tokens. */
  lemma PairTokensRegroup(sep: seq<Token>, endLine: Token, delimiter: Token, keyText: seq<Token>, leaf: seq<Token>)
    ensures sep + [endLine, Field("{")] + ([delimiter] + keyText + [Text(":")] + leaf) + [Field("}")]
            == sep + [endLine, Field("{"), delimiter] + keyText + [Text(":")] + leaf + [Field("}")]
  {
    assert [endLine, Field("{")] + [delimiter] == [endLine, Field("{"), delimiter];
    assert sep + [endLine, Field("{")] + ([delimiter] + keyText + [Text(":")] + leaf)
           == sep + [endLine, Field("{"), delimiter] + keyText + [Text(":")] + leaf;
  }

  /**
   * A dictionary whose keys and values are all primitive or null, written
   * without an exception escaping, has no null key and is written exactly:
   * `{}` when empty, otherwise `{`, the optional `type:` announcement, each
   * pair on a line of its own as `{` delimiter key `:` value `}`, then a
   * line end and `}`.
   */
  lemma PrimitiveDictionaryLayout(c: Config, k: Cleanup, g: Graph, id: NodeId, level: int, pt: Option<TypeId>, s: St)
    requires WellFormedTypes(g) && level < c.maxDepth && g.heap(id).shape.Dictionary? && PrimitivePairs(g, g.heap(id).shape.pairs)
    ensures var d := g.heap(id).shape;
      var r := AsDictionary(c, k, g, id, level, pt, s);
      r.1.Normal? ==>
        && d.failure.None?
        && (forall j | 0 <= j < |d.pairs| :: d.pairs[j].0.To?)
        && r.0 == Emit(s, if |d.pairs| == 0 then [Field("{}")]
                          else [Field("{")]
                               + (if ShowsType(c, g, id, pt) then [Field("type:"), Text(g.types(g.heap(id).runtimeType).displayName)] else [])
                               + PrimitivePairsWritten(c, g, d.pairs, level, 0, Blank(s).(indent := s.indent + 1), !ShowsType(c, g, id, pt))
                               + [EndLine(s.indent + 1), Field("}")])
  {
    var d := g.heap(id).shape;
    var r := AsDictionary(c, k, g, id, level, pt, s);
    DictionaryLayout(c, k, g, id, level, pt, s);
    if r.1.Normal? && |d.pairs| > 0 {
      var start := DictionaryOpening(c, g, id, pt, s);
      var walked := DictionaryPairs(c, k, g, id, level, 0, start, !ShowsType(c, g, id, pt), level);
      assert r == AfterPairs(g, id, walked);
      NormalPairsHaveKeys(c, k, g, id, level, 0, start, !ShowsType(c, g, id, pt), level);
      PrimitivePairsExact(c, k, g, id, level, 0, Blank(s).(indent := s.indent + 1), !ShowsType(c, g, id, pt));
    }
  }

  /**
   * The pre-scan of an enumerable whose enumeration fails runs to the end,
   * and so raises the failure before anything is written, exactly when
   * every element is primitive or null; otherwise `[` is written first. In
   * both cases the failure or an element's exception escapes.
   */
  lemma PrescanDecides(c: Config, k: Cleanup, g: Graph, id: NodeId, level: int, s: St)
    requires WellFormedTypes(g) && level < c.maxDepth && g.heap(id).shape.Enumerable? && g.heap(id).shape.failure.Some?
    ensures var e := g.heap(id).shape;
      var r := AsEnumerable(c, k, g, id, level, s);
      && r.1.Thrown?
      && (AllPrimitive(g, e.elements) ==> r == (s, Thrown(e.failure.value)))
      && (!AllPrimitive(g, e.elements) ==> s.tokens + [Field("[")] <= r.0.tokens)
  {
    var e := g.heap(id).shape;
    if !AllPrimitive(g, e.elements) {
      var s2 := Emit(s, [Field("[")]).(indent := s.indent + 1);
      assert Prefixed(s2.tokens, Blank(s2)) == s2;
      ElementsShifts(c, k, g, id, false, level, 0, Blank(s2), level, s2.tokens);
      var walked := Elements(c, k, g, id, false, level, 0, s2, level);
      assert AsEnumerable(c, k, g, id, level, s) == AfterElements(g, id, false, walked);
    }
  }
}
