/**
 * What the missing `finally` in `InnerFormatObject` changes.
 *
 * The lineage entry pushed for an object and the indent saved before it
 * are restored only when the object's formatting returns normally. When
 * an exception escapes a collection and is caught at the property that
 * holds it, the entry stays on the stack and the indent stays raised. The
 * first group of lemmas shows that this is harmless while no exception
 * escapes; the second exhibits a graph where it changes the output.
 */
module CleanupProperties {
  import opened ObjectGraph
  import opened Sink
  import opened ReflectionExtensions
  import opened RenderSpec

  /** With no exception escaping any collection, both cleanups write the same thing. */
  lemma {:induction false} InnerAgrees(c: Config, g: Graph, o: Ref, level: int, pt: Option<TypeId>, s: St)
    requires WellFormedTypes(g) && Faultless(g)
    ensures Inner(c, AsWritten, g, o, level, pt, s) == Inner(c, Finally, g, o, level, pt, s)
    decreases c.maxDepth - level, 3, 0
  {
    if o.To? && level < c.maxDepth && o.id !in s.lineage && !ShouldFormatAsPrimitive(g, o) {
      RenderAgrees(c, g, o.id, level, pt, s.(lineage := [o.id] + s.lineage));
    }
  }

  lemma {:induction false} RenderAgrees(c: Config, g: Graph, id: NodeId, level: int, pt: Option<TypeId>, s: St)
    requires WellFormedTypes(g) && Faultless(g) && level < c.maxDepth && !g.heap(id).shape.Primitive?
    ensures Render(c, AsWritten, g, id, level, pt, s) == Render(c, Finally, g, id, level, pt, s)
    decreases c.maxDepth - level, 2, 0
  {
    match g.heap(id).shape
    case Dictionary(_, _, _, _) => AsDictionaryAgrees(c, g, id, level, pt, s);
    case Enumerable(_, _) => AsEnumerableAgrees(c, g, id, level, s);
    case Plain =>
      ObjectPropertiesAgrees(c, g, id, level, ReadablePublicProperties(g, g.heap(id).runtimeType), 0,
                             ObjectOpening(c, g, id, level, pt, s), level);
  }

  lemma {:induction false} ObjectPropertiesAgrees(c: Config, g: Graph, id: NodeId, level: int,
                                                  props: seq<PropertyInfo>, i: nat, s: St, m: int)
    requires WellFormedTypes(g) && Faultless(g) && level < c.maxDepth && i <= |props| && level <= m <= c.maxDepth
    ensures ObjectProperties(c, AsWritten, g, id, level, props, i, s, m)
            == ObjectProperties(c, Finally, g, id, level, props, i, s, m)
    decreases c.maxDepth - level, 0, |props| - i, 1
  {
    if i < |props| {
      OnePropertyAgrees(c, g, id, level, props[i], s, m);
      var one := OneProperty(c, AsWritten, g, id, level, props[i], s, m);
      ObjectPropertiesAgrees(c, g, id, level, props, i + 1, one.0, one.1);
    }
  }

  lemma {:induction false} OnePropertyAgrees(c: Config, g: Graph, id: NodeId, level: int, p: PropertyInfo, s: St, m: int)
    requires WellFormedTypes(g) && Faultless(g) && level < c.maxDepth && level <= m <= c.maxDepth
    ensures OneProperty(c, AsWritten, g, id, level, p, s, m) == OneProperty(c, Finally, g, id, level, p, s, m)
    decreases c.maxDepth - level, 0, 0, 0
  {
    if p.indexParameterCount == 0 && g.heap(id).getValue(p).Returns? {
      var v := g.heap(id).getValue(p).value;
      var prefix := if c.includeTypeNames && !HasRuntimeType(g, v, p.propertyType)
        then [Text("("), Text(g.types(p.propertyType).displayName), Text(")")]
        else [];
      InnerAgrees(c, g, v, level + 1, Some(p.propertyType), Emit(Emit(s, [Field(p.name)]), prefix + [Text(":")]));
    }
  }

  lemma {:induction false} AsDictionaryAgrees(c: Config, g: Graph, id: NodeId, level: int, pt: Option<TypeId>, s: St)
    requires WellFormedTypes(g) && Faultless(g) && level < c.maxDepth && g.heap(id).shape.Dictionary?
    ensures AsDictionary(c, AsWritten, g, id, level, pt, s) == AsDictionary(c, Finally, g, id, level, pt, s)
    decreases c.maxDepth - level, 1, 0
  {
    if |g.heap(id).shape.pairs| > 0 {
      DictionaryPairsAgrees(c, g, id, level, 0, DictionaryOpening(c, g, id, pt, s), !ShowsType(c, g, id, pt), level);
    }
  }

  lemma {:induction false} DictionaryPairsAgrees(c: Config, g: Graph, id: NodeId, level: int,
                                                 i: nat, s: St, onFirstPair: bool, m: int)
    requires WellFormedTypes(g) && Faultless(g) && level < c.maxDepth && g.heap(id).shape.Dictionary?
    requires i <= |g.heap(id).shape.pairs| && level <= m <= c.maxDepth
    ensures DictionaryPairs(c, AsWritten, g, id, level, i, s, onFirstPair, m)
            == DictionaryPairs(c, Finally, g, id, level, i, s, onFirstPair, m)
    decreases c.maxDepth - level, 0, |g.heap(id).shape.pairs| - i, 3
  {
    var d := g.heap(id).shape;
    if i < |d.pairs| {
      var s1 := Emit(s, (if onFirstPair then [] else [Text(",")]) + [EndLine(s.indent), Field("{")]);
      var s2 := s1.(indent := s1.indent + 1);
      if ShouldFormatAsPrimitive(g, d.pairs[i].0) {
        PrimitiveKeyPairAgrees(c, g, id, level, i, s2, m);
      } else {
        ObjectKeyPairAgrees(c, g, id, level, i, s2, m);
      }
    }
  }

  lemma {:induction false} PrimitiveKeyPairAgrees(c: Config, g: Graph, id: NodeId, level: int, i: nat, s: St, m: int)
    requires WellFormedTypes(g) && Faultless(g) && level < c.maxDepth && g.heap(id).shape.Dictionary?
    requires i < |g.heap(id).shape.pairs| && level <= m <= c.maxDepth
    requires ShouldFormatAsPrimitive(g, g.heap(id).shape.pairs[i].0)
    ensures PrimitiveKeyPair(c, AsWritten, g, id, level, i, s, m) == PrimitiveKeyPair(c, Finally, g, id, level, i, s, m)
    decreases c.maxDepth - level, 0, |g.heap(id).shape.pairs| - i, 2
  {
    var d := g.heap(id).shape;
    var key := d.pairs[i].0;
    assert NodeFaultless(g.heap(id));
    var s2 := Emit(Emit(s, [Text(s.delimiter)]), PrimitiveTokens(g.heap(key.id).shape.text) + [Text(":")]);
    InnerAgrees(c, g, d.pairs[i].1, level + 1, Some(d.valueType), s2);
    var child := Inner(c, AsWritten, g, d.pairs[i].1, level + 1, Some(d.valueType), s2);
    PairEndAgrees(c, g, id, level, i, child.0, child.1, m);
  }

  lemma {:induction false} ObjectKeyPairAgrees(c: Config, g: Graph, id: NodeId, level: int, i: nat, s: St, m: int)
    requires WellFormedTypes(g) && Faultless(g) && level < c.maxDepth && g.heap(id).shape.Dictionary?
    requires i < |g.heap(id).shape.pairs| && level <= m <= c.maxDepth
    ensures ObjectKeyPair(c, AsWritten, g, id, level, i, s, m) == ObjectKeyPair(c, Finally, g, id, level, i, s, m)
    decreases c.maxDepth - level, 0, |g.heap(id).shape.pairs| - i, 2
  {
    var d := g.heap(id).shape;
    var s1 := Emit(s, [Field("Key"), Text(":")]);
    InnerAgrees(c, g, d.pairs[i].0, level + 1, Some(d.keyType), s1);
    var keyDone := Inner(c, AsWritten, g, d.pairs[i].0, level + 1, Some(d.keyType), s1);
    var s3 := Emit(keyDone.0, [Text(","), EndLine(keyDone.0.indent), Field("Value"), Text(":")]);
    InnerAgrees(c, g, d.pairs[i].1, level + 1, Some(d.valueType), s3);
    var valueDone := Inner(c, AsWritten, g, d.pairs[i].1, level + 1, Some(d.valueType), s3);
    PairEndAgrees(c, g, id, level, i, valueDone.0, valueDone.1, Max(m, keyDone.1.maxLevel));
  }

  lemma {:induction false} PairEndAgrees(c: Config, g: Graph, id: NodeId, level: int, i: nat, s: St, out: Outcome, m: int)
    requires WellFormedTypes(g) && Faultless(g) && level < c.maxDepth && g.heap(id).shape.Dictionary?
    requires i < |g.heap(id).shape.pairs| && level <= m <= c.maxDepth
    requires out.Normal? ==> out.maxLevel <= c.maxDepth
    ensures PairEnd(c, AsWritten, g, id, level, i, s, out, m) == PairEnd(c, Finally, g, id, level, i, s, out, m)
    decreases c.maxDepth - level, 0, |g.heap(id).shape.pairs| - i, 1
  {
    if out.Normal? {
      var value := g.heap(id).shape.pairs[i].1;
      var s1 := Emit(s, if ShouldFormatAsPrimitive(g, value) then [] else [Line(s.indent)]);
      var s2 := s1.(indent := s1.indent - 1);
      DictionaryPairsAgrees(c, g, id, level, i + 1, Emit(s2, [Field("}")]), false, Max(m, out.maxLevel));
    }
  }

  lemma {:induction false} AsEnumerableAgrees(c: Config, g: Graph, id: NodeId, level: int, s: St)
    requires WellFormedTypes(g) && Faultless(g) && level < c.maxDepth && g.heap(id).shape.Enumerable?
    ensures AsEnumerable(c, AsWritten, g, id, level, s) == AsEnumerable(c, Finally, g, id, level, s)
    decreases c.maxDepth - level, 1, 0
  {
    var s1 := Emit(s, [Field("[")]);
    ElementsAgrees(c, g, id, AllPrimitive(g, g.heap(id).shape.elements), level, 0, s1.(indent := s1.indent + 1), level);
  }

  lemma {:induction false} ElementsAgrees(c: Config, g: Graph, id: NodeId, allPrimitive: bool, level: int,
                                          i: nat, s: St, m: int)
    requires WellFormedTypes(g) && Faultless(g) && level < c.maxDepth && g.heap(id).shape.Enumerable?
    requires i <= |g.heap(id).shape.elements| && level <= m <= c.maxDepth
    ensures Elements(c, AsWritten, g, id, allPrimitive, level, i, s, m)
            == Elements(c, Finally, g, id, allPrimitive, level, i, s, m)
    decreases c.maxDepth - level, 0, |g.heap(id).shape.elements| - i
  {
    var elements := g.heap(id).shape.elements;
    if i < |elements| {
      var s1 := ElementPrefix(i, allPrimitive, s);
      InnerAgrees(c, g, elements[i], level + 1, None, s1);
      var child := Inner(c, AsWritten, g, elements[i], level + 1, None, s1);
      ElementStep(c, AsWritten, g, id, allPrimitive, level, i, s, m);
      ElementStep(c, Finally, g, id, allPrimitive, level, i, s, m);
      ElementsAgrees(c, g, id, allPrimitive, level, i + 1, child.0, Max(m, child.1.maxLevel));
    }
  }

  /** What `FormatAsEnumerable` writes before the `i`-th element. */
  function ElementPrefix(i: nat, allPrimitive: bool, s: St): St
  {
    Emit(s, (if i == 0 then [] else [Text(",")]) + (if allPrimitive then [] else [EndLine(s.indent)]))
  }

  /** On a graph where no enumeration fails and no dictionary key is null, the element loop moves on to the next element. */
  lemma ElementStep(c: Config, k: Cleanup, g: Graph, id: NodeId, allPrimitive: bool, level: int,
                    i: nat, s: St, m: int)
    requires WellFormedTypes(g) && Faultless(g) && level < c.maxDepth && g.heap(id).shape.Enumerable?
    requires i < |g.heap(id).shape.elements| && level <= m <= c.maxDepth
    ensures var child := Inner(c, k, g, g.heap(id).shape.elements[i], level + 1, None, ElementPrefix(i, allPrimitive, s));
      && child.1.Normal?
      && Elements(c, k, g, id, allPrimitive, level, i, s, m)
         == Elements(c, k, g, id, allPrimitive, level, i + 1, child.0, Max(m, child.1.maxLevel))
  {
  }

  /** The top-level call: as written and with `finally`, the same output whenever nothing escapes. */
  lemma FormatObjectAgrees(c: Config, g: Graph, o: Ref, s: St)
    requires WellFormedTypes(g) && Faultless(g)
    ensures FormatObject(c, AsWritten, g, o, s) == FormatObject(c, Finally, g, o, s)
  {
    InnerAgrees(c, g, o, 0, None, s);
  }

  /*
   * A graph where the missing `finally` shows. Object 0 is a plain object
   * with two properties, `P1` and `P2`, both returning object 1. Object 1
   * is a collection whose only element is object 2 (a plain object without
   * properties) and whose enumeration throws "boom" after that element.
   */

  const P1: PropertyInfo := PropertyInfo("P1", 1, PublicGetter, 0)
  const P2: PropertyInfo := PropertyInfo("P2", 1, PublicGetter, 0)

  function DemoType(t: TypeId): TypeDecl
  {
    if t == 0 then TypeDecl("Holder", "Demo.Holder", None, [P1, P2], [P1, P2])
    else TypeDecl("Item", "Demo.Item", None, [], [])
  }

  function DemoNode(n: NodeId): Node
  {
    if n == 0 then Node(0, p => Returns(To(1)), Plain)
    else if n == 1 then Node(1, p => Throws("no properties"), Enumerable([To(2)], Some("boom")))
    else Node(1, p => Throws("no properties"), Plain)
  }

  const Demo: Graph := Graph(DemoType, DemoNode)
  const DemoConfig: Config := Config(false, DefaultMaxDepth)

  /** What formatting the throwing collection writes before the exception: the bracket and the empty element. */
  const CollectionTokens: seq<Token> :=
    [Field("["), EndLine(2), Field("{"), EndLine(2), EndLine(3), Field("}")]

  /** What the `catch` around each property writes for the exception. */
  const BoomTokens: seq<Token> := [Text("!("), Text("boom"), Text(")!")]

  lemma DemoWellFormed()
    ensures WellFormedTypes(Demo)
  {
    forall t: TypeId
      ensures Demo.types(t).baseType.None?
    {
    }
  }

  /** The element, object 2, at level 2: an empty object on lines of its own. */
  lemma DemoElement(k: Cleanup, s: St)
    requires WellFormedTypes(Demo) && s.indent == 2 && 2 !in s.lineage
    ensures Inner(DemoConfig, k, Demo, To(2), 2, None, s)
            == (Emit(s, [Field("{"), EndLine(2), EndLine(3), Field("}")]), Normal(2))
  {
    var pushed := s.(lineage := [2] + s.lineage);
    assert ReadablePublicProperties(Demo, 1) == [];
    var s3 := ObjectOpening(DemoConfig, Demo, 2, 2, None, pushed);
    assert s3 == Emit(pushed, [Field("{"), EndLine(2)]).(indent := 3);
    assert ObjectProperties(DemoConfig, k, Demo, 2, 2, [], 0, s3, 2) == (s3, 2);
    var closed := AfterProperties((s3, 2));
    assert closed.0.tokens == pushed.tokens + [Field("{"), EndLine(2), EndLine(3), Field("}")];
    assert closed.0.indent == 2;
    assert AsObject(DemoConfig, k, Demo, 2, 2, None, pushed) == closed;
  }

  /**
   * The collection, object 1, at level 1: it writes its element and then
   * throws. As written, its lineage entry and the raised indent remain.
   */
  lemma DemoCollection(k: Cleanup, s: St)
    requires WellFormedTypes(Demo) && s.indent == 1 && 1 !in s.lineage && 2 !in s.lineage
    ensures Inner(DemoConfig, k, Demo, To(1), 1, Some(1), s)
            == (if k == AsWritten
                then St(s.tokens + CollectionTokens, 2, [1] + s.lineage, s.delimiter)
                else St(s.tokens + CollectionTokens, 1, s.lineage, s.delimiter),
                Thrown("boom"))
  {
    var pushed := s.(lineage := [1] + s.lineage);
    var s2 := Emit(pushed, [Field("[")]).(indent := 2);
    assert !AllPrimitive(Demo, [To(2)]) by {
      assert !ShouldFormatAsPrimitive(Demo, [To(2)][0]);
    }
    var s1 := Emit(s2, [] + [EndLine(2)]);
    DemoElement(k, s1);
    var element := Inner(DemoConfig, k, Demo, To(2), 2, None, s1);
    assert Elements(DemoConfig, k, Demo, 1, false, 1, 1, element.0, 2) == (element.0, Normal(2));
    assert Elements(DemoConfig, k, Demo, 1, false, 1, 0, s2, 1) == (element.0, Normal(2));
    assert element.0.tokens == s.tokens + CollectionTokens;
    assert Render(DemoConfig, k, Demo, 1, 1, Some(1), pushed) == (element.0, Thrown("boom"));
  }

  /**
   * The missing `finally`, exhibited. Formatting object 0 as written
   * writes `(Parent 0)` for `P2`, although the collection it names is not
   * an ancestor of `P2`'s value but a leftover of `P1`'s failed
   * formatting; the stale entry is then popped in place of object 0, which
   * stays behind. With the entry released on every exit, `P2`'s value is
   * formatted (and fails) just like `P1`'s, and the lineage ends empty.
   */
  lemma StaleLineageCounterexample(delimiter: string)
    ensures WellFormedTypes(Demo)
    ensures Inner(DemoConfig, AsWritten, Demo, To(0), 0, None, St([], 0, [], delimiter))
            == (St([Field("{"), Field("P1"), Text(":")] + CollectionTokens + BoomTokens
                   + [Field("P2"), Text(":"), Text("(Parent 0)"), Field("}")], 0, [0], delimiter),
                Normal(1))
    ensures Inner(DemoConfig, Finally, Demo, To(0), 0, None, St([], 0, [], delimiter))
            == (St([Field("{"), Field("P1"), Text(":")] + CollectionTokens + BoomTokens
                   + [Field("P2"), Text(":")] + CollectionTokens + BoomTokens + [Field("}")], 0, [], delimiter),
                Normal(0))
  {
    DemoWellFormed();
    DemoHolder(AsWritten, delimiter);
    DemoHolder(Finally, delimiter);
  }

  /** A property of object 0 whose value, the collection, is formatted afresh: it fails, and the failure is written. */
  lemma DemoFailingProperty(k: Cleanup, p: PropertyInfo, s: St)
    requires WellFormedTypes(Demo) && p in [P1, P2] && s.indent == 1 && s.lineage == [0]
    ensures OneProperty(DemoConfig, k, Demo, 0, 0, p, s, 0)
            == (St(s.tokens + [Field(p.name), Text(":")] + CollectionTokens + BoomTokens,
                   if k == AsWritten then 2 else 1,
                   if k == AsWritten then [1, 0] else [0],
                   s.delimiter),
                0)
  {
    var s2 := Emit(Emit(s, [Field(p.name)]), [] + [Text(":")]);
    assert s2 == s.(tokens := s.tokens + [Field(p.name), Text(":")]);
    assert p.indexParameterCount == 0 && p.propertyType == 1;
    assert Demo.heap(0).getValue(p) == Returns(To(1));
    DemoCollection(k, s2);
    var child := Inner(DemoConfig, k, Demo, To(1), 1, Some(1), s2);
    assert child.1 == Thrown("boom");
    assert ErrorValue(true, "boom") == BoomTokens;
    assert Emit(child.0, BoomTokens).tokens == s.tokens + [Field(p.name), Text(":")] + CollectionTokens + BoomTokens;
    assert [1] + s.lineage == [1, 0];
    assert OneProperty(DemoConfig, k, Demo, 0, 0, p, s, 0) == (Emit(child.0, BoomTokens), 0);
  }

  /** A property of object 0 whose value, the collection, is still on the lineage: the parent marker is written. */
  lemma DemoRevisitedProperty(p: PropertyInfo, s: St)
    requires WellFormedTypes(Demo) && p in [P1, P2] && s.lineage == [1, 0]
    ensures OneProperty(DemoConfig, AsWritten, Demo, 0, 0, p, s, 0)
            == (Emit(s, [Field(p.name), Text(":"), Text("(Parent 0)")]), 1)
  {
    var s2 := Emit(Emit(s, [Field(p.name)]), [] + [Text(":")]);
    assert p.indexParameterCount == 0 && p.propertyType == 1;
    assert Demo.heap(0).getValue(p) == Returns(To(1));
    assert FirstIndex(s2.lineage, 1) == 0;
    assert ParentMarker(0) == "(Parent 0)" by {
      assert DecimalString(0) == "0";
    }
    var child := Inner(DemoConfig, AsWritten, Demo, To(1), 1, Some(1), s2);
    assert child == (Emit(s2, [Text("(Parent 0)")]), Normal(1));
    assert child.0 == Emit(s, [Field(p.name), Text(":"), Text("(Parent 0)")]);
    assert OneProperty(DemoConfig, AsWritten, Demo, 0, 0, p, s, 0) == (child.0, Max(0, 1));
  }

  /** The walk over both properties of object 0, from just after its opening brace. */
  lemma DemoWalk(k: Cleanup, delimiter: string)
    requires WellFormedTypes(Demo)
    ensures var walked := ObjectProperties(DemoConfig, k, Demo, 0, 0, [P1, P2], 0, St([Field("{")], 1, [0], delimiter), 0);
      if k == AsWritten then
        walked == (St([Field("{"), Field("P1"), Text(":")] + CollectionTokens + BoomTokens
                      + [Field("P2"), Text(":"), Text("(Parent 0)")], 2, [1, 0], delimiter), 1)
      else
        walked == (St([Field("{"), Field("P1"), Text(":")] + CollectionTokens + BoomTokens
                      + [Field("P2"), Text(":")] + CollectionTokens + BoomTokens, 1, [0], delimiter), 0)
  {
    var s3 := St([Field("{")], 1, [0], delimiter);
    assert [Field("{")] + [Field("P1"), Text(":")] == [Field("{"), Field("P1"), Text(":")];
    DemoFailingProperty(k, P1, s3);
    var one1 := OneProperty(DemoConfig, k, Demo, 0, 0, P1, s3, 0);
    var one2 := OneProperty(DemoConfig, k, Demo, 0, 0, P2, one1.0, 0);
    var head := [Field("{"), Field("P1"), Text(":")] + CollectionTokens + BoomTokens;
    assert one1.0.tokens == head;
    if k == AsWritten {
      DemoRevisitedProperty(P2, one1.0);
      assert one2.0.tokens == head + [Field("P2"), Text(":"), Text("(Parent 0)")];
    } else {
      DemoFailingProperty(k, P2, one1.0);
      assert one2.0.tokens == head + [Field("P2"), Text(":")] + CollectionTokens + BoomTokens;
    }
    var walked := ObjectProperties(DemoConfig, k, Demo, 0, 0, [P1, P2], 0, s3, 0);
    assert walked == ObjectProperties(DemoConfig, k, Demo, 0, 0, [P1, P2], 1, one1.0, one1.1);
    assert walked == ObjectProperties(DemoConfig, k, Demo, 0, 0, [P1, P2], 2, one2.0, one2.1) == one2;
  }

  lemma DemoHolder(k: Cleanup, delimiter: string)
    requires WellFormedTypes(Demo)
    ensures var r := Inner(DemoConfig, k, Demo, To(0), 0, None, St([], 0, [], delimiter));
      if k == AsWritten then
        r == (St([Field("{"), Field("P1"), Text(":")] + CollectionTokens + BoomTokens
                 + [Field("P2"), Text(":"), Text("(Parent 0)"), Field("}")], 0, [0], delimiter),
              Normal(1))
      else
        r == (St([Field("{"), Field("P1"), Text(":")] + CollectionTokens + BoomTokens
                 + [Field("P2"), Text(":")] + CollectionTokens + BoomTokens + [Field("}")], 0, [], delimiter),
              Normal(0))
  {
    var s := St([], 0, [], delimiter);
    var pushed := s.(lineage := [0]);
    assert s.(lineage := [0] + s.lineage) == pushed;
    assert PublicGetters([P1]) == [P1] by {
      assert [P1][..0] == [];
    }
    assert PublicGetters([P1, P2]) == [P1, P2] by {
      assert [P1, P2][..1] == [P1];
    }
    assert ReadablePublicProperties(Demo, 0) == [P1, P2];
    var s3 := St([Field("{")], 1, [0], delimiter);
    assert ObjectOpening(DemoConfig, Demo, 0, 0, None, pushed) == s3;
    DemoWalk(k, delimiter);
    var walked := ObjectProperties(DemoConfig, k, Demo, 0, 0, [P1, P2], 0, s3, 0);
    var closed := AfterProperties(walked);
    assert Render(DemoConfig, k, Demo, 0, 0, None, pushed) == closed;
    assert closed.0.tokens == walked.0.tokens + [Field("}")];
    var head := [Field("{"), Field("P1"), Text(":")] + CollectionTokens + BoomTokens;
    if k == AsWritten {
      assert closed.0.tokens == head + [Field("P2"), Text(":"), Text("(Parent 0)"), Field("}")];
      assert closed.0.lineage[1..] == [0];
    } else {
      assert closed.0.tokens == head + [Field("P2"), Text(":")] + CollectionTokens + BoomTokens + [Field("}")];
      assert closed.0.lineage[1..] == [];
    }
    assert Inner(DemoConfig, k, Demo, To(0), 0, None, s) == (closed.0.(indent := 0, lineage := closed.0.lineage[1..]), closed.1);
  }
}
