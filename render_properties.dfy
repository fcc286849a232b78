/**
 * Properties of the reference semantics of the current reflection
 * formatter: which collections and objects stay on one line, how an
 * endless chain of objects is cut at the depth limit, and that the missing
 * `finally` only matters once an exception escapes a collection.
 */
module RenderProperties {
  import opened ObjectGraph
  import opened Sink
  import opened Quoting
  import opened ReflectionExtensions
  import opened RenderSpec

  predicate NoLineBreak(t: Token)
  {
    !t.Line? && !t.EndLine?
  }

  /** `after` extends the output of `before` with tokens none of which starts a line. */
  predicate AppendsOnOneLine(before: St, after: St)
  {
    before.tokens <= after.tokens
    && forall j | |before.tokens| <= j < |after.tokens| :: NoLineBreak(after.tokens[j])
  }

  lemma OneLineTransitive(a: St, b: St, c: St)
    requires AppendsOnOneLine(a, b) && AppendsOnOneLine(b, c)
    ensures AppendsOnOneLine(a, c)
  {
    forall j | |a.tokens| <= j < |c.tokens|
      ensures NoLineBreak(c.tokens[j])
    {
      if j < |b.tokens| {
        assert c.tokens[j] == b.tokens[j];
      }
    }
  }

  lemma EmitOnOneLine(s: St, ts: seq<Token>)
    requires forall j | 0 <= j < |ts| :: NoLineBreak(ts[j])
    ensures AppendsOnOneLine(s, Emit(s, ts))
  {
    forall j | |s.tokens| <= j < |Emit(s, ts).tokens|
      ensures NoLineBreak(Emit(s, ts).tokens[j])
    {
      assert Emit(s, ts).tokens[j] == ts[j - |s.tokens|];
    }
  }

  /**
   * A null, a value at the depth limit, an ancestor or a primitive is
   * written as text on the current line, and the call returns at its own
   * level without touching the lineage or the indent.
   */
  lemma LeafOnOneLine(c: Config, k: Cleanup, g: Graph, o: Ref, level: int, pt: Option<TypeId>, s: St)
    requires WellFormedTypes(g)
    requires ShouldFormatAsPrimitive(g, o) || level >= c.maxDepth || o.id in s.lineage
    ensures var r := Inner(c, k, g, o, level, pt, s);
      AppendsOnOneLine(s, r.0) && r.1 == Normal(level)
      && r.0.lineage == s.lineage && r.0.indent == s.indent
    ensures ShouldFormatAsPrimitive(g, o) ==> Inner(c, k, g, o, level, pt, s).0 == Emit(s, LeafTokens(c, g, o, level, s.lineage))
  {
    var r := Inner(c, k, g, o, level, pt, s);
    if o.Null? {
      EmitOnOneLine(s, [Text(NullMarker)]);
    } else if level >= c.maxDepth {
      EmitOnOneLine(s, [Text(LimitMarker)]);
    } else if o.id in s.lineage {
      EmitOnOneLine(s, [Text(ParentMarker(FirstIndex(s.lineage, o.id)))]);
    } else {
      var ts := PrimitiveTokens(g.heap(o.id).shape.text);
      assert forall j | 0 <= j < |ts| :: ts[j].Text?;
      EmitOnOneLine(s, ts);
    }
  }

  /**
   * What `InnerFormatObject` writes for a null or primitive value at `level`
   * under `lineage`: the null marker, the limit marker at the depth limit,
   * the parent marker for an ancestor, or the primitive itself.
   */
  function LeafTokens(c: Config, g: Graph, o: Ref, level: int, lineage: seq<NodeId>): seq<Token>
    requires ShouldFormatAsPrimitive(g, o)
  {
    if o.Null? then [Text(NullMarker)]
    else if level >= c.maxDepth then [Text(LimitMarker)]
    else if o.id in lineage then [Text(ParentMarker(FirstIndex(lineage, o.id)))]
    else PrimitiveTokens(g.heap(o.id).shape.text)
  }

  /** The `i`-th element's leaf tokens, after a comma unless it is the first. */
  function JoinedLeaf(c: Config, g: Graph, elements: seq<Ref>, level: int, lineage: seq<NodeId>, i: nat): seq<Token>
    requires AllPrimitive(g, elements) && i < |elements|
  {
    (if i == 0 then [] else [Text(",")]) + LeafTokens(c, g, elements[i], level, lineage)
  }

  /** The leaf tokens of the elements from the `i`-th on, separated by commas. */
  function JoinedLeaves(c: Config, g: Graph, elements: seq<Ref>, level: int, lineage: seq<NodeId>, i: nat): seq<Token>
    requires AllPrimitive(g, elements)
    decreases |elements| - i
  {
    if i >= |elements| then []
    else JoinedLeaf(c, g, elements, level, lineage, i) + JoinedLeaves(c, g, elements, level, lineage, i + 1)
  }

  /** The elements loop over primitive elements writes no line break and never throws. */
  lemma {:induction false} PrimitiveElementsOnOneLine(c: Config, k: Cleanup, g: Graph, id: NodeId, level: int,
                                                      i: nat, s: St, m: int)
    requires WellFormedTypes(g) && level < c.maxDepth && g.heap(id).shape.Enumerable?
    requires i <= |g.heap(id).shape.elements| && level <= m <= c.maxDepth
    requires AllPrimitive(g, g.heap(id).shape.elements)
    ensures var r := Elements(c, k, g, id, true, level, i, s, m);
      AppendsOnOneLine(s, r.0) && r.1.Normal? && r.0.lineage == s.lineage && r.0.indent == s.indent
    decreases |g.heap(id).shape.elements| - i
  {
    var elements := g.heap(id).shape.elements;
    if i == |elements| {
      EmitOnOneLine(s, []);
      assert Emit(s, []) == s;
    } else {
      var sep: seq<Token> := if i == 0 then [] else [Text(",")];
      var s1 := Emit(s, sep + []);
      EmitOnOneLine(s, sep + []);
      LeafOnOneLine(c, k, g, elements[i], level + 1, None, s1);
      var child := Inner(c, k, g, elements[i], level + 1, None, s1);
      OneLineTransitive(s, s1, child.0);
      PrimitiveElementsOnOneLine(c, k, g, id, level, i + 1, child.0, Max(m, child.1.maxLevel));
      OneLineTransitive(s, child.0, Elements(c, k, g, id, true, level, i + 1, child.0, Max(m, child.1.maxLevel)).0);
    }
  }

  /**
   * An enumerable of primitives that enumerates without failing is written
   * on one line and leaves the indent where it was.
   */
  lemma PrimitiveEnumerableOnOneLine(c: Config, k: Cleanup, g: Graph, id: NodeId, level: int, s: St)
    requires WellFormedTypes(g) && level < c.maxDepth && g.heap(id).shape.Enumerable?
    requires AllPrimitive(g, g.heap(id).shape.elements) && g.heap(id).shape.failure.None?
    ensures var r := AsEnumerable(c, k, g, id, level, s);
      AppendsOnOneLine(s, r.0) && r.0.indent == s.indent && r.0.lineage == s.lineage
      && r.1 == Normal(if |g.heap(id).shape.elements| == 0 then level else level + 1)
  {
    var e := g.heap(id).shape;
    if |e.elements| == 0 {
      EmitOnOneLine(s, [Field("[]")]);
    } else {
      var s1 := Emit(s, [Field("[")]);
      var s2 := s1.(indent := s1.indent + 1);
      EmitOnOneLine(s, [Field("[")]);
      assert AppendsOnOneLine(s, s2);
      PrimitiveElementsOnOneLine(c, k, g, id, level, 0, s2, level);
      var walked := Elements(c, k, g, id, true, level, 0, s2, level);
      OneLineTransitive(s, s2, walked.0);
      PrimitiveElementsMaxLevel(c, k, g, id, level, 0, s2, level);
      var s4 := walked.0.(indent := walked.0.indent - 1);
      EmitOnOneLine(s4, [Field("]")]);
      assert AppendsOnOneLine(walked.0, s4);
      OneLineTransitive(s, walked.0, s4);
      OneLineTransitive(s, s4, Emit(s4, [Field("]")]));
      assert AsEnumerable(c, k, g, id, level, s) == (Emit(s4, [] + [Field("]")]), walked.1);
    }
  }

  /** The elements loop over primitive elements writes their leaf tokens separated by commas. */
  lemma {:induction false} PrimitiveElementsJoined(c: Config, k: Cleanup, g: Graph, id: NodeId, level: int,
                                                   i: nat, s: St, m: int)
    requires WellFormedTypes(g) && level < c.maxDepth && g.heap(id).shape.Enumerable?
    requires i <= |g.heap(id).shape.elements| && level <= m <= c.maxDepth
    requires AllPrimitive(g, g.heap(id).shape.elements)
    ensures Elements(c, k, g, id, true, level, i, s, m).0
            == Emit(s, JoinedLeaves(c, g, g.heap(id).shape.elements, level + 1, s.lineage, i))
    decreases |g.heap(id).shape.elements| - i
  {
    var elements := g.heap(id).shape.elements;
    if i == |elements| {
      assert Emit(s, []) == s;
    } else {
      var sep: seq<Token> := if i == 0 then [] else [Text(",")];
      var leaf := LeafTokens(c, g, elements[i], level + 1, s.lineage);
      var next := Emit(s, sep + leaf);
      var rest := JoinedLeaves(c, g, elements, level + 1, s.lineage, i + 1);
      assert Elements(c, k, g, id, true, level, i, s, m).0 == Emit(next, rest) by {
        PrimitiveElementStep(c, k, g, id, level, i, s, m);
        PrimitiveElementsJoined(c, k, g, id, level, i + 1, next, Max(m, level + 1));
      }
      assert JoinedLeaves(c, g, elements, level + 1, s.lineage, i) == (sep + leaf) + rest;
      EmitTwice(s, sep + leaf, rest);
    }
  }

  /** One primitive element: its separator and its leaf tokens, then the loop goes on at `level + 1`. */
  lemma PrimitiveElementStep(c: Config, k: Cleanup, g: Graph, id: NodeId, level: int, i: nat, s: St, m: int)
    requires WellFormedTypes(g) && level < c.maxDepth && g.heap(id).shape.Enumerable?
    requires i < |g.heap(id).shape.elements| && level <= m <= c.maxDepth
    requires AllPrimitive(g, g.heap(id).shape.elements)
    ensures var elements := g.heap(id).shape.elements;
      var sep: seq<Token> := if i == 0 then [] else [Text(",")];
      Elements(c, k, g, id, true, level, i, s, m)
      == Elements(c, k, g, id, true, level, i + 1, Emit(s, sep + LeafTokens(c, g, elements[i], level + 1, s.lineage)), Max(m, level + 1))
  {
    var elements := g.heap(id).shape.elements;
    var sep: seq<Token> := if i == 0 then [] else [Text(",")];
    var s1 := Emit(s, sep + []);
    LeafOnOneLine(c, k, g, elements[i], level + 1, None, s1);
    var leaf := LeafTokens(c, g, elements[i], level + 1, s.lineage);
    assert s.tokens + (sep + []) + leaf == s.tokens + (sep + leaf);
  }

  /**
   * An enumerable of primitives that enumerates without failing is written
   * `[a,b,c]`: the bracket, the elements' leaf tokens separated by commas,
   * and the closing bracket, with no line break before either bracket.
   */
  lemma PrimitiveEnumerableJoined(c: Config, k: Cleanup, g: Graph, id: NodeId, level: int, s: St)
    requires WellFormedTypes(g) && level < c.maxDepth && g.heap(id).shape.Enumerable?
    requires AllPrimitive(g, g.heap(id).shape.elements) && g.heap(id).shape.failure.None?
    ensures var elements := g.heap(id).shape.elements;
      AsEnumerable(c, k, g, id, level, s).0
      == Emit(s, if |elements| == 0 then [Field("[]")]
                 else [Field("[")] + JoinedLeaves(c, g, elements, level + 1, s.lineage, 0) + [Field("]")])
  {
    var e := g.heap(id).shape;
    if |e.elements| > 0 {
      var s2 := Emit(s, [Field("[")]).(indent := s.indent + 1);
      PrimitiveElementsJoined(c, k, g, id, level, 0, s2, level);
      PrimitiveEnumerableCloses(c, k, g, id, level, s);
      BracketStep(s, [Field("[")], JoinedLeaves(c, g, e.elements, level + 1, s.lineage, 0), [Field("]")],
                  Elements(c, k, g, id, true, level, 0, s2, level).0);
    }
  }

  /** A non-empty enumerable of primitives that does not fail closes its bracket right after the last element. */
  lemma PrimitiveEnumerableCloses(c: Config, k: Cleanup, g: Graph, id: NodeId, level: int, s: St)
    requires WellFormedTypes(g) && level < c.maxDepth && g.heap(id).shape.Enumerable?
    requires AllPrimitive(g, g.heap(id).shape.elements) && g.heap(id).shape.failure.None?
    requires |g.heap(id).shape.elements| > 0
    ensures var s2 := Emit(s, [Field("[")]).(indent := s.indent + 1);
      AsEnumerable(c, k, g, id, level, s).0
      == Emit(Elements(c, k, g, id, true, level, 0, s2, level).0.(indent := s.indent), [Field("]")])
  {
    var s2 := Emit(s, [Field("[")]).(indent := s.indent + 1);
    PrimitiveElementsOnOneLine(c, k, g, id, level, 0, s2, level);
  }

  /** Two writes in a row are one write of both. */
  lemma EmitTwice(s: St, a: seq<Token>, b: seq<Token>)
    ensures Emit(Emit(s, a), b) == Emit(s, a + b)
  {
  }

  /** Opening a bracket one indent deeper, writing inside it, and closing it one indent out is one write. */
  lemma BracketStep(s: St, open: seq<Token>, inner: seq<Token>, close: seq<Token>, w: St)
    requires w == Emit(Emit(s, open).(indent := s.indent + 1), inner)
    ensures Emit(w.(indent := s.indent), close) == Emit(s, open + inner + close)
  {
    assert s.tokens + open + inner + close == s.tokens + (open + inner + close);
  }

  /** Every primitive element returns at `level + 1`, so the loop ends at `Max(m, level + 1)` once it has seen one. */
  lemma {:induction false} PrimitiveElementsMaxLevel(c: Config, k: Cleanup, g: Graph, id: NodeId, level: int,
                                                     i: nat, s: St, m: int)
    requires WellFormedTypes(g) && level < c.maxDepth && g.heap(id).shape.Enumerable?
    requires i <= |g.heap(id).shape.elements| && level <= m <= c.maxDepth
    requires AllPrimitive(g, g.heap(id).shape.elements)
    ensures Elements(c, k, g, id, true, level, i, s, m).1
            == Normal(if i < |g.heap(id).shape.elements| then Max(m, level + 1) else m)
    decreases |g.heap(id).shape.elements| - i
  {
    var elements := g.heap(id).shape.elements;
    if i < |elements| {
      var s1 := Emit(s, (if i == 0 then [] else [Text(",")]) + []);
      LeafOnOneLine(c, k, g, elements[i], level + 1, None, s1);
      var child := Inner(c, k, g, elements[i], level + 1, None, s1);
      PrimitiveElementsMaxLevel(c, k, g, id, level, i + 1, child.0, Max(m, level + 1));
    }
  }

  /** A property written without nesting: indexed, with a throwing getter, or with a primitive or null value. */
  predicate FlatProperty(g: Graph, id: NodeId, p: PropertyInfo)
  {
    p.indexParameterCount > 0
    || g.heap(id).getValue(p).Throws?
    || ShouldFormatAsPrimitive(g, g.heap(id).getValue(p).value)
  }

  predicate AllFlat(g: Graph, id: NodeId, props: seq<PropertyInfo>)
  {
    forall j | 0 <= j < |props| :: FlatProperty(g, id, props[j])
  }

  lemma OnePropertyOnOneLine(c: Config, k: Cleanup, g: Graph, id: NodeId, level: int, p: PropertyInfo, s: St, m: int)
    requires WellFormedTypes(g) && level < c.maxDepth && level <= m <= c.maxDepth
    requires FlatProperty(g, id, p)
    ensures var r := OneProperty(c, k, g, id, level, p, s, m);
      AppendsOnOneLine(s, r.0) && r.1 <= Max(m, level + 1) && r.0.lineage == s.lineage && r.0.indent == s.indent
  {
    if p.indexParameterCount > 0 {
      ErrorPropertyOnOneLine(s, p.name, IndexedPropertyMessage);
    } else {
      match g.heap(id).getValue(p)
      case Throws(text) =>
        ErrorPropertyOnOneLine(s, p.name, text);
      case Returns(v) =>
        ValuePropertyOnOneLine(c, k, g, level, p, v, s);
    }
  }

  /** A property written as its name and an error value stays on the line. */
  lemma ErrorPropertyOnOneLine(s: St, name: string, message: string)
    ensures var r := Emit(Emit(s, [Field(name)]), ErrorValue(false, message));
      AppendsOnOneLine(s, r) && r.lineage == s.lineage && r.indent == s.indent
  {
    var s1 := Emit(s, [Field(name)]);
    EmitOnOneLine(s, [Field(name)]);
    var e := ErrorValue(false, message);
    assert forall j | 0 <= j < |e| :: e[j].Text?;
    EmitOnOneLine(s1, e);
    OneLineTransitive(s, s1, Emit(s1, e));
  }

  /** A property whose value is flat: its name, the `(Type)` prefix if any, `:` and the leaf, all on the line. */
  lemma ValuePropertyOnOneLine(c: Config, k: Cleanup, g: Graph, level: int, p: PropertyInfo, v: Ref, s: St)
    requires WellFormedTypes(g) && ShouldFormatAsPrimitive(g, v)
    ensures var prefix := if c.includeTypeNames && !HasRuntimeType(g, v, p.propertyType)
          then [Text("("), Text(g.types(p.propertyType).displayName), Text(")")]
          else [];
      var s2 := Emit(Emit(s, [Field(p.name)]), prefix + [Text(":")]);
      var child := Inner(c, k, g, v, level + 1, Some(p.propertyType), s2);
      && child.1 == Normal(level + 1)
      && AppendsOnOneLine(s, child.0) && child.0.lineage == s.lineage && child.0.indent == s.indent
  {
    var s1 := Emit(s, [Field(p.name)]);
    EmitOnOneLine(s, [Field(p.name)]);
    var prefix := if c.includeTypeNames && !HasRuntimeType(g, v, p.propertyType)
      then [Text("("), Text(g.types(p.propertyType).displayName), Text(")")]
      else [];
    var s2 := Emit(s1, prefix + [Text(":")]);
    assert forall j | 0 <= j < |prefix + [Text(":")]| :: (prefix + [Text(":")])[j].Text?;
    EmitOnOneLine(s1, prefix + [Text(":")]);
    OneLineTransitive(s, s1, s2);
    LeafOnOneLine(c, k, g, v, level + 1, Some(p.propertyType), s2);
    OneLineTransitive(s, s2, Inner(c, k, g, v, level + 1, Some(p.propertyType), s2).0);
  }


  lemma {:induction false} FlatPropertiesOnOneLine(c: Config, k: Cleanup, g: Graph, id: NodeId, level: int,
                                                   props: seq<PropertyInfo>, i: nat, s: St, m: int)
    requires WellFormedTypes(g) && level < c.maxDepth && i <= |props| && level <= m <= c.maxDepth
    requires AllFlat(g, id, props)
    ensures var r := ObjectProperties(c, k, g, id, level, props, i, s, m);
      AppendsOnOneLine(s, r.0) && r.1 <= Max(m, level + 1) && r.0.lineage == s.lineage && r.0.indent == s.indent
    decreases |props| - i
  {
    if i == |props| {
      EmitOnOneLine(s, []);
      assert Emit(s, []) == s;
    } else {
      OnePropertyOnOneLine(c, k, g, id, level, props[i], s, m);
      var one := OneProperty(c, k, g, id, level, props[i], s, m);
      FlatPropertiesOnOneLine(c, k, g, id, level, props, i + 1, one.0, one.1);
      OneLineTransitive(s, one.0, ObjectProperties(c, k, g, id, level, props, i + 1, one.0, one.1).0);
    }
  }

  /**
   * A top-level object whose type is not announced and whose readable
   * properties are all flat is written on one line, `{A:1B:"x y"}`: the
   * closing line end is written only when something went deeper than
   * level 1.
   */
  lemma FlatObjectOnOneLine(c: Config, k: Cleanup, g: Graph, id: NodeId, pt: Option<TypeId>, s: St)
    requires WellFormedTypes(g) && 0 < c.maxDepth && !ShowsType(c, g, id, pt)
    requires AllFlat(g, id, ReadablePublicProperties(g, g.heap(id).runtimeType))
    ensures var r := AsObject(c, k, g, id, 0, pt, s);
      AppendsOnOneLine(s, r.0) && r.1.maxLevel <= 1 && r.0.lineage == s.lineage && r.0.indent == s.indent
  {
    var props := ReadablePublicProperties(g, g.heap(id).runtimeType);
    var s3 := ObjectOpening(c, g, id, 0, pt, s);
    assert s3 == Emit(s, [Field("{")] + []).(indent := s.indent + 1);
    EmitOnOneLine(s, [Field("{")] + []);
    FlatPropertiesOnOneLine(c, k, g, id, 0, props, 0, s3, 0);
    var walked := ObjectProperties(c, k, g, id, 0, props, 0, s3, 0);
    OneLineTransitive(s, s3, walked.0);
    var s6 := walked.0.(indent := walked.0.indent - 1);
    assert Emit(walked.0, []) == walked.0;
    EmitOnOneLine(s6, [Field("}")]);
    OneLineTransitive(s, s6, Emit(s6, [Field("}")]));
  }

  /**
   * A chain of `count` distinct objects from `n` on: each is a plain
   * object whose only readable property `p` returns the next one, so
   * the object after the last may be anything.
   */
  ghost predicate ChainLinks(g: Graph, p: PropertyInfo, n: NodeId, count: int)
  {
    WellFormedTypes(g) && p.indexParameterCount == 0
    && forall x: NodeId {:trigger g.heap(x)} :: n <= x < n + count ==>
         g.heap(x).shape.Plain?
         && ReadablePublicProperties(g, g.heap(x).runtimeType) == [p]
         && g.heap(x).getValue(p) == Returns(To(x + 1))
  }

  /**
   * Formatting a chain that is linked at least down to the depth limit
   * never finds a cycle: it descends until the limit, writes the limit
   * marker there, and reports the limit as the deepest level reached.
   */
  lemma {:induction false} ChainStopsAtLimit(c: Config, k: Cleanup, g: Graph, p: PropertyInfo, n: NodeId,
                                             level: int, pt: Option<TypeId>, s: St)
    requires ChainLinks(g, p, n, c.maxDepth - level) && level <= c.maxDepth
    requires forall x | x in s.lineage :: x < n
    ensures var r := Inner(c, k, g, To(n), level, pt, s);
      Text(LimitMarker) in r.0.tokens && r.1 == Normal(c.maxDepth)
    decreases c.maxDepth - level
  {
    if level < c.maxDepth {
      var s2 := ChainLinkStep(c, k, g, p, n, level, pt, s);
      ChainStopsAtLimit(c, k, g, p, n + 1, level + 1, Some(p.propertyType), s2);
    }
  }

  /**
   * One link of the chain: the object at `n` is opened and its property
   * written up to the `:`, at `s2`; if the next object reaches the limit
   * from there, so does this one.
   */
  lemma ChainLinkStep(c: Config, k: Cleanup, g: Graph, p: PropertyInfo, n: NodeId,
                      level: int, pt: Option<TypeId>, s: St) returns (s2: St)
    requires ChainLinks(g, p, n, c.maxDepth - level) && level < c.maxDepth
    requires forall x | x in s.lineage :: x < n
    ensures forall x | x in s2.lineage :: x < n + 1
    ensures var child := Inner(c, k, g, To(n + 1), level + 1, Some(p.propertyType), s2);
      Text(LimitMarker) in child.0.tokens && child.1 == Normal(c.maxDepth) ==>
      var r := Inner(c, k, g, To(n), level, pt, s);
      Text(LimitMarker) in r.0.tokens && r.1 == Normal(c.maxDepth)
  {
    assert g.heap(n).shape.Plain?;
    var pushed := s.(lineage := [n] + s.lineage);
    var s3 := ObjectOpening(c, g, n, level, pt, pushed);
    var props := ReadablePublicProperties(g, g.heap(n).runtimeType);
    assert props == [p];
    var s1 := Emit(s3, [Field(p.name)]);
    var prefix := if c.includeTypeNames && !HasRuntimeType(g, To(n + 1), p.propertyType)
      then [Text("("), Text(g.types(p.propertyType).displayName), Text(")")]
      else [];
    s2 := Emit(s1, prefix + [Text(":")]);
    assert g.heap(n).getValue(p) == Returns(To(n + 1));
    var child := Inner(c, k, g, To(n + 1), level + 1, Some(p.propertyType), s2);
    if Text(LimitMarker) in child.0.tokens && child.1 == Normal(c.maxDepth) {
      var one := OneProperty(c, k, g, n, level, p, s3, level);
      assert one == (child.0, c.maxDepth);
      var walked := ObjectProperties(c, k, g, n, level, props, 0, s3, level);
      assert walked == ObjectProperties(c, k, g, n, level, props, 1, one.0, one.1) == one;
      var closed := AfterProperties(walked);
      assert closed.0.tokens == Emit(child.0, if c.maxDepth > 1 then [EndLine(child.0.indent)] else []).tokens + [Field("}")];
      assert Text(LimitMarker) in closed.0.tokens;
      assert Render(c, k, g, n, level, pt, pushed) == closed;
    }
  }


  /**
   * The root of a chain of twenty-one objects whose last `Child` is null,
   * formatted with the default limit, is cut by the limit marker.
   */
  lemma TwentyOneLinkChain(k: Cleanup, g: Graph, p: PropertyInfo, includeTypeNames: bool, delimiter: string)
    requires WellFormedTypes(g) && p.indexParameterCount == 0
    requires forall x: NodeId {:trigger g.heap(x)} :: x <= 20 ==>
               g.heap(x).shape.Plain?
               && ReadablePublicProperties(g, g.heap(x).runtimeType) == [p]
               && g.heap(x).getValue(p) == Returns(if x < 20 then To(x + 1) else Null)
    ensures var r := Inner(Config(includeTypeNames, DefaultMaxDepth), k, g, To(0), 0, None, St([], 0, [], delimiter));
      Text(LimitMarker) in r.0.tokens && r.1 == Normal(DefaultMaxDepth)
  {
    ChainStopsAtLimit(Config(includeTypeNames, DefaultMaxDepth), k, g, p, 0, 0, None, St([], 0, [], delimiter));
  }

  /** The characters a run of tokens puts on the page, delimiters and line breaks aside. */
  function WrittenText(ts: seq<Token>): string
  {
    if ts == [] then []
    else (if ts[0].Text? || ts[0].Field? then ts[0].text else []) + WrittenText(ts[1..])
  }

  /** What `FormatAsPrimitive` writes spells the quoted text, and reading it back gives the primitive's text. */
  lemma PrimitiveTokensSpellQuote(text: string)
    ensures WrittenText(PrimitiveTokens(text)) == Quote(text)
    ensures Unquote(WrittenText(PrimitiveTokens(text))) == text
    ensures forall j | 0 <= j < |PrimitiveTokens(text)| :: NoLineBreak(PrimitiveTokens(text)[j])
  {
    var ts := PrimitiveTokens(text);
    if NeedsQuotes(text) {
      var d := DoubleQuotes(text);
      assert ts == [Text("\""), Text(d), Text("\"")];
      assert ts[1..] == [Text(d), Text("\"")];
      assert ts[2..] == [Text("\"")] && ts[2..][1..] == [];
      assert WrittenText(ts[2..]) == "\"";
      assert WrittenText(ts[1..]) == d + "\"";
      assert Quote(text) == "\"" + d + "\"";
    } else {
      assert ts == [Text(text)] && ts[1..] == [];
    }
    QuoteRoundTrip(text);
  }

  /**
   * A property with index parameters, or whose getter throws, is written as
   * its name, one colon and the error marker; the running level is kept and
   * the loop goes on with the lineage and the indent as they were.
   */
  lemma PropertyErrorsContained(c: Config, k: Cleanup, g: Graph, id: NodeId, level: int, p: PropertyInfo, s: St, m: int)
    requires WellFormedTypes(g) && level < c.maxDepth && level <= m <= c.maxDepth
    requires p.indexParameterCount > 0 || g.heap(id).getValue(p).Throws?
    ensures var message := if p.indexParameterCount > 0 then IndexedPropertyMessage else g.heap(id).getValue(p).text;
      OneProperty(c, k, g, id, level, p, s, m)
      == (Emit(s, [Field(p.name), Text(":"), Text("!("), Text(message), Text(")!")]), m)
  {
    var message := if p.indexParameterCount > 0 then IndexedPropertyMessage else g.heap(id).getValue(p).text;
    var e := ErrorValue(false, message);
    assert e == [Text(":"), Text("!("), Text(message), Text(")!")];
    assert s.tokens + [Field(p.name)] + e == s.tokens + ([Field(p.name)] + e);
    assert Emit(Emit(s, [Field(p.name)]), e) == Emit(s, [Field(p.name)] + e);
    assert [Field(p.name)] + e == [Field(p.name), Text(":"), Text("!("), Text(message), Text(")!")];
    if p.indexParameterCount > 0 {
      assert OneProperty(c, k, g, id, level, p, s, m) == (Emit(Emit(s, [Field(p.name)]), e), m);
    } else {
      var v := g.heap(id).getValue(p);
      assert v == Throws(v.text);
      assert OneProperty(c, k, g, id, level, p, s, m) == (Emit(Emit(s, [Field(p.name)]), e), m);
    }
  }

  /**
   * The order of the checks in `InnerFormatObject`: null first, then the
   * depth limit (so a primitive reached at the limit prints the limit
   * marker), then the lineage, whose hit names the nearest ancestor that is
   * the same object; none of these pushes anything or moves the indent.
   */
  lemma CheckOrder(c: Config, k: Cleanup, g: Graph, o: Ref, level: int, pt: Option<TypeId>, s: St, n: nat)
    requires WellFormedTypes(g)
    ensures o.Null? ==> Inner(c, k, g, o, level, pt, s) == (Emit(s, [Text(NullMarker)]), Normal(level))
    ensures o.To? && level >= c.maxDepth ==> Inner(c, k, g, o, level, pt, s) == (Emit(s, [Text(LimitMarker)]), Normal(level))
    ensures o.To? && level < c.maxDepth && n < |s.lineage| && s.lineage[n] == o.id
            && (forall j | 0 <= j < n :: s.lineage[j] != o.id)
            ==> Inner(c, k, g, o, level, pt, s) == (Emit(s, [Text(ParentMarker(n))]), Normal(level))
  {
  }

  /** An empty dictionary is written as `{}` at its own level, unless enumerating it throws. */
  lemma EmptyDictionary(c: Config, k: Cleanup, g: Graph, id: NodeId, level: int, pt: Option<TypeId>, s: St)
    requires WellFormedTypes(g) && level < c.maxDepth
    requires g.heap(id).shape.Dictionary? && |g.heap(id).shape.pairs| == 0
    ensures var d := g.heap(id).shape;
      AsDictionary(c, k, g, id, level, pt, s)
      == if d.failure.None? then (Emit(s, [Field("{}")]), Normal(level)) else (s, Thrown(d.failure.value))
  {
  }

  /** An empty enumerable is written as `[]` at its own level, unless enumerating it throws. */
  lemma EmptyEnumerable(c: Config, k: Cleanup, g: Graph, id: NodeId, level: int, s: St)
    requires WellFormedTypes(g) && level < c.maxDepth
    requires g.heap(id).shape.Enumerable? && |g.heap(id).shape.elements| == 0
    ensures var e := g.heap(id).shape;
      AsEnumerable(c, k, g, id, level, s)
      == if e.failure.None? then (Emit(s, [Field("[]")]), Normal(level)) else (s, Thrown(e.failure.value))
  {
  }

  /**
   * `FormatAsObject`'s opening: `{`, a line end below the top level, one
   * more indent, and a type line exactly when type names are on and the
   * declared type is not the runtime type; lineage and delimiter untouched.
   */
  lemma ObjectOpeningWrites(c: Config, g: Graph, id: NodeId, level: int, pt: Option<TypeId>, s: St)
    ensures var r := ObjectOpening(c, g, id, level, pt, s);
      var shown := c.includeTypeNames && pt != Some(g.heap(id).runtimeType);
      && r == s.(tokens := r.tokens, indent := s.indent + 1)
      && r.tokens == s.tokens + [Field("{")] + (if level > 0 then [EndLine(s.indent)] else [])
                     + (if shown then [Field("type:"), Text(g.types(g.heap(id).runtimeType).displayName), Line(s.indent + 1)] else [])
      && (Field("type:") in r.tokens[|s.tokens|..] <==> shown)
  {
    var r := ObjectOpening(c, g, id, level, pt, s);
    var added := [Field("{")] + (if level > 0 then [EndLine(s.indent)] else []);
    if ShowsType(c, g, id, pt) {
      var typeLine := [Field("type:"), Text(g.types(g.heap(id).runtimeType).displayName), Line(s.indent + 1)];
      assert r.tokens[|s.tokens|..] == added + typeLine;
      assert (added + typeLine)[|added|] == Field("type:");
    } else {
      assert r.tokens[|s.tokens|..] == added;
    }
  }

  /**
   * `FormatAsObject`'s closing: one indent out, a line end before `}`
   * exactly when something nested went deeper than level 1, and the level
   * reached is returned.
   */
  lemma AfterPropertiesWrites(walked: (St, int))
    ensures var r := AfterProperties(walked);
      var s := walked.0;
      && r.1 == Normal(walked.1)
      && r.0 == s.(tokens := r.0.tokens, indent := s.indent - 1)
      && r.0.tokens == s.tokens + (if walked.1 > 1 then [EndLine(s.indent)] else []) + [Field("}")]
      && (AppendsOnOneLine(s, r.0) <==> walked.1 <= 1)
  {
    var s := walked.0;
    var r := AfterProperties(walked);
    if walked.1 > 1 {
      assert r.0.tokens[|s.tokens|] == EndLine(s.indent);
    } else {
      EmitOnOneLine(s, [Field("}")]);
    }
  }

  /**
   * `FormatAsDictionary`'s opening of a non-empty dictionary: `{`, one more
   * indent, and `type:` with the name on the same line exactly when type
   * names are on and the declared type is not the runtime type.
   */
  lemma DictionaryOpeningWrites(c: Config, g: Graph, id: NodeId, pt: Option<TypeId>, s: St)
    ensures var r := DictionaryOpening(c, g, id, pt, s);
      var shown := c.includeTypeNames && pt != Some(g.heap(id).runtimeType);
      && r == s.(tokens := r.tokens, indent := s.indent + 1)
      && r.tokens == s.tokens + [Field("{")] + (if shown then [Field("type:"), Text(g.types(g.heap(id).runtimeType).displayName)] else [])
      && AppendsOnOneLine(s, r)
  {
    var r := DictionaryOpening(c, g, id, pt, s);
    var added := [Field("{")] + (if ShowsType(c, g, id, pt) then [Field("type:"), Text(g.types(g.heap(id).runtimeType).displayName)] else []);
    EmitOnOneLine(s, added);
    assert r.tokens == Emit(s, added).tokens;
  }

  /**
   * `FormatAsDictionary` after its pairs: an exception from a pair is
   * passed on, then the enumeration's own is raised; otherwise a line end,
   * one indent out and `}`. It throws exactly when either happened.
   */
  lemma AfterPairsWrites(g: Graph, id: NodeId, walked: (St, Outcome))
    requires g.heap(id).shape.Dictionary?
    ensures var r := AfterPairs(g, id, walked);
      var s := walked.0;
      var failure := g.heap(id).shape.failure;
      && (r.1.Thrown? <==> walked.1.Thrown? || failure.Some?)
      && (walked.1.Thrown? ==> r == walked)
      && (walked.1.Normal? && failure.Some? ==> r == (s, Thrown(failure.value)))
      && (r.1.Normal? ==> r.1 == walked.1 && r.0 == s.(tokens := s.tokens + [EndLine(s.indent), Field("}")], indent := s.indent - 1))
  {
  }

  /**
   * `FormatAsEnumerable` after its elements: an exception from an element
   * is passed on, then the enumeration's own is raised; otherwise one
   * indent out and `]`, on a line of its own exactly when some element is
   * not primitive.
   */
  lemma AfterElementsWrites(g: Graph, id: NodeId, allPrimitive: bool, walked: (St, Outcome))
    requires g.heap(id).shape.Enumerable?
    ensures var r := AfterElements(g, id, allPrimitive, walked);
      var s := walked.0;
      var failure := g.heap(id).shape.failure;
      && (r.1.Thrown? <==> walked.1.Thrown? || failure.Some?)
      && (walked.1.Thrown? ==> r == walked)
      && (walked.1.Normal? && failure.Some? ==> r == (s, Thrown(failure.value)))
      && (r.1.Normal? ==>
            && r.1 == walked.1
            && r.0 == s.(tokens := s.tokens + (if allPrimitive then [] else [EndLine(s.indent - 1)]) + [Field("]")], indent := s.indent - 1)
            && (AppendsOnOneLine(s, r.0) <==> allPrimitive))
  {
    var r := AfterElements(g, id, allPrimitive, walked);
    var s := walked.0;
    if r.1.Normal? {
      if allPrimitive {
        EmitOnOneLine(s.(indent := s.indent - 1), [Field("]")]);
      } else {
        assert r.0.tokens[|s.tokens|] == EndLine(s.indent - 1);
      }
    }
  }

  /** What the local `WriteErrorAsPropertyValue` puts on the page: a colon unless one is there, then `!(`, the message and `)!`, on one line. */
  lemma ErrorValueText(colonWritten: bool, message: string)
    ensures WrittenText(ErrorValue(colonWritten, message)) == (if colonWritten then "" else ":") + "!(" + message + ")!"
    ensures forall j | 0 <= j < |ErrorValue(colonWritten, message)| :: NoLineBreak(ErrorValue(colonWritten, message)[j])
  {
    var tail := [Text("!("), Text(message), Text(")!")];
    assert tail[1..] == [Text(message), Text(")!")] && tail[1..][1..] == [Text(")!")] && tail[1..][1..][1..] == [];
    assert WrittenText(tail[1..][1..]) == ")!";
    assert WrittenText(tail[1..]) == message + ")!";
    assert WrittenText(tail) == "!(" + (message + ")!");
    assert "!(" + (message + ")!") == "!(" + message + ")!";
    if !colonWritten {
      assert ([Text(":")] + tail)[1..] == tail;
      assert ":" + ("!(" + message + ")!") == ":" + "!(" + message + ")!";
    } else {
      assert ErrorValue(colonWritten, message) == tail;
    }
  }
}
