/**
 * Reference semantics of the older reflection formatter
 * (`LogJam.Microsoft.Extensions.Logging.Format.ReflectionFormatter`).
 *
 * It reflects every object the same way, collections included: `{ `, the
 * type's full name, then each runtime property as `Name(PropertyType)`
 * followed, when the property can be read, by `: ` and the value, and a
 * space; then `}`. Nested objects go on lines of their own, two indent
 * levels deeper. The recursion limit is fixed at 10. Nothing escapes a
 * call: an exception reading a property is written in its place.
 *
 * The source pushes the formatter itself (`this`) on the lineage stack in
 * place of the object being formatted, so the cycle check only ever
 * matches an object that is the formatter. `Pushed` selects between that
 * and pushing the object, which is what the cycle check is evidently
 * written for.
 */
module LegacySpec {
  import opened ObjectGraph
  import opened Sink
  import opened RenderSpec

  const MaxRecursion: int := 10
  const CycleMarker: string := "(Cycle in object graph)"

  /** What `InnerFormatObject` pushes on the lineage: the formatter (as written) or the object. */
  datatype Pushed = PushesFormatter | PushesObject

  function Entry(k: Pushed, self: NodeId, id: NodeId): NodeId
  {
    if k == PushesFormatter then self else id
  }

  /** What the writer receives for one property before its value: `Name(PropertyType)`. */
  function PropertyHeader(g: Graph, p: PropertyInfo): seq<Token>
  {
    [Text(p.name), Text("("), Text(g.types(p.propertyType).fullName), Text(")")]
  }

  /** What the writer receives before the properties: `{ Type: <FullName> `. */
  function ObjectHeader(g: Graph, id: NodeId): seq<Token>
  {
    [Text("{ "), Text("Type: "), Text(g.types(g.heap(id).runtimeType).fullName), Spaces(1)]
  }

  /**
   * `InnerFormatObject` for the object `id`, formatted by the formatter
   * whose own identity is `self`: the depth check, then the lineage check,
   * then indent by two, push, and the object.
   */
  function Inner(k: Pushed, g: Graph, self: NodeId, id: NodeId, level: int, s: St): (r: St)
    ensures r.indent == s.indent && r.lineage == s.lineage && r.delimiter == s.delimiter
    ensures s.tokens <= r.tokens
    decreases MaxRecursion - level, 1
  {
    if level >= MaxRecursion then Emit(s, [Field(LimitMarker)])
    else if id in s.lineage then Emit(s, [Field(CycleMarker)])
    else
      var s1 := Emit(s.(indent := s.indent + 2, lineage := [Entry(k, self, id)] + s.lineage), ObjectHeader(g, id));
      var s2 := Properties(k, g, self, id, level, g.types(g.heap(id).runtimeType).runtimeProperties, 0, s1);
      Emit(s2, [Text("}")]).(indent := s.indent, lineage := s2.lineage[1..])
  }

  /** The `foreach` over the runtime properties, from the `i`-th on. */
  function Properties(k: Pushed, g: Graph, self: NodeId, id: NodeId, level: int,
                      props: seq<PropertyInfo>, i: nat, s: St): (r: St)
    requires level < MaxRecursion && i <= |props|
    ensures r.indent == s.indent && r.lineage == s.lineage && r.delimiter == s.delimiter
    ensures s.tokens <= r.tokens
    decreases MaxRecursion - level, 0, |props| - i, 1
  {
    if i == |props| then s
    else Properties(k, g, self, id, level, props, i + 1, Property(k, g, self, id, level, props[i], s))
  }

  /**
   * One property: its header; when it has a getter, `: ` and the value
   * (the exception's text, `(null)`, a scalar's text, or the object nested
   * between two line ends); then one space.
   */
  function Property(k: Pushed, g: Graph, self: NodeId, id: NodeId, level: int, p: PropertyInfo, s: St): (r: St)
    requires level < MaxRecursion
    ensures r.indent == s.indent && r.lineage == s.lineage && r.delimiter == s.delimiter
    ensures s.tokens <= r.tokens
    decreases MaxRecursion - level, 0, 0, 0
  {
    var s1 := Emit(s, PropertyHeader(g, p));
    var s2 :=
      if p.getter == NoGetter then s1
      else
        var s3 := Emit(s1, [Text(": ")]);
        match g.heap(id).getValue(p)
        case Throws(text) => Emit(s3, [Text(text)])
        case Returns(v) =>
          if v.Null? then Emit(s3, [Field(NullMarker)])
          else if HasScalarTypeCode(g, v) then Emit(s3, [Field(g.heap(v.id).shape.text)])
          else
            var nested := Inner(k, g, self, v.id, level + 1, Emit(s3, [EndLine(s3.indent)]));
            Emit(nested, [EndLine(nested.indent)]);
    Emit(s2, [Spaces(1)])
  }

  /** `FormatObject`: null and scalars are written as one field; anything else is walked with a fresh lineage. */
  function FormatObject(k: Pushed, g: Graph, self: NodeId, o: Ref, s: St): (r: St)
    ensures r.indent == s.indent && r.delimiter == s.delimiter
    ensures s.tokens <= r.tokens
  {
    if o.Null? then Emit(s, [Field(NullMarker)])
    else if HasScalarTypeCode(g, o) then Emit(s, [Field(g.heap(o.id).shape.text)])
    else Inner(k, g, self, o.id, 0, s.(lineage := []))
  }

  /** Object `x`'s one runtime property `p` is readable and returns `x` itself. */
  predicate SelfLoop(g: Graph, x: NodeId, p: PropertyInfo)
  {
    && g.types(g.heap(x).runtimeType).runtimeProperties == [p]
    && p.getter != NoGetter
    && g.heap(x).getValue(p) == Returns(To(x))
    && !HasScalarTypeCode(g, To(x))
  }

  /** The state in which a self-referring object's property value is formatted, one level down. */
  function SelfLoopEntry(k: Pushed, g: Graph, self: NodeId, x: NodeId, p: PropertyInfo, s: St): St
  {
    var pushed := s.(indent := s.indent + 2, lineage := [Entry(k, self, x)] + s.lineage);
    Emit(pushed, ObjectHeader(g, x) + PropertyHeader(g, p) + [Text(": "), EndLine(s.indent + 2)])
  }

  /** One level of a self-referring object: everything around the nested call is fixed text. */
  lemma SelfLoopUnfolds(k: Pushed, g: Graph, self: NodeId, x: NodeId, p: PropertyInfo, level: int, s: St)
    requires SelfLoop(g, x, p) && x !in s.lineage && level < MaxRecursion
    ensures var nested := Inner(k, g, self, x, level + 1, SelfLoopEntry(k, g, self, x, p, s));
      Inner(k, g, self, x, level, s)
      == St(nested.tokens + [EndLine(s.indent + 2), Spaces(1), Text("}")], s.indent, s.lineage, s.delimiter)
  {
    var s1 := Emit(s.(indent := s.indent + 2, lineage := [Entry(k, self, x)] + s.lineage), ObjectHeader(g, x));
    var s3 := Emit(Emit(s1, PropertyHeader(g, p)), [Text(": ")]);
    var s4 := Emit(s3, [EndLine(s3.indent)]);
    assert s4 == SelfLoopEntry(k, g, self, x, p, s);
    var nested := Inner(k, g, self, x, level + 1, s4);
    var done := Emit(Emit(nested, [EndLine(nested.indent)]), [Spaces(1)]);
    assert Property(k, g, self, x, level, p, s1) == done;
    assert Properties(k, g, self, x, level, [p], 0, s1)
           == Properties(k, g, self, x, level, [p], 1, done) == done;
  }

  /** Entering a self-referring object under the formatter adds text only and pushes the formatter. */
  lemma SelfLoopEntryAddsText(g: Graph, self: NodeId, x: NodeId, p: PropertyInfo, s: St)
    ensures var s4 := SelfLoopEntry(PushesFormatter, g, self, x, p, s);
      && s4.lineage == [self] + s.lineage
      && s4.tokens[..|s.tokens|] == s.tokens
      && forall i | |s.tokens| <= i < |s4.tokens| :: !s4.tokens[i].Field?
  {
  }

  /**
   * As written, an object that refers to itself is not recognised as a
   * cycle: with only the formatter on the lineage, it is expanded again at
   * every level until the recursion limit, and the cycle marker is never
   * written.
   */
  lemma {:induction false} SelfLoopReachesLimit(g: Graph, self: NodeId, x: NodeId, p: PropertyInfo, level: int, s: St)
    requires SelfLoop(g, x, p) && x != self && level <= MaxRecursion
    requires forall e | e in s.lineage :: e == self
    requires Field(CycleMarker) !in s.tokens
    ensures var r := Inner(PushesFormatter, g, self, x, level, s);
      Field(LimitMarker) in r.tokens[|s.tokens|..] && Field(CycleMarker) !in r.tokens
    decreases MaxRecursion - level
  {
    if level >= MaxRecursion {
      var r := Inner(PushesFormatter, g, self, x, level, s);
      assert r.tokens[|s.tokens|..] == [Field(LimitMarker)];
    } else {
      var s4 := SelfLoopEntry(PushesFormatter, g, self, x, p, s);
      assert (forall e | e in s4.lineage :: e == self) && Field(CycleMarker) !in s4.tokens by {
        SelfLoopEntryAddsText(g, self, x, p, s);
      }
      SelfLoopReachesLimit(g, self, x, p, level + 1, s4);
      SelfLoopLevel(g, self, x, p, level, s);
    }
  }

  /** One level of `SelfLoopReachesLimit`: what holds one level down holds here. */
  lemma SelfLoopLevel(g: Graph, self: NodeId, x: NodeId, p: PropertyInfo, level: int, s: St)
    requires SelfLoop(g, x, p) && x != self && level < MaxRecursion
    requires forall e | e in s.lineage :: e == self
    requires var s4 := SelfLoopEntry(PushesFormatter, g, self, x, p, s);
      var nested := Inner(PushesFormatter, g, self, x, level + 1, s4);
      Field(LimitMarker) in nested.tokens[|s4.tokens|..] && Field(CycleMarker) !in nested.tokens
    ensures var r := Inner(PushesFormatter, g, self, x, level, s);
      Field(LimitMarker) in r.tokens[|s.tokens|..] && Field(CycleMarker) !in r.tokens
  {
    var s4 := SelfLoopEntry(PushesFormatter, g, self, x, p, s);
    var nested := Inner(PushesFormatter, g, self, x, level + 1, s4);
    var r := Inner(PushesFormatter, g, self, x, level, s);
    assert x !in s.lineage;
    assert r.tokens == nested.tokens + [EndLine(s.indent + 2), Spaces(1), Text("}")] by {
      SelfLoopUnfolds(PushesFormatter, g, self, x, p, level, s);
    }
    var i :| |s4.tokens| <= i < |nested.tokens| && nested.tokens[i] == Field(LimitMarker);
    assert r.tokens[i] == Field(LimitMarker);
  }

  /**
   * Pushing the object instead, the same self-reference is caught one level
   * down: the property's value is the cycle marker, on a line of its own.
   */
  lemma SelfLoopReportedAsCycle(g: Graph, self: NodeId, x: NodeId, p: PropertyInfo, level: int, s: St)
    requires SelfLoop(g, x, p) && x !in s.lineage && level + 1 < MaxRecursion
    ensures Inner(PushesObject, g, self, x, level, s).tokens
            == s.tokens + ObjectHeader(g, x) + PropertyHeader(g, p)
               + [Text(": "), EndLine(s.indent + 2), Field(CycleMarker), EndLine(s.indent + 2), Spaces(1), Text("}")]
  {
    SelfLoopUnfolds(PushesObject, g, self, x, p, level, s);
    var s4 := SelfLoopEntry(PushesObject, g, self, x, p, s);
    assert Inner(PushesObject, g, self, x, level + 1, s4) == Emit(s4, [Field(CycleMarker)]);
  }

  /** Every lineage entry is the formatter. */
  predicate OnlyFormatter(self: NodeId, lineage: seq<NodeId>)
  {
    forall e | e in lineage :: e == self
  }

  /** No property of any object returns the formatter. */
  ghost predicate NeverRefersTo(g: Graph, self: NodeId)
  {
    forall n: NodeId, p: PropertyInfo {:trigger g.heap(n).getValue(p)} :: g.heap(n).getValue(p) != Returns(To(self))
  }

  /**
   * As written, the cycle check is inert: unless the formatter itself is
   * among the objects formatted, the output is what it would be with any
   * other lineage made of the formatter, the empty one included.
   */
  lemma {:induction false} LineageIrrelevant(g: Graph, self: NodeId, id: NodeId, level: int, s: St, other: seq<NodeId>)
    requires NeverRefersTo(g, self) && id != self
    requires OnlyFormatter(self, s.lineage) && OnlyFormatter(self, other)
    ensures Inner(PushesFormatter, g, self, id, level, s).tokens
            == Inner(PushesFormatter, g, self, id, level, s.(lineage := other)).tokens
    decreases MaxRecursion - level, 1
  {
    if level < MaxRecursion {
      var props := g.types(g.heap(id).runtimeType).runtimeProperties;
      var s1 := Emit(s.(indent := s.indent + 2, lineage := [self] + s.lineage), ObjectHeader(g, id));
      PropertiesLineageIrrelevant(g, self, id, level, props, 0, s1, [self] + other);
    }
  }

  lemma {:induction false} PropertiesLineageIrrelevant(g: Graph, self: NodeId, id: NodeId, level: int,
                                                       props: seq<PropertyInfo>, i: nat, s: St, other: seq<NodeId>)
    requires NeverRefersTo(g, self) && level < MaxRecursion && i <= |props|
    requires OnlyFormatter(self, s.lineage) && OnlyFormatter(self, other)
    ensures Properties(PushesFormatter, g, self, id, level, props, i, s).tokens
            == Properties(PushesFormatter, g, self, id, level, props, i, s.(lineage := other)).tokens
    decreases MaxRecursion - level, 0, |props| - i, 1
  {
    if i < |props| {
      PropertyLineageIrrelevant(g, self, id, level, props[i], s, other);
      var one := Property(PushesFormatter, g, self, id, level, props[i], s);
      var two := Property(PushesFormatter, g, self, id, level, props[i], s.(lineage := other));
      assert two == one.(lineage := other);
      PropertiesLineageIrrelevant(g, self, id, level, props, i + 1, one, other);
    }
  }

  lemma {:induction false} PropertyLineageIrrelevant(g: Graph, self: NodeId, id: NodeId, level: int,
                                                     p: PropertyInfo, s: St, other: seq<NodeId>)
    requires NeverRefersTo(g, self) && level < MaxRecursion
    requires OnlyFormatter(self, s.lineage) && OnlyFormatter(self, other)
    ensures Property(PushesFormatter, g, self, id, level, p, s).tokens
            == Property(PushesFormatter, g, self, id, level, p, s.(lineage := other)).tokens
    decreases MaxRecursion - level, 0, 0, 0
  {
    if p.getter != NoGetter && g.heap(id).getValue(p).Returns? {
      var v := g.heap(id).getValue(p).value;
      if v.To? && !HasScalarTypeCode(g, v) {
        assert g.heap(id).getValue(p) != Returns(To(self));
        var s3 := Emit(Emit(s, PropertyHeader(g, p)), [Text(": ")]);
        LineageIrrelevant(g, self, v.id, level + 1, Emit(s3, [EndLine(s3.indent)]), other);
      }
    }
  }

  /*
   * The layout of the older formatter. As for the current one, a call's
   * output does not depend on what the sink already holds, so each call
   * is described by what it writes into an empty sink (`Own`).
   */

  lemma {:induction false} InnerShifts(k: Pushed, g: Graph, self: NodeId, id: NodeId, level: int, s: St, front: seq<Token>)
    ensures Inner(k, g, self, id, level, Prefixed(front, s)) == Prefixed(front, Inner(k, g, self, id, level, s))
    decreases MaxRecursion - level, 1
  {
    if level >= MaxRecursion {
      EmitPrefixed(front, s, [Field(LimitMarker)]);
    } else if id in s.lineage {
      EmitPrefixed(front, s, [Field(CycleMarker)]);
    } else {
      var pushed := s.(indent := s.indent + 2, lineage := [Entry(k, self, id)] + s.lineage);
      assert Prefixed(front, s).(indent := s.indent + 2, lineage := [Entry(k, self, id)] + s.lineage) == Prefixed(front, pushed);
      EmitPrefixed(front, pushed, ObjectHeader(g, id));
      var s1 := Emit(pushed, ObjectHeader(g, id));
      var props := g.types(g.heap(id).runtimeType).runtimeProperties;
      PropertiesShifts(k, g, self, id, level, props, 0, s1, front);
      EmitPrefixed(front, Properties(k, g, self, id, level, props, 0, s1), [Text("}")]);
    }
  }

  lemma {:induction false} PropertiesShifts(k: Pushed, g: Graph, self: NodeId, id: NodeId, level: int,
                                            props: seq<PropertyInfo>, i: nat, s: St, front: seq<Token>)
    requires level < MaxRecursion && i <= |props|
    ensures Properties(k, g, self, id, level, props, i, Prefixed(front, s))
            == Prefixed(front, Properties(k, g, self, id, level, props, i, s))
    decreases MaxRecursion - level, 0, |props| - i, 1
  {
    if i < |props| {
      PropertyShifts(k, g, self, id, level, props[i], s, front);
      PropertiesShifts(k, g, self, id, level, props, i + 1, Property(k, g, self, id, level, props[i], s), front);
    }
  }

  lemma {:induction false} PropertyShifts(k: Pushed, g: Graph, self: NodeId, id: NodeId, level: int,
                                          p: PropertyInfo, s: St, front: seq<Token>)
    requires level < MaxRecursion
    ensures Property(k, g, self, id, level, p, Prefixed(front, s)) == Prefixed(front, Property(k, g, self, id, level, p, s))
    decreases MaxRecursion - level, 0, 0, 0
  {
    EmitPrefixed(front, s, PropertyHeader(g, p));
    var s1 := Emit(s, PropertyHeader(g, p));
    if p.getter == NoGetter {
      EmitPrefixed(front, s1, [Spaces(1)]);
    } else {
      EmitPrefixed(front, s1, [Text(": ")]);
      var s3 := Emit(s1, [Text(": ")]);
      match g.heap(id).getValue(p)
      case Throws(text) =>
        EmitPrefixed(front, s3, [Text(text)]);
        EmitPrefixed(front, Emit(s3, [Text(text)]), [Spaces(1)]);
      case Returns(v) =>
        if v.Null? {
          EmitPrefixed(front, s3, [Field(NullMarker)]);
          EmitPrefixed(front, Emit(s3, [Field(NullMarker)]), [Spaces(1)]);
        } else if HasScalarTypeCode(g, v) {
          EmitPrefixed(front, s3, [Field(g.heap(v.id).shape.text)]);
          EmitPrefixed(front, Emit(s3, [Field(g.heap(v.id).shape.text)]), [Spaces(1)]);
        } else {
          EmitPrefixed(front, s3, [EndLine(s3.indent)]);
          var e := Emit(s3, [EndLine(s3.indent)]);
          InnerShifts(k, g, self, v.id, level + 1, e, front);
          var nested := Inner(k, g, self, v.id, level + 1, e);
          EmitPrefixed(front, nested, [EndLine(nested.indent)]);
          EmitPrefixed(front, Emit(nested, [EndLine(nested.indent)]), [Spaces(1)]);
        }
    }
  }

  /** What `InnerFormatObject` writes for `id` at the place `at` describes, into an empty sink. */
  function Own(k: Pushed, g: Graph, self: NodeId, id: NodeId, level: int, at: St): seq<Token>
  {
    Inner(k, g, self, id, level, Blank(at)).tokens
  }

  /** What one property writes at the place `at` describes, into an empty sink. */
  function PropertyOwn(k: Pushed, g: Graph, self: NodeId, id: NodeId, level: int, p: PropertyInfo, at: St): seq<Token>
    requires level < MaxRecursion
  {
    Property(k, g, self, id, level, p, Blank(at)).tokens
  }

  /** What the property loop writes from the `i`-th property on: each property's own tokens, in order. */
  function PropertiesWritten(k: Pushed, g: Graph, self: NodeId, id: NodeId, level: int,
                             props: seq<PropertyInfo>, i: nat, at: St): seq<Token>
    requires level < MaxRecursion
    decreases |props| - i
  {
    if i >= |props| then [] else PropertyOwn(k, g, self, id, level, props[i], at) + PropertiesWritten(k, g, self, id, level, props, i + 1, at)
  }

  /** An object's call appends exactly what it writes on its own. */
  lemma InnerWritesOwn(k: Pushed, g: Graph, self: NodeId, id: NodeId, level: int, s: St)
    ensures Inner(k, g, self, id, level, s).tokens == s.tokens + Own(k, g, self, id, level, s)
  {
    assert Prefixed(s.tokens, Blank(s)) == s;
    InnerShifts(k, g, self, id, level, Blank(s), s.tokens);
  }

  /** A property appends exactly what it writes on its own. */
  lemma PropertyWritesOwn(k: Pushed, g: Graph, self: NodeId, id: NodeId, level: int, p: PropertyInfo, s: St)
    requires level < MaxRecursion
    ensures Property(k, g, self, id, level, p, s).tokens == s.tokens + PropertyOwn(k, g, self, id, level, p, s)
  {
    assert Prefixed(s.tokens, Blank(s)) == s;
    PropertyShifts(k, g, self, id, level, p, Blank(s), s.tokens);
  }

  /**
   * The property loop writes every property, one after the other, each at
   * the same place: an exception from a getter is written where the value
   * would be and the loop goes on.
   */
  lemma {:induction false} PropertiesLayout(k: Pushed, g: Graph, self: NodeId, id: NodeId, level: int,
                                            props: seq<PropertyInfo>, i: nat, s: St)
    requires level < MaxRecursion && i <= |props|
    ensures Properties(k, g, self, id, level, props, i, s).tokens
            == s.tokens + PropertiesWritten(k, g, self, id, level, props, i, Blank(s))
    decreases |props| - i
  {
    if i == |props| {
      assert s.tokens + [] == s.tokens;
    } else {
      var next := PropertiesStep(k, g, self, id, level, props, i, s);
      PropertiesLayout(k, g, self, id, level, props, i + 1, next);
      var own := PropertyOwn(k, g, self, id, level, props[i], s);
      var rest := PropertiesWritten(k, g, self, id, level, props, i + 1, Blank(s));
      assert s.tokens + own + rest == s.tokens + (own + rest);
    }
  }

  /** One turn of the property loop, on the formatter and on its layout. */
  lemma PropertiesStep(k: Pushed, g: Graph, self: NodeId, id: NodeId, level: int,
                       props: seq<PropertyInfo>, i: nat, s: St) returns (next: St)
    requires level < MaxRecursion && i < |props|
    ensures Properties(k, g, self, id, level, props, i, s) == Properties(k, g, self, id, level, props, i + 1, next)
    ensures next.tokens == s.tokens + PropertyOwn(k, g, self, id, level, props[i], s) && Blank(next) == Blank(s)
    ensures PropertiesWritten(k, g, self, id, level, props, i, Blank(s))
            == PropertyOwn(k, g, self, id, level, props[i], s) + PropertiesWritten(k, g, self, id, level, props, i + 1, Blank(s))
  {
    next := Property(k, g, self, id, level, props[i], s);
    PropertyWritesOwn(k, g, self, id, level, props[i], s);
    assert Blank(Blank(s)) == Blank(s);
  }

  /**
   * `InnerFormatObject` writes the limit marker at the limit, the cycle
   * marker for an object on the lineage, and otherwise `{ Type: <FullName> `,
   * every runtime property two indent levels deeper with the object on
   * the lineage, and `}`.
   */
  lemma InnerLayout(k: Pushed, g: Graph, self: NodeId, id: NodeId, level: int, s: St)
    ensures level >= MaxRecursion ==> Own(k, g, self, id, level, s) == [Field(LimitMarker)]
    ensures level < MaxRecursion && id in s.lineage ==> Own(k, g, self, id, level, s) == [Field(CycleMarker)]
    ensures level < MaxRecursion && id !in s.lineage ==>
      Own(k, g, self, id, level, s)
      == ObjectHeader(g, id)
         + PropertiesWritten(k, g, self, id, level, g.types(g.heap(id).runtimeType).runtimeProperties, 0,
                             Blank(s).(indent := s.indent + 2, lineage := [Entry(k, self, id)] + s.lineage))
         + [Text("}")]
  {
    if level < MaxRecursion && id !in s.lineage {
      InnerObjectLayout(k, g, self, id, level, s);
    }
  }

  lemma InnerObjectLayout(k: Pushed, g: Graph, self: NodeId, id: NodeId, level: int, s: St)
    requires level < MaxRecursion && id !in s.lineage
    ensures Own(k, g, self, id, level, s)
            == ObjectHeader(g, id)
               + PropertiesWritten(k, g, self, id, level, g.types(g.heap(id).runtimeType).runtimeProperties, 0,
                                   Blank(s).(indent := s.indent + 2, lineage := [Entry(k, self, id)] + s.lineage))
               + [Text("}")]
  {
    var pushed := Blank(s).(indent := s.indent + 2, lineage := [Entry(k, self, id)] + s.lineage);
    var s1 := Emit(pushed, ObjectHeader(g, id));
    var props := g.types(g.heap(id).runtimeType).runtimeProperties;
    PropertiesLayout(k, g, self, id, level, props, 0, s1);
    assert Blank(s1) == pushed;
  }

  /**
   * One property: always `Name(PropertyType)`; then, only when it has a
   * getter, `: ` and the value: the exception's text when the getter
   * throws, `(null)`, a scalar's text as a field, or a nested object
   * between two line ends; then a space.
   */
  lemma PropertyLayout(k: Pushed, g: Graph, self: NodeId, id: NodeId, level: int, p: PropertyInfo, s: St)
    requires level < MaxRecursion
    ensures var own := PropertyOwn(k, g, self, id, level, p, s);
      && (p.getter == NoGetter ==> own == PropertyHeader(g, p) + [Spaces(1)])
      && (p.getter != NoGetter && g.heap(id).getValue(p).Throws? ==>
            own == PropertyHeader(g, p) + [Text(": "), Text(g.heap(id).getValue(p).text), Spaces(1)])
      && (p.getter != NoGetter && g.heap(id).getValue(p) == Returns(Null) ==>
            own == PropertyHeader(g, p) + [Text(": "), Field(NullMarker), Spaces(1)])
      && (p.getter != NoGetter && g.heap(id).getValue(p).Returns? ==>
            var v := g.heap(id).getValue(p).value;
            v.To? ==>
              if HasScalarTypeCode(g, v) then own == PropertyHeader(g, p) + [Text(": "), Field(g.heap(v.id).shape.text), Spaces(1)]
              else own == PropertyHeader(g, p) + [Text(": "), EndLine(s.indent)] + Own(k, g, self, v.id, level + 1, s)
                          + [EndLine(s.indent), Spaces(1)])
  {
    if p.getter == NoGetter {
      PropertyUnreadable(k, g, self, id, level, p, s);
    } else {
      match g.heap(id).getValue(p)
      case Throws(text) => PropertyThrows(k, g, self, id, level, p, s);
      case Returns(v) =>
        if v.Null? || HasScalarTypeCode(g, v) {
          PropertyPlain(k, g, self, id, level, p, s);
        } else {
          PropertyNested(k, g, self, id, level, p, s);
        }
    }
  }

  lemma PropertyUnreadable(k: Pushed, g: Graph, self: NodeId, id: NodeId, level: int, p: PropertyInfo, s: St)
    requires level < MaxRecursion && p.getter == NoGetter
    ensures PropertyOwn(k, g, self, id, level, p, s) == PropertyHeader(g, p) + [Spaces(1)]
  {
  }

  lemma PropertyThrows(k: Pushed, g: Graph, self: NodeId, id: NodeId, level: int, p: PropertyInfo, s: St)
    requires level < MaxRecursion && p.getter != NoGetter && g.heap(id).getValue(p).Throws?
    ensures PropertyOwn(k, g, self, id, level, p, s)
            == PropertyHeader(g, p) + [Text(": "), Text(g.heap(id).getValue(p).text), Spaces(1)]
  {
  }

  /** A null or scalar value: `(null)` or the value's text, as one field. */
  lemma PropertyPlain(k: Pushed, g: Graph, self: NodeId, id: NodeId, level: int, p: PropertyInfo, s: St)
    requires level < MaxRecursion && p.getter != NoGetter && g.heap(id).getValue(p).Returns?
    requires var v := g.heap(id).getValue(p).value; v.Null? || HasScalarTypeCode(g, v)
    ensures var v := g.heap(id).getValue(p).value;
      PropertyOwn(k, g, self, id, level, p, s)
      == PropertyHeader(g, p) + [Text(": "), Field(if v.Null? then NullMarker else g.heap(v.id).shape.text), Spaces(1)]
  {
  }

  lemma PropertyNested(k: Pushed, g: Graph, self: NodeId, id: NodeId, level: int, p: PropertyInfo, s: St)
    requires level < MaxRecursion && p.getter != NoGetter && g.heap(id).getValue(p).Returns?
    requires var v := g.heap(id).getValue(p).value; v.To? && !HasScalarTypeCode(g, v)
    ensures var v := g.heap(id).getValue(p).value;
      PropertyOwn(k, g, self, id, level, p, s)
      == PropertyHeader(g, p) + [Text(": "), EndLine(s.indent)] + Own(k, g, self, v.id, level + 1, s) + [EndLine(s.indent), Spaces(1)]
  {
    var v := g.heap(id).getValue(p).value;
    var e := Emit(Emit(Emit(Blank(s), PropertyHeader(g, p)), [Text(": ")]), [EndLine(s.indent)]);
    assert e.tokens == PropertyHeader(g, p) + [Text(": "), EndLine(s.indent)];
    InnerWritesOwn(k, g, self, v.id, level + 1, e);
    assert Blank(e) == Blank(s);
  }

  /**
   * `FormatObject`: `(null)` for null, a scalar's text as one unquoted
   * field, and anything else walked from level 0 with a fresh lineage, so
   * its header comes first and its properties are written below it.
   */
  lemma FormatObjectLayout(k: Pushed, g: Graph, self: NodeId, o: Ref, s: St)
    ensures var r := FormatObject(k, g, self, o, s);
      && (o.Null? ==> r.tokens == s.tokens + [Field(NullMarker)])
      && (o.To? && HasScalarTypeCode(g, o) ==> r.tokens == s.tokens + [Field(g.heap(o.id).shape.text)])
      && (o.To? && !HasScalarTypeCode(g, o) ==>
            && r.lineage == []
            && r.tokens == s.tokens + ObjectHeader(g, o.id)
               + PropertiesWritten(k, g, self, o.id, 0, g.types(g.heap(o.id).runtimeType).runtimeProperties, 0,
                                   Blank(s).(indent := s.indent + 2, lineage := [Entry(k, self, o.id)]))
               + [Text("}")])
  {
    if o.To? && !HasScalarTypeCode(g, o) {
      TopLevelObject(k, g, self, o.id, s);
    }
  }

  lemma TopLevelObject(k: Pushed, g: Graph, self: NodeId, id: NodeId, s: St)
    requires !HasScalarTypeCode(g, To(id))
    ensures var r := FormatObject(k, g, self, To(id), s);
      && r.lineage == []
      && r.tokens == s.tokens + ObjectHeader(g, id)
         + PropertiesWritten(k, g, self, id, 0, g.types(g.heap(id).runtimeType).runtimeProperties, 0,
                             Blank(s).(indent := s.indent + 2, lineage := [Entry(k, self, id)]))
         + [Text("}")]
  {
    var start := s.(lineage := []);
    FormatObjectUnfolds(k, g, self, id, s);
    ObjectWrites(k, g, self, id, 0, start);
    assert start.(indent := start.indent + 2, lineage := [Entry(k, self, id)] + start.lineage, tokens := [])
           == Blank(s).(indent := s.indent + 2, lineage := [Entry(k, self, id)]);
  }

  lemma FormatObjectUnfolds(k: Pushed, g: Graph, self: NodeId, id: NodeId, s: St)
    requires !HasScalarTypeCode(g, To(id))
    ensures FormatObject(k, g, self, To(id), s) == Inner(k, g, self, id, 0, s.(lineage := []))
  {
  }

  /** An object's call, on any sink: what `InnerObjectLayout` says it writes, appended. */
  lemma ObjectWrites(k: Pushed, g: Graph, self: NodeId, id: NodeId, level: int, s: St)
    requires level < MaxRecursion && id !in s.lineage
    ensures var r := Inner(k, g, self, id, level, s);
      && r.lineage == s.lineage
      && r.tokens == s.tokens + ObjectHeader(g, id)
         + PropertiesWritten(k, g, self, id, level, g.types(g.heap(id).runtimeType).runtimeProperties, 0,
                             s.(indent := s.indent + 2, lineage := [Entry(k, self, id)] + s.lineage, tokens := []))
         + [Text("}")]
  {
    InnerWritesOwn(k, g, self, id, level, s);
    InnerObjectLayout(k, g, self, id, level, s);
    assert Blank(s).(indent := s.indent + 2, lineage := [Entry(k, self, id)] + s.lineage)
           == s.(indent := s.indent + 2, lineage := [Entry(k, self, id)] + s.lineage, tokens := []);
  }

  /** No line end in `ts` is indented beyond `bound`. */
  predicate LinesWithin(ts: seq<Token>, bound: int)
  {
    forall j | 0 <= j < |ts| :: ts[j].EndLine? ==> ts[j].indent <= bound
  }

  /**
   * Objects nest at most `MaxRecursion` deep: everything an object's call
   * writes from `level` is indented at most two levels per remaining level
   * beyond where it starts.
   */
  lemma {:induction false} NestingBounded(k: Pushed, g: Graph, self: NodeId, id: NodeId, level: int, s: St)
    ensures LinesWithin(Own(k, g, self, id, level, s), s.indent + 2 * (MaxRecursion - level))
    decreases MaxRecursion - level, 2
  {
    InnerLayout(k, g, self, id, level, s);
    if level < MaxRecursion && id !in s.lineage {
      var pushed := Blank(s).(indent := s.indent + 2, lineage := [Entry(k, self, id)] + s.lineage);
      var props := g.types(g.heap(id).runtimeType).runtimeProperties;
      PropertiesNestingBounded(k, g, self, id, level, props, 0, pushed);
    }
  }

  lemma {:induction false} PropertiesNestingBounded(k: Pushed, g: Graph, self: NodeId, id: NodeId, level: int,
                                                    props: seq<PropertyInfo>, i: nat, at: St)
    requires level < MaxRecursion && i <= |props|
    ensures LinesWithin(PropertiesWritten(k, g, self, id, level, props, i, at), at.indent + 2 * (MaxRecursion - level - 1))
    decreases MaxRecursion - level, 1, |props| - i
  {
    if i < |props| {
      PropertyNestingBounded(k, g, self, id, level, props[i], at);
      PropertiesNestingBounded(k, g, self, id, level, props, i + 1, at);
    }
  }

  lemma PropertyNestingBounded(k: Pushed, g: Graph, self: NodeId, id: NodeId, level: int, p: PropertyInfo, at: St)
    requires level < MaxRecursion
    ensures LinesWithin(PropertyOwn(k, g, self, id, level, p, at), at.indent + 2 * (MaxRecursion - level - 1))
    decreases MaxRecursion - level, 0, 0
  {
    var bound := at.indent + 2 * (MaxRecursion - level - 1);
    var head := PropertyHeader(g, p);
    assert LinesWithin(head, bound);
    if p.getter == NoGetter {
      PropertyUnreadable(k, g, self, id, level, p, at);
      LinesWithinJoin(head, [Spaces(1)], bound);
    } else {
      match g.heap(id).getValue(p)
      case Throws(text) =>
        PropertyThrows(k, g, self, id, level, p, at);
        LinesWithinJoin(head, [Text(": "), Text(text), Spaces(1)], bound);
      case Returns(v) =>
        if v.Null? || HasScalarTypeCode(g, v) {
          PropertyPlain(k, g, self, id, level, p, at);
          LinesWithinJoin(head, [Text(": "), Field(if v.Null? then NullMarker else g.heap(v.id).shape.text), Spaces(1)], bound);
        } else {
          PropertyNested(k, g, self, id, level, p, at);
          var own := Own(k, g, self, v.id, level + 1, at);
          NestingBounded(k, g, self, v.id, level + 1, at);
          LinesWithinJoin(head, [Text(": "), EndLine(at.indent)], bound);
          LinesWithinJoin(head + [Text(": "), EndLine(at.indent)], own, bound);
          LinesWithinJoin(head + [Text(": "), EndLine(at.indent)] + own, [EndLine(at.indent), Spaces(1)], bound);
        }
    }
  }

  lemma LinesWithinJoin(a: seq<Token>, b: seq<Token>, bound: int)
    requires LinesWithin(a, bound) && LinesWithin(b, bound)
    ensures LinesWithin(a + b, bound)
  {
    forall j | 0 <= j < |a + b|
      ensures (a + b)[j].EndLine? ==> (a + b)[j].indent <= bound
    {
      if j >= |a| {
        assert (a + b)[j] == b[j - |a|];
      }
    }
  }

}

/**
 * The older formatter as the source writes it: one recursive method whose
 * `foreach` writes each property to the sink. Each method is proved to do
 * what `LegacySpec` describes with the formatter itself pushed on the
 * lineage.
 */
module LegacyFormatting {
  import opened ObjectGraph
  import opened Sink
  import opened Ancestry
  import opened RenderSpec
  import opened LegacySpec
  import opened Formatting

  class LegacyReflectionFormatter {
    /** The formatter's own identity in the heap: what `lineage.Push(this)` pushes. */
    const Self: NodeId

    constructor (self: NodeId)
      ensures Self == self
    {
      Self := self;
    }

    /** `FormatObject`: null and scalars as one field each; anything else from level 0 with a new, empty stack. */
    method FormatObject(g: Graph, o: Ref, w: FormatWriter)
      modifies w
      ensures var r := LegacySpec.FormatObject(PushesFormatter, g, Self, o,
                                                St(old(w.tokens), old(w.IndentLevel), [], w.FieldDelimiter));
        w.tokens == r.tokens && w.IndentLevel == r.indent
    {
      if o.Null? {
        w.WriteField(NullMarker);
        return;
      }
      if HasScalarTypeCode(g, o) {
        w.WriteField(g.heap(o.id).shape.text);
        return;
      }
      var lineage := new Lineage();
      InnerFormatObject(g, o.id, w, 0, lineage);
    }

    /** `InnerFormatObject`: depth, then lineage, then indent by two, push, header, properties, and restore. */
    method InnerFormatObject(g: Graph, id: NodeId, w: FormatWriter, level: int, lineage: Lineage)
      modifies w, lineage
      ensures Snap(w, lineage) == LegacySpec.Inner(PushesFormatter, g, Self, id, level, old(Snap(w, lineage)))
      decreases MaxRecursion - level, 1
    {
      if level >= MaxRecursion {
        w.WriteField(LimitMarker);
        return;
      }
      if id in lineage.items {
        w.WriteField(CycleMarker);
        return;
      }
      ghost var s0 := Snap(w, lineage);
      var previousIndentLevel := w.IndentLevel;
      w.IndentLevel := w.IndentLevel + 2;
      lineage.Push(Self);
      w.WriteText("{ ");
      w.WriteText("Type: ");
      var objectType := g.heap(id).runtimeType;
      w.WriteText(g.types(objectType).fullName);
      w.WriteSpaces(1);
      ghost var s1 := Snap(w, lineage);
      assert s1 == Emit(s0.(indent := s0.indent + 2, lineage := [Self] + s0.lineage), ObjectHeader(g, id));
      var props := g.types(objectType).runtimeProperties;
      ghost var walked := Properties(PushesFormatter, g, Self, id, level, props, 0, s1);
      var i := 0;
      while i < |props|
        invariant 0 <= i <= |props|
        invariant Properties(PushesFormatter, g, Self, id, level, props, i, Snap(w, lineage)) == walked
      {
        FormatProperty(g, id, props[i], w, level, lineage);
        i := i + 1;
      }
      w.WriteText("}");
      w.IndentLevel := previousIndentLevel;
      lineage.Pop();
    }

    /** The body of the `foreach`: header, then `: ` and the value when the property can be read, then a space. */
    method FormatProperty(g: Graph, id: NodeId, p: PropertyInfo, w: FormatWriter, level: int, lineage: Lineage)
      requires level < MaxRecursion
      modifies w, lineage
      ensures Snap(w, lineage) == Property(PushesFormatter, g, Self, id, level, p, old(Snap(w, lineage)))
      decreases MaxRecursion - level, 0
    {
      ghost var s0 := Snap(w, lineage);
      w.WriteText(p.name);
      w.WriteText("(");
      w.WriteText(g.types(p.propertyType).fullName);
      w.WriteText(")");
      assert Snap(w, lineage) == Emit(s0, PropertyHeader(g, p));
      if p.getter != NoGetter {
        w.WriteText(": ");
        match g.heap(id).getValue(p) {
          case Throws(text) =>
            w.WriteText(text);
          case Returns(v) =>
            if v.Null? {
              w.WriteField(NullMarker);
            } else if HasScalarTypeCode(g, v) {
              w.WriteField(g.heap(v.id).shape.text);
            } else {
              w.WriteEndLine();
              InnerFormatObject(g, v.id, w, level + 1, lineage);
              w.WriteEndLine();
            }
        }
      }
      w.WriteSpaces(1);
    }
  }
}
