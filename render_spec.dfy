/**
 * Reference semantics of the current reflection formatter
 * (`LogJam.Extensions.Logging.Format.ReflectionFormatter`).
 *
 * Each function takes the sink and lineage state on entry (`St`) and gives
 * the state on exit together with how the call ended. `Normal(m)` carries
 * the maximum recursion level reached; `Thrown(t)` is an exception with
 * text `t` escaping the call. The only exceptions that escape a call are
 * those raised while enumerating a collection and the null-reference
 * exception from printing a null dictionary key; a property getter's
 * exception is caught where the property is read.
 *
 * `Cleanup` selects how `InnerFormatObject` restores the lineage and the
 * indent: `AsWritten` restores them on normal return only (there is no
 * `finally`), `Finally` on every exit.
 */
module RenderSpec {
  import opened ObjectGraph
  import opened Sink
  import opened Quoting
  import opened ReflectionExtensions

  datatype Config = Config(includeTypeNames: bool, maxDepth: int)
  datatype Cleanup = AsWritten | Finally
  datatype St = St(tokens: seq<Token>, indent: int, lineage: seq<NodeId>, delimiter: string)
  datatype Outcome = Normal(maxLevel: int) | Thrown(text: string)
  /** How a top-level `FormatObject` call ends: normally, or with an exception reaching the caller. */
  datatype Completion = Completed | Raised(text: string)

  const DefaultMaxDepth: int := 10
  const NullMarker: string := "(null)"
  const LimitMarker: string := "(Recursion limit exceeded)"
  const IndexedPropertyMessage: string := "Properties with index parameters are not formatted"
  /** Stands for the text of the NullReferenceException that `null.ToString()` raises. */
  const NullReferenceText: string := "System.NullReferenceException: Object reference not set to an instance of an object."

  function Max(a: int, b: int): int
  {
    if a >= b then a else b
  }

  function Digit(d: nat): char
    requires d < 10
  {
    "0123456789"[d]
  }

  function DecimalString(n: nat): string
    decreases n
  {
    if n < 10 then [Digit(n)] else DecimalString(n / 10) + [Digit(n % 10)]
  }

  function ParentMarker(n: nat): string
  {
    "(Parent " + DecimalString(n) + ")"
  }

  /** The 0-based position of `x` counted from the top of the lineage. */
  function FirstIndex(xs: seq<NodeId>, x: NodeId): (n: nat)
    requires x in xs
    ensures n < |xs| && xs[n] == x
    ensures forall j | 0 <= j < n :: xs[j] != x
  {
    if xs[0] == x then 0 else 1 + FirstIndex(xs[1..], x)
  }

  ghost predicate NodeFaultless(n: Node)
  {
    match n.shape
    case Dictionary(_, _, pairs, failure) => failure.None? && forall i | 0 <= i < |pairs| :: pairs[i].0.To?
    case Enumerable(_, failure) => failure.None?
    case _ => true
  }

  /** No collection in the graph throws while enumerated and no dictionary has a null key. */
  ghost predicate Faultless(g: Graph)
  {
    forall id: NodeId {:trigger g.heap(id)} :: NodeFaultless(g.heap(id))
  }

  /** The conditions under which every call leaves the lineage as it found it. */
  ghost predicate Balanced(k: Cleanup, g: Graph)
  {
    k == Finally || Faultless(g)
  }

  function Emit(s: St, ts: seq<Token>): St
  {
    s.(tokens := s.tokens + ts)
  }

  /** `s` with `front` written before everything it holds. */
  function Prefixed(front: seq<Token>, s: St): St
  {
    s.(tokens := front + s.tokens)
  }

  function PrefixedResult<O>(front: seq<Token>, r: (St, O)): (St, O)
  {
    (Prefixed(front, r.0), r.1)
  }

  lemma EmitPrefixed(front: seq<Token>, s: St, ts: seq<Token>)
    ensures Emit(Prefixed(front, s), ts) == Prefixed(front, Emit(s, ts))
  {
    assert (front + s.tokens) + ts == front + (s.tokens + ts);
  }

  /** `s` with an empty sink: only the place it describes, its indent, lineage and delimiter. */
  function Blank(s: St): St
  {
    s.(tokens := [])
  }

  /** The writer calls of `FormatAsPrimitive` for a primitive whose ToString() is `text`. */
  function PrimitiveTokens(text: string): seq<Token>
  {
    if NeedsQuotes(text) then [Text("\""), Text(DoubleQuotes(text)), Text("\"")] else [Text(text)]
  }

  /** The local `WriteErrorAsPropertyValue`: a colon unless one was written, then `!(message)!`. */
  function ErrorValue(colonWritten: bool, message: string): seq<Token>
  {
    (if colonWritten then [] else [Text(":")]) + [Text("!("), Text(message), Text(")!")]
  }

  /** `InnerFormatObject`: null, then depth, then lineage, then primitive, then push and dispatch. */
  function Inner(c: Config, k: Cleanup, g: Graph, o: Ref, level: int, pt: Option<TypeId>, s: St): (r: (St, Outcome))
    requires WellFormedTypes(g)
    ensures r.0.delimiter == s.delimiter
    ensures |s.lineage| <= |r.0.lineage|
    ensures r.1.Normal? ==> level <= r.1.maxLevel <= Max(level, c.maxDepth)
    ensures (r.1.Normal? || k == Finally) ==> r.0.indent == s.indent
    ensures Balanced(k, g) ==> r.0.lineage == s.lineage
    ensures Faultless(g) ==> r.1.Normal?
    decreases c.maxDepth - level, 3, 0
  {
    if o.Null? then (Emit(s, [Text(NullMarker)]), Normal(level))
    else if level >= c.maxDepth then (Emit(s, [Text(LimitMarker)]), Normal(level))
    else if o.id in s.lineage then (Emit(s, [Text(ParentMarker(FirstIndex(s.lineage, o.id)))]), Normal(level))
    else if ShouldFormatAsPrimitive(g, o) then (Emit(s, PrimitiveTokens(g.heap(o.id).shape.text)), Normal(level))
    else
      var pushed := s.(lineage := [o.id] + s.lineage);
      var rendered := Render(c, k, g, o.id, level, pt, pushed);
      var s2 := rendered.0;
      if rendered.1.Normal? || k == Finally then (s2.(indent := s.indent, lineage := s2.lineage[1..]), rendered.1)
      else rendered
  }

  /** Dispatch on the shape: dictionary, other enumerable, or plain object. */
  function Render(c: Config, k: Cleanup, g: Graph, id: NodeId, level: int, pt: Option<TypeId>, s: St): (r: (St, Outcome))
    requires WellFormedTypes(g) && level < c.maxDepth && !g.heap(id).shape.Primitive?
    ensures r.0.delimiter == s.delimiter
    ensures |s.lineage| <= |r.0.lineage|
    ensures r.1.Normal? ==> level <= r.1.maxLevel <= c.maxDepth
    ensures Balanced(k, g) ==> r.0.lineage == s.lineage
    ensures Faultless(g) ==> r.1.Normal?
    decreases c.maxDepth - level, 2, 0
  {
    match g.heap(id).shape
    case Dictionary(_, _, _, _) => AsDictionary(c, k, g, id, level, pt, s)
    case Enumerable(_, _) => AsEnumerable(c, k, g, id, level, s)
    case Plain => AsObject(c, k, g, id, level, pt, s)
  }

  /** `FormatAsObject`. Never throws: every failure of a property is written in its place. */
  function AsObject(c: Config, k: Cleanup, g: Graph, id: NodeId, level: int, pt: Option<TypeId>, s: St): (r: (St, Outcome))
    requires WellFormedTypes(g) && level < c.maxDepth
    ensures r.0.delimiter == s.delimiter
    ensures |s.lineage| <= |r.0.lineage|
    ensures r.1.Normal? && level <= r.1.maxLevel <= c.maxDepth
    ensures Balanced(k, g) ==> r.0.lineage == s.lineage && r.0.indent == s.indent
    decreases c.maxDepth - level, 1, 0
  {
    var t := g.heap(id).runtimeType;
    AfterProperties(ObjectProperties(c, k, g, id, level, ReadablePublicProperties(g, t), 0, ObjectOpening(c, g, id, level, pt, s), level))
  }

  /** Whether a collection or object announces its runtime type: only when it differs from the declared one. */
  predicate ShowsType(c: Config, g: Graph, id: NodeId, pt: Option<TypeId>)
  {
    c.includeTypeNames && pt != Some(g.heap(id).runtimeType)
  }

  /**
   * What `FormatAsObject` writes before the properties: the brace (on a line
   * of its own below level 0), one more indent, and the optional type line.
   */
  function ObjectOpening(c: Config, g: Graph, id: NodeId, level: int, pt: Option<TypeId>, s: St): St
  {
    var s1 := Emit(s, [Field("{")] + (if level > 0 then [EndLine(s.indent)] else []));
    var s2 := s1.(indent := s1.indent + 1);
    if ShowsType(c, g, id, pt)
    then Emit(s2, [Field("type:"), Text(g.types(g.heap(id).runtimeType).displayName), Line(s2.indent)])
    else s2
  }

  /**
   * What `FormatAsObject` does once the properties are written: a line end
   * when anything nested went deeper than level 1, then the closing brace.
   */
  function AfterProperties(walked: (St, int)): (St, Outcome)
  {
    var s := walked.0;
    var s1 := Emit(s, if walked.1 > 1 then [EndLine(s.indent)] else []);
    (Emit(s1.(indent := s1.indent - 1), [Field("}")]), Normal(walked.1))
  }

  /** The `foreach` over the readable properties of `FormatAsObject`, from the `i`-th on. */
  function ObjectProperties(c: Config, k: Cleanup, g: Graph, id: NodeId, level: int,
                            props: seq<PropertyInfo>, i: nat, s: St, m: int): (r: (St, int))
    requires WellFormedTypes(g) && level < c.maxDepth && i <= |props| && level <= m <= c.maxDepth
    ensures r.0.delimiter == s.delimiter
    ensures |s.lineage| <= |r.0.lineage|
    ensures m <= r.1 <= c.maxDepth
    ensures Balanced(k, g) ==> r.0.lineage == s.lineage && r.0.indent == s.indent
    decreases c.maxDepth - level, 0, |props| - i, 1
  {
    if i == |props| then (s, m)
    else
      var one := OneProperty(c, k, g, id, level, props[i], s, m);
      ObjectProperties(c, k, g, id, level, props, i + 1, one.0, one.1)
  }

  /**
   * One iteration of that loop: the name, then either an error marker (index
   * parameters, a throwing getter, or an exception escaping the value's
   * formatting) or the optional `(<propertyType>)` prefix, a colon and the value.
   */
  function OneProperty(c: Config, k: Cleanup, g: Graph, id: NodeId, level: int,
                       p: PropertyInfo, s: St, m: int): (r: (St, int))
    requires WellFormedTypes(g) && level < c.maxDepth && level <= m <= c.maxDepth
    ensures r.0.delimiter == s.delimiter
    ensures |s.lineage| <= |r.0.lineage|
    ensures m <= r.1 <= c.maxDepth
    ensures Balanced(k, g) ==> r.0.lineage == s.lineage && r.0.indent == s.indent
    decreases c.maxDepth - level, 0, 0, 0
  {
    var s1 := Emit(s, [Field(p.name)]);
    if p.indexParameterCount > 0 then (Emit(s1, ErrorValue(false, IndexedPropertyMessage)), m)
    else match g.heap(id).getValue(p)
      case Throws(text) => (Emit(s1, ErrorValue(false, text)), m)
      case Returns(v) =>
        var prefix := if c.includeTypeNames && !HasRuntimeType(g, v, p.propertyType)
          then [Text("("), Text(g.types(p.propertyType).displayName), Text(")")]
          else [];
        var s2 := Emit(s1, prefix + [Text(":")]);
        var child := Inner(c, k, g, v, level + 1, Some(p.propertyType), s2);
        if child.1.Normal? then (child.0, Max(m, child.1.maxLevel))
        else (Emit(child.0, ErrorValue(true, child.1.text)), m)
  }

  /** `FormatAsDictionary`. */
  function AsDictionary(c: Config, k: Cleanup, g: Graph, id: NodeId, level: int, pt: Option<TypeId>, s: St): (r: (St, Outcome))
    requires WellFormedTypes(g) && level < c.maxDepth && g.heap(id).shape.Dictionary?
    ensures r.0.delimiter == s.delimiter
    ensures |s.lineage| <= |r.0.lineage|
    ensures r.1.Normal? ==> level <= r.1.maxLevel <= c.maxDepth
    ensures Balanced(k, g) ==> r.0.lineage == s.lineage && (r.1.Normal? ==> r.0.indent == s.indent)
    ensures Faultless(g) ==> r.1.Normal?
    decreases c.maxDepth - level, 1, 0
  {
    var node := g.heap(id);
    var d := node.shape;
    if |d.pairs| == 0 then
      // `dictionary.Any()` enumerates: it throws if the enumeration does
      if d.failure.Some? then (s, Thrown(d.failure.value)) else (Emit(s, [Field("{}")]), Normal(level))
    else
      AfterPairs(g, id, DictionaryPairs(c, k, g, id, level, 0, DictionaryOpening(c, g, id, pt, s), !ShowsType(c, g, id, pt), level))
  }

  /** What `FormatAsDictionary` writes before a non-empty dictionary's pairs. */
  function DictionaryOpening(c: Config, g: Graph, id: NodeId, pt: Option<TypeId>, s: St): St
  {
    var s1 := Emit(s, [Field("{")]);
    var s2 := s1.(indent := s1.indent + 1);
    if ShowsType(c, g, id, pt)
    then Emit(s2, [Field("type:"), Text(g.types(g.heap(id).runtimeType).displayName)])
    else s2
  }

  /**
   * What `FormatAsDictionary` does once the pairs are walked: pass on their
   * exception, raise the enumeration's own, or close the brace.
   */
  function AfterPairs(g: Graph, id: NodeId, walked: (St, Outcome)): (St, Outcome)
    requires g.heap(id).shape.Dictionary?
  {
    var s := walked.0;
    if walked.1.Thrown? then walked
    else if g.heap(id).shape.failure.Some? then (s, Thrown(g.heap(id).shape.failure.value))
    else
      var s1 := Emit(s, [EndLine(s.indent)]);
      (Emit(s1.(indent := s1.indent - 1), [Field("}")]), walked.1)
  }

  /** The `foreach` over the pairs of `FormatAsDictionary`, from the `i`-th on. */
  function DictionaryPairs(c: Config, k: Cleanup, g: Graph, id: NodeId, level: int,
                           i: nat, s: St, onFirstPair: bool, m: int): (r: (St, Outcome))
    requires WellFormedTypes(g) && level < c.maxDepth && g.heap(id).shape.Dictionary?
    requires i <= |g.heap(id).shape.pairs| && level <= m <= c.maxDepth
    ensures r.0.delimiter == s.delimiter
    ensures |s.lineage| <= |r.0.lineage|
    ensures r.1.Normal? ==> m <= r.1.maxLevel <= c.maxDepth
    ensures Balanced(k, g) ==> r.0.lineage == s.lineage && (r.1.Normal? ==> r.0.indent == s.indent)
    ensures Faultless(g) ==> r.1.Normal?
    decreases c.maxDepth - level, 0, |g.heap(id).shape.pairs| - i, 3
  {
    var d := g.heap(id).shape;
    if i == |d.pairs| then (s, Normal(m))
    else
      var s1 := Emit(s, (if onFirstPair then [] else [Text(",")]) + [EndLine(s.indent), Field("{")]);
      var s2 := s1.(indent := s1.indent + 1);
      if ShouldFormatAsPrimitive(g, d.pairs[i].0) then PrimitiveKeyPair(c, k, g, id, level, i, s2, m)
      else ObjectKeyPair(c, k, g, id, level, i, s2, m)
  }

  /** A pair whose key is primitive: `key:value` on one line. */
  function PrimitiveKeyPair(c: Config, k: Cleanup, g: Graph, id: NodeId, level: int,
                            i: nat, s: St, m: int): (r: (St, Outcome))
    requires WellFormedTypes(g) && level < c.maxDepth && g.heap(id).shape.Dictionary?
    requires i < |g.heap(id).shape.pairs| && level <= m <= c.maxDepth
    requires ShouldFormatAsPrimitive(g, g.heap(id).shape.pairs[i].0)
    ensures r.0.delimiter == s.delimiter
    ensures |s.lineage| <= |r.0.lineage|
    ensures r.1.Normal? ==> m <= r.1.maxLevel <= c.maxDepth
    ensures Balanced(k, g) ==> r.0.lineage == s.lineage && (r.1.Normal? ==> r.0.indent == s.indent - 1)
    ensures Faultless(g) ==> r.1.Normal?
    decreases c.maxDepth - level, 0, |g.heap(id).shape.pairs| - i, 2
  {
    var d := g.heap(id).shape;
    var key := d.pairs[i].0;
    var s1 := Emit(s, [Text(s.delimiter)]);
    // `FormatAsPrimitive(null)` calls ToString() on null
    if key.Null? then (s1, Thrown(NullReferenceText))
    else
      var s2 := Emit(s1, PrimitiveTokens(g.heap(key.id).shape.text) + [Text(":")]);
      var child := Inner(c, k, g, d.pairs[i].1, level + 1, Some(d.valueType), s2);
      PairEnd(c, k, g, id, level, i, child.0, child.1, m)
  }

  /** A pair whose key is not primitive: `Key:<key>,` then a line break, then `Value:<value>`. */
  function ObjectKeyPair(c: Config, k: Cleanup, g: Graph, id: NodeId, level: int,
                         i: nat, s: St, m: int): (r: (St, Outcome))
    requires WellFormedTypes(g) && level < c.maxDepth && g.heap(id).shape.Dictionary?
    requires i < |g.heap(id).shape.pairs| && level <= m <= c.maxDepth
    ensures r.0.delimiter == s.delimiter
    ensures |s.lineage| <= |r.0.lineage|
    ensures r.1.Normal? ==> m <= r.1.maxLevel <= c.maxDepth
    ensures Balanced(k, g) ==> r.0.lineage == s.lineage && (r.1.Normal? ==> r.0.indent == s.indent - 1)
    ensures Faultless(g) ==> r.1.Normal?
    decreases c.maxDepth - level, 0, |g.heap(id).shape.pairs| - i, 2
  {
    var d := g.heap(id).shape;
    var s1 := Emit(s, [Field("Key"), Text(":")]);
    var keyDone := Inner(c, k, g, d.pairs[i].0, level + 1, Some(d.keyType), s1);
    var s2 := keyDone.0;
    if keyDone.1.Thrown? then keyDone
    else
      var s3 := Emit(s2, [Text(","), EndLine(s2.indent), Field("Value"), Text(":")]);
      var valueDone := Inner(c, k, g, d.pairs[i].1, level + 1, Some(d.valueType), s3);
      PairEnd(c, k, g, id, level, i, valueDone.0, valueDone.1, Max(m, keyDone.1.maxLevel))
  }

  /** The end of one pair: a line break after a non-primitive value, the closing brace, then the next pair. */
  function PairEnd(c: Config, k: Cleanup, g: Graph, id: NodeId, level: int,
                   i: nat, s: St, out: Outcome, m: int): (r: (St, Outcome))
    requires WellFormedTypes(g) && level < c.maxDepth && g.heap(id).shape.Dictionary?
    requires i < |g.heap(id).shape.pairs| && level <= m <= c.maxDepth
    requires out.Normal? ==> out.maxLevel <= c.maxDepth
    ensures r.0.delimiter == s.delimiter
    ensures |s.lineage| <= |r.0.lineage|
    ensures r.1.Normal? ==> m <= r.1.maxLevel <= c.maxDepth
    ensures Balanced(k, g) ==> r.0.lineage == s.lineage
    ensures Balanced(k, g) && r.1.Normal? ==> r.0.indent == s.indent - 1
    ensures Faultless(g) && out.Normal? ==> r.1.Normal?
    decreases c.maxDepth - level, 0, |g.heap(id).shape.pairs| - i, 1
  {
    if out.Thrown? then (s, out)
    else
      var value := g.heap(id).shape.pairs[i].1;
      var s1 := Emit(s, if ShouldFormatAsPrimitive(g, value) then [] else [Line(s.indent)]);
      var s2 := s1.(indent := s1.indent - 1);
      DictionaryPairs(c, k, g, id, level, i + 1, Emit(s2, [Field("}")]), false, Max(m, out.maxLevel))
  }

  /** Whether every element is primitive or null, as the pre-scan of `FormatAsEnumerable` decides. */
  predicate AllPrimitive(g: Graph, elements: seq<Ref>)
  {
    forall j | 0 <= j < |elements| :: ShouldFormatAsPrimitive(g, elements[j])
  }

  /** `FormatAsEnumerable`. */
  function AsEnumerable(c: Config, k: Cleanup, g: Graph, id: NodeId, level: int, s: St): (r: (St, Outcome))
    requires WellFormedTypes(g) && level < c.maxDepth && g.heap(id).shape.Enumerable?
    ensures r.0.delimiter == s.delimiter
    ensures |s.lineage| <= |r.0.lineage|
    ensures r.1.Normal? ==> level <= r.1.maxLevel <= c.maxDepth
    ensures Balanced(k, g) ==> r.0.lineage == s.lineage && (r.1.Normal? ==> r.0.indent == s.indent)
    ensures Faultless(g) ==> r.1.Normal?
    decreases c.maxDepth - level, 1, 0
  {
    var e := g.heap(id).shape;
    var allPrimitive := AllPrimitive(g, e.elements);
    // The pre-scan stops at the first non-primitive element; otherwise it enumerates to the end.
    if allPrimitive && e.failure.Some? then (s, Thrown(e.failure.value))
    else if |e.elements| == 0 then (Emit(s, [Field("[]")]), Normal(level))
    else
      var s1 := Emit(s, [Field("[")]);
      AfterElements(g, id, allPrimitive, Elements(c, k, g, id, allPrimitive, level, 0, s1.(indent := s1.indent + 1), level))
  }

  /**
   * What `FormatAsEnumerable` does once the elements are walked: pass on
   * their exception, raise the enumeration's own, or close the bracket.
   */
  function AfterElements(g: Graph, id: NodeId, allPrimitive: bool, walked: (St, Outcome)): (St, Outcome)
    requires g.heap(id).shape.Enumerable?
  {
    var s := walked.0;
    if walked.1.Thrown? then walked
    else if g.heap(id).shape.failure.Some? then (s, Thrown(g.heap(id).shape.failure.value))
    else
      var s1 := s.(indent := s.indent - 1);
      (Emit(s1, (if allPrimitive then [] else [EndLine(s1.indent)]) + [Field("]")]), walked.1)
  }

  /** The second `foreach` of `FormatAsEnumerable`, from the `i`-th element on. */
  function Elements(c: Config, k: Cleanup, g: Graph, id: NodeId, allPrimitive: bool, level: int,
                    i: nat, s: St, m: int): (r: (St, Outcome))
    requires WellFormedTypes(g) && level < c.maxDepth && g.heap(id).shape.Enumerable?
    requires i <= |g.heap(id).shape.elements| && level <= m <= c.maxDepth
    ensures r.0.delimiter == s.delimiter
    ensures |s.lineage| <= |r.0.lineage|
    ensures r.1.Normal? ==> m <= r.1.maxLevel <= c.maxDepth
    ensures Balanced(k, g) ==> r.0.lineage == s.lineage && (r.1.Normal? ==> r.0.indent == s.indent)
    ensures Faultless(g) ==> r.1.Normal?
    decreases c.maxDepth - level, 0, |g.heap(id).shape.elements| - i
  {
    var elements := g.heap(id).shape.elements;
    if i == |elements| then (s, Normal(m))
    else
      var s1 := Emit(s, (if i == 0 then [] else [Text(",")]) + (if allPrimitive then [] else [EndLine(s.indent)]));
      var child := Inner(c, k, g, elements[i], level + 1, None, s1);
      if child.1.Thrown? then child
      else
        Elements(c, k, g, id, allPrimitive, level, i + 1, child.0, Max(m, child.1.maxLevel))
  }

  /** `FormatObject`: top-level null and primitives are written directly; anything else is walked from level 0. */
  function FormatObject(c: Config, k: Cleanup, g: Graph, o: Ref, s: St): (r: (St, Completion))
    requires WellFormedTypes(g)
    ensures (r.1.Completed? || k == Finally) ==> r.0.indent == s.indent
    ensures Balanced(k, g) ==> r.0.lineage == s.lineage
    ensures Faultless(g) ==> r.1.Completed?
  {
    if o.Null? then (Emit(s, [Field(NullMarker)]), Completed)
    else if ShouldFormatAsPrimitive(g, o) then (Emit(s, PrimitiveTokens(g.heap(o.id).shape.text)), Completed)
    else
      var walked := Inner(c, k, g, o, 0, None, s);
      (walked.0, if walked.1.Normal? then Completed else Raised(walked.1.text))
  }
}
