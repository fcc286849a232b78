/**
 * The current reflection formatter as the source writes it: a class whose
 * methods write to the sink, raise and restore its `IndentLevel`, and push
 * and pop the shared lineage stack. Each method is proved to do exactly
 * what its counterpart in `RenderSpec` describes, with `Cleanup.AsWritten`
 * (lineage and indent restored on normal return only). An escaping
 * exception is the `Thrown` outcome: the method returns at once, skipping
 * the rest of its body, as the exception would.
 */
module Formatting {
  import opened ObjectGraph
  import opened Sink
  import opened Ancestry
  import opened Quoting
  import opened ReflectionExtensions
  import opened RenderSpec

  /** The sink and lineage state, as the reference semantics sees it. */
  ghost function Snap(w: FormatWriter, lineage: Lineage): St
    reads w, lineage
  {
    St(w.tokens, w.IndentLevel, lineage.items, w.FieldDelimiter)
  }

  /** `FormatAsPrimitive`: quoted with doubled quotes when needed, raw otherwise. */
  method FormatAsPrimitive(text: string, w: FormatWriter)
    modifies w
    ensures w.tokens == old(w.tokens) + PrimitiveTokens(text) && w.IndentLevel == old(w.IndentLevel)
  {
    if NeedsQuotes(text) {
      w.WriteText("\"");
      w.WriteText(DoubleQuotes(text));
      w.WriteText("\"");
    } else {
      w.WriteText(text);
    }
  }

  /** The local function `WriteErrorAsPropertyValue`. */
  method WriteErrorAsPropertyValue(w: FormatWriter, colonWritten: bool, message: string)
    modifies w
    ensures w.tokens == old(w.tokens) + ErrorValue(colonWritten, message) && w.IndentLevel == old(w.IndentLevel)
  {
    if !colonWritten {
      w.WriteText(":");
    }
    w.WriteText("!(");
    w.WriteText(message);
    w.WriteText(")!");
  }

  class ReflectionFormatter {
    var IncludeTypeNames: bool
    var MaxDepth: int

    constructor ()
      ensures !IncludeTypeNames && MaxDepth == DefaultMaxDepth
    {
      IncludeTypeNames := false;
      MaxDepth := DefaultMaxDepth;
    }

    function Settings(): Config
      reads this
    {
      Config(IncludeTypeNames, MaxDepth)
    }

    /** `FormatObject`: a fresh, empty lineage for every top-level call. */
    method FormatObject(g: Graph, o: Ref, w: FormatWriter) returns (done: Completion)
      requires WellFormedTypes(g)
      modifies w
      ensures var r := RenderSpec.FormatObject(Settings(), AsWritten, g, o,
                                                St(old(w.tokens), old(w.IndentLevel), [], w.FieldDelimiter));
        w.tokens == r.0.tokens && w.IndentLevel == r.0.indent && done == r.1
    {
      if o.Null? {
        w.WriteField(NullMarker);
        return Completed;
      }
      if ShouldFormatAsPrimitive(g, o) {
        FormatAsPrimitive(g.heap(o.id).shape.text, w);
        return Completed;
      }
      var lineage := new Lineage();
      var out := InnerFormatObject(g, o, w, 0, lineage, None);
      done := if out.Normal? then Completed else Raised(out.text);
    }

    /** `InnerFormatObject`: the checks in the order `InnerFormatObject` tests them, then push, dispatch, and (on normal return) restore. */
    method InnerFormatObject(g: Graph, o: Ref, w: FormatWriter, level: int, lineage: Lineage, pt: Option<TypeId>)
      returns (out: Outcome)
      requires WellFormedTypes(g)
      modifies w, lineage
      ensures (Snap(w, lineage), out) == Inner(Settings(), AsWritten, g, o, level, pt, old(Snap(w, lineage)))
      decreases MaxDepth - level, 3, 0
    {
      if o.Null? {
        w.WriteText(NullMarker);
        return Normal(level);
      }
      if level >= MaxDepth {
        w.WriteText(LimitMarker);
        return Normal(level);
      }
      var found, parentNumber := FindInLineage(lineage.items, o.id);
      if found {
        w.WriteText(ParentMarker(parentNumber));
        return Normal(level);
      }
      if ShouldFormatAsPrimitive(g, o) {
        FormatAsPrimitive(g.heap(o.id).shape.text, w);
        return Normal(level);
      }
      var previousIndentLevel := w.IndentLevel;
      ghost var c := Settings();
      ghost var s0 := Snap(w, lineage);
      lineage.Push(o.id);
      ghost var pushed := Snap(w, lineage);
      assert pushed == s0.(lineage := [o.id] + s0.lineage);
      match g.heap(o.id).shape {
        case Dictionary(_, _, _, _) =>
          out := FormatAsDictionary(g, o.id, w, level, lineage, pt);
        case Enumerable(_, _) =>
          out := FormatAsEnumerable(g, o.id, w, level, lineage);
        case Plain =>
          out := FormatAsObject(g, o.id, w, level, lineage, pt);
      }
      assert (Snap(w, lineage), out) == Render(c, AsWritten, g, o.id, level, pt, pushed);
      if out.Thrown? {
        return;
      }
      w.IndentLevel := previousIndentLevel;
      lineage.Pop();
    }

    /**
     * The `foreach` over the lineage in `InnerFormatObject`: the position of
     * the first entry equal to `id`, counted from the top of the stack.
     */
    static method FindInLineage(ancestors: seq<NodeId>, id: NodeId) returns (found: bool, parentNumber: nat)
      ensures found <==> id in ancestors
      ensures found ==> parentNumber == FirstIndex(ancestors, id)
    {
      parentNumber := 0;
      while parentNumber < |ancestors|
        invariant 0 <= parentNumber <= |ancestors|
        invariant forall j | 0 <= j < parentNumber :: ancestors[j] != id
      {
        if ancestors[parentNumber] == id {
          assert FirstIndex(ancestors, id) == parentNumber;
          return true, parentNumber;
        }
        parentNumber := parentNumber + 1;
      }
      return false, parentNumber;
    }

    /** `FormatAsObject`. */
    method FormatAsObject(g: Graph, id: NodeId, w: FormatWriter, level: int, lineage: Lineage, pt: Option<TypeId>)
      returns (out: Outcome)
      requires WellFormedTypes(g) && level < MaxDepth
      modifies w, lineage
      ensures (Snap(w, lineage), out) == AsObject(Settings(), AsWritten, g, id, level, pt, old(Snap(w, lineage)))
      decreases MaxDepth - level, 1, 0
    {
      ghost var s0 := Snap(w, lineage);
      OpenObject(g, id, w, level, lineage, pt);
      var props := GetReadablePublicProperties(g, g.heap(id).runtimeType);
      var maxRecursionLevel := FormatProperties(g, id, w, level, lineage, props);
      CloseObject(w, lineage, maxRecursionLevel);
      out := Normal(maxRecursionLevel);
    }

    /** The start of `FormatAsObject`: the brace, one more indent, the optional type line. */
    method OpenObject(g: Graph, id: NodeId, w: FormatWriter, level: int, lineage: Lineage, pt: Option<TypeId>)
      modifies w
      ensures Snap(w, lineage) == ObjectOpening(Settings(), g, id, level, pt, old(Snap(w, lineage)))
    {
      ghost var s0 := Snap(w, lineage);
      w.WriteField("{");
      if level > 0 {
        w.WriteEndLine();
      }
      w.IndentLevel := w.IndentLevel + 1;
      ghost var s2 := Snap(w, lineage);
      assert s2 == Emit(s0, [Field("{")] + (if level > 0 then [EndLine(s0.indent)] else [])).(indent := s0.indent + 1);
      var objectType := g.heap(id).runtimeType;
      if IncludeTypeNames && pt != Some(objectType) {
        w.WriteField("type:");
        w.WriteText(g.types(objectType).displayName);
        w.WriteLine();
        assert Snap(w, lineage) == Emit(s2, [Field("type:"), Text(g.types(objectType).displayName), Line(s2.indent)]);
      }
    }

    /** The end of `FormatAsObject`: a line end if anything went deeper than level 1, then the brace. */
    method CloseObject(w: FormatWriter, lineage: Lineage, maxRecursionLevel: int)
      modifies w
      ensures Snap(w, lineage) == AfterProperties((old(Snap(w, lineage)), maxRecursionLevel)).0
    {
      ghost var s4 := Snap(w, lineage);
      if maxRecursionLevel > 1 {
        w.WriteEndLine();
      }
      ghost var s5 := Snap(w, lineage);
      assert s5 == Emit(s4, if maxRecursionLevel > 1 then [EndLine(s4.indent)] else []);
      w.IndentLevel := w.IndentLevel - 1;
      w.WriteField("}");
    }

    /** The `foreach` over the readable properties of `FormatAsObject`. */
    method FormatProperties(g: Graph, id: NodeId, w: FormatWriter, level: int, lineage: Lineage, props: seq<PropertyInfo>)
      returns (maxRecursionLevel: int)
      requires WellFormedTypes(g) && level < MaxDepth
      modifies w, lineage
      ensures (Snap(w, lineage), maxRecursionLevel)
              == ObjectProperties(Settings(), AsWritten, g, id, level, props, 0, old(Snap(w, lineage)), level)
      decreases MaxDepth - level, 0, |props| + 1, 0
    {
      ghost var c := Settings();
      ghost var walked := ObjectProperties(c, AsWritten, g, id, level, props, 0, Snap(w, lineage), level);
      maxRecursionLevel := level;
      var i := 0;
      while i < |props|
        invariant 0 <= i <= |props|
        invariant level <= maxRecursionLevel <= c.maxDepth && c == Settings()
        invariant ObjectProperties(c, AsWritten, g, id, level, props, i, Snap(w, lineage), maxRecursionLevel) == walked
        decreases |props| - i
      {
        maxRecursionLevel := FormatProperty(g, id, w, level, lineage, props[i], maxRecursionLevel);
        i := i + 1;
      }
    }

    /**
     * The body of the `foreach` over the properties of `FormatAsObject`:
     * everything that goes wrong with one property is written in its place
     * and the loop goes on. Gives the new running maximum level.
     */
    method FormatProperty(g: Graph, id: NodeId, w: FormatWriter, level: int, lineage: Lineage,
                          p: PropertyInfo, maxRecursionLevel: int) returns (newMax: int)
      requires WellFormedTypes(g) && level < MaxDepth && level <= maxRecursionLevel <= MaxDepth
      modifies w, lineage
      ensures (Snap(w, lineage), newMax)
              == OneProperty(Settings(), AsWritten, g, id, level, p, old(Snap(w, lineage)), maxRecursionLevel)
      decreases MaxDepth - level, 0, 0
    {
      ghost var s0 := Snap(w, lineage);
      newMax := maxRecursionLevel;
      var colonWritten := false;
      w.WriteField(p.name);
      ghost var s1 := Emit(s0, [Field(p.name)]);
      assert Snap(w, lineage) == s1;
      if p.indexParameterCount > 0 {
        // properties with index parameters act like functions: their values cannot be enumerated
        WriteErrorAsPropertyValue(w, colonWritten, IndexedPropertyMessage);
        assert w.tokens == s1.tokens + ErrorValue(false, IndexedPropertyMessage);
        return;
      }
      match g.heap(id).getValue(p) {
        case Throws(text) =>
          WriteErrorAsPropertyValue(w, colonWritten, text);
          assert w.tokens == s1.tokens + ErrorValue(false, text);
        case Returns(v) =>
          ghost var prefix: seq<Token> := [];
          if IncludeTypeNames && !HasRuntimeType(g, v, p.propertyType) {
            w.WriteText("(");
            w.WriteText(g.types(p.propertyType).displayName);
            w.WriteText(")");
            prefix := [Text("("), Text(g.types(p.propertyType).displayName), Text(")")];
          }
          assert w.tokens == s1.tokens + prefix;
          w.WriteText(":");
          colonWritten := true;
          ghost var s2 := Emit(s1, prefix + [Text(":")]);
          assert Snap(w, lineage) == s2;
          var child := InnerFormatObject(g, v, w, level + 1, lineage, Some(p.propertyType));
          if child.Normal? {
            newMax := Max(newMax, child.maxLevel);
          } else {
            // the exception escaped the value's formatting and is caught here
            WriteErrorAsPropertyValue(w, colonWritten, child.text);
          }
      }
    }

    /** `FormatAsDictionary`. */
    method FormatAsDictionary(g: Graph, id: NodeId, w: FormatWriter, level: int, lineage: Lineage, pt: Option<TypeId>)
      returns (out: Outcome)
      requires WellFormedTypes(g) && level < MaxDepth && g.heap(id).shape.Dictionary?
      modifies w, lineage
      ensures (Snap(w, lineage), out) == AsDictionary(Settings(), AsWritten, g, id, level, pt, old(Snap(w, lineage)))
      decreases MaxDepth - level, 1, 0
    {
      var node := g.heap(id);
      var pairs := node.shape.pairs;
      if |pairs| == 0 {
        if node.shape.failure.Some? {
          return Thrown(node.shape.failure.value);
        }
        w.WriteField("{}");
        return Normal(level);
      }
      var onFirstKvp := OpenDictionary(g, id, w, lineage, pt);
      out := FormatPairs(g, id, w, level, lineage, onFirstKvp);
      if out.Thrown? {
        return;
      }
      if node.shape.failure.Some? {
        return Thrown(node.shape.failure.value);
      }
      CloseDictionary(w, lineage);
    }

    /** The start of a non-empty dictionary: the brace, one more indent, the optional type. */
    method OpenDictionary(g: Graph, id: NodeId, w: FormatWriter, lineage: Lineage, pt: Option<TypeId>)
      returns (onFirstKvp: bool)
      modifies w
      ensures onFirstKvp == !ShowsType(Settings(), g, id, pt)
      ensures Snap(w, lineage) == DictionaryOpening(Settings(), g, id, pt, old(Snap(w, lineage)))
    {
      ghost var s0 := Snap(w, lineage);
      w.WriteField("{");
      w.IndentLevel := w.IndentLevel + 1;
      ghost var s2 := Snap(w, lineage);
      assert s2 == Emit(s0, [Field("{")]).(indent := s0.indent + 1);
      onFirstKvp := true;
      var dictionaryType := g.heap(id).runtimeType;
      if IncludeTypeNames && pt != Some(dictionaryType) {
        w.WriteField("type:");
        w.WriteText(g.types(dictionaryType).displayName);
        onFirstKvp := false;
        assert Snap(w, lineage) == Emit(s2, [Field("type:"), Text(g.types(dictionaryType).displayName)]);
      }
    }

    /** The end of a dictionary whose pairs were all written: a line end, one less indent, the brace. */
    method CloseDictionary(w: FormatWriter, lineage: Lineage)
      modifies w
      ensures var s := old(Snap(w, lineage));
              Snap(w, lineage) == Emit(Emit(s, [EndLine(s.indent)]).(indent := s.indent - 1), [Field("}")])
    {
      w.WriteEndLine();
      w.IndentLevel := w.IndentLevel - 1;
      w.WriteField("}");
    }

    /** The `foreach` over the pairs of `FormatAsDictionary`. */
    method FormatPairs(g: Graph, id: NodeId, w: FormatWriter, level: int, lineage: Lineage, onFirst: bool)
      returns (out: Outcome)
      requires WellFormedTypes(g) && level < MaxDepth && g.heap(id).shape.Dictionary?
      modifies w, lineage
      ensures (Snap(w, lineage), out) == DictionaryPairs(Settings(), AsWritten, g, id, level, 0, old(Snap(w, lineage)), onFirst, level)
      decreases MaxDepth - level, 0, |g.heap(id).shape.pairs| + 1, 0
    {
      var pairs := g.heap(id).shape.pairs;
      ghost var c := Settings();
      ghost var walked := DictionaryPairs(c, AsWritten, g, id, level, 0, Snap(w, lineage), onFirst, level);
      var onFirstKvp := onFirst;
      var maxRecursionLevel := level;
      var i := 0;
      while i < |pairs|
        invariant 0 <= i <= |pairs|
        invariant level <= maxRecursionLevel <= c.maxDepth && c == Settings()
        invariant DictionaryPairs(c, AsWritten, g, id, level, i, Snap(w, lineage), onFirstKvp, maxRecursionLevel) == walked
        decreases |pairs| - i
      {
        out := FormatPair(g, id, w, level, lineage, i, onFirstKvp, maxRecursionLevel);
        if out.Thrown? {
          return;
        }
        maxRecursionLevel := out.maxLevel;
        onFirstKvp := false;
        i := i + 1;
      }
      out := Normal(maxRecursionLevel);
    }

    /**
     * The body of the `foreach` over the pairs of `FormatAsDictionary`: the
     * separator, the pair's braces, the key and the value. Gives the running
     * maximum level, or the exception that ends the loop.
     */
    method FormatPair(g: Graph, id: NodeId, w: FormatWriter, level: int, lineage: Lineage,
                      i: nat, onFirstKvp: bool, maxRecursionLevel: int) returns (out: Outcome)
      requires WellFormedTypes(g) && level < MaxDepth && g.heap(id).shape.Dictionary?
      requires i < |g.heap(id).shape.pairs| && level <= maxRecursionLevel <= MaxDepth
      modifies w, lineage
      ensures out.Normal? ==> maxRecursionLevel <= out.maxLevel <= MaxDepth
      ensures out.Normal? ==>
        DictionaryPairs(Settings(), AsWritten, g, id, level, i, old(Snap(w, lineage)), onFirstKvp, maxRecursionLevel)
        == DictionaryPairs(Settings(), AsWritten, g, id, level, i + 1, Snap(w, lineage), false, out.maxLevel)
      ensures out.Thrown? ==>
        DictionaryPairs(Settings(), AsWritten, g, id, level, i, old(Snap(w, lineage)), onFirstKvp, maxRecursionLevel)
        == (Snap(w, lineage), out)
      decreases MaxDepth - level, 0, |g.heap(id).shape.pairs| - i, 3
    {
      ghost var s0 := Snap(w, lineage);
      if !onFirstKvp {
        w.WriteText(",");
      }
      w.WriteEndLine();
      w.WriteField("{");
      w.IndentLevel := w.IndentLevel + 1;
      ghost var s1 := Emit(s0, (if onFirstKvp then [] else [Text(",")]) + [EndLine(s0.indent), Field("{")]);
      assert Snap(w, lineage) == s1.(indent := s1.indent + 1);
      var child, maxSoFar;
      if ShouldFormatAsPrimitive(g, g.heap(id).shape.pairs[i].0) {
        child := FormatPrimitiveKeyPair(g, id, w, level, lineage, i);
        maxSoFar := maxRecursionLevel;
      } else {
        child, maxSoFar := FormatObjectKeyPair(g, id, w, level, lineage, i, maxRecursionLevel);
      }
      if child.Thrown? {
        return child;
      }
      out := ClosePair(g, id, w, level, lineage, i, child, maxSoFar);
    }

    /** A pair whose key is primitive: the delimiter, `key:`, then the value. */
    method FormatPrimitiveKeyPair(g: Graph, id: NodeId, w: FormatWriter, level: int, lineage: Lineage, i: nat)
      returns (child: Outcome)
      requires WellFormedTypes(g) && level < MaxDepth && g.heap(id).shape.Dictionary?
      requires i < |g.heap(id).shape.pairs| && ShouldFormatAsPrimitive(g, g.heap(id).shape.pairs[i].0)
      modifies w, lineage
      ensures child.Normal? ==> child.maxLevel <= MaxDepth
      ensures forall m | level <= m <= MaxDepth ::
        PrimitiveKeyPair(Settings(), AsWritten, g, id, level, i, old(Snap(w, lineage)), m)
        == PairEnd(Settings(), AsWritten, g, id, level, i, Snap(w, lineage), child, m)
      decreases MaxDepth - level, 0, |g.heap(id).shape.pairs| - i, 2
    {
      var d := g.heap(id).shape;
      var key := d.pairs[i].0;
      w.WriteText(w.FieldDelimiter);
      if key.Null? {
        // `FormatAsPrimitive(null)` calls ToString() on null
        return Thrown(NullReferenceText);
      }
      ghost var s1 := Snap(w, lineage);
      FormatAsPrimitive(g.heap(key.id).shape.text, w);
      w.WriteText(":");
      assert Snap(w, lineage) == Emit(s1, PrimitiveTokens(g.heap(key.id).shape.text) + [Text(":")]);
      child := InnerFormatObject(g, d.pairs[i].1, w, level + 1, lineage, Some(d.valueType));
    }

    /** A pair whose key is not primitive: `Key:<key>,`, a line end, then `Value:<value>`. */
    method FormatObjectKeyPair(g: Graph, id: NodeId, w: FormatWriter, level: int, lineage: Lineage, i: nat, m: int)
      returns (child: Outcome, maxSoFar: int)
      requires WellFormedTypes(g) && level < MaxDepth && g.heap(id).shape.Dictionary?
      requires i < |g.heap(id).shape.pairs| && level <= m <= MaxDepth
      modifies w, lineage
      ensures m <= maxSoFar <= MaxDepth && (child.Normal? ==> child.maxLevel <= MaxDepth)
      ensures ObjectKeyPair(Settings(), AsWritten, g, id, level, i, old(Snap(w, lineage)), m)
              == PairEnd(Settings(), AsWritten, g, id, level, i, Snap(w, lineage), child, maxSoFar)
      decreases MaxDepth - level, 0, |g.heap(id).shape.pairs| - i, 2
    {
      var d := g.heap(id).shape;
      ghost var c := Settings();
      ghost var s0 := Snap(w, lineage);
      maxSoFar := m;
      w.WriteField("Key");
      w.WriteText(":");
      assert Snap(w, lineage) == Emit(s0, [Field("Key"), Text(":")]);
      child := InnerFormatObject(g, d.pairs[i].0, w, level + 1, lineage, Some(d.keyType));
      ghost var s2 := Snap(w, lineage);
      if child.Thrown? {
        assert ObjectKeyPair(c, AsWritten, g, id, level, i, s0, m) == (s2, child);
        return;
      }
      maxSoFar := Max(maxSoFar, child.maxLevel);
      child := FormatValueOfObjectKey(g, id, w, level, lineage, i);
      assert ObjectKeyPair(c, AsWritten, g, id, level, i, s0, m)
             == PairEnd(c, AsWritten, g, id, level, i, Snap(w, lineage), child, maxSoFar);
    }

    /** The second half of a pair whose key is not primitive: `,`, a line end, then `Value:<value>`. */
    method FormatValueOfObjectKey(g: Graph, id: NodeId, w: FormatWriter, level: int, lineage: Lineage, i: nat)
      returns (child: Outcome)
      requires WellFormedTypes(g) && level < MaxDepth && g.heap(id).shape.Dictionary?
      requires i < |g.heap(id).shape.pairs|
      modifies w, lineage
      ensures var s := old(Snap(w, lineage));
              var d := g.heap(id).shape;
              (Snap(w, lineage), child)
              == Inner(Settings(), AsWritten, g, d.pairs[i].1, level + 1, Some(d.valueType),
                       Emit(s, [Text(","), EndLine(s.indent), Field("Value"), Text(":")]))
      decreases MaxDepth - level, 0, |g.heap(id).shape.pairs| - i, 1
    {
      ghost var s2 := Snap(w, lineage);
      w.WriteText(",");
      w.WriteEndLine();
      assert Snap(w, lineage) == Emit(s2, [Text(","), EndLine(s2.indent)]);
      w.WriteField("Value");
      w.WriteText(":");
      assert Snap(w, lineage) == Emit(s2, [Text(","), EndLine(s2.indent), Field("Value"), Text(":")]);
      var d := g.heap(id).shape;
      child := InnerFormatObject(g, d.pairs[i].1, w, level + 1, lineage, Some(d.valueType));
    }

    /** The end of a pair whose value was written: a line end after a non-primitive value, then the brace. */
    method ClosePair(g: Graph, id: NodeId, w: FormatWriter, level: int, lineage: Lineage,
                     i: nat, child: Outcome, maxSoFar: int) returns (out: Outcome)
      requires WellFormedTypes(g) && level < MaxDepth && g.heap(id).shape.Dictionary?
      requires i < |g.heap(id).shape.pairs| && level <= maxSoFar <= MaxDepth
      requires child.Normal? && child.maxLevel <= MaxDepth
      modifies w
      ensures out == Normal(Max(maxSoFar, child.maxLevel))
      ensures PairEnd(Settings(), AsWritten, g, id, level, i, old(Snap(w, lineage)), child, maxSoFar)
              == DictionaryPairs(Settings(), AsWritten, g, id, level, i + 1, Snap(w, lineage), false, out.maxLevel)
    {
      ghost var s0 := Snap(w, lineage);
      if !ShouldFormatAsPrimitive(g, g.heap(id).shape.pairs[i].1) {
        w.WriteLine();
      }
      ghost var s1 := Emit(s0, if ShouldFormatAsPrimitive(g, g.heap(id).shape.pairs[i].1) then [] else [Line(s0.indent)]);
      assert Snap(w, lineage) == s1;
      w.IndentLevel := w.IndentLevel - 1;
      w.WriteField("}");
      out := Normal(Max(maxSoFar, child.maxLevel));
    }

    /** `FormatAsEnumerable`: a pre-scan that stops at the first non-primitive, then the elements. */
    method FormatAsEnumerable(g: Graph, id: NodeId, w: FormatWriter, level: int, lineage: Lineage)
      returns (out: Outcome)
      requires WellFormedTypes(g) && level < MaxDepth && g.heap(id).shape.Enumerable?
      modifies w, lineage
      ensures (Snap(w, lineage), out) == AsEnumerable(Settings(), AsWritten, g, id, level, old(Snap(w, lineage)))
      decreases MaxDepth - level, 1, 0
    {
      var elements := g.heap(id).shape.elements;
      var failure := g.heap(id).shape.failure;
      var isEmpty, enumerableContainsAllPrimitives := ScanElements(g, elements);
      if enumerableContainsAllPrimitives && failure.Some? {
        // the pre-scan enumerated to the end, where the enumerator threw
        return Thrown(failure.value);
      }
      if isEmpty {
        w.WriteField("[]");
        return Normal(level);
      }
      ghost var s0 := Snap(w, lineage);
      w.WriteField("[");
      w.IndentLevel := w.IndentLevel + 1;
      ghost var start := Snap(w, lineage);
      assert start == Emit(s0, [Field("[")]).(indent := s0.indent + 1);
      assert AsEnumerable(Settings(), AsWritten, g, id, level, s0)
             == AfterElements(g, id, enumerableContainsAllPrimitives,
                              Elements(Settings(), AsWritten, g, id, enumerableContainsAllPrimitives, level, 0, start, level));
      out := FormatElements(g, id, w, level, lineage, enumerableContainsAllPrimitives);
      if out.Thrown? {
        return;
      }
      if failure.Some? {
        return Thrown(failure.value);
      }
      CloseEnumerable(w, lineage, enumerableContainsAllPrimitives);
    }

    /** The end of an enumerable whose elements were all written: one less indent, a line end unless all were primitive, the bracket. */
    static method CloseEnumerable(w: FormatWriter, lineage: Lineage, allPrimitives: bool)
      modifies w
      ensures var s := old(Snap(w, lineage)).(indent := old(w.IndentLevel) - 1);
              Snap(w, lineage) == Emit(s, (if allPrimitives then [] else [EndLine(s.indent)]) + [Field("]")])
    {
      w.IndentLevel := w.IndentLevel - 1;
      if !allPrimitives {
        w.WriteEndLine();
      }
      w.WriteField("]");
    }

    /**
     * The first `foreach` of `FormatAsEnumerable`: notes that there is an
     * element and stops at the first one that is not primitive.
     */
    static method ScanElements(g: Graph, elements: seq<Ref>) returns (isEmpty: bool, allPrimitives: bool)
      ensures isEmpty <==> |elements| == 0
      ensures allPrimitives <==> AllPrimitive(g, elements)
    {
      isEmpty := true;
      allPrimitives := true;
      var j := 0;
      while j < |elements|
        invariant 0 <= j <= |elements|
        invariant isEmpty == (j == 0) && allPrimitives
        invariant forall q | 0 <= q < j :: ShouldFormatAsPrimitive(g, elements[q])
      {
        isEmpty := false;
        if !ShouldFormatAsPrimitive(g, elements[j]) {
          allPrimitives := false;
          break;
        }
        j := j + 1;
      }
    }

    /** The second `foreach` of `FormatAsEnumerable`. */
    method FormatElements(g: Graph, id: NodeId, w: FormatWriter, level: int, lineage: Lineage, allPrimitives: bool)
      returns (out: Outcome)
      requires WellFormedTypes(g) && level < MaxDepth && g.heap(id).shape.Enumerable?
      modifies w, lineage
      ensures (Snap(w, lineage), out) == Elements(Settings(), AsWritten, g, id, allPrimitives, level, 0, old(Snap(w, lineage)), level)
      decreases MaxDepth - level, 0, |g.heap(id).shape.elements| + 1
    {
      var elements := g.heap(id).shape.elements;
      ghost var c := Settings();
      ghost var walked := Elements(c, AsWritten, g, id, allPrimitives, level, 0, Snap(w, lineage), level);
      var maxRecursionLevel := level;
      var onFirstElement := true;
      var i := 0;
      while i < |elements|
        invariant 0 <= i <= |elements| && onFirstElement == (i == 0)
        invariant level <= maxRecursionLevel <= c.maxDepth && c == Settings()
        invariant Elements(c, AsWritten, g, id, allPrimitives, level, i, Snap(w, lineage), maxRecursionLevel) == walked
        decreases |elements| - i
      {
        out := FormatElement(g, id, w, level, lineage, allPrimitives, i, onFirstElement, maxRecursionLevel);
        if out.Thrown? {
          return;
        }
        onFirstElement := false;
        maxRecursionLevel := out.maxLevel;
        i := i + 1;
      }
      out := Normal(maxRecursionLevel);
    }

    /** The body of that loop: the separators, then the `i`-th element. */
    method FormatElement(g: Graph, id: NodeId, w: FormatWriter, level: int, lineage: Lineage,
                         allPrimitives: bool, i: nat, onFirstElement: bool, maxRecursionLevel: int)
      returns (out: Outcome)
      requires WellFormedTypes(g) && level < MaxDepth && g.heap(id).shape.Enumerable?
      requires onFirstElement <==> i == 0
      requires i < |g.heap(id).shape.elements| && level <= maxRecursionLevel <= MaxDepth
      modifies w, lineage
      ensures out.Normal? ==> maxRecursionLevel <= out.maxLevel <= MaxDepth
      ensures out.Normal? ==>
        Elements(Settings(), AsWritten, g, id, allPrimitives, level, i, old(Snap(w, lineage)), maxRecursionLevel)
        == Elements(Settings(), AsWritten, g, id, allPrimitives, level, i + 1, Snap(w, lineage), out.maxLevel)
      ensures out.Thrown? ==>
        Elements(Settings(), AsWritten, g, id, allPrimitives, level, i, old(Snap(w, lineage)), maxRecursionLevel)
        == (Snap(w, lineage), out)
      decreases MaxDepth - level, 0, |g.heap(id).shape.elements| - i
    {
      ghost var s0 := Snap(w, lineage);
      if !onFirstElement {
        w.WriteText(",");
      }
      if !allPrimitives {
        w.WriteEndLine();
      }
      assert Snap(w, lineage) == Emit(s0, (if i == 0 then [] else [Text(",")]) + (if allPrimitives then [] else [EndLine(s0.indent)]));
      var child := InnerFormatObject(g, g.heap(id).shape.elements[i], w, level + 1, lineage, None);
      if child.Thrown? {
        return child;
      }
      out := Normal(Max(maxRecursionLevel, child.maxLevel));
    }
  }
}
