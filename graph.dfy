/**
 * The runtime object graph the reflection formatters walk.
 *
 * The CLR heap is modelled as a total function from object identities to
 * nodes, so reference identity is explicit (two nodes with equal contents
 * are still different objects) and every reference resolves. The type
 * system is a second table; a type's base type always has a smaller id,
 * which is how the model states that inheritance chains are finite.
 */
module ObjectGraph {

  datatype Option<+T> = None | Some(value: T)

  type NodeId = nat
  type TypeId = nat

  /** An object reference: `null` or the identity of a heap object. */
  datatype Ref = Null | To(id: NodeId)

  /** Whether a property has a get accessor, and whether that accessor is public. */
  datatype Getter = NoGetter | NonPublicGetter | PublicGetter

  /** A reflected property: what `PropertyInfo` tells the formatters about it. */
  datatype PropertyInfo = PropertyInfo(
    name: string,
    propertyType: TypeId,
    getter: Getter,
    indexParameterCount: nat)

  /** The result of `property.GetValue(o)`: a value, or the text of the exception it threw. */
  datatype ReadOutcome = Returns(value: Ref) | Throws(text: string)

  /**
   * A runtime type. `displayName` is what the configured type-name function
   * prints, `fullName` is `Type.FullName`. `declaredProperties` is
   * `TypeInfo.DeclaredProperties`; `runtimeProperties` is what
   * `GetRuntimeProperties` returns (inherited ones included).
   */
  datatype TypeDecl = TypeDecl(
    displayName: string,
    fullName: string,
    baseType: Option<TypeId>,
    declaredProperties: seq<PropertyInfo>,
    runtimeProperties: seq<PropertyInfo>)

  /**
   * The shape the formatter sees, pre-classified in place of reflection over
   * implemented interfaces:
   *  - Primitive: a value whose TypeCode is not Object (`isTypeHandle` false),
   *    or a `Type`/`TypeInfo` (`isTypeHandle` true); `text` is its ToString().
   *  - Dictionary: implements IEnumerable<KeyValuePair<K, V>>.
   *  - Enumerable: any other IEnumerable.
   *  - Plain: everything else.
   * For the two collection shapes, `failure` is `Some(t)` when enumerating
   * throws an exception with text `t` after all listed items were yielded.
   */
  datatype Shape =
    | Primitive(text: string, isTypeHandle: bool)
    | Dictionary(keyType: TypeId, valueType: TypeId, pairs: seq<(Ref, Ref)>, failure: Option<string>)
    | Enumerable(elements: seq<Ref>, failure: Option<string>)
    | Plain

  /** A heap object: its runtime type, what reading each property yields, and its shape. */
  datatype Node = Node(runtimeType: TypeId, getValue: PropertyInfo -> ReadOutcome, shape: Shape)

  datatype Graph = Graph(types: TypeId -> TypeDecl, heap: NodeId -> Node)

  /** Base types precede derived types, so every base-type chain ends. */
  ghost predicate WellFormedTypes(g: Graph)
  {
    forall t: TypeId {:trigger g.types(t)} :: g.types(t).baseType.Some? ==> g.types(t).baseType.value < t
  }

  /** `ShouldFormatAsPrimitive`: null counts as primitive (its TypeCode is Empty). */
  predicate ShouldFormatAsPrimitive(g: Graph, r: Ref)
  {
    r.Null? || g.heap(r.id).shape.Primitive?
  }

  /** `Convert.GetTypeCode(o) != TypeCode.Object` for a non-null reference. */
  predicate HasScalarTypeCode(g: Graph, r: Ref)
  {
    r.To? && g.heap(r.id).shape.Primitive? && !g.heap(r.id).shape.isTypeHandle
  }

  /**
   * A reference is formatted as a primitive exactly when it is null, has a
   * type code other than `Object`, or is a `Type`/`TypeInfo`; a reference
   * with a scalar type code is never null.
   */
  lemma PrimitiveClassification(g: Graph, r: Ref)
    ensures ShouldFormatAsPrimitive(g, r)
            <==> r.Null? || HasScalarTypeCode(g, r) || (r.To? && g.heap(r.id).shape.Primitive? && g.heap(r.id).shape.isTypeHandle)
    ensures HasScalarTypeCode(g, r) ==> r.To? && ShouldFormatAsPrimitive(g, r)
  {
  }

  /** `propertyValue?.GetType()` is the type `t`. */
  predicate HasRuntimeType(g: Graph, r: Ref, t: TypeId)
  {
    r.To? && g.heap(r.id).runtimeType == t
  }
}

/** The `Stack<object>` of objects currently being formatted, top first. */
module Ancestry {
  import opened ObjectGraph

  class Lineage {
    var items: seq<NodeId>

    constructor ()
      ensures items == []
    {
      items := [];
    }

    method Push(id: NodeId)
      modifies this
      ensures items == [id] + old(items)
    {
      items := [id] + items;
    }

    /** `Stack.Pop` throws on an empty stack; the formatters never pop one. */
    method Pop()
      requires items != []
      modifies this
      ensures items == old(items)[1..]
    {
      items := items[1..];
    }
  }
}
