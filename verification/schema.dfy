/** The slice of the XML Schema object model the generator reads: top-level
    items, complex types with an `all` group of local elements, and the
    anonymous complex type with a sequence that an untyped element may carry. */
module Schema {
  import opened Results

  /** The XML Schema namespace; QName equality compares namespace and local part. */
  const XS := "http://www.w3.org/2001/XMLSchema"

  datatype QName = QName(namespace: string, localPart: string)

  const XsString := QName(XS, "string")
  const XsBoolean := QName(XS, "boolean")

  /** A local element declaration: its tag name, its `type` attribute, an
      inline anonymous complex type, and its `default` attribute. */
  datatype LocalElement = LocalElement(
    name: string,
    typeName: Option<QName>,
    complexType: Option<LocalComplexType>,
    defaultValue: Option<string>)

  datatype LocalComplexType = LocalComplexType(sequence: Option<ExplicitGroup>)

  datatype ExplicitGroup = ExplicitGroup(particles: seq<Particle>)

  /** A particle of a sequence, as the XML Schema binding delivers it: a
      wrapped local element declaration; a wrapped particle that is not an
      element (a nested `sequence`, `choice`, `all` or group reference),
      which is wrapped like an element but holds no `LocalElement`; or the
      `any` wildcard, the one particle that comes unwrapped. */
  datatype Particle =
    | ElementParticle(element: LocalElement)
    | GroupParticle
    | Wildcard

  /** A named complex type; `all` is absent when its body is not an `all` group. */
  datatype ComplexType = ComplexType(name: string, all: Option<seq<LocalElement>>)

  /** A top-level schema item; only complex types are compiled. */
  datatype SchemaItem = TopLevelComplexType(complexType: ComplexType) | OtherItem

  /** The Java exceptions the generator can raise while compiling. */
  datatype Failure =
    | UnsupportedOperation  // "not implemented"
    | NullPointer           // a missing `all` group, or an untyped list item
    | IndexOutOfBounds      // `get(0)` on an empty sequence, or `charAt(0)` of an empty name
    | ClassCast             // a wrapped group particle cast to `LocalElement`
}
