/** The field classifier: the six shapes a local element can take in the
    generated class, and the one decision that picks a shape. */
module Fields {
  import opened Results
  import opened Strings
  import opened Schema

  datatype FieldShape =
    | StringField(defaultText: Option<string>)
    | BooleanField(defaultFlag: Option<bool>)
    | RecordField(typeName: string)
    | StringList(itemTag: string)
    | RecordList(itemTag: string, itemType: string)
    | StringMap

  /** The inline sequence of an untyped element, when it has one. */
  function InlineSequence(el: LocalElement): Option<seq<Particle>>
  {
    if el.complexType.Some? && el.complexType.value.sequence.Some?
    then Some(el.complexType.value.sequence.value.particles)
    else None
  }

  /** The first particle of the inline sequence is wrapped, as an element
      or a group is: the test `instanceof JAXBElement`. */
  predicate FirstWrapped(el: LocalElement)
  {
    InlineSequence(el).Some? && |InlineSequence(el).value| > 0 && !InlineSequence(el).value[0].Wildcard?
  }

  /** The element declared by the first particle of the inline sequence. */
  predicate HasItemElement(el: LocalElement)
  {
    InlineSequence(el).Some? && |InlineSequence(el).value| > 0
    && InlineSequence(el).value[0].ElementParticle?
  }

  function ItemElement(el: LocalElement): LocalElement
    requires HasItemElement(el)
  {
    InlineSequence(el).value[0].element
  }

  /** Classification of one element. A typed element is a string, a boolean
      or a nested record; an untyped one needs an inline sequence, whose first
      particle decides between a list (a wrapped element) and a map (the
      unwrapped wildcard); a wrapped group fails the cast to an element. */
  function Classify(el: LocalElement): (r: Result<FieldShape, Failure>)
    // typed elements
    ensures (r.Ok? && r.value.StringField?) <==> el.typeName == Some(XsString)
    ensures (r.Ok? && r.value.BooleanField?) <==> el.typeName == Some(XsBoolean)
    ensures (r.Ok? && r.value.RecordField?)
              <==> el.typeName.Some? && el.typeName.value != XsString && el.typeName.value != XsBoolean
    ensures r.Ok? && r.value.StringField? ==> r.value.defaultText == el.defaultValue
    ensures r.Ok? && r.value.BooleanField? ==>
              (r.value.defaultFlag.Some? <==> el.defaultValue.Some?)
              && (el.defaultValue.Some? ==> r.value.defaultFlag.value == ParseBoolean(el.defaultValue.value))
    ensures r.Ok? && r.value.RecordField? ==> r.value.typeName == el.typeName.value.localPart
    // untyped elements
    ensures (r.Ok? && (r.value.StringList? || r.value.RecordList?))
              <==> el.typeName.None? && HasItemElement(el) && ItemElement(el).typeName.Some?
    ensures r.Ok? && r.value.StringList? <==>
              el.typeName.None? && HasItemElement(el) && ItemElement(el).typeName == Some(XsString)
    ensures r.Ok? && (r.value.StringList? || r.value.RecordList?) ==> r.value.itemTag == ItemElement(el).name
    ensures r.Ok? && r.value.RecordList? ==> r.value.itemType == ItemElement(el).typeName.value.localPart
    ensures (r.Ok? && r.value.StringMap?) <==>
              el.typeName.None? && InlineSequence(el).Some? && |InlineSequence(el).value| > 0
              && InlineSequence(el).value[0].Wildcard?
    // rejections
    ensures r == Err(UnsupportedOperation) <==> el.typeName.None? && InlineSequence(el).None?
    ensures r == Err(IndexOutOfBounds) <==>
              el.typeName.None? && InlineSequence(el).Some? && |InlineSequence(el).value| == 0
    ensures r == Err(NullPointer) <==>
              el.typeName.None? && HasItemElement(el) && ItemElement(el).typeName.None?
    ensures r == Err(ClassCast) <==> el.typeName.None? && FirstWrapped(el) && !HasItemElement(el)
  {
    match el.typeName
    case Some(t) =>
      if t == XsString then Ok(StringField(el.defaultValue))
      else if t == XsBoolean then
        Ok(BooleanField(if el.defaultValue.Some? then Some(ParseBoolean(el.defaultValue.value)) else None))
      else Ok(RecordField(t.localPart))
    case None =>
      match InlineSequence(el)
      case None => Err(UnsupportedOperation)
      case Some(particles) =>
        if |particles| == 0 then Err(IndexOutOfBounds)
        else
          match particles[0]
          case Wildcard => Ok(StringMap)
          case GroupParticle => Err(ClassCast)
          case ElementParticle(item) =>
            match item.typeName
            case None => Err(NullPointer)
            case Some(it) =>
              if it == XsString then Ok(StringList(item.name)) else Ok(RecordList(item.name, it.localPart))
  }

  /** Every element of a type classifies. */
  predicate AllClassified(els: seq<LocalElement>)
  {
    forall i :: 0 <= i < |els| ==> Classify(els[i]).Ok?
  }

  /** The failure of the first element that does not classify. */
  function FirstFailure(els: seq<LocalElement>): (f: Failure)
    requires !AllClassified(els)
    ensures exists i :: 0 <= i < |els| && Classify(els[i]) == Err(f)
                        && forall j :: 0 <= j < i ==> Classify(els[j]).Ok?
  {
    if Classify(els[0]).Err? then Classify(els[0]).error
    else
      var f := FirstFailure(els[1..]);
      var i :| 0 <= i < |els[1..]| && Classify(els[1..][i]) == Err(f)
               && forall j :: 0 <= j < i ==> Classify(els[1..][j]).Ok?;
      assert Classify(els[i + 1]) == Err(f);
      f
  }
}
