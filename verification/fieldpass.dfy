/** The field pass of the type compiler: one declaration per element of a
    complex type, in element order.

    The source writes the shape decision out as its own chain of tests.
    `CompileField` keeps that chain as written; `Declaration` is the same
    pass driven by the classifier's `FieldShape`, and `FieldPassAgrees`
    shows the two are one function. */
module FieldPass {
  import opened Results
  import opened Strings
  import opened Java
  import opened Lines
  import opened Schema
  import opened Fields
  import opened Emitter

  /** The declaration of a field of the given shape. */
  function Declaration(name: string, shape: FieldShape): Code
  {
    match shape
    case StringField(d) => StringDecl(name, d)
    case BooleanField(d) => BooleanDecl(name, d)
    case RecordField(t) => ComplexDecl(t, name)
    case StringList(_) => ListDecl("String", name)
    case RecordList(_, t) => ListDecl(t, name)
    case StringMap => MapDecl(name)
  }

  /** The Java type a shape is stored in. */
  function JavaType(shape: FieldShape): string
  {
    match shape
    case StringField(_) => "String"
    case BooleanField(_) => "boolean"
    case RecordField(t) => t
    case StringList(_) => "List<String>"
    case RecordList(_, t) => "List<" + t + ">"
    case StringMap => "Map<String,String>"
  }

  /** The initialiser a declaration carries, empty when it has none. */
  function Initialiser(shape: FieldShape): string
  {
    match shape
    case StringField(None) => ""
    case StringField(Some(v)) => " = \"" + v + "\""
    case BooleanField(None) => ""
    case BooleanField(Some(b)) => " = " + BoolText(b)
    case RecordField(t) => " = new " + t + "()"
    case StringList(_) => " = new ArrayList<>()"
    case RecordList(_, _) => " = new ArrayList<>()"
    case StringMap => " = new HashMap<>()"
  }

  /** Only a scalar without a default goes uninitialised; records, lists
      and maps always start out as new objects. A string default sits
      verbatim between the quotes, and a boolean default reads back as
      the flag the classifier parsed. */
  lemma InitialiserForm(shape: FieldShape)
    ensures Initialiser(shape) == "" <==>
              (shape.StringField? && shape.defaultText.None?) || (shape.BooleanField? && shape.defaultFlag.None?)
    ensures shape.StringField? && shape.defaultText.Some? ==>
              |Initialiser(shape)| == |shape.defaultText.value| + 5
              && Initialiser(shape)[4..|Initialiser(shape)| - 1] == shape.defaultText.value
    ensures shape.BooleanField? && shape.defaultFlag.Some? ==>
              ParseBoolean(Initialiser(shape)[3..]) == shape.defaultFlag.value
    ensures !shape.StringField? && !shape.BooleanField? ==>
              |Initialiser(shape)| >= 7 && Initialiser(shape)[..7] == " = new "
  {
    match shape
    case StringField(Some(v)) =>
      assert Initialiser(shape) == " = \"" + v + "\"";
    case BooleanField(Some(b)) =>
      assert Initialiser(shape)[3..] == BoolText(b);
      ParseBoolText(b);
    case RecordField(t) =>
      assert Initialiser(shape)[..7] == " = new ";
    case StringList(_) =>
      assert Initialiser(shape)[..7] == " = new ";
    case RecordList(_, _) =>
      assert Initialiser(shape)[..7] == " = new ";
    case StringMap =>
      assert Initialiser(shape)[..7] == " = new ";
    case _ =>
  }

  /** Every declaration line is `Type name<initialiser>;`. */
  lemma DeclarationForm(name: string, shape: FieldShape)
    ensures CodeText(Declaration(name, shape)) == JavaType(shape) + " " + name + Initialiser(shape) + ";"
  {
    match shape
    case StringField(Some(v)) => StringDefaultForm(name, v);
    case BooleanField(Some(b)) => BooleanDefaultForm(name, b);
    case RecordField(t) => RecordForm(name, t);
    case RecordList(_, t) => RecordListForm(name, t);
    case StringField(None) => PlainForm(name);
    case BooleanField(None) => PlainForm(name);
    case StringList(_) => CollectionForm(name);
    case StringMap => CollectionForm(name);
  }

  lemma PlainForm(name: string)
    ensures CodeText(StringDecl(name, None)) == "String" + " " + name + "" + ";"
    ensures CodeText(BooleanDecl(name, None)) == "boolean" + " " + name + "" + ";"
  {
  }

  lemma CollectionForm(name: string)
    ensures CodeText(ListDecl("String", name)) == "List<String>" + " " + name + " = new ArrayList<>()" + ";"
    ensures CodeText(MapDecl(name)) == "Map<String,String>" + " " + name + " = new HashMap<>()" + ";"
  {
  }

  lemma StringDefaultForm(name: string, v: string)
    ensures CodeText(StringDecl(name, Some(v))) == "String" + " " + name + (" = \"" + v + "\"") + ";"
  {
  }

  lemma BooleanDefaultForm(name: string, b: bool)
    ensures CodeText(BooleanDecl(name, Some(b))) == "boolean" + " " + name + (" = " + BoolText(b)) + ";"
  {
  }

  lemma RecordForm(name: string, t: string)
    ensures CodeText(ComplexDecl(t, name)) == t + " " + name + (" = new " + t + "()") + ";"
  {
  }

  lemma RecordListForm(name: string, t: string)
    ensures CodeText(ListDecl(t, name)) == ("List<" + t + ">") + " " + name + " = new ArrayList<>()" + ";"
  {
  }

  /** Staxgen.compileFields, the body of its loop: the source's own chain
      of tests on one element, writing one declaration. */
  function CompileField(e: State, el: LocalElement): Result<State, Failure>
  {
    if el.typeName.None? then
      if el.complexType.Some? && el.complexType.value.sequence.Some? then
        var particles := el.complexType.value.sequence.value.particles;
        if |particles| == 0 then Err(IndexOutOfBounds)
        else
          match particles[0]
          case ElementParticle(seqEl) =>
            if seqEl.typeName.None? then Err(NullPointer)
            else if seqEl.typeName.value == XsString then Ok(FieldList(e, "String", el.name))
            else Ok(FieldList(e, seqEl.typeName.value.localPart, el.name))
          case GroupParticle => Err(ClassCast)
          case Wildcard => Ok(FieldMap(e, el.name))
      else Err(UnsupportedOperation)
    else if el.typeName.value == XsString then
      if el.defaultValue.Some? then Ok(FieldString(e, el.name, Some(el.defaultValue.value)))
      else Ok(FieldString(e, el.name, None))
    else if el.typeName.value == XsBoolean then
      if el.defaultValue.Some? then Ok(FieldBoolean(e, el.name, Some(ParseBoolean(el.defaultValue.value))))
      else Ok(FieldBoolean(e, el.name, None))
    else Ok(FieldComplex(e, el.typeName.value.localPart, el.name))
  }

  /** The field pass fails exactly where the classifier does, with the same
      exception, and otherwise writes the declaration of the element's shape. */
  lemma FieldPassAgrees(e: State, el: LocalElement)
    ensures Classify(el).Err? ==> CompileField(e, el) == Err(Classify(el).error)
    ensures Classify(el).Ok? ==> CompileField(e, el) == Ok(Write(e, Declaration(el.name, Classify(el).value)))
  {
  }

  /** The declarations of a list of elements that all classify. */
  function Declarations(els: seq<LocalElement>): (r: seq<Code>)
    requires AllClassified(els)
    ensures |r| == |els|
    ensures forall i :: 0 <= i < |els| ==> r[i] == Declaration(els[i].name, Classify(els[i]).value)
  {
    seq(|els|, i requires 0 <= i < |els| => Declaration(els[i].name, Classify(els[i]).value))
  }

  lemma ClassifiedTail(els: seq<LocalElement>)
    requires |els| > 0
    ensures AllClassified(els) <==> Classify(els[0]).Ok? && AllClassified(els[1..])
    ensures !AllClassified(els) ==>
              FirstFailure(els) == (if Classify(els[0]).Err? then Classify(els[0]).error else FirstFailure(els[1..]))
  {
    ClassifiedSplit(els);
  }

  lemma ClassifiedSplit(els: seq<LocalElement>)
    requires |els| > 0
    ensures AllClassified(els) <==> Classify(els[0]).Ok? && AllClassified(els[1..])
  {
    if Classify(els[0]).Ok? && AllClassified(els[1..]) {
      forall i | 0 <= i < |els|
        ensures Classify(els[i]).Ok?
      {
        if i > 0 { assert els[i] == els[1..][i - 1]; }
      }
    }
  }

  /** Staxgen.compileFields: one declaration line per element, at the
      current depth, in element order, and nothing else; the first element
      that does not classify aborts the pass with its exception. */
  function CompileFields(e: State, els: seq<LocalElement>): (r: Result<State, Failure>)
    ensures r.Ok? <==> AllClassified(els)
    ensures r.Err? ==> r.error == FirstFailure(els)
    ensures r.Ok? ==> r.value == e.(lines := e.lines + Flat(e.depth, Declarations(els)))
    decreases |els|
  {
    if |els| == 0 then
      assert Flat(e.depth, Declarations(els)) == [];
      Ok(e)
    else
      ClassifiedTail(els);
      FieldPassAgrees(e, els[0]);
      match CompileField(e, els[0])
      case Err(f) => Err(f)
      case Ok(e1) =>
        var rest := CompileFields(e1, els[1..]);
        if rest.Ok? then
          FieldsCons(e, els);
          rest
        else rest
  }

  /** The first declaration, then the rest, at the same depth. */
  lemma FieldsCons(e: State, els: seq<LocalElement>)
    requires |els| > 0 && AllClassified(els)
    ensures var e1 := Write(e, Declaration(els[0].name, Classify(els[0]).value));
            e1.(lines := e1.lines + Flat(e1.depth, Declarations(els[1..])))
            == e.(lines := e.lines + Flat(e.depth, Declarations(els)))
  {
    ClassifiedTail(els);
    var ds := Declarations(els);
    DeclarationsTail(els);
    FlatCons(e.depth, ds);
    var x := Indented(e.depth, ds[0]);
    assert e.lines + [x] + Flat(e.depth, ds[1..]) == e.lines + Flat(e.depth, ds);
  }

  lemma DeclarationsTail(els: seq<LocalElement>)
    requires |els| > 0 && AllClassified(els) && AllClassified(els[1..])
    ensures Declarations(els)[1..] == Declarations(els[1..])
    ensures Declarations(els)[0] == Declaration(els[0].name, Classify(els[0]).value)
  {
  }
}
