/** The lines the generator writes, as a small syntax of Java lines, and
    their exact text. Each constructor is one format string of the emitter;
    `CodeText` is what the format produces. */
module Java {
  import opened Results
  import opened Strings

  /** The right-hand sides the generated parser assigns or adds. */
  datatype Expr =
    | ElementText                              // xml.getElementText()
    | ParsedBoolean                            // Boolean.parseBoolean(xml.getElementText())
    | Nested(typeName: string, viaConstructor: bool)  // new T(xml) or parseT(xml)

  /** The classes every generated file imports. */
  datatype Library =
    | ArrayListClass | HashMapClass | ListClass | MapClass
    | StreamExceptionClass | StreamReaderClass | StartElementConstant

  function ImportText(l: Library): string
  {
    match l
    case ArrayListClass => "import java.util.ArrayList;"
    case HashMapClass => "import java.util.HashMap;"
    case ListClass => "import java.util.List;"
    case MapClass => "import java.util.Map;"
    case StreamExceptionClass => "import javax.xml.stream.XMLStreamException;"
    case StreamReaderClass => "import javax.xml.stream.XMLStreamReader;"
    case StartElementConstant => "import static javax.xml.stream.XMLStreamReader.START_ELEMENT;"
  }

  datatype Code =
    // class preamble
    | PackageDecl(packageName: string)
    | Import(library: Library)
    | ClassHead(className: string)
    // field declarations
    | StringDecl(name: string, stringDefault: Option<string>)
    | BooleanDecl(name: string, booleanDefault: Option<bool>)
    | ListDecl(itemType: string, name: string)
    | ComplexDecl(typeName: string, name: string)
    | MapDecl(name: string)
    // the parse routine
    | NoArgConstructor(typeName: string)
    | ReaderConstructor(typeName: string)
    | ParseRoutine(typeName: string)
    | LocalDecl(typeName: string, variable: string)
    | ReturnLocal(variable: string)
    // control flow
    | WhileHead
    | SwitchHead
    | CaseHead(value: string)
    | Break
    | DefaultHead
    | ThrowUnexpected
    | IfHead(tag: string)
    | ElseHead
    | ThrowExpected(expected: string)
    | Close
    // field access; `direct` is the emitter's useGetters/useSetters flag
    | Assign(target: string, field: string, direct: bool, rhs: Expr)
    | Add(target: string, field: string, direct: bool, item: Expr)
    | Put(target: string, field: string, direct: bool)

  /** `cap` needs a first character whenever an accessor is spelled out. */
  predicate Renderable(c: Code)
  {
    match c
    case Assign(_, field, direct, _) => direct || |field| > 0
    case Add(_, field, direct, _) => direct || |field| > 0
    case Put(_, field, direct) => direct || |field| > 0
    case _ => true
  }

  /** The same line of code up to how a field is reached: direct field
      access on one side may be a spelled-out accessor on the other. */
  predicate Respelled(a: Code, b: Code)
  {
    match a
    case Assign(t, f, _, x) => b.Assign? && b == Assign(t, f, b.direct, x)
    case Add(t, f, _, x) => b.Add? && b == Add(t, f, b.direct, x)
    case Put(t, f, _) => b.Put? && b == Put(t, f, b.direct)
    case _ => b == a
  }

  /** Respelling changes nothing but the `direct` flag: two respellings
      with the same flag are the same line. */
  lemma RespelledOnlyDirect(a: Code, b: Code)
    requires Respelled(a, b)
    ensures (a.Assign? || a.Add? || a.Put?) <==> (b.Assign? || b.Add? || b.Put?)
    ensures (a.Assign? || a.Add? || a.Put?) && a.direct == b.direct ==> a == b
    ensures !(a.Assign? || a.Add? || a.Put?) ==> a == b
  {
  }

  /** The same value up to how a nested record is built: by its
      constructor on one side, by its parse routine on the other. */
  predicate SameValue(x: Expr, y: Expr)
  {
    match x
    case Nested(t, _) => y.Nested? && y.typeName == t
    case _ => y == x
  }

  /** Two values that build nested records the same way, if at all. */
  predicate BuiltAlike(x: Expr, y: Expr)
  {
    x.Nested? && y.Nested? ==> x.viaConstructor == y.viaConstructor
  }

  /** The same line of code up to the variable a store goes to, how its
      field is reached and how a nested record is built: all a store can
      differ in between the generation modes. */
  predicate Regenerated(a: Code, b: Code)
  {
    match a
    case Assign(_, f, _, x) => b.Assign? && b.field == f && SameValue(x, b.rhs)
    case Add(_, f, _, x) => b.Add? && b.field == f && SameValue(x, b.item)
    case Put(_, f, _) => b.Put? && b.field == f
    case _ => b == a
  }

  /** A respelling is a regeneration, and a regeneration that keeps the
      variable, the access flag and the way records are built is no change. */
  lemma RegeneratedOnlyStores(a: Code, b: Code)
    ensures Respelled(a, b) ==> Regenerated(a, b)
    ensures Regenerated(a, b) && !(a.Assign? || a.Add? || a.Put?) ==> a == b
    ensures (Regenerated(a, b) && a.Assign? && a.target == b.target && a.direct == b.direct
             && BuiltAlike(a.rhs, b.rhs)) ==> a == b
    ensures (Regenerated(a, b) && a.Add? && a.target == b.target && a.direct == b.direct
             && BuiltAlike(a.item, b.item)) ==> a == b
    ensures (Regenerated(a, b) && a.Put? && a.target == b.target && a.direct == b.direct) ==> a == b
  {
  }

  /** `getter(var, field)`. */
  function Getter(target: string, field: string, direct: bool): string
    requires direct || |field| > 0
  {
    if direct then target + "." + field else target + ".get" + Cap(field) + "()"
  }

  /** `setter(var, field)`: the text before the assigned expression. */
  function Setter(target: string, field: string, direct: bool): string
    requires direct || |field| > 0
  {
    if direct then target + "." + field + " = " else target + ".set" + Cap(field) + "("
  }

  /** `endSetter()`: the text after the assigned expression. */
  function EndSetter(direct: bool): string
  {
    if direct then ";" else ");"
  }

  function ExprText(x: Expr): string
  {
    match x
    case ElementText => "xml.getElementText()"
    case ParsedBoolean => "Boolean.parseBoolean(xml.getElementText())"
    case Nested(t, true) => "new " + t + "(xml)"
    case Nested(t, false) => "parse" + t + "(xml)"
  }

  /** The text of one line, without indentation and newline. */
  function CodeText(c: Code): string
    requires Renderable(c)
  {
    match c
    case PackageDecl(p) => "package " + p + ";"
    case Import(l) => ImportText(l)
    case ClassHead(n) => "public class " + n + " {"
    case StringDecl(n, None) => "String " + n + ";"
    case StringDecl(n, Some(v)) => "String " + n + " = \"" + v + "\";"
    case BooleanDecl(n, None) => "boolean " + n + ";"
    case BooleanDecl(n, Some(b)) => "boolean " + n + " = " + BoolText(b) + ";"
    case ListDecl(t, n) => "List<" + t + "> " + n + " = new ArrayList<>();"
    case ComplexDecl(t, n) => t + " " + n + " = new " + t + "();"
    case MapDecl(n) => "Map<String,String> " + n + " = new HashMap<>();"
    case NoArgConstructor(t) => "public " + t + "() {}"
    case ReaderConstructor(t) => "public " + t + "(XMLStreamReader xml) throws XMLStreamException {"
    case ParseRoutine(t) => t + " parse" + t + "(XMLStreamReader xml) throws XMLStreamException {"
    case LocalDecl(t, v) => t + " " + v + " = new " + t + "();"
    case ReturnLocal(v) => "return " + v + ";"
    case WhileHead => "while (xml.nextTag() == START_ELEMENT) {"
    case SwitchHead => "switch(xml.getLocalName()) {"
    case CaseHead(v) => "case \"" + v + "\": {"
    case Break => "break;"
    case DefaultHead => "default: {"
    case ThrowUnexpected =>
      "throw new XMLStreamException(\"Unexpected tag: \" + xml.getLocalName(), xml.getLocation());"
    case IfHead(tag) => "if (xml.getLocalName().equals(\"" + tag + "\")) {"
    case ElseHead => "} else {"
    case ThrowExpected(name) =>
      "throw new XMLStreamException(\"Expected <" + name + "> but got: \" + xml.getLocalName(), xml.getLocation());"
    case Close => "}"
    case Assign(target, field, direct, x) => Setter(target, field, direct) + ExprText(x) + EndSetter(direct)
    case Add(target, field, direct, x) => Getter(target, field, direct) + ".add(" + ExprText(x) + ");"
    case Put(target, field, direct) => Getter(target, field, direct) + ".put(xml.getLocalName(), xml.getElementText());"
  }

  /** Reads render as `var.field` exactly in direct mode, and as
      `var.getField()`, with only the first letter raised, otherwise. */
  lemma GetterConvention(target: string, field: string, direct: bool)
    requires direct || |field| > 0
    ensures direct <==> Getter(target, field, direct) == target + "." + field
    ensures !direct ==> Getter(target, field, direct) == target + ".get" + [ToUpper(field[0])] + field[1..] + "()"
  {
    if !direct {
      assert |Getter(target, field, direct)| == |target + "." + field| + 5;
    }
  }

  /** Writes render as `var.field = expr;` exactly in direct mode, and as
      `var.setField(expr);` otherwise. */
  lemma SetterConvention(target: string, field: string, direct: bool, x: Expr)
    requires direct || |field| > 0
    ensures var text := CodeText(Assign(target, field, direct, x));
            direct <==> text == target + "." + field + " = " + ExprText(x) + ";"
    ensures !direct ==> CodeText(Assign(target, field, direct, x))
                        == target + ".set" + [ToUpper(field[0])] + field[1..] + "(" + ExprText(x) + ");"
  {
    var text := CodeText(Assign(target, field, direct, x));
    if !direct {
      assert |text| == |target + "." + field + " = " + ExprText(x) + ";"| + 2;
    }
  }

  /** The generated list loop's failure names the tag it expected, right
      after `Expected <`. */
  lemma ThrowNamesExpected(name: string)
    ensures var text := CodeText(ThrowExpected(name));
            text[40..40 + |name|] == name && text[30..40] == "Expected <"
  {
    var head := "throw new XMLStreamException(\"Expected <";
    var tail := "> but got: \" + xml.getLocalName(), xml.getLocation());";
    assert |head| == 40;
    assert head[30..] == "Expected <";
    SliceOfConcat(head, name, tail);
  }

  lemma SliceOfConcat(a: string, b: string, c: string)
    ensures (a + b + c)[|a|..|a| + |b|] == b
    ensures (a + b + c)[..|a|] == a
  {
  }
}
