/** The indentation-tracking emitter. Its state is a record: the run's
    configuration, the current block depth, the variable the parse routine
    writes into, the current output stream with the lines written to it, and
    the streams already closed. Every primitive returns the next state.

    Block primitives follow one rule: an opening line is written at the
    current depth and then the depth goes up by one (`updent`); a closing
    line is written after the depth has gone down by one (`endBlock`). */
module Emitter {
  import opened Results
  import opened Strings
  import opened Java
  import opened Lines

  /** Fixed for the whole run. The source's naming is inverted: a true
      `useGetters`/`useSetters` means direct field access. */
  datatype Config = Config(
    useGetters: bool,
    useSetters: bool,
    generateConstructor: bool,
    packageName: Option<string>,
    outDir: Option<string>)

  datatype Sink = StandardOut | File(path: string)

  datatype Stream = Stream(sink: Sink, lines: seq<Line>)

  datatype State = State(
    cfg: Config,
    depth: int,
    target: string,
    sink: Sink,
    lines: seq<Line>,
    closed: seq<Stream>)

  /** A new emitter: depth 0, writing into `this`, on standard output. */
  function Fresh(cfg: Config): State
  {
    State(cfg, 0, "this", StandardOut, [], [])
  }

  /** `r` continues `e`: same configuration and stream, and the lines of
      `e` are a prefix of those of `r`. */
  predicate Extends(e: State, r: State)
  {
    r.cfg == e.cfg && r.sink == e.sink && r.closed == e.closed && e.lines <= r.lines
  }

  /** The lines `r` has written since `e`. */
  function Added(e: State, r: State): seq<Line>
    requires |e.lines| <= |r.lines|
  {
    r.lines[|e.lines|..]
  }

  /** Continuing is transitive, and what was added accumulates in order. */
  lemma Chain(e: State, m: State, r: State)
    requires Extends(e, m) && Extends(m, r)
    ensures Extends(e, r)
    ensures Added(e, r) == Added(e, m) + Added(m, r)
  {
  }

  // ---- writing lines -------------------------------------------------------

  /** `indent()` followed by one complete line. */
  function Write(e: State, code: Code): State
  {
    e.(lines := e.lines + [Indented(e.depth, code)])
  }

  /** `println("")`: an empty line, not indented. */
  function Newline(e: State): State
  {
    e.(lines := e.lines + [Blank])
  }

  /** `r` continues `e` with exactly one line, at `level`, reading `text`.

      The `...Text` lemmas below use it to document the exact text each
      primitive prints, spelled as its format string spells it. They are a
      reference for readers; the theorems about the passes work on `Code`
      and `CodeText` directly and do not depend on them. */
  predicate WritesLine(e: State, r: State, level: int, text: string)
  {
    && Extends(e, r) && r.target == e.target
    && |Added(e, r)| == 1 && Added(e, r)[0].Indented? && Added(e, r)[0].level == level
    && Renderable(Added(e, r)[0].code) && CodeText(Added(e, r)[0].code) == text
  }

  /** Several complete lines at the current depth. */
  function WriteAll(e: State, codes: seq<Code>): State
  {
    e.(lines := e.lines + Flat(e.depth, codes))
  }

  /** `updent()` followed by one complete line: the line opens a block. */
  function Open(e: State, code: Code): (r: State)
    ensures Extends(e, r) && r.target == e.target
    ensures r.depth == e.depth + 1
    ensures Added(e, r) == [Indented(e.depth, code)]
  {
    Write(e, code).(depth := e.depth + 1)
  }

  /** `endBlock()`: lower the depth, then write the closing brace there. */
  function EndBlock(e: State): (r: State)
    ensures Extends(e, r) && r.target == e.target
    ensures r.depth == e.depth - 1
    ensures Added(e, r) == [Indented(e.depth - 1, Close)]
  {
    Write(e.(depth := e.depth - 1), Close)
  }

  /** An opening line closed by `endBlock` after any depth-neutral run of
      lines: `{` and `}` share one indentation and the depth is restored. */
  lemma BlockBalance(e: State, code: Code, inner: State)
    requires Extends(Open(e, code), inner) && inner.depth == e.depth + 1
    ensures EndBlock(inner).depth == e.depth
    ensures Extends(e, EndBlock(inner))
    ensures Added(e, EndBlock(inner))[0] == Indented(e.depth, code)
    ensures Added(e, EndBlock(inner))[|Added(e, EndBlock(inner))| - 1] == Indented(e.depth, Close)
  {
    Chain(e, Open(e, code), inner);
    Chain(e, inner, EndBlock(inner));
  }

  // ---- field access --------------------------------------------------------

  /** A field name usable under the run's access convention: `cap` needs a
      first character whenever accessors are generated. */
  predicate Nameable(cfg: Config, field: string)
  {
    |field| > 0 || (cfg.useGetters && cfg.useSetters)
  }

  /** How a nested record is obtained: constructed from the reader, or
      returned by its parse routine. */
  function Construct(e: State, typ: string): Expr
  {
    Nested(typ, e.cfg.generateConstructor)
  }

  /** `setString(field)`: assign the element's text to the field, directly
      or through its setter. */
  function SetString(e: State, field: string): State
    requires e.cfg.useSetters || |field| > 0
  {
    Write(e, Assign(e.target, field, e.cfg.useSetters, ElementText))
  }

  lemma SetStringText(e: State, field: string)
    requires e.cfg.useSetters || |field| > 0
    ensures var r := SetString(e, field);
            r.depth == e.depth &&
            WritesLine(e, r, e.depth, (if e.cfg.useSetters then e.target + "." + field + " = " + "xml.getElementText()" + ";"
                                  else e.target + ".set" + Cap(field) + "(" + "xml.getElementText()" + ");"))
  {
  }

  /** `setBoolean(field)`: assign the element's text parsed as a boolean. */
  function SetBoolean(e: State, field: string): State
    requires e.cfg.useSetters || |field| > 0
  {
    Write(e, Assign(e.target, field, e.cfg.useSetters, ParsedBoolean))
  }

  lemma SetBooleanText(e: State, field: string)
    requires e.cfg.useSetters || |field| > 0
    ensures var r := SetBoolean(e, field);
            r.depth == e.depth &&
            WritesLine(e, r, e.depth, (if e.cfg.useSetters then e.target + "." + field + " = " + "Boolean.parseBoolean(xml.getElementText())" + ";"
                                  else e.target + ".set" + Cap(field) + "(" + "Boolean.parseBoolean(xml.getElementText())" + ");"))
  {
  }

  /** `setComplex(field, type)`: assign a nested record, built by its
      reader constructor or returned by its parse routine. */
  function SetComplex(e: State, field: string, typ: string): State
    requires e.cfg.useSetters || |field| > 0
  {
    Write(e, Assign(e.target, field, e.cfg.useSetters, Construct(e, typ)))
  }

  lemma SetComplexText(e: State, field: string, typ: string)
    requires e.cfg.useSetters || |field| > 0
    ensures var r := SetComplex(e, field, typ);
            r.depth == e.depth &&
            var x := if e.cfg.generateConstructor then "new " + typ + "(xml)" else "parse" + typ + "(xml)";
            WritesLine(e, r, e.depth, (if e.cfg.useSetters then e.target + "." + field + " = " + x + ";"
                                  else e.target + ".set" + Cap(field) + "(" + x + ");"))
  {
  }

  /** `addComplex(listName, itemType)`: append a nested record to the list,
      reached directly or through its getter. */
  function AddComplex(e: State, listName: string, itemType: string): State
    requires e.cfg.useGetters || |listName| > 0
  {
    Write(e, Add(e.target, listName, e.cfg.useGetters, Construct(e, itemType)))
  }

  lemma AddComplexText(e: State, listName: string, itemType: string)
    requires e.cfg.useGetters || |listName| > 0
    ensures var r := AddComplex(e, listName, itemType);
            r.depth == e.depth &&
            var x := if e.cfg.generateConstructor then "new " + itemType + "(xml)" else "parse" + itemType + "(xml)";
            WritesLine(e, r, e.depth, (if e.cfg.useGetters then e.target + "." + listName else e.target + ".get" + Cap(listName) + "()") + ".add(" + x + ");")
  {
  }

  /** `addString(listName)`: append the element's text to the list. */
  function AddString(e: State, listName: string): State
    requires e.cfg.useGetters || |listName| > 0
  {
    Write(e, Add(e.target, listName, e.cfg.useGetters, ElementText))
  }

  lemma AddStringText(e: State, listName: string)
    requires e.cfg.useGetters || |listName| > 0
    ensures var r := AddString(e, listName);
            r.depth == e.depth &&
            WritesLine(e, r, e.depth, (if e.cfg.useGetters then e.target + "." + listName else e.target + ".get" + Cap(listName) + "()")
                                  + ".add(" + "xml.getElementText()" + ");")
  {
  }

  /** `putString(field)`: record the element's name and text in the map. */
  function PutString(e: State, field: string): State
    requires e.cfg.useGetters || |field| > 0
  {
    Write(e, Put(e.target, field, e.cfg.useGetters))
  }

  lemma PutStringText(e: State, field: string)
    requires e.cfg.useGetters || |field| > 0
    ensures var r := PutString(e, field);
            r.depth == e.depth &&
            WritesLine(e, r, e.depth, (if e.cfg.useGetters then e.target + "." + field else e.target + ".get" + Cap(field) + "()") + ".put(xml.getLocalName(), xml.getElementText());")
  {
  }

  // ---- field declarations -------------------------------------------------

  /** `fieldString(name)` and `fieldString(name, value)`. */
  function FieldString(e: State, name: string, value: Option<string>): State
  {
    Write(e, StringDecl(name, value))
  }

  lemma FieldStringText(e: State, name: string, value: Option<string>)
    ensures var r := FieldString(e, name, value);
            r.depth == e.depth &&
            WritesLine(e, r, e.depth, match value
                                      case None => "String " + name + ";"
                                      case Some(v) => "String " + name + " = \"" + v + "\";")
  {
  }

  /** `fieldBoolean(name)` and `fieldBoolean(name, defaultValue)`. */
  function FieldBoolean(e: State, name: string, value: Option<bool>): State
  {
    Write(e, BooleanDecl(name, value))
  }

  lemma FieldBooleanText(e: State, name: string, value: Option<bool>)
    ensures var r := FieldBoolean(e, name, value);
            r.depth == e.depth &&
            WritesLine(e, r, e.depth, match value
                                      case None => "boolean " + name + ";"
                                      case Some(b) => "boolean " + name + " = " + (if b then "true" else "false") + ";")
  {
  }

  /** `fieldList(type, name)`: a list field, initialised empty. */
  function FieldList(e: State, typ: string, name: string): State
  {
    Write(e, ListDecl(typ, name))
  }

  lemma FieldListText(e: State, typ: string, name: string)
    ensures var r := FieldList(e, typ, name);
            r.depth == e.depth &&
            WritesLine(e, r, e.depth, "List<" + typ + "> " + name + " = new ArrayList<>();")
  {
  }

  /** `fieldComplex(type, name)`: a record field, initialised to an empty record. */
  function FieldComplex(e: State, typ: string, name: string): State
  {
    Write(e, ComplexDecl(typ, name))
  }

  lemma FieldComplexText(e: State, typ: string, name: string)
    ensures var r := FieldComplex(e, typ, name);
            r.depth == e.depth &&
            WritesLine(e, r, e.depth, typ + " " + name + " = new " + typ + "();")
  {
  }

  /** `fieldMap(name)`: a string-to-string map field, initialised empty. */
  function FieldMap(e: State, name: string): State
  {
    Write(e, MapDecl(name))
  }

  lemma FieldMapText(e: State, name: string)
    ensures var r := FieldMap(e, name);
            r.depth == e.depth &&
            WritesLine(e, r, e.depth, "Map<String,String> " + name + " = new HashMap<>();")
  {
  }

  // ---- the parse routine ---------------------------------------------------

  /** The lines `parseMethod` writes at the class-body level. */
  function MethodHeads(cfg: Config, typ: string): seq<Code>
  {
    if cfg.generateConstructor then [NoArgConstructor(typ), ReaderConstructor(typ)]
    else [ParseRoutine(typ)]
  }

  /** `parseMethod(type)`: in constructor mode, a no-argument constructor, a
      blank line, and the opened reader constructor; in static mode, the
      opened `T parseT(...)` alone. Either way exactly one block is opened. */
  function ParseMethod(e: State, typ: string): (r: State)
    ensures Extends(e, r) && r.target == e.target
    ensures r.depth == e.depth + 1
    ensures NotBelow(Added(e, r), e.depth)
    ensures AtLevel(Added(e, r), e.depth) == MethodHeads(e.cfg, typ)
    ensures e.cfg.generateConstructor ==>
              Added(e, r) == [Indented(e.depth, NoArgConstructor(typ)), Blank, Indented(e.depth, ReaderConstructor(typ))]
    ensures !e.cfg.generateConstructor ==> Added(e, r) == [Indented(e.depth, ParseRoutine(typ))]
  {
    if e.cfg.generateConstructor then
      var e1 := Newline(Write(e, NoArgConstructor(typ)));
      var r := Open(e1, ReaderConstructor(typ));
      var added := [Indented(e.depth, NoArgConstructor(typ)), Blank, Indented(e.depth, ReaderConstructor(typ))];
      assert Added(e, r) == added;
      assert added == [added[0]] + ([added[1]] + [added[2]]);
      AtLevelCons(added[0], [added[1]] + [added[2]], e.depth);
      AtLevelCons(added[1], [added[2]], e.depth);
      AtLevelOne(added[2], e.depth);
      assert AtLevel(added, e.depth) == [NoArgConstructor(typ), ReaderConstructor(typ)];
      r
    else
      var r := Open(e, ParseRoutine(typ));
      assert Added(e, r) == [Indented(e.depth, ParseRoutine(typ))];
      AtLevelOne(Indented(e.depth, ParseRoutine(typ)), e.depth);
      r
  }

  /** `declareVar(type, var)`: in static mode, switch the written variable
      to `v` and declare it; in constructor mode, keep `this` and write nothing. */
  function DeclareVar(e: State, typ: string, v: string): (r: State)
    ensures Extends(e, r) && r.depth == e.depth
    ensures e.cfg.generateConstructor ==> r == e
    ensures !e.cfg.generateConstructor ==> r.target == v && Added(e, r) == [Indented(e.depth, LocalDecl(typ, v))]
  {
    if e.cfg.generateConstructor then e
    else Write(e.(target := v), LocalDecl(typ, v))
  }

  /** `returnVar()`: in static mode, return the variable; in constructor
      mode, nothing. */
  function ReturnVar(e: State): (r: State)
    ensures Extends(e, r) && r.depth == e.depth && r.target == e.target
    ensures e.cfg.generateConstructor ==> r == e
    ensures !e.cfg.generateConstructor ==> Added(e, r) == [Indented(e.depth, ReturnLocal(e.target))]
  {
    if e.cfg.generateConstructor then e
    else Write(e, ReturnLocal(e.target))
  }

  // ---- control flow in the generated parser -------------------------------

  /** `whileNextTag()`: loop over the child elements, one level in. */
  function WhileNextTag(e: State): State
  {
    Open(e, WhileHead)
  }

  lemma WhileNextTagText(e: State)
    ensures var r := WhileNextTag(e);
            r.depth == e.depth + 1 &&
            WritesLine(e, r, e.depth, "while (xml.nextTag() == START_ELEMENT) {")
  {
  }

  /** `switchOnTagName()`: dispatch on the child's name, one level in. */
  function SwitchOnTagName(e: State): State
  {
    Open(e, SwitchHead)
  }

  lemma SwitchOnTagNameText(e: State)
    ensures var r := SwitchOnTagName(e);
            r.depth == e.depth + 1 &&
            WritesLine(e, r, e.depth, "switch(xml.getLocalName()) {")
  {
  }

  /** `switchCase(value)`: a quoted `case` label opening a block. */
  function SwitchCase(e: State, value: string): State
  {
    Open(e, CaseHead(value))
  }

  lemma SwitchCaseText(e: State, value: string)
    ensures var r := SwitchCase(e, value);
            r.depth == e.depth + 1 &&
            WritesLine(e, r, e.depth, "case \"" + value + "\": {")
  {
  }

  /** `switchBreak()`: `break;` at the current depth. */
  function SwitchBreak(e: State): State
  {
    Write(e, Break)
  }

  lemma SwitchBreakText(e: State)
    ensures var r := SwitchBreak(e);
            r.depth == e.depth &&
            WritesLine(e, r, e.depth, "break;")
  {
  }

  /** `switchDefault()`: the throwing default branch. It is depth-neutral,
      and its throw sits one level deeper than its `default: {` and `}`. */
  function SwitchDefault(e: State): (r: State)
    ensures Extends(e, r) && r.target == e.target
    ensures r.depth == e.depth
    ensures Added(e, r) == [Indented(e.depth, DefaultHead), Indented(e.depth + 1, ThrowUnexpected), Indented(e.depth, Close)]
  {
    EndBlock(Write(Open(e, DefaultHead), ThrowUnexpected))
  }

  /** `ifTagName(tag)`: test the child's name against the item tag, one
      level in. */
  function IfTagName(e: State, tag: string): State
  {
    Open(e, IfHead(tag))
  }

  lemma IfTagNameText(e: State, tag: string)
    ensures var r := IfTagName(e, tag);
            r.depth == e.depth + 1 &&
            WritesLine(e, r, e.depth, "if (xml.getLocalName().equals(\"" + tag + "\")) {")
  {
  }

  /** `elseExpected(name)`: close the `if` with `} else {`, throw naming the
      expected tag, and close the `else`. */
  function ElseExpected(e: State, name: string): (r: State)
    ensures Extends(e, r) && r.target == e.target
    ensures r.depth == e.depth - 1
    ensures Added(e, r) == [Indented(e.depth - 1, ElseHead), Indented(e.depth, ThrowExpected(name)), Indented(e.depth - 1, Close)]
  {
    EndBlock(Write(Open(e.(depth := e.depth - 1), ElseHead), ThrowExpected(name)))
  }

  /** `ifTagName` followed by `elseExpected` restores the depth held before
      the `if`; `} else {` and the last `}` stand at the level of the `if`
      line, with the throw one level deeper. */
  lemma IfElseBalance(e: State, tag: string, inner: State, name: string)
    requires Extends(IfTagName(e, tag), inner) && inner.depth == e.depth + 1
    ensures ElseExpected(inner, name).depth == e.depth
    ensures Extends(e, ElseExpected(inner, name))
    ensures Added(inner, ElseExpected(inner, name)) ==
              [Indented(e.depth, ElseHead), Indented(e.depth + 1, ThrowExpected(name)), Indented(e.depth, Close)]
    ensures Added(e, ElseExpected(inner, name))[0] == Indented(e.depth, IfHead(tag))
  {
    var r := ElseExpected(inner, name);
    Chain(e, IfTagName(e, tag), inner);
    assert Extends(inner, r);
    Chain(e, inner, r);
  }

  // ---- class files ---------------------------------------------------------

  /** The seven fixed import lines of every generated class. */
  const Imports: seq<Code> := [
    Import(ArrayListClass), Import(HashMapClass), Import(ListClass), Import(MapClass),
    Import(StreamExceptionClass), Import(StreamReaderClass), Import(StartElementConstant)
  ]

  /** What a class file holds at its outer level before the class head. */
  function Preamble(packageName: Option<string>): seq<Code>
  {
    match packageName
    case None => Imports
    case Some(p) => [PackageDecl(p)] + Imports
  }

  /** The directory of the package: the output directory, extended by the
      package name with its dots turned into separators. */
  function PackageDir(outDir: string, packageName: Option<string>): string
  {
    match packageName
    case None => outDir
    case Some(p) => outDir + "/" + ReplaceChar(p, '.', '/')
  }

  /** The file a class is written to: `outDir/pkg/as/dirs/Name.java`. */
  function ClassFilePath(outDir: string, packageName: Option<string>, className: string): (path: string)
    ensures |path| == |PackageDir(outDir, packageName)| + |className| + 6
    ensures packageName.None? ==> |PackageDir(outDir, packageName)| == |outDir|
    ensures packageName.Some? ==> |PackageDir(outDir, packageName)| == |outDir| + 1 + |packageName.value|
    ensures |outDir| < |path|
    ensures packageName.Some? ==> path[..|outDir| + 1] == outDir + "/"
    ensures path[|path| - |className| - 6..] == "/" + className + ".java"
    ensures packageName.Some? ==>
              path[|outDir| + 1..|outDir| + 1 + |packageName.value|] == ReplaceChar(packageName.value, '.', '/')
  {
    var dir := PackageDir(outDir, packageName);
    var tail := "/" + className + ".java";
    assert |tail| == |className| + 6;
    var path := dir + tail;
    assert path[|path| - |className| - 6..] == tail;
    match packageName
    case None =>
      path
    case Some(p) =>
      assert path[..|outDir| + 1] == outDir + "/";
      assert path[|outDir| + 1..|outDir| + 1 + |p|] == ReplaceChar(p, '.', '/');
      path
  }

  /** The package is recoverable from the file path when its name holds no `/`. */
  lemma PackageFromPath(outDir: string, packageName: string, className: string)
    requires '/' !in packageName
    ensures var path := ClassFilePath(outDir, Some(packageName), className);
            ReplaceChar(path[|outDir| + 1..|outDir| + 1 + |packageName|], '/', '.') == packageName
  {
    ReplaceCharInverse(packageName, '.', '/');
  }

  /** `openClassFile(name)`: with an output directory, close the current
      stream and start the class file; without one, keep writing where we are. */
  function OpenClassFile(e: State, className: string): (r: State)
    ensures r.cfg == e.cfg && r.depth == e.depth && r.target == e.target
    ensures e.cfg.outDir.None? ==> r == e
    ensures e.cfg.outDir.Some? ==>
              && r.sink == File(ClassFilePath(e.cfg.outDir.value, e.cfg.packageName, className))
              && r.closed == e.closed + [Stream(e.sink, e.lines)]
              && r.lines == []
  {
    match e.cfg.outDir
    case None => e
    case Some(dir) =>
      e.(closed := e.closed + [Stream(e.sink, e.lines)],
         sink := File(ClassFilePath(dir, e.cfg.packageName, className)),
         lines := [])
  }

  /** The lines written before the imports: the package declaration and a
      blank line, when a package is set. */
  function PackageLines(depth: int, packageName: Option<string>): seq<Line>
  {
    match packageName
    case None => []
    case Some(p) => [Indented(depth, PackageDecl(p)), Blank]
  }

  /** `startClass(name)`: open the class file, write the package line (only
      when a package is set), the fixed imports, and open the class block. */
  function StartClass(e: State, name: string): (r: State)
    ensures Extends(OpenClassFile(e, name), r) && r.target == e.target
    ensures r.depth == e.depth + 1
    ensures Added(OpenClassFile(e, name), r)
            == PackageLines(e.depth, e.cfg.packageName) + Flat(e.depth, Imports)
               + [Blank, Indented(e.depth, ClassHead(name))]
  {
    ClassOpening(OpenClassFile(e, name), name)
  }

  /** What `startClass` writes once the class file is open. */
  function ClassOpening(e: State, name: string): (r: State)
    ensures Extends(e, r) && r.target == e.target
    ensures r.depth == e.depth + 1
    ensures Added(e, r)
            == PackageLines(e.depth, e.cfg.packageName) + Flat(e.depth, Imports)
               + [Blank, Indented(e.depth, ClassHead(name))]
  {
    var e2 := match e.cfg.packageName
              case None => e
              case Some(p) => Newline(Write(e, PackageDecl(p)));
    var e3 := Newline(WriteAll(e2, Imports));
    var r := Open(e3, ClassHead(name));
    var pre, imports := PackageLines(e.depth, e.cfg.packageName), Flat(e.depth, Imports);
    var tail := [Blank, Indented(e.depth, ClassHead(name))];
    assert e2.lines == e.lines + pre;
    assert e3.lines == e.lines + pre + imports + [Blank];
    assert r.lines == e.lines + (pre + imports + tail);
    r
  }

  /** The package lines stand at the given level and read as the package
      declaration, when there is one. */
  lemma PackageLevel(depth: int, packageName: Option<string>, level: int)
    ensures AtLevel(PackageLines(depth, packageName), level)
            == if level == depth then Preamble(packageName)[..|Preamble(packageName)| - |Imports|] else []
    ensures NotBelow(PackageLines(depth, packageName), depth)
  {
    match packageName
    case None =>
    case Some(p) =>
      var head := PackageLines(depth, packageName);
      AtLevelTwo(head[0], head[1], level);
  }

  /** The lines `startClass` writes into the class file: at the class's own
      level, the package line when a package is set, the seven imports and
      the class head, and nothing at any other level. */
  lemma StartClassLayout(e: State, name: string, level: int)
    ensures AtLevel(Added(OpenClassFile(e, name), StartClass(e, name)), level)
            == if level == e.depth then Preamble(e.cfg.packageName) + [ClassHead(name)] else []
  {
    var head := PackageLines(e.depth, e.cfg.packageName);
    var imports := Flat(e.depth, Imports);
    var tail := [Blank, Indented(e.depth, ClassHead(name))];
    assert Added(OpenClassFile(e, name), StartClass(e, name)) == head + imports + tail;
    AtLevelJoin(head, imports, tail, level);
    OpeningLevel(e.depth, e.cfg.packageName, name, level);
  }

  /** The class opening's three runs, one depth at a time. */
  lemma OpeningLevel(d: int, packageName: Option<string>, name: string, level: int)
    ensures AtLevel(PackageLines(d, packageName), level) + AtLevel(Flat(d, Imports), level)
            + AtLevel([Blank, Indented(d, ClassHead(name))], level)
            == if level == d then Preamble(packageName) + [ClassHead(name)] else []
  {
    FlatLevel(d, Imports, level);
    AtLevelTwo(Blank, Indented(d, ClassHead(name)), level);
    PackageLevel(d, packageName, level);
    if level == d {
      var pre := Preamble(packageName);
      PreambleSplit(packageName);
      assert pre[..|pre| - |Imports|] + Imports == pre;
    }
  }

  lemma PreambleSplit(packageName: Option<string>)
    ensures var pre := Preamble(packageName);
            pre == pre[..|pre| - |Imports|] + Imports
  {
  }

  /** Nothing of the class opening is written above the class's depth. */
  lemma StartClassFloor(e: State, name: string)
    ensures NotBelow(Added(OpenClassFile(e, name), StartClass(e, name)), e.depth)
  {
    var head := PackageLines(e.depth, e.cfg.packageName);
    var imports := Flat(e.depth, Imports);
    var tail := [Blank, Indented(e.depth, ClassHead(name))];
    PackageLevel(e.depth, e.cfg.packageName, e.depth);
    NotBelowJoin(head, imports, tail, e.depth);
  }
}
