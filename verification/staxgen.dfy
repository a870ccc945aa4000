/** The type compiler and the schema loop: each top-level complex type
    becomes one class holding its field declarations and its parse
    routine, written to standard output or to a file of its own. */
module Staxgen {
  import opened Results
  import opened Strings
  import opened Java
  import opened Lines
  import opened Schema
  import opened Fields
  import opened Emitter
  import opened FieldPass
  import opened ParserPass

  // ---- the parse routine ---------------------------------------------------

  /** The variable the parse routine fills: `this` in constructor mode,
      the type's name with its first letter lowered in static mode. */
  function ParserTarget(e: State, name: string): string
    requires |name| > 0
  {
    if e.cfg.generateConstructor then e.target else Uncap(name)
  }

  /** The lines before the dispatch, the routine opened at depth `d`. */
  function ParserHead(cfg: Config, d: int, name: string, v: string): seq<Line>
  {
    (if cfg.generateConstructor
     then [Indented(d, NoArgConstructor(name)), Blank, Indented(d, ReaderConstructor(name))]
     else [Indented(d, ParseRoutine(name)), Indented(d + 1, LocalDecl(name, v))])
    + [Indented(d + 1, WhileHead), Indented(d + 2, SwitchHead)]
  }

  /** The lines after the dispatch: the throwing default, the closing of
      the `switch` and the `while`, the return in static mode, and the
      closing of the routine. */
  function ParserTail(cfg: Config, d: int, v: string): seq<Line>
  {
    [Indented(d + 3, DefaultHead), Indented(d + 4, ThrowUnexpected), Indented(d + 3, Close),
     Indented(d + 2, Close), Indented(d + 1, Close)]
    + (if cfg.generateConstructor then [] else [Indented(d + 1, ReturnLocal(v))])
    + [Indented(d, Close)]
  }

  /** Staxgen.java:42-45: the routine, the variable, the loop and the switch. */
  function OpenParser(e: State, name: string, v: string): (r: State)
    ensures Extends(e, r) && r.depth == e.depth + 3
    ensures r.target == if e.cfg.generateConstructor then e.target else v
    ensures Added(e, r) == ParserHead(e.cfg, e.depth, name, v)
  {
    var e1 := ParseMethod(e, name);
    var e2 := DeclareVar(e1, name, v);
    var e3 := WhileNextTag(e2);
    var r := SwitchOnTagName(e3);
    Chain(e, e1, e2);
    Chain(e, e2, e3);
    Chain(e, e3, r);
    r
  }

  /** Staxgen.java:80-84: the default, three closings and the return. */
  function CloseParser(e: State): (r: State)
    ensures Extends(e, r) && r.depth == e.depth - 3 && r.target == e.target
    ensures Added(e, r) == ParserTail(e.cfg, e.depth - 3, e.target)
  {
    var e1 := SwitchDefault(e);
    var e2 := EndBlock(e1);
    var e3 := EndBlock(e2);
    var e4 := ReturnVar(e3);
    var r := EndBlock(e4);
    Chain(e, e1, e2);
    Chain(e, e2, e3);
    Chain(e, e3, e4);
    Chain(e, e4, r);
    r
  }

  /** Staxgen.compileParser: the name is uncapitalised first, so an empty
      type name fails before anything else; a type without an `all` group
      fails when its particles are first asked for. */
  function CompileParser(e: State, t: ComplexType): (r: Result<State, Failure>)
    ensures r.Ok? <==> |t.name| > 0 && t.all.Some? && AllDispatched(e.cfg, t.all.value)
    ensures |t.name| == 0 ==> r == Err(IndexOutOfBounds)
    ensures |t.name| > 0 && t.all.None? ==> r == Err(NullPointer)
    ensures |t.name| > 0 && t.all.Some? && r.Err? ==> r.error == FirstRejection(e.cfg, t.all.value)
    ensures r.Ok? ==> Extends(e, r.value) && r.value.depth == e.depth && r.value.target == ParserTarget(e, t.name)
  {
    if |t.name| == 0 then Err(IndexOutOfBounds)
    else
      var e1 := OpenParser(e, t.name, Uncap(t.name));
      if t.all.None? then Err(NullPointer)
      else
        match CompileCases(e1, t.all.value)
        case Err(f) => Err(f)
        case Ok(e2) =>
          var r := CloseParser(e2);
          Chain(e, e1, e2);
          Chain(e, e2, r);
          Ok(r)
  }

  /** What the routine holds at each depth relative to where it opens. */
  function HeadSkeleton(cfg: Config, name: string, v: string, k: int): seq<Code>
  {
    if k == 0 then MethodHeads(cfg, name)
    else if k == 1 then (if cfg.generateConstructor then [] else [LocalDecl(name, v)]) + [WhileHead]
    else if k == 2 then [SwitchHead]
    else []
  }

  function TailSkeleton(cfg: Config, v: string, k: int): seq<Code>
  {
    if k == 0 then [Close]
    else if k == 1 then [Close] + (if cfg.generateConstructor then [] else [ReturnLocal(v)])
    else if k == 2 then [Close]
    else if k == 3 then [DefaultHead, Close]
    else if k == 4 then [ThrowUnexpected]
    else []
  }

  /** The skeletons at each depth, spelled out. */
  lemma SkeletonValues(cfg: Config, name: string, v: string, w: string, cases: seq<Code>)
    ensures HeadSkeleton(cfg, name, v, 0) + [] + TailSkeleton(cfg, w, 0) == MethodHeads(cfg, name) + [Close]
    ensures HeadSkeleton(cfg, name, v, 1) + [] + TailSkeleton(cfg, w, 1)
            == if cfg.generateConstructor then [WhileHead, Close] else [LocalDecl(name, v), WhileHead, Close, ReturnLocal(w)]
    ensures HeadSkeleton(cfg, name, v, 2) + [] + TailSkeleton(cfg, w, 2) == [SwitchHead, Close]
    ensures HeadSkeleton(cfg, name, v, 3) + cases + TailSkeleton(cfg, w, 3) == cases + [DefaultHead, Close]
  {
  }

  lemma HeadLevel(cfg: Config, d: int, name: string, v: string, level: int)
    requires d <= level
    ensures AtLevel(ParserHead(cfg, d, name, v), level) == HeadSkeleton(cfg, name, v, level - d)
  {
    if cfg.generateConstructor {
      assert ParserHead(cfg, d, name, v) == [Indented(d, NoArgConstructor(name)), Blank, Indented(d, ReaderConstructor(name)),
                                              Indented(d + 1, WhileHead), Indented(d + 2, SwitchHead)];
      AtLevelFive(Indented(d, NoArgConstructor(name)), Blank, Indented(d, ReaderConstructor(name)),
                  Indented(d + 1, WhileHead), Indented(d + 2, SwitchHead), level);
    } else {
      assert ParserHead(cfg, d, name, v) == [Indented(d, ParseRoutine(name)), Indented(d + 1, LocalDecl(name, v)),
                                              Indented(d + 1, WhileHead), Indented(d + 2, SwitchHead)];
      AtLevelFour(Indented(d, ParseRoutine(name)), Indented(d + 1, LocalDecl(name, v)),
                  Indented(d + 1, WhileHead), Indented(d + 2, SwitchHead), level);
    }
  }

  /** The five fixed closing lines: the default branch and the closing of
      the `switch` and the `while`. */
  function Closings(d: int): seq<Line>
  {
    [Indented(d + 3, DefaultHead), Indented(d + 4, ThrowUnexpected), Indented(d + 3, Close),
     Indented(d + 2, Close), Indented(d + 1, Close)]
  }

  lemma ClosingsLevel(d: int, level: int)
    requires d <= level
    ensures AtLevel(Closings(d), level)
            == if level == d + 1 || level == d + 2 then [Close]
               else if level == d + 3 then [DefaultHead, Close]
               else if level == d + 4 then [ThrowUnexpected]
               else []
  {
    var c := Closings(d);
    AtLevelFive(c[0], c[1], c[2], c[3], c[4], level);
  }

  lemma TailLevel(cfg: Config, d: int, v: string, level: int)
    requires d <= level
    ensures AtLevel(ParserTail(cfg, d, v), level) == TailSkeleton(cfg, v, level - d)
  {
    var ret := if cfg.generateConstructor then [] else [Indented(d + 1, ReturnLocal(v))];
    var last := [Indented(d, Close)];
    assert ParserTail(cfg, d, v) == Closings(d) + ret + last;
    AtLevelJoin(Closings(d), ret, last, level);
    ClosingsLevel(d, level);
    AtLevelOne(last[0], level);
    assert AtLevel(last, level) == if level == d then [Close] else [];
    if !cfg.generateConstructor { AtLevelOne(ret[0], level); }
    assert AtLevel(ret, level) == if level == d + 1 && !cfg.generateConstructor then [ReturnLocal(v)] else [];
  }

  lemma FrameNotBelow(cfg: Config, d: int, name: string, v: string, w: string)
    ensures NotBelow(ParserHead(cfg, d, name, v), d)
    ensures NotBelow(ParserTail(cfg, d, w), d)
  {
  }

  /** The pieces of a compiled parse routine: the head, the dispatch, and
      the tail, with the dispatch kept at least three levels in. */
  lemma ParserPieces(e: State, t: ComplexType)
    requires CompileParser(e, t).Ok?
    ensures var r := CompileParser(e, t).value;
            var e1 := OpenParser(e, t.name, Uncap(t.name));
            var c := CompileCases(e1, t.all.value);
            && c.Ok?
            && Added(e, r) == ParserHead(e.cfg, e.depth, t.name, Uncap(t.name)) + Added(e1, c.value)
                              + ParserTail(e.cfg, e.depth, ParserTarget(e, t.name))
            && NotBelow(Added(e1, c.value), e.depth + 3)
            && AtLevel(Added(e1, c.value), e.depth + 3) == CaseSkeleton(t.all.value)
  {
    var e1 := OpenParser(e, t.name, Uncap(t.name));
    var e2 := CompileCases(e1, t.all.value).value;
    var r := CloseParser(e2);
    Chain(e, e1, e2);
    Chain(e, e2, r);
  }

  /** The lines of a compiled routine at one depth: the head's, then the
      cases' (only three levels in), then the tail's. */
  lemma ParserLevel(e: State, t: ComplexType, level: int)
    requires CompileParser(e, t).Ok?
    requires e.depth <= level <= e.depth + 3
    ensures AtLevel(Added(e, CompileParser(e, t).value), level)
            == HeadSkeleton(e.cfg, t.name, Uncap(t.name), level - e.depth)
               + (if level == e.depth + 3 then CaseSkeleton(t.all.value) else [])
               + TailSkeleton(e.cfg, ParserTarget(e, t.name), level - e.depth)
  {
    ParserPieces(e, t);
    var e1 := OpenParser(e, t.name, Uncap(t.name));
    var cases := Added(e1, CompileCases(e1, t.all.value).value);
    AtLevelJoin(ParserHead(e.cfg, e.depth, t.name, Uncap(t.name)), cases,
                ParserTail(e.cfg, e.depth, ParserTarget(e, t.name)), level);
    HeadLevel(e.cfg, e.depth, t.name, Uncap(t.name), level);
    TailLevel(e.cfg, e.depth, ParserTarget(e, t.name), level);
    if level < e.depth + 3 {
      AtLevelDeeper(cases, level);
    }
  }

  /** The generated routine nests as the source lays it out. At the
      starting depth: the routine's head lines and its closing brace. One
      level in: the local variable in static mode, the `while` and its
      closing brace, and the `return` in static mode. */
  lemma ParserFrame(e: State, t: ComplexType)
    requires CompileParser(e, t).Ok?
    ensures var a := Added(e, CompileParser(e, t).value);
            var v := ParserTarget(e, t.name);
            && AtLevel(a, e.depth) == MethodHeads(e.cfg, t.name) + [Close]
            && AtLevel(a, e.depth + 1)
               == (if e.cfg.generateConstructor then [WhileHead, Close]
                   else [LocalDecl(t.name, v), WhileHead, Close, ReturnLocal(v)])
  {
    ParserLevel(e, t, e.depth);
    ParserLevel(e, t, e.depth + 1);
    SkeletonValues(e.cfg, t.name, Uncap(t.name), ParserTarget(e, t.name), []);
  }

  /** Two levels in: the `switch`. Three levels in: one `case` per element
      in element order, then the throwing `default`. */
  lemma ParserDispatch(e: State, t: ComplexType)
    requires CompileParser(e, t).Ok?
    ensures var a := Added(e, CompileParser(e, t).value);
            && AtLevel(a, e.depth + 2) == [SwitchHead, Close]
            && AtLevel(a, e.depth + 3) == CaseSkeleton(t.all.value) + [DefaultHead, Close]
  {
    ParserLevel(e, t, e.depth + 2);
    ParserLevel(e, t, e.depth + 3);
    SkeletonValues(e.cfg, t.name, Uncap(t.name), ParserTarget(e, t.name), CaseSkeleton(t.all.value));
  }

  /** Nothing of the routine is written above its starting depth. */
  lemma ParserFloor(e: State, t: ComplexType)
    requires CompileParser(e, t).Ok?
    ensures NotBelow(Added(e, CompileParser(e, t).value), e.depth)
  {
    ParserPieces(e, t);
    var e1 := OpenParser(e, t.name, Uncap(t.name));
    var cases := Added(e1, CompileCases(e1, t.all.value).value);
    FrameNotBelow(e.cfg, e.depth, t.name, Uncap(t.name), ParserTarget(e, t.name));
    NotBelowJoin(ParserHead(e.cfg, e.depth, t.name, Uncap(t.name)), cases,
                 ParserTail(e.cfg, e.depth, ParserTarget(e, t.name)), e.depth);
  }

  // ---- one class -----------------------------------------------------------

  /** A type compiles when it has an `all` group whose elements all
      classify, a name to uncapitalise, and fields the parser can name. */
  predicate Compilable(cfg: Config, t: ComplexType)
  {
    t.all.Some? && AllClassified(t.all.value) && |t.name| > 0 && AllDispatched(cfg, t.all.value)
  }

  /** The exception a type that does not compile raises first: a missing
      `all` group, then the field pass's first failure, and otherwise a
      `charAt(0)` of an empty name. */
  function CompileFailure(cfg: Config, t: ComplexType): Failure
    requires !Compilable(cfg, t)
  {
    if t.all.None? then NullPointer
    else if !AllClassified(t.all.value) then FirstFailure(t.all.value)
    else IndexOutOfBounds
  }

  /** Staxgen.compile: open the class (and its file), then its body.
      `flush` only hands buffered text to the sink and changes nothing here. */
  function Compile(e: State, t: ComplexType): (r: Result<State, Failure>)
    ensures r.Ok? <==> Compilable(e.cfg, t)
    ensures r.Err? ==> r.error == CompileFailure(e.cfg, t)
    ensures r.Ok? ==>
              && Extends(OpenClassFile(e, t.name), r.value)
              && r.value.depth == e.depth && r.value.target == ParserTarget(e, t.name)
  {
    var e1 := StartClass(e, t.name);
    if t.all.None? then Err(NullPointer)
    else
      var r := ClassBody(e1, t);
      if r.Ok? then Chain(OpenClassFile(e, t.name), e1, r.value); r else r
  }

  /** The class after its opening: the field declarations, a blank line,
      the parse routine, the closing brace and a blank line. */
  function ClassBody(e: State, t: ComplexType): (r: Result<State, Failure>)
    requires t.all.Some?
    ensures r.Ok? <==> AllClassified(t.all.value) && |t.name| > 0 && AllDispatched(e.cfg, t.all.value)
    ensures r.Err? ==> r.error == if AllClassified(t.all.value) then IndexOutOfBounds else FirstFailure(t.all.value)
    ensures r.Ok? ==>
              && Extends(e, r.value)
              && r.value.depth == e.depth - 1 && r.value.target == ParserTarget(e, t.name)
  {
    match CompileFields(e, t.all.value)
    case Err(f) => Err(f)
    case Ok(e2) =>
      var e3 := Newline(e2);
      match CompileParser(e3, t)
      case Err(f) =>
        RejectionAgrees(e.cfg, t.all.value);
        Err(f)
      case Ok(e4) =>
        var r := Newline(EndBlock(e4));
        Chain(e, e3, e4);
        Chain(e, e4, r);
        Ok(r)
  }

  /** The pieces of a class body: the declarations, a blank line, the
      parse routine, the closing brace one level out and a blank line. */
  lemma BodyPieces(e: State, t: ComplexType)
    requires t.all.Some? && AllClassified(t.all.value) && |t.name| > 0 && AllDispatched(e.cfg, t.all.value)
    ensures var e3 := Newline(CompileFields(e, t.all.value).value);
            && CompileParser(e3, t).Ok?
            && ClassBody(e, t).Ok?
            && e3.depth == e.depth
            && Added(e, ClassBody(e, t).value)
               == (Flat(e.depth, Declarations(t.all.value)) + [Blank])
                  + Added(e3, CompileParser(e3, t).value) + [Indented(e.depth - 1, Close), Blank]
  {
    var e3 := Newline(CompileFields(e, t.all.value).value);
    FieldsLines(e, t.all.value);
    var e4 := CompileParser(e3, t).value;
    ClassBodyValue(e, t);
    ClosingLines(e, e3, e4);
  }

  lemma ClassBodyValue(e: State, t: ComplexType)
    requires t.all.Some? && AllClassified(t.all.value) && |t.name| > 0 && AllDispatched(e.cfg, t.all.value)
    ensures var e3 := Newline(CompileFields(e, t.all.value).value);
            && CompileParser(e3, t).Ok?
            && ClassBody(e, t) == Ok(Newline(EndBlock(CompileParser(e3, t).value)))
  {
  }

  lemma FieldsLines(e: State, els: seq<LocalElement>)
    requires AllClassified(els)
    ensures var e3 := Newline(CompileFields(e, els).value);
            Extends(e, e3) && e3.depth == e.depth && e3.target == e.target
            && Added(e, e3) == Flat(e.depth, Declarations(els)) + [Blank]
  {
    var e2 := CompileFields(e, els).value;
    assert e2.lines == e.lines + Flat(e.depth, Declarations(els));
  }

  /** Closing the class after its fields and parse routine. */
  lemma ClosingLines(e: State, e3: State, e4: State)
    requires Extends(e, e3) && Extends(e3, e4)
    ensures var r := Newline(EndBlock(e4));
            Extends(e, r)
            && Added(e, r) == Added(e, e3) + Added(e3, e4) + [Indented(e4.depth - 1, Close), Blank]
  {
    var r := Newline(EndBlock(e4));
    assert r.lines == e4.lines + [Indented(e4.depth - 1, Close), Blank];
    Chain(e, e3, e4);
  }

  /** A compiled class is its opening followed by its body. */
  lemma ClassPieces(e: State, t: ComplexType)
    requires Compile(e, t).Ok?
    ensures var e1 := StartClass(e, t.name);
            && ClassBody(e1, t).Ok?
            && Added(OpenClassFile(e, t.name), Compile(e, t).value)
               == Added(OpenClassFile(e, t.name), e1) + Added(e1, ClassBody(e1, t).value)
  {
    var e1 := StartClass(e, t.name);
    Chain(OpenClassFile(e, t.name), e1, ClassBody(e1, t).value);
  }

  /** The declarations and the blank line after them, all at one depth. */
  lemma DeclarationsLevel(d: int, decls: seq<Code>, level: int)
    ensures AtLevel(Flat(d, decls) + [Blank], level) == if level == d then decls else []
    ensures NotBelow(Flat(d, decls) + [Blank], d)
  {
    AtLevelAppend(Flat(d, decls), [Blank], level);
    AtLevelOne(Blank, level);
    FlatLevel(d, decls, level);
  }

  /** The class's closing brace and the blank line after it. */
  lemma ClassCloseLevel(d: int, level: int)
    ensures AtLevel([Indented(d, Close), Blank], level) == if level == d then [Close] else []
    ensures NotBelow([Indented(d, Close), Blank], d)
  {
    AtLevelTwo(Indented(d, Close), Blank, level);
  }

  /** The class body at one depth: the declarations at the body's depth,
      the parse routine's lines, and the closing brace one level out. */
  lemma BodyLevel(e: State, t: ComplexType, level: int)
    requires Compilable(e.cfg, t)
    ensures var b := Added(e, ClassBody(e, t).value);
            var e3 := Newline(CompileFields(e, t.all.value).value);
            && CompileParser(e3, t).Ok?
            && AtLevel(b, level)
               == (if level == e.depth then Declarations(t.all.value) else [])
                  + AtLevel(Added(e3, CompileParser(e3, t).value), level)
                  + (if level == e.depth - 1 then [Close] else [])
  {
    BodyPieces(e, t);
    var x := Flat(e.depth, Declarations(t.all.value)) + [Blank];
    var e3 := Newline(CompileFields(e, t.all.value).value);
    var p := Added(e3, CompileParser(e3, t).value);
    var y := [Indented(e.depth - 1, Close), Blank];
    AtLevelJoin(x, p, y, level);
    DeclarationsLevel(e.depth, Declarations(t.all.value), level);
    ClassCloseLevel(e.depth - 1, level);
  }

  /** Nothing of the body is written above its closing brace. */
  lemma BodyFloor(e: State, t: ComplexType)
    requires Compilable(e.cfg, t)
    ensures NotBelow(Added(e, ClassBody(e, t).value), e.depth - 1)
  {
    BodyPieces(e, t);
    var x := Flat(e.depth, Declarations(t.all.value)) + [Blank];
    var e3 := Newline(CompileFields(e, t.all.value).value);
    var p := Added(e3, CompileParser(e3, t).value);
    var y := [Indented(e.depth - 1, Close), Blank];
    DeclarationsLevel(e.depth, Declarations(t.all.value), e.depth);
    ClassCloseLevel(e.depth - 1, e.depth);
    ParserFloor(e3, t);
    NotBelowJoin(x, p, y, e.depth - 1);
  }

  /** A compiled class at one depth: the preamble and the class head at the
      starting depth, then the body's lines. */
  lemma ClassLevel(e: State, t: ComplexType, level: int)
    requires Compilable(e.cfg, t)
    ensures var e1 := StartClass(e, t.name);
            && ClassBody(e1, t).Ok?
            && AtLevel(Added(OpenClassFile(e, t.name), Compile(e, t).value), level)
               == (if level == e.depth then Preamble(e.cfg.packageName) + [ClassHead(t.name)] else [])
                  + AtLevel(Added(e1, ClassBody(e1, t).value), level)
  {
    ClassPieces(e, t);
    var o := OpenClassFile(e, t.name);
    var e1 := StartClass(e, t.name);
    StartClassLayout(e, t.name, level);
    AtLevelAppend(Added(o, e1), Added(e1, ClassBody(e1, t).value), level);
  }

  /** What a class body holds at depth `j` relative to its own depth (the
      closing brace sits at -1), with `v` the variable the routine fills. */
  function BodySkeleton(cfg: Config, t: ComplexType, v: string, j: int): seq<Code>
    requires t.all.Some? && AllClassified(t.all.value) && |t.name| > 0
  {
    (if j == 0 then Declarations(t.all.value) else [])
    + (if j >= 0
       then HeadSkeleton(cfg, t.name, Uncap(t.name), j) + (if j == 3 then CaseSkeleton(t.all.value) else [])
            + TailSkeleton(cfg, v, j)
       else [])
    + (if j == -1 then [Close] else [])
  }

  /** What a class holds at depth `k` relative to where it starts. */
  function ClassSkeleton(cfg: Config, t: ComplexType, v: string, k: int): seq<Code>
    requires t.all.Some? && AllClassified(t.all.value) && |t.name| > 0
  {
    (if k == 0 then Preamble(cfg.packageName) + [ClassHead(t.name)] else [])
    + BodySkeleton(cfg, t, v, k - 1)
  }

  lemma BodySkeletonLevel(e: State, t: ComplexType, level: int)
    requires Compilable(e.cfg, t)
    requires e.depth - 1 <= level <= e.depth + 3
    ensures AtLevel(Added(e, ClassBody(e, t).value), level)
            == BodySkeleton(e.cfg, t, ParserTarget(e, t.name), level - e.depth)
  {
    BodyLevel(e, t, level);
    FieldsLines(e, t.all.value);
    var e3 := Newline(CompileFields(e, t.all.value).value);
    var p := Added(e3, CompileParser(e3, t).value);
    var v := ParserTarget(e, t.name);
    var j := level - e.depth;
    if level >= e.depth {
      ParserLevel(e3, t, level);
      assert AtLevel(p, level)
             == HeadSkeleton(e.cfg, t.name, Uncap(t.name), j) + (if j == 3 then CaseSkeleton(t.all.value) else [])
                + TailSkeleton(e.cfg, v, j);
    } else {
      ParserFloor(e3, t);
      AtLevelDeeper(p, level);
    }
    BodySkeletonStep(AtLevel(Added(e, ClassBody(e, t).value), level), AtLevel(p, level), e.cfg, t, v, j);
  }

  lemma BodySkeletonStep(b: seq<Code>, p: seq<Code>, cfg: Config, t: ComplexType, v: string, j: int)
    requires t.all.Some? && AllClassified(t.all.value) && |t.name| > 0
    requires j >= 0 ==> p == HeadSkeleton(cfg, t.name, Uncap(t.name), j) + (if j == 3 then CaseSkeleton(t.all.value) else [])
                             + TailSkeleton(cfg, v, j)
    requires j < 0 ==> p == []
    requires b == (if j == 0 then Declarations(t.all.value) else []) + p + (if j == -1 then [Close] else [])
    ensures b == BodySkeleton(cfg, t, v, j)
  {
  }

  lemma ClassSkeletonLevel(e: State, t: ComplexType, level: int)
    requires Compilable(e.cfg, t)
    requires e.depth <= level <= e.depth + 4
    ensures AtLevel(Added(OpenClassFile(e, t.name), Compile(e, t).value), level)
            == ClassSkeleton(e.cfg, t, ParserTarget(e, t.name), level - e.depth)
  {
    ClassLevel(e, t, level);
    var e1 := StartClass(e, t.name);
    BodySkeletonLevel(e1, t, level);
    var b := AtLevel(Added(e1, ClassBody(e1, t).value), level);
    assert b == BodySkeleton(e.cfg, t, ParserTarget(e, t.name), level - e.depth - 1);
    var c := AtLevel(Added(OpenClassFile(e, t.name), Compile(e, t).value), level);
    assert c == (if level - e.depth == 0 then Preamble(e.cfg.packageName) + [ClassHead(t.name)] else []) + b;
    ClassSkeletonStep(c, b, e.cfg, t, ParserTarget(e, t.name), level - e.depth);
  }

  lemma ClassSkeletonStep(c: seq<Code>, b: seq<Code>, cfg: Config, t: ComplexType, v: string, k: int)
    requires t.all.Some? && AllClassified(t.all.value) && |t.name| > 0
    requires b == BodySkeleton(cfg, t, v, k - 1)
    requires c == (if k == 0 then Preamble(cfg.packageName) + [ClassHead(t.name)] else []) + b
    ensures c == ClassSkeleton(cfg, t, v, k)
  {
  }

  /** The class skeletons at each depth, spelled out. */
  lemma ClassSkeletonValues(cfg: Config, t: ComplexType, v: string)
    requires t.all.Some? && AllClassified(t.all.value) && |t.name| > 0
    ensures ClassSkeleton(cfg, t, v, 0) == Preamble(cfg.packageName) + [ClassHead(t.name), Close]
    ensures ClassSkeleton(cfg, t, v, 1) == Declarations(t.all.value) + MethodHeads(cfg, t.name) + [Close]
    ensures ClassSkeleton(cfg, t, v, 2)
            == if cfg.generateConstructor then [WhileHead, Close]
               else [LocalDecl(t.name, Uncap(t.name)), WhileHead, Close, ReturnLocal(v)]
    ensures ClassSkeleton(cfg, t, v, 3) == [SwitchHead, Close]
    ensures ClassSkeleton(cfg, t, v, 4) == CaseSkeleton(t.all.value) + [DefaultHead, Close]
  {
    SkeletonValues(cfg, t.name, Uncap(t.name), v, CaseSkeleton(t.all.value));
  }

  /** The outer layout of a generated class. At its starting depth: the
      package line when there is one, the seven imports, the class head and
      the closing brace. One level in: the field declarations in element
      order, the routine's head lines and the routine's closing brace. */
  lemma ClassFrame(e: State, t: ComplexType)
    requires Compilable(e.cfg, t)
    ensures var c := Added(OpenClassFile(e, t.name), Compile(e, t).value);
            && AtLevel(c, e.depth) == Preamble(e.cfg.packageName) + [ClassHead(t.name), Close]
            && AtLevel(c, e.depth + 1)
               == Declarations(t.all.value) + MethodHeads(e.cfg, t.name) + [Close]
  {
    ClassSkeletonLevel(e, t, e.depth);
    ClassSkeletonLevel(e, t, e.depth + 1);
    ClassSkeletonValues(e.cfg, t, ParserTarget(e, t.name));
  }

  /** The inner layout of a generated class: the `while` (with the local
      variable and the `return` in static mode), then the `switch`, then
      one `case` per element in element order and the throwing default. */
  lemma ClassDispatch(e: State, t: ComplexType)
    requires Compilable(e.cfg, t)
    ensures var c := Added(OpenClassFile(e, t.name), Compile(e, t).value);
            var v := ParserTarget(e, t.name);
            && AtLevel(c, e.depth + 2)
               == (if e.cfg.generateConstructor then [WhileHead, Close]
                   else [LocalDecl(t.name, v), WhileHead, Close, ReturnLocal(v)])
            && AtLevel(c, e.depth + 3) == [SwitchHead, Close]
            && AtLevel(c, e.depth + 4) == CaseSkeleton(t.all.value) + [DefaultHead, Close]
  {
    ClassSkeletonLevel(e, t, e.depth + 2);
    ClassSkeletonLevel(e, t, e.depth + 3);
    ClassSkeletonLevel(e, t, e.depth + 4);
    ClassSkeletonValues(e.cfg, t, ParserTarget(e, t.name));
  }

  /** Nothing of a class is written above the depth it starts at. */
  lemma ClassFloor(e: State, t: ComplexType)
    requires Compilable(e.cfg, t)
    ensures NotBelow(Added(OpenClassFile(e, t.name), Compile(e, t).value), e.depth)
  {
    var o := OpenClassFile(e, t.name);
    var e1 := StartClass(e, t.name);
    StartClassFloor(e, t.name);
    BodyFloor(e1, t);
    ClassPieces(e, t);
    NotBelowPair(Added(o, e1), Added(e1, ClassBody(e1, t).value), Added(o, Compile(e, t).value), e.depth);
  }
}
