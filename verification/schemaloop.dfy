/** The schema loop: every top-level complex type of the schema, in
    document order, is compiled into one class by the same emitter; other
    top-level items are skipped. The first exception ends the run. */
module SchemaLoop {
  import opened Results
  import opened Java
  import opened Lines
  import opened Schema
  import opened Fields
  import opened Emitter
  import opened FieldPass
  import opened ParserPass
  import opened Staxgen

  /** The complex types among the top-level items, in document order. */
  function Types(items: seq<SchemaItem>): (ts: seq<ComplexType>)
    ensures |ts| <= |items|
  {
    if |items| == 0 then []
    else
      (if items[0].TopLevelComplexType? then [items[0].complexType] else []) + Types(items[1..])
  }

  predicate AllCompilable(cfg: Config, ts: seq<ComplexType>)
  {
    forall i :: 0 <= i < |ts| ==> Compilable(cfg, ts[i])
  }

  /** The exception of the first type that does not compile. */
  function FirstCompileFailure(cfg: Config, ts: seq<ComplexType>): (f: Failure)
    requires !AllCompilable(cfg, ts)
    ensures exists i :: 0 <= i < |ts| && !Compilable(cfg, ts[i]) && CompileFailure(cfg, ts[i]) == f
                        && forall j :: 0 <= j < i ==> Compilable(cfg, ts[j])
  {
    if !Compilable(cfg, ts[0]) then CompileFailure(cfg, ts[0])
    else
      var f := FirstCompileFailure(cfg, ts[1..]);
      var i :| 0 <= i < |ts[1..]| && !Compilable(cfg, ts[1..][i]) && CompileFailure(cfg, ts[1..][i]) == f
               && forall j :: 0 <= j < i ==> Compilable(cfg, ts[1..][j]);
      assert ts[i + 1] == ts[1..][i];
      f
  }

  lemma CompilableTail(cfg: Config, ts: seq<ComplexType>)
    requires |ts| > 0
    ensures AllCompilable(cfg, ts) <==> Compilable(cfg, ts[0]) && AllCompilable(cfg, ts[1..])
  {
    if Compilable(cfg, ts[0]) && AllCompilable(cfg, ts[1..]) {
      forall i | 0 <= i < |ts|
        ensures Compilable(cfg, ts[i])
      {
        if i > 0 { assert ts[i] == ts[1..][i - 1]; }
      }
    }
  }

  /** The streams of a run in order: those already closed, then the open one. */
  function Streams(s: State): seq<Stream>
  {
    s.closed + [Stream(s.sink, s.lines)]
  }

  /** Staxgen.java:162-167: compile the complex types one after another
      with one emitter. */
  function CompileSchema(e: State, items: seq<SchemaItem>): (r: Result<State, Failure>)
    ensures r.Ok? <==> AllCompilable(e.cfg, Types(items))
    ensures r.Err? ==> r.error == FirstCompileFailure(e.cfg, Types(items))
    ensures r.Ok? ==> r.value.cfg == e.cfg && r.value.depth == e.depth
    decreases |items|
  {
    if |items| == 0 then Ok(e)
    else
      var ts := Types(items);
      match items[0]
      case OtherItem =>
        assert ts == Types(items[1..]);
        CompileSchema(e, items[1..])
      case TopLevelComplexType(t) =>
        assert ts == [t] + Types(items[1..]);
        assert ts[1..] == Types(items[1..]);
        CompilableTail(e.cfg, ts);
        match Compile(e, t)
        case Err(f) => Err(f)
        case Ok(e1) => CompileSchema(e1, items[1..])
  }

  // ---- what a run writes ---------------------------------------------------

  /** The layout of one generated class whose lines start at depth `d`:
      preamble, head and closing brace at `d`; the declarations, the
      routine's head lines and its closing brace one level in; one `case`
      per element, in element order, four levels in; nothing above `d`. */
  predicate ClassOutline(cfg: Config, d: int, t: ComplexType, lines: seq<Line>)
  {
    && Compilable(cfg, t)
    && AtLevel(lines, d) == Preamble(cfg.packageName) + [ClassHead(t.name), Close]
    && AtLevel(lines, d + 1) == Declarations(t.all.value) + MethodHeads(cfg, t.name) + [Close]
    && AtLevel(lines, d + 4) == CaseSkeleton(t.all.value) + [DefaultHead, Close]
    && NotBelow(lines, d)
  }

  /** What `compile` writes after opening the class file has that layout. */
  lemma CompiledOutline(e: State, t: ComplexType)
    requires Compilable(e.cfg, t)
    ensures ClassOutline(e.cfg, e.depth, t, Added(OpenClassFile(e, t.name), Compile(e, t).value))
  {
    ClassFrame(e, t);
    ClassDispatch(e, t);
    ClassFloor(e, t);
  }

  /** One class file: named after its type and holding that type's class. */
  predicate FileFor(cfg: Config, d: int, t: ComplexType, f: Stream)
    requires cfg.outDir.Some?
  {
    f.sink == File(ClassFilePath(cfg.outDir.value, cfg.packageName, t.name)) && ClassOutline(cfg, d, t, f.lines)
  }

  /** One file per type, in order. */
  predicate ClassFiles(cfg: Config, d: int, ts: seq<ComplexType>, files: seq<Stream>)
    requires cfg.outDir.Some?
  {
    |files| == |ts| && forall k :: 0 <= k < |ts| ==> FileFor(cfg, d, ts[k], files[k])
  }

  lemma ClassFilesCons(cfg: Config, d: int, t: ComplexType, ts: seq<ComplexType>, f: Stream, files: seq<Stream>)
    requires cfg.outDir.Some?
    requires FileFor(cfg, d, t, f)
    requires ClassFiles(cfg, d, ts, files)
    ensures ClassFiles(cfg, d, [t] + ts, [f] + files)
  {
    forall k | 0 <= k < |ts| + 1
      ensures FileFor(cfg, d, ([t] + ts)[k], ([f] + files)[k])
    {
      ConsIndex(t, ts, f, files, k);
      if k > 0 {
        assert FileFor(cfg, d, ts[k - 1], files[k - 1]);
      }
    }
  }

  /** The k-th pair of two sequences with one element put in front. */
  lemma ConsIndex<T, S>(x: T, xs: seq<T>, y: S, ys: seq<S>, k: int)
    requires |xs| == |ys| && 0 <= k < |xs| + 1
    ensures k == 0 ==> ([x] + xs)[k] == x && ([y] + ys)[k] == y
    ensures k > 0 ==> ([x] + xs)[k] == xs[k - 1] && ([y] + ys)[k] == ys[k - 1]
  {
  }

  /** With an output directory, compiling one type closes the current
      stream and leaves the class in a stream of its own. */
  lemma CompileToFile(e: State, t: ComplexType)
    requires e.cfg.outDir.Some? && Compilable(e.cfg, t)
    ensures var c := Compile(e, t).value;
            Streams(c) == Streams(e) + [Stream(File(ClassFilePath(e.cfg.outDir.value, e.cfg.packageName, t.name)),
                                               Added(OpenClassFile(e, t.name), c))]
  {
    var o := OpenClassFile(e, t.name);
    var c := Compile(e, t).value;
    assert c.lines == Added(o, c);
  }

  /** One step of the schema loop: a skipped item, or one compiled type. */
  lemma SchemaStep(e: State, items: seq<SchemaItem>)
    requires |items| > 0 && AllCompilable(e.cfg, Types(items))
    ensures items[0].OtherItem? ==>
              && Types(items) == Types(items[1..])
              && CompileSchema(e, items) == CompileSchema(e, items[1..])
    ensures items[0].TopLevelComplexType? ==>
              var t := items[0].complexType;
              && Types(items) == [t] + Types(items[1..])
              && Compilable(e.cfg, t)
              && AllCompilable(e.cfg, Types(items[1..]))
              && CompileSchema(e, items) == CompileSchema(Compile(e, t).value, items[1..])
  {
    var ts := Types(items);
    if items[0].TopLevelComplexType? {
      assert ts[1..] == Types(items[1..]);
      CompilableTail(e.cfg, ts);
    }
  }

  /** Adding one class file in front of the files of the rest of the run. */
  lemma FilesStep(cfg: Config, d: int, e: State, c: State, r: State, t: ComplexType, ts: seq<ComplexType>, f: Stream)
    requires cfg.outDir.Some?
    requires Streams(c) == Streams(e) + [f]
    requires f.sink == File(ClassFilePath(cfg.outDir.value, cfg.packageName, t.name))
    requires ClassOutline(cfg, d, t, f.lines)
    requires |Streams(c)| <= |Streams(r)| && Streams(r)[..|Streams(c)|] == Streams(c)
    requires ClassFiles(cfg, d, ts, Streams(r)[|Streams(c)|..])
    ensures |Streams(e)| <= |Streams(r)| && Streams(r)[..|Streams(e)|] == Streams(e)
    ensures ClassFiles(cfg, d, [t] + ts, Streams(r)[|Streams(e)|..])
  {
    var n := |Streams(e)|;
    var all := Streams(r);
    assert all[..n] == all[..n + 1][..n];
    assert all[n] == all[..n + 1][n];
    assert all[n..] == [f] + all[n + 1..];
    ClassFilesCons(cfg, d, t, ts, f, all[n + 1..]);
  }

  /** With an output directory, a run leaves the streams it started with
      untouched and adds one file per complex type, in document order. */
  lemma {:induction false} SchemaToFiles(e: State, items: seq<SchemaItem>)
    requires e.cfg.outDir.Some? && AllCompilable(e.cfg, Types(items))
    ensures var r := CompileSchema(e, items).value;
            && |Streams(e)| <= |Streams(r)|
            && Streams(r)[..|Streams(e)|] == Streams(e)
            && ClassFiles(e.cfg, e.depth, Types(items), Streams(r)[|Streams(e)|..])
    decreases |items|
  {
    if |items| == 0 {
      assert CompileSchema(e, items) == Ok(e);
    } else {
      SchemaStep(e, items);
      match items[0]
      case OtherItem =>
        SchemaToFiles(e, items[1..]);
      case TopLevelComplexType(t) =>
        var c := Compile(e, t).value;
        SchemaToFiles(c, items[1..]);
        CompileToFile(e, t);
        CompiledOutline(e, t);
        FilesStep(e.cfg, e.depth, e, c, CompileSchema(c, items[1..]).value, t, Types(items[1..]),
                  Stream(File(ClassFilePath(e.cfg.outDir.value, e.cfg.packageName, t.name)),
                         Added(OpenClassFile(e, t.name), c)));
    }
  }

  /** The outer skeletons of a sequence of classes written one after another. */
  function Outline(cfg: Config, ts: seq<ComplexType>): (r: seq<Code>)
  {
    if |ts| == 0 then [] else Preamble(cfg.packageName) + [ClassHead(ts[0].name), Close] + Outline(cfg, ts[1..])
  }

  /** Without an output directory, a run appends every class to standard
      output, one after another in document order, nothing above the
      starting depth. */
  lemma {:induction false} SchemaToStdout(e: State, items: seq<SchemaItem>)
    requires e.cfg.outDir.None? && AllCompilable(e.cfg, Types(items))
    ensures var r := CompileSchema(e, items).value;
            && Extends(e, r)
            && AtLevel(Added(e, r), e.depth) == Outline(e.cfg, Types(items))
            && NotBelow(Added(e, r), e.depth)
    decreases |items|
  {
    if |items| == 0 {
      assert CompileSchema(e, items) == Ok(e);
      assert Added(e, e) == [];
    } else {
      SchemaStep(e, items);
      match items[0]
      case OtherItem =>
        SchemaToStdout(e, items[1..]);
      case TopLevelComplexType(t) =>
        var c := Compile(e, t).value;
        SchemaToStdout(c, items[1..]);
        CompiledOutline(e, t);
        assert OpenClassFile(e, t.name) == e;
        StdoutStep(e, c, CompileSchema(c, items[1..]).value, Preamble(e.cfg.packageName) + [ClassHead(t.name), Close],
                   Outline(e.cfg, Types(items[1..])));
    }
  }

  /** Appending the rest of the run after one class. */
  lemma StdoutStep(e: State, c: State, r: State, first: seq<Code>, rest: seq<Code>)
    requires Extends(e, c) && Extends(c, r)
    requires AtLevel(Added(e, c), e.depth) == first && NotBelow(Added(e, c), e.depth)
    requires c.depth == e.depth
    requires AtLevel(Added(c, r), c.depth) == rest && NotBelow(Added(c, r), c.depth)
    ensures Extends(e, r)
    ensures AtLevel(Added(e, r), e.depth) == first + rest && NotBelow(Added(e, r), e.depth)
  {
    Chain(e, c, r);
    AtLevelAppend(Added(e, c), Added(c, r), e.depth);
    NotBelowJoin(Added(e, c), Added(c, r), [], e.depth);
    assert Added(e, c) + Added(c, r) + [] == Added(e, r);
  }

  // ---- the whole run -------------------------------------------------------

  /** A run with an output directory writes nothing to standard output and
      one file per complex type, in document order. */
  lemma RunToFiles(cfg: Config, items: seq<SchemaItem>)
    requires cfg.outDir.Some? && AllCompilable(cfg, Types(items))
    ensures var r := CompileSchema(Fresh(cfg), items).value;
            && |Streams(r)| == |Types(items)| + 1
            && Streams(r)[0] == Stream(StandardOut, [])
            && ClassFiles(cfg, 0, Types(items), Streams(r)[1..])
  {
    SchemaToFiles(Fresh(cfg), items);
    var r := CompileSchema(Fresh(cfg), items).value;
    assert Streams(r)[0] == Streams(r)[..1][0];
  }

  /** A run without an output directory writes every class to standard
      output, one after another, starting at the margin. */
  lemma RunToStdout(cfg: Config, items: seq<SchemaItem>)
    requires cfg.outDir.None? && AllCompilable(cfg, Types(items))
    ensures var r := CompileSchema(Fresh(cfg), items).value;
            && r.sink == StandardOut && r.closed == []
            && AtLevel(r.lines, 0) == Outline(cfg, Types(items))
            && NotBelow(r.lines, 0)
  {
    SchemaToStdout(Fresh(cfg), items);
    var r := CompileSchema(Fresh(cfg), items).value;
    assert Added(Fresh(cfg), r) == r.lines;
  }

  /** Staxgen.main after the schema is read: the loop over the top-level
      items with one emitter, stopping at the first exception. */
  method Generate(cfg: Config, items: seq<SchemaItem>) returns (r: Result<State, Failure>)
    ensures r == CompileSchema(Fresh(cfg), items)
    ensures r.Ok? <==> AllCompilable(cfg, Types(items))
    ensures r.Err? ==> r.error == FirstCompileFailure(cfg, Types(items))
  {
    var st := Fresh(cfg);
    var i := 0;
    while i < |items|
      invariant 0 <= i <= |items|
      invariant st.cfg == cfg
      invariant CompileSchema(st, items[i..]) == CompileSchema(Fresh(cfg), items)
    {
      assert items[i..][0] == items[i];
      assert items[i..][1..] == items[i + 1..];
      match items[i] {
        case OtherItem =>
        case TopLevelComplexType(t) =>
          var c := Compile(st, t);
          if c.Err? {
            return Err(c.error);
          }
          st := c.value;
      }
      i := i + 1;
    }
    return Ok(st);
  }
}
