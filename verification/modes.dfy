/** The access flags (`useGetters`, `useSetters`) change how a generated
    parser reads and writes fields: never whether a type compiles once its
    element names are non-empty, and never any line but the stores. The
    generation mode (`generateConstructor`) changes the routine's head and
    tail, and in the dispatch only the variable stored into and how nested
    records are built. */
module Modes {
  import opened Results
  import opened Strings
  import opened Java
  import opened Lines
  import opened Schema
  import opened Fields
  import opened Emitter
  import opened FieldPass
  import opened ParserPass
  import opened Staxgen

  /** Every element has a name `cap` can raise a first letter of. */
  predicate Named(els: seq<LocalElement>)
  {
    forall i :: 0 <= i < |els| ==> |els[i].name| > 0
  }

  /** With named elements, or with direct access for both reads and writes,
      the parser pass rejects exactly what the field pass rejects. */
  lemma {:induction false} DispatchMatchesClassify(cfg: Config, els: seq<LocalElement>)
    requires Named(els) || (cfg.useGetters && cfg.useSetters)
    ensures AllDispatched(cfg, els) <==> AllClassified(els)
    ensures !AllClassified(els) ==> FirstRejection(cfg, els) == FirstFailure(els)
    decreases |els|
  {
    if |els| > 0 {
      DispatchedTail(cfg, els);
      ClassifiedTail(els);
      if Named(els) {
        assert Named(els[1..]) by {
          forall i | 0 <= i < |els[1..]|
            ensures |els[1..][i].name| > 0
          {
            assert els[1..][i] == els[i + 1];
          }
        }
        assert |els[0].name| > 0;
      }
      DispatchMatchesClassify(cfg, els[1..]);
    }
  }

  /** With named elements, the access flags do not change whether a type
      compiles nor, when it does not, which exception it raises. */
  lemma VerdictIgnoresAccess(a: Config, b: Config, t: ComplexType)
    requires t.all.Some? ==> Named(t.all.value)
    ensures Compilable(a, t) <==> Compilable(b, t)
    ensures !Compilable(a, t) ==> CompileFailure(a, t) == CompileFailure(b, t)
  {
    if t.all.Some? {
      DispatchMatchesClassify(a, t.all.value);
      DispatchMatchesClassify(b, t.all.value);
    }
  }

  /** With direct access for both reads and writes, the only conditions on a
      type are an `all` group whose elements classify and a non-empty name. */
  lemma DirectAccessVerdict(cfg: Config, t: ComplexType)
    requires cfg.useGetters && cfg.useSetters
    ensures Compilable(cfg, t) <==> t.all.Some? && AllClassified(t.all.value) && |t.name| > 0
  {
    if t.all.Some? {
      DispatchMatchesClassify(cfg, t.all.value);
    }
  }

  /** Two emitters that differ at most in their access flags and their output
      directory, standing at the same place in the class. */
  predicate AccessVariants(a: State, b: State)
  {
    && a.depth == b.depth && a.target == b.target
    && a.cfg.generateConstructor == b.cfg.generateConstructor
    && a.cfg.packageName == b.cfg.packageName
  }

  lemma ParserRespelled(a: State, b: State, t: ComplexType)
    requires AccessVariants(a, b)
    requires CompileParser(a, t).Ok? && CompileParser(b, t).Ok?
    ensures RespelledLines(Added(a, CompileParser(a, t).value), Added(b, CompileParser(b, t).value))
  {
    ParserPieces(a, t);
    ParserPieces(b, t);
    var v := Uncap(t.name);
    var a1, b1 := OpenParser(a, t.name, v), OpenParser(b, t.name, v);
    assert ParserHead(a.cfg, a.depth, t.name, v) == ParserHead(b.cfg, b.depth, t.name, v);
    assert ParserTarget(a, t.name) == ParserTarget(b, t.name);
    assert ParserTail(a.cfg, a.depth, ParserTarget(a, t.name)) == ParserTail(b.cfg, b.depth, ParserTarget(b, t.name));
    CasesRespelled(a1, b1, t.all.value);
    RespelledBetween(ParserHead(a.cfg, a.depth, t.name, v),
                     Added(a1, CompileCases(a1, t.all.value).value), Added(b1, CompileCases(b1, t.all.value).value),
                     ParserTail(a.cfg, a.depth, ParserTarget(a, t.name)));
  }

  lemma BodyRespelled(a: State, b: State, t: ComplexType)
    requires AccessVariants(a, b) && Compilable(a.cfg, t) && Compilable(b.cfg, t)
    ensures ClassBody(a, t).Ok? && ClassBody(b, t).Ok?
    ensures RespelledLines(Added(a, ClassBody(a, t).value), Added(b, ClassBody(b, t).value))
  {
    BodyPieces(a, t);
    BodyPieces(b, t);
    FieldsLines(a, t.all.value);
    FieldsLines(b, t.all.value);
    var a3, b3 := Newline(CompileFields(a, t.all.value).value), Newline(CompileFields(b, t.all.value).value);
    ParserRespelled(a3, b3, t);
    RespelledBetween(Flat(a.depth, Declarations(t.all.value)) + [Blank],
                     Added(a3, CompileParser(a3, t).value), Added(b3, CompileParser(b3, t).value),
                     [Indented(a.depth - 1, Close), Blank]);
  }

  /** The access flags change nothing in a compiled class but how its
      parser reaches the fields: the file holds the same number of lines,
      blank where the other is blank, at the same levels, and each says the
      same up to the `direct` flag of a store. */
  lemma ClassRespelled(a: State, b: State, t: ComplexType)
    requires AccessVariants(a, b) && Compilable(a.cfg, t) && Compilable(b.cfg, t)
    ensures Compile(a, t).Ok? && Compile(b, t).Ok?
    ensures RespelledLines(Added(OpenClassFile(a, t.name), Compile(a, t).value),
                           Added(OpenClassFile(b, t.name), Compile(b, t).value))
  {
    ClassPieces(a, t);
    ClassPieces(b, t);
    var a1, b1 := StartClass(a, t.name), StartClass(b, t.name);
    BodyRespelled(a1, b1, t);
    RespelledBetween(Added(OpenClassFile(a, t.name), a1),
                     Added(a1, ClassBody(a1, t).value), Added(b1, ClassBody(b1, t).value), []);
    assert Added(OpenClassFile(a, t.name), a1) + Added(a1, ClassBody(a1, t).value) + []
           == Added(OpenClassFile(a, t.name), Compile(a, t).value);
    assert Added(OpenClassFile(a, t.name), a1) + Added(b1, ClassBody(b1, t).value) + []
           == Added(OpenClassFile(b, t.name), Compile(b, t).value);
  }

  /** Hence with named elements a type compiles under every access mode or
      under none, and where it compiles the modes' classes are respellings
      of one another. */
  lemma AccessModesRespell(a: State, b: State, t: ComplexType)
    requires AccessVariants(a, b) && Compilable(a.cfg, t)
    requires t.all.Some? ==> Named(t.all.value)
    ensures Compile(b, t).Ok?
    ensures RespelledLines(Added(OpenClassFile(a, t.name), Compile(a, t).value),
                           Added(OpenClassFile(b, t.name), Compile(b, t).value))
  {
    VerdictIgnoresAccess(a.cfg, b.cfg, t);
    ClassRespelled(a, b, t);
  }

  /** Under any two configurations at the same depth, in particular the two
      generation modes, a type's parse routines share their dispatch. Each
      routine is its own head, its dispatch and its own tail. The two
      dispatches are the same `case`s line for line, up to the variable
      stored into (`this` or the local), field access, and whether a nested
      record is built by `new T(xml)` or `parseT(xml)`. Only the head and the
      tail depend on the generation mode. */
  lemma ParserRegenerated(a: State, b: State, t: ComplexType)
    requires a.depth == b.depth
    requires |t.name| > 0 && t.all.Some? && AllDispatched(a.cfg, t.all.value) && AllDispatched(b.cfg, t.all.value)
    ensures CompileParser(a, t).Ok? && CompileParser(b, t).Ok?
    ensures var v := Uncap(t.name);
            var a1, b1 := OpenParser(a, t.name, v), OpenParser(b, t.name, v);
            && CompileCases(a1, t.all.value).Ok? && CompileCases(b1, t.all.value).Ok?
            && Added(a, CompileParser(a, t).value)
               == ParserHead(a.cfg, a.depth, t.name, v) + Added(a1, CompileCases(a1, t.all.value).value)
                  + ParserTail(a.cfg, a.depth, ParserTarget(a, t.name))
            && Added(b, CompileParser(b, t).value)
               == ParserHead(b.cfg, b.depth, t.name, v) + Added(b1, CompileCases(b1, t.all.value).value)
                  + ParserTail(b.cfg, b.depth, ParserTarget(b, t.name))
            && RegeneratedLines(Added(a1, CompileCases(a1, t.all.value).value),
                                Added(b1, CompileCases(b1, t.all.value).value))
  {
    ParserPieces(a, t);
    ParserPieces(b, t);
    var v := Uncap(t.name);
    CasesRegenerated(OpenParser(a, t.name, v), OpenParser(b, t.name, v), t.all.value);
  }
}
