/** The dispatch of the generated parse routine: one `case` per element of
    a complex type, in element order, inside the `switch` on the tag name.

    As in the field pass, `CompileCase` keeps the source's own chain of
    tests and `CaseBranch` is the same step driven by the classifier;
    `CasePassAgrees` shows the two are one function. */
module ParserPass {
  import opened Results
  import opened Strings
  import opened Java
  import opened Lines
  import opened Schema
  import opened Fields
  import opened Emitter
  import opened FieldPass

  // ---- which elements the pass accepts -------------------------------------

  /** Whether the access a shape needs can be spelled: a spelled-out
      accessor needs a first letter to raise. Scalars and records are
      written (the `useSetters` convention), lists and maps are read (the
      `useGetters` convention). */
  predicate Accessible(cfg: Config, name: string, shape: FieldShape)
  {
    if shape.StringList? || shape.RecordList? || shape.StringMap? then cfg.useGetters || |name| > 0
    else cfg.useSetters || |name| > 0
  }

  /** The verdict of the parser pass on one element: the classifier's, and
      the `cap` of an empty name otherwise, which raises
      StringIndexOutOfBoundsException. */
  function Dispatch(cfg: Config, el: LocalElement): Result<FieldShape, Failure>
  {
    match Classify(el)
    case Err(f) => Err(f)
    case Ok(s) => if Accessible(cfg, el.name, s) then Ok(s) else Err(IndexOutOfBounds)
  }

  predicate AllDispatched(cfg: Config, els: seq<LocalElement>)
  {
    forall i :: 0 <= i < |els| ==> Dispatch(cfg, els[i]).Ok?
  }

  /** The failure of the first element the parser pass rejects. */
  function FirstRejection(cfg: Config, els: seq<LocalElement>): (f: Failure)
    requires !AllDispatched(cfg, els)
    ensures exists i :: 0 <= i < |els| && Dispatch(cfg, els[i]) == Err(f)
                        && forall j :: 0 <= j < i ==> Dispatch(cfg, els[j]).Ok?
  {
    if Dispatch(cfg, els[0]).Err? then Dispatch(cfg, els[0]).error
    else
      var f := FirstRejection(cfg, els[1..]);
      var i :| 0 <= i < |els[1..]| && Dispatch(cfg, els[1..][i]) == Err(f)
               && forall j :: 0 <= j < i ==> Dispatch(cfg, els[1..][j]).Ok?;
      assert Dispatch(cfg, els[i + 1]) == Err(f);
      f
  }

  lemma DispatchedTail(cfg: Config, els: seq<LocalElement>)
    requires |els| > 0
    ensures AllDispatched(cfg, els) <==> Dispatch(cfg, els[0]).Ok? && AllDispatched(cfg, els[1..])
    ensures !AllDispatched(cfg, els) ==>
              FirstRejection(cfg, els)
              == (if Dispatch(cfg, els[0]).Err? then Dispatch(cfg, els[0]).error else FirstRejection(cfg, els[1..]))
  {
    if Dispatch(cfg, els[0]).Ok? && AllDispatched(cfg, els[1..]) {
      forall i | 0 <= i < |els|
        ensures Dispatch(cfg, els[i]).Ok?
      {
        if i > 0 { assert els[i] == els[1..][i - 1]; }
      }
    }
  }

  /** The parser pass accepts only what the field pass accepts, and among
      elements that all classify, what it rejects is an empty name it
      must `cap`. */
  lemma {:induction false} RejectionAgrees(cfg: Config, els: seq<LocalElement>)
    ensures AllDispatched(cfg, els) ==> AllClassified(els)
    ensures AllClassified(els) && !AllDispatched(cfg, els) ==> FirstRejection(cfg, els) == IndexOutOfBounds
    decreases |els|
  {
    if |els| > 0 {
      DispatchedTail(cfg, els);
      ClassifiedTail(els);
      RejectionAgrees(cfg, els[1..]);
    }
  }

  // ---- one case ------------------------------------------------------------

  /** The statement that stores one value of the field: an assignment for a
      scalar or a record, an `add` for a list item, a `put` for a map entry. */
  function Access(cfg: Config, target: string, name: string, shape: FieldShape): Code
  {
    match shape
    case StringField(_) => Assign(target, name, cfg.useSetters, ElementText)
    case BooleanField(_) => Assign(target, name, cfg.useSetters, ParsedBoolean)
    case RecordField(t) => Assign(target, name, cfg.useSetters, Nested(t, cfg.generateConstructor))
    case StringList(_) => Add(target, name, cfg.useGetters, ElementText)
    case RecordList(_, t) => Add(target, name, cfg.useGetters, Nested(t, cfg.generateConstructor))
    case StringMap => Put(target, name, cfg.useGetters)
  }

  /** A store that fits a declaration: it names the declared field, and
      what it stores has the declared type. */
  predicate Fits(decl: Code, store: Code)
  {
    match decl
    case StringDecl(n, _) => store.Assign? && store.field == n && store.rhs == ElementText
    case BooleanDecl(n, _) => store.Assign? && store.field == n && store.rhs == ParsedBoolean
    case ComplexDecl(t, n) => store.Assign? && store.field == n && store.rhs.Nested? && store.rhs.typeName == t
    case ListDecl(t, n) =>
      store.Add? && store.field == n
      && ((t == "String" && store.item == ElementText) || (store.item.Nested? && store.item.typeName == t))
    case MapDecl(n) => store.Put? && store.field == n
    case _ => false
  }

  /** The two passes agree on every field: the parse routine stores into
      the field the class declares, a value of the declared type, and the
      store can be rendered whenever the parser pass accepts the element. */
  lemma AccessFitsDeclaration(cfg: Config, target: string, name: string, shape: FieldShape)
    ensures Fits(Declaration(name, shape), Access(cfg, target, name, shape))
    ensures Accessible(cfg, name, shape) <==> Renderable(Access(cfg, target, name, shape))
  {
    match shape
    case StringField(_) =>
    case BooleanField(_) =>
    case RecordField(_) =>
    case StringList(_) =>
    case RecordList(_, _) =>
    case StringMap =>
  }

  /** The item loop of a list field at depth `d`: every child must carry
      the item tag, and its store sits inside an `if` inside a `while`. */
  function ItemLines(d: int, tag: string, store: Code): seq<Line>
  {
    GuardLines(d, tag) + [Indented(d + 2, store)] + RejectLines(d, tag)
  }

  /** The loop over the children and the `if` on each child's tag. */
  function GuardLines(d: int, tag: string): seq<Line>
  {
    [Indented(d, WhileHead), Indented(d + 1, IfHead(tag))]
  }

  /** The `else` that throws for any other tag, and the two closing braces. */
  function RejectLines(d: int, tag: string): seq<Line>
  {
    [Indented(d + 1, ElseHead), Indented(d + 2, ThrowExpected(tag)), Indented(d + 1, Close), Indented(d, Close)]
  }

  /** The lines of a `case` body at depth `d`: the store alone, or the item
      loop of a list. */
  function BodyLines(d: int, store: Code, shape: FieldShape): seq<Line>
  {
    if shape.StringList? || shape.RecordList? then ItemLines(d, shape.itemTag, store)
    else [Indented(d, store)]
  }

  /** What a list item is: the element text, or a nested record. */
  function ItemExpr(e: State, itemType: Option<string>): Expr
  {
    if itemType.Some? then Construct(e, itemType.value) else ElementText
  }

  /** The `add` of one item: `addString` or `addComplex`. */
  function AddItem(e: State, name: string, itemType: Option<string>): (r: State)
    requires e.cfg.useGetters || |name| > 0
    ensures Extends(e, r) && r.depth == e.depth && r.target == e.target
    ensures Added(e, r) == [Indented(e.depth, Add(e.target, name, e.cfg.useGetters, ItemExpr(e, itemType)))]
  {
    match itemType
    case None => AddString(e, name)
    case Some(t) => AddComplex(e, name, t)
  }

  /** The item loop of a list field (Staxgen.java:55-63). */
  function ItemLoop(e: State, name: string, tag: string, itemType: Option<string>): (r: State)
    requires e.cfg.useGetters || |name| > 0
    ensures Extends(e, r) && r.depth == e.depth && r.target == e.target
    ensures Added(e, r) == ItemLines(e.depth, tag, Add(e.target, name, e.cfg.useGetters, ItemExpr(e, itemType)))
  {
    var e1 := ItemGuard(e, tag);
    var e2 := AddItem(e1, name, itemType);
    var r := ItemClose(e2, tag);
    Chain(e, e1, e2);
    Chain(e, e2, r);
    r
  }

  /** The loop over the children and the check of each child's tag. */
  function ItemGuard(e: State, tag: string): (r: State)
    ensures Extends(e, r) && r.depth == e.depth + 2 && r.target == e.target
    ensures Added(e, r) == GuardLines(e.depth, tag)
  {
    var e1 := WhileNextTag(e);
    var r := IfTagName(e1, tag);
    Chain(e, e1, r);
    r
  }

  /** The throw for a child with another tag, and the closing of the loop. */
  function ItemClose(e: State, tag: string): (r: State)
    ensures Extends(e, r) && r.depth == e.depth - 2 && r.target == e.target
    ensures Added(e, r) == RejectLines(e.depth - 2, tag)
  {
    var e1 := ElseExpected(e, tag);
    var r := EndBlock(e1);
    Chain(e, e1, r);
    r
  }

  /** The statements inside one `case`, by shape. */
  function CaseBody(e: State, name: string, shape: FieldShape): (r: State)
    requires Accessible(e.cfg, name, shape)
    ensures Extends(e, r) && r.depth == e.depth && r.target == e.target
    ensures Added(e, r) == BodyLines(e.depth, Access(e.cfg, e.target, name, shape), shape)
  {
    match shape
    case StringField(_) => SetString(e, name)
    case BooleanField(_) => SetBoolean(e, name)
    case RecordField(t) => SetComplex(e, name, t)
    case StringList(tag) => ItemLoop(e, name, tag, None)
    case RecordList(tag, t) => ItemLoop(e, name, tag, Some(t))
    case StringMap => PutString(e, name)
  }

  /** The lines of one `case` at depth `d`. */
  function CaseLines(d: int, name: string, store: Code, shape: FieldShape): seq<Line>
  {
    [Indented(d, CaseHead(name))] + BodyLines(d + 1, store, shape) + [Indented(d + 1, Break), Indented(d, Close)]
  }

  /** One `case` of the dispatch: its head, the body, `break;`, and the
      closing brace. */
  function CaseBranch(e: State, name: string, shape: FieldShape): (r: State)
    requires Accessible(e.cfg, name, shape)
    ensures Extends(e, r) && r.depth == e.depth && r.target == e.target
    ensures Added(e, r) == CaseLines(e.depth, name, Access(e.cfg, e.target, name, shape), shape)
  {
    var e1 := SwitchCase(e, name);
    var e2 := CaseBody(e1, name, shape);
    var e3 := SwitchBreak(e2);
    var r := EndBlock(e3);
    Chain(e, e1, e2);
    Chain(e, e2, e3);
    Chain(e, e3, r);
    r
  }

  /** A body never leaves its own depth; at that depth it shows the store,
      or for a list only the loop's `while` and its closing brace. */
  lemma BodyLayout(d: int, store: Code, shape: FieldShape)
    ensures NotBelow(BodyLines(d, store, shape), d)
    ensures AtLevel(BodyLines(d, store, shape), d)
            == if shape.StringList? || shape.RecordList? then [WhileHead, Close] else [store]
  {
    var lines := BodyLines(d, store, shape);
    if shape.StringList? || shape.RecordList? {
      var inner := lines[1..6];
      AtLevelDeeper(inner, d);
      assert lines == [lines[0]] + inner + [lines[6]];
      AtLevelAppend([lines[0]] + inner, [lines[6]], d);
      AtLevelCons(lines[0], inner, d);
      AtLevelOne(lines[6], d);
    } else {
      AtLevelOne(lines[0], d);
    }
  }

  /** A `case` opens and closes at the dispatch depth and writes nothing
      above it: at that depth only its head and its closing brace appear,
      and one level deeper the body's own skeleton followed by `break;`. */
  lemma CaseLayout(d: int, name: string, store: Code, shape: FieldShape)
    ensures NotBelow(CaseLines(d, name, store, shape), d)
    ensures AtLevel(CaseLines(d, name, store, shape), d) == [CaseHead(name), Close]
    ensures AtLevel(CaseLines(d, name, store, shape), d + 1)
            == AtLevel(BodyLines(d + 1, store, shape), d + 1) + [Break]
  {
    var head := Indented(d, CaseHead(name));
    var body := BodyLines(d + 1, store, shape);
    var tail := [Indented(d + 1, Break), Indented(d, Close)];
    BodyLayout(d + 1, store, shape);
    assert CaseLines(d, name, store, shape) == [head] + (body + tail);
    CaseOuterLevel(d, CaseHead(name), body, tail);
    CaseInnerLevel(d, CaseHead(name), body, tail);
  }

  lemma CaseOuterLevel(d: int, code: Code, body: seq<Line>, tail: seq<Line>)
    requires tail == [Indented(d + 1, Break), Indented(d, Close)]
    requires NotBelow(body, d + 1)
    ensures AtLevel([Indented(d, code)] + (body + tail), d) == [code, Close]
  {
    AtLevelCons(Indented(d, code), body + tail, d);
    AtLevelAppend(body, tail, d);
    AtLevelDeeper(body, d);
    AtLevelCons(tail[0], [tail[1]], d);
    AtLevelOne(tail[1], d);
  }

  lemma CaseInnerLevel(d: int, code: Code, body: seq<Line>, tail: seq<Line>)
    requires tail == [Indented(d + 1, Break), Indented(d, Close)]
    ensures AtLevel([Indented(d, code)] + (body + tail), d + 1) == AtLevel(body, d + 1) + [Break]
  {
    AtLevelCons(Indented(d, code), body + tail, d + 1);
    AtLevelAppend(body, tail, d + 1);
    AtLevelCons(tail[0], [tail[1]], d + 1);
    AtLevelOne(tail[1], d + 1);
  }

  /** Staxgen.compileParser, the body of its loop: the source's own chain
      of tests on one element, writing one `case`. A spelled-out accessor
      of an empty name fails in `cap`. */
  function CompileCase(e: State, el: LocalElement): Result<State, Failure>
  {
    var e1 := SwitchCase(e, el.name);
    var body: Result<State, Failure> :=
      if el.typeName.None? then
        if el.complexType.Some? && el.complexType.value.sequence.Some? then
          var particles := el.complexType.value.sequence.value.particles;
          if |particles| == 0 then Err(IndexOutOfBounds)
          else
            match particles[0]
            case ElementParticle(seqEl) =>
              var e2 := IfTagName(WhileNextTag(e1), seqEl.name);
              if seqEl.typeName.None? then Err(NullPointer)
              else if !e.cfg.useGetters && |el.name| == 0 then Err(IndexOutOfBounds)
              else
                var e3 := if seqEl.typeName.value == XsString then AddString(e2, el.name)
                          else AddComplex(e2, el.name, seqEl.typeName.value.localPart);
                Ok(EndBlock(ElseExpected(e3, seqEl.name)))
            case GroupParticle => Err(ClassCast)
            case Wildcard =>
              if !e.cfg.useGetters && |el.name| == 0 then Err(IndexOutOfBounds)
              else Ok(PutString(e1, el.name))
        else Err(UnsupportedOperation)
      else if !e.cfg.useSetters && |el.name| == 0 then Err(IndexOutOfBounds)
      else if el.typeName.value == XsString then Ok(SetString(e1, el.name))
      else if el.typeName.value == XsBoolean then Ok(SetBoolean(e1, el.name))
      else Ok(SetComplex(e1, el.name, el.typeName.value.localPart));
    match body
    case Err(f) => Err(f)
    case Ok(e4) => Ok(EndBlock(SwitchBreak(e4)))
  }

  /** The parser pass fails exactly where `Dispatch` rejects, with the same
      exception, and otherwise writes the `case` of the element's shape. */
  lemma CasePassAgrees(e: State, el: LocalElement)
    ensures Dispatch(e.cfg, el).Err? ==> CompileCase(e, el) == Err(Dispatch(e.cfg, el).error)
    ensures Dispatch(e.cfg, el).Ok? ==> CompileCase(e, el) == Ok(CaseBranch(e, el.name, Dispatch(e.cfg, el).value))
  {
    match Classify(el)
    case Err(_) =>
    case Ok(s) =>
      if Accessible(e.cfg, el.name, s) {
        assert CompileCase(e, el) == Ok(CaseBranch(e, el.name, s));
      }
  }

  /** The two passes reach the same verdict on an element the parser pass
      can name: both succeed, or both fail with the same exception. */
  lemma PassesAgree(e1: State, e2: State, el: LocalElement)
    ensures CompileCase(e2, el).Ok? ==> CompileField(e1, el).Ok?
    ensures CompileField(e1, el).Err? ==> CompileCase(e2, el) == Err(CompileField(e1, el).error)
    ensures Nameable(e2.cfg, el.name) ==> (CompileField(e1, el).Ok? <==> CompileCase(e2, el).Ok?)
  {
    FieldPassAgrees(e1, el);
    CasePassAgrees(e2, el);
  }

  // ---- the dispatch --------------------------------------------------------

  /** The skeleton of the dispatch: each element's `case` head and its
      closing brace, in element order. */
  function CaseSkeleton(els: seq<LocalElement>): (r: seq<Code>)
    ensures |r| == 2 * |els|
  {
    if |els| == 0 then [] else [CaseHead(els[0].name), Close] + CaseSkeleton(els[1..])
  }

  /** The `case` for the i-th element sits at position 2i of the skeleton. */
  lemma {:induction false} CaseSkeletonIndex(els: seq<LocalElement>, i: int)
    requires 0 <= i < |els|
    ensures CaseSkeleton(els)[2 * i] == CaseHead(els[i].name)
    ensures CaseSkeleton(els)[2 * i + 1] == Close
    decreases |els|
  {
    if i > 0 {
      CaseSkeletonIndex(els[1..], i - 1);
      assert els[1..][i - 1] == els[i];
    }
  }

  lemma DeclarationName(name: string, shape: FieldShape)
    ensures Declaration(name, shape).name == name
  {
  }

  /** Every declared field has its `case`, in the same order, dispatching
      on the field's own name. */
  lemma CasesMatchFields(els: seq<LocalElement>, i: int)
    requires AllClassified(els) && 0 <= i < |els|
    ensures CaseSkeleton(els)[2 * i] == CaseHead(Declarations(els)[i].name)
  {
    CaseSkeletonIndex(els, i);
    DeclarationName(els[i].name, Classify(els[i]).value);
  }

  /** The loop of Staxgen.compileParser: one `case` per element, in order,
      each opening and closing at the dispatch depth with nothing written
      above it; the first element the pass rejects aborts it. */
  function CompileCases(e: State, els: seq<LocalElement>): (r: Result<State, Failure>)
    ensures r.Ok? <==> AllDispatched(e.cfg, els)
    ensures r.Err? ==> r.error == FirstRejection(e.cfg, els)
    ensures r.Ok? ==>
              && Extends(e, r.value) && r.value.depth == e.depth && r.value.target == e.target
              && NotBelow(Added(e, r.value), e.depth)
              && AtLevel(Added(e, r.value), e.depth) == CaseSkeleton(els)
    decreases |els|
  {
    if |els| == 0 then
      Ok(e)
    else
      DispatchedTail(e.cfg, els);
      CasePassAgrees(e, els[0]);
      match CompileCase(e, els[0])
      case Err(f) => Err(f)
      case Ok(e1) =>
        var rest := CompileCases(e1, els[1..]);
        if rest.Ok? then
          var s := Dispatch(e.cfg, els[0]).value;
          CasesStep(e, e1, rest.value, els[0].name, Access(e.cfg, e.target, els[0].name, s), s, CaseSkeleton(els[1..]));
          rest
        else rest
  }

  /** One `case` in front of the rest of the dispatch keeps the dispatch
      at its depth and adds the case's head and closing brace there. */
  lemma CasesStep(e: State, e1: State, r: State, name: string, store: Code, shape: FieldShape, rest: seq<Code>)
    requires Extends(e, e1) && Extends(e1, r)
    requires Added(e, e1) == CaseLines(e.depth, name, store, shape)
    requires NotBelow(Added(e1, r), e.depth) && AtLevel(Added(e1, r), e.depth) == rest
    ensures Extends(e, r)
    ensures NotBelow(Added(e, r), e.depth)
    ensures AtLevel(Added(e, r), e.depth) == [CaseHead(name), Close] + rest
  {
    CaseLayout(e.depth, name, store, shape);
    Chain(e, e1, r);
    AtLevelAppend(Added(e, e1), Added(e1, r), e.depth);
    NotBelowPair(Added(e, e1), Added(e1, r), Added(e, r), e.depth);
  }

  // ---- the access flags only respell --------------------------------------

  /** Configurations that agree on the generation mode store the same value
      in the same field; only the way the field is reached may differ. */
  lemma AccessRespelled(a: Config, b: Config, target: string, name: string, shape: FieldShape)
    requires a.generateConstructor == b.generateConstructor
    ensures Respelled(Access(a, target, name, shape), Access(b, target, name, shape))
  {
  }

  /** A `case` whose store is respelled is respelled line for line. */
  lemma CaseLinesRespelled(d: int, name: string, s1: Code, s2: Code, shape: FieldShape)
    requires Respelled(s1, s2)
    ensures RespelledLines(CaseLines(d, name, s1, shape), CaseLines(d, name, s2, shape))
  {
    var x, y := BodyLines(d + 1, s1, shape), BodyLines(d + 1, s2, shape);
    assert RespelledLines(x, y);
    var head, tail := [Indented(d, CaseHead(name))], [Indented(d + 1, Break), Indented(d, Close)];
    RespelledSame(head);
    RespelledSame(tail);
    RespelledJoin(head, x, head, y);
    RespelledJoin(head + x, tail, head + y, tail);
  }

  /** The dispatch, one `case` at a time from the front. */
  lemma CasesCons(e: State, els: seq<LocalElement>)
    requires |els| > 0 && AllDispatched(e.cfg, els)
    ensures var s := Dispatch(e.cfg, els[0]).value;
            var e1 := CaseBranch(e, els[0].name, s);
            && AllDispatched(e.cfg, els[1..])
            && e1.depth == e.depth && e1.target == e.target && e1.cfg == e.cfg
            && Added(e, CompileCases(e, els).value)
               == CaseLines(e.depth, els[0].name, Access(e.cfg, e.target, els[0].name, s), s)
                  + Added(e1, CompileCases(e1, els[1..]).value)
  {
    DispatchedTail(e.cfg, els);
    CasePassAgrees(e, els[0]);
    var s := Dispatch(e.cfg, els[0]).value;
    var e1 := CaseBranch(e, els[0].name, s);
    Chain(e, e1, CompileCases(e1, els[1..]).value);
  }

  /** Dispatching the same elements under two access modes writes the same
      `case`s, line for line, up to field access. */
  lemma {:induction false} CasesRespelled(a: State, b: State, els: seq<LocalElement>)
    requires a.depth == b.depth && a.target == b.target
    requires a.cfg.generateConstructor == b.cfg.generateConstructor
    requires AllDispatched(a.cfg, els) && AllDispatched(b.cfg, els)
    ensures RespelledLines(Added(a, CompileCases(a, els).value), Added(b, CompileCases(b, els).value))
    decreases |els|
  {
    if |els| == 0 {
      RespelledSame([]);
    } else {
      CasesCons(a, els);
      CasesCons(b, els);
      var s := Dispatch(a.cfg, els[0]).value;
      assert Dispatch(b.cfg, els[0]).value == s;
      var name := els[0].name;
      AccessRespelled(a.cfg, b.cfg, a.target, name, s);
      CaseLinesRespelled(a.depth, name, Access(a.cfg, a.target, name, s), Access(b.cfg, b.target, name, s), s);
      var a1, b1 := CaseBranch(a, name, s), CaseBranch(b, name, s);
      CasesRespelled(a1, b1, els[1..]);
      RespelledJoin(CaseLines(a.depth, name, Access(a.cfg, a.target, name, s), s),
                    Added(a1, CompileCases(a1, els[1..]).value),
                    CaseLines(b.depth, name, Access(b.cfg, b.target, name, s), s),
                    Added(b1, CompileCases(b1, els[1..]).value));
    }
  }

  // ---- the generation mode only redirects and rebuilds ---------------------

  /** Under any two configurations and any two variables, a store writes
      the same field with the same kind of value. */
  lemma AccessRegenerated(a: Config, b: Config, t1: string, t2: string, name: string, shape: FieldShape)
    ensures Regenerated(Access(a, t1, name, shape), Access(b, t2, name, shape))
  {
  }

  /** A `case` whose store is regenerated is regenerated line for line. */
  lemma CaseLinesRegenerated(d: int, name: string, s1: Code, s2: Code, shape: FieldShape)
    requires Regenerated(s1, s2)
    ensures RegeneratedLines(CaseLines(d, name, s1, shape), CaseLines(d, name, s2, shape))
  {
    var x, y := BodyLines(d + 1, s1, shape), BodyLines(d + 1, s2, shape);
    assert RegeneratedLines(x, y);
    var head, tail := [Indented(d, CaseHead(name))], [Indented(d + 1, Break), Indented(d, Close)];
    assert RegeneratedLines(head, head);
    assert RegeneratedLines(tail, tail);
    RegeneratedJoin(head, x, head, y);
    RegeneratedJoin(head + x, tail, head + y, tail);
  }

  /** Dispatching the same elements under any two configurations, each
      storing into its own variable (`this`, or the local of static mode),
      writes the same `case`s line for line, up to the variable, field
      access and how nested records are built. */
  lemma {:induction false} CasesRegenerated(a: State, b: State, els: seq<LocalElement>)
    requires a.depth == b.depth
    requires AllDispatched(a.cfg, els) && AllDispatched(b.cfg, els)
    ensures RegeneratedLines(Added(a, CompileCases(a, els).value), Added(b, CompileCases(b, els).value))
    decreases |els|
  {
    if |els| == 0 {
      assert Added(a, CompileCases(a, els).value) == [];
      assert Added(b, CompileCases(b, els).value) == [];
    } else {
      CasesCons(a, els);
      CasesCons(b, els);
      var s := Dispatch(a.cfg, els[0]).value;
      assert Dispatch(b.cfg, els[0]).value == s;
      var name := els[0].name;
      AccessRegenerated(a.cfg, b.cfg, a.target, b.target, name, s);
      CaseLinesRegenerated(a.depth, name, Access(a.cfg, a.target, name, s), Access(b.cfg, b.target, name, s), s);
      var a1, b1 := CaseBranch(a, name, s), CaseBranch(b, name, s);
      CasesRegenerated(a1, b1, els[1..]);
      RegeneratedJoin(CaseLines(a.depth, name, Access(a.cfg, a.target, name, s), s),
                      Added(a1, CompileCases(a1, els[1..]).value),
                      CaseLines(b.depth, name, Access(b.cfg, b.target, name, s), s),
                      Added(b1, CompileCases(b1, els[1..]).value));
    }
  }
}
