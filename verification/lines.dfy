/** The generated text as a sequence of output lines. Every emitter
    primitive writes whole lines: an indented line (`indent()` followed by
    the line's text and a newline) or a blank line (`println("")`, with no
    indentation). */
module Lines {
  import opened Strings
  import opened Java

  datatype Line = Indented(level: int, code: Code) | Blank

  predicate RenderableLine(l: Line)
  {
    l.Indented? ==> Renderable(l.code)
  }

  /** The characters a line contributes to the output, without its newline. */
  function Render(l: Line): string
    requires RenderableLine(l)
  {
    match l
    case Indented(level, code) => Indent(level) + CodeText(code)
    case Blank => ""
  }

  /** The whole output: every line followed by a newline. */
  function Text(lines: seq<Line>): string
    requires forall i :: 0 <= i < |lines| ==> RenderableLine(lines[i])
  {
    if |lines| == 0 then "" else Text(lines[..|lines| - 1]) + Render(lines[|lines| - 1]) + "\n"
  }

  /** An indented line renders as `level` times four spaces, then its text. */
  lemma RenderIndented(level: nat, code: Code)
    requires Renderable(code)
    ensures |Render(Indented(level, code))| == 4 * level + |CodeText(code)|
    ensures Render(Indented(level, code))[4 * level..] == CodeText(code)
    ensures forall i :: 0 <= i < 4 * level ==> Render(Indented(level, code))[i] == ' '
  {
  }

  /** Every indented line sits at `floor` or deeper. */
  predicate NotBelow(lines: seq<Line>, floor: int)
  {
    forall i :: 0 <= i < |lines| && lines[i].Indented? ==> lines[i].level >= floor
  }

  /** Indented lines at one level, one per code. */
  function Flat(level: int, codes: seq<Code>): (r: seq<Line>)
    ensures |r| == |codes|
    ensures forall i :: 0 <= i < |codes| ==> r[i] == Indented(level, codes[i])
  {
    seq(|codes|, i requires 0 <= i < |codes| => Indented(level, codes[i]))
  }

  lemma FlatCons(level: int, codes: seq<Code>)
    requires |codes| > 0
    ensures Flat(level, codes) == [Indented(level, codes[0])] + Flat(level, codes[1..])
  {
  }

  /** The lines written at exactly `level`, in output order: the skeleton
      of one nesting level. */
  function AtLevel(lines: seq<Line>, level: int): (r: seq<Code>)
    ensures |r| <= |lines|
  {
    if |lines| == 0 then []
    else
      AtLevel(lines[..|lines| - 1], level) + Pick(lines[|lines| - 1], level)
  }

  /** The code of one line, when it sits at `level`. */
  function Pick(l: Line, level: int): seq<Code>
  {
    if l.Indented? && l.level == level then [l.code] else []
  }

  lemma {:induction false} AtLevelAppend(a: seq<Line>, b: seq<Line>, level: int)
    ensures AtLevel(a + b, level) == AtLevel(a, level) + AtLevel(b, level)
    decreases |b|
  {
    if |b| == 0 {
      assert a + b == a;
    } else {
      var b' := b[..|b| - 1];
      assert (a + b)[..|a + b| - 1] == a + b';
      AtLevelAppend(a, b', level);
    }
  }

  lemma AtLevelOne(l: Line, level: int)
    ensures AtLevel([l], level) == Pick(l, level)
  {
    assert [l][..0] == [];
  }

  /** The skeleton of one level, read one line at a time from the front. */
  lemma AtLevelCons(l: Line, rest: seq<Line>, level: int)
    ensures AtLevel([l] + rest, level) == Pick(l, level) + AtLevel(rest, level)
  {
    AtLevelAppend([l], rest, level);
    AtLevelOne(l, level);
  }

  /** The skeleton of a short run of lines, one line at a time. */
  lemma AtLevelTwo(a: Line, b: Line, level: int)
    ensures AtLevel([a, b], level) == Pick(a, level) + Pick(b, level)
  {
    assert [a, b][..1] == [a];
    AtLevelOne(a, level);
  }

  lemma AtLevelThree(a: Line, b: Line, c: Line, level: int)
    ensures AtLevel([a, b, c], level) == Pick(a, level) + Pick(b, level) + Pick(c, level)
  {
    assert [a, b, c][..2] == [a, b];
    AtLevelTwo(a, b, level);
  }

  lemma AtLevelFour(a: Line, b: Line, c: Line, d: Line, level: int)
    ensures AtLevel([a, b, c, d], level) == Pick(a, level) + Pick(b, level) + Pick(c, level) + Pick(d, level)
  {
    assert [a, b, c, d][..3] == [a, b, c];
    AtLevelThree(a, b, c, level);
  }

  lemma AtLevelFive(a: Line, b: Line, c: Line, d: Line, e: Line, level: int)
    ensures AtLevel([a, b, c, d, e], level)
            == Pick(a, level) + Pick(b, level) + Pick(c, level) + Pick(d, level) + Pick(e, level)
  {
    assert [a, b, c, d, e][..4] == [a, b, c, d];
    AtLevelFour(a, b, c, d, level);
  }

  /** The skeleton of three consecutive runs. */
  lemma AtLevelJoin(x: seq<Line>, y: seq<Line>, z: seq<Line>, level: int)
    ensures AtLevel(x + y + z, level) == AtLevel(x, level) + AtLevel(y, level) + AtLevel(z, level)
  {
    AtLevelAppend(x + y, z, level);
    AtLevelAppend(x, y, level);
  }

  /** Runs that each stay at or below a depth stay there together. */
  lemma NotBelowJoin(x: seq<Line>, y: seq<Line>, z: seq<Line>, floor: int)
    requires NotBelow(x, floor) && NotBelow(y, floor) && NotBelow(z, floor)
    ensures NotBelow(x + y + z, floor)
  {
    var all := x + y + z;
    forall i | 0 <= i < |all| && all[i].Indented?
      ensures all[i].level >= floor
    {
      if i < |x| {
        assert all[i] == x[i];
      } else if i < |x| + |y| {
        assert all[i] == y[i - |x|];
      } else {
        assert all[i] == z[i - |x| - |y|];
      }
    }
  }

  lemma NotBelowPair(x: seq<Line>, y: seq<Line>, z: seq<Line>, floor: int)
    requires NotBelow(x, floor) && NotBelow(y, floor) && z == x + y
    ensures NotBelow(z, floor)
  {
    NotBelowJoin(x, y, [], floor);
    assert x + y + [] == z;
  }

  /** A level no line sits at has an empty skeleton. */
  lemma {:induction false} AtLevelNone(lines: seq<Line>, level: int)
    requires forall i :: 0 <= i < |lines| && lines[i].Indented? ==> lines[i].level != level
    ensures AtLevel(lines, level) == []
  {
    if |lines| > 0 {
      AtLevelNone(lines[..|lines| - 1], level);
    }
  }

  /** Lines that all sit deeper than `level` contribute nothing to it. */
  lemma AtLevelDeeper(lines: seq<Line>, level: int)
    requires NotBelow(lines, level + 1)
    ensures AtLevel(lines, level) == []
  {
    AtLevelNone(lines, level);
  }

  lemma {:induction false} AtLevelFlat(level: int, codes: seq<Code>)
    ensures AtLevel(Flat(level, codes), level) == codes
    decreases |codes|
  {
    if |codes| > 0 {
      var front := codes[..|codes| - 1];
      assert Flat(level, codes)[..|codes| - 1] == Flat(level, front);
      AtLevelFlat(level, front);
    }
  }

  /** A run of lines at one depth shows at that depth only. */
  lemma FlatLevel(d: int, codes: seq<Code>, level: int)
    ensures AtLevel(Flat(d, codes), level) == if level == d then codes else []
  {
    if level == d {
      AtLevelFlat(d, codes);
    } else {
      AtLevelNone(Flat(d, codes), level);
    }
  }

  /** One line, respelled: a blank line stays blank, an indented line stays
      at its level and says the same up to field access. */
  predicate LineRespelled(x: Line, y: Line)
  {
    match x
    case Blank => y.Blank?
    case Indented(level, code) => y.Indented? && y.level == level && Respelled(code, y.code)
  }

  /** Two outputs that agree line for line up to field access. */
  predicate RespelledLines(a: seq<Line>, b: seq<Line>)
  {
    |a| == |b| && forall i :: 0 <= i < |a| ==> LineRespelled(a[i], b[i])
  }

  lemma RespelledSame(a: seq<Line>)
    ensures RespelledLines(a, a)
  {
  }

  /** Respelled runs stay respelled when joined. */
  lemma RespelledJoin(a1: seq<Line>, a2: seq<Line>, b1: seq<Line>, b2: seq<Line>)
    requires RespelledLines(a1, b1) && RespelledLines(a2, b2)
    ensures RespelledLines(a1 + a2, b1 + b2)
  {
    forall i | 0 <= i < |a1 + a2|
      ensures LineRespelled((a1 + a2)[i], (b1 + b2)[i])
    {
      if i < |a1| {
        assert (a1 + a2)[i] == a1[i] && (b1 + b2)[i] == b1[i];
      } else {
        assert (a1 + a2)[i] == a2[i - |a1|] && (b1 + b2)[i] == b2[i - |b1|];
      }
    }
  }

  /** A respelled output has the same layout: the same lines at every level,
      each respelled, and the same floor. */
  lemma {:induction false} RespelledLevels(a: seq<Line>, b: seq<Line>, level: int)
    requires RespelledLines(a, b)
    ensures |AtLevel(a, level)| == |AtLevel(b, level)|
    ensures forall i :: 0 <= i < |AtLevel(a, level)| ==> Respelled(AtLevel(a, level)[i], AtLevel(b, level)[i])
    decreases |a|
  {
    if |a| > 0 {
      var a', b' := a[..|a| - 1], b[..|b| - 1];
      assert RespelledLines(a', b') by {
        forall i | 0 <= i < |a'|
          ensures LineRespelled(a'[i], b'[i])
        {
          assert a'[i] == a[i] && b'[i] == b[i];
        }
      }
      RespelledLevels(a', b', level);
      assert LineRespelled(a[|a| - 1], b[|b| - 1]);
    }
  }

  lemma RespelledFloor(a: seq<Line>, b: seq<Line>, floor: int)
    requires RespelledLines(a, b) && NotBelow(a, floor)
    ensures NotBelow(b, floor)
  {
    forall i | 0 <= i < |b| && b[i].Indented?
      ensures b[i].level >= floor
    {
      assert LineRespelled(a[i], b[i]);
    }
  }

  /** One line, regenerated: blank stays blank, an indented line stays at
      its level and says the same up to the variable stored into, field
      access and how a nested record is built. */
  predicate LineRegenerated(x: Line, y: Line)
  {
    match x
    case Blank => y.Blank?
    case Indented(level, code) => y.Indented? && y.level == level && Regenerated(code, y.code)
  }

  /** Two outputs that agree line for line up to those differences. */
  predicate RegeneratedLines(a: seq<Line>, b: seq<Line>)
  {
    |a| == |b| && forall i :: 0 <= i < |a| ==> LineRegenerated(a[i], b[i])
  }

  /** Outputs that are respelled are regenerated. */
  lemma RespelledRegenerated(a: seq<Line>, b: seq<Line>)
    requires RespelledLines(a, b)
    ensures RegeneratedLines(a, b)
  {
    forall i | 0 <= i < |a|
      ensures LineRegenerated(a[i], b[i])
    {
      assert LineRespelled(a[i], b[i]);
      if a[i].Indented? {
        RegeneratedOnlyStores(a[i].code, b[i].code);
      }
    }
  }

  /** Regenerated runs stay regenerated when joined. */
  lemma RegeneratedJoin(a1: seq<Line>, a2: seq<Line>, b1: seq<Line>, b2: seq<Line>)
    requires RegeneratedLines(a1, b1) && RegeneratedLines(a2, b2)
    ensures RegeneratedLines(a1 + a2, b1 + b2)
  {
    forall i | 0 <= i < |a1 + a2|
      ensures LineRegenerated((a1 + a2)[i], (b1 + b2)[i])
    {
      if i < |a1| {
        assert (a1 + a2)[i] == a1[i] && (b1 + b2)[i] == b1[i];
      } else {
        assert (a1 + a2)[i] == a2[i - |a1|] && (b1 + b2)[i] == b2[i - |b1|];
      }
    }
  }

  /** Regenerated outputs keep their layout: the same number of lines at
      every level, each one regenerated. */
  lemma {:induction false} RegeneratedLevels(a: seq<Line>, b: seq<Line>, level: int)
    requires RegeneratedLines(a, b)
    ensures |AtLevel(a, level)| == |AtLevel(b, level)|
    ensures forall i :: 0 <= i < |AtLevel(a, level)| ==> Regenerated(AtLevel(a, level)[i], AtLevel(b, level)[i])
    decreases |a|
  {
    if |a| > 0 {
      var a', b' := a[..|a| - 1], b[..|b| - 1];
      assert RegeneratedLines(a', b') by {
        forall i | 0 <= i < |a'|
          ensures LineRegenerated(a'[i], b'[i])
        {
          assert a'[i] == a[i] && b'[i] == b[i];
        }
      }
      RegeneratedLevels(a', b', level);
      assert LineRegenerated(a[|a| - 1], b[|b| - 1]);
    }
  }

  /** Respelling a run between two fixed runs respells the whole. */
  lemma RespelledBetween(x: seq<Line>, y1: seq<Line>, y2: seq<Line>, z: seq<Line>)
    requires RespelledLines(y1, y2)
    ensures RespelledLines(x + y1 + z, x + y2 + z)
  {
    RespelledSame(x);
    RespelledSame(z);
    RespelledJoin(x, y1, x, y2);
    RespelledJoin(x + y1, z, x + y2, z);
  }
}
