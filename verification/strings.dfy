/** Character-level helpers used by the generator: indentation, the
    `cap`/`uncap` case changes, `String.replace(char, char)`, and the
    `Boolean.parseBoolean` / `%b` pair. Case mapping is ASCII only. */
module Strings {

  /** One level of indentation as written by `Emitter.indent`. */
  const Tab := "    "

  /** The prefix `indent()` writes: `depth` copies of four spaces, and
      nothing at all when `depth` is zero or negative. */
  function Indent(depth: int): (s: string)
    ensures depth <= 0 ==> s == ""
    ensures depth > 0 ==> |s| == 4 * depth
    ensures forall i :: 0 <= i < |s| ==> s[i] == ' '
    decreases depth
  {
    if depth <= 0 then "" else Indent(depth - 1) + Tab
  }

  /** One level deeper is exactly four more spaces. */
  lemma IndentStep(depth: nat)
    ensures Indent(depth + 1) == Indent(depth) + Tab
  {
  }

  predicate IsUpper(c: char) { 'A' <= c <= 'Z' }

  predicate IsLower(c: char) { 'a' <= c <= 'z' }

  function ToUpper(c: char): char
  {
    if IsLower(c) then (c as int - 32) as char else c
  }

  function ToLower(c: char): char
  {
    if IsUpper(c) then (c as int + 32) as char else c
  }

  /** `Emitter.cap`: upper-cases the first character and keeps the rest. */
  function Cap(s: string): (r: string)
    requires |s| > 0
    ensures |r| == |s| && r[0] == ToUpper(s[0]) && r[1..] == s[1..]
  {
    [ToUpper(s[0])] + s[1..]
  }

  /** `Staxgen.uncap`: lower-cases the first character and keeps the rest. */
  function Uncap(s: string): (r: string)
    requires |s| > 0
    ensures |r| == |s| && r[0] == ToLower(s[0]) && r[1..] == s[1..]
  {
    [ToLower(s[0])] + s[1..]
  }

  /** An accessor name built by `cap` gives the field name back under
      `uncap` whenever the field name does not start with a capital. */
  lemma UncapCap(s: string)
    requires |s| > 0 && !IsUpper(s[0])
    ensures Uncap(Cap(s)) == s
  {
    assert Uncap(Cap(s)) == [s[0]] + s[1..];
  }

  /** `String.replace(from, to)` on single characters. */
  function ReplaceChar(s: string, from: char, to: char): (r: string)
    ensures |r| == |s|
    ensures forall i :: 0 <= i < |s| ==> r[i] == (if s[i] == from then to else s[i])
  {
    if |s| == 0 then ""
    else [if s[0] == from then to else s[0]] + ReplaceChar(s[1..], from, to)
  }

  /** Turning a dotted package into a directory path loses nothing as long
      as the package name holds no `/` of its own. */
  lemma {:induction false} ReplaceCharInverse(s: string, from: char, to: char)
    requires to !in s
    ensures ReplaceChar(ReplaceChar(s, from, to), to, from) == s
  {
    var once := ReplaceChar(s, from, to);
    var twice := ReplaceChar(once, to, from);
    forall i | 0 <= i < |s|
      ensures twice[i] == s[i]
    {
      assert s[i] != to;
    }
  }

  /** `String.equalsIgnoreCase`, restricted to ASCII case folding. */
  predicate EqualsIgnoreCase(a: string, b: string)
  {
    |a| == |b| && forall i :: 0 <= i < |a| ==> ToUpper(a[i]) == ToUpper(b[i])
  }

  /** `Boolean.parseBoolean`: true exactly for "true" in any letter case. */
  predicate ParseBoolean(s: string)
  {
    EqualsIgnoreCase(s, "true")
  }

  /** How `%b` renders a boolean. */
  function BoolText(b: bool): string
  {
    if b then "true" else "false"
  }

  /** A boolean written with `%b` parses back to itself. */
  lemma ParseBoolText(b: bool)
    ensures ParseBoolean(BoolText(b)) == b
  {
    if b {
      assert forall i :: 0 <= i < 4 ==> ToUpper("true"[i]) == ToUpper("true"[i]);
    }
  }

  /** Only four-character strings can parse as true, and each of those
      spells "true" in some mix of cases. */
  lemma ParseBooleanShape(s: string)
    ensures ParseBoolean(s) <==> |s| == 4 && ToUpper(s[0]) == 'T' && ToUpper(s[1]) == 'R'
                                 && ToUpper(s[2]) == 'U' && ToUpper(s[3]) == 'E'
  {
    if |s| == 4 && ToUpper(s[0]) == 'T' && ToUpper(s[1]) == 'R' && ToUpper(s[2]) == 'U' && ToUpper(s[3]) == 'E' {
      forall i | 0 <= i < 4
        ensures ToUpper(s[i]) == ToUpper("true"[i])
      {
        if i == 0 {} else if i == 1 {} else if i == 2 {} else {}
      }
    }
  }
}
