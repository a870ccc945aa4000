# staxgen, modelled in Dafny

staxgen reads an XML Schema and writes, for every top-level complex type, a
Java class that parses that type's elements with a StAX (`XMLStreamReader`)
pull loop. This project models the generator's core: `Staxgen.compile`,
`compileFields`, `compileParser`, the filter loop of `main` over the schema's
items, and the `Emitter` that renders the decisions as indented Java lines.
It then proves properties of that model.

The pieces, one module each:

- `Results` holds the `Option` and `Result` wrappers.
- `Strings` models `cap`, `uncap`, indentation, `String.replace(char, char)`
  and `Boolean.parseBoolean`.
- `Java` is the generated Java as a small line-level syntax (`Code`).
  `CodeText` gives the exact text the emitter prints for each line.
- `Lines` models the output as a sequence of lines. Each line is either
  indented at a level or blank. It also defines the per-level skeleton
  `AtLevel`, the floor predicate `NotBelow`, and "respelled" and
  "regenerated" outputs (line-for-line agreement up to stores).
- `Schema` is the slice of the XML Schema object model the generator reads.
  It also lists the four Java exceptions that compilation can raise.
- `Fields` decides the shape of every element: string, boolean, record,
  list of strings, list of records, or string map.
- `Emitter` holds the emitter's state: configuration, depth, the variable
  written to, the current stream, its lines, and the streams already closed.
  It also holds every emitter primitive as a pure function on that state.
- `FieldPass` is `compileFields`. `ParserPass` is the `case` dispatch of
  `compileParser`. `Staxgen` is `compileParser` and `compile`.
- `SchemaLoop` is the loop of `main` over the schema's items, as a function
  and as a method.
- `Modes` holds what the access flags `useGetters` and `useSetters`, and the
  generation mode `generateConstructor`, can and cannot change.

A Java exception is a `Result` error (`Schema.Failure`):

| Exception | When |
|---|---|
| `UnsupportedOperation` | "not implemented": an untyped element without an inline sequence |
| `NullPointer` | a type whose body is not an `all` group, or a list item without a type |
| `IndexOutOfBounds` | `get(0)` on an empty inline sequence, or `charAt(0)` in `cap`/`uncap` of an empty name |
| `ClassCast` | an inline sequence whose first particle is wrapped in a `JAXBElement` but is not an element (a nested `sequence`, `choice`, `all` or group reference), cast to `LocalElement` (`Staxgen.java:54`, `95`) |

In the XML Schema binding, every particle of a sequence except the `any`
wildcard comes wrapped in a `JAXBElement`. So the test `instanceof
JAXBElement` (`Staxgen.java:53`, `94`) separates the wildcard from
everything else, and the cast that follows fails on a wrapped group.

The model checks the same conditions in the same order as the source, so a
failing type raises the same exception first.

Three behaviours of the code a reader might not expect:

- A map-shaped element (an inline sequence whose first particle is the
  `any` wildcard) gets one `put(xml.getLocalName(), xml.getElementText())` line
  (`Staxgen.java:64-65`). It does not get an inner loop over the children.
- In static mode, `parseMethod` writes `T parseT(XMLStreamReader xml)`
  without the `static` keyword, and no no-argument constructor
  (`Emitter.java:69-71`). Only constructor mode writes the no-argument
  constructor (`Emitter.java:66-68`).
- The flag names are inverted. `useGetters == true` means direct field
  access `var.field` (`Emitter.java:37-38`), and `useSetters == true` means
  direct assignment `var.field = ...` (`Emitter.java:45-46`). Both flags are
  true by default (`Emitter.java:11`).

## Model

| member | source | states |
|---|---|---|
| Strings.Indent | src/staxgen/Emitter.java:21-26 | `indent()` writes four spaces per level of depth, and nothing at depth zero or below |
| Strings.IndentStep | src/staxgen/Emitter.java:21-26 | one more level of depth appends exactly one four-space step to the indentation |
| Strings.Cap | src/staxgen/Emitter.java:17-19 | `cap` keeps the length, raises the first character and leaves the rest unchanged |
| Strings.Uncap | src/staxgen/Staxgen.java:25-27 | `uncap` keeps the length, lowers the first character and leaves the rest unchanged |
| Strings.UncapCap | src/staxgen/Staxgen.java:25-27 | `uncap` undoes `cap` on a name that does not start in upper case (the variable name versus the accessor suffix) |
| Strings.ReplaceChar | src/staxgen/Emitter.java:221 | `replace('.', '/')` keeps the length and replaces exactly the occurrences of the one character |
| Strings.ReplaceCharInverse | src/staxgen/Emitter.java:221 | turning the package's dots into slashes loses nothing: turning slashes back into dots restores a package name without slashes |
| Strings.ParseBoolText | src/staxgen/Emitter.java:184-186 | the `%b` text of a boolean default parses back to the same boolean |
| Strings.ParseBooleanShape | src/staxgen/Staxgen.java:113-115 | `Boolean.parseBoolean` of a default is true exactly for "true" in any letter case |
| Java.GetterConvention | src/staxgen/Emitter.java:36-42 | a read renders as `var.field` exactly when `useGetters` is set, and otherwise as `var.getField()` with only the first letter raised |
| Java.SetterConvention | src/staxgen/Emitter.java:44-58 | an assignment renders as `var.field = expr;` exactly when `useSetters` is set, and otherwise as `var.setField(expr);` |
| Java.ThrowNamesExpected | src/staxgen/Emitter.java:108-113 | the exception thrown for a wrong child tag names the expected tag right after `Expected <` |
| Java.RespelledOnlyDirect | src/staxgen/Emitter.java:36-58 | the access convention only chooses how a field is reached: two respellings of a line with the same flag are the same line, and no other kind of line can be respelled |
| Java.RegeneratedOnlyStores | src/staxgen/Emitter.java:36-58 | a respelling is a regeneration. Only stores can be regenerated, and a regenerated store with the same variable, the same access flag and the same way of building records is the same line |
| Lines.RenderIndented | src/staxgen/Emitter.java:21-26 | an indented line renders as `4 * level` spaces followed by the line's text |
| Fields.Classify | src/staxgen/Staxgen.java:91-121 | each of the six shapes is chosen exactly under its condition on the element (type tag, inline sequence, first particle, item type) and carries the element's default, type and item tag. A map needs the wildcard as first particle. Each of the four exceptions is raised exactly under its condition, `ClassCast` for a wrapped first particle that is not an element |
| Fields.FirstFailure | src/staxgen/Staxgen.java:88-106 | the exception for a list of elements is that of the first element that does not classify, and every earlier element classifies |
| Emitter.Open | src/staxgen/Emitter.java:28-34 | `updent()` writes one line at the current depth and then deepens by one |
| Emitter.EndBlock | src/staxgen/Emitter.java:116-119 | `endBlock()` lowers the depth by one and writes the closing brace at the new depth |
| Emitter.BlockBalance | src/staxgen/Emitter.java:116-119 | a block opened by `updent()` and closed by `endBlock()` after depth-neutral lines restores the depth, with `{` and `}` at one indentation |
| Emitter.SetStringText | src/staxgen/Emitter.java:130-132 | (exact text, for reference) `setString` writes one line at the current depth: `var.field = xml.getElementText();` or `var.setField(xml.getElementText());` |
| Emitter.SetBooleanText | src/staxgen/Emitter.java:134-136 | (exact text, for reference) `setBoolean` writes one line assigning `Boolean.parseBoolean(xml.getElementText())`, directly or through the setter |
| Emitter.SetComplexText | src/staxgen/Emitter.java:138-144 | (exact text, for reference) `setComplex` assigns `new T(xml)` in constructor mode and `parseT(xml)` in static mode, directly or through the setter |
| Emitter.AddComplexText | src/staxgen/Emitter.java:146-152 | (exact text, for reference) `addComplex` appends `new T(xml)` or `parseT(xml)` to the list, reached directly or through its getter |
| Emitter.AddStringText | src/staxgen/Emitter.java:154-156 | (exact text, for reference) `addString` appends `xml.getElementText()` to the list, reached directly or through its getter |
| Emitter.PutStringText | src/staxgen/Emitter.java:158-160 | (exact text, for reference) `putString` puts `(xml.getLocalName(), xml.getElementText())` into the map, reached directly or through its getter |
| Emitter.FieldStringText | src/staxgen/Emitter.java:172-178 | (exact text, for reference) `fieldString` declares `String name;`, or `String name = "value";` with a default |
| Emitter.FieldBooleanText | src/staxgen/Emitter.java:180-186 | (exact text, for reference) `fieldBoolean` declares `boolean name;`, or `boolean name = true;`/`false;` with a default |
| Emitter.FieldListText | src/staxgen/Emitter.java:188-190 | (exact text, for reference) `fieldList` declares `List<T> name = new ArrayList<>();` |
| Emitter.FieldComplexText | src/staxgen/Emitter.java:192-194 | (exact text, for reference) `fieldComplex` declares `T name = new T();` |
| Emitter.FieldMapText | src/staxgen/Emitter.java:196-198 | (exact text, for reference) `fieldMap` declares `Map<String,String> name = new HashMap<>();` |
| Emitter.ParseMethod | src/staxgen/Emitter.java:65-72 | constructor mode writes the no-argument constructor, a blank line and the opened reader constructor; static mode writes only the opened `T parseT(...)`. Either way exactly one block is opened |
| Emitter.DeclareVar | src/staxgen/Emitter.java:74-79 | static mode switches the written variable to the new one and declares it; constructor mode writes nothing and keeps `this` |
| Emitter.ReturnVar | src/staxgen/Emitter.java:162-166 | static mode returns the current variable; constructor mode writes nothing |
| Emitter.WhileNextTagText | src/staxgen/Emitter.java:81-83 | (exact text, for reference) `whileNextTag` opens the loop over child elements, one level in |
| Emitter.SwitchOnTagNameText | src/staxgen/Emitter.java:85-87 | (exact text, for reference) `switchOnTagName` opens the switch on the child's local name |
| Emitter.SwitchCaseText | src/staxgen/Emitter.java:89-91 | (exact text, for reference) `switchCase` opens a block under the quoted label |
| Emitter.SwitchBreakText | src/staxgen/Emitter.java:93-95 | (exact text, for reference) `switchBreak` writes `break;` and keeps the depth |
| Emitter.SwitchDefault | src/staxgen/Emitter.java:97-102 | the default branch is depth-neutral, with its throw one level deeper than `default: {` and `}` |
| Emitter.IfTagNameText | src/staxgen/Emitter.java:104-106 | (exact text, for reference) `ifTagName` opens the test of the child's name against the item tag |
| Emitter.ElseExpected | src/staxgen/Emitter.java:108-113 | `elseExpected` writes `} else {` and the closing `}` one level out, with the throw between them, and leaves the depth one lower |
| Emitter.IfElseBalance | src/staxgen/Emitter.java:104-113 | `ifTagName` followed by `elseExpected` restores the depth, and `} else {` and `}` align with the `if` |
| Emitter.ClassFilePath | src/staxgen/Emitter.java:219-229 | the class file is `outDir/Name.java`, or `outDir/pkg/dirs/Name.java` with the package's dots turned into slashes |
| Emitter.PackageFromPath | src/staxgen/Emitter.java:219-229 | the package name can be read back from the class file's path |
| Emitter.OpenClassFile | src/staxgen/Emitter.java:217-238 | with an output directory, the current stream is closed and kept, and a new empty stream to the class file begins. Without one, nothing changes |
| Emitter.StartClass | src/staxgen/Emitter.java:200-215 | `startClass` writes the package line and a blank line only when a package is set, then the seven imports, a blank line and the class head, and opens the class block |
| Emitter.StartClassLayout | src/staxgen/Emitter.java:200-215 | every line of the opening stands at the class's own level and reads package (if any), imports and class head |
| FieldPass.DeclarationForm | src/staxgen/Emitter.java:172-198 | every declaration reads `type name initialiser;`, with the type and initialiser determined by the field's shape |
| FieldPass.InitialiserForm | src/staxgen/Staxgen.java:107-121 | only a string or boolean without a default is left uninitialised. A string default is quoted verbatim and a boolean default is the parsed value. Records, lists and maps start as new objects |
| FieldPass.FieldPassAgrees | src/staxgen/Staxgen.java:88-121 | the field pass's own chain of tests fails exactly where the classifier does, with the same exception, and otherwise writes the declaration of the element's shape |
| FieldPass.CompileFields | src/staxgen/Staxgen.java:87-123 | `compileFields` succeeds exactly when every element classifies and then writes one declaration per element, in order, at the current depth. Otherwise it raises the first element's exception |
| ParserPass.FirstRejection | src/staxgen/Staxgen.java:46-79 | the parser pass fails with the exception of its first rejected element |
| ParserPass.RejectionAgrees | src/staxgen/Staxgen.java:46-79 | the parser pass accepts only what the field pass accepts, and can fail on its own only from `cap` of an empty name |
| ParserPass.AccessFitsDeclaration | src/staxgen/Staxgen.java:50-76 | each element's store writes the field its declaration declares, with a value of the declared type, and it renders exactly when the access convention can name the field |
| ParserPass.ItemLoop | src/staxgen/Staxgen.java:53-63 | a list field's body is a loop whose children must carry the item tag: the `add` sits inside the `if`, and the `else` throws naming the tag |
| ParserPass.CaseBody | src/staxgen/Staxgen.java:50-76 | the statements of a `case` are the element's store, or the item loop of a list |
| ParserPass.CaseBranch | src/staxgen/Staxgen.java:49-78 | one `case` writes its label, the body, `break;` and the closing brace, and keeps the depth |
| ParserPass.BodyLayout | src/staxgen/Staxgen.java:50-76 | a `case` body never leaves its depth. At that depth it shows the store, or for a list only the loop's `while` and `}` |
| ParserPass.CaseLayout | src/staxgen/Staxgen.java:49-78 | at the `case` level only the label and the closing brace show, and one level in, the body's lines and `break;` |
| ParserPass.CasePassAgrees | src/staxgen/Staxgen.java:47-78 | the source's chain of tests in the parser loop fails exactly where dispatch does, and otherwise writes the element's `case` |
| ParserPass.PassesAgree | src/staxgen/Staxgen.java:46-79 | the parser pass rejects everything the field pass rejects, with the same exception. With a nameable field, it accepts exactly what the field pass accepts |
| ParserPass.CaseSkeletonIndex | src/staxgen/Staxgen.java:49-78 | the `case` of the i-th element is the i-th label of the dispatch, followed by its closing brace |
| ParserPass.CasesMatchFields | src/staxgen/Staxgen.java:46-79 | the i-th `case` label is the name of the i-th declared field |
| ParserPass.CompileCases | src/staxgen/Staxgen.java:46-79 | the loop succeeds exactly when every element dispatches, and otherwise fails with the first rejection. It keeps depth and variable, and at its depth shows exactly one label and closing brace per element, in order |
| ParserPass.AccessRespelled | src/staxgen/Staxgen.java:70-76 | two access conventions write the same store up to how the field is reached |
| ParserPass.CaseLinesRespelled | src/staxgen/Staxgen.java:49-78 | a `case` whose store is respelled is respelled line for line |
| ParserPass.CasesRespelled | src/staxgen/Staxgen.java:46-79 | the whole dispatch under two access conventions is the same line for line, up to how fields are reached |
| ParserPass.AccessRegenerated | src/staxgen/Staxgen.java:70-76 | under any two configurations and variables, a store writes the same field with the same kind of value |
| ParserPass.CaseLinesRegenerated | src/staxgen/Staxgen.java:49-78 | a `case` whose store is regenerated is regenerated line for line |
| ParserPass.CasesRegenerated | src/staxgen/Staxgen.java:46-79 | under any two configurations, in particular the two generation modes, each writing to its own variable, the dispatch is the same line for line, up to the variable, field access and `new T(xml)` versus `parseT(xml)` |
| Staxgen.OpenParser | src/staxgen/Staxgen.java:42-45 | the routine head, the variable, the `while` and the `switch` open three blocks. Static mode writes to the new variable, constructor mode to `this` |
| Staxgen.CloseParser | src/staxgen/Staxgen.java:80-84 | the default branch and the three closing braces, with `return var;` in static mode, close the three blocks |
| Staxgen.CompileParser | src/staxgen/Staxgen.java:39-85 | `compileParser` succeeds exactly when the type is named, has an `all` group and every element dispatches. Its exception is `charAt(0)` of an empty name first, then the missing group, then the first rejection |
| Staxgen.ParserFrame | src/staxgen/Staxgen.java:39-85 | at its own level the routine shows the method heads and `}`. One level in it shows the `while` and its `}`, plus the local's declaration and its return in static mode |
| Staxgen.ParserDispatch | src/staxgen/Staxgen.java:45-81 | two levels in only the `switch` shows; three levels in, one label per element, then `default` |
| Staxgen.ParserFloor | src/staxgen/Staxgen.java:39-85 | no line of the routine is indented less than the routine |
| Staxgen.Compile | src/staxgen/Staxgen.java:29-37 | `compile` succeeds exactly when the type compiles and leaves the depth where it found it. Its exception is the missing group, then the first unclassifiable element, then an empty name |
| Staxgen.ClassBody | src/staxgen/Staxgen.java:31-35 | the class body succeeds under the same conditions and closes the class block |
| Staxgen.BodyPieces | src/staxgen/Staxgen.java:31-35 | a class body is the declarations, a blank line, the parse routine, the closing brace one level out and a blank line |
| Staxgen.ClassFrame | src/staxgen/Staxgen.java:29-37 | at the class's level a compiled class shows the package line, the imports, the class head and `}`. One level in it shows every field's declaration in order, then the method heads and `}` |
| Staxgen.ClassDispatch | src/staxgen/Staxgen.java:29-37 | inside the routine, a compiled class shows the loop, the switch, and one `case` label per element in declaration order, then `default` |
| Staxgen.ClassFloor | src/staxgen/Staxgen.java:29-37 | no line of a class is indented less than the class |
| SchemaLoop.CompileSchema | src/staxgen/Staxgen.java:162-167 | the loop compiles every top-level complex type in order and skips other items. It succeeds exactly when every such type compiles, and otherwise stops with the first failing type's exception |
| SchemaLoop.FirstCompileFailure | src/staxgen/Staxgen.java:162-167 | the run's exception is that of the first type that does not compile, and every earlier type compiles |
| SchemaLoop.CompiledOutline | src/staxgen/Staxgen.java:165 | each compiled class has the class outline: preamble and head, declarations and method heads, and the `case` labels, each at its level |
| SchemaLoop.CompileToFile | src/staxgen/Emitter.java:217-238 | with an output directory, compiling a type closes the previous stream and leaves the class alone in a stream to its file |
| SchemaLoop.SchemaToFiles | src/staxgen/Staxgen.java:162-167 | with an output directory, the streams already closed stay untouched, and one file per complex type is added in document order, each named after and holding its type's class |
| SchemaLoop.SchemaToStdout | src/staxgen/Staxgen.java:162-167 | without an output directory, the classes follow each other on one stream in document order, and none is indented less than the first |
| SchemaLoop.RunToFiles | src/staxgen/Staxgen.java:130-167 | a run with `-o` leaves standard output empty and writes exactly one file per complex type, in document order |
| SchemaLoop.RunToStdout | src/staxgen/Staxgen.java:130-167 | a run without `-o` writes every class to standard output, one after the other |
| SchemaLoop.Generate | src/staxgen/Staxgen.java:162-167 | the loop, as a method, computes the run, succeeding exactly when every complex type compiles and otherwise failing with the first failure |
| Modes.DispatchMatchesClassify | src/staxgen/Staxgen.java:46-79 | with named elements, or with direct access for both reads and writes, the parser pass rejects exactly what the field pass rejects, with the same exception |
| Modes.VerdictIgnoresAccess | src/staxgen/Emitter.java:36-58 | with named elements, the access convention does not change whether a type compiles, nor which exception it raises |
| Modes.DirectAccessVerdict | src/staxgen/Staxgen.java:29-37 | with the default direct access, a type compiles exactly when it has an `all` group whose elements all classify and a non-empty name |
| Modes.ParserRespelled | src/staxgen/Staxgen.java:39-85 | two access conventions write the same parse routine, line for line, up to how fields are reached |
| Modes.BodyRespelled | src/staxgen/Staxgen.java:31-35 | the same holds for the whole class body |
| Modes.ClassRespelled | src/staxgen/Staxgen.java:29-37 | the access convention changes nothing in a compiled class but how its parser reaches the fields: same lines, blank where blank, at the same levels |
| Modes.AccessModesRespell | src/staxgen/Emitter.java:36-58 | with named elements, a type compiles under every access convention or under none, and where it compiles the classes are respellings of one another |
| Modes.ParserRegenerated | src/staxgen/Staxgen.java:39-85 | under any two configurations, in particular the two generation modes, a named type with an `all` group whose elements dispatch under both compiles under both. Each parse routine is its mode's head, a dispatch and its mode's tail, and the two dispatches are regenerations of one another |

## Left out

- Output as text on a `PrintWriter`: the model keeps lines, and `Lines.Text`/`Lines.Render` give the characters. `format` with `%s` is modelled as string concatenation, and `%b` as `true`/`false`. `Lines.Text` ends every line with `"\n"`. The `println` calls end lines with the platform's line separator, which is `"\r\n"` on Windows.
- `flush()` (`Emitter.java:168-170`, `Staxgen.java:36`): buffering does not change the text written.
- Staxgen.Compile: on a failure it returns only the exception. By then the source has written the class opening (`Staxgen.java:30`), and with `-o` it has already closed the previous stream and created or truncated the failing type's file (`Emitter.java:225-233`). That buffered opening is never flushed, so whether it reaches the sink is not modelled.
- SchemaLoop.CompileSchema: on a failure it returns only the exception and drops the state reached. In the source, every earlier class has already been flushed to standard output or written to its closed file, and that output stays. The successful prefix is still described, because `CompileSchema` on the items before the failing type succeeds.
- File-system effects of `openClassFile`: `mkdirs`, creating the `PrintWriter`, and the `FileNotFoundException` wrapped in `UncheckedIOException`. A stream is identified by its path, and closing the previous stream is modelled as keeping it in the list of closed streams.
- `verbose` and its message on standard error (`Emitter.java:230-232`): diagnostics, not generated code.
- Argument parsing, `usage()` and `System.exit` (`Staxgen.java:125-155`): the configuration is a parameter of the model.
- The JAXB unmarshalling of the schema file (`Staxgen.java:157-160`): the schema is given as a sequence of items.
- The casts of every `all` particle to `JAXBElement` and `LocalElement` (`Staxgen.java:47-48`, `89-90`): the `all` group is modelled as a sequence of local elements, so a `ClassCastException` on another kind of particle there is not modelled. The same cast on an inline sequence's first particle is modelled, as `ClassCast`.
- `Emitter.println(String)` with text other than `""`: the core only prints empty lines through it.
- Strings.Cap: requires a non-empty name, because `charAt(0)` of an empty name throws. That exception is modelled where `cap` is called, as `IndexOutOfBounds` from `ParserPass.Dispatch` and `Staxgen.CompileParser`. Case mapping covers ASCII letters only, not all of `Character.toUpperCase`.
- Strings.Uncap: same as `Strings.Cap`, for `Character.toLowerCase`.
- The generated classes' run-time behaviour (what they do with a document): only their text is modelled.
- Modes.AccessModesRespell: covers the access flags only. The generation mode changes which lines exist in the routine's head and tail, and `Staxgen.ParserFrame`, `Staxgen.ClassDispatch` and `Emitter.ParseMethod` describe those. Between the modes, the dispatch is related by `Modes.ParserRegenerated`. No whole-class theorem joins these two relations.
- Emitter.ClassFilePath: joins directory, package path and file name with `/` as text. `java.io.File` normalises the path, so a trailing separator on the `-o` directory is not doubled, and on Windows the separator is `\`. The model keeps the raw concatenation.
- SchemaLoop.RunToFiles: one stream per complex type, as the model keeps every stream. Two complex types with the same name share one path, and in the source the second `PrintWriter` truncates the first type's file. So "one file per type" holds on disk only when the type names are distinct.
