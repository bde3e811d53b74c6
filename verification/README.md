# agda-mode core in Dafny

A model of the core of `agda-mode`, a Rust crate for driving Agda's
interaction mode, and of `agda-tac`, the small interactive loop built on it.
Three pieces are modelled:

- **The response schema** (`src/resp.rs`). Agda writes one JSON object per
  line, and the crate reads each one into `Resp`. `Resp` and the nested
  `DisplayInfo` are internally tagged on `"kind"`, some fields are renamed,
  and several variants carry no fields. JSON is a tree here, with objects as
  association lists (`Json.Json`). `Response.EncodeResp` is total and
  `Response.DecodeResp` is partial. Decoding follows the derived
  deserialiser's rules:
  - it reads the tag, which must be present exactly once and be a string;
  - it rejects a tag that names no variant;
  - it reads exactly the chosen variant's fields, by wire name;
  - a missing field is `MissingField`;
  - a repeated field the variant reads is `DuplicateField`;
  - keys nobody reads are ignored;
  - `u32` and `i32` values are range-checked.
- **The REPL's dispatch and reload cycle** (`agda-tac/src/repl.rs`). The
  asynchronous session becomes a transcript machine. Its `Repl.State` holds:
  - the commands sent;
  - the lines appended to the module buffer;
  - the lines printed;
  - the responses the process has yet to produce, scripted in advance as a
    finite sequence.

  `line_impl`, `reload_impl`, `list_goals` and `finish` are pure functions on
  that state. They return an `Outcome` that carries the next state and a
  `Result`, whose only error is running out of scripted output. The unbounded
  "read display infos until the current goal's type" loop is a recursion on
  the remaining stream.
- **The modifier enumerations and command values** (`src/base.rs`,
  `src/cmd.rs`). Derived `Ord` is modelled as a `Rank` (declaration position)
  and a `Less` on each enumeration. The lemmas show that `Less` is a strict
  total order in declaration order. `InteractionPoint` is the subset type
  `0 <= n < 2^32`.

Modules:

| module | file |
|---|---|
| `Wrappers` | `wrappers.dfy` |
| `Base` | `base.dfy` |
| `Command` | `command.dfy` |
| `Json` | `json.dfy` |
| `Response` | `response.dfy` |
| `ResponseProperties` | `response_properties.dfy` |
| `Repl` | `repl.dfy` |
| `ReplProperties` | `repl_properties.dfy` |

`Response` dispatches by index. `RespTags` and `RespFields` list every
variant's tag and wire field names in declaration order. Encoding writes the
tag first and then the fields in that order. Decoding finds the tag's
position and reads that row's fields.

## Model

| member | source | states |
|---|---|---|
| Base.DeclarationOrderIsTotal | src/base.rs:3 | comparing declaration positions, which is what a derived `Ord` on a field-less enum does, is irreflexive, transitive and total, and it follows the declaration list |
| Base.RewriteOrder | src/base.rs:3-10 | `AsIs < Instantiated < HeadNormal < Simplified < Normalised`, and this is a strict total order |
| Base.ComputeModeOrder | src/base.rs:14-19 | `DefaultCompute < IgnoreAbstract < UseShowInstance`, a strict total order |
| Base.UseForceOrder | src/base.rs:23-29 | `UseForce` has exactly two values, ordered `WithForce < WithoutForce` |
| Base.RemoveOrder | src/base.rs:31-35 | `Remove` has exactly two values, ordered `Remove < Keep` |
| Response.AsU32 | src/base.rs:37 | an interaction point decodes exactly from an integer in `0 .. 2^32` and stands for that integer |
| Command.HighlightingLevelOrder | src/cmd.rs:4-12 | `None < NonInteractive < Interactive`, a strict total order |
| Command.HighlightingMethodOrder | src/cmd.rs:15-21 | `Direct < Indirect`, a strict total order |
| Command.NewIOTCM | src/cmd.rs:31-37 | `IOTCM::new` stores its level, method and command unchanged |
| Command.NoRange | agda-tac/src/repl.rs:23 | `GoalInput::no_range(i, code)` keeps the goal id and the code, and has no range |
| Command.Simple | agda-tac/src/repl.rs:72 | `GoalInput::simple(i)` names goal `i` with empty code |
| Command.GiveCommand | agda-tac/src/repl.rs:23 | `Cmd::give` is a give command that keeps its input and does not force |
| Command.GoalTypeCommand | agda-tac/src/repl.rs:72 | `Cmd::goal_type` is a goal-type query about its input's goal |
| Command.DeclaredVariants | src/cmd.rs:47-83 | `cmd.rs` declares exactly eleven command variants: a command is one of them exactly when its declaration position is below eleven, exactly when its name is in the declared list, and then the name at its position is its own |
| Json.Lookup | src/resp.rs:77 | looking a key up fails with `DuplicateField` exactly when the key occurs twice or more, gives nothing exactly when it is absent, and otherwise gives an entry of the object |
| Json.Required | src/resp.rs:77 | a required key succeeds exactly when it occurs once; when it is absent the error is `MissingField` |
| Json.FieldValues | src/resp.rs:77 | reading a variant's fields succeeds exactly when each occurs once, and yields each field's looked-up value in order |
| Json.LookupIgnoresOtherKey | src/resp.rs:77 | inserting an entry under another key anywhere in an object does not change a lookup |
| Json.AsUnit | src/resp.rs:28 | a unit field decodes exactly from `null` or an empty object |
| Json.AsIntIn | src/resp.rs:88 | an integer field decodes exactly when it is an integer within the target type's range |
| Response.AsI32 | src/resp.rs:86-89 | a `position` or `debugLevel` decodes exactly from an integer in the `i32` range |
| Response.AsU32s | src/resp.rs:90-93 | a `Vec<InteractionPoint>` decodes exactly from an array of in-range integers, item for item |
| Response.EncodeStatus | src/resp.rs:4-9 | a `Status` is an object whose keys are `showImplicitArguments` then `checked` |
| Response.DecodeStatus | src/resp.rs:4-9 | a `Status` decodes exactly from an object holding each camel-case key once with a boolean under it, in any order and beside any other keys, and each flag is the boolean under its key |
| Response.DecodeMakeCase | src/resp.rs:11-15 | a `MakeCase` decodes exactly from the name `"Function"` or `"ExtendedLambda"`, either as a bare string or as the only key of an object whose value is unit (`null` or an empty object), and the decoded variant is written back as that name |
| Response.EncodeMakeCase | src/resp.rs:11-15 | a `MakeCase` is written as a bare string, `"Function"` exactly for `Function` and `"ExtendedLambda"` exactly for `ExtendedLambda` |
| Response.EncodeDisplayInfo | src/resp.rs:17-19 | an encoded display info is an object whose first entry is `"kind"` with the variant name |
| Response.EncodeResp | src/resp.rs:76-78 | an encoded response is an object whose first entry is `"kind"` with the variant name |
| Response.Tag | src/resp.rs:76 | the tag is read successfully exactly when `"kind"` occurs once and holds a string |
| Response.BuildDisplayInfo | src/resp.rs:19-73 | a display info built from variant number `i`'s fields is variant number `i` |
| Response.BuildResp | src/resp.rs:78-127 | a response built from variant number `i`'s fields is variant number `i` |
| Response.DecodeInfoField | src/resp.rs:111-113 | the `info` field of a `DisplayInfo` response only ever decodes to a `DisplayInfo` response |
| Response.IndexOf | src/resp.rs:76-78 | the tag lookup finds the first position holding the tag, and finds nothing exactly when no variant has that name |
| ResponseProperties.RespTagsDistinct | src/resp.rs:78-127 | no two response variants share a tag |
| ResponseProperties.DisplayInfoTagsDistinct | src/resp.rs:19-73 | no two display-info variants share a tag |
| ResponseProperties.RespDispatch | src/resp.rs:76-78 | an object tagged with variant `i`'s name decodes to whatever variant `i`'s fields build, or to the field-reading error |
| ResponseProperties.DisplayInfoDispatch | src/resp.rs:17-19 | the same dispatch rule for display infos |
| ResponseProperties.EncodeRespKeys | src/resp.rs:76-127 | an encoded response has the keys `"kind"` and then exactly its variant's wire names, in declaration order |
| ResponseProperties.EncodeDisplayInfoKeys | src/resp.rs:17-73 | an encoded display info has the keys `"kind"` and then exactly its variant's wire names |
| ResponseProperties.RespWireNames | src/resp.rs:76-127 | a response whose variant reads the wire names `names` is written with the keys `"kind"` and then exactly `names` |
| ResponseProperties.DisplayInfoWireNames | src/resp.rs:17-73 | a display info whose variant reads the wire names `names` is written with the keys `"kind"` and then exactly `names` |
| ResponseProperties.RespFieldsDistinct | src/resp.rs:78-127 | no response variant uses a wire name twice or uses `"kind"` as a field |
| ResponseProperties.DisplayInfoFieldsDistinct | src/resp.rs:19-73 | no display-info variant uses a wire name twice or uses `"kind"` as a field |
| ResponseProperties.GoalFieldsRenamed | src/resp.rs:94-106 | `GiveAction` is written with `giveResult` and `interactionPoint`, and `MakeCase` with `variant`, `interactionPoint` and `clauses` |
| ResponseProperties.ListAndLevelRenamed | src/resp.rs:90-93 | `InteractionPoints` is written with `interactionPoints`, and `RunningInfo` with `debugLevel` and `message` |
| ResponseProperties.DisplayInfoGoalRenamed | src/resp.rs:60-72 | inside a display info the goal id of `Context` and of `GoalSpecific` is written `interactionPoint` |
| ResponseProperties.StatusWire | src/resp.rs:4-9 | a `Status` is written as `showImplicitArguments` then `checked`, and the default status has both false |
| ResponseProperties.UnitVariantsCarryOnlyKind | src/resp.rs:120-126 | `ClearRunningInfo` and `DoneAborting` are written as an object holding only the tag |
| ResponseProperties.NestedShapes | src/resp.rs:111-113 | a `DisplayInfo` response nests its own tagged object under `"info"`; `variant` holds the bare string naming the `MakeCase` value |
| ResponseProperties.TestedShapes | src/tests.rs:3-28 | the exact objects for the three values the crate's tests serialise: the default `Status`, the `MakeCase` response and the default `Status` response |
| ResponseProperties.StatusRoundTrip | src/resp.rs:4-9 | decoding an encoded `Status` gives it back |
| ResponseProperties.MakeCaseRoundTrip | src/resp.rs:11-15 | decoding an encoded `MakeCase` gives it back |
| ResponseProperties.U32sRoundTrip | src/resp.rs:90-93 | decoding an encoded list of interaction points gives it back |
| ResponseProperties.StringsRoundTrip | src/resp.rs:105 | decoding an encoded list of clauses gives it back |
| ResponseProperties.DisplayInfoRoundTrip | src/resp.rs:17-73 | decoding an encoded display info gives it back, for every variant |
| ResponseProperties.RespRoundTrip | src/resp.rs:76-127 | decoding an encoded response gives it back, for every variant |
| ResponseProperties.DecodedRespMatchesTag | src/resp.rs:76-78 | a decoded response is always the variant the object's `"kind"` names |
| ResponseProperties.DecodedDisplayInfoMatchesTag | src/resp.rs:17-19 | a decoded display info is always the variant the object's `"kind"` names |
| ResponseProperties.UnknownRespTagRejected | src/resp.rs:76-127 | a `"kind"` naming no response variant is rejected with that name, whatever else the object holds |
| ResponseProperties.UnknownDisplayInfoTagRejected | src/resp.rs:17-73 | a `"kind"` naming no display-info variant is rejected with that name |
| ResponseProperties.BadTagRejected | src/resp.rs:76 | a missing tag gives `MissingField("kind")`, a repeated one gives `DuplicateField("kind")` (the model's error choice, see "Left out"), and a tag that is not a string fails too |
| ResponseProperties.GoalIdOutOfRangeRejected | src/resp.rs:94-99 | a `GiveAction` whose `interactionPoint` lies outside the `u32` range does not decode |
| ResponseProperties.FieldlessRespDecodes | src/resp.rs:107-126 | any object tagged with a field-less response variant (`SolveAll`, `ClearRunningInfo`, `ClearHighlighting`, `DoneAborting`) decodes to that variant, whatever other keys it has |
| ResponseProperties.FieldlessDisplayInfoDecodes | src/resp.rs:24-59 | any object tagged with a field-less display-info variant decodes to that variant |
| ResponseProperties.NestedDisplayInfoDecodes | src/resp.rs:111-113 | a `DisplayInfo` response decodes exactly when its `"info"` decodes as a display info, and wraps that display info |
| ResponseProperties.ConstraintsDecodes | src/resp.rs:24-26 | `{"kind":"Constraints"}` decodes to `Constraints` |
| ResponseProperties.EmptyGoalsDecodes | src/resp.rs:27-31 | an `AllGoalsWarnings` object whose `goals` is an empty object decodes, keeping its warnings and errors |
| ResponseProperties.NestedConstraintsDecodes | src/resp.rs:111-113 | `{"kind":"DisplayInfo","info":{"kind":"Constraints"}}` decodes to `DisplayInfo(Constraints)` |
| ResponseProperties.UnknownRespFieldIgnored | src/resp.rs:76-127 | inserting an entry under a key the tagged variant does not read leaves the decoded response (or the error) unchanged |
| ResponseProperties.UnknownDisplayInfoFieldIgnored | src/resp.rs:17-73 | the same for display infos |
| Repl.Send | agda-tac/src/repl.rs:24 | sending a command appends it to the commands sent and changes nothing else |
| Repl.Print | agda-tac/src/repl.rs:51 | printing a line appends it to the output and changes nothing else |
| Repl.FirstWanted | agda-tac/src/repl.rs:73-81 | the position found is the first wanted item on the stream; nothing is found exactly when no item is wanted |
| Repl.NextGoals | agda-tac/src/repl.rs:49 | `next_goals` succeeds exactly when a goals outcome is still to come; it returns the first one and consumes the stream up to it, or all of it |
| Repl.NextDisplayInfo | agda-tac/src/repl.rs:77 | `next_display_info` succeeds exactly when a display info is still to come; it returns the first one and consumes the stream up to it, or all of it |
| Repl.AwaitCurrentGoalSpec | agda-tac/src/repl.rs:73-81 | the wait for a goal's type succeeds exactly when a `GoalSpecific` display info with a `CurrentGoal` is still to come; it returns the first one's type and consumes the stream exactly up to it, or all of it |
| Repl.NoCurrentGoalBefore | agda-tac/src/repl.rs:73-81 | the first current-goal answer is the first display info or comes after it, never before it |
| Repl.ListGoals | agda-tac/src/repl.rs:70-85 | listing goals keeps the file, style, buffer and shutdown record, and only appends to the commands sent |
| Repl.ReloadImpl | agda-tac/src/repl.rs:47-63 | a reload sends the load of the current file first, and keeps the buffer and the shutdown record |
| Repl.Finish | agda-tac/src/repl.rs:65-68 | `finish` sends `Abort` and succeeds; the shutdown is recorded after that command, so `Abort` is the last command the process receives before it is shut down |
| Repl.LineImpl | agda-tac/src/repl.rs:14-41 | an input stops the loop only if it is `Exit` |
| Repl.GoalLine | agda-tac/src/repl.rs:82 | a goal line goes to standard output, starts with `?` and ends with the type |
| Repl.GoalLineFormat | agda-tac/src/repl.rs:82 | a goal line is `?`, then decimal digits that read back as the goal id and have no leading zero, then `: `, then the type |
| Repl.DecimalRoundTrip | agda-tac/src/repl.rs:82 | the decimal digits printed for a goal id read back as that id and have no leading zero |
| ReplProperties.GoalLineExamples | agda-tac/src/repl.rs:82 | goal 5 of type `Nat` prints `?5: Nat`, and goal 10 of type `Set` prints `?10: Set` |
| ReplProperties.CurrentGoalTypesFirst | agda-tac/src/repl.rs:73-81 | the first current-goal answer heads the list of announced types; with none, the list is empty |
| ReplProperties.SkipsUntilCurrentGoal | agda-tac/src/repl.rs:73-81 | chatter and display infos that are not current-goal answers are skipped; the first answer's type is returned and the stream is consumed exactly up to it |
| ReplProperties.ListGoalsStep | agda-tac/src/repl.rs:71-83 | one round of `list_goals` sends the head goal's query, waits for its type, prints its line and continues with the rest |
| ReplProperties.ListGoalsSucceeds | agda-tac/src/repl.rs:70-85 | `list_goals` succeeds exactly when the stream announces a type for every goal; otherwise it consumes the whole stream |
| ReplProperties.ListGoalsQueries | agda-tac/src/repl.rs:71-72 | `list_goals` sends one goal-type query per goal, in the given order, up to and including the first goal left unanswered |
| ReplProperties.ListGoalsLines | agda-tac/src/repl.rs:71-83 | `list_goals` prints one `?id: type` line per answered goal, pairing goals and announced types in order |
| ReplProperties.ReloadOnError | agda-tac/src/repl.rs:57-60 | when the load reports errors, the reload prints `Errors:` then the message on standard error, sends only the load, and succeeds |
| ReplProperties.ReloadWithNoGoals | agda-tac/src/repl.rs:50-55 | when the load finds no goals, the reload prints `Goals:` then `No goals.`, sends only the load, and succeeds |
| ReplProperties.ReloadWithGoals | agda-tac/src/repl.rs:47-63 | when every goal's type is announced, the reload sends the load and then one query per goal, and prints `Goals:` followed by the goal lines in order |
| ReplProperties.ReloadAtEndOfStream | agda-tac/src/repl.rs:48-49 | without a goals outcome to come, the reload fails after sending the load and prints nothing |
| ReplProperties.TwoGoalsExample | agda-tac/src/repl.rs:70-83 | goals `[5, 9]`, with chatter and an unrelated answer for 9 in between, give the load and the queries for 5 and then 9, and print `Goals:`, `?5: Nat` and `?9: Nat -> Nat` |
| ReplProperties.TwoGoalsAnswers | agda-tac/src/repl.rs:73-81 | in the example stream the goals outcome is the second item, and exactly the types `Nat` and `Nat -> Nat` are announced after it |
| ReplProperties.DefineAppendsThenReloads | agda-tac/src/repl.rs:17-21 | `Define(name)` appends `name : ?` then `name = ?` to the buffer and then performs exactly one reload |
| ReplProperties.GiveSendsThenReloads | agda-tac/src/repl.rs:22-27 | `Give(i, code)` sends one give command for goal `i` with that code, without force and with no range, and then the reload's load; the buffer is unchanged |
| ReplProperties.QuietInputs | agda-tac/src/repl.rs:29-34 | `Help` and `Unknown` print their one line, send nothing, read nothing, and return `false` |
| ReplProperties.ExitAbortsThenShutsDown | agda-tac/src/repl.rs:35-38 | `Exit` sends `Abort`, then shuts the process down once `Abort` has been sent, prints nothing, and returns `true` |
| ReplProperties.StopsExactlyOnExit | agda-tac/src/repl.rs:35-40 | an input returns `true` exactly when it is `Exit` |
| ReplProperties.OnlyExitShutsDown | agda-tac/src/repl.rs:14-41 | no input other than `Exit` shuts the process down or changes when it was shut down |

## Left out

- `agda-tac/src/main.rs` is not part of this model. It covers argument handling, starting the process, creating the file and the global debug switches.
- The asynchronous runtime, the pipes and the external process are left out. The process's output is a scripted sequence of replies fixed in advance, so the model does not describe concurrency or timing.
- Serde's own machinery is left out:
  - JSON text: escaping, number syntax and parsing;
  - the sequence form of structs and tagged enums;
  - the numeric variant index;
  - which error it reports first when an object has several problems.

  Serde reports problems in the order it meets them while walking the object. The model checks in a fixed order instead:
  - first the tag, where a repeated `"kind"` is always `DuplicateField("kind")`, even when serde would meet an unknown first tag before the repeat;
  - then a missing or repeated field, in field declaration order;
  - then a value of the wrong type or out of range, in field declaration order.

  So an object with more than one problem can be rejected with a different error than serde's. Whether it is rejected at all is the same.
- Repl.NextGoals and Repl.NextDisplayInfo: the scripted stream says once, for each response, which reader takes it. A `Chatter` item can hold neither a display info nor a list of interaction points, because `Goals` and `Display` stand for those. How the session turns a raw response into a goals outcome is part of `ReplState` and is not part of this model.
- The textual command encoder (`IOTCM … (Cmd_load …)`) and its strings are not part of this model.
- `ReplState` is not part of this model, except through the operations `repl.rs` calls:
  - `reload_file` is `Send(Load(file, []))`;
  - `command` is `Send`;
  - `next_goals` and `next_display_info` read the scripted stream;
  - `shutdown` records how many commands had been sent;
  - `append_line` appends to the buffer.

  Decoding failures inside the session, write failures and shutdown failures are not modelled. Running out of scripted output stands for every failure of the session.
- The user-input parser `UserInput::from` and the help text's contents are left out. The model starts from the parsed input, and the help screen is one printed item that records the `plain` style.
- `Cmd::give`, `Cmd::goal_type`, `Cmd::Abort`, `GoalInput::no_range`, `GoalInput::simple` and `GoalInfo::CurrentGoal` are not declared in the `cmd.rs` and `resp.rs` modelled here. They come from their use in `agda-tac/src/repl.rs` at lines 23, 66, 72 and 75. Three of their details are assumptions:
  - `goal_type` uses the `Instantiated` normalisation;
  - `give` does not force;
  - `simple` carries empty code.
- `GoalSpecific` in `resp.rs` carries only its goal id, yet `repl.rs` matches a `goal_info` inside it. The goal information is therefore kept beside the display info in the scripted reply (`Repl.Reply.Display`), not on the wire.
- `ComputeToplevel`'s field is `rewrite` in the source but has type `ComputeMode`. It is called `computeMode` here, because Dafny needs one type per field name.
- `AllGoalsWarnings`' `goals` field has type `()`. It is written as `null`, and read from `null` or from an empty object, as a unit value in buffered content is.
- Response.DecodeResp and Response.DecodeDisplayInfo carry no contract of their own. What they do is stated by the `ResponseProperties` lemmas.
- ReplProperties.ReloadWithGoals and ReplProperties.TwoGoalsExample state that the result is `Ok`. For a unit result this is the same as `Ok(())`.
