/**
 * The response schema of `src/resp.rs` and its JSON form.
 *
 * `Resp` and `DisplayInfo` are internally tagged: each is one object whose
 * `"kind"` entry names the variant, followed by the variant's fields under
 * their wire names. `Status` is a plain object with camel-case keys and
 * `MakeCase` is written as the bare variant name. Decoding dispatches on the
 * tag, reads the variant's fields by wire name, ignores keys it does not
 * know and rejects a tag that names no variant.
 */
module Response {
  import opened Wrappers
  import opened Base
  import opened Json

  /** A snapshot of the checker's status; `Default` has both flags off. */
  datatype Status = Status(showImplicitArguments: bool, checked: bool)

  const DefaultStatus: Status := Status.Status(false, false)

  datatype MakeCase = Function | ExtendedLambda

  /** Rich informational payloads; the variants without fields are not decoded further yet. */
  datatype DisplayInfo =
    | CompilationOk(warnings: string, errors: string)
    | Constraints
    | AllGoalsWarnings(warnings: string, errors: string)
    | Time(time: string)
    | IntroNotFound
    | IntroConstructorUnknown
    | Auto(info: string)
    | ModuleContents
    | SearchAbout(search: string)
    | WhyInScope
    | NormalForm
    | InferredType
    | Context(interactionPoint: InteractionPoint)
    | Version(version: string)
    | GoalSpecific(interactionPoint: InteractionPoint)

  /** The responses the client understands. */
  datatype Resp =
    | HighlightingInfo(filepath: string, direct: bool)
    | Status(status: Status)
    | JumpToError(filepath: string, position: Int32)
    | InteractionPoints(interactionPoints: seq<InteractionPoint>)
    | GiveAction(giveResult: bool, interactionPoint: InteractionPoint)
    | MakeCase(variant: MakeCase, interactionPoint: InteractionPoint, clauses: seq<string>)
    | SolveAll
    | DisplayInfo(info: DisplayInfo)
    | RunningInfo(debugLevel: Int32, message: string)
    | ClearRunningInfo
    | ClearHighlighting
    | DoneAborting

  /**
   * What a goal-specific display info says about the goal. Only
   * `CurrentGoal` is used (agda-tac/src/repl.rs:75); the shown schema gives
   * `GoalSpecific` no such field, so it has no wire form here.
   */
  datatype GoalInfo = CurrentGoal(theType: string) | OtherGoalInfo

  const U32Limit: int := 0x1_0000_0000
  const I32Min: int := -0x8000_0000
  const I32Limit: int := 0x8000_0000

  // ---------------------------------------------------------------------
  // Variant names and wire field names
  // ---------------------------------------------------------------------

  /** The tag values, in declaration order. */
  const RespTags: seq<string> := [
    "HighlightingInfo", "Status", "JumpToError", "InteractionPoints", "GiveAction", "MakeCase",
    "SolveAll", "DisplayInfo", "RunningInfo", "ClearRunningInfo", "ClearHighlighting", "DoneAborting"
  ]

  /** Wire names of each response variant's fields, in declaration order, renames applied. */
  const RespFields: seq<seq<string>> := [
    ["filepath", "direct"], ["status"], ["filepath", "position"], ["interactionPoints"],
    ["giveResult", "interactionPoint"], ["variant", "interactionPoint", "clauses"],
    [], ["info"], ["debugLevel", "message"], [], [], []
  ]

  const DisplayInfoTags: seq<string> := [
    "CompilationOk", "Constraints", "AllGoalsWarnings", "Time", "IntroNotFound",
    "IntroConstructorUnknown", "Auto", "ModuleContents", "SearchAbout", "WhyInScope",
    "NormalForm", "InferredType", "Context", "Version", "GoalSpecific"
  ]

  const DisplayInfoFields: seq<seq<string>> := [
    ["warnings", "errors"], [], ["goals", "warnings", "errors"], ["time"], [],
    [], ["info"], [], ["search"], [],
    [], [], ["interactionPoint"], ["version"], ["interactionPoint"]
  ]

  /** `Status` renames every field to camel case. */
  const StatusFields: seq<string> := ["showImplicitArguments", "checked"]

  /** Declaration position of a response variant. */
  function RespIndex(r: Resp): (i: nat)
    ensures i < |RespTags| == |RespFields|
  {
    match r
    case HighlightingInfo(_, _) => 0
    case Status(_) => 1
    case JumpToError(_, _) => 2
    case InteractionPoints(_) => 3
    case GiveAction(_, _) => 4
    case MakeCase(_, _, _) => 5
    case SolveAll => 6
    case DisplayInfo(_) => 7
    case RunningInfo(_, _) => 8
    case ClearRunningInfo => 9
    case ClearHighlighting => 10
    case DoneAborting => 11
  }

  function DisplayInfoIndex(d: DisplayInfo): (i: nat)
    ensures i < |DisplayInfoTags| == |DisplayInfoFields|
  {
    match d
    case CompilationOk(_, _) => 0
    case Constraints => 1
    case AllGoalsWarnings(_, _) => 2
    case Time(_) => 3
    case IntroNotFound => 4
    case IntroConstructorUnknown => 5
    case Auto(_) => 6
    case ModuleContents => 7
    case SearchAbout(_) => 8
    case WhyInScope => 9
    case NormalForm => 10
    case InferredType => 11
    case Context(_) => 12
    case Version(_) => 13
    case GoalSpecific(_) => 14
  }

  /** The tag value of a response: its variant's name. */
  function RespTag(r: Resp): string {
    RespTags[RespIndex(r)]
  }

  function DisplayInfoTag(d: DisplayInfo): string {
    DisplayInfoTags[DisplayInfoIndex(d)]
  }

  /** Position of the first occurrence of `x` in `xs`. */
  function IndexOf<T(==)>(xs: seq<T>, x: T): (r: Option<nat>)
    ensures r.Some? ==> r.value < |xs| && xs[r.value] == x && forall k :: 0 <= k < r.value ==> xs[k] != x
    ensures r.None? <==> x !in xs
  {
    if xs == [] then None
    else if xs[0] == x then Some(0)
    else match IndexOf(xs[1..], x)
      case None => None
      case Some(k) => Some(k + 1)
  }

  // ---------------------------------------------------------------------
  // Encoding (total)
  // ---------------------------------------------------------------------

  function EncodeStatus(st: Status): (j: Json)
    ensures j.Obj? && Keys(j.fields) == StatusFields
  {
    Obj(Entries(StatusFields, [Bool(st.showImplicitArguments), Bool(st.checked)]))
  }

  /** A unit-only enum without a tag attribute is written as its variant name. */
  function EncodeMakeCase(m: MakeCase): (j: Json)
    ensures j.Str? && (j.s == "Function" <==> m == Function) && (j.s == "ExtendedLambda" <==> m == ExtendedLambda)
  {
    match m
    case Function => Str("Function")
    case ExtendedLambda => Str("ExtendedLambda")
  }

  function EncodeInts(ns: seq<int>): (j: Json)
    ensures j.Arr? && |j.items| == |ns| && forall k :: 0 <= k < |ns| ==> j.items[k] == Int(ns[k])
  {
    Arr(seq(|ns|, k requires 0 <= k < |ns| => Int(ns[k])))
  }

  function EncodeStrings(ss: seq<string>): (j: Json)
    ensures j.Arr? && |j.items| == |ss| && forall k :: 0 <= k < |ss| ==> j.items[k] == Str(ss[k])
  {
    Arr(seq(|ss|, k requires 0 <= k < |ss| => Str(ss[k])))
  }

  /** The field values of a display info, one per wire name of its variant. */
  function DisplayInfoValues(d: DisplayInfo): (vs: seq<Json>)
    ensures |vs| == |DisplayInfoFields[DisplayInfoIndex(d)]|
  {
    match d
    case CompilationOk(w, e) => [Str(w), Str(e)]
    case AllGoalsWarnings(w, e) => [Null, Str(w), Str(e)]
    case Time(t) => [Str(t)]
    case Auto(i) => [Str(i)]
    case SearchAbout(s) => [Str(s)]
    case Context(ip) => [Int(ip)]
    case Version(v) => [Str(v)]
    case GoalSpecific(ip) => [Int(ip)]
    case _ => []
  }

  /** The object for a display info: its tag first, then its fields under their wire names. */
  function EncodeDisplayInfo(d: DisplayInfo): (j: Json)
    ensures j.Obj? && |j.fields| >= 1 && j.fields[0] == ("kind", Str(DisplayInfoTag(d)))
  {
    var i := DisplayInfoIndex(d);
    Obj([("kind", Str(DisplayInfoTags[i]))] + Entries(DisplayInfoFields[i], DisplayInfoValues(d)))
  }

  /** The field values of a response, one per wire name of its variant. */
  function RespValues(r: Resp): (vs: seq<Json>)
    ensures |vs| == |RespFields[RespIndex(r)]|
  {
    match r
    case HighlightingInfo(f, d) => [Str(f), Bool(d)]
    case Status(st) => [EncodeStatus(st)]
    case JumpToError(f, p) => [Str(f), Int(p)]
    case InteractionPoints(ips) => [EncodeInts(ips)]
    case GiveAction(g, ip) => [Bool(g), Int(ip)]
    case MakeCase(v, ip, cs) => [EncodeMakeCase(v), Int(ip), EncodeStrings(cs)]
    case DisplayInfo(d) => [EncodeDisplayInfo(d)]
    case RunningInfo(l, m) => [Int(l), Str(m)]
    case _ => []
  }

  /** The object for a response: its tag first, then its fields under their wire names. */
  function EncodeResp(r: Resp): (j: Json)
    ensures j.Obj? && |j.fields| >= 1 && j.fields[0] == ("kind", Str(RespTag(r)))
  {
    var i := RespIndex(r);
    Obj([("kind", Str(RespTags[i]))] + Entries(RespFields[i], RespValues(r)))
  }

  // ---------------------------------------------------------------------
  // Decoding (partial)
  // ---------------------------------------------------------------------

  function AsU32(j: Json): (r: Result<InteractionPoint, DecodeError>)
    ensures r.Ok? <==> j.Int? && 0 <= j.n < U32Limit
    ensures r.Ok? ==> j == Int(r.value)
  {
    var n :- AsIntIn(j, 0, U32Limit);
    Ok(n as InteractionPoint)
  }

  function AsI32(j: Json): (r: Result<Int32, DecodeError>)
    ensures r.Ok? <==> j.Int? && I32Min <= j.n < I32Limit
    ensures r.Ok? ==> j == Int(r.value)
  {
    var n :- AsIntIn(j, I32Min, I32Limit);
    Ok(n as Int32)
  }

  /** A `Vec<u32>`: an array whose items are all in range. */
  function AsU32s(j: Json): (r: Result<seq<InteractionPoint>, DecodeError>)
    ensures r.Ok? <==> j.Arr? && forall k :: 0 <= k < |j.items| ==> j.items[k].Int? && 0 <= j.items[k].n < U32Limit
    ensures r.Ok? ==> |r.value| == |j.items| && forall k :: 0 <= k < |j.items| ==> j.items[k] == Int(r.value[k])
  {
    var ns :- AsInts(j, 0, U32Limit);
    Ok(seq(|ns|, k requires 0 <= k < |ns| => ns[k] as InteractionPoint))
  }

  /** The tag of an internally tagged object: present once and a string. */
  function Tag(fields: seq<(string, Json)>): (r: Result<string, DecodeError>)
    ensures r.Ok? <==> Count(fields, "kind") == 1 && First(fields, "kind").Str?
    ensures r.Ok? ==> Lookup(fields, "kind") == Ok(Some(Str(r.value)))
  {
    var j :- Required(fields, "kind");
    AsString(j)
  }

  /**
   * A `Status` is read from any object holding each camel-case key once,
   * with a boolean under it, in any order and beside any other keys.
   */
  function DecodeStatus(j: Json): (r: Result<Status, DecodeError>)
    ensures r.Ok? <==>
      && j.Obj?
      && Count(j.fields, "showImplicitArguments") == 1 && Count(j.fields, "checked") == 1
      && First(j.fields, "showImplicitArguments").Bool? && First(j.fields, "checked").Bool?
    ensures r.Ok? ==> j.Obj? && Lookup(j.fields, "showImplicitArguments") == Ok(Some(Bool(r.value.showImplicitArguments)))
    ensures r.Ok? ==> Lookup(j.fields, "checked") == Ok(Some(Bool(r.value.checked)))
  {
    if !j.Obj? then Err(NotAnObject)
    else
      var vs :- FieldValues(j.fields, StatusFields);
      var show :- AsBool(vs[0]);
      var checked :- AsBool(vs[1]);
      Ok(Status.Status(show, checked))
  }

  /** The variant a name denotes, if any. */
  function MakeCaseNamed(name: string): (r: Result<MakeCase, DecodeError>)
    ensures r.Ok? <==> name == "Function" || name == "ExtendedLambda"
    ensures r.Ok? ==> EncodeMakeCase(r.value) == Str(name)
  {
    if name == "Function" then Ok(Function)
    else if name == "ExtendedLambda" then Ok(ExtendedLambda)
    else Err(UnknownVariant(name))
  }

  /**
   * Accepts a variant name, either bare or as the only key of an object
   * whose value is unit: a unit variant read from buffered content takes
   * both forms.
   */
  function DecodeMakeCase(j: Json): (r: Result<MakeCase, DecodeError>)
    ensures r.Ok? <==>
      || j == Str("Function") || j == Str("ExtendedLambda")
      || (j.Obj? && |j.fields| == 1 && (j.fields[0].0 == "Function" || j.fields[0].0 == "ExtendedLambda")
          && (j.fields[0].1 == Null || j.fields[0].1 == Obj([])))
    ensures r.Ok? && j.Str? ==> EncodeMakeCase(r.value) == j
    ensures r.Ok? && j.Obj? ==> EncodeMakeCase(r.value) == Str(j.fields[0].0)
  {
    match j
    case Str(name) => MakeCaseNamed(name)
    case Obj(fields) =>
      if |fields| != 1 then Err(InvalidType("a map with a single key"))
      else
        var _ :- AsUnit(fields[0].1);
        MakeCaseNamed(fields[0].0)
    case _ => Err(InvalidType("a variant name"))
  }

  /** Builds display-info variant number `i` from its field values, checking each value's type. */
  function BuildDisplayInfo(i: nat, vs: seq<Json>): (r: Result<DisplayInfo, DecodeError>)
    requires i < |DisplayInfoFields| && |vs| == |DisplayInfoFields[i]|
    ensures r.Ok? ==> DisplayInfoIndex(r.value) == i
  {
    match i
    case 0 =>
      var w :- AsString(vs[0]);
      var e :- AsString(vs[1]);
      Ok(CompilationOk(w, e))
    case 1 => Ok(Constraints)
    case 2 =>
      var _ :- AsUnit(vs[0]);
      var w :- AsString(vs[1]);
      var e :- AsString(vs[2]);
      Ok(AllGoalsWarnings(w, e))
    case 3 =>
      var t :- AsString(vs[0]);
      Ok(Time(t))
    case 4 => Ok(IntroNotFound)
    case 5 => Ok(IntroConstructorUnknown)
    case 6 =>
      var info :- AsString(vs[0]);
      Ok(Auto(info))
    case 7 => Ok(ModuleContents)
    case 8 =>
      var s :- AsString(vs[0]);
      Ok(SearchAbout(s))
    case 9 => Ok(WhyInScope)
    case 10 => Ok(NormalForm)
    case 11 => Ok(InferredType)
    case 12 =>
      var ip :- AsU32(vs[0]);
      Ok(Context(ip))
    case 13 =>
      var v :- AsString(vs[0]);
      Ok(Version(v))
    case 14 =>
      var ip :- AsU32(vs[0]);
      Ok(GoalSpecific(ip))
  }

  /**
   * A display-info object: read the tag, reject it unless it names a
   * variant, then read that variant's fields by wire name.
   */
  function DecodeDisplayInfo(j: Json): Result<DisplayInfo, DecodeError> {
    if !j.Obj? then Err(NotAnObject)
    else
      var tag :- Tag(j.fields);
      match IndexOf(DisplayInfoTags, tag)
      case None => Err(UnknownVariant(tag))
      case Some(i) =>
        var vs :- FieldValues(j.fields, DisplayInfoFields[i]);
        BuildDisplayInfo(i, vs)
  }

  /** The `info` field of a `DisplayInfo` response holds a tagged display info of its own. */
  function DecodeInfoField(j: Json): (r: Result<Resp, DecodeError>)
    ensures r.Ok? ==> r.value.DisplayInfo?
  {
    var d :- DecodeDisplayInfo(j);
    Ok(Resp.DisplayInfo(d))
  }

  /** Builds response variant number `i` from its field values, checking each value's type. */
  function BuildResp(i: nat, vs: seq<Json>): (r: Result<Resp, DecodeError>)
    requires i < |RespFields| && |vs| == |RespFields[i]|
    ensures r.Ok? ==> RespIndex(r.value) == i
  {
    match i
    case 0 =>
      var f :- AsString(vs[0]);
      var d :- AsBool(vs[1]);
      Ok(HighlightingInfo(f, d))
    case 1 =>
      var st :- DecodeStatus(vs[0]);
      Ok(Resp.Status(st))
    case 2 =>
      var f :- AsString(vs[0]);
      var p :- AsI32(vs[1]);
      Ok(JumpToError(f, p))
    case 3 =>
      var ips :- AsU32s(vs[0]);
      Ok(InteractionPoints(ips))
    case 4 =>
      var g :- AsBool(vs[0]);
      var ip :- AsU32(vs[1]);
      Ok(GiveAction(g, ip))
    case 5 =>
      var v :- DecodeMakeCase(vs[0]);
      var ip :- AsU32(vs[1]);
      var cs :- AsStrings(vs[2]);
      Ok(Resp.MakeCase(v, ip, cs))
    case 6 => Ok(SolveAll)
    case 7 => DecodeInfoField(vs[0])
    case 8 =>
      var l :- AsI32(vs[0]);
      var m :- AsString(vs[1]);
      Ok(RunningInfo(l, m))
    case 9 => Ok(ClearRunningInfo)
    case 10 => Ok(ClearHighlighting)
    case 11 => Ok(DoneAborting)
  }

  /**
   * One response line, already parsed into a JSON tree: read the tag,
   * reject it unless it names a variant, then read that variant's fields by
   * wire name. Keys no variant field asks for are never looked at.
   */
  function DecodeResp(j: Json): Result<Resp, DecodeError> {
    if !j.Obj? then Err(NotAnObject)
    else
      var tag :- Tag(j.fields);
      match IndexOf(RespTags, tag)
      case None => Err(UnknownVariant(tag))
      case Some(i) =>
        var vs :- FieldValues(j.fields, RespFields[i]);
        BuildResp(i, vs)
  }
}
