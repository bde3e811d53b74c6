/**
 * The command value types of `src/cmd.rs`: highlighting preferences, the
 * `IOTCM` envelope, goal inputs and the closed `Cmd` union.
 *
 * `Give`, `GoalType` and `Abort`, and the smart constructors `GiveCommand`,
 * `GoalTypeCommand`, `NoRange` and `Simple`, are not declared in cmd.rs; they
 * are added because agda-tac/src/repl.rs uses them (lines 23, 66, 72).
 */
module Command {
  import opened Base

  /** How much highlighting the external process sends back. */
  datatype HighlightingLevel = None | NonInteractive | Interactive {
    function Rank(): (k: nat)
      ensures k < |HighlightingLevels| && HighlightingLevels[k] == this
    {
      match this
      case None => 0
      case NonInteractive => 1
      case Interactive => 2
    }

    predicate Less(other: HighlightingLevel) {
      Rank() < other.Rank()
    }
  }

  const HighlightingLevels: seq<HighlightingLevel> := [None, NonInteractive, Interactive]

  /** How highlighting is delivered: on stdout only, or also via files. */
  datatype HighlightingMethod = Direct | Indirect {
    function Rank(): (k: nat)
      ensures k < |HighlightingMethods| && HighlightingMethods[k] == this
    {
      match this
      case Direct => 0
      case Indirect => 1
    }

    predicate Less(other: HighlightingMethod) {
      Rank() < other.Rank()
    }
  }

  const HighlightingMethods: seq<HighlightingMethod> := [Direct, Indirect]

  /** A pending edit or query at one goal; the range is not modelled by the source yet. */
  datatype GoalInput = GoalInput(id: InteractionPoint, code: string)

  /**
   * The request vocabulary. `ComputeToplevel`'s field is called `rewrite` in
   * the source although its type is `ComputeMode`; Dafny needs one type per
   * field name, so it is `computeMode` here.
   */
  datatype Cmd =
    | Load(path: string, flags: seq<string>)
    | Compile(backend: string, path: string, flags: seq<string>)
    | Constraints
    | Metas
    | ShowModuleContentsToplevel(rewrite: Rewrite, search: string)
    | SolveAll(rewrite: Rewrite)
    | SolveOne(rewrite: Rewrite, input: GoalInput)
    | AutoOne(input: GoalInput)
    | AutoAll
    | InferToplevel(rewrite: Rewrite, code: string)
    | ComputeToplevel(computeMode: ComputeMode, code: string)
    | Give(force: UseForce, input: GoalInput)
    | GoalType(rewrite: Rewrite, input: GoalInput)
    | Abort
  {
    /** Position in the declaration list above. */
    function Rank(): nat {
      match this
      case Load(_, _) => 0
      case Compile(_, _, _) => 1
      case Constraints => 2
      case Metas => 3
      case ShowModuleContentsToplevel(_, _) => 4
      case SolveAll(_) => 5
      case SolveOne(_, _) => 6
      case AutoOne(_) => 7
      case AutoAll => 8
      case InferToplevel(_, _) => 9
      case ComputeToplevel(_, _) => 10
      case Give(_, _) => 11
      case GoalType(_, _) => 12
      case Abort => 13
    }

    /** The variant's name. */
    function Name(): string {
      match this
      case Load(_, _) => "Load"
      case Compile(_, _, _) => "Compile"
      case Constraints => "Constraints"
      case Metas => "Metas"
      case ShowModuleContentsToplevel(_, _) => "ShowModuleContentsToplevel"
      case SolveAll(_) => "SolveAll"
      case SolveOne(_, _) => "SolveOne"
      case AutoOne(_) => "AutoOne"
      case AutoAll => "AutoAll"
      case InferToplevel(_, _) => "InferToplevel"
      case ComputeToplevel(_, _) => "ComputeToplevel"
      case Give(_, _) => "Give"
      case GoalType(_, _) => "GoalType"
      case Abort => "Abort"
    }
  }

  /** The variants `cmd.rs` declares, in declaration order. */
  const DeclaredCmdNames: seq<string> := [
    "Load", "Compile", "Constraints", "Metas", "ShowModuleContentsToplevel", "SolveAll",
    "SolveOne", "AutoOne", "AutoAll", "InferToplevel", "ComputeToplevel"]

  /** The eleven variants declared in cmd.rs, as opposed to those only used by the REPL. */
  predicate DeclaredInCmd(c: Cmd) {
    !(c.Give? || c.GoalType? || c.Abort?)
  }

  /** The envelope written to the external process, one per line. */
  datatype IOTCM = IOTCM(level: HighlightingLevel, highlightingMethod: HighlightingMethod, command: Cmd)

  /** `IOTCM::new` keeps its three arguments unchanged. */
  function NewIOTCM(level: HighlightingLevel, highlightingMethod: HighlightingMethod, command: Cmd): (t: IOTCM)
    ensures t.level == level && t.highlightingMethod == highlightingMethod && t.command == command
  {
    IOTCM(level, highlightingMethod, command)
  }

  /** `GoalInput::no_range`: code typed outside the goal's own extent. */
  function NoRange(id: InteractionPoint, code: string): (g: GoalInput)
    ensures g.id == id && g.code == code
  {
    GoalInput(id, code)
  }

  /** `GoalInput::simple`: a query about a goal that carries no code. */
  function Simple(id: InteractionPoint): (g: GoalInput)
    ensures g.id == id && g.code == ""
  {
    GoalInput(id, "")
  }

  /** `Cmd::give` gives without forcing, so safety checks stay on. */
  function GiveCommand(input: GoalInput): (c: Cmd)
    ensures c.Give? && c.input == input && c.force == WithoutForce
  {
    Give(WithoutForce, input)
  }

  /** Normalisation used by goal queries when the caller does not choose one. */
  const GoalQueryRewrite: Rewrite := Instantiated

  /** `Cmd::goal_type` asks for the type of the goal `input.id`. */
  function GoalTypeCommand(input: GoalInput): (c: Cmd)
    ensures c.GoalType? && c.input == input && c.rewrite == GoalQueryRewrite
  {
    GoalType(GoalQueryRewrite, input)
  }

  lemma HighlightingLevelOrder()
    ensures None.Less(NonInteractive) && NonInteractive.Less(Interactive)
    ensures IsStrictTotalOrder((a: HighlightingLevel, b: HighlightingLevel) => a.Less(b))
  {
    DeclarationOrderIsTotal(HighlightingLevels, (l: HighlightingLevel) => l.Rank());
  }

  lemma HighlightingMethodOrder()
    ensures Direct.Less(Indirect)
    ensures IsStrictTotalOrder((a: HighlightingMethod, b: HighlightingMethod) => a.Less(b))
  {
    DeclarationOrderIsTotal(HighlightingMethods, (m: HighlightingMethod) => m.Rank());
  }

  /**
   * `cmd.rs` declares a closed set of eleven variants: a command is one of
   * them exactly when it sits among the first eleven positions, and then
   * its name is the one declared at that position.
   */
  lemma DeclaredVariants(c: Cmd)
    ensures |DeclaredCmdNames| == 11
    ensures DeclaredInCmd(c) <==> c.Rank() < |DeclaredCmdNames|
    ensures DeclaredInCmd(c) ==> DeclaredCmdNames[c.Rank()] == c.Name()
    ensures DeclaredInCmd(c) <==> c.Name() in DeclaredCmdNames
  {
  }
}
