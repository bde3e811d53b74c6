/**
 * The interactive loop of `agda-tac/src/repl.rs` as a transcript machine.
 *
 * The asynchronous session with the external process is replaced by a
 * record of what the loop did: the commands it sent, the lines it appended
 * to the module buffer, the lines it printed, and the responses still
 * waiting on the process's output, scripted in advance as a finite
 * sequence. Reading past the end of that sequence is the one way a
 * session operation fails; the failure propagates exactly where the source
 * uses `?`.
 */
module Repl {
  import opened Wrappers
  import opened Base
  import opened Command
  import opened Response

  /**
   * A response neither reader looks at: anything but a display info or the
   * list of interaction points, which `Goals` and `Display` stand for.
   */
  type OtherResp = r: Resp | !r.DisplayInfo? && !r.InteractionPoints? witness Resp.ClearHighlighting

  /**
   * One item on the process's output, as the session's readers see it:
   * the outcome `next_goals` extracts from a reload, a display info
   * (with what it says about a goal, when it says anything), or any other
   * response, which both readers discard.
   */
  datatype Reply =
    | Goals(outcome: Result<seq<InteractionPoint>, string>)
    | Display(info: DisplayInfo, goalInfo: Option<GoalInfo>)
    | Chatter(resp: OtherResp)

  /** A printed line: on standard output, on standard error, or the help screen. */
  datatype Printed = Stdout(text: string) | Stderr(text: string) | HelpScreen(plain: bool)

  /** The parsed user input the loop dispatches on. */
  datatype UserInput =
    | Define(name: string)
    | Give(goal: InteractionPoint, code: string)
    | Reload
    | Help
    | Unknown(reason: Option<string>)
    | Exit

  /** How a session operation fails: the process's output ended. */
  datatype SessionError = EndOfStream

  /**
   * Everything the loop touches. `file` is the module the session loaded,
   * `plain` selects the help screen's style, `sent` and `buffer` grow at the
   * end only, `stream` is what the process has yet to say, and
   * `shutDownAt` is how many commands had been sent when the process was
   * shut down, if it was.
   */
  datatype State = State(
    file: string,
    plain: bool,
    sent: seq<Cmd>,
    buffer: seq<string>,
    out: seq<Printed>,
    stream: seq<Reply>,
    shutDownAt: Option<nat>)

  /** The state after an operation, with the operation's own result. */
  datatype Outcome<+T> = Outcome(state: State, result: Result<T, SessionError>)

  // ---------------------------------------------------------------------
  // Session primitives
  // ---------------------------------------------------------------------

  function Send(s: State, c: Cmd): (t: State)
    ensures t.sent == s.sent + [c]
    ensures t == s.(sent := t.sent)
  {
    s.(sent := s.sent + [c])
  }

  function Print(s: State, line: Printed): (t: State)
    ensures t.out == s.out + [line]
    ensures t == s.(out := t.out)
  {
    s.(out := s.out + [line])
  }

  /** What a reader is looking for on the stream. */
  datatype Wanted = GoalsOutcome | AnyDisplayInfo | CurrentGoalAnswer

  /**
   * `next_goals` wants a goals outcome, `next_display_info` any display info,
   * and `list_goals` a `GoalSpecific` display info carrying `CurrentGoal`.
   */
  predicate Wants(w: Wanted, r: Reply) {
    match w
    case GoalsOutcome => r.Goals?
    case AnyDisplayInfo => r.Display?
    case CurrentGoalAnswer => r.Display? && r.info.GoalSpecific? && r.goalInfo.Some? && r.goalInfo.value.CurrentGoal?
  }

  /** Position of the first item a reader wants. */
  function FirstWanted(stream: seq<Reply>, w: Wanted): (r: Option<nat>)
    ensures r.Some? ==> r.value < |stream| && Wants(w, stream[r.value])
    ensures r.Some? ==> forall k :: 0 <= k < r.value ==> !Wants(w, stream[k])
    ensures r.None? ==> forall k :: 0 <= k < |stream| ==> !Wants(w, stream[k])
  {
    if stream == [] then Option.None
    else if Wants(w, stream[0]) then Some(0)
    else match FirstWanted(stream[1..], w)
      case None => Option.None
      case Some(k) => Some(k + 1)
  }

  /** Unwanted items can be dropped from the front without changing where the first wanted one is. */
  lemma {:induction false} FirstWantedAfter(stream: seq<Reply>, w: Wanted, j: nat)
    requires j <= |stream| && forall k :: 0 <= k < j ==> !Wants(w, stream[k])
    ensures FirstWanted(stream, w) == match FirstWanted(stream[j..], w)
      case None => Option.None
      case Some(m) => Some(m + j)
  {
    if j > 0 {
      assert stream[1..][j - 1..] == stream[j..];
      FirstWantedAfter(stream[1..], w, j - 1);
    }
  }

  /** `next_goals`: discard items up to the next goals outcome and return it. */
  function NextGoals(s: State): (o: Outcome<Result<seq<InteractionPoint>, string>>)
    ensures o.state == s.(stream := o.state.stream)
    ensures o.result.Ok? <==> FirstWanted(s.stream, GoalsOutcome).Some?
    ensures o.result.Ok? ==> var i := FirstWanted(s.stream, GoalsOutcome).value;
      o.result.value == s.stream[i].outcome && o.state.stream == s.stream[i + 1..]
    ensures o.result.Err? ==> o.state.stream == []
  {
    match FirstWanted(s.stream, GoalsOutcome)
    case None => Outcome(s.(stream := []), Err(EndOfStream))
    case Some(i) => Outcome(s.(stream := s.stream[i + 1..]), Ok(s.stream[i].outcome))
  }

  /** `next_display_info`: discard items up to the next display info and return it. */
  function NextDisplayInfo(s: State): (o: Outcome<Reply>)
    ensures o.state == s.(stream := o.state.stream)
    ensures o.result.Ok? <==> FirstWanted(s.stream, AnyDisplayInfo).Some?
    ensures o.result.Ok? ==> var i := FirstWanted(s.stream, AnyDisplayInfo).value;
      o.result.value == s.stream[i] && o.result.value.Display? && o.state.stream == s.stream[i + 1..]
    ensures o.result.Err? ==> o.state.stream == []
  {
    match FirstWanted(s.stream, AnyDisplayInfo)
    case None => Outcome(s.(stream := []), Err(EndOfStream))
    case Some(i) => Outcome(s.(stream := s.stream[i + 1..]), Ok(s.stream[i]))
  }

  // ---------------------------------------------------------------------
  // Printing a goal
  // ---------------------------------------------------------------------

  function DigitChar(d: nat): (c: char)
    requires d < 10
    ensures '0' <= c <= '9'
  {
    "0123456789"[d]
  }

  /** The decimal numeral of `n` without leading zeros, as `{:?}` prints an unsigned integer. */
  function Decimal(n: nat): (r: string)
    ensures |r| >= 1
    ensures forall k :: 0 <= k < |r| ==> '0' <= r[k] <= '9'
    decreases n
  {
    if n < 10 then [DigitChar(n)] else Decimal(n / 10) + [DigitChar(n % 10)]
  }

  /** The value of a string of decimal digits. */
  function DigitsValue(s: string): nat
    requires forall k :: 0 <= k < |s| ==> '0' <= s[k] <= '9'
  {
    if s == [] then 0 else DigitsValue(s[..|s| - 1]) * 10 + (s[|s| - 1] - '0') as nat
  }

  lemma DigitCharValue(k: nat)
    requires k < 10
    ensures (DigitChar(k) - '0') as nat == k
  {
  }

  /** The number printed after `?` reads back as the goal id, and has no leading zero. */
  lemma {:induction false} DecimalRoundTrip(n: nat)
    ensures DigitsValue(Decimal(n)) == n
    ensures |Decimal(n)| > 1 ==> Decimal(n)[0] != '0'
    decreases n
  {
    var d := Decimal(n);
    if n < 10 {
      DigitCharValue(n);
      assert d[..0] == [];
    } else {
      DecimalRoundTrip(n / 10);
      DigitCharValue(n % 10);
      assert d[..|d| - 1] == Decimal(n / 10);
      assert d[|d| - 1] == DigitChar(n % 10);
      assert DigitsValue(d) == DigitsValue(Decimal(n / 10)) * 10 + n % 10;
      assert d[0] == Decimal(n / 10)[0];
    }
  }

  /** The line `list_goals` prints for goal `ii` of type `ty`. */
  function GoalLine(ii: InteractionPoint, ty: string): (line: Printed)
    ensures line.Stdout? && |line.text| >= |ty| + 4 && line.text[0] == '?'
    ensures line.text[|line.text| - |ty|..] == ty
  {
    Stdout("?" + Decimal(ii) + ": " + ty)
  }

  /**
   * A goal line is a question mark, the id in decimal without leading
   * zeros, a colon and a space, then the type.
   */
  lemma GoalLineFormat(ii: InteractionPoint, ty: string)
    ensures var text := GoalLine(ii, ty).text;
      var id := text[1..|text| - |ty| - 2];
      && (forall k :: 0 <= k < |id| ==> '0' <= id[k] <= '9')
      && DigitsValue(id) == ii
      && (|id| > 1 ==> id[0] != '0')
      && text[|text| - |ty| - 2..|text| - |ty|] == ": "
  {
    DecimalRoundTrip(ii);
    var text := GoalLine(ii, ty).text;
    assert text[1..|text| - |ty| - 2] == Decimal(ii);
  }

  // ---------------------------------------------------------------------
  // The reload cycle
  // ---------------------------------------------------------------------

  /**
   * The inner loop of `list_goals`: read display infos until one is a
   * `GoalSpecific` carrying `CurrentGoal`, and return its type. Everything
   * before it is discarded; nothing after it is read.
   */
  function AwaitCurrentGoal(s: State): (o: Outcome<string>)
    ensures o.state == s.(stream := o.state.stream)
    decreases |s.stream|
  {
    var next := NextDisplayInfo(s);
    if next.result.Err? then Outcome(next.state, Err(EndOfStream))
    else if Wants(CurrentGoalAnswer, next.result.value) then
      Outcome(next.state, Ok(next.result.value.goalInfo.value.theType))
    else
      AwaitCurrentGoal(next.state)
  }

  /**
   * The wait succeeds exactly when a goal answer is on the stream; it
   * returns the first one's type and consumes the stream up to and including
   * that answer, or all of it when there is none.
   */
  lemma {:induction false} AwaitCurrentGoalSpec(s: State)
    ensures var o := AwaitCurrentGoal(s);
      && (o.result.Ok? <==> FirstWanted(s.stream, CurrentGoalAnswer).Some?)
      && (o.result.Ok? ==> var i := FirstWanted(s.stream, CurrentGoalAnswer).value;
           o.result.value == s.stream[i].goalInfo.value.theType && o.state.stream == s.stream[i + 1..])
      && (o.result.Err? ==> o.state.stream == [])
    decreases |s.stream|
  {
    var next := NextDisplayInfo(s);
    if next.result.Ok? {
      var i := FirstWanted(s.stream, AnyDisplayInfo).value;
      NoCurrentGoalBefore(s.stream, i);
      if !Wants(CurrentGoalAnswer, s.stream[i]) {
        assert AwaitCurrentGoal(s) == AwaitCurrentGoal(next.state);
        AwaitCurrentGoalSpec(next.state);
        var r := FirstWanted(next.state.stream, CurrentGoalAnswer);
        if r.Some? {
          assert next.state.stream[r.value + 1..] == s.stream[r.value + i + 2..];
        }
      }
    }
  }

  /**
   * Items before the first display info are not goal answers, so the first
   * goal answer is either that display info or lies beyond it.
   */
  lemma NoCurrentGoalBefore(stream: seq<Reply>, i: nat)
    requires FirstWanted(stream, AnyDisplayInfo) == Some(i)
    ensures Wants(CurrentGoalAnswer, stream[i]) ==> FirstWanted(stream, CurrentGoalAnswer) == Some(i)
    ensures !Wants(CurrentGoalAnswer, stream[i]) ==> FirstWanted(stream, CurrentGoalAnswer) == match FirstWanted(stream[i + 1..], CurrentGoalAnswer)
      case None => Option.None
      case Some(m) => Some(m + i + 1)
  {
    assert forall k :: 0 <= k < i ==> !Wants(CurrentGoalAnswer, stream[k]) by {
      forall k | 0 <= k < i ensures !Wants(CurrentGoalAnswer, stream[k]) {
        assert !Wants(AnyDisplayInfo, stream[k]);
      }
    }
    if Wants(CurrentGoalAnswer, stream[i]) {
      FirstWantedAfter(stream, CurrentGoalAnswer, i);
    } else {
      FirstWantedAfter(stream, CurrentGoalAnswer, i + 1);
    }
  }

  /** `list_goals`: for each goal in turn, ask for its type, wait for the answer and print it. */
  function ListGoals(s: State, iis: seq<InteractionPoint>): (o: Outcome<()>)
    ensures o.state.file == s.file && o.state.plain == s.plain && o.state.buffer == s.buffer
    ensures o.state.shutDownAt == s.shutDownAt
    ensures s.sent <= o.state.sent
    decreases |iis|
  {
    if iis == [] then Outcome(s, Ok(()))
    else
      var asked := AwaitCurrentGoal(Send(s, GoalTypeCommand(Simple(iis[0]))));
      if asked.result.Err? then Outcome(asked.state, Err(EndOfStream))
      else ListGoals(Print(asked.state, GoalLine(iis[0], asked.result.value)), iis[1..])
  }

  /**
   * `reload_impl`: load the file again, then list its goals, or print the
   * errors the load reported.
   */
  function ReloadImpl(s: State): (o: Outcome<()>)
    ensures o.state.file == s.file && o.state.plain == s.plain && o.state.buffer == s.buffer
    ensures o.state.shutDownAt == s.shutDownAt
    ensures |o.state.sent| > |s.sent| && o.state.sent[..|s.sent| + 1] == s.sent + [Load(s.file, [])]
  {
    var loaded := NextGoals(Send(s, Load(s.file, [])));
    if loaded.result.Err? then Outcome(loaded.state, Err(EndOfStream))
    else match loaded.result.value
      case Ok(iis) =>
        var header := Print(loaded.state, Stdout("Goals:"));
        ListGoals(if iis == [] then Print(header, Stdout("No goals.")) else header, iis)
      case Err(message) =>
        Outcome(Print(Print(loaded.state, Stderr("Errors:")), Stderr(message)), Ok(()))
  }

  /**
   * `finish`: tell the process to abort, then shut it down. The shutdown
   * happens once `Abort`, the last command, has been sent.
   */
  function Finish(s: State): (o: Outcome<()>)
    ensures o.result.Ok?
    ensures o.state.sent == s.sent + [Abort]
    ensures o.state.shutDownAt == Some(|s.sent| + 1)
    ensures o.state.sent[o.state.shutDownAt.value - 1] == Abort
    ensures o.state.(sent := s.sent, shutDownAt := s.shutDownAt) == s
  {
    var aborted := Send(s, Abort);
    Outcome(aborted.(shutDownAt := Some(|aborted.sent|)), Ok(()))
  }

  /**
   * `line_impl`: act on one input. The result is `true` exactly when the
   * loop should stop.
   */
  function LineImpl(s: State, input: UserInput): (o: Outcome<bool>)
    ensures o.result.Ok? && o.result.value ==> input.Exit?
  {
    match input
    case Define(name) =>
      var reloaded := ReloadImpl(s.(buffer := s.buffer + [name + " : ?", name + " = ?"]));
      Outcome(reloaded.state, if reloaded.result.Ok? then Ok(false) else Err(EndOfStream))
    case Give(goal, code) =>
      var reloaded := ReloadImpl(Send(s, GiveCommand(NoRange(goal, code))));
      Outcome(reloaded.state, if reloaded.result.Ok? then Ok(false) else Err(EndOfStream))
    case Reload =>
      var reloaded := ReloadImpl(s);
      Outcome(reloaded.state, if reloaded.result.Ok? then Ok(false) else Err(EndOfStream))
    case Help => Outcome(Print(s, HelpScreen(s.plain)), Ok(false))
    case Unknown(Some(reason)) => Outcome(Print(s, Stdout("Wait, " + reason)), Ok(false))
    case Unknown(None) => Outcome(Print(s, Stdout("Sorry, I don't understand.")), Ok(false))
    case Exit =>
      var finished := Finish(s);
      Outcome(finished.state, Ok(true))
  }
}
