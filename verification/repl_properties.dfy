/**
 * What the loop of `agda-tac/src/repl.rs` promises, stated over whole
 * transcripts: which commands go out, which lines are printed and appended,
 * and how much of the process's output each step consumes.
 */
module ReplProperties {
  import opened Wrappers
  import opened Base
  import opened Command
  import opened Response
  import opened Repl

  // ---------------------------------------------------------------------
  // Reference definitions
  // ---------------------------------------------------------------------

  /** The types announced by the goal answers in a stream, in stream order. */
  function CurrentGoalTypes(stream: seq<Reply>): seq<string> {
    if stream == [] then []
    else
      var head := if Wants(CurrentGoalAnswer, stream[0]) then [stream[0].goalInfo.value.theType] else [];
      head + CurrentGoalTypes(stream[1..])
  }

  /** One goal-type query per goal, in the given order. */
  function GoalQueries(iis: seq<InteractionPoint>): (cs: seq<Cmd>)
    ensures |cs| == |iis|
  {
    seq(|iis|, k requires 0 <= k < |iis| => GoalTypeCommand(Simple(iis[k])))
  }

  /** One printed goal line per goal, pairing each goal with its type. */
  function GoalLines(iis: seq<InteractionPoint>, tys: seq<string>): (ls: seq<Printed>)
    requires |iis| == |tys|
    ensures |ls| == |iis|
  {
    seq(|iis|, k requires 0 <= k < |iis| => GoalLine(iis[k], tys[k]))
  }

  // ---------------------------------------------------------------------
  // Goal lines
  // ---------------------------------------------------------------------

  /** Goal `5` of type `Nat` is printed `?5: Nat`; goal `10` of type `Set` is printed `?10: Set`. */
  lemma GoalLineExamples()
    ensures GoalLine(5, "Nat") == Stdout("?5: Nat")
    ensures GoalLine(10, "Set") == Stdout("?10: Set")
  {
    assert Decimal(10) == Decimal(1) + [DigitChar(0)];
  }

  // ---------------------------------------------------------------------
  // Waiting for a goal's type
  // ---------------------------------------------------------------------

  /** The first goal answer heads the list of announced types; without one the list is empty. */
  lemma {:induction false} CurrentGoalTypesFirst(stream: seq<Reply>)
    ensures FirstWanted(stream, CurrentGoalAnswer).None? ==> CurrentGoalTypes(stream) == []
    ensures FirstWanted(stream, CurrentGoalAnswer).Some? ==> var i := FirstWanted(stream, CurrentGoalAnswer).value;
      CurrentGoalTypes(stream) == [stream[i].goalInfo.value.theType] + CurrentGoalTypes(stream[i + 1..])
  {
    if stream != [] && !Wants(CurrentGoalAnswer, stream[0]) {
      CurrentGoalTypesFirst(stream[1..]);
      var r := FirstWanted(stream[1..], CurrentGoalAnswer);
      if r.Some? {
        assert FirstWanted(stream, CurrentGoalAnswer) == Some(r.value + 1);
        assert stream[1..][r.value + 1..] == stream[r.value + 2..];
      }
    }
  }

  /**
   * Display infos that are not goal answers, and responses that are not
   * display infos at all, are skipped; the first answer's type is returned
   * and the stream is consumed exactly up to it.
   */
  lemma SkipsUntilCurrentGoal(s: State, skipped: seq<Reply>, ii: InteractionPoint, ty: string, rest: seq<Reply>)
    requires forall k :: 0 <= k < |skipped| ==> !Wants(CurrentGoalAnswer, skipped[k])
    requires s.stream == skipped + [Display(GoalSpecific(ii), Some(CurrentGoal(ty)))] + rest
    ensures AwaitCurrentGoal(s).result == Ok(ty)
    ensures AwaitCurrentGoal(s).state == s.(stream := rest)
  {
    FirstWantedAfter(s.stream, CurrentGoalAnswer, |skipped|);
    AwaitCurrentGoalSpec(s);
    assert s.stream[|skipped|..] == [Display(GoalSpecific(ii), Some(CurrentGoal(ty)))] + rest;
    assert s.stream[|skipped| + 1..] == rest;
  }

  // ---------------------------------------------------------------------
  // Listing goals
  // ---------------------------------------------------------------------

  /** Queries and lines for a list of goals are those for its head followed by those for its tail. */
  lemma GoalQueriesCons(iis: seq<InteractionPoint>, m: nat)
    requires m < |iis|
    ensures GoalQueries(iis[..m + 1]) == [GoalTypeCommand(Simple(iis[0]))] + GoalQueries(iis[1..][..m])
  {
    assert iis[1..][..m] == iis[1..m + 1];
  }

  lemma GoalLinesCons(iis: seq<InteractionPoint>, tys: seq<string>, m: nat)
    requires m < |iis| && m < |tys|
    ensures GoalLines(iis[..m + 1], tys[..m + 1]) == [GoalLine(iis[0], tys[0])] + GoalLines(iis[1..][..m], tys[1..][..m])
  {
    assert iis[1..][..m] == iis[1..m + 1];
    assert tys[1..][..m] == tys[1..m + 1];
  }

  /** One round of `list_goals`: the head goal's query and wait, then the rest. */
  lemma ListGoalsStep(s: State, iis: seq<InteractionPoint>)
    requires iis != []
    ensures var asked := AwaitCurrentGoal(Send(s, GoalTypeCommand(Simple(iis[0]))));
      && (asked.result.Err? ==>
           && CurrentGoalTypes(s.stream) == []
           && ListGoals(s, iis) == Outcome(asked.state, Err(EndOfStream))
           && asked.state.sent == s.sent + [GoalTypeCommand(Simple(iis[0]))]
           && asked.state.out == s.out && asked.state.stream == [])
      && (asked.result.Ok? ==>
           var next := Print(asked.state, GoalLine(iis[0], asked.result.value));
           && CurrentGoalTypes(s.stream) == [asked.result.value] + CurrentGoalTypes(next.stream)
           && ListGoals(s, iis) == ListGoals(next, iis[1..])
           && next.sent == s.sent + [GoalTypeCommand(Simple(iis[0]))]
           && next.out == s.out + [GoalLine(iis[0], asked.result.value)])
  {
    CurrentGoalTypesFirst(s.stream);
    AwaitCurrentGoalSpec(Send(s, GoalTypeCommand(Simple(iis[0]))));
  }

  /** How many goals `list_goals` asks about: all of them, or up to the first one left unanswered. */
  function Asked(goals: nat, answers: nat): (n: nat)
    ensures n <= goals
  {
    if goals <= answers then goals else answers + 1
  }

  /** How many goal lines `list_goals` prints. */
  function Answered(goals: nat, answers: nat): (n: nat)
    ensures n <= goals && n <= answers
  {
    if goals <= answers then goals else answers
  }

  /** `list_goals` succeeds exactly when the stream announces a type for every goal. */
  lemma {:induction false} ListGoalsSucceeds(s: State, iis: seq<InteractionPoint>)
    ensures ListGoals(s, iis).result.Ok? <==> |iis| <= |CurrentGoalTypes(s.stream)|
    ensures ListGoals(s, iis).result.Err? ==> ListGoals(s, iis).state.stream == []
    decreases |iis|
  {
    if iis != [] {
      ListGoalsStep(s, iis);
      var asked := AwaitCurrentGoal(Send(s, GoalTypeCommand(Simple(iis[0]))));
      if asked.result.Ok? {
        ListGoalsSucceeds(Print(asked.state, GoalLine(iis[0], asked.result.value)), iis[1..]);
      }
    }
  }

  /**
   * `list_goals` sends one query per goal, in the given order; when the
   * stream runs out, the query left unanswered is the last command sent.
   */
  lemma {:induction false} ListGoalsQueries(s: State, iis: seq<InteractionPoint>)
    ensures ListGoals(s, iis).state.sent
         == s.sent + GoalQueries(iis[..Asked(|iis|, |CurrentGoalTypes(s.stream)|)])
    decreases |iis|
  {
    if iis != [] {
      var asked := AwaitCurrentGoal(Send(s, GoalTypeCommand(Simple(iis[0]))));
      if asked.result.Ok? {
        var next := Print(asked.state, GoalLine(iis[0], asked.result.value));
        var m := Asked(|iis| - 1, |CurrentGoalTypes(next.stream)|);
        assert && ListGoals(s, iis).state.sent == ListGoals(next, iis[1..]).state.sent
               && next.sent == s.sent + [GoalTypeCommand(Simple(iis[0]))]
               && Asked(|iis|, |CurrentGoalTypes(s.stream)|) == m + 1 by {
          ListGoalsStep(s, iis);
        }
        assert ListGoals(next, iis[1..]).state.sent == next.sent + GoalQueries(iis[1..][..m]) by {
          ListGoalsQueries(next, iis[1..]);
        }
        SentExtend(s.sent, iis, m);
      } else {
        assert && ListGoals(s, iis).state.sent == s.sent + [GoalTypeCommand(Simple(iis[0]))]
               && CurrentGoalTypes(s.stream) == [] by {
          ListGoalsStep(s, iis);
        }
        SentExtend(s.sent, iis, 0);
      }
    }
  }

  /** Sending the head goal's query and then the tail's queries sends the queries of a longer prefix. */
  lemma SentExtend(sent: seq<Cmd>, iis: seq<InteractionPoint>, m: nat)
    requires m < |iis|
    ensures (sent + [GoalTypeCommand(Simple(iis[0]))]) + GoalQueries(iis[1..][..m]) == sent + GoalQueries(iis[..m + 1])
  {
    GoalQueriesCons(iis, m);
  }

  /** `list_goals` prints one `?id: type` line per answered goal, pairing goals and types in order. */
  lemma {:induction false} ListGoalsLines(s: State, iis: seq<InteractionPoint>)
    ensures var n := Answered(|iis|, |CurrentGoalTypes(s.stream)|);
      ListGoals(s, iis).state.out == s.out + GoalLines(iis[..n], CurrentGoalTypes(s.stream)[..n])
    decreases |iis|
  {
    if iis != [] {
      var asked := AwaitCurrentGoal(Send(s, GoalTypeCommand(Simple(iis[0]))));
      if asked.result.Ok? {
        var line := GoalLine(iis[0], asked.result.value);
        var next := Print(asked.state, line);
        var rest := CurrentGoalTypes(next.stream);
        assert && ListGoals(s, iis).state.out == ListGoals(next, iis[1..]).state.out
               && next.out == s.out + [line]
               && CurrentGoalTypes(s.stream) == [asked.result.value] + rest by {
          ListGoalsStep(s, iis);
        }
        var tys := CurrentGoalTypes(s.stream);
        var m := Answered(|iis| - 1, |rest|);
        assert Answered(|iis|, |tys|) == m + 1;
        assert ListGoals(next, iis[1..]).state.out == next.out + GoalLines(iis[1..][..m], rest[..m]) by {
          ListGoalsLines(next, iis[1..]);
        }
        OutExtend(s.out, iis, tys, rest, m);
      } else {
        assert && ListGoals(s, iis).state.out == s.out
               && CurrentGoalTypes(s.stream) == [] by {
          ListGoalsStep(s, iis);
        }
      }
    }
  }

  /** Printing the head goal's line and then the tail's lines prints the lines of a longer prefix. */
  lemma OutExtend(out: seq<Printed>, iis: seq<InteractionPoint>, tys: seq<string>, rest: seq<string>, m: nat)
    requires tys != [] && tys[1..] == rest && m < |iis| && m <= |rest|
    ensures (out + [GoalLine(iis[0], tys[0])]) + GoalLines(iis[1..][..m], rest[..m]) == out + GoalLines(iis[..m + 1], tys[..m + 1])
  {
    GoalLinesCons(iis, tys, m);
  }

  // ---------------------------------------------------------------------
  // Reloading
  // ---------------------------------------------------------------------

  /** A load that reports errors prints `Errors:` and the message on standard error, and queries no goal. */
  lemma ReloadOnError(s: State, i: nat, message: string)
    requires FirstWanted(s.stream, GoalsOutcome) == Some(i) && s.stream[i].outcome == Err(message)
    ensures ReloadImpl(s).result == Ok(())
    ensures ReloadImpl(s).state.sent == s.sent + [Load(s.file, [])]
    ensures ReloadImpl(s).state.out == s.out + [Stderr("Errors:"), Stderr(message)]
    ensures ReloadImpl(s).state.stream == s.stream[i + 1..]
  {
  }

  /** A load that finds no goals prints `Goals:` then `No goals.`, and queries no goal. */
  lemma ReloadWithNoGoals(s: State, i: nat)
    requires FirstWanted(s.stream, GoalsOutcome) == Some(i) && s.stream[i].outcome == Ok([])
    ensures ReloadImpl(s).result == Ok(())
    ensures ReloadImpl(s).state.sent == s.sent + [Load(s.file, [])]
    ensures ReloadImpl(s).state.out == s.out + [Stdout("Goals:"), Stdout("No goals.")]
    ensures ReloadImpl(s).state.stream == s.stream[i + 1..]
  {
  }

  /**
   * A load that finds goals prints `Goals:` and then, for each goal in the
   * order given, queries its type and prints it.
   */
  lemma ReloadWithGoals(s: State, i: nat, iis: seq<InteractionPoint>)
    requires FirstWanted(s.stream, GoalsOutcome) == Some(i) && s.stream[i].outcome == Ok(iis)
    requires iis != [] && |iis| <= |CurrentGoalTypes(s.stream[i + 1..])|
    ensures ReloadImpl(s).result.Ok?
    ensures ReloadImpl(s).state.sent == s.sent + [Load(s.file, [])] + GoalQueries(iis)
    ensures ReloadImpl(s).state.out
         == s.out + [Stdout("Goals:")] + GoalLines(iis, CurrentGoalTypes(s.stream[i + 1..])[..|iis|])
  {
    var loaded := NextGoals(Send(s, Load(s.file, [])));
    assert loaded.result == Ok(Ok(iis));
    var header := Print(loaded.state, Stdout("Goals:"));
    assert ReloadImpl(s) == ListGoals(header, iis);
    var tys := CurrentGoalTypes(header.stream);
    assert header.stream == s.stream[i + 1..];
    assert Asked(|iis|, |tys|) == |iis| && Answered(|iis|, |tys|) == |iis|;
    assert iis[..|iis|] == iis;
    var o := ListGoals(header, iis);
    assert o.result.Ok? by {
      ListGoalsSucceeds(header, iis);
    }
    assert o.state.sent == header.sent + GoalQueries(iis) by {
      ListGoalsQueries(header, iis);
    }
    assert o.state.out == header.out + GoalLines(iis, tys[..|iis|]) by {
      ListGoalsLines(header, iis);
    }
  }

  /** Without a goals outcome on the stream, reload fails after sending the load. */
  lemma ReloadAtEndOfStream(s: State)
    requires FirstWanted(s.stream, GoalsOutcome).None?
    ensures ReloadImpl(s).result == Err(EndOfStream)
    ensures ReloadImpl(s).state.sent == s.sent + [Load(s.file, [])]
    ensures ReloadImpl(s).state.out == s.out
  {
  }

  /**
   * Goals `[5, 9]`: two queries, for 5 then for 9, and two lines in that
   * order, whatever chatter and other display infos come in between; an
   * answer about goal 9 that is not `CurrentGoal` is skipped.
   */
  lemma TwoGoalsExample(s: State)
    requires s.sent == [] && s.out == []
    requires s.stream == TwoGoalsStream()
    ensures ReloadImpl(s).result.Ok?
    ensures ReloadImpl(s).state.sent == [Load(s.file, []), GoalType(Instantiated, GoalInput(5, "")), GoalType(Instantiated, GoalInput(9, ""))]
    ensures ReloadImpl(s).state.out == [Stdout("Goals:"), Stdout("?5: Nat"), Stdout("?9: Nat -> Nat")]
  {
    TwoGoalsAnswers(s.stream);
    ReloadWithGoals(s, 1, [5, 9]);
    TwoGoalsTranscript();
    var o := ReloadImpl(s);
    var load := Load(s.file, []);
    var queries := [GoalType(Instantiated, GoalInput(5, "")), GoalType(Instantiated, GoalInput(9, ""))];
    assert o.state.sent == [] + [load] + queries;
    ConsTwo(load, queries);
    var lines := [Stdout("?5: Nat"), Stdout("?9: Nat -> Nat")];
    assert ["Nat", "Nat -> Nat"][..2] == ["Nat", "Nat -> Nat"];
    assert o.state.out == [] + [Stdout("Goals:")] + lines;
    ConsTwo(Stdout("Goals:"), lines);
  }

  /**
   * The process's output in the example: chatter, the goals, more chatter,
   * a display info that is not a goal answer, the answer for 5, an answer
   * for 9 that is not `CurrentGoal`, and the `CurrentGoal` answer for 9.
   */
  function TwoGoalsStream(): seq<Reply> {
    [
      Chatter(ClearHighlighting),
      Goals(Ok([5, 9])),
      Chatter(Resp.Status(DefaultStatus)),
      Display(DisplayInfo.Constraints, Option.None),
      Display(GoalSpecific(5), Some(CurrentGoal("Nat"))),
      Display(GoalSpecific(9), Some(OtherGoalInfo)),
      Display(GoalSpecific(9), Some(CurrentGoal("Nat -> Nat")))
    ]
  }

  lemma ConsTwo<T>(x: T, ys: seq<T>)
    requires |ys| == 2
    ensures [] + [x] + ys == [x, ys[0], ys[1]]
  {
  }

  /** In the example stream the goals come second, and exactly two types are announced after them. */
  lemma TwoGoalsAnswers(stream: seq<Reply>)
    requires stream == TwoGoalsStream()
    ensures FirstWanted(stream, GoalsOutcome) == Some(1)
    ensures CurrentGoalTypes(stream[2..]) == ["Nat", "Nat -> Nat"]
  {
    var tail := stream[2..];
    assert CurrentGoalTypes(tail[5..]) == [];
    assert tail[4..][1..] == tail[5..];
    assert CurrentGoalTypes(tail[4..]) == ["Nat -> Nat"];
    assert tail[3..][1..] == tail[4..];
    assert CurrentGoalTypes(tail[3..]) == ["Nat -> Nat"];
    assert tail[2..][1..] == tail[3..];
    assert CurrentGoalTypes(tail[2..]) == ["Nat", "Nat -> Nat"];
    assert tail[1..][1..] == tail[2..];
    assert CurrentGoalTypes(tail[1..]) == ["Nat", "Nat -> Nat"];
  }

  /** The queries and lines for goals 5 and 9 of types `Nat` and `Nat -> Nat`. */
  lemma TwoGoalsTranscript()
    ensures GoalQueries([5, 9]) == [GoalType(Instantiated, GoalInput(5, "")), GoalType(Instantiated, GoalInput(9, ""))]
    ensures GoalLines([5, 9], ["Nat", "Nat -> Nat"]) == [Stdout("?5: Nat"), Stdout("?9: Nat -> Nat")]
  {
    var ls := GoalLines([5, 9], ["Nat", "Nat -> Nat"]);
    assert ls[0] == GoalLine(5, "Nat") && ls[1] == GoalLine(9, "Nat -> Nat");
    GoalLineExamples();
    GoalNineLine();
  }

  lemma GoalNineLine()
    ensures GoalLine(9, "Nat -> Nat") == Stdout("?9: Nat -> Nat")
  {
    assert Decimal(9) == "9";
  }

  // ---------------------------------------------------------------------
  // Dispatching one input
  // ---------------------------------------------------------------------

  /**
   * `Define(name)` appends `name : ?` then `name = ?` to the buffer, then
   * performs exactly one reload, whose load is the first command sent.
   */
  lemma DefineAppendsThenReloads(s: State, name: string)
    ensures var o := LineImpl(s, Define(name));
      && o.state.buffer == s.buffer + [name + " : ?", name + " = ?"]
      && o.state == ReloadImpl(s.(buffer := o.state.buffer)).state
      && o.state.sent[|s.sent|] == Load(s.file, [])
      && (o.result == Ok(false) <==> ReloadImpl(s.(buffer := o.state.buffer)).result.Ok?)
  {
  }

  /**
   * `Give(i, code)` sends one give command for goal `i` carrying `code`
   * with no range, then reloads; the buffer is left alone.
   */
  lemma GiveSendsThenReloads(s: State, i: InteractionPoint, code: string)
    ensures var o := LineImpl(s, UserInput.Give(i, code));
      && o.state.sent[|s.sent|] == Cmd.Give(WithoutForce, GoalInput(i, code))
      && o.state.sent[|s.sent| + 1] == Load(s.file, [])
      && o.state == ReloadImpl(Send(s, GiveCommand(NoRange(i, code)))).state
      && o.state.buffer == s.buffer
      && (o.result == Ok(false) <==> ReloadImpl(Send(s, GiveCommand(NoRange(i, code)))).result.Ok?)
  {
    var s1 := Send(s, GiveCommand(NoRange(i, code)));
    assert ReloadImpl(s1).state.sent[..|s1.sent|] == s1.sent;
  }

  /** `Help` and `Unknown` print one line and nothing else: no command, no reading, no appending. */
  lemma QuietInputs(s: State, u: UserInput)
    requires u.Help? || u.Unknown?
    ensures LineImpl(s, u).result == Ok(false)
    ensures LineImpl(s, u).state == s.(out := LineImpl(s, u).state.out)
    ensures LineImpl(s, u).state.out == s.out + [
      match u
      case Unknown(Some(reason)) => Stdout("Wait, " + reason)
      case Unknown(None) => Stdout("Sorry, I don't understand.")
      case _ => HelpScreen(s.plain)]
  {
  }

  /** `Exit` sends `Abort`, shuts the process down and stops the loop. */
  lemma ExitAbortsThenShutsDown(s: State)
    ensures LineImpl(s, Exit).result == Ok(true)
    ensures LineImpl(s, Exit).state.sent == s.sent + [Abort]
    ensures LineImpl(s, Exit).state.shutDownAt == Some(|s.sent| + 1)
    ensures LineImpl(s, Exit).state.out == s.out && LineImpl(s, Exit).state.stream == s.stream
  {
  }

  /** The loop stops after an input exactly when that input is `Exit`. */
  lemma StopsExactlyOnExit(s: State, u: UserInput)
    ensures LineImpl(s, u).result == Ok(true) <==> u.Exit?
  {
  }

  /** Only `Exit` shuts the process down; every other input leaves the shutdown record alone. */
  lemma OnlyExitShutsDown(s: State, u: UserInput)
    requires !u.Exit?
    ensures LineImpl(s, u).state.shutDownAt == s.shutDownAt
  {
  }
}
