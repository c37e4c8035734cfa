/**
 * The read-tokenize-dispatch loop of main: each input line is split into a token
 * vector, args[0] is looked up in the command chain, the handlers of that branch run
 * against the world the earlier steps left behind, and the loop goes on until mexit,
 * whose handler ends the process with exit(0), or until the input is used up.
 */
module Shell {
  import opened Wrappers
  import opened Tokenizer
  import opened Commands
  import opened Handlers

  /** What the chain in main does with one token vector: nothing for an empty vector,
      the "not a command" message for an unknown name, or one command's branch. */
  datatype Dispatch = Nothing | NotACommand(name: string) | Runs(command: Command)

  /** The branch the chain takes for a token vector. */
  function DispatchOf(args: seq<string>): (d: Dispatch)
    ensures d == Nothing <==> args == []
    ensures d.NotACommand? <==> args != [] && forall c: Command :: NameOf(c) != args[0]
    ensures d.NotACommand? ==> d.name == args[0]
    ensures d.Runs? ==> NameOf(d.command) == args[0]
  {
    if args == [] then Nothing
    else
      ResolveExact(args[0], Command.Echo);
      match Resolve(args[0])
      case None => NotACommand(args[0])
      case Some(c) => ResolveExact(args[0], c); Runs(c)
  }

  /** What the chain itself prints; the handlers' own output is modelled in Handlers. */
  function Message(d: Dispatch): (out: seq<Out>)
    ensures out != [] <==> d.NotACommand?
    ensures d.NotACommand? ==> out == [Stdout("Error not a command\n")]
  {
    if d.NotACommand? then [Stdout("Error not a command\n")] else []
  }

  /** What one handler does, on the tokens of its line, after the calls `past`; `rest`
      is what is still unread on standard input. The flag says whether the handler
      used up the input. mexit's handler prints nothing before it exits; the handlers
      this model does not follow leave an Untraced mark and make no call. */
  function HandlerEffect(h: Command, args: seq<string>, past: seq<OsCall>, w: World, rest: string): (r: (Effect, bool))
    requires args != []
    ensures r.1 <==> h == Command.Edit && |args| >= 2 && w.succeeds(past, OpenForWrite(args[1]))
  {
    if PerArgument(h) then (PerArgumentEffect(h, args[1..], past, w), false)
    else match h
    case Echo => (Effect([], [Stdout(EchoText(args[1..]))]), false)
    case Cd => (CustomCd(args, past, w), false)
    case Rename => (CustomRename(args, past, w), false)
    case Ping => (CustomPing(args, past, w), false)
    case Jobs => (JobsEffect(past, w), false)
    case Edit => CustomEdit(args, past, w, rest)
    case Exit => (Effect([], []), false)
    case _ => (Effect([], [Untraced(h)]), false)
  }

  /** The handlers of one branch, run one after the other: each meets the world the
      calls before it left behind, and their calls and output follow each other. */
  function HandlersEffect(hs: seq<Command>, args: seq<string>, past: seq<OsCall>, w: World, rest: string): (Effect, bool)
    requires args != []
    decreases |hs|
  {
    if hs == [] then (Effect([], []), false)
    else
      var (first, drained) := HandlerEffect(hs[0], args, past, w, rest);
      var (later, drainedLater) := HandlersEffect(hs[1..], args, past + first.calls, w, rest);
      (Effect(first.calls + later.calls, first.out + later.out), drained || drainedLater)
  }

  /** What the branch the chain takes does. */
  function DispatchEffect(d: Dispatch, args: seq<string>, past: seq<OsCall>, w: World, rest: string): (Effect, bool)
    requires d == DispatchOf(args)
  {
    match d
    case Nothing => (Effect([], []), false)
    case NotACommand(_) => (Effect([], Message(d)), false)
    case Runs(c) => HandlersEffect(Invoked(c), args, past, w, rest)
  }

  /** One trip round the loop: the line read, its tokens, the branch taken, what the
      branch did, and whether it used up the input. */
  datatype Step = Step(line: string, args: seq<string>, dispatch: Dispatch, effect: Effect, drained: bool)

  /** The step a line gives after the calls `past`, with `rest` still unread. */
  function StepAt(line: string, past: seq<OsCall>, w: World, rest: string): Step {
    var args := Tokens(CStr(line));
    var d := DispatchOf(args);
    var (e, drained) := DispatchEffect(d, args, past, w, rest);
    Step(line, args, d, e, drained)
  }

  /** How the modelled run ends: mexit's exit(0), or no input left to read. */
  datatype Ending = Exited | EndOfInput

  datatype Session = Session(steps: seq<Step>, ending: Ending)

  /** A medit step that opened its file reads standard input until end of file, so no
      line is left for the loop after it. */
  predicate DrainsInput(s: Step, past: seq<OsCall>, w: World) {
    s.dispatch == Runs(Command.Edit) && |s.args| >= 2 && w.succeeds(past, OpenForWrite(s.args[1]))
  }

  /** The steps after which no further line is read. */
  predicate Ends(s: Step) {
    s.dispatch == Runs(Exit) || s.drained
  }

  /** Every call the steps made, in order. */
  function AllCalls(steps: seq<Step>): seq<OsCall> {
    if steps == [] then [] else steps[0].effect.calls + AllCalls(steps[1..])
  }

  /** Steps taken so far, followed by the rest of a run. */
  function Then(steps: seq<Step>, r: Session): Session {
    Session(steps + r.steps, r.ending)
  }

  /** The body of main's loop: the step a line gives after the calls `past`, with the
      text `rest` still unread. */
  type Body = (string, seq<OsCall>, string) -> Step

  /** main's do-while loop over the lines still to read, after the calls `past`, for a
      loop body: it stops after mexit or after a step that used up the input, and
      otherwise reads the next line in the world this step's calls left behind. */
  function Loop(body: Body, lines: seq<string>, past: seq<OsCall>): Session
    decreases |lines|
  {
    if lines == [] then Session([], EndOfInput)
    else
      var s := body(lines[0], past, Concat(lines[1..]));
      if s.dispatch == Runs(Exit) then Session([s], Exited)
      else if s.drained then Session([s], EndOfInput)
      else Then([s], Loop(body, lines[1..], past + s.effect.calls))
  }

  /** The body of main's loop in a world. */
  function Trip(w: World): Body {
    (line, past, rest) => StepAt(line, past, w, rest)
  }

  /** The loop of main over the lines of standard input, from a fresh session. */
  function Run(lines: seq<string>, w: World): Session {
    Loop(Trip(w), lines, [])
  }

  /** The body of main's loop up to the dispatch: parse_line, then the chain on args[0]. */
  method ReadStep(line: string) returns (args: seq<string>, d: Dispatch, v: array<Option<string>>)
    ensures args == Tokens(CStr(line)) && d == DispatchOf(args)
    ensures IsArgVector(v[..]) && Argv(v[..]) == args
  {
    var argc;
    v, argc := ParseLine(line);
    args := Argv(v[..]);
    d := Nothing;
    if v[0] != None {
      var name := v[0].value;
      var c := Resolve(name);
      d := if c.Some? then Runs(c.value) else NotACommand(name);
    }
  }

  /** custom_mkdir, custom_rmdir, custom_rm, custom_touch, custom_locate or custom_file
      on the vector parse_line built. */
  method RunPerArgumentHandler(h: Command, v: array<Option<string>>, past: seq<OsCall>, w: World, rest: string)
      returns (e: Effect)
    requires PerArgument(h) && IsArgVector(v[..]) && v[0].Some?
    ensures (e, false) == HandlerEffect(h, Argv(v[..]), past, w, rest)
  {
    assert Operands(v[..]) == Argv(v[..])[1..];
    e := RunPerArgument(h, v, past, w);
  }

  /** custom_echo on the vector parse_line built. */
  method RunEchoHandler(v: array<Option<string>>, past: seq<OsCall>, w: World, rest: string)
      returns (e: Effect)
    requires IsArgVector(v[..]) && v[0].Some?
    ensures (e, false) == HandlerEffect(Echo, Argv(v[..]), past, w, rest)
  {
    assert Operands(v[..]) == Argv(v[..])[1..];
    e := CustomEcho(v);
  }

  /** custom_jobs, which takes no arguments. */
  method RunJobsHandler(v: array<Option<string>>, past: seq<OsCall>, w: World, rest: string)
      returns (e: Effect)
    requires IsArgVector(v[..]) && v[0].Some?
    ensures (e, false) == HandlerEffect(Jobs, Argv(v[..]), past, w, rest)
  {
    e := CustomJobs(past, w);
  }

  /** One custom_* call of a branch, on the vector parse_line built. */
  method RunHandler(h: Command, v: array<Option<string>>, past: seq<OsCall>, w: World, rest: string)
      returns (e: Effect, drained: bool)
    requires IsArgVector(v[..]) && v[0].Some?
    ensures (e, drained) == HandlerEffect(h, Argv(v[..]), past, w, rest)
  {
    drained := false;
    if PerArgument(h) {
      e := RunPerArgumentHandler(h, v, past, w, rest);
    } else if h == Echo {
      e := RunEchoHandler(v, past, w, rest);
    } else if h == Jobs {
      e := RunJobsHandler(v, past, w, rest);
    } else {
      // the handlers without a loop of their own
      var r := HandlerEffect(h, Argv(v[..]), past, w, rest);
      e, drained := r.0, r.1;
    }
  }

  /** The branch for a command: datetime runs custom_date and then custom_time, every
      other branch its own handler. */
  method RunBranch(c: Command, v: array<Option<string>>, past: seq<OsCall>, w: World, rest: string)
      returns (e: Effect, drained: bool)
    requires IsArgVector(v[..]) && v[0].Some?
    ensures (e, drained) == HandlersEffect(Invoked(c), Argv(v[..]), past, w, rest)
  {
    ghost var args := Argv(v[..]);
    if c == DateTime {
      var first, d1 := RunHandler(Date, v, past, w, rest);
      var later, d2 := RunHandler(Time, v, past + first.calls, w, rest);
      e, drained := Effect(first.calls + later.calls, first.out + later.out), d1 || d2;
      TwoHandlers(Date, Time, args, past, w, rest);
      assert Invoked(c) == [Date, Time];
    } else {
      e, drained := RunHandler(c, v, past, w, rest);
      SingleHandler(c, args, past, w, rest);
    }
  }

  /** One trip round main's loop after the prompt: read the line, tokenize it, take
      the branch for args[0]. */
  method LoopStep(line: string, past: seq<OsCall>, w: World, rest: string) returns (step: Step)
    ensures step == StepAt(line, past, w, rest)
  {
    var args, d, v := ReadStep(line);
    var e := Effect([], []);
    var drained := false;
    match d {
      case Nothing =>
      case NotACommand(_) => e := Effect([], Message(d));
      case Runs(c) => e, drained := RunBranch(c, v, past, w, rest);
    }
    step := Step(line, args, d, e, drained);
  }

  /** The loop from line i: its first step, then, unless that step ends the run, the
      loop from line i + 1 after that step's calls. */
  lemma LoopNext(body: Body, lines: seq<string>, i: nat, past: seq<OsCall>, s: Step)
    requires i < |lines| && s == body(lines[i], past, Concat(lines[i + 1..]))
    ensures s.dispatch == Runs(Exit) ==> Loop(body, lines[i..], past) == Session([s], Exited)
    ensures s.dispatch != Runs(Exit) && s.drained ==> Loop(body, lines[i..], past) == Session([s], EndOfInput)
    ensures !Ends(s) ==>
      Loop(body, lines[i..], past) == Then([s], Loop(body, lines[i + 1..], past + s.effect.calls))
  {
    assert lines[i..][0] == lines[i] && lines[i..][1..] == lines[i + 1..];
  }

  /** main's do-while loop: prompt, read a line, tokenize it, take the branch for
      args[0]. The branch for mexit ends the process; medit may drain the input. */
  method MainLoop(lines: seq<string>, w: World) returns (r: Session)
    ensures r == Run(lines, w)
  {
    var steps: seq<Step> := [];
    // the calls the session has made so far
    var past: seq<OsCall> := [];
    var i := 0;
    while i < |lines|
      invariant 0 <= i <= |lines|
      invariant Run(lines, w) == Then(steps, Loop(Trip(w), lines[i..], past))
      decreases |lines| - i
    {
      var step := LoopStep(lines[i], past, w, Concat(lines[i + 1..]));
      LoopNext(Trip(w), lines, i, past, step);
      if step.dispatch == Runs(Exit) {
        return Session(steps + [step], Exited);
      }
      if step.drained {
        return Session(steps + [step], EndOfInput);
      }
      ghost var later := Loop(Trip(w), lines[i + 1..], past + step.effect.calls);
      assert (steps + [step]) + later.steps == steps + ([step] + later.steps);
      steps := steps + [step];
      past := past + step.effect.calls;
      i := i + 1;
    }
    assert lines[i..] == [];
    r := Then(steps, Session([], EndOfInput));
  }

  // ---------------------------------------------------------------- the loop, for any body

  /** What a session over n lines looks like: at most one step per line and at least
      one when there is a line; no step but the last ends it; it ends by exit exactly
      when its last step is mexit; and it stops short of the lines only after a step
      that ends it. */
  ghost predicate Shaped(r: Session, n: nat) {
    |r.steps| <= n && (n > 0 ==> r.steps != []) &&
    (forall k :: 0 <= k < |r.steps| - 1 ==> !Ends(r.steps[k])) &&
    (r.ending == Exited <==> r.steps != [] && r.steps[|r.steps| - 1].dispatch == Runs(Exit)) &&
    (|r.steps| < n ==> Ends(r.steps[|r.steps| - 1]))
  }

  /** A step that does not end the run, in front of a session over n lines, gives a
      session over n + 1 lines. */
  lemma ShapedCons(s: Step, later: Session, n: nat)
    requires !Ends(s) && Shaped(later, n)
    ensures Shaped(Then([s], later), n + 1)
  {
    var r := Then([s], later);
    assert forall k :: 0 < k < |r.steps| ==> r.steps[k] == later.steps[k - 1];
  }

  /** Whatever the body, the loop reads the lines in order, reads a line only when no
      step before it ended the run, ends by exit exactly when its last step is mexit,
      and is cut short only after a step that ends it. */
  lemma {:induction false} LoopShape(body: Body, lines: seq<string>, past: seq<OsCall>)
    ensures Shaped(Loop(body, lines, past), |lines|)
    decreases |lines|
  {
    if lines != [] {
      var s := body(lines[0], past, Concat(lines[1..]));
      if !Ends(s) {
        LoopShape(body, lines[1..], past + s.effect.calls);
        ShapedCons(s, Loop(body, lines[1..], past + s.effect.calls), |lines| - 1);
      }
    }
  }

  /** The calls before a step of a run that went on after its first step s. */
  lemma CallsBefore(past: seq<OsCall>, s: Step, steps: seq<Step>)
    ensures past + AllCalls([s] + steps) == (past + s.effect.calls) + AllCalls(steps)
  {
    assert ([s] + steps)[1..] == steps;
  }

  /** Each step of the loop is the body on its line after every call of the steps
      before it, with the lines after it still unread. */
  lemma {:induction false} LoopLines(body: Body, lines: seq<string>, past: seq<OsCall>)
    ensures var r := Loop(body, lines, past);
      |r.steps| <= |lines| &&
      forall k :: 0 <= k < |r.steps| ==>
        r.steps[k] == body(lines[k], past + AllCalls(r.steps[..k]), Concat(lines[k + 1..]))
    decreases |lines|
  {
    var r := Loop(body, lines, past);
    if lines != [] {
      var s := body(lines[0], past, Concat(lines[1..]));
      assert r.steps[..0] == [] && past + [] == past;
      if !Ends(s) {
        var later := Loop(body, lines[1..], past + s.effect.calls);
        LoopLines(body, lines[1..], past + s.effect.calls);
        assert r.steps == [s] + later.steps;
        forall k | 0 < k < |r.steps|
          ensures r.steps[k] == body(lines[k], past + AllCalls(r.steps[..k]), Concat(lines[k + 1..]))
        {
          assert r.steps[..k] == [s] + later.steps[..k - 1];
          CallsBefore(past, s, later.steps[..k - 1]);
          assert lines[1..][k - 1] == lines[k] && lines[1..][k..] == lines[k + 1..];
        }
      }
    }
  }

  /** When no line before line k can end the run and line k always exits, the loop
      takes exactly k + 1 steps and ends by exit. */
  lemma {:induction false} LoopStopsAtExit(body: Body, lines: seq<string>, past: seq<OsCall>, k: nat)
    requires k < |lines| && forall p, rest :: body(lines[k], p, rest).dispatch == Runs(Exit)
    requires forall j, p, rest :: 0 <= j < k ==> !Ends(body(lines[j], p, rest))
    ensures |Loop(body, lines, past).steps| == k + 1
    ensures Loop(body, lines, past).ending == Exited
    decreases k
  {
    var s := body(lines[0], past, Concat(lines[1..]));
    if k > 0 {
      assert !Ends(s);
      assert forall j :: 0 <= j < k ==> lines[1..][j] == lines[j + 1];
      LoopStopsAtExit(body, lines[1..], past + s.effect.calls, k - 1);
    }
  }

  /** When no line can end the run, the loop reads every line and ends with the input. */
  lemma {:induction false} LoopReadsAll(body: Body, lines: seq<string>, past: seq<OsCall>)
    requires forall j, p, rest :: 0 <= j < |lines| ==> !Ends(body(lines[j], p, rest))
    ensures |Loop(body, lines, past).steps| == |lines|
    ensures Loop(body, lines, past).ending == EndOfInput
    decreases |lines|
  {
    if lines != [] {
      var s := body(lines[0], past, Concat(lines[1..]));
      assert !Ends(s);
      assert forall j :: 0 <= j < |lines| - 1 ==> lines[1..][j] == lines[j + 1];
      LoopReadsAll(body, lines[1..], past + s.effect.calls);
    }
  }

  // ---------------------------------------------------------------- properties of main's loop

  /** A branch of a single handler does what that handler does. */
  lemma SingleHandler(h: Command, args: seq<string>, past: seq<OsCall>, w: World, rest: string)
    requires args != []
    ensures HandlersEffect([h], args, past, w, rest) == HandlerEffect(h, args, past, w, rest)
  {
    var (e, drained) := HandlerEffect(h, args, past, w, rest);
    assert [h][1..] == [];
    assert e.calls + [] == e.calls && e.out + [] == e.out;
  }

  /** A branch of two handlers: the second meets the world the first one's calls left
      behind, and its calls and output follow the first one's. */
  lemma TwoHandlers(h1: Command, h2: Command, args: seq<string>, past: seq<OsCall>, w: World, rest: string)
    requires args != []
    ensures var first := HandlerEffect(h1, args, past, w, rest);
      var second := HandlerEffect(h2, args, past + first.0.calls, w, rest);
      HandlersEffect([h1, h2], args, past, w, rest) ==
        (Effect(first.0.calls + second.0.calls, first.0.out + second.0.out), first.1 || second.1)
  {
    var first := HandlerEffect(h1, args, past, w, rest);
    SingleHandler(h2, args, past + first.0.calls, w, rest);
    assert [h1, h2][1..] == [h2];
  }

  /** The branch a line takes, whatever ran before it. */
  function LineDispatch(line: string): Dispatch {
    DispatchOf(Tokens(CStr(line)))
  }

  /** A step takes the branch of its line, and uses up the input exactly when it is a
      medit whose file could be opened. */
  lemma StepDrains(line: string, past: seq<OsCall>, w: World, rest: string)
    ensures StepAt(line, past, w, rest).dispatch == LineDispatch(line)
    ensures StepAt(line, past, w, rest).drained <==> DrainsInput(StepAt(line, past, w, rest), past, w)
  {
    var s := StepAt(line, past, w, rest);
    if s.dispatch.Runs? {
      var c := s.dispatch.command;
      if c == DateTime {
        var first := HandlerEffect(Date, s.args, past, w, rest).0;
        SingleHandler(Time, s.args, past + first.calls, w, rest);
        assert Invoked(c)[1..] == [Time];
      } else {
        SingleHandler(c, s.args, past, w, rest);
      }
    }
  }

  /** Each step of main's loop is the step its line gives after every call of the steps
      before it, with the lines after it still unread; no step but the last ends the
      run, and the run stops short of the input only after mexit or a draining medit. */
  lemma RunLines(lines: seq<string>, w: World)
    ensures var r := Run(lines, w);
      Shaped(r, |lines|) &&
      forall k :: 0 <= k < |r.steps| ==>
        r.steps[k] == StepAt(lines[k], AllCalls(r.steps[..k]), w, Concat(lines[k + 1..]))
  {
    LoopShape(Trip(w), lines, []);
    LoopLines(Trip(w), lines, []);
    var r := Run(lines, w);
    forall k | 0 <= k < |r.steps|
      ensures [] + AllCalls(r.steps[..k]) == AllCalls(r.steps[..k])
    {
    }
  }

  /** Every step, whatever ran before, takes its line's branch and ends the run only
      after mexit or medit. */
  lemma TripEnds(w: World)
    ensures forall line, p, rest :: Trip(w)(line, p, rest).dispatch == LineDispatch(line)
    ensures forall line, p, rest :: Ends(Trip(w)(line, p, rest)) ==>
      LineDispatch(line) in {Runs(Exit), Runs(Command.Edit)}
  {
    forall line, p, rest
      ensures Trip(w)(line, p, rest).dispatch == LineDispatch(line)
      ensures Ends(Trip(w)(line, p, rest)) ==> LineDispatch(line) in {Runs(Exit), Runs(Command.Edit)}
    {
      StepDrains(line, p, w, rest);
    }
  }

  /** Lines before an mexit that are neither mexit nor medit are all read, and the run
      exits right after the mexit line. */
  lemma RunStopsAtExit(lines: seq<string>, w: World, k: nat)
    requires k < |lines| && LineDispatch(lines[k]) == Runs(Exit)
    requires forall j :: 0 <= j < k ==> LineDispatch(lines[j]) !in {Runs(Exit), Runs(Command.Edit)}
    ensures |Run(lines, w).steps| == k + 1
    ensures Run(lines, w).ending == Exited
  {
    TripEnds(w);
    LoopStopsAtExit(Trip(w), lines, [], k);
  }

  /** Without an mexit or a medit line, every line is read and the run ends with the
      input, never with an exit. */
  lemma RunReadsAll(lines: seq<string>, w: World)
    requires forall j :: 0 <= j < |lines| ==> LineDispatch(lines[j]) !in {Runs(Exit), Runs(Command.Edit)}
    ensures |Run(lines, w).steps| == |lines|
    ensures Run(lines, w).ending == EndOfInput
  {
    TripEnds(w);
    LoopReadsAll(Trip(w), lines, []);
  }

  /** An empty or all-blank line dispatches nothing, prints nothing and calls nothing. */
  lemma BlankLineIsSkipped(line: string, past: seq<OsCall>, w: World, rest: string)
    ensures StepAt(line, past, w, rest).dispatch == Nothing <==> AllDelims(CStr(line))
    ensures AllDelims(CStr(line)) ==>
      StepAt(line, past, w, rest).effect == Effect([], []) && !StepAt(line, past, w, rest).drained
  {
    BlankIffNoTokens(CStr(line));
  }

  /** A line whose first word names no command prints exactly the error message, calls
      nothing, and the loop goes on with the next line in the same world. */
  lemma UnknownNameContinues(lines: seq<string>, past: seq<OsCall>, w: World)
    requires lines != [] && LineDispatch(lines[0]).NotACommand?
    ensures var s := StepAt(lines[0], past, w, Concat(lines[1..]));
      s.effect == Effect([], [Stdout("Error not a command\n")]) && !s.drained &&
      (forall c: Command :: NameOf(c) != s.args[0]) &&
      Loop(Trip(w), lines, past) == Then([s], Loop(Trip(w), lines[1..], past))
  {
    assert past + [] == past;
  }

  /** A token vector whose first word is a command's name takes that command's branch. */
  lemma DispatchOfName(args: seq<string>, c: Command)
    requires args != [] && args[0] == NameOf(c)
    ensures DispatchOf(args) == Runs(c)
  {
    NamesDistinct(DispatchOf(args).command, c);
  }

  /** datetime runs custom_date and then custom_time, and nothing else. */
  lemma DateTimeRunsBoth(args: seq<string>, past: seq<OsCall>, w: World, rest: string)
    requires args != [] && args[0] == NameOf(DateTime)
    ensures DispatchEffect(DispatchOf(args), args, past, w, rest) ==
      (Effect([], [Untraced(Date), Untraced(Time)]), false)
  {
    DispatchOfName(args, DateTime);
    var hs := Invoked(DateTime);
    assert hs == [Date, Time] && hs[1..] == [Time];
    var first := HandlerEffect(Date, args, past, w, rest);
    assert first == (Effect([], [Untraced(Date)]), false);
    SingleHandler(Time, args, past + first.0.calls, w, rest);
    var second := HandlerEffect(Time, args, past + first.0.calls, w, rest);
    assert second == (Effect([], [Untraced(Time)]), false);
    assert HandlersEffect(hs, args, past, w, rest) ==
      (Effect(first.0.calls + second.0.calls, first.0.out + second.0.out), false);
    assert DispatchEffect(Runs(DateTime), args, past, w, rest) == HandlersEffect(hs, args, past, w, rest);
    assert first.0.out + second.0.out == [Untraced(Date), Untraced(Time)];
  }

  /** The tokens of a line made of two words and one blank. */
  lemma TwoWords(a: string, b: string)
    requires IsWord(a) && IsWord(b) && '\0' !in a && '\0' !in b
    ensures Tokens(CStr(a + " " + b)) == [a, b]
  {
    var line := a + " " + b;
    assert forall k :: 0 <= k < |line| ==> line[k] != '\0' by {
      forall k | 0 <= k < |line|
        ensures line[k] != '\0'
      {
        if k < |a| { assert line[k] == a[k]; } else if k > |a| { assert line[k] == b[k - |a| - 1]; }
      }
    }
    assert CStr(line) == line;
    assert line == a + (" " + b);
    TokensWordThen(a, " " + b);
    assert Tokens(" " + b) == Tokens(b);
    assert b == b + [];
    TokensWordThen(b, []);
  }

  /** A world in which a file can be opened for writing only once the shell has changed
      into the directory `dir`, and every other call succeeds. */
  function InsideDir(dir: string): (w: World)
    ensures forall past, call :: w.succeeds(past, call) <==> (call.OpenForWrite? ==> Chdir(dir) in past)
  {
    World((past: seq<OsCall>, call: OsCall) => call.OpenForWrite? ==> Chdir(dir) in past,
          (past, path) => 0, (past, cmd) => "")
  }

  /** The step of "medit <path>": the file opens exactly when the world lets it. */
  lemma EditLine(path: string, past: seq<OsCall>, w: World, rest: string)
    requires IsWord(path) && '\0' !in path
    ensures var s := StepAt(NameOf(Command.Edit) + " " + path, past, w, rest);
      s.args == [NameOf(Command.Edit), path] && s.dispatch == Runs(Command.Edit) &&
      (s.drained <==> w.succeeds(past, OpenForWrite(path))) &&
      (!s.drained ==> s.effect == Effect([OpenForWrite(path)], [Perror("Error opening file")]))
  {
    var args := [NameOf(Command.Edit), path];
    TwoWords(NameOf(Command.Edit), path);
    DispatchOfName(args, Command.Edit);
    SingleHandler(Command.Edit, args, past, w, rest);
  }

  /** The step of "mcd <dir>": one chdir into `dir`, and no line is drained. */
  lemma CdLine(dir: string, past: seq<OsCall>, w: World, rest: string)
    requires IsWord(dir) && '\0' !in dir
    ensures var s := StepAt(NameOf(Cd) + " " + dir, past, w, rest);
      s.dispatch == Runs(Cd) && s.effect.calls == [Chdir(dir)] && !s.drained
  {
    var args := [NameOf(Cd), dir];
    TwoWords(NameOf(Cd), dir);
    DispatchOfName(args, Cd);
    SingleHandler(Cd, args, past, w, rest);
  }

  /** A loop over three lines whose first two steps go on and whose third uses up the
      input. */
  lemma ThreeSteps(body: Body, lines: seq<string>, s0: Step, s1: Step, s2: Step)
    requires |lines| == 3
    requires s0 == body(lines[0], [], Concat(lines[1..])) && !Ends(s0)
    requires s1 == body(lines[1], s0.effect.calls, Concat(lines[2..])) && !Ends(s1)
    requires s2 == body(lines[2], s0.effect.calls + s1.effect.calls, Concat(lines[3..]))
    requires s2.dispatch != Runs(Exit) && s2.drained
    ensures Loop(body, lines, []) == Session([s0, s1, s2], EndOfInput)
  {
    LoopNext(body, lines, 2, s0.effect.calls + s1.effect.calls, s2);
    LoopNext(body, lines, 1, s0.effect.calls, s1);
    LoopNext(body, lines, 0, [], s0);
    assert [] + s0.effect.calls == s0.effect.calls && lines[0..] == lines;
  }

  /** `medit x`, `mcd d`, `medit x` in a world where x can be opened only inside d: the
      first medit cannot open its file and the loop goes on; the second, after the
      change of directory, opens it and uses up the input. */
  lemma WorkingDirectoryMatters(path: string, dir: string)
    requires IsWord(path) && '\0' !in path && IsWord(dir) && '\0' !in dir
    ensures var edit := NameOf(Command.Edit) + " " + path;
      var r := Run([edit, NameOf(Cd) + " " + dir, edit], InsideDir(dir));
      |r.steps| == 3 && r.ending == EndOfInput &&
      !r.steps[0].drained && r.steps[0].effect.out == [Perror("Error opening file")] &&
      r.steps[2].drained
  {
    var w := InsideDir(dir);
    var edit, cd := NameOf(Command.Edit) + " " + path, NameOf(Cd) + " " + dir;
    var lines := [edit, cd, edit];
    var p1 := [OpenForWrite(path)];
    var p2 := p1 + [Chdir(dir)];
    EditLine(path, [], w, Concat(lines[1..]));
    CdLine(dir, p1, w, Concat(lines[2..]));
    EditLine(path, p2, w, Concat(lines[3..]));
    assert Chdir(dir) !in [] && Chdir(dir) in p2;
    ThreeSteps(Trip(w), lines,
      StepAt(edit, [], w, Concat(lines[1..])),
      StepAt(cd, p1, w, Concat(lines[2..])),
      StepAt(edit, p2, w, Concat(lines[3..])));
  }
}
