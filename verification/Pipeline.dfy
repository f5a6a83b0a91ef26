/** The program as a whole (`main`): resolve the settings, validate, find
    FFmpeg, build both passes, run palette generation, then rendering, then
    the optional gifsicle step, and remove the palette file on every way out
    of that sequence unless this is a dry run. What the program prints and
    runs is recorded as a trace of events; the exit status of each command is
    an input. */
module Pipeline {
  import opened Builtins
  import opened Paths
  import opened Settings
  import opened Validation
  import opened Commands

  /** One observable step: a command echoed to stdout, a command executed
      with its exit status, a warning on stderr, the palette file removed. */
  datatype Event =
    | Echo(cmd: seq<string>)
    | Exec(cmd: seq<string>, code: int)
    | Warning(text: string)
    | RemoveFile(path: string)

  /** Why the program stops with a message instead of an exit status. */
  datatype AbortReason =
    | Invalid(error: ValidationError)
    | ToolMissing(tool: string)
    | NegativeLossy

  /** How the program ends: status 0, a failed command's status, or a
      `SystemExit` message. */
  datatype Exit = Success | Failed(code: int) | Abort(reason: AbortReason)

  /** The commands echoed, in order. */
  function Echoed(trace: seq<Event>): (cmds: seq<seq<string>>)
    ensures |cmds| <= |trace|
  {
    if |trace| == 0 then []
    else (if trace[0].Echo? then [trace[0].cmd] else []) + Echoed(trace[1..])
  }

  /** The commands executed, in order. */
  function Executed(trace: seq<Event>): (cmds: seq<seq<string>>)
    ensures |cmds| <= |trace|
  {
    if |trace| == 0 then []
    else (if trace[0].Exec? then [trace[0].cmd] else []) + Executed(trace[1..])
  }

  /** The files removed, in order. */
  function Removed(trace: seq<Event>): (paths: seq<string>)
    ensures |paths| <= |trace|
  {
    if |trace| == 0 then []
    else (if trace[0].RemoveFile? then [trace[0].path] else []) + Removed(trace[1..])
  }

  /** The warnings printed on stderr, in order. */
  function Warned(trace: seq<Event>): (texts: seq<string>)
    ensures |texts| <= |trace|
  {
    if |trace| == 0 then []
    else (if trace[0].Warning? then [trace[0].text] else []) + Warned(trace[1..])
  }

  /** A command is printed before it runs: every execution directly follows
      the echo of the same command and carries that command's exit status. */
  predicate EchoThenRun(trace: seq<Event>, exitCode: seq<string> -> int) {
    forall i :: 0 <= i < |trace| && trace[i].Exec? ==>
      0 < i && trace[i - 1] == Echo(trace[i].cmd) && trace[i].code == exitCode(trace[i].cmd)
  }

  lemma EchoThenRunAppend(a: seq<Event>, b: seq<Event>, exitCode: seq<string> -> int)
    requires EchoThenRun(a, exitCode) && EchoThenRun(b, exitCode)
    ensures EchoThenRun(a + b, exitCode)
  {
    var t := a + b;
    forall i | 0 <= i < |t| && t[i].Exec?
      ensures 0 < i && t[i - 1] == Echo(t[i].cmd) && t[i].code == exitCode(t[i].cmd)
    {
      if i < |a| {
        assert t[i] == a[i] && t[i - 1] == a[i - 1];
      } else {
        assert t[i] == b[i - |a|];
        assert i - |a| > 0;
        assert t[i - 1] == b[i - |a| - 1];
      }
    }
  }

  lemma {:induction false} WarnedAppend(a: seq<Event>, b: seq<Event>)
    ensures Warned(a + b) == Warned(a) + Warned(b)
  {
    if |a| == 0 {
      assert a + b == b;
    } else {
      var t := a + b;
      assert t[0] == a[0] && t[1..] == a[1..] + b;
      WarnedAppend(a[1..], b);
      var head := if a[0].Warning? then [a[0].text] else [];
      assert Warned(t) == head + Warned(a[1..] + b);
    }
  }

  lemma {:induction false} RemovedAppend(a: seq<Event>, b: seq<Event>)
    ensures Removed(a + b) == Removed(a) + Removed(b)
  {
    if |a| == 0 {
      assert a + b == b;
    } else {
      var t := a + b;
      assert t[0] == a[0] && t[1..] == a[1..] + b;
      RemovedAppend(a[1..], b);
      var head := if a[0].RemoveFile? then [a[0].path] else [];
      assert Removed(t) == head + Removed(a[1..] + b);
    }
  }

  lemma {:induction false} EchoedAppend(a: seq<Event>, b: seq<Event>)
    ensures Echoed(a + b) == Echoed(a) + Echoed(b)
  {
    if |a| == 0 {
      assert a + b == b;
    } else {
      var t := a + b;
      assert t[0] == a[0] && t[1..] == a[1..] + b;
      EchoedAppend(a[1..], b);
      var head := if a[0].Echo? then [a[0].cmd] else [];
      assert Echoed(t) == head + Echoed(a[1..] + b);
    }
  }

  lemma {:induction false} ExecutedAppend(a: seq<Event>, b: seq<Event>)
    ensures Executed(a + b) == Executed(a) + Executed(b)
  {
    if |a| == 0 {
      assert a + b == b;
    } else {
      var t := a + b;
      assert t[0] == a[0] && t[1..] == a[1..] + b;
      ExecutedAppend(a[1..], b);
      var head := if a[0].Exec? then [a[0].cmd] else [];
      assert Executed(t) == head + Executed(a[1..] + b);
    }
  }

  lemma EventsAppend(a: seq<Event>, b: seq<Event>)
    ensures Echoed(a + b) == Echoed(a) + Echoed(b)
    ensures Executed(a + b) == Executed(a) + Executed(b)
    ensures Removed(a + b) == Removed(a) + Removed(b)
    ensures Warned(a + b) == Warned(a) + Warned(b)
  {
    WarnedAppend(a, b);
    EchoedAppend(a, b);
    ExecutedAppend(a, b);
    RemovedAppend(a, b);
  }

  /** The palette and render commands `main` builds for these arguments. */
  function PlannedPasses(args: Args, ffmpeg: string, palette: string): (seq<string>, seq<string>)
    requires OutputPath(args).Some?
  {
    var settings := ResolveSettings(args);
    var vf := Join(FilterChain(settings, args), ',');
    var commonInput := Flatten(InputOptions(args));
    var out := ToString(OutputPath(args).value);
    (PaletteCmd(ffmpeg, commonInput, vf, settings, palette),
     RenderCmd(ffmpeg, commonInput, vf, settings, palette, args.loop, out))
  }

  /** `run_command`: echo the command, then run it unless this is a dry run;
      a dry run reports success. */
  method RunCommand(cmd: seq<string>, dryRun: bool, exitCode: seq<string> -> int)
    returns (events: seq<Event>, code: int)
    ensures events == [Echo(cmd)] + (if dryRun then [] else [Exec(cmd, exitCode(cmd))])
    ensures EchoThenRun(events, exitCode)
    ensures Echoed(events) == [cmd]
    ensures Executed(events) == if dryRun then [] else [cmd]
    ensures code == if dryRun then 0 else exitCode(cmd)
    ensures Removed(events) == [] && Warned(events) == []
  {
    if dryRun {
      events, code := [Echo(cmd)], 0;
      assert events[1..] == [];
    } else {
      code := exitCode(cmd);
      events := [Echo(cmd), Exec(cmd, code)];
      assert events[1..] == [Exec(cmd, code)] && events[1..][1..] == [];
    }
  }

  /** What `maybe_optimize_gif` prints when gifsicle is not installed. */
  const GifsicleMissingText: string := "gifsicle not found; skipping optimization."

  /** Whatever warning the events hold is the missing-gifsicle notice, printed last. */
  predicate WarningLast(events: seq<Event>) {
    Warned(events) != [] ==> |events| >= 1 && events[|events| - 1] == Warning(GifsicleMissingText)
  }

  lemma WarningLastAppend(a: seq<Event>, b: seq<Event>)
    requires Warned(a) == [] && WarningLast(b)
    ensures WarningLast(a + b)
  {
    WarnedAppend(a, b);
    if Warned(a + b) != [] {
      assert (a + b)[|a + b| - 1] == b[|b| - 1];
    }
  }

  /** The end of `maybe_optimize_gif`: the warning when gifsicle is missing,
      `SystemExit` for a negative lossy level, or running the command. */
  method RunOptimizeStep(step: OptimizeStep, dryRun: bool, exitCode: seq<string> -> int)
    returns (events: seq<Event>, exit: Exit)
    ensures events == match step
      case NotRequested => []
      case GifsicleMissing => [Warning(GifsicleMissingText)]
      case LossyNegative => []
      case Optimize(cmd) => [Echo(cmd)] + (if dryRun then [] else [Exec(cmd, exitCode(cmd))])
    ensures EchoThenRun(events, exitCode)
    ensures Echoed(events) == if step.Optimize? then [step.cmd] else []
    ensures Executed(events) == if step.Optimize? && !dryRun then [step.cmd] else []
    ensures Removed(events) == []
    ensures Warned(events) == if step.GifsicleMissing? then [GifsicleMissingText] else []
    ensures WarningLast(events)
    ensures exit == match step
      case NotRequested => Success
      case GifsicleMissing => Success
      case LossyNegative => Abort(NegativeLossy)
      case Optimize(cmd) =>
        if dryRun || exitCode(cmd) == 0 then Success else Failed(exitCode(cmd))
  {
    match step
    case NotRequested =>
      events, exit := [], Success;
    case GifsicleMissing =>
      events := [Warning(GifsicleMissingText)];
      assert events[1..] == [];
      exit := Success;
    case LossyNegative =>
      events, exit := [], Abort(NegativeLossy);
    case Optimize(cmd) =>
      var code;
      events, code := RunCommand(cmd, dryRun, exitCode);
      exit := if code != 0 then Failed(code) else Success;
  }

  /** The warnings of the optimisation step: gifsicle was asked for but is
      missing, and the passes before it went through (or were only echoed). */
  function OptimizeWarnings(passed: bool, optimize: bool, gifsiclePath: Option<string>): seq<string> {
    if passed && optimize && !Truthy(gifsiclePath) then [GifsicleMissingText] else []
  }

  /** How the render pass and the gifsicle step after it can go, judged
      from the commands they echoed: the render command first, the gifsicle
      command only after it succeeded; a failure carries the status of the
      last command, success means every command run succeeded, and the only
      other way out is a negative lossy level after the render pass. */
  predicate RenderOutcome(renderCmd: seq<string>, output: string,
                          settings: Preset, optimize: bool, lossy: Option<int>,
                          gifsiclePath: Option<string>, dryRun: bool, exitCode: seq<string> -> int,
                          cmds: seq<seq<string>>, exit: Exit)
  {
    && 1 <= |cmds| <= 2 && cmds[0] == renderCmd
    && (|cmds| == 2 ==>
          && (!dryRun ==> exitCode(renderCmd) == 0)
          && optimize && Truthy(gifsiclePath) && !(lossy.Some? && lossy.value < 0)
          && cmds[1] == GifsicleCmd(gifsiclePath.value, settings.colors, lossy, output))
    && (exit.Failed? ==> !dryRun && exit.code != 0 && exit.code == exitCode(cmds[|cmds| - 1]))
    && (exit == Success && !dryRun ==> forall i :: 0 <= i < |cmds| ==> exitCode(cmds[i]) == 0)
    && (exit == Success && |cmds| == 1 ==> !optimize || !Truthy(gifsiclePath))
    && (exit.Abort? ==>
          && exit.reason == NegativeLossy && |cmds| == 1
          && (!dryRun ==> exitCode(renderCmd) == 0)
          && optimize && Truthy(gifsiclePath) && lossy.Some? && lossy.value < 0)
  }

  /** A render pass that succeeded (or was only echoed), followed by the
      gifsicle step `maybe_optimize_gif` chose and what running it gave. */
  lemma RenderThenOptimize(renderCmd: seq<string>, output: string,
                           settings: Preset, optimize: bool, lossy: Option<int>,
                           gifsiclePath: Option<string>, dryRun: bool, exitCode: seq<string> -> int,
                           step: OptimizeStep, stepCmds: seq<seq<string>>, stepWarned: seq<string>,
                           exit: Exit)
    requires !dryRun ==> exitCode(renderCmd) == 0
    requires !optimize ==> step == NotRequested
    requires optimize && !Truthy(gifsiclePath) ==> step == GifsicleMissing
    requires optimize && Truthy(gifsiclePath) && lossy.Some? && lossy.value < 0 ==> step == LossyNegative
    requires step.Optimize? <==> optimize && Truthy(gifsiclePath) && !(lossy.Some? && lossy.value < 0)
    requires step.Optimize? ==> step.cmd == GifsicleCmd(gifsiclePath.value, settings.colors, lossy, output)
    requires stepCmds == if step.Optimize? then [step.cmd] else []
    requires stepWarned == if step.GifsicleMissing? then [GifsicleMissingText] else []
    requires exit == match step
      case NotRequested => Success
      case GifsicleMissing => Success
      case LossyNegative => Abort(NegativeLossy)
      case Optimize(cmd) =>
        if dryRun || exitCode(cmd) == 0 then Success else Failed(exitCode(cmd))
    ensures RenderOutcome(renderCmd, output, settings, optimize, lossy, gifsiclePath,
                          dryRun, exitCode, [renderCmd] + stepCmds, exit)
    ensures stepWarned == OptimizeWarnings(true, optimize, gifsiclePath)
  {
    var cmds := [renderCmd] + stepCmds;
    if step.Optimize? {
      assert cmds == [renderCmd, step.cmd];
    } else {
      assert cmds == [renderCmd];
    }
  }

  /** The render pass and, if it succeeded, the gifsicle step. */
  method RunRenderAndOptimize(renderCmd: seq<string>, output: string,
                              settings: Preset, optimize: bool, lossy: Option<int>,
                              gifsiclePath: Option<string>, dryRun: bool, exitCode: seq<string> -> int)
    returns (trace: seq<Event>, exit: Exit)
    ensures RenderOutcome(renderCmd, output, settings, optimize, lossy, gifsiclePath,
                          dryRun, exitCode, Echoed(trace), exit)
    ensures Executed(trace) == if dryRun then [] else Echoed(trace)
    ensures Removed(trace) == []
    ensures Warned(trace) == OptimizeWarnings(dryRun || exitCode(renderCmd) == 0, optimize, gifsiclePath)
    ensures WarningLast(trace)
    ensures EchoThenRun(trace, exitCode)
  {
    var code;
    trace, code := RunCommand(renderCmd, dryRun, exitCode);
    if code != 0 {
      return trace, Failed(code);
    }
    var step := MaybeOptimize(output, settings, optimize, lossy, gifsiclePath);
    var events;
    events, exit := RunOptimizeStep(step, dryRun, exitCode);
    EventsAppend(trace, events);
    EchoThenRunAppend(trace, events, exitCode);
    WarningLastAppend(trace, events);
    RenderThenOptimize(renderCmd, output, settings, optimize, lossy, gifsiclePath,
                       dryRun, exitCode, step, Echoed(events), Warned(events), exit);
    trace := trace + events;
  }

  /** How the `try` block of `main` can go, judged from the commands it
      echoed: the palette pass first, the render pass only after the palette
      pass succeeded, the gifsicle command only after the render pass
      succeeded; a failure carries the status of the last command, success
      means every command run succeeded, and the only other way out is a
      negative lossy level once both passes ran. */
  predicate TryOutcome(paletteCmd: seq<string>, renderCmd: seq<string>, output: string,
                       settings: Preset, optimize: bool, lossy: Option<int>,
                       gifsiclePath: Option<string>, dryRun: bool, exitCode: seq<string> -> int,
                       cmds: seq<seq<string>>, exit: Exit)
  {
    && 1 <= |cmds| <= 3 && cmds[0] == paletteCmd
    && (|cmds| >= 2 ==> cmds[1] == renderCmd && (!dryRun ==> exitCode(paletteCmd) == 0))
    && (|cmds| == 3 && !dryRun ==> exitCode(renderCmd) == 0)
    && (|cmds| == 3 ==>
          && optimize && Truthy(gifsiclePath) && !(lossy.Some? && lossy.value < 0)
          && cmds[2] == GifsicleCmd(gifsiclePath.value, settings.colors, lossy, output))
    && (exit.Failed? ==> !dryRun && exit.code != 0 && exit.code == exitCode(cmds[|cmds| - 1]))
    && (exit == Success ==>
          && |cmds| >= 2
          && (!dryRun ==> forall i :: 0 <= i < |cmds| ==> exitCode(cmds[i]) == 0))
    && (exit == Success && |cmds| == 2 ==> !optimize || !Truthy(gifsiclePath))
    && (exit.Abort? ==>
          && exit.reason == NegativeLossy && |cmds| == 2
          && (!dryRun ==> exitCode(renderCmd) == 0)
          && optimize && Truthy(gifsiclePath) && lossy.Some? && lossy.value < 0)
  }

  /** A palette pass that succeeded (or was only echoed), followed by the
      render pass and the gifsicle step, makes a complete `try` block. */
  lemma TryAfterPalette(paletteCmd: seq<string>, renderCmd: seq<string>, output: string,
                        settings: Preset, optimize: bool, lossy: Option<int>,
                        gifsiclePath: Option<string>, dryRun: bool, exitCode: seq<string> -> int,
                        rest: seq<seq<string>>, exit: Exit)
    requires !dryRun ==> exitCode(paletteCmd) == 0
    requires RenderOutcome(renderCmd, output, settings, optimize, lossy, gifsiclePath,
                           dryRun, exitCode, rest, exit)
    ensures TryOutcome(paletteCmd, renderCmd, output, settings, optimize, lossy, gifsiclePath,
                       dryRun, exitCode, [paletteCmd] + rest, exit)
  {
    var cmds := [paletteCmd] + rest;
    if exit == Success && !dryRun {
      forall i | 0 <= i < |cmds| ensures exitCode(cmds[i]) == 0 {
        if i > 0 { assert cmds[i] == rest[i - 1]; }
      }
    }
  }

  /** The `try` block of `main`: the palette pass, then (if it succeeded)
      the render pass, then (if that succeeded) the gifsicle step. */
  method RunPasses(paletteCmd: seq<string>, renderCmd: seq<string>, output: string,
                   settings: Preset, optimize: bool, lossy: Option<int>,
                   gifsiclePath: Option<string>, dryRun: bool, exitCode: seq<string> -> int)
    returns (trace: seq<Event>, exit: Exit)
    ensures TryOutcome(paletteCmd, renderCmd, output, settings, optimize, lossy, gifsiclePath,
                       dryRun, exitCode, Echoed(trace), exit)
    ensures Executed(trace) == if dryRun then [] else Echoed(trace)
    ensures Removed(trace) == []
    ensures Warned(trace) == OptimizeWarnings(dryRun || (exitCode(paletteCmd) == 0 && exitCode(renderCmd) == 0),
                                              optimize, gifsiclePath)
    ensures WarningLast(trace)
    ensures EchoThenRun(trace, exitCode)
  {
    var code;
    trace, code := RunCommand(paletteCmd, dryRun, exitCode);
    if code != 0 {
      return trace, Failed(code);
    }
    var rest;
    rest, exit := RunRenderAndOptimize(renderCmd, output, settings, optimize, lossy,
                                       gifsiclePath, dryRun, exitCode);
    EventsAppend(trace, rest);
    EchoThenRunAppend(trace, rest, exitCode);
    TryAfterPalette(paletteCmd, renderCmd, output, settings, optimize, lossy, gifsiclePath,
                    dryRun, exitCode, Echoed(rest), exit);
    WarningLastAppend(trace, rest);
    trace := trace + rest;
  }

  /** Events other than commands add nothing to what was echoed or run. */
  lemma {:induction false} QuietEvents(events: seq<Event>)
    requires forall i :: 0 <= i < |events| ==> !events[i].Echo? && !events[i].Exec?
    ensures Echoed(events) == [] && Executed(events) == []
  {
    if |events| > 0 {
      QuietEvents(events[1..]);
    }
  }

  /** What the `except` clause of `main` prints for a failed command. */
  function ConversionFailed(code: int): string {
    "Conversion failed (exit code " + IntToString(code) + ")."
  }

  /** What the `except` and `finally` clauses add after the `try` block:
      the report of a failed command, then the removal of the palette file
      unless this is a dry run. Neither echoes nor runs a command. */
  function CleanupEvents(exit: Exit, palette: string, dryRun: bool): (tail: seq<Event>)
    ensures forall i :: 0 <= i < |tail| ==> !tail[i].Echo? && !tail[i].Exec?
    ensures Removed(tail) == if dryRun then [] else [palette]
    ensures Warned(tail) == if exit.Failed? then [ConversionFailed(exit.code)] else []
    ensures !dryRun ==> |tail| >= 1 && tail[|tail| - 1] == RemoveFile(palette)
    ensures exit.Failed? ==> |tail| >= 1 && tail[0] == Warning(ConversionFailed(exit.code))
  {
    (if exit.Failed? then [Warning(ConversionFailed(exit.code))] else [])
    + (if dryRun then [] else [RemoveFile(palette)])
  }

  /** The `except` and `finally` clauses of `main`, appended to the events
      of the `try` block, which are kept as they are. */
  method ExceptFinally(events: seq<Event>, exit: Exit, palette: string, dryRun: bool)
    returns (trace: seq<Event>)
    ensures trace == events + CleanupEvents(exit, palette, dryRun)
    ensures Echoed(trace) == Echoed(events) && Executed(trace) == Executed(events)
    ensures Removed(trace) == Removed(events) + (if dryRun then [] else [palette])
    ensures Warned(trace) == Warned(events) + (if exit.Failed? then [ConversionFailed(exit.code)] else [])
    ensures !dryRun ==> |trace| >= 1 && trace[|trace| - 1] == RemoveFile(palette)
    ensures exit.Failed? && !dryRun ==> |trace| >= 2 && trace[|trace| - 2] == Warning(ConversionFailed(exit.code))
  {
    var tail: seq<Event> := [];
    if exit.Failed? {
      tail := [Warning(ConversionFailed(exit.code))];
    }
    if !dryRun {
      tail := tail + [RemoveFile(palette)];
    }
    assert tail == CleanupEvents(exit, palette, dryRun);
    QuietEvents(tail);
    EventsAppend(events, tail);
    trace := events + tail;
  }

  /** Only a command that really ran can fail: a dry run never ends in a
      failure status. */
  lemma FailedIsNotDry(paletteCmd: seq<string>, renderCmd: seq<string>, output: string,
                       settings: Preset, optimize: bool, lossy: Option<int>,
                       gifsiclePath: Option<string>, dryRun: bool, exitCode: seq<string> -> int,
                       cmds: seq<seq<string>>, exit: Exit)
    requires TryOutcome(paletteCmd, renderCmd, output, settings, optimize, lossy, gifsiclePath,
                        dryRun, exitCode, cmds, exit)
    ensures exit.Failed? ==> !dryRun
  {
  }

  lemma CleanupRunsNothing(exit: Exit, palette: string, dryRun: bool, exitCode: seq<string> -> int)
    ensures EchoThenRun(CleanupEvents(exit, palette, dryRun), exitCode)
  {
    var tail := CleanupEvents(exit, palette, dryRun);
    assert forall i :: 0 <= i < |tail| ==> !tail[i].Exec?;
  }

  /** How the `try`/`except`/`finally` of `main` can go: the `try` block's
      outcome, with the effects and the ending below, and every command run
      right after it is echoed. */
  predicate CleanupOutcome(paletteCmd: seq<string>, renderCmd: seq<string>, output: string,
                           settings: Preset, optimize: bool, lossy: Option<int>,
                           gifsiclePath: Option<string>, palette: string, dryRun: bool,
                           exitCode: seq<string> -> int, trace: seq<Event>, exit: Exit)
  {
    var warnings := OptimizeWarnings(dryRun || (exitCode(paletteCmd) == 0 && exitCode(renderCmd) == 0),
                                     optimize, gifsiclePath);
    && TryOutcome(paletteCmd, renderCmd, output, settings, optimize, lossy, gifsiclePath,
                  dryRun, exitCode, Echoed(trace), exit)
    && CleanupEffects(trace, exit, palette, dryRun, warnings)
    && EndsWithCleanup(trace, exit, palette, dryRun, warnings != [])
    && EchoThenRun(trace, exitCode)
  }

  /** Nothing runs in a dry run and otherwise everything echoed runs; the
      palette file is removed once, unless this is a dry run; the warnings are
      those of the passes, then the failure report when a command failed. */
  predicate CleanupEffects(trace: seq<Event>, exit: Exit, palette: string, dryRun: bool,
                           warnings: seq<string>)
  {
    && Executed(trace) == (if dryRun then [] else Echoed(trace))
    && Removed(trace) == (if dryRun then [] else [palette])
    && Warned(trace) == warnings + (if exit.Failed? then [ConversionFailed(exit.code)] else [])
  }

  /** The trace ends with the cleanup events: the removal of the palette
      file is the last event outside a dry run, a failure report comes just
      before it, and the missing-gifsicle warning, when it was printed,
      comes right before the cleanup events. */
  predicate EndsWithCleanup(trace: seq<Event>, exit: Exit, palette: string, dryRun: bool, warned: bool) {
    var tail := CleanupEvents(exit, palette, dryRun);
    && |tail| <= |trace| && trace[|trace| - |tail|..] == tail
    && (!dryRun ==> |trace| >= 1 && trace[|trace| - 1] == RemoveFile(palette))
    && (exit.Failed? ==> |trace| >= 2 && trace[|trace| - 2] == Warning(ConversionFailed(exit.code)))
    && (warned ==> |trace| > |tail| && trace[|trace| - |tail| - 1] == Warning(GifsicleMissingText))
  }

  /** The events of the `try` block, as `RunPasses` describes them, followed
      by the cleanup events, make a complete outcome. */
  lemma CleanupAfterPasses(paletteCmd: seq<string>, renderCmd: seq<string>, output: string,
                           settings: Preset, optimize: bool, lossy: Option<int>,
                           gifsiclePath: Option<string>, palette: string, dryRun: bool,
                           exitCode: seq<string> -> int, passes: seq<Event>, exit: Exit)
    requires TryOutcome(paletteCmd, renderCmd, output, settings, optimize, lossy, gifsiclePath,
                        dryRun, exitCode, Echoed(passes), exit)
    requires Executed(passes) == if dryRun then [] else Echoed(passes)
    requires Removed(passes) == []
    requires Warned(passes) == OptimizeWarnings(dryRun || (exitCode(paletteCmd) == 0 && exitCode(renderCmd) == 0),
                                                optimize, gifsiclePath)
    requires WarningLast(passes)
    requires EchoThenRun(passes, exitCode)
    requires exit.Failed? ==> !dryRun
    ensures CleanupOutcome(paletteCmd, renderCmd, output, settings, optimize, lossy, gifsiclePath,
                           palette, dryRun, exitCode, passes + CleanupEvents(exit, palette, dryRun), exit)
  {
    var tail := CleanupEvents(exit, palette, dryRun);
    CleanupKeepsEffects(passes, exit, palette, dryRun, Warned(passes));
    EndsWithCleanupAppend(passes, exit, palette, dryRun, Warned(passes) != []);
    CleanupRunsNothing(exit, palette, dryRun, exitCode);
    EchoThenRunAppend(passes, tail, exitCode);
  }

  /** The cleanup events add no command, one removal outside a dry run and
      the failure report. */
  lemma CleanupKeepsEffects(passes: seq<Event>, exit: Exit, palette: string, dryRun: bool,
                            warnings: seq<string>)
    requires Executed(passes) == if dryRun then [] else Echoed(passes)
    requires Removed(passes) == [] && Warned(passes) == warnings
    ensures Echoed(passes + CleanupEvents(exit, palette, dryRun)) == Echoed(passes)
    ensures CleanupEffects(passes + CleanupEvents(exit, palette, dryRun), exit, palette, dryRun, warnings)
  {
    var tail := CleanupEvents(exit, palette, dryRun);
    QuietEvents(tail);
    EventsAppend(passes, tail);
  }

  lemma EndsWithCleanupAppend(passes: seq<Event>, exit: Exit, palette: string, dryRun: bool, warned: bool)
    requires exit.Failed? ==> !dryRun
    requires warned ==> |passes| >= 1 && passes[|passes| - 1] == Warning(GifsicleMissingText)
    ensures EndsWithCleanup(passes + CleanupEvents(exit, palette, dryRun), exit, palette, dryRun, warned)
  {
    var tail := CleanupEvents(exit, palette, dryRun);
    var trace := passes + tail;
    assert trace[|trace| - |tail|..] == tail;
    if !dryRun {
      assert trace[|trace| - 1] == tail[|tail| - 1];
      if exit.Failed? {
        assert |tail| == 2 && trace[|trace| - 2] == tail[0];
      }
    }
    if warned {
      assert trace[|trace| - |tail| - 1] == passes[|passes| - 1];
    }
  }

  /** The `try`/`except`/`finally` of `main`: the passes; a report of the
      status when a command failed; then the removal of the palette file
      whatever way the passes ended, unless this is a dry run. */
  method RunWithCleanup(paletteCmd: seq<string>, renderCmd: seq<string>, output: string,
                        settings: Preset, optimize: bool, lossy: Option<int>,
                        gifsiclePath: Option<string>, palette: string, dryRun: bool,
                        exitCode: seq<string> -> int)
    returns (trace: seq<Event>, exit: Exit)
    ensures CleanupOutcome(paletteCmd, renderCmd, output, settings, optimize, lossy, gifsiclePath,
                           palette, dryRun, exitCode, trace, exit)
  {
    var passes;
    passes, exit := RunPasses(paletteCmd, renderCmd, output, settings,
                              optimize, lossy, gifsiclePath, dryRun, exitCode);
    FailedIsNotDry(paletteCmd, renderCmd, output, settings, optimize, lossy, gifsiclePath,
                   dryRun, exitCode, Echoed(passes), exit);
    trace := ExceptFinally(passes, exit, palette, dryRun);
    CleanupAfterPasses(paletteCmd, renderCmd, output, settings, optimize, lossy, gifsiclePath,
                       palette, dryRun, exitCode, passes, exit);
  }

  /** Validation passed and FFmpeg was found, so the passes were started. */
  predicate Started(args: Args, fs: FileSystem, ffmpegPath: Option<string>) {
    Validate(args, ResolveSettings(args), fs) == Pass && Truthy(ffmpegPath)
  }

  /** What `main` promises once it starts the passes for these arguments:
      the try/except/finally outcome of the planned commands, built from the
      resolved settings and the output path. */
  predicate PassesOutcome(args: Args, ffmpeg: string, gifsiclePath: Option<string>, palette: string,
                          exitCode: seq<string> -> int, trace: seq<Event>, exit: Exit)
    requires OutputPath(args).Some?
  {
    var (paletteCmd, renderCmd) := PlannedPasses(args, ffmpeg, palette);
    CleanupOutcome(paletteCmd, renderCmd, ToString(OutputPath(args).value), ResolveSettings(args),
                   args.optimize, args.lossy, gifsiclePath, palette, args.dryRun, exitCode, trace, exit)
  }

  /** The part of `main` after the checks: build the filter graph, the input
      options and both passes, then run them inside the `try`/`finally`. */
  method StartPasses(args: Args, ffmpeg: string, gifsiclePath: Option<string>, palette: string,
                     exitCode: seq<string> -> int)
    returns (trace: seq<Event>, exit: Exit)
    requires OutputPath(args).Some?
    ensures PassesOutcome(args, ffmpeg, gifsiclePath, palette, exitCode, trace, exit)
  {
    var settings := ResolveSettings(args);
    var out := ToString(OutputPath(args).value);
    var vf := BuildVideoFilter(settings, args);
    var commonInput := BuildCommonInputArgs(args);
    var paletteCmd := PaletteCmd(ffmpeg, commonInput, vf, settings, palette);
    var renderCmd := RenderCmd(ffmpeg, commonInput, vf, settings, palette, args.loop, out);
    assert (paletteCmd, renderCmd) == PlannedPasses(args, ffmpeg, palette);
    trace, exit := RunWithCleanup(paletteCmd, renderCmd, out, settings, args.optimize,
                                  args.lossy, gifsiclePath, palette, args.dryRun, exitCode);
  }

  /** What `main` prints before anything runs: the extension warning, if any. */
  function Preamble(args: Args, fs: FileSystem): seq<Event> {
    match ExtensionWarning(args, fs)
    case None => []
    case Some(text) => [Warning(text)]
  }

  /** `main`: a rejected command line or a missing FFmpeg stops the program
      before anything runs; otherwise the passes start. Either way the
      extension warning, if any, comes first. */
  method RunMain(args: Args, fs: FileSystem, ffmpegPath: Option<string>,
                 gifsiclePath: Option<string>, palette: string,
                 exitCode: seq<string> -> int)
    returns (trace: seq<Event>, exit: Exit)
    ensures Validate(args, ResolveSettings(args), fs).Fail? ==>
      trace == Preamble(args, fs) && exit == Abort(Invalid(Validate(args, ResolveSettings(args), fs).error))
    ensures Validate(args, ResolveSettings(args), fs) == Pass && !Truthy(ffmpegPath) ==>
      trace == Preamble(args, fs) && exit == Abort(ToolMissing("ffmpeg"))
    ensures Started(args, fs, ffmpegPath) ==>
      && OutputPath(args).Some?
      && |Preamble(args, fs)| <= |trace| && trace[..|Preamble(args, fs)|] == Preamble(args, fs)
      && PassesOutcome(args, ffmpegPath.value, gifsiclePath, palette, exitCode,
                       trace[|Preamble(args, fs)|..], exit)
    ensures !Started(args, fs, ffmpegPath) ==>
      trace == Preamble(args, fs) && exit.Abort? && !exit.reason.NegativeLossy?
  {
    var check := Validate(args, ResolveSettings(args), fs);
    var preamble := Preamble(args, fs);
    if check.Fail? {
      return preamble, Abort(Invalid(check.error));
    }
    if !Truthy(ffmpegPath) {
      return preamble, Abort(ToolMissing("ffmpeg"));
    }
    var rest;
    rest, exit := StartPasses(args, ffmpegPath.value, gifsiclePath, palette, exitCode);
    trace := preamble + rest;
    assert trace[..|preamble|] == preamble && trace[|preamble|..] == rest;
  }
}
