# GIF maker — a Dafny model

`gif_maker.py` turns a screen recording into a GIF with FFmpeg's two-pass
palette workflow. It works in three passes:

1. A first FFmpeg pass computes an optimal palette (`palettegen`).
2. A second pass renders the GIF through that palette (`paletteuse`).
3. An optional `gifsicle` pass recompresses the result in place.

This project models the core of that program:

- the quality presets and how command-line overrides resolve against them;
- the checks that reject a command line before anything runs;
- where the GIF is written;
- the FFmpeg input options and the shared filter chain;
- the palette and render commands;
- the gifsicle command;
- the `try`/`except`/`finally` sequencing of `main`, which removes the
  palette file on every way out of the passes.

## How the model is organised

- `Builtins.dfy`: the Python behaviour the program relies on.
  - `Option` and the truthiness of an optional string (`None` and `""` are
    both falsy).
  - `str.join`, and `str.split` as its partner.
  - `str(int)`, with a decimal reader as its partner.
  - `str.lower` on ASCII letters.
- `Paths.dfy`: the part of `pathlib.PurePosixPath` that `output_path` and the
  commands use, following CPython 3.12 on POSIX.
  - Parsing: exactly two leading slashes are kept as a root of their own;
    empty and `.` components are dropped.
  - `str()`, `name`, `suffix` and `with_suffix`, which raises `ValueError`
    when the name is empty.
- `Settings.dfy`: the preset table, the argparse namespace and
  `resolve_settings`. An override counts whenever it was given, even as `0`,
  because the source tests `is not None`.
- `Validation.dfy`: `output_path`, the uncommon-extension warning and
  `validate_args`.
  - The file system is an input: the set of paths that exist and the set of
    those that are regular files.
  - `validate_args` returns the first failing check as a typed error.
- `Commands.dfy`: the command lines.
  - `build_common_input_args` and `build_video_filter` are imperative
    methods. Each builds its list step by step and is proved equal to a
    specification function (`InputOptions`, `FilterChain`) whose properties
    are proved as lemmas.
  - The palette and render commands, and the gifsicle command with the
    decision `maybe_optimize_gif` takes.
- `Pipeline.dfy`: `run_command`, `maybe_optimize_gif` and `main` as
  imperative methods that produce a trace of events.
  - The events are: a command echoed, a command executed with its exit
    status, a warning on stderr, and the palette file removed.
  - The exit status of every command is an input function.
  - `main` ends with status 0, with the status of the failed command, or
    with a `SystemExit` message, modelled as a typed abort reason.

The main properties proved:

- The passes run in order: palette, then render, then gifsicle. Each runs
  only after the previous one succeeded.
- A dry run executes nothing. Otherwise everything echoed is executed, each
  command right after its echo and with its own exit status.
- The only warnings are the missing-gifsicle notice, printed exactly when
  optimisation was asked for, gifsicle is absent and both passes went
  through, and the failure report.
- A failure reports the status of the last command.
- The palette file is removed exactly once, as the last event, unless this
  is a dry run, even when a command fails or a negative lossy level stops
  the program.
- A command line that fails validation, or a missing FFmpeg, stops the
  program before anything runs. Only the extension warning can come first.
- `validate_args` reports the first failing check in its order. The frame
  rate, dithering, Bayer scale, crop, loop and lossy level never affect its
  verdict.
- The preset entries are well formed. Without overrides the resolved
  settings are the preset.
- `output_path` keeps the input's directory and stem and has the suffix
  `.gif`. Without `--output`, an input that is already a `.gif` is its own
  output, so it is refused unless `--overwrite` is given.
- A normalised path survives `str()` followed by `Path()`.
- The filter chain joined with commas splits back into its filters when
  the crop and the speed hold no comma. The palette graph is that chain
  followed by `palettegen`. The render graph is that chain labelled `[x]`
  followed by `paletteuse`, whose options read back as the dithering
  algorithm, the Bayer scale and the diff mode.
- Both FFmpeg passes share the same input options and filter chain. The
  render pass reads the palette file the palette pass writes.
- The numbers written into the commands read back as the original values.

## Model

| member | source | states |
|---|---|---|
| Settings.PresetTable | gif_maker.py:31-44 | every preset has a positive rate and width, 2-256 colours, a Bayer scale in 0-5 and one of the offered dithering algorithms |
| Settings.ResolveSettings | gif_maker.py:112-120 | each effective field is the override when the option was given (even 0 or ""), otherwise the chosen preset's value |
| Settings.NoOverrideIsPreset | gif_maker.py:112-120 | without overrides the effective settings are exactly the preset |
| Settings.ResolvedAdmissible | gif_maker.py:63-74 | the argparse choices for dither and Bayer scale carry through resolution; the result is well formed iff rate, width and colours are in range |
| Validation.OutputPath | gif_maker.py:153-159 | a non-empty `--output` is used as given; otherwise the input path with suffix `.gif`, same parent and same stem, and no path exactly when the input has no name |
| Validation.ExtensionWarning | gif_maker.py:127-131 | the warning is printed iff the input is a file and its lower-cased suffix is not a usual recording container |
| Validation.ExtensionWarningCases | gif_maker.py:21-28 | a name ending in a usual container, in any letter case, draws no warning; a name without suffix always does |
| Validation.Validate | gif_maker.py:123-150 | passes iff all checks hold; each error (input not a file, duration with end, width, colours, speed, nameless output, existing output without `--overwrite`) is reported iff its condition holds and every earlier check passed, and carries the input or output path it is about |
| Validation.ValidateIgnores | gif_maker.py:123-150 | crop, loop, lossy, fps, dither and Bayer scale never change the verdict |
| Paths.ParseToString | gif_maker.py:155-158 | a normalised path printed and parsed again is unchanged |
| Paths.ParseIdempotent | gif_maker.py:155-158 | `Path(str(Path(s))) == Path(s)` |
| Paths.WithSuffixSpec | gif_maker.py:158 | on a path with a name, `with_suffix(".gif")` succeeds, keeps root, parent and stem, and the new name's suffix is `.gif` |
| Paths.WithSuffixKeepsOwnSuffix | gif_maker.py:158 | a path whose name already has the suffix is returned unchanged |
| Validation.GifInputIsItsOwnOutput | gif_maker.py:145-158 | without `--output` a `.gif` input is its own output path, so an existing input is refused as an existing output unless `--overwrite`, and exactly with that error once the earlier checks pass |
| Commands.InputOptions | gif_maker.py:162-170 | `-i input` first, then `-ss`, `-to`, `-t` in that order, each carrying the matching option's value |
| Commands.InputOptionsFlags | gif_maker.py:162-170 | `-ss` iff a start was given, `-to` iff an end was given, `-t` iff a duration but no end was given; never both `-to` and `-t` |
| Commands.BuildCommonInputArgs | gif_maker.py:162-170 | the list built step by step is the flattened `InputOptions` |
| Commands.FilterChain | gif_maker.py:173-180 | the rate first, the crop (when given) before the scale, the retiming (when speed is not exactly 1) last |
| Commands.BuildVideoFilter | gif_maker.py:173-180 | the string built step by step is the chain joined with commas |
| Commands.ChainWithoutCommas | gif_maker.py:173-180 | no filter holds a comma when the crop and the speed text hold none |
| Commands.ChainReadBack | gif_maker.py:173-180 | the chain joined with commas splits back into the chain |
| Commands.PaletteGraphReadBack | gif_maker.py:246-247 | the palette graph splits at commas into the chain followed by `palettegen` |
| Commands.PaletteGenReadBack | gif_maker.py:247 | palettegen's options split at colons into the colour count and `stats_mode=full` |
| Commands.PaletteUseReadBack | gif_maker.py:253 | paletteuse's options split at colons into the dithering algorithm, the Bayer scale and `diff_mode=rectangle` |
| Commands.RenderGraphReadBack | gif_maker.py:251-254 | the render graph splits at semicolons into the chain labelled `[x]` and paletteuse reading `[x]` and the palette input `[1:v]` |
| Commands.PassesAgree | gif_maker.py:238-266 | both passes start with FFmpeg, `-y` and the same input options; the palette pass keeps one frame and writes the palette graph to the palette file; the render pass reads that file, filters with the render graph and ends with the loop count and the output |
| Commands.GifsicleCmdShape | gif_maker.py:209-219 | `-O3` and the palette size, `--lossy=N` exactly when a level was given, the GIF as input and output; the numbers read back |
| Commands.MaybeOptimize | gif_maker.py:194-220 | nothing unless asked; gifsicle missing is skipped; a negative lossy level stops; otherwise the gifsicle command |
| Builtins.SplitJoin | gif_maker.py:180 | splitting a comma-join gives back the parts when none holds a comma |
| Builtins.JoinSplit | gif_maker.py:180 | joining the pieces of a split gives back the text |
| Builtins.IntToStringRoundTrip | gif_maker.py:264 | `str(n)` reads back as `n` |
| Builtins.LowerKeeps | gif_maker.py:127 | lower-casing keeps non-letters, leaves no upper-case letter and is idempotent |
| Pipeline.RunCommand | gif_maker.py:187-191 | exactly the echo of the command, then, outside a dry run, its execution with its status; a dry run reports success |
| Pipeline.RunOptimizeStep | gif_maker.py:201-220 | exactly: no event when optimisation is off or the lossy level is negative (which stops), the missing-gifsicle warning and success, or the gifsicle command echoed and run with its status |
| Pipeline.RunRenderAndOptimize | gif_maker.py:270-277 | the render command first; the gifsicle command, the negative-lossy stop or the missing-gifsicle warning only after it succeeded; every run follows its echo; the missing-gifsicle warning is the last event; a failure carries the last status |
| Pipeline.RenderThenOptimize | gif_maker.py:270-277 | a successful render followed by the optimisation decision meets the render-and-optimise outcome, and the step warns exactly when optimisation was asked for and gifsicle is missing |
| Pipeline.RunPasses | gif_maker.py:268-277 | palette, render and gifsicle in order, each only after the previous succeeded; executed equals echoed outside a dry run, each run right after its echo; the missing-gifsicle warning exactly when both passes went through, as the last event; success means every status was 0 |
| Pipeline.TryAfterPalette | gif_maker.py:268-277 | a successful palette pass followed by the render outcome makes a complete try-block outcome |
| Pipeline.FailedIsNotDry | gif_maker.py:187-191 | a dry run never ends in a failure status |
| Pipeline.ExceptFinally | gif_maker.py:278-286 | the try block's events are kept and followed by exactly the failure report (on a failure) and the palette removal (outside a dry run); nothing more is echoed or run |
| Pipeline.CleanupAfterPasses | gif_maker.py:268-286 | the events of the `try` block followed by the `except`/`finally` events keep the try-block outcome and end with the removal, the failure report before it and the missing-gifsicle notice before both |
| Pipeline.RunWithCleanup | gif_maker.py:268-286 | the try-block outcome holds, every run follows its echo, the palette file is removed exactly once and last outside a dry run, the trace ends with the cleanup events, directly preceded by the missing-gifsicle notice where it applies, and the warnings are that notice followed by the failure report |
| Pipeline.CleanupEvents | gif_maker.py:278-286 | the events after the `try` block echo and run nothing: the failure report first when a command failed, the palette removal last unless dry run |
| Pipeline.StartPasses | gif_maker.py:232-286 | the commands run are the planned palette and render commands and the gifsicle command built from the resolved settings and output path, each run right after its echo; the missing-gifsicle notice, where it applies, directly before the cleanup events; removal, warnings and exit as for the try/except/finally |
| Pipeline.RunMain | gif_maker.py:223-291 | a failed validation or a missing FFmpeg stops with that reason and only the extension warning; otherwise the passes' outcome follows that warning |

## Left out

- Argument parsing (`parse_args`) is not modelled. The parsed namespace is an input, and `Admissible` states what argparse guarantees about `--dither` and `--bayer-scale`.
- `ensure_tool` and `shutil.which` are not modelled. Their results are inputs (`ffmpegPath`, `gifsiclePath`). A missing FFmpeg is the `ToolMissing("ffmpeg")` abort.
- Running programs (`subprocess.run`) is not modelled. Each command's exit status is an input function. A program that cannot be started (an `OSError`) is not modelled.
- Printing and shell quoting (`fmt_cmd`, `shlex.quote`) are not modelled. An echoed command is recorded as its argument list.
- The temporary palette file's name is an input (`palette`). Its creation is left out. In a dry run the file is created by `NamedTemporaryFile(delete=False)` and is never removed; the model records removals only.
- The `finally` clause's `palette_path.exists()` test is taken as true, since the temporary file was created. An `OSError` from `os.remove` is swallowed by the source and has no effect in the model.
- `out.parent.mkdir(...)`, the final `stat` and the "Created ... MB" line touch the real file system and are left out.
- The exact `SystemExit` messages of `validate_args` and `ensure_tool` are not modelled. They are carried as typed reasons (`ValidationError`, `AbortReason`). The extension warning and the conversion-failure line are modelled with their exact text.
- The file system is a set of existing paths and a set of regular files. Symbolic links, `..` and permissions are not resolved.
- `--speed` is a real number taken exactly, and `speedText` is Python's `repr` of that float, given as an input. Float formatting, rounding and NaN (which passes `speed <= 0` in the source) are not modelled.
- Lower: lower-cases ASCII letters only; Python's `str.lower` also folds other Unicode letters.
- Paths.Parse: covers POSIX paths only, without Windows drives; `with_suffix`'s checks are those of CPython 3.12.
- The preset table is immutable in the source (a frozen dataclass in a module constant). It is a function here, so "never modified" holds by construction.
