/** Quality presets, the parsed command line, and the resolution of the
    effective encoding settings from a preset and per-field overrides. */
module Settings {
  import opened Builtins

  /** The dithering algorithms `paletteuse` is offered (the `--dither` choices). */
  const DitherChoices: seq<string> := ["none", "bayer", "floyd_steinberg", "sierra2", "sierra2_4a"]

  /** The effective encoding settings (the frozen `Preset` record). */
  datatype Preset = Preset(fps: int, width: int, colors: int, dither: string, bayerScale: int)

  /** The keys of the preset table; argparse admits no other `--preset`. */
  datatype PresetKey = Ultra | Balanced | Compact

  /** What a consistent profile looks like: a positive rate and width, a
      palette size GIF can hold, a Bayer scale `paletteuse` accepts and one
      of the offered dithering algorithms. */
  predicate WellFormed(p: Preset) {
    && p.fps > 0
    && p.width > 0
    && 2 <= p.colors <= 256
    && 0 <= p.bayerScale <= 5
    && p.dither in DitherChoices
  }

  /** The preset table `PRESETS`; every entry is well formed. */
  function PresetTable(key: PresetKey): (p: Preset)
    ensures WellFormed(p)
  {
    match key
    case Ultra => Preset(20, 1280, 256, "sierra2_4a", 2)
    case Balanced => Preset(15, 960, 256, "sierra2_4a", 2)
    case Compact => Preset(12, 720, 128, "bayer", 3)
  }

  /** The argparse namespace: every option, with `None` for an option that
      was not given. `speed` is the float the user gave, taken exactly;
      `speedText` is how Python prints that float. */
  datatype Args = Args(
    input: string,
    output: Option<string>,
    preset: PresetKey,
    fps: Option<int>,
    width: Option<int>,
    colors: Option<int>,
    dither: Option<string>,
    bayerScale: Option<int>,
    start: Option<string>,
    end: Option<string>,
    duration: Option<string>,
    speed: real,
    speedText: string,
    crop: Option<string>,
    loop: int,
    optimize: bool,
    lossy: Option<int>,
    overwrite: bool,
    dryRun: bool)

  /** What argparse itself guarantees of a parsed command line: `--dither`
      is one of its choices and `--bayer-scale` lies in 0-5. */
  predicate Admissible(args: Args) {
    && (args.dither.Some? ==> args.dither.value in DitherChoices)
    && (args.bayerScale.Some? ==> 0 <= args.bayerScale.value <= 5)
  }

  /** The override when one was given (even 0 or ""), else the default. */
  function Override<T>(o: Option<T>, default: T): T {
    if o.Some? then o.value else default
  }

  /** `resolve_settings`: each field is the override when the option was
      given, and otherwise the chosen preset's value. */
  function ResolveSettings(args: Args): (s: Preset)
    ensures var base := PresetTable(args.preset);
      && (args.fps.None? ==> s.fps == base.fps)
      && (args.fps.Some? ==> s.fps == args.fps.value)
      && (args.width.None? ==> s.width == base.width)
      && (args.width.Some? ==> s.width == args.width.value)
      && (args.colors.None? ==> s.colors == base.colors)
      && (args.colors.Some? ==> s.colors == args.colors.value)
      && (args.dither.None? ==> s.dither == base.dither)
      && (args.dither.Some? ==> s.dither == args.dither.value)
      && (args.bayerScale.None? ==> s.bayerScale == base.bayerScale)
      && (args.bayerScale.Some? ==> s.bayerScale == args.bayerScale.value)
  {
    var base := PresetTable(args.preset);
    Preset(
      Override(args.fps, base.fps),
      Override(args.width, base.width),
      Override(args.colors, base.colors),
      Override(args.dither, base.dither),
      Override(args.bayerScale, base.bayerScale))
  }

  /** Without overrides the effective settings are the preset itself. */
  lemma NoOverrideIsPreset(args: Args)
    requires args.fps.None? && args.width.None? && args.colors.None?
    requires args.dither.None? && args.bayerScale.None?
    ensures ResolveSettings(args) == PresetTable(args.preset)
  {
  }

  /** Whatever is overridden, an admissible command line yields a dither
      among the choices and a Bayer scale in 0-5; the resolved settings are
      well formed exactly when the three unchecked numbers are in range. */
  lemma ResolvedAdmissible(args: Args)
    requires Admissible(args)
    ensures var s := ResolveSettings(args);
      && s.dither in DitherChoices
      && 0 <= s.bayerScale <= 5
      && (WellFormed(s) <==> s.fps > 0 && s.width > 0 && 2 <= s.colors <= 256)
  {
  }
}
