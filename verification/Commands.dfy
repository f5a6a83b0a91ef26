/** The command lines the tool hands to FFmpeg and gifsicle: the shared
    input and trim options, the shared filter chain, the palette-generation
    and palette-use passes, and the optional gifsicle optimisation. */
module Commands {
  import opened Builtins
  import opened Settings

  // ---------------------------------------------------------------------
  // Shared input and trim options (`build_common_input_args`)
  // ---------------------------------------------------------------------

  /** An option followed by its value, as two tokens of a command line. */
  datatype CliOption = CliOption(flag: string, value: string)

  /** The tokens of a list of options, each flag directly before its value. */
  function Flatten(opts: seq<CliOption>): (tokens: seq<string>)
    ensures |tokens| == 2 * |opts|
    ensures forall k :: 0 <= k < |opts| ==>
      tokens[2 * k] == opts[k].flag && tokens[2 * k + 1] == opts[k].value
  {
    if |opts| == 0 then [] else [opts[0].flag, opts[0].value] + Flatten(opts[1..])
  }

  lemma {:induction false} FlattenAppend(a: seq<CliOption>, b: seq<CliOption>)
    ensures Flatten(a + b) == Flatten(a) + Flatten(b)
  {
    if |a| > 0 {
      FlattenAppend(a[1..], b);
      assert (a + b)[1..] == a[1..] + b;
    } else {
      assert a + b == b;
    }
  }

  predicate HasFlag(opts: seq<CliOption>, flag: string) {
    exists k :: 0 <= k < |opts| && opts[k].flag == flag
  }

  /** Where a flag may stand: the input first, then the start, then the end
      or the duration. */
  function Rank(flag: string): int {
    if flag == "-i" then 0 else if flag == "-ss" then 1 else 2
  }

  /** The options of `build_common_input_args`: the input, then `-ss` when a
      start was given, then `-to` when an end was given or else `-t` when a
      duration was; the time values pass through untouched. */
  function InputOptions(args: Args): (opts: seq<CliOption>)
    ensures |opts| >= 1 && opts[0] == CliOption("-i", args.input)
    ensures forall k :: 1 <= k < |opts| ==>
      || (opts[k].flag == "-ss" && Some(opts[k].value) == args.start)
      || (opts[k].flag == "-to" && Some(opts[k].value) == args.end)
      || (opts[k].flag == "-t" && Some(opts[k].value) == args.duration)
    ensures forall i, j :: 0 <= i < j < |opts| ==> Rank(opts[i].flag) < Rank(opts[j].flag)
  {
    [CliOption("-i", args.input)]
    + (if Truthy(args.start) then [CliOption("-ss", args.start.value)] else [])
    + (if Truthy(args.end) then [CliOption("-to", args.end.value)]
       else if Truthy(args.duration) then [CliOption("-t", args.duration.value)]
       else [])
  }

  /** `-ss` is present exactly when a start was given, `-to` exactly when an
      end was, `-t` exactly when a duration was and no end; so `-to` and `-t`
      never appear together. */
  lemma InputOptionsFlags(args: Args)
    ensures var opts := InputOptions(args);
      && (HasFlag(opts, "-ss") <==> Truthy(args.start))
      && (HasFlag(opts, "-to") <==> Truthy(args.end))
      && (HasFlag(opts, "-t") <==> !Truthy(args.end) && Truthy(args.duration))
      && !(HasFlag(opts, "-to") && HasFlag(opts, "-t"))
  {
    var opts := InputOptions(args);
    var n := |opts|;
    if Truthy(args.start) {
      assert opts[1].flag == "-ss";
    }
    if Truthy(args.end) {
      assert opts[n - 1].flag == "-to";
    } else if Truthy(args.duration) {
      assert opts[n - 1].flag == "-t";
    }
  }

  /** `build_common_input_args`, extending the token list step by step. */
  method BuildCommonInputArgs(args: Args) returns (cmd: seq<string>)
    ensures cmd == Flatten(InputOptions(args))
  {
    ghost var opts := [CliOption("-i", args.input)];
    cmd := ["-i", args.input];
    if Truthy(args.start) {
      FlattenAppend(opts, [CliOption("-ss", args.start.value)]);
      cmd := cmd + ["-ss", args.start.value];
      opts := opts + [CliOption("-ss", args.start.value)];
    }
    if Truthy(args.end) {
      FlattenAppend(opts, [CliOption("-to", args.end.value)]);
      cmd := cmd + ["-to", args.end.value];
      opts := opts + [CliOption("-to", args.end.value)];
    } else if Truthy(args.duration) {
      FlattenAppend(opts, [CliOption("-t", args.duration.value)]);
      cmd := cmd + ["-t", args.duration.value];
      opts := opts + [CliOption("-t", args.duration.value)];
    }
    assert opts == InputOptions(args);
  }

  // ---------------------------------------------------------------------
  // The shared filter chain (`build_video_filter`)
  // ---------------------------------------------------------------------

  function FpsFilter(fps: int): string {
    "fps=" + IntToString(fps)
  }

  /** Lanczos resampling to the given width, height following the aspect ratio. */
  function ScaleFilter(width: int): string {
    "scale=" + IntToString(width) + ":-1:flags=lanczos"
  }

  function CropFilter(crop: string): string {
    "crop=" + crop
  }

  /** Presentation timestamps divided by the speed factor (as Python prints it). */
  function SetptsFilter(speedText: string): string {
    "setpts=PTS/" + speedText
  }

  /** The filters of `build_video_filter`, in order: the rate first, the
      crop (when given) before the scale, and the retiming (when the speed is
      not exactly 1) last. */
  function FilterChain(settings: Preset, args: Args): (parts: seq<string>)
    ensures |parts| == 2 + (if Truthy(args.crop) then 1 else 0) + (if args.speed != 1.0 then 1 else 0)
    ensures parts[0] == FpsFilter(settings.fps)
    ensures Truthy(args.crop) ==> parts[1] == CropFilter(args.crop.value) && parts[2] == ScaleFilter(settings.width)
    ensures !Truthy(args.crop) ==> parts[1] == ScaleFilter(settings.width)
    ensures args.speed != 1.0 ==> parts[|parts| - 1] == SetptsFilter(args.speedText)
    ensures args.speed == 1.0 ==> parts[|parts| - 1] == ScaleFilter(settings.width)
  {
    [FpsFilter(settings.fps)]
    + (if Truthy(args.crop) then [CropFilter(args.crop.value)] else [])
    + [ScaleFilter(settings.width)]
    + (if args.speed != 1.0 then [SetptsFilter(args.speedText)] else [])
  }

  /** `build_video_filter`, appending filters step by step and joining them
      with commas. */
  method BuildVideoFilter(settings: Preset, args: Args) returns (vf: string)
    ensures vf == Join(FilterChain(settings, args), ',')
  {
    var filters := [FpsFilter(settings.fps)];
    if Truthy(args.crop) {
      filters := filters + [CropFilter(args.crop.value)];
    }
    filters := filters + [ScaleFilter(settings.width)];
    if args.speed != 1.0 {
      filters := filters + [SetptsFilter(args.speedText)];
    }
    assert filters == FilterChain(settings, args);
    vf := Join(filters, ',');
  }

  // ---------------------------------------------------------------------
  // The two FFmpeg passes
  // ---------------------------------------------------------------------

  /** Palette generation capped at `colors`, from full-frame statistics. */
  function PaletteGen(colors: int): string {
    "palettegen=max_colors=" + IntToString(colors) + ":stats_mode=full"
  }

  /** Quantisation against the palette with rectangle diffing. */
  function PaletteUse(settings: Preset): string {
    "paletteuse=dither=" + settings.dither + ":bayer_scale=" + IntToString(settings.bayerScale)
    + ":diff_mode=rectangle"
  }

  /** The `-vf` graph of the palette pass: the shared chain, then palettegen. */
  function PaletteFilter(vf: string, settings: Preset): string {
    vf + "," + PaletteGen(settings.colors)
  }

  /** The `-lavfi` graph of the render pass: the shared chain labelled `[x]`,
      then paletteuse on `[x]` and the second input (the palette). */
  function RenderFilter(vf: string, settings: Preset): string {
    vf + "[x];[x][1:v]" + PaletteUse(settings)
  }

  /** `palette_cmd`: one frame, written once, to the palette file. */
  function PaletteCmd(ffmpeg: string, commonInput: seq<string>, vf: string,
                      settings: Preset, palette: string): seq<string> {
    [ffmpeg, "-y"] + commonInput
    + ["-frames:v", "1", "-update", "1", "-vf", PaletteFilter(vf, settings), palette]
  }

  /** `render_cmd`: the clip and the palette in, the looping GIF out. */
  function RenderCmd(ffmpeg: string, commonInput: seq<string>, vf: string,
                     settings: Preset, palette: string, loop: int, out: string): seq<string> {
    [ffmpeg, "-y"] + commonInput
    + ["-i", palette, "-lavfi", RenderFilter(vf, settings), "-loop", IntToString(loop), out]
  }

  /** Both passes start with the same input and trim tokens, the palette
      pass keeps a single frame, both filter graphs start with the same
      chain, the render pass reads the palette the palette pass writes, and
      the render command ends with the loop count and the output. */
  lemma PassesAgree(ffmpeg: string, commonInput: seq<string>, vf: string,
                    settings: Preset, palette: string, loop: int, out: string)
    ensures var p := PaletteCmd(ffmpeg, commonInput, vf, settings, palette);
      var r := RenderCmd(ffmpeg, commonInput, vf, settings, palette, loop, out);
      var n := |commonInput|;
      && |p| == n + 9 && |r| == n + 9
      && p[..2] == [ffmpeg, "-y"] && r[..2] == [ffmpeg, "-y"]
      && p[2..n + 2] == commonInput && r[2..n + 2] == commonInput
      && p[n + 2..n + 6] == ["-frames:v", "1", "-update", "1"]
      && p[n + 6] == "-vf" && r[n + 4] == "-lavfi"
      && p[n + 7] == PaletteFilter(vf, settings) && r[n + 5] == RenderFilter(vf, settings)
      && p[n + 7][..|vf|] == vf && r[n + 5][..|vf|] == vf
      && p[n + 8] == palette && r[n + 2..n + 4] == ["-i", palette]
      && r[n + 6..] == ["-loop", IntToString(loop), out]
  {
  }

  /** Joining one more part extends the joined text by a separator and that part. */
  lemma {:induction false} JoinSnoc(parts: seq<string>, x: string, sep: char)
    requires |parts| >= 1
    ensures Join(parts + [x], sep) == Join(parts, sep) + [sep] + x
  {
    var ps := parts + [x];
    assert ps[0] == parts[0] && ps[1..] == parts[1..] + [x];
    if |parts| == 1 {
      assert ps[1..] == [x];
    } else {
      JoinSnoc(parts[1..], x, sep);
      calc {
        Join(ps, sep);
        parts[0] + [sep] + Join(parts[1..] + [x], sep);
        parts[0] + [sep] + (Join(parts[1..], sep) + [sep] + x);
        (parts[0] + [sep] + Join(parts[1..], sep)) + [sep] + x;
      }
    }
  }

  /** The filters built only from numbers hold no comma. */
  lemma NumericFiltersWithoutCommas(settings: Preset)
    ensures ',' !in FpsFilter(settings.fps)
    ensures ',' !in ScaleFilter(settings.width)
    ensures ',' !in PaletteGen(settings.colors)
  {
    NotInIntToString(',', settings.fps);
    NotInAppend(',', "fps=", IntToString(settings.fps));
    ScaleWithoutCommas(settings.width);
    PaletteGenWithoutCommas(settings.colors);
  }

  lemma ScaleWithoutCommas(width: int)
    ensures ',' !in ScaleFilter(width)
  {
    NotInIntToString(',', width);
    NotInAppend(',', "scale=", IntToString(width));
    NotInAppend(',', "scale=" + IntToString(width), ":-1:flags=lanczos");
  }

  lemma PaletteGenWithoutCommas(colors: int)
    ensures ',' !in PaletteGen(colors)
  {
    NotInIntToString(',', colors);
    NotInAppend(',', "palettegen=max_colors=", IntToString(colors));
    NotInAppend(',', "palettegen=max_colors=" + IntToString(colors), ":stats_mode=full");
  }

  /** No filter of the chain holds a comma, given that the crop and the
      speed text hold none. */
  lemma ChainWithoutCommas(settings: Preset, args: Args)
    requires Truthy(args.crop) ==> ',' !in args.crop.value
    requires args.speed != 1.0 ==> ',' !in args.speedText
    ensures var chain := FilterChain(settings, args);
      forall i :: 0 <= i < |chain| ==> ',' !in chain[i]
    ensures ',' !in PaletteGen(settings.colors)
  {
    NumericFiltersWithoutCommas(settings);
    if Truthy(args.crop) {
      NotInAppend(',', "crop=", args.crop.value);
    }
    if args.speed != 1.0 {
      NotInAppend(',', "setpts=PTS/", args.speedText);
    }
    var chain := FilterChain(settings, args);
    var scaleAt := if Truthy(args.crop) then 2 else 1;
    forall i | 0 <= i < |chain| ensures ',' !in chain[i] {
      if i == 0 {
      } else if i < scaleAt {
        assert chain[i] == CropFilter(args.crop.value);
      } else if i == scaleAt {
        assert chain[i] == ScaleFilter(settings.width);
      } else {
        assert chain[i] == SetptsFilter(args.speedText);
      }
    }
  }

  /** When neither the crop nor the speed text holds a comma, the shared
      chain joined with commas reads back filter by filter. */
  lemma ChainReadBack(settings: Preset, args: Args)
    requires Truthy(args.crop) ==> ',' !in args.crop.value
    requires args.speed != 1.0 ==> ',' !in args.speedText
    ensures var chain := FilterChain(settings, args);
      Split(Join(chain, ','), ',') == chain
  {
    ChainWithoutCommas(settings, args);
    SplitJoin(FilterChain(settings, args), ',');
  }

  /** The palette graph reads back as the shared chain followed by
      palettegen. */
  lemma PaletteGraphReadBack(settings: Preset, args: Args)
    requires Truthy(args.crop) ==> ',' !in args.crop.value
    requires args.speed != 1.0 ==> ',' !in args.speedText
    ensures var chain := FilterChain(settings, args);
      Split(PaletteFilter(Join(chain, ','), settings), ',') == chain + [PaletteGen(settings.colors)]
  {
    var chain := FilterChain(settings, args);
    var stages := chain + [PaletteGen(settings.colors)];
    ChainWithoutCommas(settings, args);
    JoinSnoc(chain, PaletteGen(settings.colors), ',');
    forall i | 0 <= i < |stages| ensures ',' !in stages[i] {
      if i < |chain| { assert stages[i] == chain[i]; }
    }
    SplitJoin(stages, ',');
  }

  /** palettegen's options read back as the colour count and the statistics mode. */
  lemma PaletteGenReadBack(colors: int)
    ensures Split(PaletteGen(colors), ':') == ["palettegen=max_colors=" + IntToString(colors), "stats_mode=full"]
  {
    var num := IntToString(colors);
    var opts := ["palettegen=max_colors=" + num, "stats_mode=full"];
    NotInIntToString(':', colors);
    NotInAppend(':', "palettegen=max_colors=", num);
    assert ':' !in opts[1];
    assert ":stats_mode=full" == ":" + "stats_mode=full";
    assert PaletteGen(colors) == Join(opts, ':');
    SplitJoin(opts, ':');
  }

  lemma DitherPlain(d: string)
    requires d in DitherChoices
    ensures ':' !in d && ';' !in d
  {
  }

  /** The options of paletteuse, in order. */
  function PaletteUseOptions(settings: Preset): seq<string> {
    ["paletteuse=dither=" + settings.dither, "bayer_scale=" + IntToString(settings.bayerScale),
     "diff_mode=rectangle"]
  }

  lemma PaletteUseIsJoin(settings: Preset)
    ensures PaletteUse(settings) == Join(PaletteUseOptions(settings), ':')
  {
    var opts := PaletteUseOptions(settings);
    var num := IntToString(settings.bayerScale);
    assert Join(opts[1..], ':') == "bayer_scale=" + num + ":" + "diff_mode=rectangle" by {
      assert opts[1..][1..] == ["diff_mode=rectangle"];
    }
    assert ":bayer_scale=" == ":" + "bayer_scale=";
    assert ":diff_mode=rectangle" == ":" + "diff_mode=rectangle";
  }

  lemma PaletteUseOptionsPlain(settings: Preset)
    requires settings.dither in DitherChoices
    ensures forall i :: 0 <= i < 3 ==> ':' !in PaletteUseOptions(settings)[i]
  {
    var opts := PaletteUseOptions(settings);
    DitherPlain(settings.dither);
    NotInIntToString(':', settings.bayerScale);
    NotInAppend(':', "paletteuse=dither=", settings.dither);
    NotInAppend(':', "bayer_scale=", IntToString(settings.bayerScale));
    assert ':' !in opts[2];
  }

  /** paletteuse's options read back as the dithering algorithm, the Bayer
      scale and the rectangle diff mode. */
  lemma PaletteUseReadBack(settings: Preset)
    requires settings.dither in DitherChoices
    ensures Split(PaletteUse(settings), ':')
            == ["paletteuse=dither=" + settings.dither, "bayer_scale=" + IntToString(settings.bayerScale),
                "diff_mode=rectangle"]
  {
    PaletteUseIsJoin(settings);
    PaletteUseOptionsPlain(settings);
    SplitJoin(PaletteUseOptions(settings), ':');
  }

  lemma PaletteUseWithoutSemicolons(settings: Preset)
    requires settings.dither in DitherChoices
    ensures ';' !in PaletteUse(settings)
  {
    var d := settings.dither;
    var num := IntToString(settings.bayerScale);
    DitherPlain(d);
    NotInIntToString(';', settings.bayerScale);
    NotInAppend(';', "paletteuse=dither=", d);
    NotInAppend(';', "paletteuse=dither=" + d, ":bayer_scale=");
    NotInAppend(';', "paletteuse=dither=" + d + ":bayer_scale=", num);
    NotInAppend(';', "paletteuse=dither=" + d + ":bayer_scale=" + num, ":diff_mode=rectangle");
  }

  /** The two stages of the render graph, in order. */
  function RenderStages(vf: string, settings: Preset): seq<string> {
    [vf + "[x]", "[x][1:v]" + PaletteUse(settings)]
  }

  lemma RenderFilterIsJoin(vf: string, settings: Preset)
    ensures RenderFilter(vf, settings) == Join(RenderStages(vf, settings), ';')
  {
    assert "[x];[x][1:v]" == "[x]" + ";" + "[x][1:v]";
  }

  lemma RenderStagesPlain(vf: string, settings: Preset)
    requires ';' !in vf
    requires settings.dither in DitherChoices
    ensures forall i :: 0 <= i < 2 ==> ';' !in RenderStages(vf, settings)[i]
  {
    PaletteUseWithoutSemicolons(settings);
    NotInAppend(';', "[x][1:v]", PaletteUse(settings));
    NotInAppend(';', vf, "[x]");
  }

  /** The render graph reads back as the labelled chain and the paletteuse
      stage on `[x]` and the palette input. */
  lemma RenderGraphReadBack(vf: string, settings: Preset)
    requires ';' !in vf
    requires settings.dither in DitherChoices
    ensures Split(RenderFilter(vf, settings), ';') == [vf + "[x]", "[x][1:v]" + PaletteUse(settings)]
  {
    RenderFilterIsJoin(vf, settings);
    RenderStagesPlain(vf, settings);
    SplitJoin(RenderStages(vf, settings), ';');
  }

  // ---------------------------------------------------------------------
  // gifsicle (`maybe_optimize_gif`)
  // ---------------------------------------------------------------------

  /** What `maybe_optimize_gif` decides: nothing asked, gifsicle absent (a
      warning), a negative lossy level (the program stops), or a command. */
  datatype OptimizeStep =
    | NotRequested
    | GifsicleMissing
    | LossyNegative
    | Optimize(cmd: seq<string>)

  /** The gifsicle command: maximum optimisation, the palette size, the
      lossy level when one was given, and the GIF rewritten in place. */
  function GifsicleCmd(gifsicle: string, colors: int, lossy: Option<int>, output: string): seq<string> {
    [gifsicle, "-O3", "--colors=" + IntToString(colors)]
    + (if lossy.Some? then ["--lossy=" + IntToString(lossy.value)] else [])
    + [output, "-o", output]
  }

  /** The gifsicle command starts with the program, `-O3` and the palette
      size, carries `--lossy=N` exactly when a level was given, and ends by
      naming the GIF as both input and output; the numbers read back. */
  lemma GifsicleCmdShape(gifsicle: string, colors: int, lossy: Option<int>, output: string)
    ensures var cmd := GifsicleCmd(gifsicle, colors, lossy, output);
      && |cmd| == (if lossy.Some? then 7 else 6)
      && cmd[..3] == [gifsicle, "-O3", "--colors=" + IntToString(colors)]
      && ParseDecimal(cmd[2][|"--colors="|..]) == Some(colors)
      && (lossy.Some? ==> cmd[3] == "--lossy=" + IntToString(lossy.value)
                          && ParseDecimal(cmd[3][|"--lossy="|..]) == Some(lossy.value))
      && cmd[|cmd| - 3..] == [output, "-o", output]
  {
    var head := [gifsicle, "-O3", "--colors=" + IntToString(colors)];
    var mid := if lossy.Some? then ["--lossy=" + IntToString(lossy.value)] else [];
    var tail := [output, "-o", output];
    var cmd := GifsicleCmd(gifsicle, colors, lossy, output);
    assert cmd == head + mid + tail;
    assert cmd[..3] == head;
    assert cmd[|cmd| - 3..] == tail;
    AfterPrefix("--colors=", IntToString(colors));
    IntToStringRoundTrip(colors);
    if lossy.Some? {
      assert cmd[3] == mid[0];
      AfterPrefix("--lossy=", IntToString(lossy.value));
      IntToStringRoundTrip(lossy.value);
    }
  }

  lemma AfterPrefix(prefix: string, s: string)
    ensures (prefix + s)[|prefix|..] == s
  {
  }

  /** `maybe_optimize_gif` up to running the command: nothing unless asked
      for, a warning when gifsicle is missing, a stop for a negative lossy
      level, and otherwise the command built step by step. */
  method MaybeOptimize(output: string, settings: Preset, optimize: bool,
                       lossy: Option<int>, gifsicle: Option<string>)
    returns (step: OptimizeStep)
    ensures !optimize ==> step == NotRequested
    ensures optimize && !Truthy(gifsicle) ==> step == GifsicleMissing
    ensures optimize && Truthy(gifsicle) && lossy.Some? && lossy.value < 0 ==> step == LossyNegative
    ensures step.Optimize? <==> optimize && Truthy(gifsicle) && !(lossy.Some? && lossy.value < 0)
    ensures step.Optimize? ==> step.cmd == GifsicleCmd(gifsicle.value, settings.colors, lossy, output)
  {
    if !optimize {
      return NotRequested;
    }
    if !Truthy(gifsicle) {
      return GifsicleMissing;
    }
    var cmd := [gifsicle.value, "-O3", "--colors=" + IntToString(settings.colors)];
    if lossy.Some? {
      if lossy.value < 0 {
        return LossyNegative;
      }
      cmd := cmd + ["--lossy=" + IntToString(lossy.value)];
    }
    cmd := cmd + [output, "-o", output];
    step := Optimize(cmd);
  }
}
