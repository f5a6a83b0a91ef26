/** Where the GIF is written (`output_path`) and the checks that reject a
    command line before any encoder runs (`validate_args`). The file system
    is an input: the set of paths that exist and the set of those that are
    regular files. */
module Validation {
  import opened Builtins
  import opened Paths
  import opened Settings

  datatype FileSystem = FileSystem(existing: set<PurePath>, regularFiles: set<PurePath>)

  /** The reasons `validate_args` stops the program, in the order it checks them. */
  datatype ValidationError =
    | InputNotFound(path: PurePath)
    | DurationWithEnd
    | WidthNotPositive
    | ColorsOutOfRange
    | SpeedNotPositive
    | OutputNameless(path: PurePath)   // `with_suffix` raising ValueError
    | OutputExists(path: PurePath)

  datatype Check = Pass | Fail(error: ValidationError)

  /** `output_path`: an explicit non-empty `--output`, otherwise the input
      path with its suffix replaced by (or, without one, extended with)
      ".gif"; `None` where `with_suffix` raises because the input path has
      no name. */
  function OutputPath(args: Args): (r: Option<PurePath>)
    ensures r.Some? ==> Valid(r.value)
    ensures Truthy(args.output) ==> r == Some(Parse(args.output.value))
    ensures !Truthy(args.output) ==> (r.Some? <==> Name(Parse(args.input)) != "")
    ensures !Truthy(args.output) && r.Some? ==>
      var input := Parse(args.input);
      && Parent(r.value) == Parent(input)
      && Suffix(Name(r.value)) == ".gif"
      && Stem(Name(r.value)) == Stem(Name(input))
  {
    if Truthy(args.output) then Some(Parse(args.output.value))
    else
      var input := Parse(args.input);
      if Name(input) == "" then None
      else
        WithSuffixSpec(input, ".gif");
        WithSuffix(input, ".gif")
  }

  /** The container extensions screen recordings usually have. */
  const SupportedExtensions: set<string> := {".mp4", ".mov", ".mkv", ".webm", ".avi", ".m4v"}

  /** The input names an existing regular file. */
  predicate InputIsFile(args: Args, fs: FileSystem) {
    var p := Parse(args.input);
    p in fs.existing && p in fs.regularFiles
  }

  /** The warning `validate_args` prints, once the input is known to be a
      file, when its suffix (compared case-insensitively) is not a usual
      recording container; the program carries on. */
  function ExtensionWarning(args: Args, fs: FileSystem): (w: Option<string>)
    ensures w.Some? <==>
      InputIsFile(args, fs) && Lower(Suffix(Name(Parse(args.input)))) !in SupportedExtensions
  {
    var suffix := Suffix(Name(Parse(args.input)));
    if InputIsFile(args, fs) && Lower(suffix) !in SupportedExtensions then
      Some("Warning: extension '" + suffix + "' is uncommon for screen recordings. Continuing.")
    else None
  }

  /** A recording named after a usual container, in any letter case, passes
      without the warning; a file without a suffix always draws it. */
  lemma ExtensionWarningCases(args: Args, fs: FileSystem, stem: string, ext: string)
    requires InputIsFile(args, fs)
    requires stem != "" && GoodSuffix(ext)
    ensures Name(Parse(args.input)) == stem + ext && Lower(ext) in SupportedExtensions ==>
      ExtensionWarning(args, fs) == None
    ensures Suffix(Name(Parse(args.input))) == "" ==> ExtensionWarning(args, fs).Some?
  {
    if Name(Parse(args.input)) == stem + ext {
      SuffixOfAppended(stem, ext);
    }
    assert Lower("") == "";
  }

  /** The checks `validate_args` makes before it looks at the output path. */
  predicate InputChecksPass(args: Args, settings: Preset, fs: FileSystem) {
    && InputIsFile(args, fs)
    && !(Truthy(args.duration) && Truthy(args.end))
    && settings.width > 0
    && 2 <= settings.colors <= 256
    && args.speed > 0.0
  }

  /** `validate_args`: the first failing check, or `Pass`. Each error is
      reported exactly when its condition holds and every earlier check
      passed; the command line passes exactly when no check fails. */
  function Validate(args: Args, settings: Preset, fs: FileSystem): (r: Check)
    ensures r == Pass <==>
      && InputChecksPass(args, settings, fs)
      && OutputPath(args).Some?
      && !(OutputPath(args).value in fs.existing && !args.overwrite)
    ensures r.Fail? && r.error.InputNotFound? <==> !InputIsFile(args, fs)
    ensures r.Fail? && r.error.InputNotFound? ==> r.error.path == Parse(args.input)
    ensures r == Fail(DurationWithEnd) <==>
      InputIsFile(args, fs) && Truthy(args.duration) && Truthy(args.end)
    ensures r == Fail(WidthNotPositive) <==>
      && InputIsFile(args, fs) && !(Truthy(args.duration) && Truthy(args.end))
      && settings.width <= 0
    ensures r == Fail(ColorsOutOfRange) <==>
      && InputIsFile(args, fs) && !(Truthy(args.duration) && Truthy(args.end))
      && settings.width > 0 && (settings.colors < 2 || settings.colors > 256)
    ensures r == Fail(SpeedNotPositive) <==>
      && InputIsFile(args, fs) && !(Truthy(args.duration) && Truthy(args.end))
      && settings.width > 0 && 2 <= settings.colors <= 256 && args.speed <= 0.0
    ensures r.Fail? && r.error.OutputNameless? <==>
      InputChecksPass(args, settings, fs) && OutputPath(args).None?
    ensures r.Fail? && r.error.OutputNameless? ==> r.error.path == Parse(args.input)
    ensures r.Fail? && r.error.OutputExists? <==>
      && InputChecksPass(args, settings, fs) && OutputPath(args).Some?
      && OutputPath(args).value in fs.existing && !args.overwrite
    ensures r.Fail? && r.error.OutputExists? ==> r.error.path == OutputPath(args).value
  {
    var input := Parse(args.input);
    if !(input in fs.existing && input in fs.regularFiles) then Fail(InputNotFound(input))
    else if Truthy(args.duration) && Truthy(args.end) then Fail(DurationWithEnd)
    else if settings.width <= 0 then Fail(WidthNotPositive)
    else if settings.colors < 2 || settings.colors > 256 then Fail(ColorsOutOfRange)
    else if args.speed <= 0.0 then Fail(SpeedNotPositive)
    else
      match OutputPath(args)
      case None => Fail(OutputNameless(input))
      case Some(out) =>
        if out in fs.existing && !args.overwrite then Fail(OutputExists(out)) else Pass
  }

  /** Without `--output`, an input that is already a `.gif` is its own
      output: since the input exists, it is refused as an existing output
      unless `--overwrite` is given and every earlier check passes. */
  lemma GifInputIsItsOwnOutput(args: Args, settings: Preset, fs: FileSystem)
    requires !Truthy(args.output)
    requires Suffix(Name(Parse(args.input))) == ".gif"
    ensures OutputPath(args) == Some(Parse(args.input))
    ensures InputIsFile(args, fs) && !args.overwrite ==> Validate(args, settings, fs) != Pass
    ensures InputIsFile(args, fs) && !args.overwrite
            && !(Truthy(args.duration) && Truthy(args.end))
            && settings.width > 0 && 2 <= settings.colors <= 256 && args.speed > 0.0
            ==> Validate(args, settings, fs) == Fail(OutputExists(Parse(args.input)))
  {
    WithSuffixKeepsOwnSuffix(Parse(args.input), ".gif");
  }

  /** The frame rate, the dithering choice, the Bayer scale, the crop, the
      loop count and `--lossy` are not checked here: changing any of them
      never changes the verdict. */
  lemma ValidateIgnores(args: Args, settings: Preset, fs: FileSystem,
                        fps: int, dither: string, bayerScale: int,
                        crop: Option<string>, loop: int, lossy: Option<int>)
    ensures Validate(args.(crop := crop, loop := loop, lossy := lossy),
                     settings.(fps := fps, dither := dither, bayerScale := bayerScale), fs)
         == Validate(args, settings, fs)
  {
  }
}
