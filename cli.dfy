/** The command line (main, index.py:79-103): defaults for the parsed
    arguments, URL parsing, and the call into the pipeline. Argument parsing
    itself, the working directory and the caption service are inputs. */
module Cli {
  import opened Wrappers
  import YoutubeUrl
  import Pipeline

  /** The parsed arguments; an option not given on the command line is None. */
  datatype Args = Args(
    url: string,
    language: string,
    raw: bool,
    punctuated: bool,
    output: Option<string>,
    filename: Option<string>,
    batchSize: int,
    verbose: bool,
    punctuationModel: string)

  /** Python's `value or default` for an optional string: a missing or empty
      value falls back to the default. */
  function OrDefault(value: Option<string>, default: string): (r: string)
    ensures value == None || value == Some("") ==> r == default
    ensures value.Some? && value.value != "" ==> r == value.value
  {
    match value
    case Some(v) => if v != "" then v else default
    case None => default
  }

  /** `if not args.raw and not args.punctuated: args.raw = True` */
  function WithModeDefault(args: Args): (a: Args)
    ensures a.raw || a.punctuated
    ensures a.raw == (args.raw || !args.punctuated)
    ensures a == args.(raw := a.raw)
  {
    if !args.raw && !args.punctuated then args.(raw := true) else args
  }

  /** `args.filename or f'{video_id}_raw'` */
  function DefaultFilename(filename: Option<string>, videoId: string): (f: string)
    ensures filename == None || filename == Some("") ==> f == videoId + "_raw"
    ensures filename.Some? && filename.value != "" ==> f == filename.value
  {
    OrDefault(filename, videoId + "_raw")
  }

  /** How main ends: it returns after process_and_save_transcript (which logs its
      own errors), or the ValueError of parse_youtube_url escapes it. */
  datatype Outcome =
    | Finished(result: Result<Pipeline.Saved, Pipeline.ProcessError>)
    | Raised(error: YoutubeUrl.UrlError)

  /** main, after argument parsing. `fetch(videoId, language)` stands for the
      caption service, `cwd` for os.getcwd(), `reportedCpus` for os.cpu_count()
      (0 when it reports none). */
  function RunMain(args: Args, cwd: string, reportedCpus: nat,
                   fetch: (string, string) -> Option<seq<string>>,
                   restore: (Pipeline.PunctuationModel, string) -> string,
                   tokenize: string -> seq<string>): (o: Outcome)
    ensures o.Raised? <==> YoutubeUrl.ParseYoutubeUrl(args.url).Err?
    ensures o.Finished? ==>
      var videoId := YoutubeUrl.ParseYoutubeUrl(args.url).value;
      o.result == Pipeline.ProcessAndSave(
        fetch(videoId, OrDefault(Some(args.language), "en")), args.punctuated,
        OrDefault(args.output, cwd), DefaultFilename(args.filename, videoId),
        args.batchSize, reportedCpus, args.punctuationModel, restore, tokenize)
  {
    var a := WithModeDefault(args);
    match YoutubeUrl.ParseYoutubeUrl(a.url)
    case Err(e) => Raised(e)
    case Ok(videoId) =>
      var language := OrDefault(Some(a.language), "en");
      var outputDir := OrDefault(a.output, cwd);
      var filename := DefaultFilename(a.filename, videoId);
      Finished(Pipeline.ProcessAndSave(fetch(videoId, language), a.punctuated, outputDir, filename,
                                       a.batchSize, reportedCpus, a.punctuationModel, restore, tokenize))
  }

  /** Only -p decides what is written: -r, given or defaulted, changes nothing,
      so with neither flag the raw transcript is written, and with both the
      punctuated one. */
  lemma RawFlagIgnored(args: Args, cwd: string, reportedCpus: nat,
                       fetch: (string, string) -> Option<seq<string>>,
                       restore: (Pipeline.PunctuationModel, string) -> string,
                       tokenize: string -> seq<string>)
    ensures RunMain(args, cwd, reportedCpus, fetch, restore, tokenize)
         == RunMain(args.(raw := !args.raw), cwd, reportedCpus, fetch, restore, tokenize)
  {
  }

  /** The file a run writes when no -f is given: `<id>_raw_raw.txt` in raw mode
      and `<id>_raw_punctuated.txt` in punctuated mode, in the given directory
      or the working directory. */
  lemma DefaultOutputName(args: Args, cwd: string, reportedCpus: nat,
                          fetch: (string, string) -> Option<seq<string>>,
                          restore: (Pipeline.PunctuationModel, string) -> string,
                          tokenize: string -> seq<string>)
    requires args.filename == None && args.output == None
    requires YoutubeUrl.ParseYoutubeUrl(args.url).Ok?
    ensures var o := RunMain(args, cwd, reportedCpus, fetch, restore, tokenize);
      var videoId := YoutubeUrl.ParseYoutubeUrl(args.url).value;
      o.Finished? && (o.result.Ok? ==>
        o.result.value.outputDir == cwd &&
        o.result.value.fileName ==
          videoId + (if args.punctuated then "_raw_punctuated.txt" else "_raw_raw.txt"))
  {
    var videoId := YoutubeUrl.ParseYoutubeUrl(args.url).value;
    DefaultSavedName(videoId, args, cwd, reportedCpus, fetch, restore, tokenize);
  }

  /** The pipeline call of DefaultOutputName, for a given video id. */
  lemma DefaultSavedName(videoId: string, args: Args, cwd: string, reportedCpus: nat,
                         fetch: (string, string) -> Option<seq<string>>,
                         restore: (Pipeline.PunctuationModel, string) -> string,
                         tokenize: string -> seq<string>)
    requires args.filename == None && args.output == None
    ensures var r := Pipeline.ProcessAndSave(
        fetch(videoId, OrDefault(Some(args.language), "en")), args.punctuated,
        OrDefault(args.output, cwd), DefaultFilename(args.filename, videoId),
        args.batchSize, reportedCpus, args.punctuationModel, restore, tokenize);
      r.Ok? ==>
        r.value.outputDir == cwd &&
        r.value.fileName == videoId + (if args.punctuated then "_raw_punctuated.txt" else "_raw_raw.txt")
  {
    assert "_raw" + "_punctuated.txt" == "_raw_punctuated.txt";
    assert "_raw" + "_raw.txt" == "_raw_raw.txt";
  }
}
