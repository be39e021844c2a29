/** The remote run policy: submit an application to the cluster scheduler, mirror the
    job's captured output locally with a tag, and build the run's result from the score
    files and model path the job left in the output directory.

    The collaborators the policy calls but does not own are parameters: the scheduler's
    blocking `execute`, the metric-file loader and the three path resolvers are function
    values, so every property below holds whatever they do. */
module SlurmRunPolicy {
  import opened PyStrings
  import opened SlurmTagging

  /** A value of the keyword-argument map; only its identity matters here. */
  datatype Value = BoolValue(b: bool) | IntValue(i: int) | StrValue(s: string)

  /** A metric value read back from a score file: a number or an array of numbers. */
  datatype MetricValue = Scalar(x: real) | Array(xs: seq<real>)

  type MetricDict = map<string, MetricValue>

  datatype Result<T, E> = Ok(value: T) | Err(error: E)

  /** What the run returns: the two score dictionaries and the persisted model's path. */
  datatype RunResult = RunResult(validationScores: MetricDict, testScores: MetricDict, modelPath: string)

  /** The faults a run propagates to its caller: the missing `output_directory` key (a
      `KeyError` in the source) and a failure the metric loader reports for a path. */
  datatype RunError = MissingOutputDirectory | LoadFailed(path: string, message: string)

  /** The application run remotely: its identity, its resource and environment settings,
      and the save-file extension its model reports. */
  datatype Application = Application(
    appClass: string,
    timeLimitDays: int,
    timeLimitHours: int,
    memLimitInMb: int,
    numCpus: int,
    virtualenvPath: string,
    saveFileExtension: string)

  /** The path resolver: the project root and the three canonical locations under an
      output directory. */
  datatype AppPaths = AppPaths(
    projectRootDirectory: string,
    evalScoreDictPath: Value -> string,
    testScoreDictPath: Value -> string,
    modelFilePath: (Value, string) -> string)

  /** Everything handed to the scheduler's `execute`. */
  datatype JobRequest = JobRequest(
    appClass: string,
    timeLimitDays: int,
    timeLimitHours: int,
    numCpus: int,
    memLimitInMb: int,
    virtualenvPath: string,
    projectDirPath: string,
    outputDirectory: Value,
    programArguments: map<string, Value>)

  /** The two text blobs the scheduler returns once the job has ended. */
  datatype Captured = Captured(stdout: string, stderr: string)

  datatype Stream = Stdout | Stderr

  /** One observable effect of a run, in the order it happens. */
  datatype Event =
    | Submitted(request: JobRequest)
    | Printed(stream: Stream, text: string)
    | Loaded(path: string)
    | DataInitialised

  /** The effects of a run and what it returns (or the fault it raises). */
  datatype Outcome = Outcome(events: seq<Event>, result: Result<RunResult, RunError>)

  /** The keyword arguments with the single-run flag set, as the remote entry point sees them. */
  function MarkSingleRun(options: map<string, Value>): (r: map<string, Value>)
    ensures r.Keys == options.Keys + {"single_run"}
    ensures r["single_run"] == BoolValue(true)
    ensures forall k :: k in options && k != "single_run" ==> r[k] == options[k]
  {
    options["single_run" := BoolValue(true)]
  }

  /** The job submitted for `program`, its five resource settings taken unchanged. */
  function Request(program: Application, paths: AppPaths, outputDirectory: Value,
                   arguments: map<string, Value>): JobRequest
  {
    JobRequest(program.appClass, program.timeLimitDays, program.timeLimitHours,
               program.numCpus, program.memLimitInMb, program.virtualenvPath,
               paths.projectRootDirectory, outputDirectory, arguments)
  }

  /** What printing one captured blob to `stream` leaves behind: nothing when the blob
      trims to empty, otherwise its tagged text followed by the newline `print` adds. */
  function Routed(stream: Stream, blob: string): (r: seq<Event>)
    ensures |r| <= 1
    ensures r == [] <==> RStrip(blob) == []
    ensures r != [] ==> r[0] == Printed(stream, Tagged(RStrip(blob)) + "\n")
  {
    match TagBlob(blob)
    case None => []
    case Some(text) => [Printed(stream, text + "\n")]
  }

  /** Loading the evaluation and test scores and resolving the model path (source lines
      68-75); the first loader failure ends the run. */
  function Hydrate(program: Application, paths: AppPaths, outputDirectory: Value,
                   load: string -> Result<MetricDict, string>): Outcome
  {
    var evalPath := paths.evalScoreDictPath(outputDirectory);
    match load(evalPath)
    case Err(m) => Outcome([Loaded(evalPath)], Err(LoadFailed(evalPath, m)))
    case Ok(evalScore) =>
      var testPath := paths.testScoreDictPath(outputDirectory);
      match load(testPath)
      case Err(m) => Outcome([Loaded(evalPath), Loaded(testPath)], Err(LoadFailed(testPath, m)))
      case Ok(testScore) =>
        var modelPath := paths.modelFilePath(outputDirectory, program.saveFileExtension);
        Outcome([Loaded(evalPath), Loaded(testPath), DataInitialised],
                 Ok(RunResult(evalScore, testScore, modelPath)))
  }

  /** The whole run as a value: the specification `SlurmSingleRunPolicy.Run` is proved
      against. */
  function RunSpec(program: Application, paths: AppPaths, options: map<string, Value>,
                   execute: JobRequest -> Captured,
                   load: string -> Result<MetricDict, string>): Outcome
  {
    if "output_directory" !in options then Outcome([], Err(MissingOutputDirectory))
    else
      var outputDirectory := options["output_directory"];
      var request := Request(program, paths, outputDirectory, MarkSingleRun(options));
      var captured := execute(request);
      var hydrated := Hydrate(program, paths, outputDirectory, load);
      Outcome([Submitted(request)] + Routed(Stdout, captured.stdout) + Routed(Stderr, captured.stderr)
                + hydrated.events,
              hydrated.result)
  }

  /** A run without `output_directory` fails with the missing key before anything is
      submitted or printed, and no other run fails that way. */
  lemma RunWithoutOutputDirectory(program: Application, paths: AppPaths, options: map<string, Value>,
                                  execute: JobRequest -> Captured,
                                  load: string -> Result<MetricDict, string>)
    ensures var o := RunSpec(program, paths, options, execute, load);
            ("output_directory" !in options <==> o.result == Err(MissingOutputDirectory))
            && ("output_directory" !in options ==> o.events == [])
  {
  }

  /** The one job submitted is the first effect of a run; it carries the application's
      resource settings, the output directory read from the options, and as program
      arguments the options with `single_run` set to true and every other entry unchanged. */
  lemma RunSubmitsMarkedOptions(program: Application, paths: AppPaths, options: map<string, Value>,
                                execute: JobRequest -> Captured,
                                load: string -> Result<MetricDict, string>)
    requires "output_directory" in options
    ensures var ev := RunSpec(program, paths, options, execute, load).events;
            |ev| >= 1 && ev[0].Submitted?
            && (forall i :: 0 < i < |ev| ==> !ev[i].Submitted?)
            && var req := ev[0].request;
               req.programArguments.Keys == options.Keys + {"single_run"}
               && req.programArguments["single_run"] == BoolValue(true)
               && (forall k :: k in options && k != "single_run" ==> req.programArguments[k] == options[k])
               && req.outputDirectory == options["output_directory"]
               && req.appClass == program.appClass
               && req.timeLimitDays == program.timeLimitDays
               && req.timeLimitHours == program.timeLimitHours
               && req.memLimitInMb == program.memLimitInMb
               && req.numCpus == program.numCpus
               && req.virtualenvPath == program.virtualenvPath
               && req.projectDirPath == paths.projectRootDirectory
  {
    var dir := options["output_directory"];
    var request := Request(program, paths, dir, MarkSingleRun(options));
    var captured := execute(request);
    var tail := Routed(Stdout, captured.stdout) + Routed(Stderr, captured.stderr)
                + Hydrate(program, paths, dir, load).events;
    assert RunSpec(program, paths, options, execute, load).events == [Submitted(request)] + tail;
    forall i | 0 <= i < |tail| ensures !tail[i].Submitted? {
      var o := Hydrate(program, paths, dir, load);
      assert forall e :: e in o.events ==> !e.Submitted?;
      assert tail[i] in tail;
    }
  }

  /** A run that gets past the key lookup: the submission, then what each stream's
      routing prints, then the hydration's effects. */
  lemma RunSegments(program: Application, paths: AppPaths, options: map<string, Value>,
                    execute: JobRequest -> Captured,
                    load: string -> Result<MetricDict, string>)
    requires "output_directory" in options
    ensures var ev := RunSpec(program, paths, options, execute, load).events;
            var dir := options["output_directory"];
            var request := Request(program, paths, dir, MarkSingleRun(options));
            var captured := execute(request);
            ev == [Submitted(request)] + Routed(Stdout, captured.stdout) + Routed(Stderr, captured.stderr)
                  + Hydrate(program, paths, dir, load).events
            && ev[0].request == request
  {
  }

  /** Hydration prints nothing. */
  lemma HydratePrintsNothing(program: Application, paths: AppPaths, outputDirectory: Value,
                             load: string -> Result<MetricDict, string>)
    ensures var h := Hydrate(program, paths, outputDirectory, load).events;
            forall i :: 0 <= i < |h| ==> !h[i].Printed? && !h[i].Submitted?
  {
  }

  /** Output routing: stdout's tagged text goes only to stdout and stderr's only to
      stderr, and a stream is printed to exactly when its blob does not trim to empty. */
  lemma RunRoutesOutput(program: Application, paths: AppPaths, options: map<string, Value>,
                        execute: JobRequest -> Captured,
                        load: string -> Result<MetricDict, string>)
    requires "output_directory" in options
    ensures var ev := RunSpec(program, paths, options, execute, load).events;
            var captured := execute(ev[0].request);
            (forall i :: 0 <= i < |ev| && ev[i].Printed? && ev[i].stream == Stdout ==>
               ev[i].text == Tagged(RStrip(captured.stdout)) + "\n")
            && (forall i :: 0 <= i < |ev| && ev[i].Printed? && ev[i].stream == Stderr ==>
               ev[i].text == Tagged(RStrip(captured.stderr)) + "\n")
            && ((exists i :: 0 <= i < |ev| && ev[i] == Printed(Stdout, Tagged(RStrip(captured.stdout)) + "\n"))
                <==> RStrip(captured.stdout) != [])
            && ((exists i :: 0 <= i < |ev| && ev[i] == Printed(Stderr, Tagged(RStrip(captured.stderr)) + "\n"))
                <==> RStrip(captured.stderr) != [])
  {
    RunSegments(program, paths, options, execute, load);
    var dir := options["output_directory"];
    var ev := RunSpec(program, paths, options, execute, load).events;
    var captured := execute(ev[0].request);
    var out := Routed(Stdout, captured.stdout);
    var err := Routed(Stderr, captured.stderr);
    var h := Hydrate(program, paths, dir, load).events;
    HydratePrintsNothing(program, paths, dir, load);
    forall i | 0 <= i < |ev| && ev[i].Printed?
      ensures (i == 1 && |out| == 1 && ev[i] == out[0]) || (i == 1 + |out| && |err| == 1 && ev[i] == err[0])
    {
      if i >= 1 + |out| + |err| {
        assert false;
      }
    }
    if RStrip(captured.stdout) != [] {
      assert ev[1] == out[0];
    }
    if RStrip(captured.stderr) != [] {
      assert ev[1 + |out|] == err[0];
    }
  }

  /** Stdout is printed before stderr, and both before any score file is loaded or the
      application's data is initialised. */
  lemma RunPrintsBeforeLoading(program: Application, paths: AppPaths, options: map<string, Value>,
                               execute: JobRequest -> Captured,
                               load: string -> Result<MetricDict, string>)
    requires "output_directory" in options
    ensures var ev := RunSpec(program, paths, options, execute, load).events;
            (forall i, j :: 0 <= i < j < |ev| && ev[i].Printed? && ev[j].Printed? ==>
                  ev[i].stream == Stdout && ev[j].stream == Stderr)
            && (forall i, j :: 0 <= i < j < |ev| && ev[j].Printed? ==> !ev[i].Loaded? && !ev[i].DataInitialised?)
  {
    RunSegments(program, paths, options, execute, load);
    var dir := options["output_directory"];
    var ev := RunSpec(program, paths, options, execute, load).events;
    var captured := execute(ev[0].request);
    var out := Routed(Stdout, captured.stdout);
    var err := Routed(Stderr, captured.stderr);
    var h := Hydrate(program, paths, dir, load).events;
    HydratePrintsNothing(program, paths, dir, load);
    forall i | 0 <= i < |ev| && ev[i].Printed?
      ensures (i == 1 && |out| == 1 && ev[i].stream == Stdout) || (i == 1 + |out| && |err| == 1 && ev[i].stream == Stderr)
    {
      if i >= 1 + |out| + |err| {
        assert false;
      } else if i == 1 + |out| {
        assert ev[i] == err[0];
      } else {
        assert ev[i] == out[0];
      }
    }
  }

  /** Result hydration: the run succeeds exactly when both score files load; the
      validation and test scores are the two loaded dictionaries and the model path is
      the canonical one for the output directory and the model's save-file extension; a
      loader failure is passed on unchanged, the evaluation file being read first. The
      hydration effects close the trace: no load or data initialisation comes before them,
      so a failed evaluation load is followed by neither the test load nor `init_data()`. */
  lemma RunBuildsResult(program: Application, paths: AppPaths, options: map<string, Value>,
                        execute: JobRequest -> Captured,
                        load: string -> Result<MetricDict, string>)
    requires "output_directory" in options
    ensures var o := RunSpec(program, paths, options, execute, load);
            var dir := options["output_directory"];
            var evalPath := paths.evalScoreDictPath(dir);
            var testPath := paths.testScoreDictPath(dir);
            (o.result.Ok? <==> load(evalPath).Ok? && load(testPath).Ok?)
            && (o.result.Ok? ==>
                  o.result.value == RunResult(load(evalPath).value, load(testPath).value,
                                              paths.modelFilePath(dir, program.saveFileExtension))
                  && o.events[|o.events| - 3..] == [Loaded(evalPath), Loaded(testPath), DataInitialised])
            && (load(evalPath).Err? ==>
                  o.result == Err(LoadFailed(evalPath, load(evalPath).error))
                  && o.events[|o.events| - 1] == Loaded(evalPath))
            && (load(evalPath).Ok? && load(testPath).Err? ==>
                  o.result == Err(LoadFailed(testPath, load(testPath).error))
                  && o.events[|o.events| - 2..] == [Loaded(evalPath), Loaded(testPath)])
            && var k := if load(evalPath).Err? then 1 else if load(testPath).Err? then 2 else 3;
               |o.events| >= k
               && (forall i :: 0 <= i < |o.events| - k ==> !o.events[i].Loaded? && !o.events[i].DataInitialised?)
  {
    RunSegments(program, paths, options, execute, load);
    var dir := options["output_directory"];
    var ev := RunSpec(program, paths, options, execute, load).events;
    var captured := execute(ev[0].request);
    var out := Routed(Stdout, captured.stdout);
    var err := Routed(Stderr, captured.stderr);
    var h := Hydrate(program, paths, dir, load).events;
    assert ev == [ev[0]] + out + err + h;
    forall i | 0 <= i < 1 + |out| + |err| ensures !ev[i].Loaded? && !ev[i].DataInitialised? {
      if 1 <= i < 1 + |out| {
        assert ev[i] == out[i - 1];
      } else if 1 + |out| <= i {
        assert ev[i] == err[i - 1 - |out|];
      }
    }
  }

  /** The model path is a function of the output directory and the extension alone: two
      runs of one application with the same `output_directory` that both succeed report
      the same model path, whatever else their options, job output or score files hold. */
  lemma ModelPathDependsOnlyOnDirectory(program: Application, paths: AppPaths,
                                        options1: map<string, Value>, options2: map<string, Value>,
                                        execute1: JobRequest -> Captured, execute2: JobRequest -> Captured,
                                        load1: string -> Result<MetricDict, string>,
                                        load2: string -> Result<MetricDict, string>)
    requires "output_directory" in options1 && "output_directory" in options2
    requires options1["output_directory"] == options2["output_directory"]
    ensures var r1 := RunSpec(program, paths, options1, execute1, load1).result;
            var r2 := RunSpec(program, paths, options2, execute2, load2).result;
            r1.Ok? && r2.Ok? ==> r1.value.modelPath == r2.value.modelPath
  {
  }

  /** The append-only record of a run's effects: the local standard streams, the scheduler
      submission, the score-file reads and the data initialisation. */
  class Trace {
    var events: seq<Event>

    constructor ()
      ensures events == []
    {
      events := [];
    }

    method Record(e: Event)
      modifies this
      ensures events == old(events) + [e]
    {
      events := events + [e];
    }

    /** `print(text, file=stream, flush=True)`: the text and one newline reach the stream
        before the call returns. */
    method Print(stream: Stream, text: string)
      modifies this
      ensures events == old(events) + [Printed(stream, text + "\n")]
    {
      events := events + [Printed(stream, text + "\n")];
    }
  }

  class SlurmSingleRunPolicy {
    const appPaths: AppPaths
    const basePolicy: Application

    constructor (basePolicy: Application, appPaths: AppPaths)
      ensures this.basePolicy == basePolicy && this.appPaths == appPaths
    {
      this.appPaths := appPaths;
      this.basePolicy := basePolicy;
    }

    /** The run executes on a queued remote venue, so callers may pool many runs. */
    function IsAsyncRunPolicy(): (b: bool)
      ensures b
    {
      true
    }

    /** One remote run: `kwargs` are the run's keyword arguments, `execute` the scheduler's
        blocking submission and `load` the metric-file loader. */
    method Run(kwargs: map<string, Value>, execute: JobRequest -> Captured,
               load: string -> Result<MetricDict, string>, trace: Trace)
      returns (r: Result<RunResult, RunError>)
      modifies trace
      ensures trace.events == old(trace.events) + RunSpec(basePolicy, appPaths, kwargs, execute, load).events
      ensures r == RunSpec(basePolicy, appPaths, kwargs, execute, load).result
    {
      var timeLimitDays := basePolicy.timeLimitDays;
      var timeLimitHours := basePolicy.timeLimitHours;
      var memLimitInMb := basePolicy.memLimitInMb;
      var numCpus := basePolicy.numCpus;
      var virtualenvPath := basePolicy.virtualenvPath;

      if "output_directory" !in kwargs {
        return Err(MissingOutputDirectory);
      }
      var outputDirectory := kwargs["output_directory"];

      var arguments := kwargs;
      arguments := arguments["single_run" := BoolValue(true)];
      var request := JobRequest(basePolicy.appClass, timeLimitDays, timeLimitHours, numCpus,
                                memLimitInMb, virtualenvPath, appPaths.projectRootDirectory,
                                outputDirectory, arguments);
      trace.Record(Submitted(request));
      var captured := execute(request);
      PrintTagged(Stdout, captured.stdout, trace);
      PrintTagged(Stderr, captured.stderr, trace);
      r := LoadResult(outputDirectory, load, trace);
      assert trace.events == old(trace.events) + [Submitted(request)] + Routed(Stdout, captured.stdout)
                               + Routed(Stderr, captured.stderr)
                               + Hydrate(basePolicy, appPaths, outputDirectory, load).events;
    }

    /** Lines 59-67 for one stream: trim the blob and, when anything is left, print it tagged. */
    method PrintTagged(stream: Stream, blob: string, trace: Trace)
      modifies trace
      ensures trace.events == old(trace.events) + Routed(stream, blob)
    {
      var contents := RStrip(blob);
      if contents != [] {
        contents := Tagged(contents);
        trace.Print(stream, contents);
      }
    }

    /** Lines 68-75: read both score files, initialise the application's data and
        resolve the model path under `outputDirectory`. */
    method LoadResult(outputDirectory: Value, load: string -> Result<MetricDict, string>, trace: Trace)
      returns (r: Result<RunResult, RunError>)
      modifies trace
      ensures trace.events == old(trace.events) + Hydrate(basePolicy, appPaths, outputDirectory, load).events
      ensures r == Hydrate(basePolicy, appPaths, outputDirectory, load).result
    {
      var evalPath := appPaths.evalScoreDictPath(outputDirectory);
      trace.Record(Loaded(evalPath));
      var evalScore := load(evalPath);
      if evalScore.Err? {
        return Err(LoadFailed(evalPath, evalScore.error));
      }
      var testPath := appPaths.testScoreDictPath(outputDirectory);
      trace.Record(Loaded(testPath));
      var testScore := load(testPath);
      if testScore.Err? {
        return Err(LoadFailed(testPath, testScore.error));
      }
      trace.Record(DataInitialised);
      var modelPath := appPaths.modelFilePath(outputDirectory, basePolicy.saveFileExtension);
      r := Ok(RunResult(evalScore.value, testScore.value, modelPath));
    }
  }
}
