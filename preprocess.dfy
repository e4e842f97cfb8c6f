/** The preprocessing driver and orchestrator of conflunet/preprocessing/preprocess.py.

    Every call into the segmentation framework (dataset-name lookup, integrity check,
    fingerprint extraction, planning, loading the plans, building and running a
    preprocessor) is an `Event` appended to a trace. What such a call does to the file
    system, whether it raises, and what it returns are supplied from outside by a
    `Framework` value. The driver's own work (argument checks, the configuration loop,
    the assertions, the ground-truth copy) is modelled in full. */
module Preprocess {
  import opened Wrappers
  import opened Paths
  import opened Files

  /** A call into the external framework, with the arguments the driver passes. */
  datatype Event =
    | ConvertIdToDatasetName(datasetId: int)
    | VerifyDatasetIntegrity(rawFolder: Path, numProcesses: int)
    | ExtractFingerprint(datasetId: int, numProcesses: int, overwriteExisting: bool, verbose: bool)
    | PlanExperiment(datasetId: int)
    | LoadPlans(plansFile: Path)
    | BuildPreprocessor(configuration: string, verbose: bool, inference: bool,
                        outputDirForInference: Option<Path>,
                        addSmallObjectClassesInNpz: bool, addConfluentInstancesInNpz: bool)
    | Run(datasetId: int, configuration: string, plansIdentifier: string, numProcesses: int)
    | RunForInference(datasetId: int, configuration: string, plansIdentifier: string,
                      inputDir: Path, numProcesses: int)

  /** What the driver reads from a plans file: the configuration names it defines. */
  datatype Plans = Plans(availableConfigurations: seq<string>)

  /** What the driver reads from the raw dataset.json: the file ending of its cases. */
  datatype Manifest = Manifest(fileEnding: string)

  /** A training case and the path of its ground-truth label file. */
  datatype CaseLabel = CaseLabel(caseId: string, labelFile: Path)

  /** The external framework as the driver sees it. */
  datatype Framework = Framework(
    rawRoot: Path,                       // nnUNet_raw
    preprocessedRoot: Path,              // nnUNet_preprocessed
    fails: set<Event>,                   // the calls that raise
    effect: (Event, FileSystem) -> FileSystem,
    datasetName: int -> string,          // convert_id_to_dataset_name, when it does not raise
    readPlans: (FileSystem, Path) -> Plans,
    readManifest: Content -> Manifest,
    trainingCases: (FileSystem, Path, Manifest) -> seq<CaseLabel>)

  datatype Error =
    | ConfigurationCountMismatch(numConfigurations: nat, numProcesses: nat)  // RuntimeError
    | ForeignFailure(event: Event)       // an exception raised by the framework
    | FileNotFound(path: Path)           // load_json on a missing file
    | FileSystemError(cause: FsError)
    | ArtifactMissing(path: Path)        // a failed `assert isdir/isfile`

  /** The outside world: the calls made so far and the file system. */
  datatype State = State(trace: seq<Event>, fs: FileSystem)

  /** Where a run stopped, and why if it raised. Nothing is rolled back on an error. */
  datatype Outcome = Outcome(state: State, error: Option<Error>)

  function RawDir(fw: Framework, name: string): Path {
    Join(fw.rawRoot, name)
  }

  function PreprocessedDir(fw: Framework, name: string): Path {
    Join(fw.preprocessedRoot, name)
  }

  function PlansFile(fw: Framework, name: string, plansIdentifier: string): Path {
    Join(PreprocessedDir(fw, name), plansIdentifier + ".json")
  }

  function DefaultInputDir(fw: Framework, name: string): Path {
    Join(RawDir(fw, name), "imagesTs")
  }

  function GroundTruthDir(fw: Framework, name: string): Path {
    Join(PreprocessedDir(fw, name), "gt_segmentations")
  }

  function GroundTruthPath(gtDir: Path, caseId: string, fileEnding: string): Path {
    Join(gtDir, caseId + fileEnding)
  }

  /** One call into the framework. */
  function Call(fw: Framework, s: State, e: Event): Outcome {
    Outcome(State(s.trace + [e], fw.effect(e, s.fs)),
            if e in fw.fails then Some(ForeignFailure(e)) else None)
  }

  /** Reference semantics of a fixed sequence of calls: they are made in order and the
      first one that raises ends the run. */
  function Issue(fw: Framework, s: State, events: seq<Event>): (o: Outcome)
    ensures |s.trace| <= |o.state.trace| <= |s.trace| + |events|
    ensures o.state.trace == s.trace + events[..|o.state.trace| - |s.trace|]
    ensures o.error.None? <==> forall e :: e in events ==> e !in fw.fails
    ensures o.error.None? ==> o.state.trace == s.trace + events
    ensures o.error.Some? ==>
              var k := |o.state.trace| - |s.trace|;
              0 < k && events[k - 1] in fw.fails && o.error == Some(ForeignFailure(events[k - 1]))
              && forall j :: 0 <= j < k - 1 ==> events[j] !in fw.fails
    decreases |events|
  {
    if events == [] then Outcome(s, None)
    else
      var o := Call(fw, s, events[0]);
      if o.error.Some? then o
      else
        var rest := Issue(fw, o.state, events[1..]);
        assert forall e :: e in events ==> e == events[0] || e in events[1..];
        rest
  }

  /** Unfolds `Issue` by one call. */
  lemma IssueStep(fw: Framework, s: State, e: Event, rest: seq<Event>)
    ensures Issue(fw, s, [e] + rest)
            == var o := Call(fw, s, e); if o.error.Some? then o else Issue(fw, o.state, rest)
  {
    assert ([e] + rest)[1..] == rest;
  }

  /** Python's `list * n`. */
  function Repeat<T>(s: seq<T>, n: nat): (r: seq<T>)
    ensures |r| == |s| * n
    ensures forall x :: x in r ==> x in s
    ensures |s| == 1 ==> forall i :: 0 <= i < |r| ==> r[i] == s[0]
  {
    if n == 0 then [] else s + Repeat(s, n - 1)
  }

  /** The per-configuration process counts after normalisation: a single count is
      broadcast to every configuration; any other length must match exactly. */
  function Broadcast(numProcesses: seq<int>, configurations: seq<string>): (r: Result<seq<int>, Error>)
    ensures r.Success? <==> |numProcesses| == 1 || |numProcesses| == |configurations|
    ensures r.Success? ==> |r.value| == |configurations|
    ensures r.Success? && |numProcesses| == 1 ==>
              forall i :: 0 <= i < |r.value| ==> r.value[i] == numProcesses[0]
    ensures r.Success? && |numProcesses| != 1 ==> r.value == numProcesses
    ensures r.Failure? ==> r.error == ConfigurationCountMismatch(|configurations|, |numProcesses|)
  {
    var ns := if |numProcesses| == 1 then Repeat(numProcesses, |configurations|) else numProcesses;
    if |ns| != |configurations| then Failure(ConfigurationCountMismatch(|configurations|, |ns|))
    else Success(ns)
  }

  /** The arguments of `preprocess_dataset`. */
  datatype DatasetArgs = DatasetArgs(
    datasetId: int,
    plansIdentifier: string,
    configurations: seq<string>,
    numProcesses: seq<int>,
    inference: bool,
    plansManager: Option<Plans>,
    outputDirForInference: Option<Path>,
    inputDir: Option<Path>,
    verbose: bool)

  /** What stays fixed while the configurations are walked. */
  datatype Request = Request(
    datasetId: int,
    datasetName: string,
    plansIdentifier: string,
    inference: bool,
    outputDirForInference: Option<Path>,
    verbose: bool,
    plans: Plans)

  /** The configuration loop's state: the world, the current `input_dir`, and the
      exception that ended the loop, if any. */
  datatype Progress = Progress(state: State, inputDir: Option<Path>, error: Option<Error>)

  function Build(rq: Request, c: string): Event {
    BuildPreprocessor(c, rq.verbose, rq.inference, rq.outputDirForInference, true, true)
  }

  /** One iteration of the configuration loop. */
  function DispatchStep(fw: Framework, rq: Request, p: Progress, c: string, n: int): Progress {
    if c !in rq.plans.availableConfigurations then p
    else
      var b := Call(fw, p.state, Build(rq, c));
      if b.error.Some? then Progress(b.state, p.inputDir, b.error)
      else if rq.inference then
        var dir := if p.inputDir.None? then DefaultInputDir(fw, rq.datasetName) else p.inputDir.value;
        var o := Call(fw, b.state, RunForInference(rq.datasetId, c, rq.plansIdentifier, dir, n));
        Progress(o.state, Some(dir), o.error)
      else
        var o := Call(fw, b.state, Run(rq.datasetId, c, rq.plansIdentifier, n));
        Progress(o.state, p.inputDir, o.error)
  }

  /** The configuration loop over the pairs `zip(ns, cs)`, stopping at the first error. */
  function DispatchAll(fw: Framework, rq: Request, p: Progress, cs: seq<string>, ns: seq<int>): Progress
    requires |cs| == |ns|
    decreases |cs|
  {
    if cs == [] then p
    else
      var prev := DispatchAll(fw, rq, p, cs[..|cs| - 1], ns[..|ns| - 1]);
      if prev.error.Some? then prev
      else DispatchStep(fw, rq, prev, cs[|cs| - 1], ns[|cs| - 1])
  }

  /** Once the loop has raised, the remaining configurations change nothing. */
  lemma {:induction false} DispatchAllStopped(fw: Framework, rq: Request, p: Progress,
                                               cs: seq<string>, ns: seq<int>, i: nat)
    requires |cs| == |ns| && i <= |cs|
    requires DispatchAll(fw, rq, p, cs[..i], ns[..i]).error.Some?
    ensures DispatchAll(fw, rq, p, cs, ns) == DispatchAll(fw, rq, p, cs[..i], ns[..i])
    decreases |cs|
  {
    if i < |cs| {
      assert cs[..|cs| - 1][..i] == cs[..i];
      assert ns[..|ns| - 1][..i] == ns[..i];
      DispatchAllStopped(fw, rq, p, cs[..|cs| - 1], ns[..|ns| - 1], i);
    } else {
      assert cs[..i] == cs && ns[..i] == ns;
    }
  }

  /** The progress of copying label files into the cache. */
  datatype CopyRun = CopyRun(fs: FileSystem, copied: seq<Path>, error: Option<Error>)

  /** The copy loop: each case's label goes to `<case><file ending>` in the cache
      directory if it is newer; the first failing copy ends the loop. */
  function CopyCases(fs: FileSystem, cases: seq<CaseLabel>, gtDir: Path, fileEnding: string): CopyRun
    decreases |cases|
  {
    if cases == [] then CopyRun(fs, [], None)
    else
      var prev := CopyCases(fs, cases[..|cases| - 1], gtDir, fileEnding);
      if prev.error.Some? then prev
      else
        var k := cases[|cases| - 1];
        var dst := GroundTruthPath(gtDir, k.caseId, fileEnding);
        match CopyIfNewer(prev.fs, k.labelFile, dst)
        case Failure(e) => CopyRun(prev.fs, prev.copied, Some(FileSystemError(e)))
        case Success(r) => CopyRun(r.0, if r.1 then prev.copied + [dst] else prev.copied, None)
  }

  lemma {:induction false} CopyCasesStopped(fs: FileSystem, cases: seq<CaseLabel>, gtDir: Path,
                                             fileEnding: string, i: nat)
    requires i <= |cases|
    requires CopyCases(fs, cases[..i], gtDir, fileEnding).error.Some?
    ensures CopyCases(fs, cases, gtDir, fileEnding) == CopyCases(fs, cases[..i], gtDir, fileEnding)
    decreases |cases|
  {
    if i < |cases| {
      assert cases[..|cases| - 1][..i] == cases[..i];
      CopyCasesStopped(fs, cases[..|cases| - 1], gtDir, fileEnding, i);
    } else {
      assert cases[..i] == cases;
    }
  }

  /** The training-mode post-step: create the cache directory, read the raw
      dataset.json and copy every case's label into the cache. */
  function CacheOutcome(fw: Framework, s: State, name: string): Outcome {
    var gtDir := GroundTruthDir(fw, name);
    match MakeDirs(s.fs, gtDir)
    case Failure(e) => Outcome(s, Some(FileSystemError(e)))
    case Success(fs1) =>
      var manifestPath := Join(RawDir(fw, name), "dataset.json");
      if !IsFile(fs1, manifestPath) then Outcome(State(s.trace, fs1), Some(FileNotFound(manifestPath)))
      else
        var m := fw.readManifest(fs1[manifestPath].content);
        var run := CopyCases(fs1, fw.trainingCases(fs1, RawDir(fw, name), m), gtDir, m.fileEnding);
        Outcome(State(s.trace, run.fs), run.error)
  }

  /** The plans in use: the ones handed in, or the ones loaded from the plans file. */
  function PlansStep(fw: Framework, s: State, a: DatasetArgs, name: string): (Outcome, Plans) {
    if a.plansManager.Some? then (Outcome(s, None), a.plansManager.value)
    else
      var file := PlansFile(fw, name, a.plansIdentifier);
      var o := Call(fw, s, LoadPlans(file));
      (o, fw.readPlans(o.state.fs, file))
  }

  /** `preprocess_dataset`, step by step. */
  function DatasetOutcome(fw: Framework, s: State, a: DatasetArgs): Outcome {
    match Broadcast(a.numProcesses, a.configurations)
    case Failure(e) => Outcome(s, Some(e))
    case Success(ns) =>
      var cv := Call(fw, s, ConvertIdToDatasetName(a.datasetId));
      if cv.error.Some? then cv
      else
        var name := fw.datasetName(a.datasetId);
        var (lp, plans) := PlansStep(fw, cv.state, a, name);
        if lp.error.Some? then lp
        else
          var rq := Request(a.datasetId, name, a.plansIdentifier, a.inference,
                            a.outputDirForInference, a.verbose, plans);
          var d := DispatchAll(fw, rq, Progress(lp.state, a.inputDir, None), a.configurations, ns);
          if d.error.Some? then Outcome(d.state, d.error)
          else if a.inference then Outcome(d.state, None)
          else CacheOutcome(fw, d.state, name)
  }

  /** The arguments of `preprocess`. */
  datatype PreprocessArgs = PreprocessArgs(
    datasetId: int,
    checkDatasetIntegrity: bool,
    numProcesses: int,
    overwriteExistingDatasetFingerprint: bool,
    inference: bool,
    outputDirForInference: Option<Path>,
    verbose: bool)

  /** The calls `preprocess` makes before its assertions. */
  function PreparationEvents(fw: Framework, a: PreprocessArgs): seq<Event> {
    var name := fw.datasetName(a.datasetId);
    [ConvertIdToDatasetName(a.datasetId)]
    + (if a.checkDatasetIntegrity && !a.inference
       then [VerifyDatasetIntegrity(RawDir(fw, name), a.numProcesses)] else [])
    + (if !a.inference
       then [ExtractFingerprint(a.datasetId, a.numProcesses, a.overwriteExistingDatasetFingerprint, a.verbose),
             PlanExperiment(a.datasetId)]
       else [])
  }

  /** The first of the four artifacts `preprocess` asserts that is missing, if any. */
  function MissingArtifact(fs: FileSystem, dir: Path): Option<Path> {
    if !IsDir(fs, dir) then Some(dir)
    else if !IsFile(fs, Join(dir, "dataset.json")) then Some(Join(dir, "dataset.json"))
    else if !IsFile(fs, Join(dir, "dataset_fingerprint.json")) then Some(Join(dir, "dataset_fingerprint.json"))
    else if !IsFile(fs, Join(dir, "nnUNetPlans.json")) then Some(Join(dir, "nnUNetPlans.json"))
    else None
  }

  /** The single `preprocess_dataset` call that ends `preprocess`. */
  function FullResolutionArgs(a: PreprocessArgs): DatasetArgs {
    DatasetArgs(a.datasetId, "nnUNetPlans", ["3d_fullres"], [a.numProcesses], a.inference,
                None, a.outputDirForInference, None, a.verbose)
  }

  /** What `preprocess` does once the preparation calls have returned: the four
      assertions, then the full-resolution preprocessing. */
  function AfterPreparation(fw: Framework, s: State, a: PreprocessArgs): Outcome {
    match MissingArtifact(s.fs, PreprocessedDir(fw, fw.datasetName(a.datasetId)))
    case Some(p) => Outcome(s, Some(ArtifactMissing(p)))
    case None => DatasetOutcome(fw, s, FullResolutionArgs(a))
  }

  /** `preprocess`: the preparation calls in order, then the assertions, then the
      full-resolution preprocessing. */
  function PreprocessOutcome(fw: Framework, s: State, a: PreprocessArgs): Outcome {
    var prep := Issue(fw, s, PreparationEvents(fw, a));
    if prep.error.Some? then prep else AfterPreparation(fw, prep.state, a)
  }

  // ---------------------------------------------------------------------------
  // The driver as the source writes it: statements that update local variables,
  // loops, and an early return where the source raises.
  // ---------------------------------------------------------------------------

  /** The copy loop at the end of `preprocess_dataset`. */
  method CopyGroundTruth(fs: FileSystem, cases: seq<CaseLabel>, gtDir: Path, fileEnding: string)
    returns (run: CopyRun)
    ensures run == CopyCases(fs, cases, gtDir, fileEnding)
  {
    run := CopyRun(fs, [], None);
    for i := 0 to |cases|
      invariant run == CopyCases(fs, cases[..i], gtDir, fileEnding)
      invariant run.error.None?
    {
      assert cases[..i + 1][..i] == cases[..i];
      var k := cases[i];
      var dst := GroundTruthPath(gtDir, k.caseId, fileEnding);
      var r := CopyIfNewer(run.fs, k.labelFile, dst);
      if r.Failure? {
        run := CopyRun(run.fs, run.copied, Some(FileSystemError(r.error)));
        CopyCasesStopped(fs, cases, gtDir, fileEnding, i + 1);
        return;
      }
      var (fs', didCopy) := r.value;
      run := CopyRun(fs', if didCopy then run.copied + [dst] else run.copied, None);
    }
    assert cases[..|cases|] == cases;
  }

  /** The training-mode post-step of `preprocess_dataset`. */
  method CacheGroundTruth(fw: Framework, s: State, name: string) returns (out: Outcome)
    ensures out == CacheOutcome(fw, s, name)
    ensures out.state.trace == s.trace
  {
    var gtDir := GroundTruthDir(fw, name);
    var made := MakeDirs(s.fs, gtDir);
    if made.Failure? {
      return Outcome(s, Some(FileSystemError(made.error)));
    }
    var manifestPath := Join(RawDir(fw, name), "dataset.json");
    if !IsFile(made.value, manifestPath) {
      return Outcome(State(s.trace, made.value), Some(FileNotFound(manifestPath)));
    }
    var manifest := fw.readManifest(made.value[manifestPath].content);
    var cases := fw.trainingCases(made.value, RawDir(fw, name), manifest);
    var run := CopyGroundTruth(made.value, cases, gtDir, manifest.fileEnding);
    out := Outcome(State(s.trace, run.fs), run.error);
  }

  /** The configuration loop of `preprocess_dataset`: `for n, c in zip(num_processes,
      configurations)`, with `input_dir` defaulted on first use in inference mode. */
  method DispatchConfigurations(fw: Framework, rq: Request, s: State, inputDir: Option<Path>,
                                configurations: seq<string>, numProcesses: seq<int>)
    returns (p: Progress)
    requires |configurations| == |numProcesses|
    ensures p == DispatchAll(fw, rq, Progress(s, inputDir, None), configurations, numProcesses)
  {
    var start := Progress(s, inputDir, None);
    p := start;
    for i := 0 to |configurations|
      invariant p == DispatchAll(fw, rq, start, configurations[..i], numProcesses[..i])
      invariant p.error.None?
    {
      assert configurations[..i + 1][..i] == configurations[..i];
      assert numProcesses[..i + 1][..i] == numProcesses[..i];
      var c, n := configurations[i], numProcesses[i];
      if c !in rq.plans.availableConfigurations {
        continue;
      }
      var built := Call(fw, p.state, Build(rq, c));
      if built.error.Some? {
        p := Progress(built.state, p.inputDir, built.error);
        DispatchAllStopped(fw, rq, start, configurations, numProcesses, i + 1);
        return;
      }
      var dir := p.inputDir;
      var ran: Outcome;
      if rq.inference {
        if dir.None? {
          dir := Some(DefaultInputDir(fw, rq.datasetName));
        }
        ran := Call(fw, built.state, RunForInference(rq.datasetId, c, rq.plansIdentifier, dir.value, n));
      } else {
        ran := Call(fw, built.state, Run(rq.datasetId, c, rq.plansIdentifier, n));
      }
      p := Progress(ran.state, dir, ran.error);
      if ran.error.Some? {
        DispatchAllStopped(fw, rq, start, configurations, numProcesses, i + 1);
        return;
      }
    }
    assert configurations[..|configurations|] == configurations;
    assert numProcesses[..|numProcesses|] == numProcesses;
  }

  /** `preprocess_dataset`. */
  method PreprocessDataset(fw: Framework, s: State, a: DatasetArgs) returns (out: Outcome)
    ensures out == DatasetOutcome(fw, s, a)
  {
    var numProcesses := a.numProcesses;
    if |numProcesses| == 1 {
      numProcesses := Repeat(numProcesses, |a.configurations|);
    }
    if |numProcesses| != |a.configurations| {
      return Outcome(s, Some(ConfigurationCountMismatch(|a.configurations|, |numProcesses|)));
    }

    out := Call(fw, s, ConvertIdToDatasetName(a.datasetId));
    if out.error.Some? {
      return;
    }
    var datasetName := fw.datasetName(a.datasetId);
    var plans: Plans;
    if a.plansManager.None? {
      var plansFile := PlansFile(fw, datasetName, a.plansIdentifier);
      out := Call(fw, out.state, LoadPlans(plansFile));
      if out.error.Some? {
        return;
      }
      plans := fw.readPlans(out.state.fs, plansFile);
    } else {
      plans := a.plansManager.value;
    }

    var rq := Request(a.datasetId, datasetName, a.plansIdentifier, a.inference,
                      a.outputDirForInference, a.verbose, plans);
    var p := DispatchConfigurations(fw, rq, out.state, a.inputDir, a.configurations, numProcesses);
    if p.error.Some? {
      return Outcome(p.state, p.error);
    }
    if a.inference {
      return Outcome(p.state, None);
    }
    out := CacheGroundTruth(fw, p.state, datasetName);
  }

  /** `preprocess`. */
  method Preprocess(fw: Framework, s: State, a: PreprocessArgs) returns (out: Outcome)
    ensures out == PreprocessOutcome(fw, s, a)
  {
    var datasetName := fw.datasetName(a.datasetId);
    ghost var integrity := if a.checkDatasetIntegrity && !a.inference
                           then [VerifyDatasetIntegrity(RawDir(fw, datasetName), a.numProcesses)] else [];
    ghost var planning := if !a.inference
                          then [ExtractFingerprint(a.datasetId, a.numProcesses,
                                                   a.overwriteExistingDatasetFingerprint, a.verbose),
                                PlanExperiment(a.datasetId)]
                          else [];
    assert PreparationEvents(fw, a) == [ConvertIdToDatasetName(a.datasetId)] + (integrity + planning);
    IssueStep(fw, s, ConvertIdToDatasetName(a.datasetId), integrity + planning);
    out := Call(fw, s, ConvertIdToDatasetName(a.datasetId));
    if out.error.Some? {
      return;
    }
    if a.checkDatasetIntegrity && !a.inference {
      IssueStep(fw, out.state, integrity[0], planning);
      out := Call(fw, out.state, VerifyDatasetIntegrity(RawDir(fw, datasetName), a.numProcesses));
      if out.error.Some? {
        return;
      }
    }
    if !a.inference {
      IssueStep(fw, out.state, planning[0], planning[1..]);
      out := Call(fw, out.state, ExtractFingerprint(a.datasetId, a.numProcesses,
                                                     a.overwriteExistingDatasetFingerprint, a.verbose));
      if out.error.Some? {
        return;
      }
      IssueStep(fw, out.state, planning[1], []);
      out := Call(fw, out.state, PlanExperiment(a.datasetId));
      if out.error.Some? {
        return;
      }
    }

    out := FinishPreprocess(fw, out.state, a);
  }

  /** The assertions that end `preprocess` and its call of `preprocess_dataset`. */
  method FinishPreprocess(fw: Framework, s: State, a: PreprocessArgs) returns (out: Outcome)
    ensures out == AfterPreparation(fw, s, a)
  {
    var dir := PreprocessedDir(fw, fw.datasetName(a.datasetId));
    if !IsDir(s.fs, dir) {
      return Outcome(s, Some(ArtifactMissing(dir)));
    }
    if !IsFile(s.fs, Join(dir, "dataset.json")) {
      return Outcome(s, Some(ArtifactMissing(Join(dir, "dataset.json"))));
    }
    if !IsFile(s.fs, Join(dir, "dataset_fingerprint.json")) {
      return Outcome(s, Some(ArtifactMissing(Join(dir, "dataset_fingerprint.json"))));
    }
    if !IsFile(s.fs, Join(dir, "nnUNetPlans.json")) {
      return Outcome(s, Some(ArtifactMissing(Join(dir, "nnUNetPlans.json"))));
    }
    out := PreprocessDataset(fw, s, FullResolutionArgs(a));
  }
}
