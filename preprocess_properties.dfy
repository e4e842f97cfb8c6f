/** What the preprocessing driver guarantees, stated against reference descriptions
    that do not follow the driver's own control flow: the configuration loop against
    the list of calls it should make, the whole of `preprocess_dataset` against
    issuing that list in order, and the label cache against its up-to-date condition. */
module PreprocessProperties {
  import opened Wrappers
  import opened Paths
  import opened Files
  import opened Preprocess

  // ---------------------------------------------------------------------------
  // Issuing calls in sequence
  // ---------------------------------------------------------------------------

  /** Issuing `a + b` is issuing `a` and, unless that raised, then `b`. */
  lemma {:induction false} IssueAppend(fw: Framework, s: State, a: seq<Event>, b: seq<Event>)
    ensures Issue(fw, s, a + b)
            == var o := Issue(fw, s, a); if o.error.Some? then o else Issue(fw, o.state, b)
    decreases |a|
  {
    if a == [] {
      assert a + b == b;
    } else {
      assert a + b == [a[0]] + (a[1..] + b);
      assert a == [a[0]] + a[1..];
      IssueStep(fw, s, a[0], a[1..] + b);
      IssueStep(fw, s, a[0], a[1..]);
      var o := Call(fw, s, a[0]);
      if o.error.None? {
        IssueAppend(fw, o.state, a[1..], b);
      }
    }
  }

  // ---------------------------------------------------------------------------
  // The configuration loop
  // ---------------------------------------------------------------------------

  /** The input directory every inference run receives: the one given, or else the
      dataset's imagesTs folder under the raw root. */
  function EffectiveInputDir(fw: Framework, rq: Request, inputDir: Option<Path>): Path {
    if inputDir.Some? then inputDir.value else DefaultInputDir(fw, rq.datasetName)
  }

  function RunEvent(fw: Framework, rq: Request, inputDir: Option<Path>, c: string, n: int): Event {
    if rq.inference then RunForInference(rq.datasetId, c, rq.plansIdentifier, EffectiveInputDir(fw, rq, inputDir), n)
    else Run(rq.datasetId, c, rq.plansIdentifier, n)
  }

  /** The calls owed to one (configuration, process count) pair: none when the plans
      do not define the configuration, else one preprocessor and one run of it. */
  function Block(fw: Framework, rq: Request, inputDir: Option<Path>, c: string, n: int): seq<Event> {
    if c in rq.plans.availableConfigurations then [Build(rq, c), RunEvent(fw, rq, inputDir, c, n)] else []
  }

  /** Reference list of the calls the configuration loop owes, position by position. */
  function Dispatched(fw: Framework, rq: Request, inputDir: Option<Path>, cs: seq<string>, ns: seq<int>): seq<Event>
    requires |cs| == |ns|
    decreases |cs|
  {
    if cs == [] then []
    else Block(fw, rq, inputDir, cs[0], ns[0]) + Dispatched(fw, rq, inputDir, cs[1..], ns[1..])
  }

  lemma {:induction false} DispatchedSnoc(fw: Framework, rq: Request, inputDir: Option<Path>,
                                           cs: seq<string>, ns: seq<int>)
    requires |cs| == |ns| && |cs| > 0
    ensures Dispatched(fw, rq, inputDir, cs, ns)
            == Dispatched(fw, rq, inputDir, cs[..|cs| - 1], ns[..|ns| - 1])
               + Block(fw, rq, inputDir, cs[|cs| - 1], ns[|cs| - 1])
    decreases |cs|
  {
    if |cs| > 1 {
      DispatchedSnoc(fw, rq, inputDir, cs[1..], ns[1..]);
      assert cs[..|cs| - 1][1..] == cs[1..][..|cs| - 2];
      assert ns[..|ns| - 1][1..] == ns[1..][..|ns| - 2];
    }
  }

  /** Which calls the reference list holds: a preprocessor and a run for every position
      whose configuration the plans define, each run with the count at that position,
      and nothing for any other configuration. */
  lemma {:induction false} DispatchedCalls(fw: Framework, rq: Request, inputDir: Option<Path>,
                                            cs: seq<string>, ns: seq<int>)
    requires |cs| == |ns|
    ensures forall i :: 0 <= i < |cs| && cs[i] in rq.plans.availableConfigurations ==>
              Build(rq, cs[i]) in Dispatched(fw, rq, inputDir, cs, ns)
              && RunEvent(fw, rq, inputDir, cs[i], ns[i]) in Dispatched(fw, rq, inputDir, cs, ns)
    ensures forall e :: e in Dispatched(fw, rq, inputDir, cs, ns) ==>
              exists i :: 0 <= i < |cs| && cs[i] in rq.plans.availableConfigurations
                          && (e == Build(rq, cs[i]) || e == RunEvent(fw, rq, inputDir, cs[i], ns[i]))
    ensures |Dispatched(fw, rq, inputDir, cs, ns)| <= 2 * |cs|
    decreases |cs|
  {
    if cs != [] {
      DispatchedCalls(fw, rq, inputDir, cs[1..], ns[1..]);
      var d := Dispatched(fw, rq, inputDir, cs, ns);
      var rest := Dispatched(fw, rq, inputDir, cs[1..], ns[1..]);
      forall i | 0 <= i < |cs| && cs[i] in rq.plans.availableConfigurations
        ensures Build(rq, cs[i]) in d && RunEvent(fw, rq, inputDir, cs[i], ns[i]) in d
      {
        if i > 0 {
          assert cs[1..][i - 1] == cs[i] && ns[1..][i - 1] == ns[i];
        }
      }
      forall e | e in d
        ensures exists i :: 0 <= i < |cs| && cs[i] in rq.plans.availableConfigurations
                            && (e == Build(rq, cs[i]) || e == RunEvent(fw, rq, inputDir, cs[i], ns[i]))
      {
        if e !in Block(fw, rq, inputDir, cs[0], ns[0]) {
          assert e in rest;
          var j :| 0 <= j < |cs[1..]| && cs[1..][j] in rq.plans.availableConfigurations
                   && (e == Build(rq, cs[1..][j]) || e == RunEvent(fw, rq, inputDir, cs[1..][j], ns[1..][j]));
          assert cs[1..][j] == cs[j + 1] && ns[1..][j] == ns[j + 1];
        }
      }
    }
  }

  /** The configuration loop, with its reassigned `input_dir` and its early exit, makes
      exactly the reference calls in order and stops at the first one that raises. A
      given `input_dir` is never replaced, and a defaulted one is the same for every
      run. */
  lemma {:induction false} DispatchAllIsIssue(fw: Framework, rq: Request, s: State, inputDir: Option<Path>,
                                               cs: seq<string>, ns: seq<int>)
    requires |cs| == |ns|
    ensures var p := DispatchAll(fw, rq, Progress(s, inputDir, None), cs, ns);
            var o := Issue(fw, s, Dispatched(fw, rq, inputDir, cs, ns));
            p.state == o.state && p.error == o.error
            && EffectiveInputDir(fw, rq, p.inputDir) == EffectiveInputDir(fw, rq, inputDir)
            && (inputDir.Some? ==> p.inputDir == inputDir)
    decreases |cs|
  {
    if cs != [] {
      var last := |cs| - 1;
      var init, initN := cs[..last], ns[..last];
      DispatchAllIsIssue(fw, rq, s, inputDir, init, initN);
      DispatchedSnoc(fw, rq, inputDir, cs, ns);
      var block := Block(fw, rq, inputDir, cs[last], ns[last]);
      IssueAppend(fw, s, Dispatched(fw, rq, inputDir, init, initN), block);
      var prev := DispatchAll(fw, rq, Progress(s, inputDir, None), init, initN);
      if prev.error.None? && cs[last] in rq.plans.availableConfigurations {
        IssueStep(fw, prev.state, block[0], block[1..]);
        var b := Call(fw, prev.state, block[0]);
        IssueStep(fw, b.state, block[1], []);
        assert block[1..] == [block[1]] + [];
      }
    }
  }

  // ---------------------------------------------------------------------------
  // preprocess_dataset
  // ---------------------------------------------------------------------------

  /** A process-count list that is neither a single count nor one per configuration
      raises before any call is made and before anything on disk changes. */
  lemma MismatchRaisedBeforeAnyCall(fw: Framework, s: State, a: DatasetArgs)
    requires |a.numProcesses| != 1 && |a.numProcesses| != |a.configurations|
    ensures DatasetOutcome(fw, s, a)
            == Outcome(s, Some(ConfigurationCountMismatch(|a.configurations|, |a.numProcesses|)))
  {
  }

  /** The plans the loop consults: the ones handed in, or what the plans file holds
      after the name lookup and the load. */
  function PlansInUse(fw: Framework, s: State, a: DatasetArgs): Plans {
    var file := PlansFile(fw, fw.datasetName(a.datasetId), a.plansIdentifier);
    if a.plansManager.Some? then a.plansManager.value
    else fw.readPlans(Issue(fw, s, [ConvertIdToDatasetName(a.datasetId), LoadPlans(file)]).state.fs, file)
  }

  function DatasetRequest(fw: Framework, s: State, a: DatasetArgs): Request {
    Request(a.datasetId, fw.datasetName(a.datasetId), a.plansIdentifier, a.inference,
            a.outputDirForInference, a.verbose, PlansInUse(fw, s, a))
  }

  /** Reference list of every call `preprocess_dataset` owes: the name lookup, the
      plans load when no plans were handed in, then the configuration calls. */
  function DatasetEvents(fw: Framework, s: State, a: DatasetArgs): seq<Event>
    requires Broadcast(a.numProcesses, a.configurations).Success?
  {
    var name := fw.datasetName(a.datasetId);
    [ConvertIdToDatasetName(a.datasetId)]
    + (if a.plansManager.Some? then [] else [LoadPlans(PlansFile(fw, name, a.plansIdentifier))])
    + Dispatched(fw, DatasetRequest(fw, s, a), a.inputDir, a.configurations,
                 Broadcast(a.numProcesses, a.configurations).value)
  }

  /** `preprocess_dataset` makes exactly the reference calls in order, stopping at the
      first that raises; only a training run that raised nothing then touches the
      label cache, and it makes no further calls. */
  lemma DatasetOutcomeIsIssue(fw: Framework, s: State, a: DatasetArgs)
    requires Broadcast(a.numProcesses, a.configurations).Success?
    ensures var o := Issue(fw, s, DatasetEvents(fw, s, a));
            DatasetOutcome(fw, s, a)
            == if o.error.Some? || a.inference then o
               else CacheOutcome(fw, o.state, fw.datasetName(a.datasetId))
  {
    var name := fw.datasetName(a.datasetId);
    var ns := Broadcast(a.numProcesses, a.configurations).value;
    var convert := ConvertIdToDatasetName(a.datasetId);
    var file := PlansFile(fw, name, a.plansIdentifier);
    var loading := if a.plansManager.Some? then [] else [LoadPlans(file)];
    var rq := DatasetRequest(fw, s, a);
    var dispatched := Dispatched(fw, rq, a.inputDir, a.configurations, ns);
    assert DatasetEvents(fw, s, a) == ([convert] + loading) + dispatched;
    IssueAppend(fw, s, [convert] + loading, dispatched);
    IssueStep(fw, s, convert, loading);
    var cv := Call(fw, s, convert);
    if cv.error.None? {
      if a.plansManager.None? {
        IssueStep(fw, s, convert, [LoadPlans(file)]);
        IssueStep(fw, cv.state, LoadPlans(file), []);
        assert [LoadPlans(file)] == [LoadPlans(file)] + [];
      }
      var loaded := Issue(fw, s, [convert] + loading);
      if loaded.error.None? {
        DispatchAllIsIssue(fw, rq, loaded.state, a.inputDir, a.configurations, ns);
      }
    }
  }

  /** In inference mode `preprocess_dataset` does nothing but its calls into the
      framework: it neither reads dataset.json nor creates or fills the label cache. */
  lemma InferenceNeverCopiesLabels(fw: Framework, s: State, a: DatasetArgs)
    requires a.inference
    requires Broadcast(a.numProcesses, a.configurations).Success?
    ensures DatasetOutcome(fw, s, a) == Issue(fw, s, DatasetEvents(fw, s, a))
  {
    DatasetOutcomeIsIssue(fw, s, a);
  }

  /** `preprocess_dataset` only ever appends to the trace. */
  lemma DatasetOutcomeExtendsTrace(fw: Framework, s: State, a: DatasetArgs)
    ensures s.trace <= DatasetOutcome(fw, s, a).state.trace
  {
    if Broadcast(a.numProcesses, a.configurations).Success? {
      DatasetOutcomeIsIssue(fw, s, a);
    }
  }

  /** The scenario of a plan that defines only "2d" while "3d_fullres" is requested with
      four processes: the configuration is skipped, no preprocessor is built or run, and
      in inference mode nothing is done beyond the name lookup. */
  lemma UnplannedConfigurationSkipped(fw: Framework, s: State, datasetId: int)
    ensures var a := DatasetArgs(datasetId, "nnUNetPlans", ["3d_fullres"], [4], true,
                                 Some(Plans(["2d"])), None, None, false);
            DatasetOutcome(fw, s, a) == Call(fw, s, ConvertIdToDatasetName(datasetId))
  {
    var a := DatasetArgs(datasetId, "nnUNetPlans", ["3d_fullres"], [4], true,
                         Some(Plans(["2d"])), None, None, false);
    InferenceNeverCopiesLabels(fw, s, a);
    assert Dispatched(fw, DatasetRequest(fw, s, a), None, ["3d_fullres"], [4]) == [];
    assert DatasetEvents(fw, s, a) == [ConvertIdToDatasetName(datasetId)] + [];
    IssueStep(fw, s, ConvertIdToDatasetName(datasetId), []);
  }

  /** The same scenario in training mode: no preprocessor is built or run, but once
      the name lookup has succeeded the label cache is still refreshed. */
  lemma UnplannedConfigurationStillRefreshesCache(fw: Framework, s: State, datasetId: int)
    requires ConvertIdToDatasetName(datasetId) !in fw.fails
    ensures var a := DatasetArgs(datasetId, "nnUNetPlans", ["3d_fullres"], [4], false,
                                 Some(Plans(["2d"])), None, None, false);
            DatasetOutcome(fw, s, a)
            == CacheOutcome(fw, Call(fw, s, ConvertIdToDatasetName(datasetId)).state, fw.datasetName(datasetId))
  {
    var a := DatasetArgs(datasetId, "nnUNetPlans", ["3d_fullres"], [4], false,
                         Some(Plans(["2d"])), None, None, false);
    DatasetOutcomeIsIssue(fw, s, a);
    assert Dispatched(fw, DatasetRequest(fw, s, a), None, ["3d_fullres"], [4]) == [];
    assert DatasetEvents(fw, s, a) == [ConvertIdToDatasetName(datasetId)] + [];
    IssueStep(fw, s, ConvertIdToDatasetName(datasetId), []);
  }

  // ---------------------------------------------------------------------------
  // The label cache
  // ---------------------------------------------------------------------------

  /** No label file lives at a cache path (labels come from the raw tree). */
  predicate SourcesOutsideCache(cases: seq<CaseLabel>, gtDir: Path, fileEnding: string) {
    forall i, j :: 0 <= i < |cases| && 0 <= j < |cases| ==>
      cases[i].labelFile != GroundTruthPath(gtDir, cases[j].caseId, fileEnding)
  }

  /** Every case's cached copy exists and is at least as recent as its label file. */
  predicate UpToDate(fs: FileSystem, cases: seq<CaseLabel>, gtDir: Path, fileEnding: string) {
    forall i :: 0 <= i < |cases| ==>
      IsFile(fs, cases[i].labelFile) && IsFile(fs, GroundTruthPath(gtDir, cases[i].caseId, fileEnding))
      && fs[GroundTruthPath(gtDir, cases[i].caseId, fileEnding)].mtime >= fs[cases[i].labelFile].mtime
  }

  /** One more case changes nothing but its own cache path. */
  lemma CopyCasesFrameStep(fs: FileSystem, cases: seq<CaseLabel>, gtDir: Path, fileEnding: string, p: Path)
    requires cases != []
    requires p != GroundTruthPath(gtDir, cases[|cases| - 1].caseId, fileEnding)
    ensures var r := CopyCases(fs, cases, gtDir, fileEnding);
            var prev := CopyCases(fs, cases[..|cases| - 1], gtDir, fileEnding);
            (p in r.fs <==> p in prev.fs) && (p in prev.fs ==> r.fs[p] == prev.fs[p])
  {
    var last := |cases| - 1;
    var prev := CopyCases(fs, cases[..last], gtDir, fileEnding);
    var r := CopyCases(fs, cases, gtDir, fileEnding);
    if prev.error.Some? {
      assert r == prev;
    } else {
      var src, dst := cases[last].labelFile, GroundTruthPath(gtDir, cases[last].caseId, fileEnding);
      var c := CopyIfNewer(prev.fs, src, dst);
      if c.Success? {
        assert r.fs == c.value.0;
        CopyIfNewerElsewhere(prev.fs, src, dst, p);
      } else {
        assert r.fs == prev.fs;
      }
    }
  }

  /** The copy loop writes only at `<cache dir>/<case><file ending>`: any other path
      keeps what it held. */
  lemma {:induction false} CopyCasesFrame(fs: FileSystem, cases: seq<CaseLabel>, gtDir: Path, fileEnding: string,
                                           p: Path)
    requires forall i :: 0 <= i < |cases| ==> p != GroundTruthPath(gtDir, cases[i].caseId, fileEnding)
    ensures var r := CopyCases(fs, cases, gtDir, fileEnding);
            (p in r.fs <==> p in fs) && (p in fs ==> r.fs[p] == fs[p])
    decreases |cases|
  {
    if cases != [] {
      var init := cases[..|cases| - 1];
      forall i | 0 <= i < |init| ensures p != GroundTruthPath(gtDir, init[i].caseId, fileEnding) {
        assert init[i] == cases[i];
      }
      CopyCasesFrame(fs, init, gtDir, fileEnding, p);
      CopyCasesFrameStep(fs, cases, gtDir, fileEnding, p);
    }
  }

  /** Everything the copy loop reports as copied is a case's cache path. */
  lemma {:induction false} CopiedAreCachePaths(fs: FileSystem, cases: seq<CaseLabel>, gtDir: Path, fileEnding: string)
    ensures forall q :: q in CopyCases(fs, cases, gtDir, fileEnding).copied ==>
              exists i :: 0 <= i < |cases| && q == GroundTruthPath(gtDir, cases[i].caseId, fileEnding)
    decreases |cases|
  {
    if cases != [] {
      var init := cases[..|cases| - 1];
      CopiedAreCachePaths(fs, init, gtDir, fileEnding);
      forall q | q in CopyCases(fs, cases, gtDir, fileEnding).copied
        ensures exists i :: 0 <= i < |cases| && q == GroundTruthPath(gtDir, cases[i].caseId, fileEnding)
      {
        if q in CopyCases(fs, init, gtDir, fileEnding).copied {
          var i :| 0 <= i < |init| && q == GroundTruthPath(gtDir, init[i].caseId, fileEnding);
          assert init[i] == cases[i];
        } else {
          assert q == GroundTruthPath(gtDir, cases[|cases| - 1].caseId, fileEnding);
        }
      }
    }
  }

  /** One more copy keeps every earlier cached label up to date and brings the new
      case's up to date: a copy only happens onto an older file, and an older cache
      file was already at least as recent as any earlier label copied onto it. */
  lemma CopyKeepsUpToDate(prev: FileSystem, cases: seq<CaseLabel>, gtDir: Path, fileEnding: string)
    requires |cases| > 0
    requires SourcesOutsideCache(cases, gtDir, fileEnding)
    requires UpToDate(prev, cases[..|cases| - 1], gtDir, fileEnding)
    requires CopyIfNewer(prev, cases[|cases| - 1].labelFile,
                         GroundTruthPath(gtDir, cases[|cases| - 1].caseId, fileEnding)).Success?
    ensures UpToDate(CopyIfNewer(prev, cases[|cases| - 1].labelFile,
                                 GroundTruthPath(gtDir, cases[|cases| - 1].caseId, fileEnding)).value.0,
                     cases, gtDir, fileEnding)
  {
    var n := |cases| - 1;
    var init := cases[..n];
    var src := cases[n].labelFile;
    var dst := GroundTruthPath(gtDir, cases[n].caseId, fileEnding);
    var next := CopyIfNewer(prev, src, dst).value.0;
    forall i | 0 <= i < |cases|
      ensures IsFile(next, cases[i].labelFile)
      ensures IsFile(next, GroundTruthPath(gtDir, cases[i].caseId, fileEnding))
      ensures next[GroundTruthPath(gtDir, cases[i].caseId, fileEnding)].mtime >= next[cases[i].labelFile].mtime
    {
      var si := cases[i].labelFile;
      var gi := GroundTruthPath(gtDir, cases[i].caseId, fileEnding);
      assert si != dst;
      CopyIfNewerElsewhere(prev, src, dst, si);
      if i < n {
        assert init[i] == cases[i];
        if gi != dst {
          CopyIfNewerElsewhere(prev, src, dst, gi);
        }
      }
    }
  }

  /** After a copy loop that raised nothing, every cached label is up to date. */
  lemma {:induction false} CopyCasesUpToDate(fs: FileSystem, cases: seq<CaseLabel>, gtDir: Path, fileEnding: string)
    requires SourcesOutsideCache(cases, gtDir, fileEnding)
    ensures var r := CopyCases(fs, cases, gtDir, fileEnding);
            r.error.None? ==> UpToDate(r.fs, cases, gtDir, fileEnding)
    decreases |cases|
  {
    if cases != [] {
      var init := cases[..|cases| - 1];
      assert SourcesOutsideCache(init, gtDir, fileEnding) by {
        assert forall i :: 0 <= i < |init| ==> init[i] == cases[i];
      }
      CopyCasesUpToDate(fs, init, gtDir, fileEnding);
      if CopyCases(fs, cases, gtDir, fileEnding).error.None? {
        CopyKeepsUpToDate(CopyCases(fs, init, gtDir, fileEnding).fs, cases, gtDir, fileEnding);
      }
    }
  }

  /** With every cached label up to date, the copy loop copies nothing and changes
      nothing. */
  lemma {:induction false} CopyCasesWhenUpToDate(fs: FileSystem, cases: seq<CaseLabel>, gtDir: Path, fileEnding: string)
    requires UpToDate(fs, cases, gtDir, fileEnding)
    ensures CopyCases(fs, cases, gtDir, fileEnding) == CopyRun(fs, [], None)
    decreases |cases|
  {
    if cases != [] {
      var init := cases[..|cases| - 1];
      assert UpToDate(fs, init, gtDir, fileEnding) by {
        forall i | 0 <= i < |init| ensures init[i] == cases[i] { }
      }
      CopyCasesWhenUpToDate(fs, init, gtDir, fileEnding);
    }
  }

  /** A second copy loop over unchanged label files copies nothing: the cache
      refresh is idempotent. */
  lemma SecondCopyCopiesNothing(fs: FileSystem, cases: seq<CaseLabel>, gtDir: Path, fileEnding: string)
    requires SourcesOutsideCache(cases, gtDir, fileEnding)
    requires CopyCases(fs, cases, gtDir, fileEnding).error.None?
    ensures var fs1 := CopyCases(fs, cases, gtDir, fileEnding).fs;
            CopyCases(fs1, cases, gtDir, fileEnding) == CopyRun(fs1, [], None)
  {
    CopyCasesUpToDate(fs, cases, gtDir, fileEnding);
    CopyCasesWhenUpToDate(CopyCases(fs, cases, gtDir, fileEnding).fs, cases, gtDir, fileEnding);
  }

  /** The training-mode post-step, once the cache directory exists and dataset.json
      has been read, leaves every case's label cached and at least as recent as its
      source unless a copy failed. */
  lemma CacheOutcomeUpToDate(fw: Framework, s: State, name: string)
    requires MakeDirs(s.fs, GroundTruthDir(fw, name)).Success?
    requires var fs1 := MakeDirs(s.fs, GroundTruthDir(fw, name)).value;
             var manifestPath := Join(RawDir(fw, name), "dataset.json");
             IsFile(fs1, manifestPath)
             && var m := fw.readManifest(fs1[manifestPath].content);
                SourcesOutsideCache(fw.trainingCases(fs1, RawDir(fw, name), m), GroundTruthDir(fw, name), m.fileEnding)
    ensures var fs1 := MakeDirs(s.fs, GroundTruthDir(fw, name)).value;
            var m := fw.readManifest(fs1[Join(RawDir(fw, name), "dataset.json")].content);
            var out := CacheOutcome(fw, s, name);
            out.state.trace == s.trace
            && (out.error.None? ==>
                  UpToDate(out.state.fs, fw.trainingCases(fs1, RawDir(fw, name), m), GroundTruthDir(fw, name), m.fileEnding))
  {
    var fs1 := MakeDirs(s.fs, GroundTruthDir(fw, name)).value;
    var m := fw.readManifest(fs1[Join(RawDir(fw, name), "dataset.json")].content);
    CopyCasesUpToDate(fs1, fw.trainingCases(fs1, RawDir(fw, name), m), GroundTruthDir(fw, name), m.fileEnding);
  }

  /** Distinct case identifiers get distinct cache files. */
  lemma GroundTruthPathsDistinct(gtDir: Path, k1: string, k2: string, fileEnding: string)
    requires k1 != [] && k1[0] != '/' && k2 != [] && k2[0] != '/'
    requires k1 != k2
    ensures GroundTruthPath(gtDir, k1, fileEnding) != GroundTruthPath(gtDir, k2, fileEnding)
  {
    var x1, x2 := k1 + fileEnding, k2 + fileEnding;
    if |x1| == |x2| {
      assert |k1| == |k2|;
      var i :| 0 <= i < |k1| && k1[i] != k2[i];
      assert x1[i] != x2[i];
    }
  }

  // ---------------------------------------------------------------------------
  // preprocess
  // ---------------------------------------------------------------------------

  /** `preprocess` starts with the name lookup, then the integrity check only when it
      is asked for and not in inference mode, then, outside inference mode only, the
      fingerprint (with `clean` set to the overwrite flag) followed by the planner. */
  lemma PreparationOrder(fw: Framework, s: State, a: PreprocessArgs)
    requires forall e :: e in PreparationEvents(fw, a) ==> e !in fw.fails
    ensures var name := fw.datasetName(a.datasetId);
            var expected :=
              [ConvertIdToDatasetName(a.datasetId)]
              + (if a.checkDatasetIntegrity && !a.inference
                 then [VerifyDatasetIntegrity(Join(fw.rawRoot, name), a.numProcesses)] else [])
              + (if a.inference then []
                 else [ExtractFingerprint(a.datasetId, a.numProcesses, a.overwriteExistingDatasetFingerprint, a.verbose),
                       PlanExperiment(a.datasetId)]);
            var t := PreprocessOutcome(fw, s, a).state.trace;
            |s.trace + expected| <= |t| && t[..|s.trace + expected|] == s.trace + expected
  {
    PreprocessExtendsPreparation(fw, s, a);
    var t := PreprocessOutcome(fw, s, a).state.trace;
    var pre := s.trace + PreparationEvents(fw, a);
    assert pre <= t;
    assert t[..|pre|] == pre;
  }

  /** When no preparation call raises, the trace of `preprocess` starts with all of
      them, whatever the assertions and the final preprocessing then do. */
  lemma PreprocessExtendsPreparation(fw: Framework, s: State, a: PreprocessArgs)
    requires forall e :: e in PreparationEvents(fw, a) ==> e !in fw.fails
    ensures var t := PreprocessOutcome(fw, s, a).state.trace;
            s.trace + PreparationEvents(fw, a) <= t
  {
    var prep := Issue(fw, s, PreparationEvents(fw, a));
    assert prep.state.trace == s.trace + PreparationEvents(fw, a);
    if MissingArtifact(prep.state.fs, PreprocessedDir(fw, fw.datasetName(a.datasetId))).None? {
      DatasetOutcomeExtendsTrace(fw, prep.state, FullResolutionArgs(a));
    }
  }

  /** When the preparation succeeded but one of the four artifacts is missing, in
      either mode, `preprocess` fails on that path and makes no further call. */
  lemma MissingArtifactStopsRun(fw: Framework, s: State, a: PreprocessArgs, missing: Path)
    requires forall e :: e in PreparationEvents(fw, a) ==> e !in fw.fails
    requires MissingArtifact(Issue(fw, s, PreparationEvents(fw, a)).state.fs,
                             PreprocessedDir(fw, fw.datasetName(a.datasetId))) == Some(missing)
    ensures PreprocessOutcome(fw, s, a).error == Some(ArtifactMissing(missing))
    ensures PreprocessOutcome(fw, s, a).state.trace == s.trace + PreparationEvents(fw, a)
  {
  }

  /** Which artifact is reported: the dataset directory, then dataset.json, then
      dataset_fingerprint.json, then nnUNetPlans.json, the first one absent. */
  lemma MissingArtifactIsFirstAbsent(fs: FileSystem, dir: Path)
    ensures MissingArtifact(fs, dir).None? <==>
              IsDir(fs, dir) && IsFile(fs, Join(dir, "dataset.json"))
              && IsFile(fs, Join(dir, "dataset_fingerprint.json")) && IsFile(fs, Join(dir, "nnUNetPlans.json"))
    ensures MissingArtifact(fs, dir).Some? ==>
              MissingArtifact(fs, dir).value in [dir, Join(dir, "dataset.json"),
                                                 Join(dir, "dataset_fingerprint.json"), Join(dir, "nnUNetPlans.json")]
    ensures MissingArtifact(fs, dir) == Some(dir) <==> !IsDir(fs, dir)
    ensures MissingArtifact(fs, dir) == Some(Join(dir, "dataset.json")) <==>
              IsDir(fs, dir) && !IsFile(fs, Join(dir, "dataset.json"))
    ensures MissingArtifact(fs, dir) == Some(Join(dir, "dataset_fingerprint.json")) <==>
              IsDir(fs, dir) && IsFile(fs, Join(dir, "dataset.json"))
              && !IsFile(fs, Join(dir, "dataset_fingerprint.json"))
    ensures MissingArtifact(fs, dir) == Some(Join(dir, "nnUNetPlans.json")) <==>
              IsDir(fs, dir) && IsFile(fs, Join(dir, "dataset.json"))
              && IsFile(fs, Join(dir, "dataset_fingerprint.json")) && !IsFile(fs, Join(dir, "nnUNetPlans.json"))
  {
    var d, f, p := Join(dir, "dataset.json"), Join(dir, "dataset_fingerprint.json"), Join(dir, "nnUNetPlans.json");
    assert |dir| < |d| < |p| < |f|;
  }

  /** When the preparation succeeded and the artifacts are present, `preprocess` ends
      with one `preprocess_dataset` call for "3d_fullres" alone, whose single process
      count is the given one: at most one preprocessor is built and run. */
  lemma FullResolutionOnly(fw: Framework, s: State, a: PreprocessArgs)
    requires forall e :: e in PreparationEvents(fw, a) ==> e !in fw.fails
    requires MissingArtifact(Issue(fw, s, PreparationEvents(fw, a)).state.fs,
                             PreprocessedDir(fw, fw.datasetName(a.datasetId))).None?
    ensures var prep := Issue(fw, s, PreparationEvents(fw, a)).state;
            var da := FullResolutionArgs(a);
            PreprocessOutcome(fw, s, a) == DatasetOutcome(fw, prep, da)
            && Broadcast(da.numProcesses, da.configurations) == Success([a.numProcesses])
            && var rq := DatasetRequest(fw, prep, da);
               Dispatched(fw, rq, None, ["3d_fullres"], [a.numProcesses])
               == if "3d_fullres" in rq.plans.availableConfigurations
                  then [Build(rq, "3d_fullres"), RunEvent(fw, rq, None, "3d_fullres", a.numProcesses)]
                  else []
  {
    var da := FullResolutionArgs(a);
    assert Broadcast(da.numProcesses, da.configurations).value == [a.numProcesses];
  }
}
