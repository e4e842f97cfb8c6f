# conflunet preprocessing driver and validation split, in Dafny

This project models the two pieces of local logic in the conflunet repository. Everything
else in it is glue around the nnUNet segmentation framework.

- **The preprocessing driver** (`conflunet/preprocessing/preprocess.py`):
  - `preprocess_dataset` normalises the per-configuration process counts. It walks the
    configurations in order and skips those the plans do not define. For each of the
    others it builds one preprocessor and runs it, in training or inference mode. In
    inference mode it defaults the input directory on first use. In training mode it then
    refreshes the ground-truth label cache, copying a label only when it is newer than its
    cached copy.
  - `preprocess` fixes the order of the steps around it: name lookup, optional integrity
    check, fingerprint, planning, four artifact assertions, and one full-resolution
    `preprocess_dataset` call.
- **The validation split utility** (`inference_split.py`, `create_imageTs`): every volume
  whose path contains one of the split's `val` case names is copied into the test-image
  directory under its file name.

Both are imperative in the source, and the model keeps that form:
- methods with the source's reassigned locals;
- `for` loops with `continue`;
- early returns where the source raises.

Each method is proved equal to a specification function. Lemmas then relate those
functions to independent reference descriptions.

The source has no classes: the driver acts on the outside world through module-level
functions. That world is threaded through the methods by value:
- `State` holds the trace of calls made into the framework and the file system, a map from
  path to file (content, modification time) or directory.
- `Outcome` is a state together with the exception that ended the run, if any.

Every call into nnUNet is an `Event` appended to the trace. A `Framework` value supplies, from
outside, what each call does to the file system, which calls raise, and what the plans file
and `dataset.json` contain. `Issue` is the reference meaning of a fixed list of calls: they are
made in order, and the first one that raises ends the run.

The validation split's output directory is a map from destination path to the volume it holds
a copy of.

Modules:
- `Wrappers`: `Option`, `Result`.
- `Paths`: `os.path.join` and the last path segment.
- `Files`: the file system, `maybe_mkdir_p`, and distutils `copy_file(update=True)`.
- `Preprocess`: the driver.
- `PreprocessProperties`: its properties.
- `InferenceSplit`: the split utility and its properties.

## Model

| member | source | states |
|---|---|---|
| Paths.Join | inference_split.py:20 | `os.path.join(a, b)`: an absolute `b` replaces `a`. A relative `b` is appended to `a`, with a '/' between them exactly when `a` is non-empty and does not already end in '/' |
| Paths.SegmentStartAfterLastSlash | inference_split.py:19 | the index where the last segment starts follows a '/' (or is 0), and no '/' comes after it |
| Paths.BasenameIsLastSegment | inference_split.py:19 | `path.split('/')[-1]` holds no '/', ends the path, and is the whole path or is preceded by a '/' |
| Paths.BasenameUnique | inference_split.py:19 | those three properties determine the last segment uniquely |
| Paths.JoinBasename | inference_split.py:19-20 | joining a '/'-free name onto a directory and taking the last segment gives the name back |
| Files.MakeDirs | conflunet/preprocessing/preprocess.py:80 | creating the cache directory succeeds iff the path is not a regular file; then it is a directory and nothing else changes |
| Files.CopyIfNewer | conflunet/preprocessing/preprocess.py:85-87 | `copy_file(update=True)` fails iff the source is not a regular file or the target is a directory. It copies iff the target is missing or older than the source. The copy carries the source's content and time, and only the target changes |
| Files.CopyIfNewerTwice | conflunet/preprocessing/preprocess.py:83-87 | copying again straight after a copy copies nothing |
| Files.CopyIfNewerElsewhere | conflunet/preprocessing/preprocess.py:85-87 | a copy leaves every path other than its target as it was |
| Preprocess.Issue | conflunet/preprocessing/preprocess.py:100-115 | a fixed list of framework calls: the trace grows by a prefix of the list. The run raises iff some call in the list raises, and then it stops at exactly the first such call |
| Preprocess.IssueStep | conflunet/preprocessing/preprocess.py:100-115 | issuing `[e] + rest` is calling `e` and, unless it raised, issuing `rest` |
| Preprocess.Repeat | conflunet/preprocessing/preprocess.py:40-41 | `num_processes * len(configurations)` has that many entries, all equal to the single count |
| Preprocess.Broadcast | conflunet/preprocessing/preprocess.py:38-47 | the counts are accepted iff there is one count or one per configuration. One count is replicated to every configuration, and a matching list is kept as is. Otherwise a RuntimeError carries both lengths |
| Preprocess.DispatchAllStopped | conflunet/preprocessing/preprocess.py:54-74 | once a call in the configuration loop has raised, the remaining configurations change nothing |
| Preprocess.CopyCasesStopped | conflunet/preprocessing/preprocess.py:84-87 | once a label copy has failed, the remaining cases change nothing |
| Preprocess.CopyGroundTruth | conflunet/preprocessing/preprocess.py:84-87 | the copy loop over the training cases equals the case-by-case copy specification, including the first failing copy ending it |
| Preprocess.CacheGroundTruth | conflunet/preprocessing/preprocess.py:76-87 | the training-mode post-step: create the cache directory, read `dataset.json` (a missing file raises), then copy the labels. It adds no event to the trace |
| Preprocess.DispatchConfigurations | conflunet/preprocessing/preprocess.py:54-74 | the `for n, c in zip(...)` loop with `continue` and the reassigned `input_dir` equals the per-configuration specification |
| Preprocess.PreprocessDataset | conflunet/preprocessing/preprocess.py:29-87 | `preprocess_dataset` with its reassigned `num_processes` equals its step-by-step specification |
| Preprocess.Preprocess | conflunet/preprocessing/preprocess.py:90-128 | `preprocess` equals issuing the preparation calls and then, unless one raised, the assertions and the final preprocessing |
| Preprocess.FinishPreprocess | conflunet/preprocessing/preprocess.py:117-128 | the four assertions in order, then `preprocess_dataset` for "3d_fullres" with the single process count |
| PreprocessProperties.IssueAppend | conflunet/preprocessing/preprocess.py:100-115 | issuing `a + b` is issuing `a` and then, unless it raised, `b` |
| PreprocessProperties.DispatchedSnoc | conflunet/preprocessing/preprocess.py:54-74 | the reference call list of the loop grows by one configuration's calls at the end |
| PreprocessProperties.DispatchedCalls | conflunet/preprocessing/preprocess.py:54-74 | the reference list holds a preprocessor and one run with the count at that position for every planned configuration, and nothing else: no call for a configuration missing from the plans |
| PreprocessProperties.DispatchAllIsIssue | conflunet/preprocessing/preprocess.py:54-74 | the loop makes exactly the reference calls in order and stops at the first that raises. A given `input_dir` is never replaced, and the defaulted one (`<raw>/<name>/imagesTs`) is the same for every run |
| PreprocessProperties.MismatchRaisedBeforeAnyCall | conflunet/preprocessing/preprocess.py:42-47 | a process-count list of the wrong length raises before any framework call and before any change on disk |
| PreprocessProperties.DatasetOutcomeIsIssue | conflunet/preprocessing/preprocess.py:49-87 | `preprocess_dataset` makes the name lookup, then the plans load when no plans were given, then the loop's calls, stopping at the first that raises. Only a training run that raised nothing then refreshes the label cache |
| PreprocessProperties.InferenceNeverCopiesLabels | conflunet/preprocessing/preprocess.py:76-87 | in inference mode nothing is read from or written to the label cache: the outcome is the calls alone |
| PreprocessProperties.DatasetOutcomeExtendsTrace | conflunet/preprocessing/preprocess.py:29-87 | `preprocess_dataset` only ever appends to the trace of calls |
| PreprocessProperties.UnplannedConfigurationSkipped | conflunet/preprocessing/preprocess.py:56-60 | in inference mode, with plans defining only "2d", a request for "3d_fullres" builds and runs nothing: the name lookup is the only call |
| PreprocessProperties.UnplannedConfigurationStillRefreshesCache | conflunet/preprocessing/preprocess.py:54-87 | in training mode the same request builds and runs nothing, but once the name lookup succeeds the label cache is still refreshed |
| PreprocessProperties.CopyCasesFrame | conflunet/preprocessing/preprocess.py:84-87 | the copy loop writes only at `<cache dir>/<case><file ending>`; every other path keeps what it held |
| PreprocessProperties.CopiedAreCachePaths | conflunet/preprocessing/preprocess.py:85-87 | everything copied is some case's cache path |
| PreprocessProperties.CopyKeepsUpToDate | conflunet/preprocessing/preprocess.py:83-87 | one more update copy keeps every earlier cached label at least as recent as its source and brings the new case's label up to date |
| PreprocessProperties.CopyCasesUpToDate | conflunet/preprocessing/preprocess.py:83-87 | after a copy loop that raised nothing, every cached label exists and is at least as recent as its source |
| PreprocessProperties.CopyCasesWhenUpToDate | conflunet/preprocessing/preprocess.py:83-87 | with every cached label up to date, the copy loop copies nothing and changes nothing |
| PreprocessProperties.SecondCopyCopiesNothing | conflunet/preprocessing/preprocess.py:83-87 | a second cache refresh over unchanged labels copies nothing: the refresh is idempotent |
| PreprocessProperties.CacheOutcomeUpToDate | conflunet/preprocessing/preprocess.py:76-87 | once the cache directory exists and dataset.json is read, the post-step adds no call, and unless a copy failed every case's label is cached and at least as recent as its source |
| PreprocessProperties.GroundTruthPathsDistinct | conflunet/preprocessing/preprocess.py:86 | distinct case identifiers get distinct cache files |
| PreprocessProperties.PreparationOrder | conflunet/preprocessing/preprocess.py:100-115 | the trace starts with the name lookup, then the integrity check iff it is asked for and not in inference mode. Outside inference mode only, it continues with the fingerprint (`clean` = the overwrite flag) and then the planner |
| PreprocessProperties.PreprocessExtendsPreparation | conflunet/preprocessing/preprocess.py:100-128 | when no preparation call raises, the trace of `preprocess` starts with all of them, whatever follows |
| PreprocessProperties.MissingArtifactStopsRun | conflunet/preprocessing/preprocess.py:117-124 | in either mode, a missing artifact fails the run on that path after the preparation calls and before any further call |
| PreprocessProperties.MissingArtifactIsFirstAbsent | conflunet/preprocessing/preprocess.py:118-124 | the assertions pass iff the dataset directory and the three JSON files all exist. Otherwise the failure names the first of the four, in assertion order, that is absent: each path is reported exactly when it is missing and all before it are present |
| PreprocessProperties.FullResolutionOnly | conflunet/preprocessing/preprocess.py:127-128 | after the assertions, `preprocess` is one `preprocess_dataset` call with counts `[n]` for "3d_fullres" only. That is one preprocessor and one run if the plans define it, else none |
| InferenceSplit.ContainsIffOccurs | inference_split.py:18 | `case in path` holds iff the case name occurs in the path at some index |
| InferenceSplit.SelectedIffSomeCase | inference_split.py:17-18 | the inner loop finds a match iff some `val` case name occurs in the path |
| InferenceSplit.CreateImageTs | inference_split.py:12-21 | a split entry without "val" raises KeyError before any copy. Otherwise the nested loops leave exactly the specification's copies, so a path matching several cases gives the same result as a single copy |
| InferenceSplit.CopySelectedOverlay | inference_split.py:16-21 | the result is the old directory overlaid with what the run writes, and what it writes does not depend on the old directory |
| InferenceSplit.CopyStep | inference_split.py:16-21 | one more volume changes at most its own destination, which then holds it |
| InferenceSplit.WrittenWitness | inference_split.py:16-21 | every written path is the destination of some selected volume |
| InferenceSplit.WrittenByIsWritten | inference_split.py:16-21 | the destination of every selected volume is written |
| InferenceSplit.WrittenPaths | inference_split.py:16-21 | a path is written iff it is the destination of a volume whose path contains a `val` case |
| InferenceSplit.WrittenByPrefix | inference_split.py:16 | a volume of a prefix of the list writes where the same volume of the whole list does |
| InferenceSplit.LastWriterWins | inference_split.py:16-21 | a destination holds the last selected volume in list order that is copied there |
| InferenceSplit.UntouchedElsewhere | inference_split.py:20-21 | a path that is no selected volume's destination keeps exactly what it held, absence included |
| InferenceSplit.NothingSelectedNothingWritten | inference_split.py:16-18 | with no `val` cases, or none occurring in any path, the output directory is unchanged |
| InferenceSplit.RunTwiceSameAsOnce | inference_split.py:12-21 | running the utility twice on the same inputs leaves what running it once does |
| InferenceSplit.DestinationKeepsName | inference_split.py:19-20 | a copy keeps the volume's file name and lands under the output directory |
| InferenceSplit.SubstringMatchSelectsOtherCases | inference_split.py:18 | the case "c1" selects the volume of case "c10", and a case name in a directory component selects every volume below it |
| InferenceSplit.MissingCharacterNoMatch | inference_split.py:18 | a case name holding a character that the path lacks never matches |
| InferenceSplit.ContainsInfix | inference_split.py:18 | a case name matches any path built around it |
| InferenceSplit.DestinationInDirectory | inference_split.py:19-20 | the volume `dir/name` is copied to `output_dir/name` |
| InferenceSplit.OnlySelectedCopied | inference_split.py:16-21 | of two volumes, only the selected one is copied |
| InferenceSplit.ValidationCaseCopiedAlone | inference_split.py:12-21 | volumes `tr/c1.nii` and `tr/c2.nii` with `val` = ["c2"] give exactly `ts/c2.nii` holding `tr/c2.nii` |

## Left out

- The nnUNet internals are not modelled: fingerprint statistics, experiment planning, resampling and normalisation, `verify_dataset_integrity`, the parsing in `PlansManagerInstanceSeg`, and `convert_id_to_dataset_name`. Each is an event whose effect on disk, failure and returned data are parameters of the model.
- `configuration_manager.preprocessor_class` lookup is folded into the preprocessor-building event.
- Multiprocessing: the process counts are only forwarded, as integers.
- Real file I/O is modelled only by its effect on the file-system map: `maybe_mkdir_p` and `copy_file` as `Files.MakeDirs` and `Files.CopyIfNewer`, `load_json` as reading a file's content. Bytes on disk, permissions and OS errors are not modelled. `shutil.copy` in `create_imageTs` is an update of the output map from destination to source volume. `glob` and `os.mkdir` belong to its caller; the volume list and the split entry are inputs.
- `get_filenames_of_train_images_and_targets` is a total parameter mapping the raw folder and its manifest to the (case, label file) list. Its own exceptions (for example an unreadable `imagesTr` folder) are not modelled, although in the source they would end the run after the cache directory is created and before any copy. JSON parse errors and a `dataset.json` without `file_ending` are not modelled either.
- The `if __name__ == '__main__'` blocks of both files are not modelled: `argparse`, `print`, the hard-coded folder names including the `'Dataset033_MsSpine '` literal, the `os.mkdir` of `imagesTs`, and the lookup `d[args.split]`.
- An unset `nnUNet_raw` or `nnUNet_preprocessed` is not modelled; both roots are parameters.
- `preprocess_dataset` accepts an integer `num_processes` per its type hint, but `list(int)` raises TypeError. The model takes a sequence of counts.
- Files.CopyIfNewer: a target that is an existing directory is an error in the model, whereas distutils would copy into that directory. The cache paths are built from case names, so this only arises from a stray directory.
- Files.MakeDirs: missing parent directories are not created as separate entries; only the leaf is recorded.
- InferenceSplit.CreateImageTs: `shutil.copy` into an existing directory, and copy failures such as a missing volume, are not modelled. The directory holds the name of the copied volume, not its bytes.
- The substring match of `create_imageTs` is kept as written: `case in path` over the whole path. `SubstringMatchSelectsOtherCases` shows what it selects beyond the case's own volume.
