# Remote (Slurm) single-run policy of slingpy, modelled in Dafny

slingpy runs machine-learning "applications" under interchangeable run policies. The
Slurm single-run policy submits one application to the cluster scheduler, blocks until
the job ends, mirrors the job's captured standard output and standard error on the local
streams with every line tagged `[SLURM] `, then reads the validation and test score
dictionaries the job wrote under the run's output directory and returns them together
with the canonical path of the saved model. It declares itself an asynchronous policy.

The project has four modules:

- `PyStrings` (`strings.dfy`): the Python string operations the policy uses.
  `RStrip` is `str.rstrip()` with no argument, over CPython's full `str.isspace` set.
  `Split` is `str.split(sep)`. `Join` is `sep.join(lines)`. The lemmas say how they
  relate: `JoinSplit`, `SplitJoin`, `SplitCount` and the characterisation of `RStrip`.
- `SlurmTagging` (`tagging.dfy`): the tagging of a captured blob (source lines 59-67) as
  pure functions, `Tagged` and `TagBlob`. Its inverse `Untagged` comes with the
  round-trip and line-by-line lemmas.
- `SlurmRunPolicy` (`run_policy.dfy`): the policy itself. Class `SlurmSingleRunPolicy`
  holds the application (`basePolicy`) and the path resolver (`appPaths`). Method `Run`
  models `_run`. It records every observable effect, in order, in a `Trace` object:
  the submission, each print, each score-file load and the data initialisation. `Run`
  is proved equal to the specification function `RunSpec`. The lemmas about `RunSpec`
  state the routing, ordering, argument and result properties.
- `SlurmScenarios` (`scenarios.dfy`): the two-epoch example run and the whitespace-only
  blob, worked out on concrete values.

The collaborators the policy calls are inputs, so every property holds whatever they do:

- the scheduler's blocking `execute` is a function from the job request to the two
  captured blobs;
- the metric loader is a function from a path to a dictionary or an error message;
- the three `AppPaths` resolvers are function-valued fields of the `AppPaths` value.

Details of the source the model keeps:

- `rstrip()` removes every character Python counts as whitespace, not only ASCII
  whitespace.
- `print` adds one `'\n'` after the tagged text, so each `Printed` event's text ends in
  a newline.
- `_run` receives its keyword arguments as `**kwargs`, which Python builds as a fresh
  dictionary. Setting `single_run` (line 49) therefore changes the dictionary handed to
  the scheduler, not the caller's mapping. The model treats the options as a map value,
  copies it into a local variable and updates that variable.
- A missing `output_directory` key raises `KeyError` at line 47, before anything is
  submitted. The model returns `Err(MissingOutputDirectory)` with no effects.
- A failure of the metric loader propagates. The first failing load ends the run with
  `Err(LoadFailed(path, message))`, after the output has already been printed.

## Model

| member | source | states |
|---|---|---|
| `PyStrings.RStrip` | slingpy/apps/run_policies/slurm_single_run_policy.py:59-60 | the trimmed blob is a prefix of the blob, does not end in whitespace, and only whitespace was cut off |
| `PyStrings.RStripUnique` | slingpy/apps/run_policies/slurm_single_run_policy.py:59-60 | any prefix meeting those three conditions is the trimmed blob, so the contract of `RStrip` determines `rstrip()` completely |
| `PyStrings.RStripIdempotent` | slingpy/apps/run_policies/slurm_single_run_policy.py:59-60 | trimming a trimmed blob again changes nothing |
| `PyStrings.RStripEmptyIff` | slingpy/apps/run_policies/slurm_single_run_policy.py:59-62 | a blob trims to empty exactly when every character in it is whitespace |
| `PyStrings.Split` | slingpy/apps/run_policies/slurm_single_run_policy.py:63 | `split('\n')` gives at least one piece, and no piece contains the separator |
| `PyStrings.JoinSplit` | slingpy/apps/run_policies/slurm_single_run_policy.py:63 | joining the pieces of a split with the same separator gives back the string |
| `PyStrings.SplitJoin` | slingpy/apps/run_policies/slurm_single_run_policy.py:63 | splitting a join of separator-free lines gives back the lines |
| `PyStrings.SplitCount` | slingpy/apps/run_policies/slurm_single_run_policy.py:63 | a split has one more piece than the string has separators |
| `SlurmTagging.Unprefixed` | slingpy/apps/run_policies/slurm_single_run_policy.py:63 | dropping the tag from a tagged line leaves what followed the tag |
| `SlurmTagging.TaggedLines` | slingpy/apps/run_policies/slurm_single_run_policy.py:63 | the tagged text has exactly as many `'\n'`-separated lines as its input, and line k is `[SLURM] ` followed by input line k |
| `SlurmTagging.TaggedNewlineCount` | slingpy/apps/run_policies/slurm_single_run_policy.py:63 | tagging adds no line break: the tagged text holds as many `'\n'` as its input |
| `SlurmTagging.UntagTagged` | slingpy/apps/run_policies/slurm_single_run_policy.py:63 | removing the tag from every line and re-joining with `'\n'` recovers the input |
| `SlurmTagging.TagBlobLines` | slingpy/apps/run_policies/slurm_single_run_policy.py:59-66 | the output for a non-empty blob is itself non-empty, has as many lines as the trimmed blob, and every one of its lines starts with the tag |
| `SlurmTagging.TagBlobNoneIff` | slingpy/apps/run_policies/slurm_single_run_policy.py:59-65 | a whitespace-only blob, the empty blob included, produces no output, and every other blob does |
| `SlurmTagging.TagBlobRoundTrip` | slingpy/apps/run_policies/slurm_single_run_policy.py:59-66 | stripping the tags from the output gives back exactly the blob's `rstrip()` |
| `SlurmRunPolicy.MarkSingleRun` | slingpy/apps/run_policies/slurm_single_run_policy.py:49 | the arguments have the option keys plus `single_run`, `single_run` maps to true, and every other entry is unchanged |
| `SlurmRunPolicy.HydratePrintsNothing` | slingpy/apps/run_policies/slurm_single_run_policy.py:68-75 | result hydration neither prints nor submits |
| `SlurmRunPolicy.RunWithoutOutputDirectory` | slingpy/apps/run_policies/slurm_single_run_policy.py:47 | a missing `output_directory` fails the run with that fault and no effect at all; no other run fails that way |
| `SlurmRunPolicy.RunSubmitsMarkedOptions` | slingpy/apps/run_policies/slurm_single_run_policy.py:41-58 | exactly one job is submitted, first. It carries the five resource settings, the project root and the `output_directory` read from the options. Its program arguments are the options with `single_run` set to true and every other entry unchanged. |
| `SlurmRunPolicy.RunRoutesOutput` | slingpy/apps/run_policies/slurm_single_run_policy.py:59-67 | every stdout print is stdout's tagged blob and every stderr print is stderr's. A stream is printed to exactly when its blob does not trim to empty. |
| `SlurmRunPolicy.RunPrintsBeforeLoading` | slingpy/apps/run_policies/slurm_single_run_policy.py:62-71 | stdout is printed before stderr, and both before any score file is loaded or the data is initialised |
| `SlurmRunPolicy.RunBuildsResult` | slingpy/apps/run_policies/slurm_single_run_policy.py:68-75 | the run succeeds exactly when both score files load. The scores are the two loaded dictionaries and the model path is `get_model_file_path(output_directory, ext)`. A loader failure is passed on, the evaluation file being loaded first and the test file only after it succeeds. The loads and the data initialisation come last and occur nowhere earlier in the trace, so a failed load is followed by no further load and no data initialisation. |
| `SlurmRunPolicy.ModelPathDependsOnlyOnDirectory` | slingpy/apps/run_policies/slurm_single_run_policy.py:72-74 | two successful runs with the same `output_directory` report the same model path, whatever their other options, job output or score files |
| `SlurmRunPolicy.Trace.Print` | slingpy/apps/run_policies/slurm_single_run_policy.py:64 | a print appends the text plus one newline to the given stream's record |
| `SlurmRunPolicy.SlurmSingleRunPolicy.constructor` | slingpy/apps/run_policies/slurm_single_run_policy.py:34-38 | the policy holds the given application and path resolver |
| `SlurmRunPolicy.SlurmSingleRunPolicy.Run` | slingpy/apps/run_policies/slurm_single_run_policy.py:40-75 | the effects appended to the trace and the returned result are those of `RunSpec`, the specification the lemmas above are about |
| `SlurmRunPolicy.SlurmSingleRunPolicy.PrintTagged` | slingpy/apps/run_policies/slurm_single_run_policy.py:59-67 | trimming and printing one stream appends exactly `Routed` for that stream |
| `SlurmRunPolicy.SlurmSingleRunPolicy.LoadResult` | slingpy/apps/run_policies/slurm_single_run_policy.py:68-75 | the loads and data initialisation appended, and the result returned, are those of `Hydrate` |
| `SlurmRunPolicy.SlurmSingleRunPolicy.IsAsyncRunPolicy` | slingpy/apps/run_policies/slurm_single_run_policy.py:77-78 | every instance reports itself asynchronous |
| `SlurmScenarios.TwoLinesTagged` | slingpy/apps/run_policies/slurm_single_run_policy.py:59-63 | two newline-free lines, the second not ending in whitespace, come out as the same two lines each behind the tag |
| `SlurmScenarios.TwoEpochLinesTagged` | slingpy/apps/run_policies/slurm_single_run_policy.py:59-63 | `"epoch 1 done\nepoch 2 done"` comes out as `"[SLURM] epoch 1 done\n[SLURM] epoch 2 done"` |
| `SlurmScenarios.WhitespaceBlobSilent` | slingpy/apps/run_policies/slurm_single_run_policy.py:59-65 | the blob `"   \n  "` produces no output |
| `SlurmScenarios.TwoEpochRun` | slingpy/apps/run_policies/slurm_single_run_policy.py:40-75 | with a scheduler returning the two epoch lines and empty stderr, and score files at the two canonical paths of `/tmp/run1`, the run prints both lines tagged to stdout and nothing to stderr. It returns the two dictionaries and the canonical model path. |

## Left out

- The scheduler's job submission, queueing and resource allocation
  (`SlurmScheduler.execute`) are not modelled. The scheduler is a function parameter
  from the job request to the two captured blobs. A fault it raises is not modelled.
- `MetricDictTools.load_metric_dict` and the `AppPaths` path construction are not part
  of this model; they are function values. Hence the model cannot state that two runs'
  model paths differ only in their directory component. The model proves only that the
  path depends on the output directory and the extension alone.
- `init_data()` is recorded as one `DataInitialised` event, without its own effects.
  `get_model().get_save_file_extension()` is reduced to the application's
  `saveFileExtension` field. Faults these hooks might raise are not modelled.
- The real `sys.stdout`/`sys.stderr` and `flush=True` are not modelled. Both streams are
  one append-only `Trace`, whose order is the order of the writes.
- The abstract base class `AbstractRunPolicy` (imported at line 25) and its public
  `run` wrapper are not modelled. `Run` models `_run`, and `RunResult` is a plain
  datatype with the three fields `_run` fills.
- The values a keyword-argument map can hold are limited to booleans, integers and
  strings. The application class is identified by its name.
- The resource settings are unbounded integers passed through unchanged; their Python
  types are not checked.
- Concurrency across several runs is not modelled; it lives in the caller.
- `setup.py` (packaging metadata and file reads) is not modelled.
