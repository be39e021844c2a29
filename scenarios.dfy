/** Worked examples of the run policy on concrete inputs. */
module SlurmScenarios {
  import opened PyStrings
  import opened SlurmTagging
  import opened SlurmRunPolicy

  const EpochOne: string := "epoch 1 done"
  const EpochTwo: string := "epoch 2 done"

  /** Two lines joined by a line break, the second not ending in whitespace, become the
      same two lines each behind the tag. */
  lemma TwoLinesTagged(first: string, second: string)
    requires '\n' !in first && '\n' !in second
    requires second != [] && !IsSpace(second[|second| - 1])
    ensures TagBlob(first + "\n" + second) == Some(Tag + first + "\n" + Tag + second)
  {
    var blob := first + "\n" + second;
    assert blob[|blob| - 1] == second[|second| - 1];
    assert RStrip(blob) == blob;
    SplitNoSep(first, '\n');
    SplitNoSep(second, '\n');
    SplitAppend(first, second, '\n');
    assert Split(blob, '\n') == [first, second];
    var lines := [Tag + first, Tag + second];
    assert PrefixAll([first, second]) == lines;
    assert lines[1..] == [Tag + second];
    assert Join(lines, '\n') == Tag + first + "\n" + Tag + second;
  }

  /** Two lines of job output become two tagged lines:
      `"[SLURM] epoch 1 done\n[SLURM] epoch 2 done"`. */
  lemma TwoEpochLinesTagged()
    ensures TagBlob(EpochOne + "\n" + EpochTwo) == Some(Tag + EpochOne + "\n" + Tag + EpochTwo)
    ensures Tag + EpochOne + "\n" + Tag + EpochTwo == "[SLURM] epoch 1 done\n[SLURM] epoch 2 done"
  {
    assert '\n' !in EpochOne;
    assert '\n' !in EpochTwo;
    assert !IsSpace(EpochTwo[|EpochTwo| - 1]);
    TwoLinesTagged(EpochOne, EpochTwo);
  }

  /** A blob of spaces and a line break prints nothing. */
  lemma WhitespaceBlobSilent()
    ensures TagBlob("   \n  ") == None
  {
    TagBlobNoneIff("   \n  ");
  }

  /** The run the job output above belongs to, with a scheduler that returns it and
      empty stderr, and score files at the two canonical paths of `/tmp/run1`: stdout
      gets both lines tagged, stderr gets nothing, and the result holds the two loaded
      dictionaries and the canonical model path for `/tmp/run1`. */
  lemma TwoEpochRun(program: Application, paths: AppPaths, execute: JobRequest -> Captured,
                    load: string -> Result<MetricDict, string>)
    requires forall req :: execute(req) == Captured(EpochOne + "\n" + EpochTwo, "")
    requires load(paths.evalScoreDictPath(StrValue("/tmp/run1"))) == Ok(map["auc" := Scalar(0.81)])
    requires load(paths.testScoreDictPath(StrValue("/tmp/run1"))) == Ok(map["auc" := Scalar(0.77)])
    ensures
      var dir := StrValue("/tmp/run1");
      var o := RunSpec(program, paths, map["output_directory" := dir], execute, load);
      o.result == Ok(RunResult(map["auc" := Scalar(0.81)], map["auc" := Scalar(0.77)],
                               paths.modelFilePath(dir, program.saveFileExtension)))
      && o.events[1..] == [Printed(Stdout, "[SLURM] epoch 1 done\n[SLURM] epoch 2 done\n"),
                           Loaded(paths.evalScoreDictPath(dir)), Loaded(paths.testScoreDictPath(dir)),
                           DataInitialised]
  {
    var dir := StrValue("/tmp/run1");
    var options := map["output_directory" := dir];
    RunSegments(program, paths, options, execute, load);
    var request := Request(program, paths, dir, MarkSingleRun(options));
    assert execute(request) == Captured(EpochOne + "\n" + EpochTwo, "");
    TwoEpochLinesTagged();
    assert "[SLURM] epoch 1 done\n[SLURM] epoch 2 done" + "\n" == "[SLURM] epoch 1 done\n[SLURM] epoch 2 done\n";
    assert Routed(Stdout, EpochOne + "\n" + EpochTwo)
           == [Printed(Stdout, "[SLURM] epoch 1 done\n[SLURM] epoch 2 done\n")];
    assert Routed(Stderr, "") == [];
  }
}
