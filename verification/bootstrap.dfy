/** `initConfig`, the hook that runs once after flag parsing and before any
    subcommand body: the quiet rule, logging and configuration set-up, the two
    input stages, and the conditional self-update. */
module Bootstrap {
  import opened Config
  import opened Inputs

  /** JSON output forces quiet mode; otherwise the `-q` flag value stands. */
  function ApplyQuietRule(o: Options): (r: Options)
    ensures r.quite <==> o.jsonOutput || o.quite
    ensures r == o.(quite := r.quite)
  {
    if o.jsonOutput then o.(quite := true) else o
  }

  /** `--update` asks for the self-update and `--nu` vetoes it. */
  predicate UpdateRequested(u: UpdateOptions) {
    u.enableUpdate && !u.noUpdate
  }

  /** What one bootstrap does, observably: the aggregate the logger is set up
      with, the aggregate once the configuration initializer has run, the
      final aggregate, and the aggregate passed to each self-updater call. */
  datatype Run = Run(logged: Options, configured: Options, final: Options, updates: seq<Options>)

  /** The whole hook. The logger and configuration initializers, whose bodies
      are not part of this model, act on the aggregate as `materialize`; the
      file helpers are `fs` and standard input is `stdin`. */
  function InitConfig(flags: Options, materialize: Options -> Options, fs: FileSystem, stdin: Stdin): (run: Run)
    ensures run.logged.quite <==> flags.jsonOutput || flags.quite
    ensures run.logged == flags.(quite := run.logged.quite)
    ensures run.configured == materialize(run.logged)
    ensures SameButInputs(run.configured, run.final)
    ensures run.final.scan.inputs ==
              run.configured.scan.inputs + FileTargets(run.configured.scan.inputList, fs) + StdinTargets(stdin)
    ensures |run.updates| == (if UpdateRequested(run.final.update) then 1 else 0)
    ensures forall i :: 0 <= i < |run.updates| ==> run.updates[i] == run.final
  {
    var quiet := ApplyQuietRule(flags);
    var configured := materialize(quiet);
    var listed := AppendListFile(configured, fs);
    var final := AppendStdin(listed, stdin);
    assert listed.scan.inputs == configured.scan.inputs + FileTargets(configured.scan.inputList, fs);
    assert final.scan.inputs == listed.scan.inputs + StdinTargets(stdin);
    SameButInputsTrans(configured, listed, final);
    Run(quiet, configured, final, if UpdateRequested(final.update) then [final] else [])
  }

  /** The configuration initializer, applied to what the quiet rule gives
      for these flags, keeps the quiet field. */
  predicate KeepsQuiet(flags: Options, materialize: Options -> Options) {
    var quiet := ApplyQuietRule(flags);
    materialize(quiet).quite == quiet.quite
  }

  /** The configuration initializer keeps the scan fields: the flag targets
      and the list-file path. */
  predicate KeepsScan(flags: Options, materialize: Options -> Options) {
    var quiet := ApplyQuietRule(flags);
    materialize(quiet).scan == quiet.scan
  }

  /** The configuration initializer keeps the update fields. */
  predicate KeepsUpdate(flags: Options, materialize: Options -> Options) {
    var quiet := ApplyQuietRule(flags);
    materialize(quiet).update == quiet.update
  }

  /** After the bootstrap quiet mode is on exactly when `--json` or `-q` was given. */
  lemma JsonForcesQuiet(flags: Options, materialize: Options -> Options, fs: FileSystem, stdin: Stdin)
    requires KeepsQuiet(flags, materialize)
    ensures flags.jsonOutput ==> InitConfig(flags, materialize, fs, stdin).final.quite
    ensures !flags.jsonOutput ==> InitConfig(flags, materialize, fs, stdin).final.quite == flags.quite
  {
  }

  /** The final targets are the flag targets, then the list file's, then
      those piped on standard input, nothing dropped and nothing reordered. */
  lemma TargetsInSourceOrder(flags: Options, materialize: Options -> Options, fs: FileSystem, stdin: Stdin)
    requires KeepsScan(flags, materialize)
    ensures InitConfig(flags, materialize, fs, stdin).final.scan.inputs ==
              flags.scan.inputs + FileTargets(flags.scan.inputList, fs) + StdinTargets(stdin)
  {
  }

  /** No `-T` path, or a path with no file behind it, contributes nothing and
      is not an error: the bootstrap goes on with the other sources. */
  lemma MissingListFileIsSkipped(flags: Options, materialize: Options -> Options, fs: FileSystem, stdin: Stdin)
    requires KeepsScan(flags, materialize)
    requires flags.scan.inputList == "" || flags.scan.inputList !in fs
    ensures InitConfig(flags, materialize, fs, stdin).final.scan.inputs == flags.scan.inputs + StdinTargets(stdin)
  {
    assert flags.scan.inputs + [] == flags.scan.inputs;
  }

  /** A character device on standard input is not read: the targets are the
      flag and file ones only. */
  lemma InteractiveStdinIsNotRead(flags: Options, materialize: Options -> Options, fs: FileSystem)
    requires KeepsScan(flags, materialize)
    ensures InitConfig(flags, materialize, fs, Terminal).final.scan.inputs ==
              flags.scan.inputs + FileTargets(flags.scan.inputList, fs)
  {
    var ins := flags.scan.inputs + FileTargets(flags.scan.inputList, fs);
    assert ins + [] == ins;
  }

  /** Sources are appended, never merged: every occurrence of a target in
      any source survives, so one given both as a flag and on standard input
      appears twice. Every non-blank token read before any error gives one target. */
  lemma TargetsAreNeverDeduplicated(flags: Options, materialize: Options -> Options, fs: FileSystem, stdin: Stdin)
    requires KeepsScan(flags, materialize)
    ensures var out := InitConfig(flags, materialize, fs, stdin).final.scan.inputs;
            && multiset(out) ==
                 multiset(flags.scan.inputs) + multiset(FileTargets(flags.scan.inputList, fs)) + multiset(StdinTargets(stdin))
            && |out| >= |flags.scan.inputs| + |NonBlankIndices(TrimLines(Accepted(stdin)))|
  {
    NormalizeLinesSelects(Accepted(stdin));
  }

  /** The self-updater is called once when `--update` is given without
      `--nu`, and never otherwise: `--nu` wins over `--update`. */
  lemma UpdaterGate(flags: Options, materialize: Options -> Options, fs: FileSystem, stdin: Stdin)
    requires KeepsUpdate(flags, materialize)
    ensures var n := |InitConfig(flags, materialize, fs, stdin).updates|;
            && (flags.update.enableUpdate && !flags.update.noUpdate ==> n == 1)
            && (flags.update.noUpdate ==> n == 0)
            && (!flags.update.enableUpdate ==> n == 0)
  {
  }

  /** With no flag given and an interactive terminal, the bootstrap has no
      targets, is not quiet and does not update. */
  lemma DefaultBootstrap(binary: string, materialize: Options -> Options, fs: FileSystem)
    requires KeepsQuiet(Defaults(binary), materialize) && KeepsScan(Defaults(binary), materialize)
    requires KeepsUpdate(Defaults(binary), materialize)
    ensures var run := InitConfig(Defaults(binary), materialize, fs, Terminal);
            run.final.scan.inputs == [] && !run.final.quite && run.updates == []
  {
  }
}
