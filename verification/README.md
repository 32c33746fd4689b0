# osmedeus bootstrap: a Dafny model

This project models the start-up logic of the osmedeus command-line tool,
which is found in `cmd/root.go`. Before any subcommand runs, the `initConfig` hook:

1. forces quiet mode when JSON output is requested;
2. sets up logging and the derived configuration;
3. appends the targets of the `-T` list file to those given with `-t`, if that file exists;
4. appends the trimmed, non-blank lines piped on standard input, unless standard input is a character device, such as an interactive terminal;
5. runs the self-updater when `--update` is given and `--nu` is not.

Separately, `DBInit` opens the result database. It retries once, and if that
also fails it prints a diagnostic and exits.

Every stage is a pure function from the options record to an updated record.
The code outside `cmd/root.go` becomes an input:

- the logger and configuration initializers are a function `materialize`;
- the file helpers are a map from existing paths to what reading them yields;
- standard input is either `Terminal` (a character device) or `Piped(lines, cleanCount)`: the tokens the line scanner yields, of which the first `cleanCount` come before any read error;
- the database initializer is a function from the attempt number to its result.

Files:

- `text.dfy` (module `Text`): Go's `unicode.IsSpace` and `strings.TrimSpace`.
- `config.dfy` (module `Config`): the options record and the defaults declared for the persistent flags.
- `inputs.dfy` (module `Inputs`): the list-file and standard-input stages, the scanning loop, and the trim-and-filter normalisation.
- `bootstrap.dfy` (module `Bootstrap`): the quiet rule, the update gate, the whole hook as one run, and the end-to-end properties.
- `database.dfy` (module `Database`): the two-attempt database bootstrap.

The end-to-end lemmas in `Bootstrap` each assume only what they need of the
configuration initializer: `KeepsQuiet` (it does not change the quiet field),
`KeepsScan` (the scan fields) or `KeepsUpdate` (the update fields). Its body
is not part of this model, so nothing here can prove what it does.

## Model

| member | source | states |
|---|---|---|
| Text.TrimSpace | cmd/root.go:118 | The trimmed line has no white space at either end, and it is empty exactly when the line is all white space. |
| Text.TrimSpaceIsInfix | cmd/root.go:118 | The trimmed line is a contiguous piece of the original line. Only white space lies before and after it. |
| Text.TrimSpaceOfPadded | cmd/root.go:118 | A trimmed string padded with white space on either side trims back to itself. This pins down TrimSpace independently of how it is computed. |
| Text.TrimSpaceIdempotent | cmd/root.go:118 | Trimming an already trimmed line changes nothing. |
| Inputs.AppendListFile | cmd/root.go:107-111 | With no `-T` path, or no file at the path, the options are unchanged and nothing fails. Otherwise the old targets stay an unchanged prefix and the file's contribution follows. No other field changes. |
| Inputs.NormalizeLines | cmd/root.go:116-122 | Every target taken from piped lines is non-empty and has no white space at either end. There are never more targets than lines. |
| Inputs.NormalizeLinesSelects | cmd/root.go:116-122 | The targets are exactly the trimmed non-blank lines, in input order. The i-th target is the trimmed line at the i-th non-blank position, and no non-blank line is skipped. |
| Inputs.NormalizeLinesAppend | cmd/root.go:117-122 | Splitting the input anywhere and scanning the two parts in turn gives the same targets as scanning the whole input. |
| Inputs.NormalizeLinesIdempotent | cmd/root.go:118-119 | Scanning the produced targets again reproduces them. |
| Inputs.PipedExample | cmd/root.go:116-122 | The lines "a", " b ", "" and "c" yield the targets "a", "b" and "c". |
| Inputs.AppendStdin | cmd/root.go:114-123 | A character device leaves the options unchanged. Piped input keeps the existing targets as a prefix, and what follows is exactly the normalised tokens yielded before any read error, each non-empty and trimmed. No other field changes. |
| Inputs.ReadStdin | cmd/root.go:114-123 | The scanning loop reads nothing from a character device. From a pipe it consumes every token and appends exactly the normalised tokens yielded before any read error after the existing ones. |
| Inputs.ScanTokens | cmd/root.go:117-122 | Every token is consumed, but only those yielded while no read error is recorded are kept; the kept ones are appended trimmed, with blanks dropped, in order. |
| Inputs.ReadErrorKeepsPrefix | cmd/root.go:118-119 | A read error can only cut the targets short: they are a prefix of what the whole token stream would give, and all of it when no error occurs. |
| Bootstrap.ApplyQuietRule | cmd/root.go:98-100 | Quiet is on exactly when `--json` or `-q` is set. Every other field is untouched. |
| Bootstrap.InitConfig | cmd/root.go:97-128 | The logger sees the options after the quiet rule. The targets are the configured ones, then the list file's, then stdin's. The updater is called once, with the final options, exactly when the update gate is open, and never otherwise. |
| Bootstrap.JsonForcesQuiet | cmd/root.go:98-104 | After bootstrap, `--json` implies quiet. Without `--json`, quiet keeps the `-q` flag value. |
| Bootstrap.TargetsInSourceOrder | cmd/root.go:106-123 | The final targets are the flag targets, then the list-file targets, then the stdin targets, in that order. |
| Bootstrap.MissingListFileIsSkipped | cmd/root.go:107-111 | A missing or empty `-T` path contributes nothing and raises no error. |
| Bootstrap.InteractiveStdinIsNotRead | cmd/root.go:114-115 | With an interactive terminal, the targets come only from the flags and the list file. |
| Bootstrap.TargetsAreNeverDeduplicated | cmd/root.go:109-120 | The final multiset of targets is the sum of the three sources' multisets. Its length is at least the number of flag targets plus the number of non-blank tokens piped before any read error. |
| Bootstrap.UpdaterGate | cmd/root.go:125-127 | `--update` without `--nu` gives exactly one updater call. `--nu` or no `--update` gives none, so `--nu` overrides `--update`. |
| Bootstrap.DefaultBootstrap | cmd/root.go:37-90 | With every flag at its default and a terminal on stdin, the bootstrap ends with no targets, is not quiet, and does not update. |
| Database.DBInit | cmd/root.go:131-141 | One call if the first attempt connects, otherwise exactly two and never a third. The handle comes from the first attempt that connects. When both fail, the outcome is fatal, with the diagnostic naming the DB path and exit code -1. |
| Database.DiagnosticNamesPath | cmd/root.go:138 | The fatal diagnostic contains the configured database path right after its fixed prefix. |
| Database.ExitStatus | cmd/root.go:139 | The status a parent process sees is the exit code reduced to its low eight bits. |
| Database.FatalExitIsFailure | cmd/root.go:139 | `os.Exit(-1)` is observed as status 255, which is a failure. |

## Left out

- Cobra's flag parsing, `SetHelpFunc`, `Banner` and `Execute` (cmd/root.go:22-34, 92-93) are thin wrappers over a library outside this model. The flag defaults are kept as `Config.Defaults`, with the program name as a parameter because `libs.BINARY` is not part of this model.
- The bodies of `utils.InitLog`, `core.InitConfig`, `core.Update`, `database.InitDB`, `utils.FileExists` and `utils.ReadingFileUnique` are not part of this model:
  - the two initializers are the parameter `materialize`;
  - the updater call is recorded with its argument, and its result is ignored, as in the program;
  - the file helpers are a map from existing paths to an opaque list. No trimming or de-duplication is claimed for the file's contribution.
- `bufio.Scanner` line splitting and its 64 KiB token limit are not modelled: standard input is the sequence of tokens the scanner yields, with the position of the first read error given as `cleanCount`. Tokens yielded after that error fail the `sc.Err()` test and are dropped, as line 119 does; how many such tokens a real scanner yields is not modelled.
- Standard input is assumed to end. A producer that never closes the pipe blocks the loop at lines 117-122 forever, so the updater is never reached; a finite token sequence cannot express that.
- A failing `os.Stdin.Stat()` is not modelled. It would leave `stat` nil, and line 115 would panic. The model assumes the stat succeeds.
- The `DB` global, the gorm handle and real process termination are out: the handle is a `Handle` value, and the exit is a `Fatal` outcome carrying the code.
- The duration string, the cloud, sync and notification settings, and the chunk-part default of 0 are only stored here, never interpreted. Go's 64-bit `int` fields are unbounded integers, because nothing computes on them.
- Strings are sequences of Unicode characters. Invalid UTF-8 bytes, which `strings.TrimSpace` passes through unchanged, are not represented.
- Bootstrap.JsonForcesQuiet: holds only when the configuration initializer keeps the quiet field (`KeepsQuiet`).
- Bootstrap.TargetsInSourceOrder: holds only when the configuration initializer keeps the scan fields (`KeepsScan`).
- Bootstrap.MissingListFileIsSkipped: holds only when the configuration initializer keeps the scan fields (`KeepsScan`).
- Bootstrap.InteractiveStdinIsNotRead: holds only when the configuration initializer keeps the scan fields (`KeepsScan`).
- Bootstrap.TargetsAreNeverDeduplicated: holds only when the configuration initializer keeps the scan fields (`KeepsScan`).
- Bootstrap.UpdaterGate: holds only when the configuration initializer keeps the update fields (`KeepsUpdate`).
- Bootstrap.DefaultBootstrap: holds only when the configuration initializer keeps the quiet, scan and update fields.
