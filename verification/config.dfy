/** The run configuration that every subcommand shares (`libs.Options` in the
    program), with the defaults its persistent flags declare. Field names follow
    the program's, including its spelling `quite` for the quiet flag. Go's `int`
    fields are modelled as unbounded integers: they are only stored here. */
module Config {

  datatype Environment = Environment(rootFolder: string, baseFolder: string)

  /** Targets given with repeated `-t` and the path given with `-T`. */
  datatype ScanOptions = ScanOptions(inputs: seq<string>, inputList: string)

  datatype CloudOptions = CloudOptions(
    enableChunk: bool,
    numberOfParts: int,       // 0 means "as many parts as the concurrency level"
    chunkInputs: string,
    size: string,
    region: string,
    token: string,
    provider: string,
    reBuildBaseImage: bool)

  datatype UpdateOptions = UpdateOptions(
    noUpdate: bool,           // --nu
    isUpdateBin: bool,        // --bin
    enableUpdate: bool,       // --update
    updateFolder: string)

  /** Set by the configuration initializer, not by any flag in `cmd/root.go`. */
  datatype ServerOptions = ServerOptions(dbPath: string)

  datatype Options = Options(
    env: Environment,
    configFile: string,
    logFile: string,
    concurrency: int,
    scan: ScanOptions,
    cloud: CloudOptions,
    timeout: string,
    scanId: string,
    resume: bool,
    debug: bool,
    quite: bool,
    wildCardCheck: bool,
    disableValidateInput: bool,
    verbose: bool,
    enableFormatInput: bool,
    noNoti: bool,
    noBanner: bool,
    noDb: bool,
    noGit: bool,
    noClean: bool,
    exclude: seq<string>,
    customGit: bool,
    enableDeStorage: bool,
    gitSync: bool,
    syncTimes: int,
    pollingTime: int,
    noCdn: bool,
    enableBackup: bool,
    jsonOutput: bool,
    update: UpdateOptions,
    server: ServerOptions)

  /** The aggregate as it stands when no flag is given: every flag at its
      declared default, every other field at Go's zero value. `binary` is the
      program's name, which the folder defaults are built from. */
  function Defaults(binary: string): Options {
    Options(
      env := Environment("~/." + binary + "/", "~/" + binary + "-base/"),
      configFile := "~/." + binary + "/config.yaml",
      logFile := "",
      concurrency := 1,
      scan := ScanOptions([], ""),
      cloud := CloudOptions(false, 0, "/tmp/chunk-inputs/", "", "", "", "", false),
      timeout := "",
      scanId := "",
      resume := false,
      debug := false,
      quite := false,
      wildCardCheck := false,
      disableValidateInput := false,
      verbose := false,
      enableFormatInput := false,
      noNoti := false,
      noBanner := false,
      noDb := false,
      noGit := false,
      noClean := false,
      exclude := [],
      customGit := false,
      enableDeStorage := false,
      gitSync := false,
      syncTimes := 15,
      pollingTime := 100,
      noCdn := false,
      enableBackup := false,
      jsonOutput := false,
      update := UpdateOptions(false, false, false, "/tmp/osm-update"),
      server := ServerOptions(""))
  }
}
