/**
 * Where the logger writes: `outputConfig` picks the output and error-output
 * path lists from the configured file and the stdout flag. The two
 * `os.Stat` checks are given as their outcomes.
 */
module LogConfig {
  import opened Wrappers

  const Stdout: string := "stdout"
  const Stderr: string := "stderr"

  /**
   * `outputConfig(file, useStdout)`. `fileExists` is whether `os.Stat(file)`
   * succeeds; `logDir` is `filepath.Dir(file)` and `dirStat` the error text
   * of `os.Stat(logDir)`, or None when it succeeds.
   */
  method OutputConfig(file: string, useStdout: bool, fileExists: bool, logDir: string, dirStat: Option<string>)
    returns (outputPaths: seq<string>, errPaths: seq<string>, err: Option<Error>)
    ensures err.Some? <==> file != "" && !fileExists && dirStat.Some?
    ensures err.Some? ==> && outputPaths == [] && errPaths == []
                          && err.value.msg == "directory " + logDir + " doesn't exist: " + dirStat.value
    ensures err.None? ==>
      && outputPaths == (if useStdout then [Stdout] else []) + (if file != "" then [file] else [])
      && errPaths == [Stderr] + (if file != "" then [file] else [])
    ensures err.None? ==> |errPaths| >= 1 && errPaths[0] == Stderr
    ensures err.None? ==> (Stdout in outputPaths <==> useStdout || file == Stdout)
    ensures err.None? && file == "" ==> outputPaths == (if useStdout then [Stdout] else []) && errPaths == [Stderr]
    ensures err.None? && file != "" ==> outputPaths[|outputPaths| - 1] == file && errPaths == [Stderr, file]
  {
    outputPaths := [];
    errPaths := [Stderr];
    if useStdout {
      outputPaths := outputPaths + [Stdout];
    }
    if file != "" {
      if !fileExists {
        if dirStat.Some? {
          return [], [], Some(Error("directory " + logDir + " doesn't exist: " + dirStat.value));
        }
      }
      outputPaths := outputPaths + [file];
      errPaths := errPaths + [file];
    }
    return outputPaths, errPaths, None;
  }
}
