/** The dictionary both runner scripts return and print as JSON:
    `{"userOutput": str, "fileChanged": bool}`. */
module RunnerResult {

  datatype RunResult = RunResult(userOutput: string, fileChanged: bool)
}
