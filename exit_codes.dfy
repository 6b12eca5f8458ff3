/** The process exit codes of gitlab-protector (gitlab-protector.py:33-41). */
module ExitCodes {

  const Success := 0
  const ExecutionError := 1
  const MissingArguments := 2
  const ConfigNotFound := 10
  const ConfigParseError := 11
  const GitlabError := 20
  const CreateTagError := 21
  const CreateBranchError := 22
  const AuthError := 30

  /** Every code the program defines. */
  predicate IsDefined(code: int)
  {
    code in {Success, ExecutionError, MissingArguments, ConfigNotFound, ConfigParseError,
             GitlabError, CreateTagError, CreateBranchError, AuthError}
  }
}
