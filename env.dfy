/** The process environment as a map from variable names to values, and the
    two ways the source reads it. */
module Env {

  type Environment = map<string, string>

  /** `os.getenv(key, default)`: the default applies only when the variable
      is not set at all; a variable set to "" reads as "". */
  function Getenv(env: Environment, key: string, default: string): string
  {
    if key in env then env[key] else default
  }

  /** `os.getenv(key)` where the source only tests the value for truth and
      uses it when it is non-empty: an unset variable (None) and an empty
      one are both "". */
  function Lookup(env: Environment, key: string): string
  {
    Getenv(env, key, "")
  }
}
