/**
 * The process environment (`os.environ`) as a value: a map from variable
 * names to values. A variable set to the empty string is present.
 */
module Environment {
  import opened Wrappers

  type Environ = map<string, string>

  /** `os.environ.get(key, default)`: the stored value, even when it is empty. */
  function Get(env: Environ, key: string, default: string): string {
    if key in env then env[key] else default
  }

  /** `os.environ.get(key, param)` where `param` may be None. */
  function GetOpt(env: Environ, key: string, param: Option<string>): Option<string> {
    if key in env then Some(env[key]) else param
  }
}
