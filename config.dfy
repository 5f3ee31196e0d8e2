/**
 * Where the backend finds its credentials: an environment variable, or else
 * the value stored under the matching settings key.
 */
module Config {
  import opened Wrappers

  /** `process.env`: a variable that is not set is absent from the map. */
  type Env = map<string, string>

  /** A credential JavaScript treats as set: present and not the empty string. */
  predicate Filled(v: Option<string>) {
    v.Some? && v.value != ""
  }

  /**
   * `process.env[name] || setting`: the variable when it is non-empty,
   * otherwise the stored value or null; it is set when either of them is.
   */
  function EnvOr(env: Env, name: string, setting: Option<string>): (r: Option<string>)
    ensures name in env && env[name] != "" ==> r == Some(env[name])
    ensures !(name in env && env[name] != "") ==> r == setting
    ensures Filled(r) <==> (name in env && env[name] != "") || Filled(setting)
  {
    if name in env && env[name] != "" then Some(env[name]) else setting
  }
}
