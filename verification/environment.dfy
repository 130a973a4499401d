/** The process environment as the Python code reads it. */
module Environment {
  import opened Wrappers

  /** Variable name to value; a name that is not a key is unset. */
  type Env = map<string, string>

  /** `os.environ.get(name)`: the value, or `None` when the variable is unset. */
  function Get(env: Env, name: string): Option<string>
  {
    if name in env then Some(env[name]) else None
  }

  /** Python truthiness of an optional string: `None` and `""` are both false. */
  predicate IsSet(v: Option<string>)
  {
    v.Some? && v.value != ""
  }

  /** `value or fallback` on an optional string. */
  function OrDefault(v: Option<string>, fallback: string): string
  {
    if IsSet(v) then v.value else fallback
  }
}
