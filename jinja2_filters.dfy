/** The extra template filter: `env`, registered as `env_override`. */
module Jinja2Filters {
  import opened Wrappers
  import opened PyValues

  /** The process environment, as `os.environ` exposes it. */
  type Environ = map<string, string>

  /** `env(value, key)`: the environment's value for `key` whenever the
      variable exists, even when it is empty; `value` otherwise.  The
      environment is only read. */
  function Env(value: Value, key: string, environ: Environ): (r: Value)
    ensures key in environ ==> r == PyStr(environ[key])
    ensures key !in environ ==> r == value
  {
    if key in environ then PyStr(environ[key]) else value
  }

  /** The filters the render environment adds to jinja's own. */
  datatype Filter = EnvOverride

  const RenderFilters: map<string, Filter> := map["env_override" := EnvOverride]

  /** `piped | name(args)`: jinja passes the piped value as the first
      positional argument and the call's arguments after it. */
  function ApplyFilter(f: Filter, piped: Value, args: seq<Value>, environ: Environ): (r: Result<Value>)
    ensures r.Success? <==> |args| == 1 && args[0].PyStr?
    ensures r.Success? ==> r.value == Env(piped, args[0].s, environ)
  {
    match f
    case EnvOverride =>
      if |args| != 1 then Failure(Raised("TypeError", "env() takes 2 positional arguments"))
      else if !args[0].PyStr? then Failure(Raised("TypeError", "str expected"))
      else Success(Env(piped, args[0].s, environ))
  }

  /** `{{ v | env_override('K') }}` binds `v` as the value and `K` as the
      key: the variable wins when it is defined, `v` is the fallback. */
  lemma EnvOverrideBinding(v: Value, k: string, environ: Environ)
    ensures "env_override" in RenderFilters
    ensures ApplyFilter(RenderFilters["env_override"], v, [PyStr(k)], environ) == Success(Env(v, k, environ))
    ensures k !in environ ==> ApplyFilter(RenderFilters["env_override"], v, [PyStr(k)], environ) == Success(v)
  {
  }

  /** Applying the filter twice with the same key changes nothing more. */
  lemma EnvIdempotent(v: Value, k: string, environ: Environ)
    ensures Env(Env(v, k, environ), k, environ) == Env(v, k, environ)
  {
  }
}
