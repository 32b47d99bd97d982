/** The global functions templates can call, and their registry. */
module Jinja2Functions {
  import opened Wrappers
  import opened PyValues
  import opened Jinja2Filters

  /** `env_var(key, value=None)`: the variable when it exists, `value`
      otherwise. */
  function EnvVar(key: string, environ: Environ, value: Value := PyNone): (r: Value)
    ensures key in environ ==> r == PyStr(environ[key])
    ensures key !in environ ==> r == value
  {
    if key in environ then PyStr(environ[key]) else value
  }

  /** The global `env_var` and the filter `env_override` are the same
      lookup with their arguments swapped. */
  lemma EnvVarIsEnvFilter(key: string, environ: Environ, value: Value)
    ensures EnvVar(key, environ, value) == Env(value, key, environ)
  {
  }

  /** `hostname(alternative_value=None)`: the platform node name, else the
      socket host name, else the alternative when it is truthy, else None.
      The two lookups are parameters: each either answers or raises. */
  function Hostname(platformNode: Result<string>, socketHost: Result<string>,
                    alternative: Value := PyNone): (r: Value)
    ensures platformNode.Success? ==> r == PyStr(platformNode.value)
    ensures platformNode.Failure? && socketHost.Success? ==> r == PyStr(socketHost.value)
    ensures platformNode.Failure? && socketHost.Failure? && Truthy(alternative) ==> r == alternative
    ensures platformNode.Failure? && socketHost.Failure? && !Truthy(alternative) ==> r == PyNone
  {
    if platformNode.Success? then PyStr(platformNode.value)
    else if socketHost.Success? then PyStr(socketHost.value)
    else if Truthy(alternative) then alternative
    else PyNone
  }

  /** The alternative is only consulted when both lookups fail, and the
      result is None exactly when nothing usable was found. */
  lemma HostnameFallback(platformNode: Result<string>, socketHost: Result<string>, alternative: Value,
                         other: Value)
    ensures platformNode.Success? || socketHost.Success? ==>
      Hostname(platformNode, socketHost, alternative) == Hostname(platformNode, socketHost, other)
    ensures Hostname(platformNode, socketHost, alternative).PyNone? <==>
      platformNode.Failure? && socketHost.Failure? && !Truthy(alternative)
  {
  }

  /** The functions behind the registry's names. */
  datatype JinjaFunction =
    | EcsContainerMetadataFn
    | EcsTaskMetadataFn
    | EnvVarFn
    | FromSsmFn
    | FromSsmJsonFn
    | FromResolveFn
    | MskBootstrapFn
    | HostnameFn
    | Ec2ZoneIdFn

  /** `JINJA_FUNCTIONS` */
  const JinjaFunctions: map<string, JinjaFunction> := map[
    "ecs_container_metadata" := EcsContainerMetadataFn,
    "ecs_task_metadata" := EcsTaskMetadataFn,
    "env_var" := EnvVarFn,
    "from_ssm" := FromSsmFn,
    "from_ssm_json" := FromSsmJsonFn,
    "from_resolve" := FromResolveFn,
    "msk_bootstrap" := MskBootstrapFn,
    "hostname" := HostnameFn,
    "ec2_zone_id" := Ec2ZoneIdFn,
    "subnet_zone_id" := Ec2ZoneIdFn]

  /** Ten names; `subnet_zone_id` is an alias of `ec2_zone_id` and no
      other two names share a function. */
  lemma RegistryShape()
    ensures JinjaFunctions.Keys == {"ecs_container_metadata", "ecs_task_metadata", "env_var", "from_ssm",
                                    "from_ssm_json", "from_resolve", "msk_bootstrap", "hostname",
                                    "ec2_zone_id", "subnet_zone_id"}
    ensures JinjaFunctions["subnet_zone_id"] == JinjaFunctions["ec2_zone_id"]
    ensures forall a, b :: a in JinjaFunctions && b in JinjaFunctions && a != b &&
                           JinjaFunctions[a] == JinjaFunctions[b] ==>
                           a in {"ec2_zone_id", "subnet_zone_id"} && b in {"ec2_zone_id", "subnet_zone_id"}
  {
  }
}
