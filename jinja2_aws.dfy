/** The AWS-backed template functions: ECS task metadata, MSK bootstrap
    brokers, SSM parameters and the zone id lookup.  HTTP, the AWS API,
    JSON parsing, the metadata property lookup and the EC2 subnet search
    are parameters of the runtime. */
module Jinja2Aws {
  import opened Wrappers
  import opened PyValues
  import opened Common
  import opened Jinja2Filters
  import opened AwsMgmt

  /** A `requests` response: its status, its body and what `.json()`
      makes of it. */
  datatype HttpResponse = HttpResponse(status: int, content: seq<byte>, json: Result<Value>)

  datatype Runtime = Runtime(
    environ: Environ,
    /** `requests.get(url)` */
    httpGet: string -> Result<HttpResponse>,
    /** `get_property(metadata, key)`, which is not part of this model */
    getProperty: (Value, Value) -> Result<Value>,
    api: Api,
    /** `json.loads`; a malformed document raises JSONDecodeError */
    jsonLoads: Value -> Result<Value>,
    /** `get_ec2_subnet_from_vpc_and_ip_cidr(vpc_id, cidr, session)` */
    subnetLookup: (Value, Value) -> Result<Value>)

  const MetadataV4 := "ECS_CONTAINER_METADATA_URI_V4"
  const MetadataV3 := "ECS_CONTAINER_METADATA_URI"

  /** `environ.get(k, None)` is truthy: the variable exists and is not empty. */
  predicate EnvSet(environ: Environ, k: string)
  {
    k in environ && environ[k] != ""
  }

  /** The URL `define_ecs_metadata` requests: the V4 variable, else the V3
      one, plus "/task" for a task query; an OSError with neither. */
  function MetadataUrl(environ: Environ, forTask: bool): (r: Result<string>)
    ensures r.Success? <==> EnvSet(environ, MetadataV4) || EnvSet(environ, MetadataV3)
    ensures EnvSet(environ, MetadataV4) ==>
      r == Success(environ[MetadataV4] + (if forTask then "/task" else ""))
    ensures !EnvSet(environ, MetadataV4) && EnvSet(environ, MetadataV3) ==>
      r == Success(environ[MetadataV3] + (if forTask then "/task" else ""))
    ensures r.Failure? ==>
      r.error == Raised("OSError", "No ECS Metadata URL provided. This filter only works on ECS")
  {
    var base :=
      if EnvSet(environ, MetadataV4) then Some(environ[MetadataV4])
      else if EnvSet(environ, MetadataV3) then Some(environ[MetadataV3])
      else None;
    match base
    case None => Failure(Raised("OSError", "No ECS Metadata URL provided. This filter only works on ECS"))
    case Some(url) =>
      assert url + "" == url;
      Success(if forTask then url + "/task" else url)
  }

  /** The task endpoint is the container endpoint with "/task" appended,
      and both exist under the same conditions. */
  lemma TaskUrlExtendsContainerUrl(environ: Environ)
    ensures MetadataUrl(environ, true).Success? <==> MetadataUrl(environ, false).Success?
    ensures MetadataUrl(environ, true).Success? ==>
      MetadataUrl(environ, true).value == MetadataUrl(environ, false).value + "/task"
  {
  }

  /** `define_ecs_metadata(for_task).json()` */
  function FetchMetadata(rt: Runtime, forTask: bool): (r: Result<Value>)
    ensures MetadataUrl(rt.environ, forTask).Failure? ==> r == Failure(MetadataUrl(rt.environ, forTask).error)
    ensures MetadataUrl(rt.environ, forTask).Success? ==>
      var resp := rt.httpGet(MetadataUrl(rt.environ, forTask).value);
      (resp.Failure? ==> r == Failure(resp.error)) && (resp.Success? ==> r == resp.value.json)
  {
    var url :- MetadataUrl(rt.environ, forTask);
    var resp :- rt.httpGet(url);
    resp.json
  }

  /** The body shared by `ecs_container_metadata` and `ecs_task_metadata`:
      the whole document without a property key; with one, the property,
      or the fallback when the property lookup gives None. */
  function EcsMetadata(rt: Runtime, forTask: bool, propertyKey: Value, fallback: Value): (r: Result<Value>)
    ensures FetchMetadata(rt, forTask).Failure? ==> r == Failure(FetchMetadata(rt, forTask).error)
    ensures FetchMetadata(rt, forTask).Success? && !Truthy(propertyKey) ==> r == FetchMetadata(rt, forTask)
    ensures FetchMetadata(rt, forTask).Success? && Truthy(propertyKey) ==>
      var found := rt.getProperty(FetchMetadata(rt, forTask).value, propertyKey);
      (found.Failure? ==> r == Failure(found.error)) &&
      (found.Success? && found.value.PyNone? ==> r == Success(fallback)) &&
      (found.Success? && !found.value.PyNone? ==> r == found)
  {
    var metadata :- FetchMetadata(rt, forTask);
    if Truthy(propertyKey) then
      var value :- rt.getProperty(metadata, propertyKey);
      Success(if value.PyNone? then fallback else value)
    else Success(metadata)
  }

  /** `ecs_container_metadata(property_key=None, fallback_value=None)` */
  function EcsContainerMetadata(rt: Runtime, propertyKey: Value := PyNone, fallback: Value := PyNone): (r: Result<Value>)
    ensures MetadataUrl(rt.environ, false).Failure? ==> r == Failure(MetadataUrl(rt.environ, false).error)
    ensures !Truthy(propertyKey) ==> r == FetchMetadata(rt, false)
    ensures Truthy(propertyKey) && FetchMetadata(rt, false).Success? &&
            rt.getProperty(FetchMetadata(rt, false).value, propertyKey) == Success(PyNone) ==>
              r == Success(fallback)
  {
    EcsMetadata(rt, false, propertyKey, fallback)
  }

  /** `ecs_task_metadata(property_key=None, fallback_value=None)` */
  function EcsTaskMetadata(rt: Runtime, propertyKey: Value := PyNone, fallback: Value := PyNone): (r: Result<Value>)
    ensures MetadataUrl(rt.environ, true).Failure? ==> r == Failure(MetadataUrl(rt.environ, true).error)
    ensures !Truthy(propertyKey) ==> r == FetchMetadata(rt, true)
    ensures Truthy(propertyKey) && FetchMetadata(rt, true).Success? &&
            rt.getProperty(FetchMetadata(rt, true).value, propertyKey) == Success(PyNone) ==>
              r == Success(fallback)
  {
    EcsMetadata(rt, true, propertyKey, fallback)
  }

  /** Without the metadata variables every metadata function raises the
      same OSError, whatever else the runtime answers. */
  lemma MetadataNeedsEcs(rt: Runtime, propertyKey: Value, fallback: Value)
    requires !EnvSet(rt.environ, MetadataV4) && !EnvSet(rt.environ, MetadataV3)
    ensures EcsContainerMetadata(rt, propertyKey, fallback).Failure?
    ensures EcsTaskMetadata(rt, propertyKey, fallback).error.kind == "OSError"
  {
  }

  /** `msk_bootstrap(msk_arn, broker_type)`: the broker string of that type
      when the reply sets it, the ARN itself otherwise. */
  function MskBootstrap(rt: Runtime, mskArn: string, brokerType: string): (r: Result<Value>)
    ensures var reply := rt.api(Client("kafka", DefaultSession), "get_bootstrap_brokers",
                                map["ClusterArn" := PyStr(mskArn)]);
      (r.Success? <==> reply.Success?) &&
      (reply.Success? && KeyIsSet(brokerType, reply.value) ==> r.value == reply.value.entries[brokerType]) &&
      (reply.Success? && !KeyIsSet(brokerType, reply.value) ==> r.value == PyStr(mskArn))
  {
    var brokers :- rt.api(Client("kafka", DefaultSession), "get_bootstrap_brokers",
                          map["ClusterArn" := PyStr(mskArn)]);
    if KeyIsSet(brokerType, brokers) then Success(brokers.entries[brokerType]) else Success(PyStr(mskArn))
  }

  /** `from_ssm(parameter_name)`, through an ambient `ssm` client; it has
      no `except`, so the API's own error or the KeyError of a reply
      without `Parameter.Value` reaches the template. */
  function FromSsm(rt: Runtime, name: string): (r: Result<Value>)
    ensures var reply := rt.api(Client("ssm", DefaultSession), "get_parameter", SsmRequest(Some(name)));
      (r.Success? <==> reply.Success? && KeyPresent("Parameter", reply.value) &&
                       KeyPresent("Value", reply.value.entries["Parameter"])) &&
      (r.Success? ==> r.value == reply.value.entries["Parameter"].entries["Value"]) &&
      (reply.Failure? ==> r == Failure(reply.error)) &&
      (reply.Success? && !KeyPresent("Parameter", reply.value) ==> r.Failure? && r.error.kind in {"KeyError", "TypeError"})
  {
    var reply :- rt.api(Client("ssm", DefaultSession), "get_parameter",
                        map["Name" := PyStr(name), "WithDecryption" := PyBool(true)]);
    var parameter :- GetItem(reply, "Parameter");
    GetItem(parameter, "Value")
  }

  /** The fetcher without any role that `SsmFetcher()` builds. */
  function AmbientSsmFetcher(): Fetcher
  {
    Fetcher(Handler(DefaultSession, DefaultSession), Client("ssm", DefaultSession))
  }

  /** `from_ssm` sends the same request as `SsmFetcher.get_content` of a
      fetcher without any role: both succeed together, with the same
      value.  They differ in how they fail: `from_ssm` raises the API's
      own error where the fetcher raises its clause's TypeError. */
  lemma FromSsmIsAmbientFetch(rt: Runtime, name: string)
    ensures var fetched := SsmGetContent(rt.api, AmbientSsmFetcher(), Some(name));
      (FromSsm(rt, name).Success? <==> fetched.Success?) &&
      (fetched.Success? ==> FromSsm(rt, name) == fetched) &&
      (fetched.Failure? ==> fetched.error == BadExceptClause)
    ensures var reply := rt.api(Client("ssm", DefaultSession), "get_parameter", SsmRequest(Some(name)));
      reply.Failure? ==> FromSsm(rt, name) == Failure(reply.error)
  {
    assert SsmRequest(Some(name)) == map["Name" := PyStr(name), "WithDecryption" := PyBool(true)];
  }

  /** `from_ssm_json(parameter_name)`: the parsed parameter, or an empty
      dict when its value is not JSON. */
  function FromSsmJson(rt: Runtime, name: string): (r: Result<Value>)
    ensures FromSsm(rt, name).Failure? ==> r == FromSsm(rt, name)
    ensures FromSsm(rt, name).Success? ==>
      var parsed := rt.jsonLoads(FromSsm(rt, name).value);
      (parsed.Failure? && parsed.error.kind == "JSONDecodeError" ==> r == Success(PyDict(map[]))) &&
      (parsed.Failure? && parsed.error.kind != "JSONDecodeError" ==> r == parsed) &&
      (parsed.Success? ==> r == parsed)
  {
    var text :- FromSsm(rt, name);
    var parsed := rt.jsonLoads(text);
    if parsed.Failure? && parsed.error.kind == "JSONDecodeError" then Success(PyDict(map[])) else parsed
  }

  /** `ec2_zone_id(subnet_id=None)`: without a subnet, through the task
      metadata and the subnet search; with one, through `describe_subnets`,
      a ClientError yielding "". */
  function Ec2ZoneId(rt: Runtime, subnetId: Value := PyNone): (r: Result<Value>)
    ensures !Truthy(subnetId) ==>
      var vpcId := EcsTaskMetadata(rt, PyStr("VPCID"));
      var subnetRange := EcsTaskMetadata(rt, PyStr("Networks::0::IPv4SubnetCIDRBlock"));
      (vpcId.Failure? ==> r == Failure(vpcId.error)) &&
      (vpcId.Success? && subnetRange.Failure? ==> r == Failure(subnetRange.error)) &&
      (vpcId.Success? && subnetRange.Success? ==>
         var details := rt.subnetLookup(vpcId.value, subnetRange.value);
         (details.Failure? ==> r == Failure(details.error)) &&
         (details.Success? ==>
            (r.Success? <==> details.value.PyDict? && "AvailabilityZoneId" in details.value.entries) &&
            (r.Success? ==> r.value == details.value.entries["AvailabilityZoneId"]) &&
            (details.value.PyDict? && "AvailabilityZoneId" !in details.value.entries ==>
               r == Failure(Raised("KeyError", "AvailabilityZoneId")))))
    ensures Truthy(subnetId) ==>
      var reply := rt.api(Client("ec2", DefaultSession), "describe_subnets", map["SubnetIds" := PyList([subnetId])]);
      (reply.Failure? && reply.error.kind == "ClientError" ==> r == Success(PyStr(""))) &&
      (reply.Failure? && reply.error.kind != "ClientError" ==> r == Failure(reply.error)) &&
      (reply.Success? && reply.value.PyDict? && "Subnets" !in reply.value.entries ==>
         r == Failure(Raised("KeyError", "Subnets"))) &&
      (reply.Success? && reply.value.PyDict? && "Subnets" in reply.value.entries ==>
         var subnets := reply.value.entries["Subnets"];
         (subnets.PyList? && subnets.items == [] ==> r.Failure? && r.error.kind == "IndexError") &&
         (subnets.PyList? && subnets.items != [] ==>
            var first := subnets.items[0];
            (r.Success? <==> first.PyDict? && "AvailabilityZoneId" in first.entries) &&
            (r.Success? ==> r.value == first.entries["AvailabilityZoneId"]) &&
            (first.PyDict? && "AvailabilityZoneId" !in first.entries ==>
               r == Failure(Raised("KeyError", "AvailabilityZoneId")))))
  {
    if !Truthy(subnetId) then
      var vpcId :- EcsTaskMetadata(rt, PyStr("VPCID"));
      var subnetRange :- EcsTaskMetadata(rt, PyStr("Networks::0::IPv4SubnetCIDRBlock"));
      var details :- rt.subnetLookup(vpcId, subnetRange);
      GetItem(details, "AvailabilityZoneId")
    else
      match rt.api(Client("ec2", DefaultSession), "describe_subnets", map["SubnetIds" := PyList([subnetId])])
      case Failure(e) => if e.kind == "ClientError" then Success(PyStr("")) else Failure(e)
      case Success(reply) =>
        var subnets :- GetItem(reply, "Subnets");
        var first :- GetIndex(subnets, 0);
        GetItem(first, "AvailabilityZoneId")
  }

  /** With a subnet id the zone id never touches the task metadata, and a
      ClientError from the API gives the empty string. */
  lemma Ec2ZoneIdWithSubnet(rt: Runtime, subnetId: Value, environ: Environ,
                            httpGet: string -> Result<HttpResponse>)
    requires Truthy(subnetId)
    ensures Ec2ZoneId(rt, subnetId) == Ec2ZoneId(rt.(environ := environ, httpGet := httpGet), subnetId)
    ensures var reply := rt.api(Client("ec2", DefaultSession), "describe_subnets", map["SubnetIds" := PyList([subnetId])]);
      reply.Failure? && reply.error.kind == "ClientError" ==> Ec2ZoneId(rt, subnetId) == Success(PyStr(""))
  {
  }

  /** A `describe_subnets` reply naming a zone id for its first subnet
      gives that zone id, whatever else the reply lists. */
  lemma Ec2ZoneIdFromReply(rt: Runtime, subnetId: Value, zone: Value, first: map<string, Value>,
                           rest: seq<Value>, others: map<string, Value>)
    requires Truthy(subnetId)
    requires first["AvailabilityZoneId" := zone] == first
    requires rt.api(Client("ec2", DefaultSession), "describe_subnets", map["SubnetIds" := PyList([subnetId])]) ==
             Success(PyDict(others["Subnets" := PyList([PyDict(first)] + rest)]))
    ensures Ec2ZoneId(rt, subnetId) == Success(zone)
  {
    assert "AvailabilityZoneId" in first;
  }

  /** Without a subnet id, a subnet search that finds the task's subnet
      gives that subnet's zone id. */
  lemma Ec2ZoneIdFromTaskSubnet(rt: Runtime, vpcId: Value, subnetRange: Value, zone: Value,
                                details: map<string, Value>)
    requires EcsTaskMetadata(rt, PyStr("VPCID")) == Success(vpcId)
    requires EcsTaskMetadata(rt, PyStr("Networks::0::IPv4SubnetCIDRBlock")) == Success(subnetRange)
    requires rt.subnetLookup(vpcId, subnetRange) == Success(PyDict(details))
    requires "AvailabilityZoneId" in details && details["AvailabilityZoneId"] == zone
    ensures Ec2ZoneId(rt) == Success(zone)
  {
  }

  /** Without a subnet id, a run outside ECS raises the metadata OSError. */
  lemma Ec2ZoneIdOutsideEcs(rt: Runtime)
    requires !EnvSet(rt.environ, MetadataV4) && !EnvSet(rt.environ, MetadataV3)
    ensures Ec2ZoneId(rt).Failure? && Ec2ZoneId(rt).error.kind == "OSError"
  {
  }
}
