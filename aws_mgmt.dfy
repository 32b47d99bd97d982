/** Credential set-up and the three store fetchers.  The AWS API itself
    is an oracle: a function from a client, an operation name and its
    keyword arguments to a reply or a raised exception.  A handler object
    is only assigned once, in its constructor, so it is modelled as the
    value its fields end up holding. */
module AwsMgmt {
  import opened Wrappers
  import opened PyValues
  import opened Input
  import opened Common

  /** A boto3 session: the ambient credential chain, or one built from
      explicit keyword arguments. */
  datatype Session = DefaultSession | ExplicitSession(params: map<string, Value>)

  /** `session.client(service)` */
  datatype Client = Client(service: string, session: Session)

  /** The AWS API: a client, an operation and its keyword arguments. */
  type Api = (Client, string, map<string, Value>) -> Result<Value>

  /** `envsubst.expandvars`, applied to an optional attribute. */
  type ExpandVars = Option<string> -> Result<Option<string>>

  const InitSessionName := "EcsConfigComposer@AwsResourceHandlerInit"
  const SessionNameSuffix := "@AwsResourceHandlerInit"

  /** `create_session_from_creds`: the three temporary credentials of an
      AssumeRole reply, plus the region only when it is set. */
  function CreateSessionFromCreds(tmpCreds: Value, region: Option<string>): (r: Result<Session>)
    ensures r.Success? <==>
      KeyPresent("Credentials", tmpCreds) &&
      KeyPresent("AccessKeyId", tmpCreds.entries["Credentials"]) &&
      KeyPresent("SecretAccessKey", tmpCreds.entries["Credentials"]) &&
      KeyPresent("SessionToken", tmpCreds.entries["Credentials"])
    ensures r.Success? ==>
      var creds := tmpCreds.entries["Credentials"].entries;
      r.value.ExplicitSession? &&
      r.value.params.Keys == {"aws_access_key_id", "aws_secret_access_key", "aws_session_token"}
                             + (if IsSet(region) then {"region_name"} else {}) &&
      r.value.params["aws_access_key_id"] == creds["AccessKeyId"] &&
      r.value.params["aws_secret_access_key"] == creds["SecretAccessKey"] &&
      r.value.params["aws_session_token"] == creds["SessionToken"] &&
      (IsSet(region) ==> r.value.params["region_name"] == PyStr(region.value))
  {
    var creds :- GetItem(tmpCreds, "Credentials");
    var accessKey :- GetItem(creds, "AccessKeyId");
    var secretKey :- GetItem(creds, "SecretAccessKey");
    var token :- GetItem(creds, "SessionToken");
    var params := map["aws_access_key_id" := accessKey,
                      "aws_secret_access_key" := secretKey,
                      "aws_session_token" := token];
    Success(ExplicitSession(if IsSet(region) then params["region_name" := PyStr(region.value)] else params))
  }

  /** What the handler constructor does about roles: nothing, or one
      AssumeRole call with these arguments, the resulting session being
      built for this region. */
  datatype AssumePlan = NoAssume | Assume(params: map<string, Value>, region: Option<string>)

  function AssumeRolePlan(roleArn: Option<string>, externalId: Option<string>, region: Option<string>,
                          iam: Option<IamOverrideDef>): (p: AssumePlan)
    ensures p.NoAssume? <==> !IsSet(roleArn) && iam.None?
    ensures p.Assume? ==> {"RoleArn", "RoleSessionName"} <= p.params.Keys <= {"RoleArn", "RoleSessionName", "ExternalId"}
    // a role ARN without an override object: the fixed session name
    ensures IsSet(roleArn) && iam.None? ==>
      p.Assume? && p.params["RoleArn"] == PyStr(roleArn.value) &&
      p.params["RoleSessionName"] == PyStr(InitSessionName) &&
      ("ExternalId" in p.params <==> IsSet(externalId)) &&
      (IsSet(externalId) ==> p.params["ExternalId"] == PyStr(externalId.value)) &&
      p.region == region
    // the override object wins over the ARN argument
    ensures iam.Some? ==>
      p.Assume? && p.params["RoleArn"] == OptStr(iam.value.roleArn) &&
      p.params["RoleSessionName"] == PyStr(Format(iam.value.sessionName) + SessionNameSuffix) &&
      ("ExternalId" in p.params <==> IsSet(iam.value.externalId)) &&
      (IsSet(iam.value.externalId) ==> p.params["ExternalId"] == PyStr(iam.value.externalId.value)) &&
      p.region == iam.value.regionName
  {
    if iam.Some? then
      var o := iam.value;
      var params := map["RoleArn" := OptStr(o.roleArn),
                        "RoleSessionName" := PyStr(Format(o.sessionName) + SessionNameSuffix)];
      Assume(if IsSet(o.externalId) then params["ExternalId" := PyStr(o.externalId.value)] else params,
             o.regionName)
    else if IsSet(roleArn) then
      var params := map["RoleArn" := PyStr(roleArn.value), "RoleSessionName" := PyStr(InitSessionName)];
      Assume(if IsSet(externalId) then params["ExternalId" := PyStr(externalId.value)] else params, region)
    else NoAssume
  }

  /** The override object decides alone: the ARN, external id and region
      arguments are then ignored. */
  lemma OverrideIgnoresArguments(o: IamOverrideDef, roleArn: Option<string>, externalId: Option<string>,
                                 region: Option<string>)
    ensures AssumeRolePlan(roleArn, externalId, region, Some(o)) == AssumeRolePlan(None, None, None, Some(o))
  {
  }

  /** The fields of an `AwsResourceHandler` once its constructor returns. */
  datatype Handler = Handler(session: Session, clientSession: Session)

  /** `AwsResourceHandler.__init__`: both sessions start as default ones;
      an AssumeRole reply replaces the client session. */
  function NewHandler(api: Api, roleArn: Option<string>, externalId: Option<string>, region: Option<string>,
                      iam: Option<IamOverrideDef>): (r: Result<Handler>)
    ensures r.Success? ==> r.value.session == DefaultSession
    ensures AssumeRolePlan(roleArn, externalId, region, iam).NoAssume? ==>
      r == Success(Handler(DefaultSession, DefaultSession))
    ensures AssumeRolePlan(roleArn, externalId, region, iam).Assume? ==>
      var plan := AssumeRolePlan(roleArn, externalId, region, iam);
      var reply := api(Client("sts", DefaultSession), "assume_role", plan.params);
      (reply.Failure? ==> r == Failure(reply.error)) &&
      (reply.Success? ==>
         (r.Success? <==> CreateSessionFromCreds(reply.value, plan.region).Success?) &&
         (r.Success? ==> r.value.clientSession == CreateSessionFromCreds(reply.value, plan.region).value))
  {
    match AssumeRolePlan(roleArn, externalId, region, iam)
    case NoAssume => Success(Handler(DefaultSession, DefaultSession))
    case Assume(params, forRegion) =>
      var tmpCreds :- api(Client("sts", DefaultSession), "assume_role", params);
      var clientSession :- CreateSessionFromCreds(tmpCreds, forRegion);
      Success(Handler(DefaultSession, clientSession))
  }

  /** A fetcher: its handler fields plus `self.client`. */
  datatype Fetcher = Fetcher(handler: Handler, client: Client)

  /** The fetcher constructors: the client is made from the client session. */
  function NewFetcher(api: Api, service: string, roleArn: Option<string>, externalId: Option<string>,
                      region: Option<string>, iam: Option<IamOverrideDef>): (r: Result<Fetcher>)
    ensures r.Success? <==> NewHandler(api, roleArn, externalId, region, iam).Success?
    ensures r.Success? ==>
      r.value.handler == NewHandler(api, roleArn, externalId, region, iam).value &&
      r.value.client == Client(service, r.value.handler.clientSession)
  {
    var h :- NewHandler(api, roleArn, externalId, region, iam);
    Success(Fetcher(h, Client(service, h.clientSession)))
  }

  /** The credential a file's fetcher is built from. */
  datatype Credentials = FromOverride(iam: IamOverrideDef) | FromSession(session: Session) | Ambient

  /** A fetcher for the chosen credential; a session override becomes the
      client session directly, without any AssumeRole call. */
  function FetcherFor(api: Api, service: string, c: Credentials): (r: Result<Fetcher>)
    ensures c.FromSession? ==> r == Success(Fetcher(Handler(DefaultSession, c.session), Client(service, c.session)))
    ensures c.FromOverride? ==> r == NewFetcher(api, service, None, None, None, Some(c.iam))
    ensures c.Ambient? ==> r == Success(Fetcher(Handler(DefaultSession, DefaultSession), Client(service, DefaultSession)))
  {
    match c
    case FromOverride(o) => NewFetcher(api, service, None, None, None, Some(o))
    case FromSession(s) => Success(Fetcher(Handler(DefaultSession, s), Client(service, s)))
    case Ambient => NewFetcher(api, service, None, None, None, None)
  }

  /** The arguments of the SSM `get_parameter` call. */
  function SsmRequest(name: Option<string>): (params: map<string, Value>)
    ensures params.Keys == {"Name", "WithDecryption"}
    ensures params["Name"] == OptStr(name) && params["WithDecryption"] == PyBool(true)
  {
    map["Name" := OptStr(name), "WithDecryption" := PyBool(true)]
  }

  /** What `except self.client.exceptions:` raises once anything in its
      `try` block raises: the clause names the client's exception factory,
      which is not an exception class, so matching against it fails. */
  const BadExceptClause := Raised("TypeError", "catching classes that do not inherit from BaseException is not allowed")

  /** `SsmFetcher.get_content`: the parameter's value, decrypted.  An API
      error or a reply without `Parameter.Value` reaches the broken
      `except` clause and comes out as its TypeError. */
  function SsmGetContent(api: Api, f: Fetcher, name: Option<string>): (r: Result<Value>)
    ensures var reply := api(f.client, "get_parameter", SsmRequest(name));
      (r.Success? <==> reply.Success? && KeyPresent("Parameter", reply.value) &&
                       KeyPresent("Value", reply.value.entries["Parameter"])) &&
      (r.Success? ==> r.value == reply.value.entries["Parameter"].entries["Value"]) &&
      (r.Failure? ==> r.error == BadExceptClause)
  {
    match api(f.client, "get_parameter", SsmRequest(name))
    case Failure(_) => Failure(BadExceptClause)
    case Success(reply) =>
      match GetItem(reply, "Parameter")
      case Failure(_) => Failure(BadExceptClause)
      case Success(parameter) =>
        match GetItem(parameter, "Value")
        case Failure(_) => Failure(BadExceptClause)
        case Success(v) => Success(v)
  }

  /** `re.compile(r"(?:s3://)(?P<bucket>[a-z0-9-.]+)/(?P<key>[\S]+$)")` */
  predicate IsBucketChar(c: char)
  {
    'a' <= c <= 'z' || '0' <= c <= '9' || c == '-' || c == '.'
  }

  /** The characters `\s` matches in a str pattern: those for which
      `str.isspace()` holds. */
  predicate IsSpace(c: char)
  {
    c == ' ' || '\t' <= c <= '\r' || '\U{1c}' <= c <= '\U{1f}' || c == '\U{85}' || c == '\U{a0}'
    || c == '\U{1680}' || '\U{2000}' <= c <= '\U{200a}' || c == '\U{2028}' || c == '\U{2029}'
    || c == '\U{202f}' || c == '\U{205f}' || c == '\U{3000}'
  }

  predicate IsBucket(b: string)
  {
    b != [] && forall j :: 0 <= j < |b| ==> IsBucketChar(b[j])
  }

  predicate IsKey(k: string)
  {
    k != [] && forall j :: 0 <= j < |k| ==> !IsSpace(k[j])
  }

  /** Length of the run of bucket characters at the head of `s`. */
  function BucketRun(s: string): (n: nat)
    ensures n <= |s|
    ensures forall j :: 0 <= j < n ==> IsBucketChar(s[j])
    ensures n < |s| ==> !IsBucketChar(s[n])
  {
    if s == [] || !IsBucketChar(s[0]) then 0 else 1 + BucketRun(s[1..])
  }

  /** `bucket_re.match(uri)`: the bucket and key groups, or None.  The
      key may be followed by one final newline, which `$` lets through. */
  function MatchS3Uri(uri: string): (r: Option<(string, string)>)
    ensures r.Some? ==>
      IsBucket(r.value.0) && IsKey(r.value.1) &&
      (uri == "s3://" + r.value.0 + "/" + r.value.1 || uri == "s3://" + r.value.0 + "/" + r.value.1 + "\n")
  {
    if |uri| < 5 || uri[..5] != "s3://" then None
    else
      var rest := uri[5..];
      var n := BucketRun(rest);
      if n == 0 || n == |rest| || rest[n] != '/' then None
      else
        var bucket := rest[..n];
        var key := rest[n + 1..];
        assert uri == "s3://" + bucket + "/" + key;
        if IsKey(key) then Some((bucket, key))
        else if |key| >= 2 && key[|key| - 1] == '\n' && IsKey(key[..|key| - 1]) then
          assert key == key[..|key| - 1] + "\n";
          Some((bucket, key[..|key| - 1]))
        else None
  }

  lemma BucketRunOf(b: string, s: string)
    requires IsBucket(b) && s != [] && s[0] == '/'
    ensures BucketRun(b + s) == |b|
  {
    if |b| == 1 {
      assert (b + s)[1..] == s;
    } else {
      assert (b + s)[1..] == b[1..] + s;
      BucketRunOf(b[1..], s);
    }
  }

  /** Every URI made of a bucket and a key matches, giving back that bucket
      and key, with or without one final newline. */
  lemma MatchS3UriComplete(bucket: string, key: string)
    requires IsBucket(bucket) && IsKey(key)
    ensures MatchS3Uri("s3://" + bucket + "/" + key) == Some((bucket, key))
    ensures MatchS3Uri("s3://" + bucket + "/" + key + "\n") == Some((bucket, key))
  {
    MatchS3UriPlain(bucket, key);
    MatchS3UriNewline(bucket, key);
  }

  lemma MatchS3UriPlain(bucket: string, key: string)
    requires IsBucket(bucket) && IsKey(key)
    ensures MatchS3Uri("s3://" + bucket + "/" + key) == Some((bucket, key))
  {
    var u := "s3://" + bucket + "/" + key;
    assert u[5..] == bucket + ("/" + key);
    BucketRunOf(bucket, "/" + key);
    assert u[5..][..|bucket|] == bucket;
    assert u[5..][|bucket| + 1..] == key;
  }

  lemma MatchS3UriNewline(bucket: string, key: string)
    requires IsBucket(bucket) && IsKey(key)
    ensures MatchS3Uri("s3://" + bucket + "/" + key + "\n") == Some((bucket, key))
  {
    var v := "s3://" + bucket + "/" + key + "\n";
    assert v[5..] == bucket + ("/" + key + "\n");
    BucketRunOf(bucket, "/" + key + "\n");
    assert v[5..][..|bucket|] == bucket;
    var k := v[5..][|bucket| + 1..];
    assert k == key + "\n";
    assert !IsKey(k) by { assert IsSpace(k[|k| - 1]); }
    assert k[..|k| - 1] == key;
  }

  /** The arguments of the S3 `get_object` call. */
  function S3Request(bucket: Option<string>, key: Option<string>): (params: map<string, Value>)
    ensures params.Keys == {"Bucket", "Key"}
    ensures params["Bucket"] == OptStr(bucket) && params["Key"] == OptStr(key)
  {
    map["Bucket" := OptStr(bucket), "Key" := OptStr(key)]
  }

  /** `S3Fetcher.get_content`: a set URI must match and then overrides the
      bucket and key arguments; the reply's `Body` stream is returned. */
  function S3GetContent(api: Api, f: Fetcher, uri: Option<string>, bucket: Option<string>,
                        key: Option<string>): (r: Result<Value>)
    ensures IsSet(uri) && MatchS3Uri(uri.value).None? ==> r.Failure? && r.error.kind == "AttributeError"
    ensures IsSet(uri) && MatchS3Uri(uri.value).Some? ==>
      var m := MatchS3Uri(uri.value).value;
      r == S3GetObject(api, f, S3Request(Some(m.0), Some(m.1)))
    ensures !IsSet(uri) ==> r == S3GetObject(api, f, S3Request(bucket, key))
  {
    if IsSet(uri) then
      match MatchS3Uri(uri.value)
      case None => Failure(Raised("AttributeError", "'NoneType' object has no attribute 'groups'"))
      case Some(m) => S3GetObject(api, f, S3Request(Some(m.0), Some(m.1)))
    else S3GetObject(api, f, S3Request(bucket, key))
  }

  function S3GetObject(api: Api, f: Fetcher, params: map<string, Value>): (r: Result<Value>)
    ensures var reply := api(f.client, "get_object", params);
      (r.Success? <==> reply.Success? && KeyPresent("Body", reply.value)) &&
      (r.Success? ==> r.value == reply.value.entries["Body"])
  {
    var reply :- api(f.client, "get_object", params);
    GetItem(reply, "Body")
  }

  /** The arguments of the Secrets Manager `get_secret_value` call: the
      version fields only when they are set. */
  function SecretRequest(secretId: Option<string>, s: SecretDef): (params: map<string, Value>)
    ensures params.Keys == {"SecretId"} + (if IsSet(s.versionId) then {"VersionId"} else {})
                                        + (if IsSet(s.versionStage) then {"VersionStage"} else {})
    ensures params["SecretId"] == OptStr(secretId)
    ensures IsSet(s.versionId) ==> params["VersionId"] == PyStr(s.versionId.value)
    ensures IsSet(s.versionStage) ==> params["VersionStage"] == PyStr(s.versionStage.value)
  {
    var p0 := map["SecretId" := OptStr(secretId)];
    var p1 := if IsSet(s.versionId) then p0["VersionId" := PyStr(s.versionId.value)] else p0;
    if IsSet(s.versionStage) then p1["VersionStage" := PyStr(s.versionStage.value)] else p1
  }

  /** `SecretFetcher.get_content`: the secret id goes through `expandvars`
      before the `try`, and the reply's `SecretString` is returned; inside
      the `try`, any error becomes the TypeError of the broken `except`. */
  function SecretGetContent(api: Api, expand: ExpandVars, f: Fetcher, s: SecretDef): (r: Result<Value>)
    ensures expand(Some(s.secretId)).Failure? ==> r == Failure(expand(Some(s.secretId)).error)
    ensures expand(Some(s.secretId)).Success? ==>
      var reply := api(f.client, "get_secret_value", SecretRequest(expand(Some(s.secretId)).value, s));
      (r.Success? <==> reply.Success? && KeyPresent("SecretString", reply.value)) &&
      (r.Success? ==> r.value == reply.value.entries["SecretString"]) &&
      (r.Failure? ==> r.error == BadExceptClause)
  {
    var secretId :- expand(Some(s.secretId));
    match api(f.client, "get_secret_value", SecretRequest(secretId, s))
    case Failure(_) => Failure(BadExceptClause)
    case Success(reply) =>
      match GetItem(reply, "SecretString")
      case Failure(_) => Failure(BadExceptClause)
      case Success(v) => Success(v)
  }
}
