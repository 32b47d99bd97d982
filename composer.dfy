/** The older revision that the job runner drives: its `File` handler,
    the bootstrap that loads the job document (`init_config`) and the job
    loop (`start_jobs`).  Its fetchers are the same as the current ones
    with no session override. */
module Composer {
  import opened Wrappers
  import opened PyValues
  import opened Input
  import opened OrderedMaps
  import opened Paths
  import B64 = Base64
  import opened Utf8
  import opened Common
  import opened Disk
  import opened AwsMgmt
  import opened Jinja2Filters
  import opened FilesMgmt

  /** What a file job of this revision consults besides the filesystem. */
  datatype Runner = Runner(
    api: Api,
    expand: ExpandVars,
    /** `input.Model(...).parse_obj(config)` */
    parseModel: Value -> Result<Model>,
    /** the working directory relative paths are opened from */
    cwd: string)

  // ---------------------------------------------------------- file steps

  /** `handle_sources(iam_override)`: a URL source is accepted and does
      nothing; the others are fetched with the source's own override, else
      the job's, else the ambient credentials. */
  function LegacySourcesHandled(m: Machine, s: SourceDef, jobOverride: Option<IamOverrideDef>, run: Runner): (r: Step<Machine>)
    ensures SelectSource(s).UseUrl? || SelectSource(s).UseNone? ==> r == Step(m, Pass)
    ensures SelectSource(s).UseSsm? ==> r == ContentSet(m, FetchSsm(run.api, run.expand, SelectSource(s).ssm, jobOverride, None))
    ensures SelectSource(s).UseS3? ==> r == ContentSet(m, FetchS3(run.api, run.expand, SelectSource(s).s3, jobOverride, None))
    ensures SelectSource(s).UseSecret? ==>
      r == ContentSet(m, FetchSecret(run.api, run.expand, SelectSource(s).secret, jobOverride, None))
  {
    match SelectSource(s)
    case UseUrl(_) => Step(m, Pass)
    case UseSsm(ssm) => ContentSet(m, FetchSsm(run.api, run.expand, ssm, jobOverride, None))
    case UseS3(s3) => ContentSet(m, FetchS3(run.api, run.expand, s3, jobOverride, None))
    case UseSecret(secret) => ContentSet(m, FetchSecret(run.api, run.expand, secret, jobOverride, None))
    case UseNone => Step(m, Pass)
  }

  /** `write_content(decode)`: a str is written as text, or, when decoding
      base64, the file is opened in binary mode first and then receives the
      decoded bytes, so a decoding error leaves it empty; a stream's bytes
      are written; anything else writes nothing.  A file `open` refuses
      raises its error and nothing changes. */
  function LegacyWritten(m: Machine, cwd: string, decode: bool): (r: Step<Machine>)
    ensures r.state.file == m.file && r.state.fs.dirs == m.fs.dirs && r.state.fs.log == m.fs.log
    ensures m.fs.files.Keys <= r.state.fs.files.Keys
    ensures !m.file.content.PyStr? && !m.file.content.PyStream? ==> r == Step(m, Pass)
    ensures m.file.content.PyStr? || m.file.content.PyStream? ==>
      var path := m.file.def.path;
      !(path.Some? && path.value != "" && Writable(m.fs, Abspath(cwd, path.value))) ==> r.state == m && r.out.Fail?
    ensures m.file.def.path.Some? && m.file.def.path.value != "" && Writable(m.fs, Abspath(cwd, m.file.def.path.value)) ==>
      var a := Abspath(cwd, m.file.def.path.value);
      (m.file.content.PyStream? ==> r.out == Pass && r.state.fs.files == m.fs.files[a := Bytes(m.file.content.body)]) &&
      (m.file.content.PyStr? && !(decode && IsBase64(m.file)) ==>
         r.out == Pass && r.state.fs.files == m.fs.files[a := Text(m.file.content.s)]) &&
      (m.file.content.PyStr? && decode && IsBase64(m.file) ==>
         var data := B64.B64Decode(m.file.content.s);
         (data.Success? ==> r.out == Pass && r.state.fs.files == m.fs.files[a := Bytes(data.value)]) &&
         (data.Failure? ==> r.out == Fail(data.error) && r.state.fs.files == m.fs.files[a := Bytes([])]))
  {
    var path := m.file.def.path;
    match m.file.content
    case PyStr(s) =>
      if decode && IsBase64(m.file) then
        var truncated := WriteFile(m.fs, cwd, path, Bytes([]));
        if truncated.out.Fail? then Step(m, truncated.out)
        else match B64.B64Decode(s)
          case Failure(e) => Step(m.(fs := truncated.state), Fail(e))
          case Success(data) =>
            var a := Abspath(cwd, path.value);
            WriteKeepsWritable(m.fs, a, Bytes([]));
            var w := WriteFile(truncated.state, cwd, path, Bytes(data));
            assert w.state.files == m.fs.files[a := Bytes(data)];
            Step(m.(fs := w.state), w.out)
      else
        var w := WriteFile(m.fs, cwd, path, Text(s));
        Step(m.(fs := w.state), w.out)
    case PyStream(body) =>
      var w := WriteFile(m.fs, cwd, path, Bytes(body));
      Step(m.(fs := w.state), w.out)
    case _ => Step(m, Pass)
  }

  /** `handler(iam_override)`: a source without content is fetched and
      written undecoded, content without a source is written decoded, and
      the permissions are applied in every case. */
  function LegacyHandled(m: Machine, jobOverride: Option<IamOverrideDef>, run: Runner): (r: Step<Machine>)
    ensures r.state.file.def == m.file.def
    ensures r.state.fs.dirs == m.fs.dirs && m.fs.files.Keys <= r.state.fs.files.Keys && m.fs.log <= r.state.fs.log
  {
    var s1 :=
      if m.file.def.source.Some? && !Truthy(m.file.content) then
        var h := LegacySourcesHandled(m, m.file.def.source.value, jobOverride, run);
        if h.out.Fail? then h else LegacyWritten(h.state, run.cwd, false)
      else Step(m, Pass);
    if s1.out.Fail? then s1 else
    var s2 := if m.file.def.source.None? && Truthy(s1.state.file.content) then LegacyWritten(s1.state, run.cwd, true)
              else Step(s1.state, Pass);
    if s2.out.Fail? then s2 else
    var perms := Permissions(s2.state.fs, m.file.def);
    Step(s2.state.(fs := perms.state), perms.out)
  }

  // ------------------------------------------------------ handler lemmas

  /** Inline content without a source, base64-encoded: the decoded bytes
      are written, then chmod and chown run. */
  lemma LegacyContentDecoded(d: FileDef, fs: Fs, jobOverride: Option<IamOverrideDef>, run: Runner)
    requires d.source.None? && IsSet(d.content) && d.encoding == Some(Encoding.Base64)
    requires d.path.Some? && d.mode.Some?
    requires B64.B64Decode(d.content.value).Success?
    requires d.path.value != "" && Writable(fs, Abspath(run.cwd, d.path.value))
    ensures LegacyHandled(Machine(Initial(d), fs), jobOverride, run) ==
            Step(Machine(Initial(d), fs.(files := fs.files[Abspath(run.cwd, d.path.value) := Bytes(B64.B64Decode(d.content.value).value)],
                                         log := fs.log + PermissionLog(d))), Pass)
  {
    var m := Machine(Initial(d), fs);
    var w := LegacyWritten(m, run.cwd, true);
    assert w.out == Pass &&
           w.state.fs.files == fs.files[Abspath(run.cwd, d.path.value) := Bytes(B64.B64Decode(d.content.value).value)];
  }

  /** A fetched value is written as it came, without base64 decoding, even
      when the file declares base64. */
  lemma LegacyFetchedNotDecoded(d: FileDef, ssm: SsmDef, v: string, fs: Fs, jobOverride: Option<IamOverrideDef>,
                                run: Runner)
    requires d.source == Some(SourceDef(ssm := Some(ssm))) && !IsSet(d.content)
    requires d.path.Some? && d.mode.Some?
    requires FetchSsm(run.api, run.expand, ssm, jobOverride, None) == Success(PyStr(v))
    requires d.path.value != "" && Writable(fs, Abspath(run.cwd, d.path.value))
    ensures var r := LegacyHandled(Machine(Initial(d), fs), jobOverride, run);
      r.out == Pass && r.state.fs.files == fs.files[Abspath(run.cwd, d.path.value) := Text(v)] &&
      r.state.fs.log == fs.log + PermissionLog(d)
  {
    var m := Machine(Initial(d), fs);
    assert SelectSource(d.source.value) == UseSsm(ssm);
    var h := LegacySourcesHandled(m, d.source.value, jobOverride, run);
    assert h == Step(m.(file := m.file.(content := PyStr(v))), Pass);
    var w := LegacyWritten(h.state, run.cwd, false);
    assert w.out == Pass && w.state.fs.files == fs.files[Abspath(run.cwd, d.path.value) := Text(v)];
    assert w.state.fs.log == fs.log && w.state.file.def == d;
    var perms := Permissions(w.state.fs, d);
    assert LegacyHandled(m, jobOverride, run) == Step(w.state.(fs := perms.state), perms.out);
  }

  /** With both a source and content, or with neither, or with a URL
      source, nothing is written: only the permissions are applied. */
  lemma LegacyNoWrite(d: FileDef, fs: Fs, jobOverride: Option<IamOverrideDef>, run: Runner)
    requires (d.source.Some? && IsSet(d.content)) || (d.source.None? && !IsSet(d.content)) ||
             (d.source.Some? && d.source.value.url.Some? && d.content.None?)
    requires d.path.Some? && d.mode.Some?
    ensures LegacyHandled(Machine(Initial(d), fs), jobOverride, run) ==
            Step(Machine(Initial(d), fs.(log := fs.log + PermissionLog(d))), Pass)
  {
    var m := Machine(Initial(d), fs);
    if d.source.Some? && !IsSet(d.content) {
      assert SelectSource(d.source.value).UseUrl?;
      assert LegacyWritten(m, run.cwd, false) == Step(m, Pass);
    }
  }

  // ---------------------------------------------------------- bootstrap

  /** What `init_config` consults. */
  datatype Boot = Boot(
    environ: Environ,
    cwd: string,
    api: Api,
    /** reading a text file */
    readText: string -> Result<string>,
    /** `yaml.load`; malformed input raises a YAMLError */
    yamlLoad: Value -> Result<Value>,
    jsonLoads: Value -> Result<Value>)

  /** The configuration sources, in the order `init_config` tests them. */
  datatype BootSource = BootSsm(name: string) | BootS3(uri: string) | BootFile(path: string) | BootRaw(raw: Value)
                      | BootEnvVar(variable: string) | BootNone

  function BootPresent(raw: Value, filePath: Option<string>, envVar: Option<string>, ssmParameter: Option<string>,
                       s3Config: Option<string>): seq<bool>
  {
    [IsSet(ssmParameter), IsSet(s3Config), IsSet(filePath), Truthy(raw), IsSet(envVar)]
  }

  function BootRank(b: BootSource): nat
  {
    match b
    case BootSsm(_) => 0
    case BootS3(_) => 1
    case BootFile(_) => 2
    case BootRaw(_) => 3
    case BootEnvVar(_) => 4
    case BootNone => 5
  }

  /** The first set source, in the order ssm, s3, file, raw, env_var. */
  function SelectBootSource(raw: Value, filePath: Option<string>, envVar: Option<string>, ssmParameter: Option<string>,
                            s3Config: Option<string>): (b: BootSource)
    ensures var present := BootPresent(raw, filePath, envVar, ssmParameter, s3Config);
      (b.BootNone? <==> forall j :: 0 <= j < 5 ==> !present[j]) &&
      (!b.BootNone? ==> present[BootRank(b)] && forall j :: 0 <= j < BootRank(b) ==> !present[j])
    ensures b.BootSsm? ==> ssmParameter == Some(b.name)
    ensures b.BootS3? ==> s3Config == Some(b.uri)
    ensures b.BootFile? ==> filePath == Some(b.path)
    ensures b.BootRaw? ==> raw == b.raw
    ensures b.BootEnvVar? ==> envVar == Some(b.variable)
  {
    var present := BootPresent(raw, filePath, envVar, ssmParameter, s3Config);
    if IsSet(ssmParameter) then assert present[0]; BootSsm(ssmParameter.value)
    else if IsSet(s3Config) then assert present[1]; BootS3(s3Config.value)
    else if IsSet(filePath) then assert present[2]; BootFile(filePath.value)
    else if Truthy(raw) then assert present[3]; BootRaw(raw)
    else if IsSet(envVar) then assert present[4]; BootEnvVar(envVar.value)
    else BootNone
  }

  const RoleArnVariable := "CONFIG_IAM_ROLE_ARN"
  const ExternalIdVariable := "CONFIG_IAM_EXTERNAL_ID"

  /** The role and external id the bootstrap fetchers use: for an ssm or
      s3 bootstrap the role variable, when it exists, replaces the role
      argument, and the external id is always the variable's value or None. */
  function BootCredentials(ssmParameter: Option<string>, s3Config: Option<string>, roleArn: Option<string>,
                           externalId: Option<string>, environ: Environ): (r: (Option<string>, Option<string>))
    ensures IsSet(ssmParameter) || IsSet(s3Config) ==>
      (RoleArnVariable in environ ==> r.0 == Some(environ[RoleArnVariable])) &&
      (RoleArnVariable !in environ ==> r.0 == roleArn) &&
      (ExternalIdVariable in environ ==> r.1 == Some(environ[ExternalIdVariable])) &&
      (ExternalIdVariable !in environ ==> r.1 == None)
    ensures !(IsSet(ssmParameter) || IsSet(s3Config)) ==> r == (roleArn, externalId)
  {
    if IsSet(ssmParameter) || IsSet(s3Config) then
      (if RoleArnVariable in environ then Some(environ[RoleArnVariable]) else roleArn,
       if ExternalIdVariable in environ then Some(environ[ExternalIdVariable]) else None)
    else (roleArn, externalId)
  }

  /** `.read()` on an S3 body: the stream's bytes. */
  function ReadBody(body: Value): (r: Result<Value>)
    ensures body.PyStream? <==> r.Success?
    ensures r.Success? ==> r.value == PyBytes(body.body)
  {
    match body
    case PyStream(b) => Success(PyBytes(b))
    case _ => Failure(Raised("AttributeError", "object has no attribute 'read'"))
  }

  /** The configuration text from the chosen source. */
  function LoadContent(b: BootSource, role: Option<string>, externalId: Option<string>, boot: Boot): (r: Result<Value>)
    ensures b.BootNone? ==> r == Failure(Raised("Exception", "No input source was provided"))
    ensures b.BootRaw? ==> r == Success(b.raw)
    ensures b.BootEnvVar? ==> r == Success(if b.variable in boot.environ then PyStr(boot.environ[b.variable]) else PyNone)
  {
    match b
    case BootSsm(name) =>
      var f :- NewFetcher(boot.api, "ssm", role, externalId, None, None);
      SsmGetContent(boot.api, f, Some(name))
    case BootS3(uri) =>
      var f :- NewFetcher(boot.api, "s3", role, externalId, None, None);
      var body :- S3GetContent(boot.api, f, Some(uri), None, None);
      ReadBody(body)
    case BootFile(p) =>
      var text :- boot.readText(Abspath(boot.cwd, p));
      Success(PyStr(text))
    case BootRaw(v) => Success(v)
    case BootEnvVar(n) => Success(if n in boot.environ then PyStr(boot.environ[n]) else PyNone)
    case BootNone => Failure(Raised("Exception", "No input source was provided"))
  }

  /** YAML first; JSON only when the YAML parser rejects the text. */
  function ParseConfig(content: Value, boot: Boot): (r: Result<Value>)
    ensures boot.yamlLoad(content).Success? ==> r == boot.yamlLoad(content)
    ensures boot.yamlLoad(content).Failure? && boot.yamlLoad(content).error.kind == "YAMLError" ==>
      r == boot.jsonLoads(content)
    ensures boot.yamlLoad(content).Failure? && boot.yamlLoad(content).error.kind != "YAMLError" ==>
      r == boot.yamlLoad(content)
  {
    match boot.yamlLoad(content)
    case Success(v) => Success(v)
    case Failure(e) => if e.kind == "YAMLError" then boot.jsonLoads(content) else Failure(e)
  }

  /** `init_config(raw, file_path, env_var, ssm_parameter, s3_config,
      role_arn, external_id)` */
  function InitConfig(raw: Value, filePath: Option<string>, envVar: Option<string>, ssmParameter: Option<string>,
                      s3Config: Option<string>, roleArn: Option<string>, externalId: Option<string>,
                      boot: Boot): (r: Result<Value>)
    ensures var content := LoadContent(SelectBootSource(raw, filePath, envVar, ssmParameter, s3Config),
                                       BootCredentials(ssmParameter, s3Config, roleArn, externalId, boot.environ).0,
                                       BootCredentials(ssmParameter, s3Config, roleArn, externalId, boot.environ).1, boot);
      (content.Failure? ==> r == Failure(content.error)) &&
      (content.Success? && !Truthy(content.value) ==>
         r == Failure(Raised("ImportError", "Failed to import a configuration content"))) &&
      (content.Success? && Truthy(content.value) ==> r == ParseConfig(content.value, boot))
  {
    var creds := BootCredentials(ssmParameter, s3Config, roleArn, externalId, boot.environ);
    var content :- LoadContent(SelectBootSource(raw, filePath, envVar, ssmParameter, s3Config), creds.0, creds.1, boot);
    if !Truthy(content) then Failure(Raised("ImportError", "Failed to import a configuration content"))
    else ParseConfig(content, boot)
  }

  /** With no source at all the bootstrap raises "No input source was
      provided". */
  lemma InitConfigWithoutSource(roleArn: Option<string>, externalId: Option<string>, boot: Boot)
    ensures InitConfig(PyNone, None, None, None, None, roleArn, externalId, boot) ==
            Failure(Raised("Exception", "No input source was provided"))
  {
    assert SelectBootSource(PyNone, None, None, None, None) == BootNone;
  }

  /** An SSM parameter hides the raw input, the file and the environment
      variable. */
  lemma InitConfigSsmWins(raw: Value, filePath: Option<string>, envVar: Option<string>, ssmParameter: Option<string>,
                          roleArn: Option<string>, externalId: Option<string>, boot: Boot)
    requires IsSet(ssmParameter)
    ensures InitConfig(raw, filePath, envVar, ssmParameter, None, roleArn, externalId, boot) ==
            InitConfig(PyNone, None, None, ssmParameter, None, roleArn, externalId, boot)
  {
    assert SelectBootSource(raw, filePath, envVar, ssmParameter, None) == BootSsm(ssmParameter.value);
    assert SelectBootSource(PyNone, None, None, ssmParameter, None) == BootSsm(ssmParameter.value);
  }

  /** An unset or empty environment variable as the only source is an
      ImportError. */
  lemma InitConfigEmptyEnvVar(roleArn: Option<string>, externalId: Option<string>, boot: Boot, v: string)
    requires v != "" && (v !in boot.environ || boot.environ[v] == "")
    ensures InitConfig(PyNone, None, Some(v), None, None, roleArn, externalId, boot) ==
            Failure(Raised("ImportError", "Failed to import a configuration content"))
  {
    assert SelectBootSource(PyNone, None, Some(v), None, None) == BootEnvVar(v);
  }

  // ------------------------------------------------------------ job loop

  /** The definitions `start_jobs` hands to the handlers: each entry's
      definition with its path set to its key, in map order. */
  function PreparedDefs(files: Entries<FileDef>): (r: seq<FileDef>)
    ensures |r| == |files|
    ensures forall i :: 0 <= i < |files| ==> r[i] == files[i].1.(path := Some(files[i].0))
  {
    seq(|files|, i requires 0 <= i < |files| => files[i].1.(path := Some(files[i].0)))
  }

  /** The handlers run one after the other, in order, each with the job
      override; the first exception stops the run. */
  function RunJobs(fs: Fs, defs: seq<FileDef>, jobOverride: Option<IamOverrideDef>, run: Runner): (r: Step<Fs>)
    ensures r.state.dirs == fs.dirs && fs.files.Keys <= r.state.files.Keys && fs.log <= r.state.log
    ensures defs != [] ==>
      var first := LegacyHandled(Machine(Initial(defs[0]), fs), jobOverride, run);
      first.out.Fail? ==> r == Step(first.state.fs, first.out)
    decreases |defs|
  {
    if defs == [] then Step(fs, Pass)
    else
      var s := LegacyHandled(Machine(Initial(defs[0]), fs), jobOverride, run);
      if s.out.Fail? then Step(s.state.fs, s.out) else RunJobs(s.state.fs, defs[1..], jobOverride, run)
  }

  /** A run that completes has run every handler: the permission commands
      of every file are in the log, in map order. */
  lemma {:induction false} RunJobsLogsEveryFile(fs: Fs, defs: seq<FileDef>, jobOverride: Option<IamOverrideDef>,
                                                run: Runner)
    requires forall i :: 0 <= i < |defs| ==> defs[i].path.Some? && defs[i].mode.Some?
    ensures var r := RunJobs(fs, defs, jobOverride, run);
      r.out.Pass? ==>
        (|r.state.log| == |fs.log| + 2 * |defs| && r.state.log[..|fs.log|] == fs.log &&
         forall i :: 0 <= i < |defs| ==> r.state.log[|fs.log| + 2 * i] == ["chmod", defs[i].mode.value, defs[i].path.value])
    decreases |defs|, 1
  {
    if defs != [] && RunJobs(fs, defs, jobOverride, run).out.Pass? {
      var next := RunJobsFirstStep(fs, defs, jobOverride, run);
      RunJobsLogsAfter(fs.log, next, defs, jobOverride, run);
    }
  }

  /** A run that passes its first handler continues from the state that
      handler left, whose log has gained that file's permission commands. */
  lemma RunJobsFirstStep(fs: Fs, defs: seq<FileDef>, jobOverride: Option<IamOverrideDef>, run: Runner) returns (next: Fs)
    requires defs != [] && defs[0].path.Some? && defs[0].mode.Some?
    requires RunJobs(fs, defs, jobOverride, run).out.Pass?
    ensures RunJobs(fs, defs, jobOverride, run) == RunJobs(next, defs[1..], jobOverride, run)
    ensures next.log == fs.log + PermissionLog(defs[0])
  {
    var s := LegacyHandled(Machine(Initial(defs[0]), fs), jobOverride, run);
    LegacyLogGrowth(Machine(Initial(defs[0]), fs), jobOverride, run);
    next := s.state.fs;
  }

  /** The rest of the run once the first handler has logged. */
  lemma {:induction false} RunJobsLogsAfter(before: seq<seq<string>>, fs: Fs, defs: seq<FileDef>,
                                            jobOverride: Option<IamOverrideDef>, run: Runner)
    requires defs != [] && forall i :: 0 <= i < |defs| ==> defs[i].path.Some? && defs[i].mode.Some?
    requires fs.log == before + PermissionLog(defs[0])
    ensures var r := RunJobs(fs, defs[1..], jobOverride, run);
      r.out.Pass? ==>
        (|r.state.log| == |before| + 2 * |defs| && r.state.log[..|before|] == before &&
         forall i :: 0 <= i < |defs| ==> r.state.log[|before| + 2 * i] == ["chmod", defs[i].mode.value, defs[i].path.value])
    decreases |defs|, 0
  {
    RunJobsLogsEveryFile(fs, defs[1..], jobOverride, run);
    var r := RunJobs(fs, defs[1..], jobOverride, run);
    if r.out.Pass? {
      LogsShift(before, fs.log, r.state.log, defs, defs[1..]);
    }
  }

  /** The log of one handler followed by the logs of the rest. */
  lemma LogsShift(before: seq<seq<string>>, step: seq<seq<string>>, after: seq<seq<string>>,
                  defs: seq<FileDef>, rest: seq<FileDef>)
    requires defs != [] && rest == defs[1..]
    requires forall i :: 0 <= i < |defs| ==> defs[i].path.Some? && defs[i].mode.Some?
    requires step == before + PermissionLog(defs[0])
    requires |after| == |step| + 2 * |rest| && after[..|step|] == step
    requires forall i :: 0 <= i < |rest| ==> after[|step| + 2 * i] == ["chmod", rest[i].mode.value, rest[i].path.value]
    ensures |after| == |before| + 2 * |defs| && after[..|before|] == before
    ensures forall i :: 0 <= i < |defs| ==> after[|before| + 2 * i] == ["chmod", defs[i].mode.value, defs[i].path.value]
  {
    var n := |before|;
    assert after[..n] == after[..n + 2][..n];
    forall i | 0 <= i < |defs|
      ensures after[n + 2 * i] == ["chmod", defs[i].mode.value, defs[i].path.value]
    {
      if i == 0 {
        assert after[n] == after[..n + 2][n];
      } else {
        assert rest[i - 1] == defs[i];
        assert after[n + 2 * i] == after[|step| + 2 * (i - 1)];
      }
    }
  }

  /** A handler that completes appends exactly its chmod and chown. */
  lemma LegacyLogGrowth(m: Machine, jobOverride: Option<IamOverrideDef>, run: Runner)
    requires m.file.def.path.Some? && m.file.def.mode.Some?
    ensures var r := LegacyHandled(m, jobOverride, run);
      r.out.Pass? ==> r.state.fs.log == m.fs.log + PermissionLog(m.file.def)
  {
  }

  /** An older-revision `File` object. */
  class LegacyFile {
    var def: FileDef
    var content: Value

    function State(): FileState
      reads this
    {
      FileState(def, content, None, None)
    }

    /** `File().parse_obj(file)` */
    constructor(d: FileDef)
      ensures State() == Initial(d)
    {
      def := d;
      content := OptStr(d.content);
    }

    /** `file_def.path = file_path` */
    method SetPath(p: string)
      modifies this
      ensures State() == old(State()).(def := old(def).(path := Some(p)))
    {
      def := def.(path := Some(p));
    }

    method Handler(jobOverride: Option<IamOverrideDef>, run: Runner, disk: Disk) returns (out: Outcome)
      modifies this, disk
      ensures Step(Machine(State(), disk.State()), out) == LegacyHandled(old(Machine(State(), disk.State())), jobOverride, run)
    {
      out := Pass;
      if def.source.Some? && !Truthy(content) {
        out := HandleSources(jobOverride, run, disk);
        if out.Fail? {
          return;
        }
        out := WriteContent(run.cwd, false, disk);
        if out.Fail? {
          return;
        }
      }
      if def.source.None? && Truthy(content) {
        out := WriteContent(run.cwd, true, disk);
        if out.Fail? {
          return;
        }
      }
      out := SetUnixSettings(disk);
    }

    method HandleSources(jobOverride: Option<IamOverrideDef>, run: Runner, disk: Disk) returns (out: Outcome)
      requires def.source.Some?
      modifies this
      ensures Step(Machine(State(), disk.State()), out) ==
              LegacySourcesHandled(old(Machine(State(), disk.State())), old(def.source.value), jobOverride, run)
    {
      match SelectSource(def.source.value)
      case UseUrl(_) => out := Pass;
      case UseSsm(ssm) => out := Assign(FetchSsm(run.api, run.expand, ssm, jobOverride, None));
      case UseS3(s3) => out := Assign(FetchS3(run.api, run.expand, s3, jobOverride, None));
      case UseSecret(secret) => out := Assign(FetchSecret(run.api, run.expand, secret, jobOverride, None));
      case UseNone => out := Pass;
    }

    method Assign(fetched: Result<Value>) returns (out: Outcome)
      modifies this
      ensures fetched.Success? ==> State() == old(State()).(content := fetched.value) && out == Pass
      ensures fetched.Failure? ==> State() == old(State()) && out == Fail(fetched.error)
    {
      match fetched
      case Success(v) =>
        content := v;
        out := Pass;
      case Failure(e) =>
        out := Fail(e);
    }

    method SetUnixSettings(disk: Disk) returns (out: Outcome)
      modifies disk
      ensures Step(disk.State(), out) == Permissions(old(disk.State()), def)
    {
      out := disk.Run(ChmodArgv(def));
      if out.Fail? {
        return;
      }
      out := disk.Run(ChownArgv(def));
    }

    method WriteContent(cwd: string, decode: bool, disk: Disk) returns (out: Outcome)
      modifies disk
      ensures Step(Machine(State(), disk.State()), out) == LegacyWritten(old(Machine(State(), disk.State())), cwd, decode)
    {
      match content
      case PyStr(s) =>
        if decode && IsBase64(State()) {
          out := WriteDecoded(cwd, s, disk);
        } else {
          out := disk.Write(cwd, def.path, Text(s));
        }
      case PyStream(body) =>
        out := disk.Write(cwd, def.path, Bytes(body));
      case _ =>
        out := Pass;
    }

    /** The base64 branch: open in binary mode, which truncates, then
        decode, then write the bytes. */
    method WriteDecoded(cwd: string, s: string, disk: Disk) returns (out: Outcome)
      requires content == PyStr(s) && IsBase64(State())
      modifies disk
      ensures Step(Machine(State(), disk.State()), out) == LegacyWritten(old(Machine(State(), disk.State())), cwd, true)
    {
      out := disk.Write(cwd, def.path, Bytes([]));
      if out.Fail? {
        return;
      }
      var data := B64.B64Decode(s);
      if data.Failure? {
        return Fail(data.error);
      }
      WriteKeepsWritable(old(disk.State()), Abspath(cwd, def.path.value), Bytes([]));
      out := disk.Write(cwd, def.path, Bytes(data.value));
    }
  }

  /** The job the document describes, or why there is none: KeyError
      unless "files" is set, then whatever the parser raises. */
  function ParsedJob(config: Value, run: Runner): (r: Result<Model>)
    ensures !KeyIsSet("files", config) ==> r == Failure(Raised("KeyError", "Missing required files from configuration input"))
    ensures KeyIsSet("files", config) ==> r == run.parseModel(config)
  {
    if !KeyIsSet("files", config) then Failure(Raised("KeyError", "Missing required files from configuration input"))
    else run.parseModel(config)
  }

  /** `start_jobs(config)`: one fresh `File` per entry, with its path set
      to its key, then every handler in map order with the job's override. */
  method StartJobs(config: Value, run: Runner, disk: Disk) returns (out: Outcome, files: seq<LegacyFile>)
    modifies disk
    ensures ParsedJob(config, run).Failure? ==>
      out == Fail(ParsedJob(config, run).error) && files == [] && disk.State() == old(disk.State())
    ensures ParsedJob(config, run).Success? && ParsedJob(config, run).value.files.None? ==>
      out.Fail? && out.error.kind == "AttributeError" && files == [] && disk.State() == old(disk.State())
    ensures ParsedJob(config, run).Success? && ParsedJob(config, run).value.files.Some? ==>
      var job := ParsedJob(config, run).value;
      |files| == |job.files.value| &&
      (forall i :: 0 <= i < |files| ==> files[i].def == PreparedDefs(job.files.value)[i]) &&
      Step(disk.State(), out) == RunJobs(old(disk.State()), PreparedDefs(job.files.value), job.iamOverride, run)
  {
    files := [];
    var parsed := ParsedJob(config, run);
    if parsed.Failure? {
      return Fail(parsed.error), [];
    }
    var job := parsed.value;
    if job.files.None? {
      return Fail(Raised("AttributeError", "'NoneType' object has no attribute 'items'")), [];
    }
    files := NewFiles(job.files.value);
    out := RunHandlers(files, PreparedDefs(job.files.value), job.iamOverride, run, disk);
  }

  /** The first loop of `start_jobs`: a fresh `File` object per entry. */
  method NewFiles(entries: Entries<FileDef>) returns (files: seq<LegacyFile>)
    ensures |files| == |entries|
    ensures forall j :: 0 <= j < |files| ==> fresh(files[j]) && files[j].State() == Initial(PreparedDefs(entries)[j])
    ensures forall a, b :: 0 <= a < b < |files| ==> files[a] != files[b]
  {
    ghost var defs := PreparedDefs(entries);
    files := [];
    var i := 0;
    while i < |entries|
      invariant 0 <= i <= |entries| && |files| == i
      invariant forall j :: 0 <= j < i ==> fresh(files[j]) && files[j].State() == Initial(defs[j])
      invariant forall a, b :: 0 <= a < b < i ==> files[a] != files[b]
    {
      var f := new LegacyFile(entries[i].1);
      f.SetPath(entries[i].0);
      files := files + [f];
      i := i + 1;
    }
  }

  /** The second loop of `start_jobs`: every handler in order, until the
      first exception. */
  method RunHandlers(files: seq<LegacyFile>, defs: seq<FileDef>, jobOverride: Option<IamOverrideDef>, run: Runner,
                     disk: Disk) returns (out: Outcome)
    requires |files| == |defs|
    requires forall j :: 0 <= j < |files| ==> files[j].State() == Initial(defs[j])
    requires forall a, b :: 0 <= a < b < |files| ==> files[a] != files[b]
    modifies disk, set j | 0 <= j < |files| :: files[j]
    ensures forall j :: 0 <= j < |files| ==> files[j].def == defs[j]
    ensures Step(disk.State(), out) == RunJobs(old(disk.State()), defs, jobOverride, run)
  {
    out := Pass;
    var k := 0;
    while k < |files|
      invariant 0 <= k <= |files| && out == Pass
      invariant forall j :: 0 <= j < |files| ==> files[j].def == defs[j]
      invariant forall j :: k <= j < |files| ==> files[j].State() == Initial(defs[j])
      invariant RunJobs(old(disk.State()), defs, jobOverride, run) == RunJobs(disk.State(), defs[k..], jobOverride, run)
    {
      assert defs[k..][0] == defs[k] && defs[k..][1..] == defs[k + 1..];
      out := files[k].Handler(jobOverride, run, disk);
      if out.Fail? {
        return;
      }
      k := k + 1;
    }
  }
}
