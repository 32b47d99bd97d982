/** The current revision's file job: make the parent directory, open a
    template sandbox for jinja2 files, fetch the content from its source
    when there is no inline content, decode base64, write (through the
    sandbox and the renderer for templates), then run chmod and chown.
    Each step is a function of the file's fields and the filesystem; the
    `File` class performs the same steps in place. */
module FilesMgmt {
  import opened Wrappers
  import opened PyValues
  import opened Input
  import opened Paths
  import B64 = Base64
  import opened Utf8
  import opened Disk
  import opened AwsMgmt
  import opened Jinja2Filters
  import Jinja2Aws

  /** Everything a file job consults besides the filesystem. */
  datatype Host = Host(
    cwd: string,
    environ: Environ,
    expand: ExpandVars,
    api: Api,
    /** `requests.get(url)`, or with `auth=(username, password)` */
    httpGet: (Option<string>, Option<(string, string)>) -> Result<Jinja2Aws.HttpResponse>,
    /** rendering a template's text with these filters and `env=os.environ` */
    render: (string, map<string, Filter>, Environ) -> Result<string>,
    /** the directory the next `TemporaryDirectory()` creates */
    sandbox: string)

  /** The fields of a `File` object: its definition, the content it
      currently holds (a str, a stream from S3, whatever a store
      returned), its directory and its template sandbox. */
  datatype FileState = FileState(def: FileDef, content: Value, dirPath: Option<string>, templatesDir: Option<string>)

  datatype Machine = Machine(file: FileState, fs: Fs)

  function Initial(d: FileDef): FileState
  {
    FileState(d, OptStr(d.content), None, None)
  }

  predicate IsJinja(f: FileState)
  {
    f.def.context == Some(Context.Jinja2)
  }

  predicate IsBase64(f: FileState)
  {
    f.def.encoding == Some(Encoding.Base64)
  }

  // ---------------------------------------------------------------- steps

  /** `set_dir_path`: the absolute directory of a set path. */
  function WithDirPath(f: FileState, cwd: string): (r: FileState)
    ensures IsSet(f.def.path) ==> r == f.(dirPath := Some(Abspath(cwd, Dirname(f.def.path.value))))
    ensures !IsSet(f.def.path) ==> r == f
  {
    if IsSet(f.def.path) then f.(dirPath := Some(Abspath(cwd, Dirname(f.def.path.value)))) else f
  }

  /** The head of `handler`: the directory is computed when unset and
      created, with its parents, when nothing exists there.  After a pass
      something exists at the directory, and a failure is the one
      `mkdir` raised. */
  function DirEnsured(m: Machine, cwd: string): (r: Step<Machine>)
    ensures r.state.file.def == m.file.def && r.state.file.content == m.file.content
    ensures r.state.file.templatesDir == m.file.templatesDir
    ensures r.state.fs.files == m.fs.files && r.state.fs.log == m.fs.log && m.fs.dirs <= r.state.fs.dirs
    ensures !IsSet(m.file.dirPath) ==> r.state.file.dirPath == WithDirPath(m.file, cwd).dirPath
    ensures IsSet(m.file.dirPath) ==> r.state.file.dirPath == m.file.dirPath
    ensures var d := r.state.file.dirPath;
      (IsSet(d) && !Exists(m.fs, d.value) ==> Step(r.state.fs, r.out) == MkdirParents(m.fs, Abspath(cwd, d.value))) &&
      (!(IsSet(d) && !Exists(m.fs, d.value)) ==> r.state.fs == m.fs && r.out == Pass)
    ensures r.out.Pass? && IsSet(r.state.file.dirPath) && IsAbsolute(r.state.file.dirPath.value) ==>
      Exists(r.state.fs, r.state.file.dirPath.value)
  {
    var f := if !IsSet(m.file.dirPath) then WithDirPath(m.file, cwd) else m.file;
    if IsSet(f.dirPath) && !Exists(m.fs, f.dirPath.value) then
      var made := MkdirParents(m.fs, Abspath(cwd, f.dirPath.value));
      Step(Machine(f, made.state), made.out)
    else Step(Machine(f, m.fs), Pass)
  }

  /** For a fresh job whose path is creatable, the head of `handler`
      passes and leaves the path writable. */
  lemma {:induction false} DirEnsuredReadiesPath(d: FileDef, fs: Fs, cwd: string)
    requires d.path.Some? && Creatable(fs, d.path.value)
    ensures DirEnsured(Machine(Initial(d), fs), cwd).out.Pass?
    ensures Writable(DirEnsured(Machine(Initial(d), fs), cwd).state.fs, d.path.value)
    ensures DirEnsured(Machine(Initial(d), fs), cwd).state.fs.dirs <= fs.dirs + Ancestry(Dirname(d.path.value))
  {
    var p := d.path.value;
    DirnameAbsolute(p);
    assert Abspath(cwd, Dirname(p)) == Dirname(p);
    MkdirMakesWritable(fs, p);
  }

  /** A jinja2 context gets a fresh sandbox directory. */
  function Sandboxed(m: Machine, sandbox: string): (r: Machine)
    ensures IsJinja(m.file) ==> r.file.templatesDir == Some(sandbox) && r.fs.dirs == m.fs.dirs + {sandbox}
    ensures !IsJinja(m.file) ==> r == m
    ensures r.file.def == m.file.def && r.file.content == m.file.content && r.fs.files == m.fs.files
    ensures r.fs.log == m.fs.log && m.fs.dirs <= r.fs.dirs
  {
    if IsJinja(m.file) then Machine(m.file.(templatesDir := Some(sandbox)), m.fs.(dirs := m.fs.dirs + {sandbox}))
    else m
  }

  /** The source variants in the order `handle_sources` tests them. */
  datatype Selected = UseUrl(url: UrlDef) | UseSsm(ssm: SsmDef) | UseS3(s3: S3Def) | UseSecret(secret: SecretDef) | UseNone

  function Present(s: SourceDef): seq<bool>
  {
    [s.url.Some?, s.ssm.Some?, s.s3.Some?, s.secret.Some?]
  }

  function Rank(sel: Selected): nat
  {
    match sel
    case UseUrl(_) => 0
    case UseSsm(_) => 1
    case UseS3(_) => 2
    case UseSecret(_) => 3
    case UseNone => 4
  }

  /** The variant that is handled: the first present one, in the order
      Url, Ssm, S3, Secret; none when all are absent. */
  function SelectSource(s: SourceDef): (sel: Selected)
    ensures sel.UseNone? <==> forall j :: 0 <= j < 4 ==> !Present(s)[j]
    ensures !sel.UseNone? ==> Present(s)[Rank(sel)] && forall j :: 0 <= j < Rank(sel) ==> !Present(s)[j]
    ensures sel.UseUrl? ==> s.url == Some(sel.url)
    ensures sel.UseSsm? ==> s.ssm == Some(sel.ssm)
    ensures sel.UseS3? ==> s.s3 == Some(sel.s3)
    ensures sel.UseSecret? ==> s.secret == Some(sel.secret)
  {
    var present := Present(s);
    if s.url.Some? then assert present[0]; UseUrl(s.url.value)
    else if s.ssm.Some? then assert present[1]; UseSsm(s.ssm.value)
    else if s.s3.Some? then assert present[2]; UseS3(s.s3.value)
    else if s.secret.Some? then assert present[3]; UseSecret(s.secret.value)
    else UseNone
  }

  /** The candidates for a fetcher's credential, most specific first. */
  function CredentialCandidates(own: Option<IamOverrideDef>, jobOverride: Option<IamOverrideDef>,
                                sessionOverride: Option<Session>): seq<Option<Credentials>>
  {
    [if own.Some? then Some(FromOverride(own.value)) else None,
     if jobOverride.Some? then Some(FromOverride(jobOverride.value)) else None,
     if sessionOverride.Some? then Some(FromSession(sessionOverride.value)) else None,
     Some(Ambient)]
  }

  /** The fetcher credential: the source's own override, else the job
      override, else the session override, else the ambient chain. */
  function ChooseCredentials(own: Option<IamOverrideDef>, jobOverride: Option<IamOverrideDef>,
                             sessionOverride: Option<Session>): (c: Credentials)
    ensures var cs := CredentialCandidates(own, jobOverride, sessionOverride);
      exists k :: 0 <= k < 4 && cs[k] == Some(c) && forall j :: 0 <= j < k ==> cs[j].None?
  {
    if own.Some? then
      assert CredentialCandidates(own, jobOverride, sessionOverride)[0] == Some(FromOverride(own.value));
      FromOverride(own.value)
    else if jobOverride.Some? then
      assert CredentialCandidates(own, jobOverride, sessionOverride)[1] == Some(FromOverride(jobOverride.value));
      FromOverride(jobOverride.value)
    else if sessionOverride.Some? then
      assert CredentialCandidates(own, jobOverride, sessionOverride)[2] == Some(FromSession(sessionOverride.value));
      FromSession(sessionOverride.value)
    else
      assert CredentialCandidates(own, jobOverride, sessionOverride)[3] == Some(Ambient);
      Ambient
  }

  /** Each level is used exactly when every more specific one is absent. */
  lemma {:induction false} CredentialPrecedence(own: Option<IamOverrideDef>, jobOverride: Option<IamOverrideDef>,
                                                sessionOverride: Option<Session>)
    ensures own.Some? ==> ChooseCredentials(own, jobOverride, sessionOverride) == FromOverride(own.value)
    ensures own.None? && jobOverride.Some? ==>
      ChooseCredentials(own, jobOverride, sessionOverride) == FromOverride(jobOverride.value)
    ensures own.None? && jobOverride.None? && sessionOverride.Some? ==>
      ChooseCredentials(own, jobOverride, sessionOverride) == FromSession(sessionOverride.value)
    ensures own.None? && jobOverride.None? && sessionOverride.None? ==>
      ChooseCredentials(own, jobOverride, sessionOverride) == Ambient
  {
    var c := ChooseCredentials(own, jobOverride, sessionOverride);
    var cs := CredentialCandidates(own, jobOverride, sessionOverride);
    var k :| 0 <= k < 4 && cs[k] == Some(c) && forall j :: 0 <= j < k ==> cs[j].None?;
    if own.Some? {
      assert k == 0 by { assert cs[0].Some?; }
    } else if jobOverride.Some? {
      assert k == 1 by { assert cs[0].None? && cs[1].Some?; }
    } else if sessionOverride.Some? {
      assert k == 2 by { assert cs[0].None? && cs[1].None? && cs[2].Some?; }
    } else {
      assert k == 3 by { assert cs[0].None? && cs[1].None? && cs[2].None?; }
    }
  }

  /** `handle_ssm_source`: the name goes through `expandvars`, then the
      fetcher is built and asked. */
  function FetchSsm(api: Api, expand: ExpandVars, ssm: SsmDef, jobOverride: Option<IamOverrideDef>,
                    sessionOverride: Option<Session>): (r: Result<Value>)
    ensures expand(ssm.parameterName).Failure? ==> r == Failure(expand(ssm.parameterName).error)
    ensures expand(ssm.parameterName).Success? ==>
      var fetcher := FetcherFor(api, "ssm", ChooseCredentials(ssm.iamOverride, jobOverride, sessionOverride));
      (fetcher.Failure? ==> r == Failure(fetcher.error)) &&
      (fetcher.Success? ==> r == SsmGetContent(api, fetcher.value, expand(ssm.parameterName).value)) &&
      (fetcher.Success? && r.Failure? ==> r.error == BadExceptClause)
  {
    var name :- expand(ssm.parameterName);
    var fetcher :- FetcherFor(api, "ssm", ChooseCredentials(ssm.iamOverride, jobOverride, sessionOverride));
    SsmGetContent(api, fetcher, name)
  }

  /** `handle_s3_source`: bucket and key go through `expandvars`; the
      definition's URI is not passed on. */
  function FetchS3(api: Api, expand: ExpandVars, s3: S3Def, jobOverride: Option<IamOverrideDef>,
                   sessionOverride: Option<Session>): (r: Result<Value>)
    ensures expand(s3.bucketName).Failure? ==> r == Failure(expand(s3.bucketName).error)
    ensures expand(s3.bucketName).Success? && expand(s3.key).Failure? ==> r == Failure(expand(s3.key).error)
    ensures expand(s3.bucketName).Success? && expand(s3.key).Success? ==>
      var fetcher := FetcherFor(api, "s3", ChooseCredentials(s3.iamOverride, jobOverride, sessionOverride));
      (fetcher.Failure? ==> r == Failure(fetcher.error)) &&
      (fetcher.Success? ==> r == S3GetContent(api, fetcher.value, None, expand(s3.bucketName).value, expand(s3.key).value))
  {
    var bucket :- expand(s3.bucketName);
    var key :- expand(s3.key);
    var fetcher :- FetcherFor(api, "s3", ChooseCredentials(s3.iamOverride, jobOverride, sessionOverride));
    S3GetContent(api, fetcher, None, bucket, key)
  }

  /** `handle_secret_source` */
  function FetchSecret(api: Api, expand: ExpandVars, secret: SecretDef, jobOverride: Option<IamOverrideDef>,
                       sessionOverride: Option<Session>): (r: Result<Value>)
    ensures var fetcher := FetcherFor(api, "secretsmanager", ChooseCredentials(secret.iamOverride, jobOverride, sessionOverride));
      (fetcher.Failure? ==> r == Failure(fetcher.error)) &&
      (fetcher.Success? ==> r == SecretGetContent(api, expand, fetcher.value, secret))
  {
    var fetcher :- FetcherFor(api, "secretsmanager", ChooseCredentials(secret.iamOverride, jobOverride, sessionOverride));
    SecretGetContent(api, expand, fetcher, secret)
  }

  /** A fetched value becomes the file's content; a raised exception
      leaves everything as it was. */
  function ContentSet(m: Machine, fetched: Result<Value>): (r: Step<Machine>)
    ensures fetched.Success? ==> r == Step(m.(file := m.file.(content := fetched.value)), Pass)
    ensures fetched.Failure? ==> r == Step(m, Fail(fetched.error))
  {
    match fetched
    case Success(v) => Step(m.(file := m.file.(content := v)), Pass)
    case Failure(e) => Step(m, Fail(e))
  }

  /** Where `write_content` opens its file: the sandbox copy named after
      the path's basename when a sandbox exists and a template is being
      written, the path itself otherwise. */
  function WriteTarget(f: FileState, isTemplate: bool): (r: Result<Option<string>>)
    ensures f.templatesDir.Some? && isTemplate && f.def.path.Some? ==>
      r == Success(Some(f.templatesDir.value + "/" + Basename(f.def.path.value)))
    ensures f.templatesDir.Some? && isTemplate && f.def.path.None? ==> r.Failure?
    ensures !(f.templatesDir.Some? && isTemplate) ==> r == Success(f.def.path)
  {
    if f.templatesDir.Some? && isTemplate then
      match f.def.path
      case None => Failure(Raised("TypeError", "expected str, bytes or os.PathLike object, not NoneType"))
      case Some(p) => Success(Some(f.templatesDir.value + "/" + Basename(p)))
    else Success(f.def.path)
  }

  /** What `write_content` writes: a str in text mode, a stream's bytes,
      or non-empty bytes passed in; nothing otherwise. */
  function ContentBlob(content: Value, asBytes: bool, bytesContent: seq<byte>): (b: Option<Blob>)
    ensures b.None? <==> !content.PyStr? && !content.PyStream? && !(asBytes && bytesContent != [])
    ensures content.PyStr? ==> b == Some(Text(content.s))
    ensures content.PyStream? ==> b == Some(Bytes(content.body))
    ensures !content.PyStr? && !content.PyStream? && asBytes && bytesContent != [] ==> b == Some(Bytes(bytesContent))
  {
    match content
    case PyStr(s) => Some(Text(s))
    case PyStream(body) => Some(Bytes(body))
    case _ => if asBytes && bytesContent != [] then Some(Bytes(bytesContent)) else None
  }

  /** `write_content(is_template, as_bytes, bytes_content)`, opening its
      file from the working directory `cwd`. */
  function ContentWritten(m: Machine, cwd: string, isTemplate: bool, asBytes: bool, bytesContent: seq<byte>): (r: Step<Machine>)
    ensures r.state.file == m.file && r.state.fs.dirs == m.fs.dirs && r.state.fs.log == m.fs.log
    ensures WriteTarget(m.file, isTemplate).Failure? ==> r == Step(m, Fail(WriteTarget(m.file, isTemplate).error))
    ensures ContentBlob(m.file.content, asBytes, bytesContent).None? && WriteTarget(m.file, isTemplate).Success? ==>
      r == Step(m, Pass)
    ensures WriteTarget(m.file, isTemplate).Success? && ContentBlob(m.file.content, asBytes, bytesContent).Some? ==>
      var target := WriteTarget(m.file, isTemplate).value;
      (r.out.Pass? <==> target.Some? && target.value != "" && Writable(m.fs, Abspath(cwd, target.value))) &&
      (r.out.Pass? ==>
         r.state.fs.files == m.fs.files[Abspath(cwd, target.value) := ContentBlob(m.file.content, asBytes, bytesContent).value]) &&
      (r.out.Fail? ==> r.state == m)
  {
    match WriteTarget(m.file, isTemplate)
    case Failure(e) => Step(m, Fail(e))
    case Success(target) =>
      match ContentBlob(m.file.content, asBytes, bytesContent)
      case None => Step(m, Pass)
      case Some(b) =>
        var w := WriteFile(m.fs, cwd, target, b);
        Step(m.(fs := w.state), w.out)
  }

  /** `raise_for_status`: 4xx and 5xx raise HTTPError. */
  predicate IsHttpError(status: int)
  {
    400 <= status < 600
  }

  /** The basic-auth pair, only when both halves are set. */
  function UrlAuth(u: UrlDef): (auth: Option<(string, string)>)
    ensures auth.Some? <==> IsSet(u.username) && IsSet(u.password)
    ensures auth.Some? ==> auth.value == (u.username.value, u.password.value)
  {
    if !IsSet(u.username) || !IsSet(u.password) then None else Some((u.username.value, u.password.value))
  }

  /** `handle_url_source`: the response body is written straight away as
      a template-side write; the content field is left unchanged. */
  function UrlHandled(m: Machine, u: UrlDef, host: Host): (r: Step<Machine>)
    ensures r.state.file == m.file && r.state.fs.dirs == m.fs.dirs && r.state.fs.log == m.fs.log
    ensures m.fs.files.Keys <= r.state.fs.files.Keys
    ensures host.httpGet(u.url, UrlAuth(u)).Failure? ==> r == Step(m, Fail(host.httpGet(u.url, UrlAuth(u)).error))
    ensures host.httpGet(u.url, UrlAuth(u)).Success? ==>
      var resp := host.httpGet(u.url, UrlAuth(u)).value;
      (IsHttpError(resp.status) ==> r == Step(m, Fail(Raised("HTTPError", "HTTP error status")))) &&
      (!IsHttpError(resp.status) ==> r == ContentWritten(m, host.cwd, true, true, resp.content))
    ensures r.out.Pass? && m.file.templatesDir.None? && !m.file.content.PyStr? && !m.file.content.PyStream? &&
            r.state.fs.files != m.fs.files ==>
      var resp := host.httpGet(u.url, UrlAuth(u)).value;
      r.state.fs.files == m.fs.files[Abspath(host.cwd, m.file.def.path.value) := Bytes(resp.content)]
  {
    match host.httpGet(u.url, UrlAuth(u))
    case Failure(e) => Step(m, Fail(e))
    case Success(resp) =>
      if IsHttpError(resp.status) then Step(m, Fail(Raised("HTTPError", "HTTP error status")))
      else ContentWritten(m, host.cwd, true, true, resp.content)
  }

  /** `handle_sources`: exactly the first present variant is handled. */
  function SourcesHandled(m: Machine, s: SourceDef, jobOverride: Option<IamOverrideDef>,
                          sessionOverride: Option<Session>, host: Host): (r: Step<Machine>)
    ensures SelectSource(s).UseNone? ==> r == Step(m, Pass)
    ensures SelectSource(s).UseUrl? ==> r == UrlHandled(m, SelectSource(s).url, host)
    ensures SelectSource(s).UseSsm? ==>
      r == ContentSet(m, FetchSsm(host.api, host.expand, SelectSource(s).ssm, jobOverride, sessionOverride))
    ensures SelectSource(s).UseS3? ==>
      r == ContentSet(m, FetchS3(host.api, host.expand, SelectSource(s).s3, jobOverride, sessionOverride))
    ensures SelectSource(s).UseSecret? ==>
      r == ContentSet(m, FetchSecret(host.api, host.expand, SelectSource(s).secret, jobOverride, sessionOverride))
  {
    match SelectSource(s)
    case UseUrl(u) => UrlHandled(m, u, host)
    case UseSsm(ssm) => ContentSet(m, FetchSsm(host.api, host.expand, ssm, jobOverride, sessionOverride))
    case UseS3(s3) => ContentSet(m, FetchS3(host.api, host.expand, s3, jobOverride, sessionOverride))
    case UseSecret(secret) => ContentSet(m, FetchSecret(host.api, host.expand, secret, jobOverride, sessionOverride))
    case UseNone => Step(m, Pass)
  }

  /** `base64.b64decode(content).decode()`: a str must be ASCII, bytes are
      taken as they are, anything else (a stream among them) is a
      TypeError; the decoded bytes must be UTF-8. */
  function DecodeContent(v: Value): (r: Result<Value>)
    ensures r.Success? ==> r.value.PyStr?
    ensures !v.PyStr? && !v.PyBytes? ==> r.Failure? && r.error.kind == "TypeError"
    ensures v.PyStr? && B64.B64Decode(v.s).Failure? ==> r == Failure(B64.B64Decode(v.s).error)
    ensures v.PyStr? && B64.B64Decode(v.s).Success? ==>
      var text := Decode(B64.B64Decode(v.s).value);
      (text.Success? ==> r == Success(PyStr(text.value))) && (text.Failure? ==> r == Failure(text.error))
  {
    match v
    case PyStr(s) =>
      var data :- B64.B64Decode(s);
      var text :- Decode(data);
      Success(PyStr(text))
    case PyBytes(d) =>
      var data :- B64.A2b(Latin(d), B64.Start([]));
      var text :- Decode(data);
      Success(PyStr(text))
    case _ => Failure(Raised("TypeError", "argument should be a bytes-like object or ASCII string"))
  }

  /** Inline ASCII text encoded the standard way decodes back to itself. */
  lemma DecodeEncodedAscii(b: seq<byte>)
    requires IsAsciiBytes(b)
    ensures DecodeContent(PyStr(B64.Encode(b))) == Success(PyStr(Latin(b)))
  {
    B64.RoundTrip(b);
    DecodeAscii(b);
  }

  /** The base64 step of `handler`: truthy content with base64 encoding is
      replaced by its decoded text. */
  function Decoded(m: Machine): (r: Step<Machine>)
    ensures Truthy(m.file.content) && IsBase64(m.file) ==> r == ContentSet(m, DecodeContent(m.file.content))
    ensures !(Truthy(m.file.content) && IsBase64(m.file)) ==> r == Step(m, Pass)
    ensures r.state.fs == m.fs && r.state.file.def == m.file.def && r.state.file.templatesDir == m.file.templatesDir
    ensures r.out.Pass? && IsBase64(m.file) ==> r.state.file.content.PyStr? || !Truthy(r.state.file.content)
  {
    if Truthy(m.file.content) && IsBase64(m.file) then ContentSet(m, DecodeContent(m.file.content)) else Step(m, Pass)
  }

  /** What the template loader reads: a text file as it is, a binary one
      decoded as UTF-8; a missing file is TemplateNotFound. */
  function TemplateSource(fs: Fs, name: string): (r: Result<string>)
    ensures name !in fs.files ==> r.Failure? && r.error.kind == "TemplateNotFound"
    ensures name in fs.files && fs.files[name].Text? ==> r == Success(fs.files[name].text)
  {
    if name !in fs.files then Failure(Raised("TemplateNotFound", name))
    else match fs.files[name]
      case Text(s) => Success(s)
      case Bytes(b) => Decode(b)
  }

  /** `render_jinja`: the sandbox copy is rendered with the `env_override`
      filter and the environment, the result becomes the content and is
      written to the real path. */
  function JinjaRendered(m: Machine, host: Host): (r: Step<Machine>)
    ensures r.state.file.def == m.file.def && r.state.file.templatesDir == m.file.templatesDir
    ensures r.state.fs.dirs == m.fs.dirs && r.state.fs.log == m.fs.log && m.fs.files.Keys <= r.state.fs.files.Keys
    ensures m.file.templatesDir.None? ==>
      r == Step(m, Fail(Raised("AttributeError", "'NoneType' object has no attribute 'name'")))
    ensures r.out.Fail? ==> r.state.fs == m.fs
    ensures r.out.Pass? ==>
      m.file.templatesDir.Some? && m.file.def.path.Some? &&
      var name := Abspath(host.cwd, m.file.templatesDir.value + "/" + Basename(m.file.def.path.value));
      TemplateSource(m.fs, name).Success? &&
      host.render(TemplateSource(m.fs, name).value, RenderFilters, host.environ).Success? &&
      var out := host.render(TemplateSource(m.fs, name).value, RenderFilters, host.environ).value;
      r.state.file.content == PyStr(out) &&
      r.state.fs.files == m.fs.files[Abspath(host.cwd, m.file.def.path.value) := Text(out)]
  {
    if m.file.templatesDir.None? then Step(m, Fail(Raised("AttributeError", "'NoneType' object has no attribute 'name'")))
    else match m.file.def.path
      case None => Step(m, Fail(Raised("TypeError", "expected str, bytes or os.PathLike object, not NoneType")))
      case Some(p) =>
        match TemplateSource(m.fs, Abspath(host.cwd, m.file.templatesDir.value + "/" + Basename(p)))
        case Failure(e) => Step(m, Fail(e))
        case Success(text) =>
          match host.render(text, RenderFilters, host.environ)
          case Failure(e) => Step(m, Fail(e))
          case Success(out) => ContentWritten(m.(file := m.file.(content := PyStr(out))), host.cwd, false, false, [])
  }

  /** The chmod argument vector. */
  function ChmodArgv(d: FileDef): seq<Option<string>>
  {
    [Some("chmod"), d.mode, d.path]
  }

  /** The chown argument vector; an unset owner or group reads "None". */
  function ChownArgv(d: FileDef): seq<Option<string>>
  {
    [Some("chown"), Some(Format(d.owner) + ":" + Format(d.group)), d.path]
  }

  /** `set_unix_settings`: chmod, then chown, as child processes whose
      exit status is never checked. */
  function Permissions(fs: Fs, d: FileDef): (r: Step<Fs>)
    ensures r.state.files == fs.files && r.state.dirs == fs.dirs && fs.log <= r.state.log
    ensures r.out.Pass? <==> d.mode.Some? && d.path.Some?
    ensures d.mode.Some? && d.path.Some? ==>
      r.out.Pass? &&
      r.state.log == fs.log + [["chmod", d.mode.value, d.path.value],
                               ["chown", Format(d.owner) + ":" + Format(d.group), d.path.value]]
    ensures d.path.None? ==> r == Step(fs, Fail(Raised("TypeError", "expected str, bytes or os.PathLike object, not NoneType")))
  {
    var chmod := RunCommand(fs, ChmodArgv(d));
    if chmod.out.Fail? then chmod
    else
      assert ChmodArgv(d)[1].Some? && ChmodArgv(d)[2].Some?;
      assert Unwrapped(ChmodArgv(d)) == ["chmod", d.mode.value, d.path.value];
      var chown := RunCommand(chmod.state, ChownArgv(d));
      assert Unwrapped(ChownArgv(d)) == ["chown", Format(d.owner) + ":" + Format(d.group), d.path.value];
      chown
  }

  /** The permission step of `handler`: it passes exactly when mode and
      path are set, and then has run chmod and chown, in that order. */
  function UnixSettingsApplied(m: Machine): (r: Step<Machine>)
    ensures r.state.file == m.file && r.state.fs.files == m.fs.files && r.state.fs.dirs == m.fs.dirs
    ensures r.out.Pass? <==> m.file.def.path.Some? && m.file.def.mode.Some?
    ensures r.out.Pass? ==> r.state.fs.log == m.fs.log + PermissionLog(m.file.def)
  {
    var s := Permissions(m.fs, m.file.def);
    Step(m.(fs := s.state), s.out)
  }

  /** The middle of `handler`: the source is consulted only when there
      is no truthy content, then base64 content is decoded. */
  function ContentObtained(m: Machine, jobOverride: Option<IamOverrideDef>, sessionOverride: Option<Session>,
                           host: Host): (r: Step<Machine>)
    ensures r.state.file.def == m.file.def && r.state.file.templatesDir == m.file.templatesDir
    ensures r.state.fs.dirs == m.fs.dirs && r.state.fs.log == m.fs.log && m.fs.files.Keys <= r.state.fs.files.Keys
    ensures m.file.def.source.None? || Truthy(m.file.content) ==> r == Decoded(m)
    ensures r.out.Pass? && IsBase64(m.file) ==> r.state.file.content.PyStr? || !Truthy(r.state.file.content)
  {
    var s := if m.file.def.source.Some? && !Truthy(m.file.content)
             then SourcesHandled(m, m.file.def.source.value, jobOverride, sessionOverride, host)
             else Step(m, Pass);
    if s.out.Fail? then s else Decoded(s.state)
  }

  /** The tail of `handler`: the write (through the sandbox and the
      renderer when there is one), then the permissions. */
  function Emitted(m: Machine, host: Host): (r: Step<Machine>)
    ensures r.state.file.def == m.file.def
    ensures r.state.fs.dirs == m.fs.dirs && m.fs.files.Keys <= r.state.fs.files.Keys
    ensures r.out.Pass? ==>
      m.file.def.path.Some? && m.file.def.mode.Some? && r.state.fs.log == m.fs.log + PermissionLog(m.file.def)
    ensures r.out.Pass? && m.file.templatesDir.None? && (m.file.content.PyStr? || m.file.content.PyStream?) ==>
      r.state.fs.files == m.fs.files[Abspath(host.cwd, m.file.def.path.value) := ContentBlob(m.file.content, false, []).value]
  {
    var s := if m.file.templatesDir.Some? then
               var w := ContentWritten(m, host.cwd, true, false, []);
               if w.out.Fail? then w else JinjaRendered(w.state, host)
             else ContentWritten(m, host.cwd, false, false, []);
    if s.out.Fail? then s else UnixSettingsApplied(s.state)
  }

  /** `handler(iam_override, session_override)` */
  function Handled(m: Machine, jobOverride: Option<IamOverrideDef>, sessionOverride: Option<Session>,
                   host: Host): (r: Step<Machine>)
    ensures r.state.file.def == m.file.def
    ensures m.fs.dirs <= r.state.fs.dirs && m.fs.files.Keys <= r.state.fs.files.Keys
    ensures r.out.Pass? ==>
      m.file.def.path.Some? && m.file.def.mode.Some? && r.state.fs.log == m.fs.log + PermissionLog(m.file.def)
  {
    var s1 := DirEnsured(m, host.cwd);
    if s1.out.Fail? then s1 else
    var s2 := ContentObtained(Sandboxed(s1.state, host.sandbox), jobOverride, sessionOverride, host);
    if s2.out.Fail? then s2 else Emitted(s2.state, host)
  }

  // ----------------------------------------------------- pipeline lemmas

  /** Truthy content is never replaced from a source: the outcome does not
      depend on the stores, HTTP or `expandvars` at all. */
  lemma InlineContentWins(m: Machine, jobOverride: Option<IamOverrideDef>, sessionOverride: Option<Session>,
                          host: Host, api: Api, expand: ExpandVars,
                          httpGet: (Option<string>, Option<(string, string)>) -> Result<Jinja2Aws.HttpResponse>)
    requires Truthy(m.file.content)
    ensures Handled(m, jobOverride, sessionOverride, host) ==
            Handled(m, jobOverride, sessionOverride, host.(api := api, expand := expand, httpGet := httpGet))
  {
    var h := host.(api := api, expand := expand, httpGet := httpGet);
    var s1 := DirEnsured(m, host.cwd);
    if s1.out.Pass? {
      var m1 := Sandboxed(s1.state, host.sandbox);
      ObtainedIgnoresHost(m1, jobOverride, sessionOverride, host, h);
      var s2 := ContentObtained(m1, jobOverride, sessionOverride, host);
      if s2.out.Pass? {
        EmittedIgnoresHost(s2.state, host, h);
      }
    }
  }

  lemma ObtainedIgnoresHost(m: Machine, jobOverride: Option<IamOverrideDef>, sessionOverride: Option<Session>,
                            host: Host, h: Host)
    requires Truthy(m.file.content)
    ensures ContentObtained(m, jobOverride, sessionOverride, host) == ContentObtained(m, jobOverride, sessionOverride, h)
  {
  }

  lemma EmittedIgnoresHost(m: Machine, host: Host, h: Host)
    requires h.render == host.render && h.environ == host.environ && h.cwd == host.cwd
    ensures Emitted(m, host) == Emitted(m, h)
  {
    if m.file.templatesDir.Some? {
      var w := ContentWritten(m, host.cwd, true, false, []);
      if w.out.Pass? {
        RenderedIgnoresHost(w.state, host, h);
      }
    }
  }

  lemma RenderedIgnoresHost(m: Machine, host: Host, h: Host)
    requires h.render == host.render && h.environ == host.environ && h.cwd == host.cwd
    ensures JinjaRendered(m, host) == JinjaRendered(m, h)
  {
  }

  /** The permissions log after a job whose mode and path are set. */
  function PermissionLog(d: FileDef): seq<seq<string>>
    requires d.mode.Some? && d.path.Some?
  {
    [["chmod", d.mode.value, d.path.value], ["chown", Format(d.owner) + ":" + Format(d.group), d.path.value]]
  }

  /** The sandbox `TemporaryDirectory()` makes for a jinja2 job at `p`:
      an absolute directory, not `p` itself, with no regular file on the
      way to it, and the sandbox copy of `p` is neither a directory nor
      one of the directories `p` lives in. */
  predicate SandboxFits(fs: Fs, sandbox: string, p: string)
  {
    IsAbsolute(sandbox) && sandbox[|sandbox| - 1] != '/' && sandbox != p &&
    Ancestry(sandbox) !! fs.files.Keys &&
    var q := sandbox + "/" + Basename(p);
    q !in fs.dirs && q !in Ancestry(Dirname(p))
  }

  /** Once the sandbox exists, its copy of `p` is writable, and writing
      that copy keeps `p` writable. */
  lemma {:induction false} SandboxCopyWritable(fs: Fs, fs1: Fs, sandbox: string, p: string, b: Blob)
    requires Creatable(fs, p) && SandboxFits(fs, sandbox, p)
    requires fs1.files == fs.files && fs1.dirs <= fs.dirs + Ancestry(Dirname(p)) && Writable(fs1, p)
    ensures var fs2 := fs1.(dirs := fs1.dirs + {sandbox});
      var q := sandbox + "/" + Basename(p);
      IsAbsolute(q) && Writable(fs2, q) && Writable(fs2.(files := fs2.files[q := b]), p)
  {
    var q := sandbox + "/" + Basename(p);
    BasenameOfFileName(p);
    JoinSplits(sandbox, Basename(p));
    assert q[|q| - 1] == Basename(p)[|Basename(p)| - 1];
    assert q[0] == sandbox[0];
    assert q != sandbox;
  }

  /** A plain file whose inline content is the base64 form of ASCII text
      gets that text, decoded before the write, then chmod and chown. */
  lemma Base64ContentDecodedBeforeWrite(d: FileDef, b: seq<byte>, fs: Fs, jobOverride: Option<IamOverrideDef>,
                                        sessionOverride: Option<Session>, host: Host)
    requires IsAsciiBytes(b) && b != []
    requires d.content == Some(B64.Encode(b)) && d.encoding == Some(Encoding.Base64)
    requires d.context != Some(Context.Jinja2) && d.path.Some? && d.mode.Some?
    requires Creatable(fs, d.path.value)
    ensures var r := Handled(Machine(Initial(d), fs), jobOverride, sessionOverride, host);
      r.out == Pass && r.state.fs.files == fs.files[d.path.value := Text(Latin(b))] &&
      r.state.fs.log == fs.log + PermissionLog(d)
  {
    var m := Machine(Initial(d), fs);
    DirEnsuredReadiesPath(d, fs, host.cwd);
    var s1 := DirEnsured(m, host.cwd);
    assert |B64.Encode(b)| > 0;
    var m2 := Sandboxed(s1.state, host.sandbox);
    assert m2 == s1.state;
    DecodeEncodedAscii(b);
    var s2 := ContentObtained(m2, jobOverride, sessionOverride, host);
    assert s2 == Step(m2.(file := m2.file.(content := PyStr(Latin(b)))), Pass);
    assert s2.state.file.templatesDir.None?;
    assert Abspath(host.cwd, d.path.value) == d.path.value;
    var w := ContentWritten(s2.state, host.cwd, false, false, []);
    assert w.out.Pass? && w.state.fs.files == fs.files[d.path.value := Text(Latin(b))];
  }

  /** A jinja2 file with inline text: the raw text lands in the sandbox
      under the path's basename, and the rendering of that text, with the
      `env_override` filter and the environment, lands at the path. */
  lemma JinjaWritesSandboxThenRendered(d: FileDef, s: string, t: string, fs: Fs,
                                       jobOverride: Option<IamOverrideDef>, sessionOverride: Option<Session>,
                                       host: Host)
    requires d.context == Some(Context.Jinja2) && d.content == Some(s) && s != ""
    requires d.encoding != Some(Encoding.Base64) && d.path.Some? && d.mode.Some?
    requires host.render(s, RenderFilters, host.environ) == Success(t)
    requires Creatable(fs, d.path.value) && SandboxFits(fs, host.sandbox, d.path.value)
    ensures var r := Handled(Machine(Initial(d), fs), jobOverride, sessionOverride, host);
      r.out == Pass && r.state.file.content == PyStr(t) &&
      r.state.fs.files == fs.files[host.sandbox + "/" + Basename(d.path.value) := Text(s)][d.path.value := Text(t)] &&
      r.state.fs.log == fs.log + PermissionLog(d)
  {
    var m := Machine(Initial(d), fs);
    var p := d.path.value;
    DirEnsuredReadiesPath(d, fs, host.cwd);
    var s1 := DirEnsured(m, host.cwd);
    var q := host.sandbox + "/" + Basename(p);
    SandboxCopyWritable(fs, s1.state.fs, host.sandbox, p, Text(s));
    var m2 := Sandboxed(s1.state, host.sandbox);
    var s2 := ContentObtained(m2, jobOverride, sessionOverride, host);
    assert s2 == Step(m2, Pass);
    var w := ContentWritten(s2.state, host.cwd, true, false, []);
    assert WriteTarget(s2.state.file, true) == Success(Some(q));
    assert Abspath(host.cwd, q) == q;
    assert w.out.Pass? && w.state.fs.files == fs.files[q := Text(s)];
    assert TemplateSource(w.state.fs, q) == Success(s);
    assert Abspath(host.cwd, p) == p;
    var j := JinjaRendered(w.state, host);
    assert j.out.Pass? && j.state.fs.files == fs.files[q := Text(s)][p := Text(t)];
  }

  /** A URL source is written as the response body by `handle_url_source`
      itself; the later plain write finds no content and writes nothing. */
  lemma UrlBodyWritten(d: FileDef, u: UrlDef, resp: Jinja2Aws.HttpResponse, fs: Fs,
                       jobOverride: Option<IamOverrideDef>, sessionOverride: Option<Session>, host: Host)
    requires d.content.None? && d.source == Some(SourceDef(url := Some(u)))
    requires d.context != Some(Context.Jinja2) && d.path.Some? && d.mode.Some?
    requires host.httpGet(u.url, UrlAuth(u)) == Success(resp) && !IsHttpError(resp.status) && resp.content != []
    requires Creatable(fs, d.path.value)
    ensures var r := Handled(Machine(Initial(d), fs), jobOverride, sessionOverride, host);
      r.out == Pass && r.state.fs.files == fs.files[d.path.value := Bytes(resp.content)]
  {
    var m := Machine(Initial(d), fs);
    DirEnsuredReadiesPath(d, fs, host.cwd);
    var s1 := DirEnsured(m, host.cwd);
    var m2 := Sandboxed(s1.state, host.sandbox);
    assert SelectSource(d.source.value) == UseUrl(u);
    assert Abspath(host.cwd, d.path.value) == d.path.value;
    var s2 := ContentObtained(m2, jobOverride, sessionOverride, host);
    assert s2.out.Pass? && s2.state.fs.files == fs.files[d.path.value := Bytes(resp.content)];
    assert s2.state.file.content == PyNone;
    var w := ContentWritten(s2.state, host.cwd, false, false, []);
    assert w == Step(s2.state, Pass);
  }

  /** An empty inline string does not stop the URL download, but being a
      str it is what both writes put at the path: the body is dropped. */
  lemma UrlBodyDroppedForEmptyContent(d: FileDef, u: UrlDef, resp: Jinja2Aws.HttpResponse, fs: Fs,
                                      jobOverride: Option<IamOverrideDef>, sessionOverride: Option<Session>,
                                      host: Host)
    requires d.content == Some("") && d.source == Some(SourceDef(url := Some(u)))
    requires d.context != Some(Context.Jinja2) && d.path.Some? && d.mode.Some?
    requires host.httpGet(u.url, UrlAuth(u)) == Success(resp) && !IsHttpError(resp.status)
    requires Creatable(fs, d.path.value)
    ensures var r := Handled(Machine(Initial(d), fs), jobOverride, sessionOverride, host);
      r.out == Pass && r.state.fs.files == fs.files[d.path.value := Text("")]
  {
    var m := Machine(Initial(d), fs);
    var p := d.path.value;
    DirEnsuredReadiesPath(d, fs, host.cwd);
    var s1 := DirEnsured(m, host.cwd);
    WriteKeepsWritable(s1.state.fs, p, Text(""));
    var m2 := Sandboxed(s1.state, host.sandbox);
    assert SelectSource(d.source.value) == UseUrl(u);
    assert Abspath(host.cwd, p) == p;
    var s2 := ContentObtained(m2, jobOverride, sessionOverride, host);
    assert s2.out.Pass? && s2.state.fs.files == fs.files[p := Text("")];
    var w := ContentWritten(s2.state, host.cwd, false, false, []);
    assert w.out.Pass? && w.state.fs.files == fs.files[p := Text("")];
  }

  /** Without content and without a source nothing is written; only the
      permission commands run. */
  lemma NothingToWrite(d: FileDef, fs: Fs, jobOverride: Option<IamOverrideDef>, sessionOverride: Option<Session>,
                       host: Host)
    requires d.content.None? && d.source.None? && d.context != Some(Context.Jinja2)
    requires d.path.Some? && d.mode.Some?
    ensures var m := Machine(Initial(d), fs);
      var r := Handled(m, jobOverride, sessionOverride, host);
      DirEnsured(m, host.cwd).out.Pass? ==>
        r.out == Pass && r.state.fs.files == fs.files && r.state.fs.log == fs.log + PermissionLog(d)
  {
  }

  // ------------------------------------------------------------ the object

  class File {
    var def: FileDef
    var content: Value
    var dirPath: Option<string>
    var templatesDir: Option<string>

    function State(): FileState
      reads this
    {
      FileState(def, content, dirPath, templatesDir)
    }

    constructor(d: FileDef)
      ensures State() == Initial(d)
    {
      def := d;
      content := OptStr(d.content);
      dirPath := None;
      templatesDir := None;
    }

    method SetDirPath(cwd: string)
      modifies this
      ensures State() == WithDirPath(old(State()), cwd)
    {
      if IsSet(def.path) {
        dirPath := Some(Abspath(cwd, Dirname(def.path.value)));
      }
    }

    method Handler(jobOverride: Option<IamOverrideDef>, sessionOverride: Option<Session>, host: Host, disk: Disk)
      returns (out: Outcome)
      modifies this, disk
      ensures Step(Machine(State(), disk.State()), out) ==
              Handled(old(Machine(State(), disk.State())), jobOverride, sessionOverride, host)
    {
      out := EnsureDir(host.cwd, disk);
      if out.Fail? {
        return;
      }
      if IsJinja(State()) {
        templatesDir := Some(host.sandbox);
        disk.AddDir(host.sandbox);
      }
      out := ObtainContent(jobOverride, sessionOverride, host, disk);
      if out.Fail? {
        return;
      }
      out := Emit(host, disk);
    }

    /** The directory part of `handler`. */
    method EnsureDir(cwd: string, disk: Disk) returns (out: Outcome)
      modifies this, disk
      ensures Step(Machine(State(), disk.State()), out) == DirEnsured(old(Machine(State(), disk.State())), cwd)
    {
      if !IsSet(dirPath) {
        SetDirPath(cwd);
      }
      out := Pass;
      if IsSet(dirPath) && !Exists(disk.State(), dirPath.value) {
        out := disk.MakeDirs(Abspath(cwd, dirPath.value));
      }
    }

    /** The source and decoding part of `handler`. */
    method ObtainContent(jobOverride: Option<IamOverrideDef>, sessionOverride: Option<Session>, host: Host, disk: Disk)
      returns (out: Outcome)
      modifies this, disk
      ensures Step(Machine(State(), disk.State()), out) ==
              ContentObtained(old(Machine(State(), disk.State())), jobOverride, sessionOverride, host)
    {
      out := Pass;
      if def.source.Some? && !Truthy(content) {
        out := HandleSources(jobOverride, sessionOverride, host, disk);
        if out.Fail? {
          return;
        }
      }
      if Truthy(content) && IsBase64(State()) {
        out := Assign(DecodeContent(content));
      }
    }

    /** The writing part of `handler`. */
    method Emit(host: Host, disk: Disk) returns (out: Outcome)
      modifies this, disk
      ensures Step(Machine(State(), disk.State()), out) == Emitted(old(Machine(State(), disk.State())), host)
    {
      if templatesDir.Some? {
        out := WriteContent(host.cwd, true, false, [], disk);
        if out.Fail? {
          return;
        }
        out := RenderJinja(host, disk);
      } else {
        out := WriteContent(host.cwd, false, false, [], disk);
      }
      if out.Fail? {
        return;
      }
      out := SetUnixSettings(disk);
    }

    method HandleSources(jobOverride: Option<IamOverrideDef>, sessionOverride: Option<Session>, host: Host, disk: Disk)
      returns (out: Outcome)
      requires def.source.Some?
      modifies this, disk
      ensures Step(Machine(State(), disk.State()), out) ==
              SourcesHandled(old(Machine(State(), disk.State())), old(def.source.value), jobOverride, sessionOverride, host)
    {
      var s := def.source.value;
      match SelectSource(s)
      case UseUrl(u) => out := HandleUrlSource(u, host, disk);
      case UseSsm(ssm) => out := Assign(FetchSsm(host.api, host.expand, ssm, jobOverride, sessionOverride));
      case UseS3(s3) => out := Assign(FetchS3(host.api, host.expand, s3, jobOverride, sessionOverride));
      case UseSecret(secret) => out := Assign(FetchSecret(host.api, host.expand, secret, jobOverride, sessionOverride));
      case UseNone => out := Pass;
    }

    /** `self.content = fetcher.get_content(...)` */
    method Assign(fetched: Result<Value>) returns (out: Outcome)
      modifies this
      ensures fetched.Success? ==> State() == old(State()).(content := fetched.value) && out == Pass
      ensures fetched.Failure? ==> State() == old(State()) && out == Fail(fetched.error)
    {
      match fetched
      case Success(v) =>
        content := v;
        out := Pass;
      case Failure(e) =>
        out := Fail(e);
    }

    method HandleUrlSource(u: UrlDef, host: Host, disk: Disk) returns (out: Outcome)
      modifies disk
      ensures Step(Machine(State(), disk.State()), out) == UrlHandled(old(Machine(State(), disk.State())), u, host)
    {
      match host.httpGet(u.url, UrlAuth(u))
      case Failure(e) =>
        out := Fail(e);
      case Success(resp) =>
        if IsHttpError(resp.status) {
          out := Fail(Raised("HTTPError", "HTTP error status"));
        } else {
          out := WriteContent(host.cwd, true, true, resp.content, disk);
        }
    }

    method RenderJinja(host: Host, disk: Disk) returns (out: Outcome)
      modifies this, disk
      ensures Step(Machine(State(), disk.State()), out) == JinjaRendered(old(Machine(State(), disk.State())), host)
    {
      if templatesDir.None? {
        return Fail(Raised("AttributeError", "'NoneType' object has no attribute 'name'"));
      }
      if def.path.None? {
        return Fail(Raised("TypeError", "expected str, bytes or os.PathLike object, not NoneType"));
      }
      var text := TemplateSource(disk.State(), Abspath(host.cwd, templatesDir.value + "/" + Basename(def.path.value)));
      if text.Failure? {
        return Fail(text.error);
      }
      var rendered := host.render(text.value, RenderFilters, host.environ);
      if rendered.Failure? {
        return Fail(rendered.error);
      }
      content := PyStr(rendered.value);
      out := WriteContent(host.cwd, false, false, [], disk);
    }

    method SetUnixSettings(disk: Disk) returns (out: Outcome)
      modifies disk
      ensures Step(Machine(State(), disk.State()), out) == UnixSettingsApplied(old(Machine(State(), disk.State())))
    {
      out := disk.Run(ChmodArgv(def));
      if out.Fail? {
        return;
      }
      out := disk.Run(ChownArgv(def));
    }

    method WriteContent(cwd: string, isTemplate: bool, asBytes: bool, bytesContent: seq<byte>, disk: Disk)
      returns (out: Outcome)
      modifies disk
      ensures Step(Machine(State(), disk.State()), out) ==
              ContentWritten(old(Machine(State(), disk.State())), cwd, isTemplate, asBytes, bytesContent)
    {
      var target := WriteTarget(State(), isTemplate);
      if target.Failure? {
        return Fail(target.error);
      }
      var blob := ContentBlob(content, asBytes, bytesContent);
      if blob.None? {
        return Pass;
      }
      out := disk.Write(cwd, target.value, blob.value);
    }
  }
}
