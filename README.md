# ecs-files-composer, modelled in Dafny

ecs-files-composer runs inside an ECS task. It reads a job document that
names files, and for each file it:

- creates the parent directory;
- obtains the content, either inline or fetched from SSM Parameter Store,
  S3, Secrets Manager or a URL;
- decodes base64;
- renders Jinja2 templates;
- writes the result;
- sets the mode and the owner.

A job may also declare self-signed X.509 certificates. Each one becomes two
more file jobs, one for the key and one for the certificate.

This project models that core and proves what it promises. The pieces are:

- **File pipeline, current revision.**
  - The steps of `File.handler` are pure functions over a machine, which is
    a file's fields plus a modelled filesystem (`FilesMgmt`). `Handled`
    composes them.
  - The class `FilesMgmt.File` performs the same steps in place against a
    `Disk.Disk` object. Every method is proved to reach exactly the state
    those functions describe.
  - Lemmas prove the rules the pipeline promises:
    - inline content wins over any source;
    - the first present source is the one fetched;
    - credentials have a fixed precedence;
    - base64 content is decoded before any write;
    - a template goes to the sandbox and is rendered to the real path;
    - nothing is written when there is nothing to write;
    - chmod then chown are run.
- **File pipeline, older revision** (`Composer`). This is the `File` class
  that the job loop drives.
  - Its handler's write rules are stated as lemmas.
  - The bootstrap `init_config` has its source precedence and its
    credential environment variables stated.
  - `start_jobs` is a method. Its loops are proved to prepare one file per
    map entry, with the path set to the key, and to run every handler in
    map order.
- **AWS credentials and requests** (`AwsMgmt`).
  - The assume-role decision, the session names and the optional request
    fields.
  - The parse of an `s3://bucket/key` URI, proved complete for every
    well-formed bucket and key.
- **Octal modes** (`Chmod`).
  - The `^[0-7]{1,3}$` check and the zero padding.
  - The nested loops that add up the stat bits. They are proved to compute
    the octal value of the padded mode, which is always below 0o1000.
- **Certificates** (`Certificates`).
  - `X509Certificate`'s lazily filled fields, as a class.
  - `process_x509_certs`, as a method whose loop is proved against a
    recursive specification. The lemmas about that specification prove:
    - certificates are issued in map order;
    - the file map only gains generated entries at the computed paths;
    - a missing file map is created.
- **Helpers.**
  - `Input`: the configuration dataclasses with their defaults.
  - `Common`: `keyisset` and `keypresent`.
  - `Jinja2Filters`: the `env_override` filter.
  - `Jinja2Functions`: `env_var`, `hostname` and the function registry.
  - `Jinja2Aws`: the ECS metadata, MSK, SSM and zone-id functions.
- **Supporting modules.**
  - `PyValues`: Python values and their truthiness.
  - `OrderedMaps`: insertion-ordered dicts.
  - `Paths`: `dirname`, `basename` and `abspath` without normalisation.
  - `Base64`: the non-strict decoder that `base64.b64decode` uses, with the
    padded encoding of section 4 of RFC 4648. A round trip is proved.
  - `Utf8`: strict UTF-8 decoding.
  - `Disk`: the filesystem and the log of child processes.

Anything outside the process is a parameter of the model:

- the AWS API (one function from client, operation and parameters to a
  reply);
- HTTP GET;
- `expandvars`;
- template rendering;
- YAML and JSON parsing;
- the metadata property lookup;
- RSA keys and signing;
- the host name.

The operating-system environment is a map that the model only reads.
Directories are created and files written in the `Disk` model. A child
process appends its argument vector to a log, and its exit status is never
consulted, because the source passes no `check`. The model follows the
code as written. Some calls cannot run as written: `parse_obj` in
`start_jobs`, the `get_property` import, the handlers reading fields other
than the declared ones, and the `client_session_override` argument. For
those the model takes the intended behaviour, and "Left out" names each
place and what the model takes instead.

## Model

| member | source | states |
|---|---|---|
| FilesMgmt.WithDirPath | ecs_files_composer/files_mgmt.py:37-39 | a set path gives the absolute form of its dirname as the directory; no path leaves the file unchanged |
| FilesMgmt.DirEnsured | ecs_files_composer/files_mgmt.py:48-53 | an unset directory becomes the absolute dirname of the path; a directory that does not exist is made with its parents, with the outcome and state of mkdir(parents=True, exist_ok=True); on Pass an absolute directory exists; definition, content, files and command log are preserved |
| FilesMgmt.DirEnsuredReadiesPath | ecs_files_composer/files_mgmt.py:48-53 | for a fresh file whose path is creatable, the directory step passes and leaves the path writable, adding only the path's ancestors as directories |
| FilesMgmt.Sandboxed | ecs_files_composer/files_mgmt.py:54-59 | a jinja2 file gets the sandbox as templates directory and the sandbox is created; any other file is untouched |
| FilesMgmt.SelectSource | ecs_files_composer/files_mgmt.py:84-94 | the chosen variant is present and every variant before it in the order Url, Ssm, S3, Secret is absent; none is chosen iff all four are absent |
| FilesMgmt.ChooseCredentials | ecs_files_composer/files_mgmt.py:106-113 | the credentials are the first set candidate of source override, job override, session override, default |
| FilesMgmt.FetchSsm | ecs_files_composer/files_mgmt.py:96-113 | the parameter name is expanded first; the fetcher is built from the chosen credentials and its failure propagates; any error after the request is the TypeError of the broken except clause |
| FilesMgmt.FetchS3 | ecs_files_composer/files_mgmt.py:116-135 | bucket then key are expanded, each failure propagating; the fetcher from the chosen credentials fetches exactly that bucket and key, with no URI |
| FilesMgmt.FetchSecret | ecs_files_composer/files_mgmt.py:137-153 | the fetcher from the chosen credentials fetches the secret declaration; a fetcher failure propagates |
| FilesMgmt.CredentialPrecedence | ecs_files_composer/files_mgmt.py:106-113 | each of the four precedence cases, stated separately: the source-level override beats the job override, which beats the session, which beats the default |
| FilesMgmt.ContentSet | ecs_files_composer/files_mgmt.py:114 | a successful fetch replaces the content; a failed one leaves the machine as it was and propagates the exception |
| FilesMgmt.WriteTarget | ecs_files_composer/files_mgmt.py:234-238 | the target is sandbox + "/" + basename(path) exactly when a sandbox exists and the write is a template write; otherwise it is the path |
| FilesMgmt.ContentBlob | ecs_files_composer/files_mgmt.py:240-248 | a str is written as text, a stream as its bytes, otherwise non-empty bytes passed as bytes; nothing in any other case |
| FilesMgmt.ContentWritten | ecs_files_composer/files_mgmt.py:225-248 | only the file map changes: with a blob to write, the write passes iff the target is set, non-empty and writable (its directory exists, no ancestor is a regular file, it is not a directory), and then the target holds the blob; a failed write changes nothing; no blob means no write; an unset path fails |
| FilesMgmt.UrlAuth | ecs_files_composer/files_mgmt.py:160-166 | basic auth is used iff both username and password are set, and it is exactly that pair |
| FilesMgmt.UrlHandled | ecs_files_composer/files_mgmt.py:155-172 | an HTTP failure propagates and a 4xx/5xx status raises HTTPError, both with nothing changed; otherwise the body is written as bytes by the write step, at the path when there is no sandbox |
| FilesMgmt.SourcesHandled | ecs_files_composer/files_mgmt.py:77-94 | exactly the handler of the selected variant runs, with both overrides passed along; no variant does nothing |
| FilesMgmt.DecodeContent | ecs_files_composer/files_mgmt.py:67 | a str is base64-decoded and then UTF-8-decoded, and either failure propagates; a non-string content raises TypeError |
| FilesMgmt.DecodeEncodedAscii | ecs_files_composer/files_mgmt.py:66-67 | decoding the base64 encoding of ASCII bytes gives back the text of those bytes |
| FilesMgmt.Decoded | ecs_files_composer/files_mgmt.py:66-67 | truthy base64 content is replaced by its decoded text; anything else passes unchanged |
| FilesMgmt.TemplateSource | ecs_files_composer/files_mgmt.py:187 | a missing template raises TemplateNotFound; a text file is loaded verbatim |
| FilesMgmt.JinjaRendered | ecs_files_composer/files_mgmt.py:174-189 | without a sandbox it raises AttributeError; on Pass the template of the path's basename was loaded from the sandbox, rendered with env_override registered, and the rendered text is the new content and sits at the real path; a failure changes no file |
| FilesMgmt.Permissions | ecs_files_composer/files_mgmt.py:191-223 | with mode and path set, the log gains ["chmod", mode, path] then ["chown", "owner:group", path] and nothing fails; files and directories are untouched |
| FilesMgmt.UnixSettingsApplied | ecs_files_composer/files_mgmt.py:191-223 | passes iff path and mode are set, and then the log gains exactly the chmod and chown entries; files, directories and the object are untouched |
| FilesMgmt.ContentObtained | ecs_files_composer/files_mgmt.py:62-67 | without a source or with truthy content no fetch happens and the result is the decode step alone; after a passing base64 step the content is text or falsy |
| FilesMgmt.Emitted | ecs_files_composer/files_mgmt.py:68-73 | on Pass the chmod and chown entries follow, and without a sandbox a str or stream content sits at the path |
| FilesMgmt.Handled | ecs_files_composer/files_mgmt.py:41-75 | the whole handler never changes the definition, never removes a file or directory, and on Pass has run chmod then chown; its lemmas below state the write rules |
| FilesMgmt.InlineContentWins | ecs_files_composer/files_mgmt.py:62-65 | with truthy inline content the whole handler's result does not depend on the AWS API, expandvars or HTTP |
| FilesMgmt.SandboxCopyWritable | ecs_files_composer/files_mgmt.py:68-70 | once the sandbox exists, its copy under the path's basename is writable, and writing it keeps the real path writable |
| FilesMgmt.Base64ContentDecodedBeforeWrite | ecs_files_composer/files_mgmt.py:66-73 | inline base64 of ASCII bytes ends with the decoded text at the path, and chmod/chown are logged, for every path whose directory mkdir can create |
| FilesMgmt.JinjaWritesSandboxThenRendered | ecs_files_composer/files_mgmt.py:68-72 | a jinja2 file writes its raw text to the sandbox copy, then the rendered text to the real path, which becomes the content, for every creatable path and sandbox name that does not clash with it |
| FilesMgmt.UrlBodyWritten | ecs_files_composer/files_mgmt.py:155-172 | a URL source without content writes the response body as bytes at the path, for every path whose directory mkdir can create |
| FilesMgmt.UrlBodyDroppedForEmptyContent | ecs_files_composer/files_mgmt.py:62-72 | with empty inline content and a URL source, both the URL step and the final write put "" at the path, because write_content prefers str content over the body; the body is never written, for every path whose directory mkdir can create |
| FilesMgmt.NothingToWrite | ecs_files_composer/files_mgmt.py:62-73 | no content and no source: no file is written, only chmod and chown run |
| FilesMgmt.File.constructor | ecs_files_composer/files_mgmt.py:32-35 | a new file holds its definition, its inline content, and no directory or sandbox |
| FilesMgmt.File.SetDirPath | ecs_files_composer/files_mgmt.py:37-39 | the fields become WithDirPath of the old fields |
| FilesMgmt.File.Handler | ecs_files_composer/files_mgmt.py:41-75 | the object and the disk end in exactly the state and outcome of Handled |
| FilesMgmt.File.EnsureDir | ecs_files_composer/files_mgmt.py:48-53 | object and disk reach DirEnsured |
| FilesMgmt.File.ObtainContent | ecs_files_composer/files_mgmt.py:62-67 | object and disk reach the source-then-decode step |
| FilesMgmt.File.Emit | ecs_files_composer/files_mgmt.py:68-73 | object and disk reach the write, render and permission step |
| FilesMgmt.File.HandleSources | ecs_files_composer/files_mgmt.py:77-94 | object and disk reach SourcesHandled |
| FilesMgmt.File.Assign | ecs_files_composer/files_mgmt.py:114 | a fetched value becomes the content; a failure changes nothing |
| FilesMgmt.File.HandleUrlSource | ecs_files_composer/files_mgmt.py:155-172 | the disk reaches the URL step: HTTP failure or 4xx/5xx raises, otherwise the body is written |
| FilesMgmt.File.RenderJinja | ecs_files_composer/files_mgmt.py:174-189 | object and disk reach the render step |
| FilesMgmt.File.SetUnixSettings | ecs_files_composer/files_mgmt.py:191-223 | the disk reaches Permissions |
| FilesMgmt.File.WriteContent | ecs_files_composer/files_mgmt.py:225-248 | the disk reaches ContentWritten |
| Composer.LegacySourcesHandled | ecs_files_composer/ecs_files_composer.py:191-254 | a URL source or no source does nothing; SSM, S3 and Secret are fetched with the source override, else the job override |
| Composer.LegacyWritten | ecs_files_composer/ecs_files_composer.py:282-292 | nothing is created: a str or stream write fails with nothing changed unless the path is set, non-empty and writable; on a writable path decode plus base64 writes the decoded bytes, and a failed decode leaves an empty file and raises; other strings are written verbatim and streams as bytes; anything else writes nothing |
| Composer.LegacyHandled | ecs_files_composer/ecs_files_composer.py:173-189 | the definition is never changed by the handler |
| Composer.LegacyContentDecoded | ecs_files_composer/ecs_files_composer.py:185-187 | inline base64 content without a source ends as the decoded bytes at the path, with chmod/chown logged, when the path is writable (this handler makes no directory) |
| Composer.LegacyFetchedNotDecoded | ecs_files_composer/ecs_files_composer.py:182-184 | fetched SSM text is written undecoded at a writable path |
| Composer.LegacyNoWrite | ecs_files_composer/ecs_files_composer.py:180-189 | source and content both present, both absent, or a URL source: no write, only the permission commands |
| Composer.LegacyLogGrowth | ecs_files_composer/ecs_files_composer.py:187 | a passing handler adds exactly the chmod and chown entries to the log |
| Composer.SelectBootSource | ecs_files_composer/ecs_files_composer.py:311-328 | the chosen source is the first present of ssm, s3, file, raw, env_var; none iff none is present |
| Composer.BootCredentials | ecs_files_composer/ecs_files_composer.py:311-313 | for ssm/s3, CONFIG_IAM_ROLE_ARN replaces the role when set and CONFIG_IAM_EXTERNAL_ID always replaces the external id (None when unset); otherwise both arguments pass through |
| Composer.ReadBody | ecs_files_composer/ecs_files_composer.py:319 | only a stream can be read, and it yields its bytes |
| Composer.LoadContent | ecs_files_composer/ecs_files_composer.py:314-328 | no source raises "No input source was provided"; raw is used as is; an env var yields its value or None |
| Composer.ParseConfig | ecs_files_composer/ecs_files_composer.py:331-337 | YAML is tried first; only a YAMLError falls back to JSON; other errors propagate |
| Composer.InitConfig | ecs_files_composer/ecs_files_composer.py:295-338 | load errors propagate, falsy content raises ImportError before parsing, truthy content is parsed |
| Composer.InitConfigWithoutSource | ecs_files_composer/ecs_files_composer.py:327-328 | with nothing given, init_config raises "No input source was provided" |
| Composer.InitConfigSsmWins | ecs_files_composer/ecs_files_composer.py:314-316 | a set SSM parameter makes the file path, raw content and env var irrelevant |
| Composer.InitConfigEmptyEnvVar | ecs_files_composer/ecs_files_composer.py:325-330 | an unset or empty variable raises ImportError |
| Composer.PreparedDefs | ecs_files_composer/ecs_files_composer.py:351-354 | one definition per map entry, in order, each with its path set to the entry's key |
| Composer.RunJobs | ecs_files_composer/ecs_files_composer.py:355-357 | the handlers run in map order: the first failing one stops the run with its state and error; files and directories are never removed and the log only grows |
| Composer.RunJobsLogsEveryFile | ecs_files_composer/ecs_files_composer.py:355-357 | when every handler passes, the log grows by two entries per file, and the chmod of file i is at slot 2i |
| Composer.RunJobsLogsAfter | ecs_files_composer/ecs_files_composer.py:355-357 | the same log layout for the jobs after the first, measured from before the first |
| Composer.LegacyFile.constructor | ecs_files_composer/ecs_files_composer.py:170-171 | a new file holds its definition and inline content |
| Composer.LegacyFile.SetPath | ecs_files_composer/ecs_files_composer.py:354 | only the path changes |
| Composer.LegacyFile.Handler | ecs_files_composer/ecs_files_composer.py:173-189 | object and disk reach LegacyHandled |
| Composer.LegacyFile.HandleSources | ecs_files_composer/ecs_files_composer.py:191-206 | the object reaches LegacySourcesHandled; the disk is not modified |
| Composer.LegacyFile.Assign | ecs_files_composer/ecs_files_composer.py:226 | a fetched value becomes the content; a failure changes nothing |
| Composer.LegacyFile.SetUnixSettings | ecs_files_composer/ecs_files_composer.py:256-280 | the disk reaches Permissions of the definition |
| Composer.LegacyFile.WriteContent | ecs_files_composer/ecs_files_composer.py:282-292 | the disk reaches LegacyWritten |
| Composer.LegacyFile.WriteDecoded | ecs_files_composer/ecs_files_composer.py:282-285 | the base64 branch of the write reaches LegacyWritten with decode set |
| Composer.ParsedJob | ecs_files_composer/ecs_files_composer.py:348-350 | without a truthy "files" key it raises KeyError "Missing required files from configuration input"; otherwise the document is parsed |
| Composer.StartJobs | ecs_files_composer/ecs_files_composer.py:341-357 | a parse failure or missing files changes nothing; otherwise one file object per entry has the prepared definition and the disk reaches RunJobs over them, in map order, with the job override |
| Composer.NewFiles | ecs_files_composer/ecs_files_composer.py:351-354 | one fresh, distinct object per entry holding the prepared definition |
| Composer.RunHandlers | ecs_files_composer/ecs_files_composer.py:355-357 | running the handlers in order takes the disk to RunJobs and keeps every definition |
| AwsMgmt.CreateSessionFromCreds | ecs_files_composer/aws_mgmt.py:18-33 | succeeds iff the three credential fields are present; the session gets exactly those three plus region_name when a region is set |
| AwsMgmt.AssumeRolePlan | ecs_files_composer/aws_mgmt.py:50-65 | no assume-role iff neither role nor override; a bare role uses the fixed session name and the region argument; an override takes precedence, with its own name + "@AwsResourceHandlerInit" and its own region; ExternalId only when set |
| AwsMgmt.OverrideIgnoresArguments | ecs_files_composer/aws_mgmt.py:57-65 | with an override object, the role, external id and region arguments do not matter |
| AwsMgmt.NewHandler | ecs_files_composer/aws_mgmt.py:41-65 | the main session is the default one; without assume-role the client session is too; otherwise the STS reply's failure propagates or its credentials make the client session |
| AwsMgmt.NewFetcher | ecs_files_composer/aws_mgmt.py:73-75 | a fetcher exists iff its handler does, and its client is the service's client on the client session |
| AwsMgmt.FetcherFor | ecs_files_composer/files_mgmt.py:106-113 | an override builds a fetcher from it, a session override is used directly, otherwise the default session |
| AwsMgmt.SsmRequest | ecs_files_composer/aws_mgmt.py:116 | the request is exactly Name and WithDecryption=True |
| AwsMgmt.SsmGetContent | ecs_files_composer/aws_mgmt.py:108-121 | succeeds iff the reply holds Parameter.Value, which is the result; every failure, API error or missing key, becomes the TypeError of `except self.client.exceptions:` |
| AwsMgmt.BucketRun | ecs_files_composer/aws_mgmt.py:86 | the longest prefix of bucket characters [a-z0-9-.] |
| AwsMgmt.MatchS3Uri | ecs_files_composer/aws_mgmt.py:86-89 | a match gives a valid bucket and a non-whitespace key that rebuild the URI, with at most one trailing newline |
| AwsMgmt.MatchS3UriComplete | ecs_files_composer/aws_mgmt.py:86-89 | every well-formed s3://bucket/key, with or without a final newline, matches with exactly that bucket and key |
| AwsMgmt.S3Request | ecs_files_composer/aws_mgmt.py:91 | the request is exactly Bucket and Key |
| AwsMgmt.S3GetContent | ecs_files_composer/aws_mgmt.py:77-96 | a matching URI overrides bucket and key; a non-matching URI raises AttributeError before any request; without a URI the explicit bucket and key are used |
| AwsMgmt.S3GetObject | ecs_files_composer/aws_mgmt.py:90-93 | the result is the reply's Body |
| AwsMgmt.SecretRequest | ecs_files_composer/aws_mgmt.py:140-146 | SecretId always; VersionId and VersionStage only when set |
| AwsMgmt.SecretGetContent | ecs_files_composer/aws_mgmt.py:133-153 | the secret id is expanded first and its failure propagates; the result is SecretString of the reply; every later failure becomes the TypeError of `except self.client.exceptions:` |
| Chmod.MatchesModePattern | ecs_files_composer/chmod.py:17 | a match is one to four characters, all octal digits except possibly a final newline; a match ending in a digit is a valid one-to-three-digit mode |
| Chmod.Chmod | ecs_files_composer/chmod.py:14-25 | succeeds iff the mode text is valid, with one chmod call at the octal value of the padded text; a pattern mismatch raises the fixed Exception; a mode admitted only through the newline that `$` allows raises ValueError |
| Chmod.ModeNumber | ecs_files_composer/chmod.py:19-24 | the nested loops compute exactly the octal value of the padded mode; a padded mode ending in that newline raises ValueError at int() |
| Chmod.NatToDecimal | ecs_files_composer/chmod.py:15-16 | str() of a non-negative int is a non-empty string of decimal digits |
| Chmod.Pad3 | ecs_files_composer/chmod.py:19 | the result ends with the input and is at least 3 long, padded with '0' on the left |
| Chmod.StatBitIsScaledBit | ecs_files_composer/chmod.py:5-11 | the stat constant for permission b of class j is that permission's bit at the place value of digit j (64, 8 or 1) |
| Chmod.DigitIsItsBits | ecs_files_composer/chmod.py:22-24 | testing 4, 2, 1 against an octal digit and adding the hits gives the digit |
| Chmod.WeightedIsOctal | ecs_files_composer/chmod.py:20-24 | adding the stat bits over three digits gives the octal value of the string |
| Chmod.PaddedValue | ecs_files_composer/chmod.py:19 | zero padding keeps the string octal and keeps its value |
| Chmod.ModeClasses | ecs_files_composer/chmod.py:17-24 | a valid mode pads to three octal digits for user, group, other, and its value is below 0o1000 |
| Chmod.FourDigitModeRejected | ecs_files_composer/chmod.py:17-18 | the FileDef default "0644" does not match the pattern |
| Chmod.IntModeReadThroughDecimalDigits | ecs_files_composer/chmod.py:15-16 | an int mode is read through its decimal digits: 644 gives 0o644 and 420 gives 0o420 |
| Certificates.CertPathsSet | ecs_files_composer/certificates_mgmt.py:42-47 | both paths are abspath(dir + "/" + name), and the directory is created with its parents; an unset dir raises TypeError |
| Certificates.PathsInDirectory | ecs_files_composer/certificates_mgmt.py:43-44 | each generated path has the directory as its dirname and the file name as its basename |
| Certificates.KeyGenerated | ecs_files_composer/certificates_mgmt.py:49-51 | only the key field changes |
| Certificates.CommonNameSet | ecs_files_composer/certificates_mgmt.py:53-55 | a None common name becomes the host name; any set one, the empty string included, is kept |
| Certificates.CertGenerated | ecs_files_composer/certificates_mgmt.py:57-73 | the certificate is signed under the key for the subject with its common name filled in; nothing else changes |
| Certificates.ContentGenerated | ecs_files_composer/certificates_mgmt.py:75-85 | key and certificate are generated only when missing, and both PEM contents are their dumps |
| Certificates.CertFilesSet | ecs_files_composer/certificates_mgmt.py:87-110 | two file jobs with mode 0600, the owner and group of the spec, the computed paths and the PEM contents; existing contents are reused |
| Certificates.CertFilesSetIdempotent | ecs_files_composer/certificates_mgmt.py:88-89 | setting the files twice is the same as once |
| Certificates.IssuedFor | ecs_files_composer/certificates_mgmt.py:118-123 | one declaration issues at its directory: the disk gains the directory; on success both file jobs sit at the computed paths with its owner and group |
| Certificates.Processed | ecs_files_composer/certificates_mgmt.py:113-128 | the specification of the loop: one certificate per declaration until the first failure, and all of them on success |
| Certificates.IssuedInOrder | ecs_files_composer/certificates_mgmt.py:117-124 | certificate i is issued for declaration i, at its directory and file names |
| Certificates.IssuedInOrderAfter | ecs_files_composer/certificates_mgmt.py:117-124 | the same order for the declarations after the first |
| Certificates.Merged | ecs_files_composer/certificates_mgmt.py:125-128 | the key path maps to the key file job; the certificate path maps to the certificate file job unless the key job took the same path last; every other key keeps its entry |
| Certificates.MergedExtends | ecs_files_composer/certificates_mgmt.py:127-128 | merging one certificate changes the file map only at its certificate and key paths, with generated entries |
| Certificates.FilesAfterProcessing | ecs_files_composer/certificates_mgmt.py:125-128 | after a successful run the file map exists iff it existed or a declaration existed, and it differs from the old one only by generated entries at generated paths |
| Certificates.X509Certificate.constructor | ecs_files_composer/certificates_mgmt.py:30-40 | every lazily filled field starts empty |
| Certificates.X509Certificate.SetDirPath | ecs_files_composer/certificates_mgmt.py:121 | only the directory changes |
| Certificates.X509Certificate.InitCertPaths | ecs_files_composer/certificates_mgmt.py:42-47 | object and disk reach CertPathsSet |
| Certificates.X509Certificate.GenerateKey | ecs_files_composer/certificates_mgmt.py:49-51 | the fields reach KeyGenerated |
| Certificates.X509Certificate.SetCommonName | ecs_files_composer/certificates_mgmt.py:53-55 | the fields reach CommonNameSet |
| Certificates.X509Certificate.GenerateCert | ecs_files_composer/certificates_mgmt.py:57-73 | the fields reach CertGenerated |
| Certificates.X509Certificate.GenerateCertContent | ecs_files_composer/certificates_mgmt.py:75-85 | the fields reach ContentGenerated |
| Certificates.X509Certificate.SetCertFiles | ecs_files_composer/certificates_mgmt.py:87-110 | the fields reach CertFilesSet |
| Certificates.Job.ProcessX509Certs | ecs_files_composer/certificates_mgmt.py:113-128 | no x509 map changes nothing; otherwise files, disk and outcome are those of Processed, the x509 keys are unchanged, issued slots hold their certificates, and the rest is untouched |
| Certificates.Job.IssueAll | ecs_files_composer/certificates_mgmt.py:117-128 | the loop reaches Processed and replaces slot i by certificate i |
| Certificates.Job.IssueEntry | ecs_files_composer/certificates_mgmt.py:118-128 | one iteration advances Processed by one declaration, or stops it with the failure |
| Certificates.Job.IssueOne | ecs_files_composer/certificates_mgmt.py:118-123 | a fresh certificate object and the disk reach IssuedFor |
| Input.Defaults | ecs_files_composer/input.py:26-153 | the defaults: FileDef encoding and context plain, owner and group root, mode "0644"; IgnoreFailureItem all false; IamOverrideDef session name "S3File@EcsConfigComposer"; CommandsDefItem flags false; SourceDef and Model empty |
| Common.KeyIsSet | ecs_files_composer/common.py:10-24 | keyisset holds iff the key is present and its value is truthy |
| Common.KeyPresent | ecs_files_composer/common.py:27-42 | a present key means a dict with at least one entry |
| Common.KeyIsSetVersusKeyPresent | ecs_files_composer/common.py:10-41 | keyisset implies keypresent; they differ exactly at a present key with a falsy value; a non-dict fails both |
| Common.KeyIsSetMeansLookupTruthy | ecs_files_composer/common.py:22 | keyisset iff the lookup succeeds with a truthy value; keypresent iff the lookup succeeds |
| Jinja2Filters.Env | ecs_files_composer/jinja2_filters/__init__.py:12-19 | a set key, empty or not, gives its environment value; an unset key gives the value unchanged |
| Jinja2Filters.ApplyFilter | ecs_files_composer/files_mgmt.py:186 | the filter takes the piped value first and exactly one string key |
| Jinja2Filters.EnvOverrideBinding | ecs_files_composer/files_mgmt.py:186 | env_override is registered, and `value \| env_override('K')` is env(value, K) |
| Jinja2Filters.EnvIdempotent | ecs_files_composer/jinja2_filters/__init__.py:19 | applying the filter twice is applying it once |
| Jinja2Functions.EnvVar | ecs_files_composer/jinja2_functions/__init__.py:19-20 | a set key gives its value; otherwise the default, None unless given |
| Jinja2Functions.EnvVarIsEnvFilter | ecs_files_composer/jinja2_functions/__init__.py:19-20 | env_var agrees with the env_override filter |
| Jinja2Functions.Hostname | ecs_files_composer/jinja2_functions/__init__.py:23-37 | the platform name, else the socket name, else a truthy alternative, else None |
| Jinja2Functions.HostnameFallback | ecs_files_composer/jinja2_functions/__init__.py:23-37 | the alternative is ignored when either lookup succeeds; None exactly when both fail and the alternative is falsy |
| Jinja2Functions.RegistryShape | ecs_files_composer/jinja2_functions/__init__.py:40-51 | the registry has exactly the ten names, and only subnet_zone_id and ec2_zone_id share a function |
| Jinja2Aws.MetadataUrl | ecs_files_composer/jinja2_functions/aws.py:24-37 | V4 beats V3, unset or empty counts as absent, the task URL appends "/task", and neither set raises OSError |
| Jinja2Aws.TaskUrlExtendsContainerUrl | ecs_files_composer/jinja2_functions/aws.py:34-37 | the task URL exists iff the container URL does, and it is that URL + "/task" |
| Jinja2Aws.FetchMetadata | ecs_files_composer/jinja2_functions/aws.py:24-37 | the URL error or HTTP error propagates; otherwise the response's JSON |
| Jinja2Aws.EcsContainerMetadata | ecs_files_composer/jinja2_functions/aws.py:84-93 | the URL error propagates; no property key gives the whole container metadata; a None lookup gives the fallback |
| Jinja2Aws.EcsTaskMetadata | ecs_files_composer/jinja2_functions/aws.py:96-105 | the same rules against the task URL |
| Jinja2Aws.EcsMetadata | ecs_files_composer/jinja2_functions/aws.py:84-105 | no property key returns the whole metadata; a None lookup returns the fallback; a found value is returned |
| Jinja2Aws.MetadataNeedsEcs | ecs_files_composer/jinja2_functions/aws.py:32-33 | outside ECS both metadata functions raise OSError |
| Jinja2Aws.MskBootstrap | ecs_files_composer/jinja2_functions/aws.py:40-51 | the broker string when keyisset holds for the broker type, the ARN otherwise |
| Jinja2Aws.FromSsm | ecs_files_composer/jinja2_functions/aws.py:71-81 | succeeds iff the default-session reply holds Parameter.Value, which is the result; an API error propagates unchanged |
| Jinja2Aws.FromSsmIsAmbientFetch | ecs_files_composer/jinja2_functions/aws.py:71-81 | from_ssm and the SSM fetch on the default session succeed together and agree; on an API error from_ssm propagates it, where the fetcher raises the TypeError of its except clause |
| Jinja2Aws.FromSsmJson | ecs_files_composer/jinja2_functions/aws.py:54-68 | a JSONDecodeError gives {}; other errors and successes pass through |
| Jinja2Aws.Ec2ZoneId | ecs_files_composer/jinja2_functions/aws.py:108-132 | without a subnet id: the VPC id, subnet range and subnet search errors propagate in that order, and a found subnet gives its AvailabilityZoneId, KeyError when it has none; with one: a ClientError gives "", other API errors propagate, a reply without Subnets raises KeyError, an empty list IndexError, and otherwise the result is the first subnet's AvailabilityZoneId, KeyError when it has none |
| Jinja2Aws.Ec2ZoneIdFromReply | ecs_files_composer/jinja2_functions/aws.py:124-128 | a describe_subnets reply whose first subnet names a zone id gives that zone id, whatever else it lists |
| Jinja2Aws.Ec2ZoneIdFromTaskSubnet | ecs_files_composer/jinja2_functions/aws.py:117-123 | without a subnet id, a subnet search that finds the task's subnet gives its zone id |
| Jinja2Aws.Ec2ZoneIdWithSubnet | ecs_files_composer/jinja2_functions/aws.py:124-132 | with a subnet id the metadata and HTTP are not consulted, and a ClientError gives "" |
| Jinja2Aws.Ec2ZoneIdOutsideEcs | ecs_files_composer/jinja2_functions/aws.py:117-123 | without a subnet id outside ECS it raises OSError |
| Base64.Feed | ecs_files_composer/files_mgmt.py:67 | one alphabet character advances the quantum position by one and emits a byte on every position but the first |
| Base64.Finish | ecs_files_composer/files_mgmt.py:67 | end of input succeeds iff the quantum is complete |
| Base64.A2b | ecs_files_composer/files_mgmt.py:67 | every failure of the non-strict decoder is binascii.Error; at the end of input with a complete quantum the output is what was decoded so far |
| Base64.A2bExtends | ecs_files_composer/files_mgmt.py:67 | the non-strict decoder only appends to its output, at most one byte per input character |
| Base64.B64Decode | ecs_files_composer/files_mgmt.py:67 | a non-ASCII str raises ValueError; otherwise the result is the decoder's, never longer than the input |
| Base64.Encode | ecs_files_composer/files_mgmt.py:67 | the padded encoding has length 4⌈n/3⌉ and uses only alphabet characters and '=' |
| Base64.EncodeIsAscii | ecs_files_composer/files_mgmt.py:67 | an encoding is ASCII, so b64decode accepts it as a str |
| Base64.DecodeGroup | ecs_files_composer/files_mgmt.py:67 | four characters of a full group decode to its three bytes |
| Base64.DecodeTail | ecs_files_composer/files_mgmt.py:67 | a padded final group of one or two bytes decodes to those bytes and stops at the padding |
| Base64.DecodeEncoded | ecs_files_composer/files_mgmt.py:67 | the decoder recovers any byte string from its encoding |
| Base64.RoundTrip | ecs_files_composer/files_mgmt.py:67 | b64decode(encode(b)) == b |
| Utf8.DecodeAscii | ecs_files_composer/files_mgmt.py:67 | ASCII bytes decode to the characters of the same code points |
| Utf8.Decode | ecs_files_composer/files_mgmt.py:67 | a failure is UnicodeDecodeError; a success is no longer than the bytes and starts with the first decoded character; no bytes give "" |
| Paths.Basename | ecs_files_composer/files_mgmt.py:235 | a basename contains no '/' |
| Paths.Abspath | ecs_files_composer/files_mgmt.py:39 | an absolute path is kept; with an absolute cwd the result is absolute |
| Paths.JoinSplits | ecs_files_composer/certificates_mgmt.py:43-44 | dirname and basename split d + "/" + name back into d and name |
| OrderedMaps.Put | ecs_files_composer/certificates_mgmt.py:127-128 | an existing key keeps its place, a new key is appended, the key maps to the new value, and no other key changes |
| OrderedMaps.PutKeepsUniqueKeys | ecs_files_composer/certificates_mgmt.py:127-128 | insertion keeps keys unique |
| OrderedMaps.GetFindsKey | ecs_files_composer/certificates_mgmt.py:117 | with unique keys, the value of entry i is found by its key |
| PyValues.Format | ecs_files_composer/files_mgmt.py:210 | an f-string shows a set string as itself and None as "None" |
| PyValues.GetItem | ecs_files_composer/aws_mgmt.py:25 | a subscript succeeds iff the value is a dict holding the key |
| PyValues.GetIndex | ecs_files_composer/jinja2_functions/aws.py:128 | a list index succeeds iff it is in range, counting negative indices from the end |
| Disk.MkdirParents | ecs_files_composer/files_mgmt.py:52-53 | succeeds iff no ancestor is a regular file, and adds every ancestor as a directory; a failure changes nothing |
| Disk.MkdirIdempotent | ecs_files_composer/files_mgmt.py:53 | with exist_ok, a second mkdir changes nothing |
| Disk.WriteFile | ecs_files_composer/files_mgmt.py:240-248 | passes iff the path is set, non-empty and writable, and then the file holds the blob and nothing else changes; None raises TypeError, a missing directory FileNotFoundError, a directory IsADirectoryError, a regular-file ancestor NotADirectoryError, each with nothing changed |
| Disk.WriteKeepsWritable | ecs_files_composer/files_mgmt.py:240-248 | a written file stays writable, so a second open of the same path succeeds |
| Disk.MkdirMakesWritable | ecs_files_composer/files_mgmt.py:48-53 | making the directory of a creatable name with its parents passes and leaves the name writable |
| Disk.RunCommand | ecs_files_composer/files_mgmt.py:196-218 | a complete argument vector is logged; a None element raises TypeError |
| Disk.Disk.MakeDirs | ecs_files_composer/files_mgmt.py:52-53 | the disk reaches MkdirParents |
| Disk.Disk.AddDir | ecs_files_composer/files_mgmt.py:59 | only the directory is added |
| Disk.Disk.Write | ecs_files_composer/files_mgmt.py:240-248 | the disk reaches WriteFile |
| Disk.Disk.Run | ecs_files_composer/files_mgmt.py:196-218 | the disk reaches RunCommand |

## Left out

- Logging, `print` and `warnings.warn` (including the "Commands are not yet implemented" warnings at ecs_files_composer/files_mgmt.py:60-61 and 74-75). They have no effect on files.
- Pre and post commands. The code never runs them.
- `ignore_failure` and `ignore_if_failed`. The handler never reads the former. The latter appears only in an except branch that cannot be reached, because `subprocess.run` is called without `check`.
- Static-key credentials (`AccessKeyId`, `SecretAccessKey` and `SessionToken` of IamOverrideDef). No handler uses them.
- The exit status of chmod and chown. It is never consulted, so a child process is modelled as an entry in the command log.
- The AWS API, STS, HTTP, `expandvars`, Jinja2 rendering, YAML and JSON parsing, `get_property`, and the EC2 subnet lookup. These are foreign calls and become function parameters. The model states only how their replies and exceptions are used.
- RSA key generation, X.509 field setting, signing and PEM dumping. These become the opaque `Pki` record.
- The normalisation inside `abspath`. `Paths.Abspath` joins a relative path to the working directory without normalising it.
- `TemporaryDirectory` cleanup, and the finalisation of open file handles. These are process-lifetime effects.
- The environment is a map from string to string. Its keys are not checked to be valid variable names.
- The concrete base64 string of the test fixture in tests/test_ecs_config_composer.py. `Base64.RoundTrip` and `FilesMgmt.Base64ContentDecodedBeforeWrite` cover every such input generally; the literal is not evaluated.
- `Certificates.Job.ProcessX509Certs`: an x509 slot holds the certificate state rather than a shared object, so aliasing between the slot and the file jobs is not modelled.
- `Certificates.Job.ProcessX509Certs`: `certificates` None and `x509` None are collapsed into one None case, and the method requires every slot to be a declaration.
- `Certificates.Job.ProcessX509Certs`: running a second time on an already processed job is not modelled.
- The job loop's `process_x509_certs` call. The older `start_jobs` at ecs_files_composer/ecs_files_composer.py:341-357 never calls it, and the model follows the code, so certificates are processed only through `Certificates.Job`.
- Duplicated code: `ecs_files_composer.py` carries its own copy of `create_session_from_creds`, `AwsResourceHandler` and the three fetchers (lines 29-162). It is modelled once, by `AwsMgmt`.
- `Chmod`: `chmod.py` is not called by either pipeline, which run the `chmod` command instead. It is modelled on its own.
- Naming mismatches: the modelled fields follow the intended correspondence.
  - The code reads `source.ssm`, `iam_override` and `parameter_name`, while the dataclasses declare `Ssm`, `IamOverride` and `ParameterName`.
  - `files_mgmt.py` passes `client_session_override`, which the fetcher constructors do not accept. It is modelled as the fourth credential choice.
- `FilesMgmt.SourcesHandled`: the S3 branch of the current revision passes only bucket and key, so a declared `S3Uri` is never used there, as in the code.
- `Chmod.Chmod`: an int mode is read through its decimal digits, as `str()` makes it. So 420 means 0o420, not mode 0o644.
- The CLI (`cli.py` in both packages), `setup.py` and `setup_logging`. These are argument parsing and packaging.
- `certbot_aws_store.py`, `jinja2_functions/aws_tools.py` and `jinja2_filters/aws_filters.py`. These are thin wrappers over foreign AWS and ACME calls. The subnet lookup of `aws_tools.py` is a parameter of `Jinja2Aws`.
- `dump_ecs_details`. It only prints.
- `parse_obj`: `input.Model` and the older `File` define no `parse_obj`, so `start_jobs` as written raises AttributeError at ecs_files_composer/ecs_files_composer.py:350 and 352 for every input with files. The model takes the intended parse as the `parseModel` parameter of `Composer.Runner`, so `Composer.StartJobs` describes the intended run.
- `get_property`: jinja2_functions/aws.py:19 imports it from `jinja2_filters`, which does not define it, so that module fails to import as written. The model takes the intended lookup as the `getProperty` parameter of `Jinja2Aws.Runtime`.
- `using_resolve` (ecs_files_composer/jinja2_functions/aws.py:108-109). It is a one-line pass-through to the foreign resolve parser, and the model records it only as the `from_resolve` entry of the function registry.
