/** The job document's data model (a generated set of dataclasses and
    enums).  Every optional attribute is an `Option`, and each constructor
    parameter carries the same default as the dataclass field.  Dicts of
    the document are insertion-ordered entry sequences. */
module Input {
  import opened Wrappers
  import opened OrderedMaps

  datatype Encoding = Base64 | Plain

  datatype Context = Plain | Jinja2

  datatype IgnoreFailureItem = IgnoreFailureItem(
    commands: Option<bool> := Some(false),
    mode: Option<bool> := Some(false),
    owner: Option<bool> := Some(false),
    sourceDownload: Option<bool> := Some(false))

  /** `Union[IgnoreFailureItem, bool]` */
  datatype IgnoreFailure = Uniform(flag: bool) | PerStage(item: IgnoreFailureItem)

  datatype UrlDef = UrlDef(
    url: Option<string> := None,
    username: Option<string> := None,
    password: Option<string> := None)

  datatype IamOverrideDef = IamOverrideDef(
    roleArn: Option<string> := None,
    sessionName: Option<string> := Some("S3File@EcsConfigComposer"),
    externalId: Option<string> := None,
    regionName: Option<string> := None,
    accessKeyId: Option<string> := None,
    secretAccessKey: Option<string> := None,
    sessionToken: Option<string> := None)

  datatype CommandsDefItem = CommandsDefItem(
    command: Option<string> := None,
    displayOutput: Option<bool> := Some(false),
    ignoreError: Option<bool> := Some(false))

  /** `Union[str, CommandsDefItem]` */
  datatype Command = CommandLine(line: string) | CommandItem(item: CommandsDefItem)

  datatype X509CertDef = X509CertDef(
    keyFileName: string,
    certFileName: string,
    dirPath: Option<string> := None,
    emailAddress: Option<string> := Some("files-composer@compose-x.tld"),
    commonName: Option<string> := None,
    countryName: Option<string> := Some("ZZ"),
    localityName: Option<string> := Some("Anywhere"),
    stateOrProvinceName: Option<string> := Some("Shire"),
    organizationName: Option<string> := Some("NoOne"),
    organizationUnitName: Option<string> := Some("Automation"),
    validityEndInSeconds: Option<real> := Some(8035200.0),
    group: Option<string> := Some("root"),
    owner: Option<string> := Some("root"))

  datatype Certificates = Certificates(x509: Option<Entries<X509CertDef>> := None)

  datatype Commands = Commands(
    post: Option<seq<Command>> := None,
    pre: Option<seq<Command>> := None)

  datatype SsmDef = SsmDef(
    parameterName: Option<string> := None,
    iamOverride: Option<IamOverrideDef> := None)

  datatype SecretDef = SecretDef(
    secretId: string,
    versionId: Option<string> := None,
    versionStage: Option<string> := None,
    jsonKey: Option<string> := None,
    iamOverride: Option<IamOverrideDef> := None)

  datatype S3Def = S3Def(
    s3Uri: Option<string> := None,
    composeXUri: Option<string> := None,
    bucketName: Option<string> := None,
    bucketRegion: Option<string> := None,
    key: Option<string> := None,
    iamOverride: Option<IamOverrideDef> := None)

  /** Four independent optional variants; nothing makes them exclusive. */
  datatype SourceDef = SourceDef(
    url: Option<UrlDef> := None,
    ssm: Option<SsmDef> := None,
    s3: Option<S3Def> := None,
    secret: Option<SecretDef> := None)

  datatype FileDef = FileDef(
    path: Option<string> := None,
    content: Option<string> := None,
    source: Option<SourceDef> := None,
    encoding: Option<Encoding> := Some(Encoding.Plain),
    group: Option<string> := Some("root"),
    owner: Option<string> := Some("root"),
    mode: Option<string> := Some("0644"),
    context: Option<Context> := Some(Context.Plain),
    ignoreFailure: Option<IgnoreFailure> := None,
    commands: Option<Commands> := None)

  /** The whole job document. */
  datatype Model = Model(
    files: Option<Entries<FileDef>> := None,
    certificates: Option<Certificates> := None,
    iamOverride: Option<IamOverrideDef> := None)

  /** The defaults a document gets for every attribute it leaves out. */
  lemma Defaults()
    ensures FileDef() == FileDef(None, None, None, Some(Encoding.Plain), Some("root"), Some("root"),
                                 Some("0644"), Some(Context.Plain), None, None)
    ensures IgnoreFailureItem() == IgnoreFailureItem(Some(false), Some(false), Some(false), Some(false))
    ensures IamOverrideDef() == IamOverrideDef(None, Some("S3File@EcsConfigComposer"), None, None, None, None, None)
    ensures CommandsDefItem() == CommandsDefItem(None, Some(false), Some(false))
    ensures SourceDef() == SourceDef(None, None, None, None)
    ensures Model() == Model(None, None, None)
  {
  }
}
