/** Self-signed X.509 certificates declared in a job: each declaration
    becomes a certificate object whose key and certificate PEM files are
    merged into the job's file map as two more file jobs. */
module Certificates {
  import opened Wrappers
  import opened PyValues
  import opened Input
  import opened OrderedMaps
  import opened Paths
  import opened Disk

  /** RSA key generation, signing and PEM encoding, left opaque: `newKey`
      stands for the fresh key made for a certificate, `sign` for the
      self-signed certificate of a subject under a key. */
  datatype Pki = Pki(
    hostname: string,
    newKey: X509CertDef -> string,
    sign: (X509CertDef, string) -> string,
    keyPem: string -> string,
    certPem: string -> string)

  /** The fields of an `X509Certificate`: its declaration (whose common
      name and directory the object updates) and what it fills in lazily. */
  datatype CertState = CertState(
    def: X509CertDef,
    key: Option<string>,
    cert: Option<string>,
    keyContent: Option<string>,
    certContent: Option<string>,
    certFilePath: Option<string>,
    keyFilePath: Option<string>,
    certFile: Option<FileDef>,
    keyFile: Option<FileDef>)

  datatype CertMachine = CertMachine(cert: CertState, fs: Fs)

  function Fresh(d: X509CertDef): CertState
  {
    CertState(d, None, None, None, None, None, None, None, None)
  }

  /** Both generated files are readable by their owner only. */
  const GeneratedMode := "0600"

  /** `f"{self.dir_path}"` */
  function DirText(d: Option<string>): string
  {
    if d.Some? then d.value else "None"
  }

  /** `abspath(f"{dir}/{name}")` */
  function PathIn(cwd: string, dir: string, name: string): string
  {
    Abspath(cwd, dir + "/" + name)
  }

  /** `init_cert_paths`: both paths are set, then the directory is made
      with its parents, which fails only when a file is in the way; an
      unset directory cannot be made absolute. */
  function CertPathsSet(m: CertMachine, cwd: string): (r: Step<CertMachine>)
    ensures r.state.cert == m.cert.(certFilePath := Some(PathIn(cwd, DirText(m.cert.def.dirPath), m.cert.def.certFileName)),
                                    keyFilePath := Some(PathIn(cwd, DirText(m.cert.def.dirPath), m.cert.def.keyFileName)))
    ensures m.cert.def.dirPath.None? ==> r.state.fs == m.fs && r.out.Fail? && r.out.error.kind == "TypeError"
    ensures m.cert.def.dirPath.Some? ==>
      Step(r.state.fs, r.out) == MkdirParents(m.fs, Abspath(cwd, m.cert.def.dirPath.value))
  {
    var d := m.cert.def;
    var dir := DirText(d.dirPath);
    var c := m.cert.(certFilePath := Some(PathIn(cwd, dir, d.certFileName)),
                     keyFilePath := Some(PathIn(cwd, dir, d.keyFileName)));
    if d.dirPath.None? then
      Step(CertMachine(c, m.fs), Fail(Raised("TypeError", "expected str, bytes or os.PathLike object, not NoneType")))
    else
      var made := MkdirParents(m.fs, Abspath(cwd, d.dirPath.value));
      Step(CertMachine(c, made.state), made.out)
  }

  /** For an absolute directory, the certificate and key files lie
      directly in it, under their declared names. */
  lemma PathsInDirectory(cwd: string, dir: string, d: X509CertDef)
    requires IsAbsolute(dir) && dir[|dir| - 1] != '/'
    requires d.certFileName != [] && '/' !in d.certFileName
    requires d.keyFileName != [] && '/' !in d.keyFileName
    ensures Dirname(PathIn(cwd, dir, d.certFileName)) == dir && Basename(PathIn(cwd, dir, d.certFileName)) == d.certFileName
    ensures Dirname(PathIn(cwd, dir, d.keyFileName)) == dir && Basename(PathIn(cwd, dir, d.keyFileName)) == d.keyFileName
  {
    assert IsAbsolute(dir + "/" + d.certFileName) && IsAbsolute(dir + "/" + d.keyFileName);
    JoinSplits(dir, d.certFileName);
    JoinSplits(dir, d.keyFileName);
  }

  /** `generate_key` */
  function KeyGenerated(s: CertState, pki: Pki): (r: CertState)
    ensures r == s.(key := Some(pki.newKey(s.def)))
  {
    s.(key := Some(pki.newKey(s.def)))
  }

  /** `set_common_name`: only a missing name is replaced by the host name. */
  function CommonNameSet(s: CertState, pki: Pki): (r: CertState)
    ensures s.def.commonName.None? ==> r == s.(def := s.def.(commonName := Some(pki.hostname)))
    ensures s.def.commonName.Some? ==> r == s
  {
    if s.def.commonName.None? then s.(def := s.def.(commonName := Some(pki.hostname))) else s
  }

  /** `generate_cert`: the subject is signed with the key; a missing common
      name becomes the host name, while an empty one is kept. */
  function CertGenerated(s: CertState, pki: Pki): (r: CertState)
    requires s.key.Some?
    ensures r.def == s.def.(commonName := if s.def.commonName.None? then Some(pki.hostname) else s.def.commonName)
    ensures r.cert == Some(pki.sign(r.def, s.key.value))
    ensures r == s.(def := r.def, cert := r.cert)
  {
    var named := if !IsSet(s.def.commonName) then CommonNameSet(s, pki) else s;
    named.(cert := Some(pki.sign(named.def, named.key.value)))
  }

  /** `generate_cert_content`: the key and the certificate are made only
      when missing; both PEM contents are then taken from them. */
  function ContentGenerated(s: CertState, pki: Pki): (r: CertState)
    ensures r.key == (if s.key.Some? then s.key else Some(pki.newKey(s.def)))
    ensures s.cert.Some? ==> r.cert == s.cert && r.def == s.def
    ensures s.cert.None? ==> r.cert == Some(pki.sign(r.def, r.key.value))
    ensures r.keyContent == Some(pki.keyPem(r.key.value)) && r.certContent == Some(pki.certPem(r.cert.value))
    ensures r == s.(def := r.def, key := r.key, cert := r.cert, keyContent := r.keyContent, certContent := r.certContent)
  {
    var keyed := if s.key.None? then KeyGenerated(s, pki) else s;
    var signed := if keyed.cert.None? then CertGenerated(keyed, pki) else keyed;
    signed.(certContent := Some(pki.certPem(signed.cert.value)), keyContent := Some(pki.keyPem(signed.key.value)))
  }

  /** The file job for one generated PEM file. */
  function GeneratedFile(content: Option<string>, p: Option<string>, d: X509CertDef): FileDef
  {
    FileDef(path := p, content := content, mode := Some(GeneratedMode), owner := d.owner, group := d.group)
  }

  /** `set_cert_files`: contents are generated unless both are set, then
      the key and certificate file jobs are built from them. */
  function CertFilesSet(s: CertState, pki: Pki): (r: CertState)
    ensures IsSet(s.certContent) && IsSet(s.keyContent) ==> r.def == s.def && r.certContent == s.certContent &&
                                                             r.keyContent == s.keyContent
    ensures r.keyContent.Some? && r.certContent.Some?
    ensures r.certFile == Some(GeneratedFile(r.certContent, s.certFilePath, r.def))
    ensures r.keyFile == Some(GeneratedFile(r.keyContent, s.keyFilePath, r.def))
    ensures r.certFilePath == s.certFilePath && r.keyFilePath == s.keyFilePath && r.def.dirPath == s.def.dirPath
    ensures r.def.owner == s.def.owner && r.def.group == s.def.group
  {
    var made := if !IsSet(s.certContent) || !IsSet(s.keyContent) then ContentGenerated(s, pki) else s;
    made.(keyFile := Some(GeneratedFile(made.keyContent, made.keyFilePath, made.def)),
          certFile := Some(GeneratedFile(made.certContent, made.certFilePath, made.def)))
  }

  /** Once the file jobs are built from non-empty contents, building them
      again changes nothing. */
  lemma CertFilesSetIdempotent(s: CertState, pki: Pki)
    requires IsSet(CertFilesSet(s, pki).certContent) && IsSet(CertFilesSet(s, pki).keyContent)
    ensures CertFilesSet(CertFilesSet(s, pki), pki) == CertFilesSet(s, pki)
  {
  }

  /** One turn of the loop in `process_x509_certs`: a certificate object
      for the declaration under `dir`, its paths and directory, and its
      two file jobs. */
  function IssuedFor(dir: string, spec: X509CertDef, cwd: string, fs: Fs, pki: Pki): (r: Step<CertMachine>)
    ensures Step(r.state.fs, r.out) == MkdirParents(fs, Abspath(cwd, dir))
    ensures r.state.cert.def.dirPath == Some(dir)
    ensures r.state.cert.certFilePath == Some(PathIn(cwd, dir, spec.certFileName))
    ensures r.state.cert.keyFilePath == Some(PathIn(cwd, dir, spec.keyFileName))
    ensures r.out.Pass? ==>
      r.state.cert.certFile == Some(GeneratedFile(r.state.cert.certContent, r.state.cert.certFilePath, r.state.cert.def)) &&
      r.state.cert.keyFile == Some(GeneratedFile(r.state.cert.keyContent, r.state.cert.keyFilePath, r.state.cert.def)) &&
      r.state.cert.def.owner == spec.owner && r.state.cert.def.group == spec.group
  {
    var paths := CertPathsSet(CertMachine(Fresh(spec.(dirPath := Some(dir))), fs), cwd);
    if paths.out.Fail? then paths
    else Step(paths.state.(cert := CertFilesSet(paths.state.cert, pki)), Pass)
  }

  /** What the loop leaves behind: the job's file map, the filesystem and
      the certificate objects that replaced their declarations. */
  datatype Issuance = Issuance(files: Option<Entries<FileDef>>, fs: Fs, issued: seq<CertState>)

  function Or<V>(files: Option<Entries<V>>): Entries<V>
  {
    if files.Some? then files.value else []
  }

  /** The declarations are processed in order after the certificates
      `done` were issued; each one that gets its directory adds its
      certificate file and then its key file to the file map, creating the
      map when there is none; the first error stops the loop. */
  function Processed(files: Option<Entries<FileDef>>, fs: Fs, done: seq<CertState>, specs: Entries<X509CertDef>,
                     cwd: string, pki: Pki): (r: Step<Issuance>)
    ensures |done| <= |r.state.issued| <= |done| + |specs|
    ensures r.out.Pass? ==> |r.state.issued| == |done| + |specs|
    decreases |specs|
  {
    if specs == [] then Step(Issuance(files, fs, done), Pass)
    else
      var one := IssuedFor(specs[0].0, specs[0].1, cwd, fs, pki);
      if one.out.Fail? then Step(Issuance(files, one.state.fs, done), one.out)
      else Processed(Some(Merged(Or(files), one.state.cert)), one.state.fs, done + [one.state.cert], specs[1..], cwd, pki)
  }

  /** `job.files[cert_file.path] = cert_file` then
      `job.files[key_file_path] = key_file` */
  function Merged(files: Entries<FileDef>, c: CertState): (r: Entries<FileDef>)
    ensures c.keyFilePath.Some? && c.keyFile.Some? ==> Get(r, c.keyFilePath.value) == c.keyFile
    ensures c.certFile.Some? && c.certFile.value.path.Some? &&
            !(c.keyFilePath == c.certFile.value.path && c.keyFile.Some?) ==>
      Get(r, c.certFile.value.path.value) == c.certFile
    ensures forall k ::
      (!(c.certFile.Some? && c.certFile.value.path == Some(k)) && !(c.keyFilePath == Some(k) && c.keyFile.Some?)) ==>
        Get(r, k) == Get(files, k)
  {
    var withCert := if c.certFile.Some? && c.certFile.value.path.Some? then Put(files, c.certFile.value.path.value, c.certFile.value)
                    else files;
    if c.keyFilePath.Some? && c.keyFile.Some? then Put(withCert, c.keyFilePath.value, c.keyFile.value) else withCert
  }

  /** The certificate was issued for the declaration under `dir`. */
  predicate BelongsTo(c: CertState, dir: string, spec: X509CertDef, cwd: string)
  {
    c.def.dirPath == Some(dir) &&
    c.certFilePath == Some(PathIn(cwd, dir, spec.certFileName)) &&
    c.keyFilePath == Some(PathIn(cwd, dir, spec.keyFileName))
  }

  /** The certificates come out in the order of their declarations, each
      one issued for its own declaration, after those issued before. */
  lemma {:induction false} IssuedInOrder(files: Option<Entries<FileDef>>, fs: Fs, done: seq<CertState>,
                                         specs: Entries<X509CertDef>, cwd: string, pki: Pki)
    ensures var r := Processed(files, fs, done, specs, cwd, pki).state.issued;
      r[..|done|] == done &&
      forall i :: |done| <= i < |r| ==> BelongsTo(r[i], specs[i - |done|].0, specs[i - |done|].1, cwd)
    decreases |specs|, 1
  {
    var r := Processed(files, fs, done, specs, cwd, pki).state.issued;
    if specs == [] {
      assert r == done;
    } else {
      var one := IssuedFor(specs[0].0, specs[0].1, cwd, fs, pki);
      var c := one.state.cert;
      if one.out.Fail? {
        ProcessedStops(files, fs, done, specs, cwd, pki, c, one.state.fs, one.out);
        assert r == done;
      } else {
        ProcessedAdvances(files, fs, done, specs, cwd, pki, c, one.state.fs);
        IssuedInOrderAfter(Merged(Or(files), c), one.state.fs, done, c, specs, cwd, pki);
      }
    }
  }

  /** The rest of the run after the first declaration's certificate. */
  lemma {:induction false} IssuedInOrderAfter(files: Entries<FileDef>, fs: Fs, done: seq<CertState>, c: CertState,
                                              specs: Entries<X509CertDef>, cwd: string, pki: Pki)
    requires specs != [] && BelongsTo(c, specs[0].0, specs[0].1, cwd)
    ensures var r := Processed(Some(files), fs, done + [c], specs[1..], cwd, pki).state.issued;
      |r| <= |done| + |specs| && r[..|done|] == done &&
      forall i :: |done| <= i < |r| ==> BelongsTo(r[i], specs[i - |done|].0, specs[i - |done|].1, cwd)
    decreases |specs|, 0
  {
    IssuedInOrder(Some(files), fs, done + [c], specs[1..], cwd, pki);
    ShiftedBelongs(Processed(Some(files), fs, done + [c], specs[1..], cwd, pki).state.issued, done, c, specs, cwd);
  }

  lemma ShiftedBelongs(r: seq<CertState>, done: seq<CertState>, c: CertState, specs: Entries<X509CertDef>, cwd: string)
    requires specs != [] && |done| + 1 <= |r| <= |done| + |specs|
    requires r[..|done + [c]|] == done + [c] && BelongsTo(c, specs[0].0, specs[0].1, cwd)
    requires forall i :: |done + [c]| <= i < |r| ==>
      BelongsTo(r[i], specs[1..][i - |done + [c]|].0, specs[1..][i - |done + [c]|].1, cwd)
    ensures r[..|done|] == done
    ensures forall i :: |done| <= i < |r| ==> BelongsTo(r[i], specs[i - |done|].0, specs[i - |done|].1, cwd)
  {
    assert r[..|done|] == (done + [c])[..|done|];
    assert r[|done|] == (done + [c])[|done|];
    forall i | |done| < i < |r| ensures BelongsTo(r[i], specs[i - |done|].0, specs[i - |done|].1, cwd) {
      assert specs[1..][i - |done + [c]|] == specs[i - |done|];
    }
  }

  /** The certificate and key paths of all the declarations. */
  function GeneratedPaths(specs: Entries<X509CertDef>, cwd: string): set<string>
    decreases |specs|
  {
    if specs == [] then {}
    else {PathIn(cwd, specs[0].0, specs[0].1.certFileName), PathIn(cwd, specs[0].0, specs[0].1.keyFileName)} +
         GeneratedPaths(specs[1..], cwd)
  }

  /** An entry written by the certificate loop: a file job with content
      and mode 0600. */
  predicate GeneratedEntry(e: Option<FileDef>)
  {
    e.Some? && e.value.mode == Some(GeneratedMode) && e.value.content.Some?
  }

  /** `after` is `before` with generated entries at `paths` and nothing
      else changed. */
  ghost predicate Extends(before: Entries<FileDef>, after: Entries<FileDef>, paths: set<string>)
  {
    (forall k :: k in Keys(after) <==> k in Keys(before) || k in paths) &&
    (forall k :: k !in paths ==> Get(after, k) == Get(before, k)) &&
    (forall k :: k in paths ==> GeneratedEntry(Get(after, k)))
  }

  lemma ExtendsTransitive(a: Entries<FileDef>, b: Entries<FileDef>, c: Entries<FileDef>, p: set<string>, q: set<string>)
    requires Extends(a, b, p) && Extends(b, c, q)
    ensures Extends(a, c, p + q)
  {
    forall k | k in p + q ensures GeneratedEntry(Get(c, k)) {
      if k !in q {
        assert Get(c, k) == Get(b, k);
      }
    }
  }

  /** One certificate's two assignments into the file map. */
  lemma MergedExtends(files: Entries<FileDef>, c: CertState, cp: string, kp: string)
    requires c.certFile.Some? && c.certFile.value.path == Some(cp) && GeneratedEntry(c.certFile)
    requires c.keyFilePath == Some(kp) && GeneratedEntry(c.keyFile)
    ensures Extends(files, Merged(files, c), {cp, kp})
  {
    var withCert := Put(files, cp, c.certFile.value);
    assert forall k :: k in Keys(withCert) <==> k in Keys(files) || k == cp;
  }

  /** After a complete run the file map holds every entry it held before
      and the two generated paths of every declaration, and nothing else;
      entries at other paths are untouched, and every generated entry is a
      file job with mode 0600 and content.  The map exists afterwards
      exactly when it existed before or there was a declaration. */
  lemma {:induction false} FilesAfterProcessing(files: Option<Entries<FileDef>>, fs: Fs, done: seq<CertState>,
                                               specs: Entries<X509CertDef>, cwd: string, pki: Pki)
    requires Processed(files, fs, done, specs, cwd, pki).out.Pass?
    ensures var r := Processed(files, fs, done, specs, cwd, pki).state.files;
      (r.Some? <==> files.Some? || specs != []) && Extends(Or(files), Or(r), GeneratedPaths(specs, cwd))
    decreases |specs|
  {
    if specs != [] {
      var one := IssuedFor(specs[0].0, specs[0].1, cwd, fs, pki);
      var c := one.state.cert;
      var cp := PathIn(cwd, specs[0].0, specs[0].1.certFileName);
      var kp := PathIn(cwd, specs[0].0, specs[0].1.keyFileName);
      var m := Merged(Or(files), c);
      MergedExtends(Or(files), c, cp, kp);
      FilesAfterProcessing(Some(m), one.state.fs, done + [c], specs[1..], cwd, pki);
      var r := Processed(Some(m), one.state.fs, done + [c], specs[1..], cwd, pki).state.files;
      ExtendsTransitive(Or(files), m, Or(r), {cp, kp}, GeneratedPaths(specs[1..], cwd));
    }
  }

  /** An `X509Certificate`. */
  class X509Certificate {
    var def: X509CertDef
    var key: Option<string>
    var cert: Option<string>
    var keyContent: Option<string>
    var certContent: Option<string>
    var certFilePath: Option<string>
    var keyFilePath: Option<string>
    var certFile: Option<FileDef>
    var keyFile: Option<FileDef>

    function State(): CertState
      reads this
    {
      CertState(def, key, cert, keyContent, certContent, certFilePath, keyFilePath, certFile, keyFile)
    }

    /** `X509Certificate(**asdict(cert_def))` */
    constructor(d: X509CertDef)
      ensures State() == Fresh(d)
    {
      def := d;
      key, cert, keyContent, certContent := None, None, None, None;
      certFilePath, keyFilePath, certFile, keyFile := None, None, None, None;
    }

    /** `cert_obj.dir_path = cert_path` */
    method SetDirPath(p: string)
      modifies this
      ensures State() == old(State()).(def := old(def).(dirPath := Some(p)))
    {
      def := def.(dirPath := Some(p));
    }

    method InitCertPaths(cwd: string, disk: Disk) returns (out: Outcome)
      modifies this, disk
      ensures Step(CertMachine(State(), disk.State()), out) == CertPathsSet(old(CertMachine(State(), disk.State())), cwd)
    {
      var dir := DirText(def.dirPath);
      certFilePath := Some(PathIn(cwd, dir, def.certFileName));
      keyFilePath := Some(PathIn(cwd, dir, def.keyFileName));
      if def.dirPath.None? {
        return Fail(Raised("TypeError", "expected str, bytes or os.PathLike object, not NoneType"));
      }
      out := disk.MakeDirs(Abspath(cwd, def.dirPath.value));
    }

    method GenerateKey(pki: Pki)
      modifies this
      ensures State() == KeyGenerated(old(State()), pki)
    {
      key := Some(pki.newKey(def));
    }

    method SetCommonName(pki: Pki)
      modifies this
      ensures State() == CommonNameSet(old(State()), pki)
    {
      if def.commonName.None? {
        def := def.(commonName := Some(pki.hostname));
      }
    }

    method GenerateCert(pki: Pki)
      requires key.Some?
      modifies this
      ensures State() == CertGenerated(old(State()), pki)
    {
      if !IsSet(def.commonName) {
        SetCommonName(pki);
      }
      cert := Some(pki.sign(def, key.value));
    }

    method GenerateCertContent(pki: Pki)
      modifies this
      ensures State() == ContentGenerated(old(State()), pki)
    {
      if key.None? {
        GenerateKey(pki);
      }
      if cert.None? {
        GenerateCert(pki);
      }
      certContent := Some(pki.certPem(cert.value));
      keyContent := Some(pki.keyPem(key.value));
    }

    method SetCertFiles(pki: Pki)
      modifies this
      ensures State() == CertFilesSet(old(State()), pki)
    {
      if !IsSet(certContent) || !IsSet(keyContent) {
        GenerateCertContent(pki);
      }
      keyFile := Some(GeneratedFile(keyContent, keyFilePath, def));
      certFile := Some(GeneratedFile(certContent, certFilePath, def));
    }
  }

  /** An entry of `certificates.x509`: the declaration as parsed, or (the
      fields of) the certificate object that replaced it. */
  datatype CertSlot = Declared(spec: X509CertDef) | Issued(cert: CertState)

  function Specs(entries: Entries<CertSlot>): (r: Entries<X509CertDef>)
    requires forall i :: 0 <= i < |entries| ==> entries[i].1.Declared?
    ensures |r| == |entries| && forall i :: 0 <= i < |entries| ==> r[i] == (entries[i].0, entries[i].1.spec)
  {
    seq(|entries|, i requires 0 <= i < |entries| && entries[i].1.Declared? => (entries[i].0, entries[i].1.spec))
  }

  /** A turn that completes moves its certificate to the issued ones. */
  lemma ProcessedAdvances(files: Option<Entries<FileDef>>, fs: Fs, done: seq<CertState>, specs: Entries<X509CertDef>,
                          cwd: string, pki: Pki, c: CertState, fs': Fs)
    requires specs != []
    requires IssuedFor(specs[0].0, specs[0].1, cwd, fs, pki) == Step(CertMachine(c, fs'), Pass)
    ensures Processed(files, fs, done, specs, cwd, pki) ==
            Processed(Some(Merged(Or(files), c)), fs', done + [c], specs[1..], cwd, pki)
  {
  }

  /** A turn that fails ends the run with the certificates issued so far. */
  lemma ProcessedStops(files: Option<Entries<FileDef>>, fs: Fs, done: seq<CertState>, specs: Entries<X509CertDef>,
                       cwd: string, pki: Pki, c: CertState, fs': Fs, out: Outcome)
    requires specs != [] && out.Fail?
    requires IssuedFor(specs[0].0, specs[0].1, cwd, fs, pki) == Step(CertMachine(c, fs'), out)
    ensures Processed(files, fs, done, specs, cwd, pki) == Step(Issuance(files, fs', done), out)
  {
  }

  /** Replacing values in place keeps the keys. */
  lemma SameKeys<U, V>(a: Entries<U>, b: Entries<V>)
    requires |a| == |b| && forall j :: 0 <= j < |a| ==> a[j].0 == b[j].0
    ensures Keys(a) == Keys(b)
  {
  }

  /** `now` is `was` with its first `|issued|` slots replaced, under the
      same keys, by the issued certificates. */
  ghost predicate SlotsIssued(now: Entries<CertSlot>, was: Entries<CertSlot>, issued: seq<CertState>)
  {
    |now| == |was| && |issued| <= |was| &&
    (forall j :: 0 <= j < |issued| ==> now[j] == (was[j].0, Issued(issued[j]))) &&
    (forall j :: |issued| <= j < |was| ==> now[j] == was[j])
  }

  lemma SlotsIssuedStep(now: Entries<CertSlot>, was: Entries<CertSlot>, issued: seq<CertState>, c: CertState)
    requires SlotsIssued(now, was, issued) && |issued| < |was|
    ensures SlotsIssued(now[|issued| := (was[|issued|].0, Issued(c))], was, issued + [c])
  {
  }

  lemma SlotsIssuedKeys(now: Entries<CertSlot>, was: Entries<CertSlot>, issued: seq<CertState>)
    requires SlotsIssued(now, was, issued)
    ensures Keys(now) == Keys(was)
  {
    SameKeys(now, was);
  }

  /** The part of a job `process_x509_certs` works on. */
  class Job {
    var files: Option<Entries<FileDef>>
    /** `certificates.x509`, None when either level is missing */
    var x509: Option<Entries<CertSlot>>

    constructor(f: Option<Entries<FileDef>>, x: Option<Entries<CertSlot>>)
      ensures files == f && x509 == x
    {
      files := f;
      x509 := x;
    }

    /** `process_x509_certs(job)`: each declaration is replaced, under the
        same key, by its certificate object, whose file jobs go into the
        file map. */
    method ProcessX509Certs(cwd: string, pki: Pki, disk: Disk) returns (out: Outcome)
      requires x509.Some? ==> forall i :: 0 <= i < |x509.value| ==> x509.value[i].1.Declared?
      modifies this, disk
      ensures old(x509).None? ==> files == old(files) && x509 == old(x509) && disk.State() == old(disk.State()) && out == Pass
      ensures old(x509).Some? ==>
        var r := Processed(old(files), old(disk.State()), [], Specs(old(x509).value), cwd, pki);
        out == r.out && files == r.state.files && disk.State() == r.state.fs &&
        x509.Some? && Keys(x509.value) == Keys(old(x509).value) &&
        (forall i :: 0 <= i < |r.state.issued| ==> x509.value[i].1 == Issued(r.state.issued[i])) &&
        (forall i :: |r.state.issued| <= i < |x509.value| ==> x509.value[i] == old(x509).value[i])
    {
      if x509.None? {
        return Pass;
      }
      out := IssueAll(cwd, pki, disk);
    }

    /** The loop over the declarations of a present `x509` mapping. */
    method IssueAll(cwd: string, pki: Pki, disk: Disk) returns (out: Outcome)
      requires x509.Some? && forall i :: 0 <= i < |x509.value| ==> x509.value[i].1.Declared?
      modifies this, disk
      ensures var r := Processed(old(files), old(disk.State()), [], Specs(old(x509).value), cwd, pki);
        out == r.out && files == r.state.files && disk.State() == r.state.fs &&
        x509.Some? && Keys(x509.value) == Keys(old(x509).value) &&
        (forall i :: 0 <= i < |r.state.issued| ==> x509.value[i].1 == Issued(r.state.issued[i])) &&
        (forall i :: |r.state.issued| <= i < |x509.value| ==> x509.value[i] == old(x509).value[i])
    {
      var entries := x509.value;
      ghost var specs := Specs(entries);
      ghost var initial := Processed(files, disk.State(), [], specs, cwd, pki);
      ghost var issued: seq<CertState> := [];
      out := Pass;
      var i := 0;
      assert specs[0..] == specs;
      while i < |entries|
        invariant 0 <= i <= |entries| && |issued| == i && out == Pass
        invariant x509.Some? && SlotsIssued(x509.value, entries, issued)
        invariant initial == Processed(files, disk.State(), issued, specs[i..], cwd, pki)
      {
        assert specs[i..][0] == (entries[i].0, entries[i].1.spec) && specs[i..][1..] == specs[i + 1..];
        var cs;
        ghost var now := x509.value;
        out, cs := IssueEntry(i, entries[i].0, entries[i].1.spec, cwd, pki, disk, issued, specs[i..]);
        if out.Fail? {
          SlotsIssuedKeys(x509.value, entries, issued);
          return;
        }
        SlotsIssuedStep(now, entries, issued, cs);
        issued := issued + [cs];
        i := i + 1;
      }
      assert specs[i..] == [];
      SlotsIssuedKeys(x509.value, entries, issued);
    }

    /** One turn of the loop: the certificate for the i-th declaration
        and its two file jobs. */
    method IssueEntry(i: nat, dir: string, spec: X509CertDef, cwd: string, pki: Pki, disk: Disk,
                      ghost done: seq<CertState>, ghost specs: Entries<X509CertDef>)
      returns (out: Outcome, c: CertState)
      requires x509.Some? && i < |x509.value|
      requires specs != [] && specs[0] == (dir, spec)
      modifies this, disk
      ensures out.Fail? ==>
        (files == old(files) && x509 == old(x509) &&
         Processed(old(files), old(disk.State()), done, specs, cwd, pki) == Step(Issuance(files, disk.State(), done), out))
      ensures out.Pass? ==>
        (x509 == Some(old(x509).value[i := (dir, Issued(c))]) &&
         Processed(old(files), old(disk.State()), done, specs, cwd, pki) ==
         Processed(files, disk.State(), done + [c], specs[1..], cwd, pki))
    {
      ghost var before := disk.State();
      var cert;
      out, cert := IssueOne(dir, spec, cwd, pki, disk);
      c := cert.State();
      if out.Fail? {
        ProcessedStops(files, before, done, specs, cwd, pki, c, disk.State(), out);
        return;
      }
      ProcessedAdvances(files, before, done, specs, cwd, pki, c, disk.State());
      var merged := Or(files);
      merged := Put(merged, cert.certFile.value.path.value, cert.certFile.value);
      merged := Put(merged, cert.keyFilePath.value, cert.keyFile.value);
      assert merged == Merged(Or(files), c);
      files := Some(merged);
      x509 := Some(x509.value[i := (dir, Issued(c))]);
    }

    /** A new certificate object for `dir`, with its paths, directory and
        file jobs. */
    static method IssueOne(dir: string, spec: X509CertDef, cwd: string, pki: Pki, disk: Disk)
      returns (out: Outcome, c: X509Certificate)
      modifies disk
      ensures fresh(c)
      ensures Step(CertMachine(c.State(), disk.State()), out) == IssuedFor(dir, spec, cwd, old(disk.State()), pki)
    {
      c := new X509Certificate(spec);
      c.SetDirPath(dir);
      out := c.InitCertPaths(cwd, disk);
      if out.Fail? {
        return;
      }
      c.SetCertFiles(pki);
    }

  }
}
