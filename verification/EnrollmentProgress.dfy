/** What it takes for an enrolment to go through, as far as the files decide it
    (backend/cmd/agent/enrollment_generation.go). */
module EnrollmentProgress {
  import opened Wrappers
  import opened Enrollment
  import opened EnrollmentResume

  /** Only names the program knows. */
  predicate KnownName(n: Name) {
    !n.Temporary? && !n.Stray?
  }

  ghost predicate Tidy(files: Files) {
    forall n :: n in files ==> !n.Stray?
  }

  /** The server's answer; `trusted` and `consistent` stand for the certificate checks before and after the files are
      written. */
  datatype Response = Response(agent: string, host: string, revision: nat, cert: Content, trusted: bool,
                               consistent: bool)

  function CompletedManifest(m: Manifest, response: Response, ca: Content): Manifest {
    m.(phase := Completed, host := response.host, revision := response.revision,
       cert := Some(Digest(response.cert)), ca := Some(Digest(ca)))
  }

  /** The checks before anything is finalized: the CA is the configured one, and a completed generation still has the
      signing request its manifest names. */
  predicate Consistent(loaded: Loaded, serverCa: Content) {
    && loaded.manifest.ca == Some(Digest(serverCa))
    && (loaded.manifest.phase == Completed ==>
          loaded.csr.Some? && loaded.manifest.csr == Digest(loaded.csr.value) && Pair(loaded.key, loaded.csr.value))
  }

  /** Key and signing request are there and are those of a prepared manifest for this agent and token. */
  ghost predicate PreparedFor(files: Files, m: Manifest, agent: string, token: nat) {
    && m.phase == Ready && Addressed(m, agent, token) && Key in files && Csr in files && Pair(files[Key], files[Csr])
    && m.key == Digest(files[Key]) && m.csr == Digest(files[Csr])
  }

  /** What publish accepts in a staging directory. */
  ghost predicate Publishable(files: Files, agent: string, token: nat, serverCa: Content) {
    var loaded := Load(files, {}, agent, token);
    loaded.Some? && loaded.value.manifest.phase != Ready && Consistent(loaded.value, serverCa)
  }

  /** The finalized manifest that a load would follow. */
  function Commit(files: Files): Option<Manifest> {
    ManifestAt(files, {}, CommitDoc, Finalized)
  }

  /** A finalized manifest is in the way: it would be followed, and does not vouch for this key, certificate and CA. */
  ghost predicate Blocked(files: Files, agent: string, token: nat, cert: Content, ca: Content) {
    var m := Commit(files);
    && m.Some? && Key in files
    && !(Addressed(m.value, agent, token) && m.value.key == Digest(files[Key]) && m.value.cert == Some(Digest(cert))
         && m.value.ca == Some(Digest(ca)))
  }

  /** What completing has written. */
  ghost predicate Completes(files: Files, files': Files, m: Manifest, cert: Content, ca: Content) {
    && Lookup(files', Cert) == Some(cert) && Lookup(files', Ca) == Some(ca)
       && Lookup(files', CompleteDoc) == Some(Document(m))
    && forall x :: x !in {Cert, Ca, CompleteDoc} && !x.Temporary? ==> Lookup(files', x) == Lookup(files, x)
  }

  /** A prepared generation that was completed can be published exactly when no finalized manifest is in the way. */
  lemma CompletedPublishes(files: Files, files': Files, m: Manifest, agent: string, token: nat, response: Response,
                           ca: Content)
    requires PreparedFor(files, m, agent, token)
    requires Completes(files, files', CompletedManifest(m, response, ca), response.cert, ca)
    ensures Publishable(files', agent, token, ca) <==> !Blocked(files, agent, token, response.cert, ca)
  {
    assert Lookup(files', Key) == Lookup(files, Key) && Lookup(files', Csr) == Lookup(files, Csr);
    assert Lookup(files', CommitDoc) == Lookup(files, CommitDoc);
  }

  /** The output directory says what the server answered. */
  ghost predicate AnswerPublished(files: Files, agent: string, token: nat, response: Response, ca: Content) {
    && CommitDoc in files && files[CommitDoc].Document?
    && files[CommitDoc].manifest.agent == agent && files[CommitDoc].manifest.token == token
    && files[CommitDoc].manifest.host == response.host && files[CommitDoc].manifest.revision == response.revision
    && Lookup(files, Cert) == Some(response.cert) && Lookup(files, Ca) == Some(ca)
  }

  /** What is loaded of a completed generation is the manifest just written, unless there is a finalized one. */
  lemma CompletedLoads(files: Files, files': Files, m: Manifest, agent: string, token: nat, cert: Content, ca: Content)
    requires Completes(files, files', m, cert, ca) && m.phase == Completed && Commit(files).None?
    ensures var loaded := Load(files', {}, agent, token);
            loaded.Some? ==> loaded.value.manifest == m
  {
    assert Lookup(files', CommitDoc) == Lookup(files, CommitDoc);
  }

  /** Published with the finalized form of that manifest, the directory says what the server answered. */
  lemma AnswerIsPublished(files: Files, m: Manifest, response: Response, ca: Content)
    requires Published(files)
    requires Lookup(files, CommitDoc) == Some(Document(CompletedManifest(m, response, ca).(phase := Finalized)))
    ensures AnswerPublished(files, m.agent, m.token, response, ca)
  {
  }

  // ---- A directory that no run can publish ---------------------------------------------------

  /** The staging directory of another token, stopped after its manifest was finalized and before its signing request
      was removed: the request is always recovered, and the manifest is always in the way. */
  ghost predicate Wedged(files: Files, agent: string, token: nat) {
    && Key in files && Csr in files && Pair(files[Key], files[Csr])
    && Commit(files).Some? && !Addressed(Commit(files).value, agent, token)
  }

  lemma WedgedIsBlocked(files: Files, agent: string, token: nat)
    requires Wedged(files, agent, token)
    ensures Load(files, {}, agent, token).None? && Recover(files, {}, agent, token).Some?
    ensures forall cert, ca :: Blocked(files, agent, token, cert, ca)
    ensures forall ca :: !Publishable(files, agent, token, ca)
  {
  }

  lemma WedgeStays(files: Files, files': Files, agent: string, token: nat)
    requires Wedged(files, agent, token)
    requires forall x :: x in {Key, Csr, CommitDoc} ==> Lookup(files', x) == Lookup(files, x)
    ensures Wedged(files', agent, token)
  {
    assert Lookup(files', Key) == Lookup(files, Key) && Lookup(files', Csr) == Lookup(files, Csr);
    assert Lookup(files', CommitDoc) == Lookup(files, CommitDoc);
  }

  // ---- When a run goes through ---------------------------------------------------------------

  /** Whether a run that meets no obstacle outside the disk goes through. */
  ghost predicate Enrolls(d: Disk, agent: string, token: nat, response: Response, serverCa: Content) {
    match d.place
    case Nowhere => true
    case AtOutput =>
      var loaded := LoadOutput(d.files, {}, agent, token);
      loaded.Some? && loaded.value.manifest.ca == Some(Digest(serverCa))
    case AtStage =>
      var loaded := Load(d.files, {}, agent, token);
      if loaded.Some? then loaded.value.manifest.phase == Ready || Consistent(loaded.value, serverCa)
      else Recover(d.files, {}, agent, token).Some? ==> !Blocked(d.files, agent, token, response.cert, serverCa)
  }
}
