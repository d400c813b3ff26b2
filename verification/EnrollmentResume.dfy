/** How a run decides what an existing staging or output directory is worth: which manifest it follows, what it
    checks against it, when it falls back to the key and signing request, and when nothing is left but
    to start again with a new key (backend/cmd/agent/enrollment_generation.go).

    `bad` is the set of entries that exist but cannot be read. */
module EnrollmentResume {
  import opened Wrappers
  import opened Enrollment

  type Files = map<Name, Content>

  datatype Loaded = Loaded(manifest: Manifest, key: Content, csr: Option<Content>, cert: Option<Content>,
                           ca: Option<Content>)

  function Read(files: Files, bad: set<Name>, n: Name): Option<Content> {
    if n in bad then None else Lookup(files, n)
  }

  /** The manifest under a name, if it can be read and is in the phase that belongs to the name. */
  function ManifestAt(files: Files, bad: set<Name>, n: Name, phase: Phase): Option<Manifest> {
    var c := Read(files, bad, n);
    if c.Some? && c.value.Document? && c.value.manifest.phase == phase then Some(c.value.manifest) else None
  }

  /** The manifest that is followed: finalized before completed before prepared. */
  function Chosen(files: Files, bad: set<Name>): Option<Manifest> {
    var commit := ManifestAt(files, bad, CommitDoc, Finalized);
    var complete := ManifestAt(files, bad, CompleteDoc, Completed);
    if commit.Some? then commit
    else if complete.Some? then complete
    else ManifestAt(files, bad, PreparedDoc, Ready)
  }

  predicate Addressed(m: Manifest, agent: string, token: nat) {
    m.version == FORMAT && m.agent == agent && m.token == token
  }

  /** The manifests of higher priority than the chosen one: unusable, and removed when they exist. */
  function Superseded(files: Files, bad: set<Name>): set<Name> {
    if ManifestAt(files, bad, CommitDoc, Finalized).Some? then {}
    else if ManifestAt(files, bad, CompleteDoc, Completed).Some? then {CommitDoc}
    else {CommitDoc, CompleteDoc}
  }

  /** A signing request can be repeated with a key exactly if it was made with that key. */
  predicate Pair(key: Content, csr: Content) {
    key.KeyPem? && csr.CsrPem? && csr.key == key.key
  }

  predicate Matches(digest: Option<Digest>, c: Option<Content>) {
    digest.Some? && c.Some? && digest.value == Digest(c.value)
  }

  function Load(files: Files, bad: set<Name>, agent: string, token: nat): Option<Loaded> {
    var m, key, csr := Chosen(files, bad), Read(files, bad, Key), Read(files, bad, Csr);
    var cert, ca := Read(files, bad, Cert), Read(files, bad, Ca);
    if m.None? || !Addressed(m.value, agent, token) || key.None? || m.value.key != Digest(key.value) then None
    else if m.value.phase == Ready then
      if csr.Some? && m.value.csr == Digest(csr.value) && Pair(key.value, csr.value)
      then Some(Loaded(m.value, key.value, csr, None, None)) else None
    else if !Matches(m.value.cert, cert) || !Matches(m.value.ca, ca) || (m.value.phase == Completed && csr.None?)
      then None
    else Some(Loaded(m.value, key.value, csr, cert, ca))
  }

  function FreshManifest(agent: string, token: nat, key: Content, csr: Content): Manifest {
    Manifest(FORMAT, Ready, agent, token, Digest(key), Digest(csr), "", 0, None, None)
  }

  /** The fallback: any manifest is replaced as long as key and signing request are there and belong together. */
  function Recover(files: Files, bad: set<Name>, agent: string, token: nat): Option<Loaded> {
    var key, csr := Read(files, bad, Key), Read(files, bad, Csr);
    if key.Some? && csr.Some? && Pair(key.value, csr.value)
    then Some(Loaded(FreshManifest(agent, token, key.value, csr.value), key.value, csr, None, None)) else None
  }

  function Resume(files: Files, bad: set<Name>, agent: string, token: nat): Option<Loaded> {
    var loaded := Load(files, bad, agent, token);
    if loaded.Some? then loaded else Recover(files, bad, agent, token)
  }

  /** The check of an existing output directory. */
  function LoadOutput(files: Files, bad: set<Name>, agent: string, token: nat): Option<Loaded> {
    var m, key := ManifestAt(files, bad, CommitDoc, Finalized), Read(files, bad, Key);
    var cert, ca := Read(files, bad, Cert), Read(files, bad, Ca);
    if || m.None? || !Addressed(m.value, agent, token) || key.None? || m.value.key != Digest(key.value)
       || !Matches(m.value.cert, cert) || !Matches(m.value.ca, ca) || files.Keys != {Key, Cert, Ca, CommitDoc}
    then None
    else Some(Loaded(m.value, key.value, None, cert, ca))
  }

  /** An output directory is a run's own exactly when all four files can be read, nothing else is there, the finalized
      manifest vouches for the other three, and it is for this agent and token. */
  lemma OutputLoadsExactlyWhen(files: Files, bad: set<Name>, agent: string, token: nat)
    ensures LoadOutput(files, bad, agent, token).Some? <==>
              && Published(files) && files.Keys !! bad
              && files[CommitDoc].manifest.agent == agent && files[CommitDoc].manifest.token == token
    ensures LoadOutput(files, bad, agent, token).Some? ==>
              var loaded := LoadOutput(files, bad, agent, token).value;
              && loaded.manifest == files[CommitDoc].manifest && loaded.key == files[Key]
              && loaded.cert == Some(files[Cert]) && loaded.ca == Some(files[Ca])
  {
    if files.Keys == {Key, Cert, Ca, CommitDoc} {
      assert Key in files && Cert in files && Ca in files && CommitDoc in files;
      assert files.Keys !! bad <==> Key !in bad && Cert !in bad && Ca !in bad && CommitDoc !in bad by {
        if Key !in bad && Cert !in bad && Ca !in bad && CommitDoc !in bad {
          forall n | n in files.Keys ensures n !in bad { assert n in {Key, Cert, Ca, CommitDoc}; }
        }
      }
    }
  }

  // ---- Resuming keeps the key ----------------------------------------------------------------

  lemma SealedLoads(d: Disk, p: Pledge)
    requires Sealed(d, p)
    ensures var loaded := Load(d.files, {}, p.agent, p.token);
            && loaded.Some? && loaded.value.key == KeyPem(p.key) && loaded.value.manifest.phase == Finalized
            && Superseded(d.files, {}) == {}
    ensures Published(d.files) ==>
              var loaded := LoadOutput(d.files, {}, p.agent, p.token);
              loaded.Some? && loaded.value.key == KeyPem(p.key)
  {
    hide Certain, Published;
    var m, cert, ca :| && Certain(d, CommitDoc, Document(m)) && Certain(d, Cert, cert) && Certain(d, Ca, ca)
                       && Vouches(m, KeyPem(p.key), cert, ca) && m.agent == p.agent && m.token == p.token;
    CertainIsNow(d, Key, KeyPem(p.key));
    CertainIsNow(d, CommitDoc, Document(m));
    CertainIsNow(d, Cert, cert);
    CertainIsNow(d, Ca, ca);
    if Published(d.files) { PublishedNames(d.files); }
  }

  lemma PublishedNames(files: Files)
    requires Published(files)
    ensures files.Keys == {Key, Cert, Ca, CommitDoc}
  {
  }

  lemma RepeatableResumes(d: Disk, p: Pledge)
    requires Repeatable(d, p)
    ensures var recovered := Recover(d.files, {}, p.agent, p.token);
            recovered.Some? && recovered.value.key == KeyPem(p.key)
    ensures var loaded := Load(d.files, {}, p.agent, p.token);
            loaded.Some? ==> loaded.value.key == KeyPem(p.key)
  {
    hide Certain, Chosen;
    var serial :| Certain(d, Csr, CsrPem(p.key, serial));
    CertainIsNow(d, Key, KeyPem(p.key));
    CertainIsNow(d, Csr, CsrPem(p.key, serial));
  }

  /** Once a key is pledged, a later run for the same agent and token finds it again after any crash: at the
      output path, or by loading or recovering the staging directory.  Starting over is never reached. */
  lemma SameKeyAfterAnyCrash(d: Disk, after: Disk, p: Pledge)
    requires Keeps(d, Kept(p)) && CrashLeaves(d, after)
    ensures after.place != Nowhere
    ensures after.place == AtStage ==>
              var resumed := Resume(after.files, {}, p.agent, p.token);
              resumed.Some? && resumed.value.key == KeyPem(p.key)
    ensures after.place == AtOutput ==>
              var loaded := LoadOutput(after.files, {}, p.agent, p.token);
              Published(after.files) && loaded.Some? && loaded.value.key == KeyPem(p.key)
  {
    hide CrashLeaves, Repeatable, Sealed, Published, Recover, Load, LoadOutput, Paired;
    CrashKeeps(d, after, Kept(p));
    if Sealed(after, p) { SealedLoads(after, p); } else { RepeatableResumes(after, p); }
  }

  /** The finalized manifest in the directory vouches for the pledged key. */
  ghost predicate Seals(files: Files, p: Pledge) {
    && CommitDoc in files && files[CommitDoc].Document? && Key in files && Cert in files && Ca in files
    && Vouches(files[CommitDoc].manifest, KeyPem(p.key), files[Cert], files[Ca])
    && files[CommitDoc].manifest.agent == p.agent && files[CommitDoc].manifest.token == p.token
  }

  /** What cannot be read costs the key: the key itself, or the signing request without a readable seal. */
  ghost predicate LosesKey(files: Files, bad: set<Name>, p: Pledge) {
    || Key in bad
    || (Read(files, bad, Csr).None? && (bad * {Cert, Ca, CommitDoc} != {} || !Seals(files, p)))
  }

  lemma SealedSeals(d: Disk, p: Pledge)
    requires Sealed(d, p)
    ensures Seals(d.files, p)
  {
    hide Certain;
    var m, cert, ca :| && Certain(d, CommitDoc, Document(m)) && Certain(d, Cert, cert) && Certain(d, Ca, ca)
                       && Vouches(m, KeyPem(p.key), cert, ca) && m.agent == p.agent && m.token == p.token;
    CertainIsNow(d, Key, KeyPem(p.key));
    CertainIsNow(d, CommitDoc, Document(m));
    CertainIsNow(d, Cert, cert);
    CertainIsNow(d, Ca, ca);
  }

  /** The pledged key as it is now on disk, and the signing request beside it. */
  lemma HeldNow(d: Disk, p: Pledge)
    requires Keeps(d, Kept(p))
    ensures Lookup(d.files, Key) == Some(KeyPem(p.key))
    ensures Csr in d.files ==> Pair(KeyPem(p.key), d.files[Csr])
    ensures Csr !in d.files ==> Seals(d.files, p)
  {
    hide Certain, Whole, Seals, Vouches;
    CertainIsNow(d, Key, KeyPem(p.key));
    PairedIsPair(d);
    if Csr !in d.files { SealedSeals(d, p); }
  }

  /** For every staging directory with a pledged key and every set of unreadable files: the next run starts over with a
      new key if and only if the key cannot be read, or neither the signing request nor the whole seal can. */
  lemma KeyIsLostExactlyWhen(d: Disk, p: Pledge, bad: set<Name>)
    requires Keeps(d, Kept(p)) && d.place == AtStage
    ensures Resume(d.files, bad, p.agent, p.token).None? <==> LosesKey(d.files, bad, p)
  {
    hide Keeps, Seals;
    HeldNow(d, p);
    if Key !in bad && Read(d.files, bad, Csr).None? { LoadsBySealExactly(d.files, bad, p); }
  }

  /** Without a readable signing request only a whole, readable seal loads. */
  lemma LoadsBySealExactly(files: Files, bad: set<Name>, p: Pledge)
    requires Lookup(files, Key) == Some(KeyPem(p.key)) && Key !in bad && Read(files, bad, Csr).None?
    ensures Load(files, bad, p.agent, p.token).Some? <==> bad * {Cert, Ca, CommitDoc} == {} && Seals(files, p)
  {
    var others := {Cert, Ca, CommitDoc};
    assert bad * others == {} <==> Cert !in bad && Ca !in bad && CommitDoc !in bad by {
      assert forall n :: n in bad * others <==> n in bad && (n == Cert || n == Ca || n == CommitDoc);
    }
  }

  /** A load without a readable signing request changes nothing, since nothing ranks above the finalized manifest. */
  lemma SealSupersedesNothing(files: Files, bad: set<Name>, agent: string, token: nat)
    requires Load(files, bad, agent, token).Some? && Read(files, bad, Csr).None?
    ensures Superseded(files, bad) == {}
  {
  }

  // ---- What resuming establishes -------------------------------------------------------------

  lemma SettledIsCertain(d: Disk, n: Name)
    requires d.shadow == map[] && n in d.files
    ensures Certain(d, n, d.files[n])
  {
  }

  /** When prepare returns a key from a settled directory of this program's own making, that key can be pledged. */
  lemma ResumedCanBePledged(d: Disk, bad: set<Name>, agent: string, token: nat, loaded: Loaded)
    requires Paired(d) && d.shadow == map[]
    requires Load(d.files, bad, agent, token) == Some(loaded) || Recover(d.files, bad, agent, token) == Some(loaded)
    ensures loaded.key.KeyPem?
    ensures loaded.manifest.phase == Finalized ==> Sealed(d, Pledge(agent, token, loaded.key.key))
    ensures loaded.manifest.phase != Finalized ==> Repeatable(d, Pledge(agent, token, loaded.key.key))
  {
    hide Certain;
    SettledIsCertain(d, Key);
    PairedIsPair(d);
    if Csr in d.files { SettledIsCertain(d, Csr); }
    if loaded.manifest.phase == Finalized {
      SettledIsCertain(d, CommitDoc); SettledIsCertain(d, Cert); SettledIsCertain(d, Ca);
      assert Vouches(loaded.manifest, loaded.key, d.files[Cert], d.files[Ca]);
    } else {
      assert Certain(d, Csr, CsrPem(loaded.key.key, d.files[Csr].serial));
    }
  }

  lemma LoadedPhase(files: Files, bad: set<Name>, agent: string, token: nat)
    ensures var loaded := Load(files, bad, agent, token);
            loaded.Some? ==>
              && loaded.value.manifest.phase != Unknown && Addressed(loaded.value.manifest, agent, token)
              && Lookup(files, Key) == Some(loaded.value.key) && loaded.value.manifest.key == Digest(loaded.value.key)
              && (loaded.value.manifest.phase != Ready ==>
                    && Matches(loaded.value.manifest.cert, Lookup(files, Cert))
                    && Matches(loaded.value.manifest.ca, Lookup(files, Ca)))
              && (loaded.value.manifest.phase == Finalized ==>
                    Lookup(files, CommitDoc) == Some(Document(loaded.value.manifest)))
  {
  }

  /** Load looks at nothing it removes. */
  lemma LoadIgnoresSuperseded(files: Files, files': Files, bad: set<Name>, agent: string, token: nat)
    requires forall x :: x !in Superseded(files, bad) ==> Lookup(files', x) == Lookup(files, x)
    requires forall x :: x in Superseded(files, bad) ==>
               Lookup(files', x) == Lookup(files, x) || Lookup(files', x) == None
    ensures Load(files', bad, agent, token) == Load(files, bad, agent, token)
  {
    assert Chosen(files', bad) == Chosen(files, bad);
  }

  lemma PairedIsPair(d: Disk)
    requires Paired(d)
    ensures Key in d.files ==> d.files[Key].KeyPem?
    ensures Key in d.files && Csr in d.files ==> Pair(d.files[Key], d.files[Csr])
  {
    assert Lookup(d.files, Key) in Possible(d, Key);
    assert Lookup(d.files, Csr) in Possible(d, Csr);
  }
}
