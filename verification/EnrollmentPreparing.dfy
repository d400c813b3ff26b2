/** Preparing an enrolment from single file operations that may fail: an output directory is checked, a staging
    directory is loaded, recovered or discarded, or a new one is made (backend/cmd/agent/enrollment_generation.go). A
    pledged key is given up exactly where the code gives it up: when it starts over. */
module EnrollmentPreparing {
  import opened Wrappers
  import opened Enrollment
  import opened EnrollmentResume
  import opened EnrollmentProgress
  import opened EnrollmentFiles

  // ---- Loading, recovering, starting over ----------------------------------------------------

  /** The safeguard a run can rely on when it finds a staging directory. */
  ghost function StageGuard(d: Disk, p: Promise): Guard {
    if !p.Kept? then Free else if Csr in d.files then Request else Seal
  }

  lemma StageIsGuarded(d: Disk, p: Promise)
    requires Keeps(d, p) && d.place == AtStage
    ensures Guarded(d, p, StageGuard(d, p))
  {
    hide Repeatable, Sealed, Published, Paired;
  }

  /** Besides temporary files and `but`, at most superseded manifests are gone. */
  ghost predicate Drops(files: Files, files': Files, bad: set<Name>, but: set<Name>) {
    forall x: Name :: !x.Temporary? && x !in but ==>
      Lookup(files', x) == Lookup(files, x) || (x in Superseded(files, bad) && Lookup(files', x) == None)
  }

  /** Drops one unusable manifest if it is there. */
  method DropSuperseded(fs: Filesystem, n: Name, drop: bool, ghost g: Guard) returns (ok: bool, removed: bool)
    requires fs.Valid() && Guarded(fs.disk, fs.promise, g) && (drop ==> Allows(g, n))
    modifies fs
    ensures fs.Valid() && fs.Continues() && Guarded(fs.disk, fs.promise, g)
    ensures ok <==> fs.Quiet(Resuming, old(fs.clock), fs.clock)
    ensures removed <==> ok && drop && n in old(fs.disk.files)
    ensures fs.disk == if removed then Delete(old(fs.disk), n) else old(fs.disk)
    ensures !(drop && n in old(fs.disk.files)) ==> fs.clock == old(fs.clock)
  {
    hide Keeps, Recorded, Requested, Settled, Guarded, Allows, Delete, Belongs;
    ok, removed := true, false;
    if drop && n in fs.disk.files {
      ok := fs.Remove(n, g, Resuming);
      removed := ok;
    }
  }

  /** Drops the unusable manifests and settles what is left. */
  method DropAll(fs: Filesystem, superseded: set<Name>, ghost g: Guard) returns (ok: bool)
    requires fs.Valid() && Guarded(fs.disk, fs.promise, g)
    requires superseded <= {CommitDoc, CompleteDoc} && (g == Seal ==> superseded == {})
    modifies fs
    ensures fs.Valid() && fs.Continues() && Guarded(fs.disk, fs.promise, g)
    ensures fs.disk.place == old(fs.disk.place) && fs.disk.places == old(fs.disk.places)
    ensures ok <==> fs.Quiet(Resuming, old(fs.clock), fs.clock)
    ensures forall x ::
              Lookup(fs.disk.files, x) == Lookup(old(fs.disk.files), x)
              || (x in superseded && Lookup(fs.disk.files, x) == None)
    ensures ok ==> forall x :: x in superseded ==> x !in fs.disk.files
    ensures ok && old(fs.disk.shadow) == map[] ==> fs.disk.shadow == map[]
    ensures superseded == {} ==> fs.disk == old(fs.disk) && fs.clock == old(fs.clock)
  {
    hide Keeps, Recorded, Requested, Settled, Guarded, Belongs, Possible;
    var first;
    ok, first := DropSuperseded(fs, CommitDoc, CommitDoc in superseded, g);
    if !ok { return; }
    var second;
    ok, second := DropSuperseded(fs, CompleteDoc, CompleteDoc in superseded, g);
    if !ok { return; }
    if first || second { ok := fs.SyncStage(g, Resuming); }
  }

  method LoadStage(fs: Filesystem, agent: string, token: nat, ghost g: Guard) returns (loaded: Option<Loaded>)
    requires fs.Valid() && Guarded(fs.disk, fs.promise, g)
    requires g == Seal ==> Superseded(fs.disk.files, fs.bad) == {}
    modifies fs
    ensures fs.Valid() && fs.Continues() && Guarded(fs.disk, fs.promise, g)
    ensures Drops(old(fs.disk.files), fs.disk.files, fs.bad, {}) && fs.disk.files.Keys <= old(fs.disk.files.Keys)
    ensures fs.disk.place == old(fs.disk.place) && fs.disk.places == old(fs.disk.places)
    ensures loaded.Some? <==>
              Load(old(fs.disk.files), fs.bad, agent, token).Some? && fs.Quiet(Resuming, old(fs.clock), fs.clock)
    ensures loaded.Some? ==>
              loaded == Load(old(fs.disk.files), fs.bad, agent, token) == Load(fs.disk.files, fs.bad, agent, token)
    ensures loaded.Some? ==> forall x :: x in Superseded(old(fs.disk.files), fs.bad) ==> x !in fs.disk.files
    ensures loaded.Some? && old(fs.disk.shadow) == map[] ==> fs.disk.shadow == map[]
    ensures Superseded(old(fs.disk.files), fs.bad) == {} ==> fs.disk == old(fs.disk) && fs.clock == old(fs.clock)
  {
    hide Keeps, Recorded, Requested, Settled, Guarded, Load, Chosen, Belongs;
    var files, m := fs.disk.files, Chosen(fs.disk.files, fs.bad);
    if m.None? || !Addressed(m.value, agent, token) {
      NotAddressed(files, fs.bad, agent, token);
      return None;
    }
    var ok := DropAll(fs, Superseded(files, fs.bad), g);
    DroppedNames(files, fs.disk.files, Superseded(files, fs.bad));
    if !ok { return None; }
    LoadIgnoresSuperseded(files, fs.disk.files, fs.bad, agent, token);
    loaded := Load(fs.disk.files, fs.bad, agent, token);
  }

  lemma DroppedNames(files: Files, files': Files, dropped: set<Name>)
    requires forall x :: Lookup(files', x) == Lookup(files, x) || (x in dropped && Lookup(files', x) == None)
    ensures files'.Keys <= files.Keys
  {
    forall x | x in files' ensures x in files {
      assert Lookup(files', x) != None;
    }
  }

  lemma NotAddressed(files: Files, bad: set<Name>, agent: string, token: nat)
    ensures Chosen(files, bad).None? || !Addressed(Chosen(files, bad).value, agent, token) ==>
              Load(files, bad, agent, token) == None
  {
    hide Chosen;
  }

  method RecoverStage(fs: Filesystem, agent: string, token: nat, ghost g: Guard) returns (recovered: Option<Loaded>)
    requires fs.Valid() && Guarded(fs.disk, fs.promise, g) && g != Seal
    modifies fs
    ensures fs.Valid() && fs.Continues() && Guarded(fs.disk, fs.promise, g)
    ensures fs.disk.place == old(fs.disk.place) && fs.disk.places == old(fs.disk.places)
    ensures SameBut(old(fs.disk.files), fs.disk.files, PreparedDoc)
    ensures recovered.Some? <==>
              Recover(old(fs.disk.files), fs.bad, agent, token).Some? && fs.Quiet(Resuming, old(fs.clock), fs.clock)
    ensures recovered.Some? ==>
              && fs.clock > old(fs.clock) && recovered == Recover(fs.disk.files, fs.bad, agent, token)
              && recovered == Recover(old(fs.disk.files), fs.bad, agent, token)
  {
    hide Keeps, Recorded, Requested, Settled, Guarded, Possible, SyncDirectory, Belongs;
    ghost var files := fs.disk.files;
    recovered := Recover(fs.disk.files, fs.bad, agent, token);
    if recovered.None? { return; }
    if PreparedDoc in fs.disk.files {
      var ok := fs.Remove(PreparedDoc, g, Resuming);
      if !ok { return None; }
    }
    var ok := WriteAtomic(fs, PreparedDoc, Document(recovered.value.manifest), g, Resuming);
    assert SameBut(files, fs.disk.files, PreparedDoc);
    if !ok { return None; }
  }

  /** Entries the program does not know are as before. */
  ghost predicate StraysStay(files: Files, files': Files) {
    forall n: Name :: n.Stray? ==> Lookup(files', n) == Lookup(files, n)
  }

  /** Discards an unusable stage: every known file, then the directory; it stops at an entry it does not know. */
  method ResetStage(fs: Filesystem) returns (ok: bool)
    requires fs.Valid() && Guarded(fs.disk, fs.promise, Free)
    modifies fs
    ensures fs.Valid() && fs.Continues()
    ensures ok ==> fs.disk.place == Nowhere
    ensures StraysStay(old(fs.disk.files), fs.disk.files) && (ok ==> Tidy(old(fs.disk.files)))
    ensures fs.Faultless() ==> (ok <==> Tidy(old(fs.disk.files)))
  {
    hide Keeps, Recorded, Requested, Settled, Possible, Repeatable, Sealed, Belongs;
    while fs.disk.files != map[]
      invariant fs.Valid() && fs.Continues() && Guarded(fs.disk, fs.promise, Free)
      invariant fs.disk.files.Keys <= old(fs.disk.files.Keys) && StraysStay(old(fs.disk.files), fs.disk.files)
      decreases |fs.disk.files|
    {
      var n :| n in fs.disk.files;
      if n.Stray? { return false; }
      ok := fs.Remove(n, Free, Working);
      if !ok { return; }
    }
    ok := fs.SyncStage(Free, Working);
    if !ok { return; }
    ok := fs.RemoveStageDirectory();
    if !ok { return; }
    ok := fs.SyncOutputParent();
  }

  /** The pledged key will be given up by a run that reads this directory. */
  ghost predicate GivenUp(d: Disk, p: Promise, bad: set<Name>) {
    p.Kept? && LosesKey(d.files, bad, p.pledge)
  }

  /** What a load of a pledged key may touch: everything but the key and its signing request, or nothing at all. */
  lemma ResumeIsGuarded(d: Disk, p: Promise, bad: set<Name>, agent: string, token: nat)
    requires Keeps(d, p) && d.place == AtStage && !GivenUp(d, p, bad) && Belongs(p, (agent, token))
    ensures Guarded(d, p, StageGuard(d, p))
    ensures StageGuard(d, p) == Seal ==> Superseded(d.files, bad) == {} && Load(d.files, bad, agent, token).Some?
  {
    hide Repeatable, Sealed, Published, Paired, Load, Superseded, Guarded, Seals, Keeps;
    StageIsGuarded(d, p);
    if StageGuard(d, p) == Seal {
      HeldNow(d, p.pledge);
      LoadsBySealExactly(d.files, bad, p.pledge);
      SealSupersedesNothing(d.files, bad, agent, token);
    }
  }

  /** Loads or recovers the staging directory; `None` when neither works.  A pledged key is given up here exactly when
      too little of the directory can be read; `mid` is when loading was over. */
  method ResumeStage(fs: Filesystem, agent: string, token: nat) returns (loaded: Option<Loaded>, ghost mid: nat)
    requires fs.Valid() && fs.disk.place == AtStage && fs.owner == (agent, token)
    modifies fs
    ensures fs.Valid() && fs.Proceeds() && old(fs.clock) <= mid <= fs.clock
    ensures fs.disk.place == AtStage && AtOutput !in fs.disk.places
    ensures fs.promise == if old(GivenUp(fs.disk, fs.promise, fs.bad)) then Own else old(fs.promise)
    ensures Drops(old(fs.disk.files), fs.disk.files, fs.bad, {PreparedDoc})
    ensures var byLoad :=
              Load(old(fs.disk.files), fs.bad, agent, token).Some? && fs.Quiet(Resuming, old(fs.clock), mid);
            && (byLoad ==>
                  loaded == Load(old(fs.disk.files), fs.bad, agent, token) == Load(fs.disk.files, fs.bad, agent, token))
            && (byLoad ==> forall x :: x in Superseded(old(fs.disk.files), fs.bad) ==> x !in fs.disk.files)
            && (!byLoad ==>
                  (loaded.Some? <==>
                     Recover(old(fs.disk.files), fs.bad, agent, token).Some? && fs.Quiet(Resuming, mid, fs.clock)))
            && (!byLoad && loaded.Some? ==>
                  && mid < fs.clock && loaded == Recover(fs.disk.files, fs.bad, agent, token)
                  && loaded == Recover(old(fs.disk.files), fs.bad, agent, token))
  {
    hide Keeps, Recorded, Requested, Repeatable, Sealed, Load, Superseded, Possible, LosesKey, Belongs, Guarded,
      Settled;
    fs.GiveUp(GivenUp(fs.disk, fs.promise, fs.bad), false);
    ghost var g, d0 := StageGuard(fs.disk, fs.promise), fs.disk;
    ResumeIsGuarded(fs.disk, fs.promise, fs.bad, agent, token);
    loaded := LoadStage(fs, agent, token, g);
    mid := fs.clock;
    GuardedIsStage(fs.disk, fs.promise, g);
    if loaded.None? {
      ghost var d1 := fs.disk;
      RecoverIgnoresManifests(d0.files, d1.files, fs.bad, agent, token);
      loaded := RecoverStage(fs, agent, token, g);
      GuardedIsStage(fs.disk, fs.promise, g);
    }
  }

  lemma GuardedIsStage(d: Disk, p: Promise, g: Guard)
    requires Guarded(d, p, g)
    ensures d.place == AtStage && AtOutput !in d.places
  {
  }

  lemma RecoverIgnoresManifests(files: Files, files': Files, bad: set<Name>, agent: string, token: nat)
    requires Drops(files, files', bad, {})
    ensures Recover(files', bad, agent, token) == Recover(files, bad, agent, token)
  {
    assert Lookup(files', Key) == Lookup(files, Key) && Lookup(files', Csr) == Lookup(files, Csr);
  }

  // ---- Preparing -----------------------------------------------------------------------------

  /** What prepare hands on, and what complete and publish update. */
  class EnrollmentGeneration {
    var manifest: Manifest
    var key: Content
    var csr: Option<Content>
    var cert: Option<Content>
    var ca: Option<Content>
    var published: bool

    constructor (loaded: Loaded, published: bool)
      ensures manifest == loaded.manifest && key == loaded.key && this.published == published
      ensures csr == loaded.csr && cert == loaded.cert && ca == loaded.ca
    {
      manifest, key, csr, cert, ca := loaded.manifest, loaded.key, loaded.csr, loaded.cert, loaded.ca;
      this.published := published;
    }
  }

  /** The key a generation carries is on disk, settled and safe: from here on it may be pledged. */
  ghost predicate Safe(d: Disk, p: Promise, agent: string, token: nat, key: Content, phase: Phase) {
    && d.shadow == map[] && d.place == AtStage && d.places == {AtStage} && Lookup(d.files, Key) == Some(key)
    && (p != Anything ==>
          && key.KeyPem?
          && (phase == Finalized ==> Sealed(d, Pledge(agent, token, key.key)))
          && (phase != Finalized ==> Repeatable(d, Pledge(agent, token, key.key))))
  }

  /** The files of a new generation. */
  ghost predicate Freshly(files: Files, m: Manifest, agent: string, token: nat) {
    PreparedFor(files, m, agent, token) && CommitDoc !in files && CompleteDoc !in files && Tidy(files)
  }

  /** A new key, its signing request and the prepared manifest in a new staging directory. */
  method PrepareFresh(fs: Filesystem, agent: string, token: nat, newKey: nat, serial: nat)
    returns (gen: EnrollmentGeneration?)
    requires fs.Valid() && !fs.promise.Kept? && fs.disk.place == Nowhere
    modifies fs
    ensures fs.Valid() && fs.Continues() && (fs.Faultless() ==> gen != null)
    ensures gen != null ==>
              && fresh(gen) && !gen.published && gen.manifest.phase == Ready && gen.key == KeyPem(newKey)
              && gen.manifest.agent == agent && gen.manifest.token == token
              && Safe(fs.disk, fs.promise, agent, token, gen.key, Ready)
                 && Freshly(fs.disk.files, gen.manifest, agent, token)
  {
    hide Keeps, Recorded, Requested, Settled, Guarded, Repeatable, Sealed, Paired, Belongs, Possible, SameBut, Freshly;
    gen := null;
    var ok := fs.MakeStageDirectory();
    if !ok { return; }
    var key, csr := KeyPem(newKey), CsrPem(newKey, serial);
    ghost var d0 := fs.disk;
    EmptyPairs(fs.disk, newKey, serial);
    ok := WriteAtomic(fs, Key, key, Free, Working);
    if !ok { return; }
    ghost var d1 := fs.disk;
    FreshKey(d0.files, d1.files, key);
    KeyPairs(fs.disk, newKey, serial);
    ok := WriteAtomic(fs, Csr, csr, Free, Working);
    if !ok { return; }
    ghost var d2 := fs.disk;
    FreshCsr(d1.files, d2.files, key, csr);
    var manifest := FreshManifest(agent, token, key, csr);
    ok := WriteAtomic(fs, PreparedDoc, Document(manifest), Free, Working);
    if !ok { return; }
    FreshFiles(d2.files, fs.disk.files, key, csr, agent, token);
    ok := fs.SyncStage(Free, Working);
    if !ok { return; }
    ok := fs.SyncOutputParent();
    if !ok { return; }
    gen := new EnrollmentGeneration(Loaded(manifest, key, Some(csr), None, None), false);
    FreshIsRepeatable(fs.disk, agent, token, newKey, serial);
  }

  /** Nothing is in the directory but these files and temporary ones. */
  ghost predicate Holding(files: Files, names: set<Name>) {
    forall x: Name :: !x.Temporary? && x !in names ==> Lookup(files, x) == None
  }

  lemma FreshKey(files: Files, files': Files, key: Content)
    requires files == map[] && SameBut(files, files', Key)
    ensures Holding(files', {Key}) && Csr !in files' && Lookup(files', Csr) == None
  {
    assert forall x: Name :: !x.Temporary? && x != Key ==> Lookup(files', x) == Lookup(files, x);
    assert Lookup(files', Csr) == None;
  }

  lemma FreshCsr(files: Files, files': Files, key: Content, csr: Content)
    requires Holding(files, {Key}) && SameBut(files, files', Csr) && Lookup(files, Key) == Some(key)
             && Lookup(files', Csr) == Some(csr)
    ensures Holding(files', {Key, Csr}) && PreparedDoc !in files' && Lookup(files', Key) == Some(key)
  {
    assert Lookup(files', PreparedDoc) == None;
  }

  lemma FreshFiles(files: Files, files': Files, key: Content, csr: Content, agent: string, token: nat)
    requires Holding(files, {Key, Csr}) && SameBut(files, files', PreparedDoc) && Pair(key, csr)
    requires Lookup(files, Key) == Some(key) && Lookup(files, Csr) == Some(csr)
    ensures Freshly(files', FreshManifest(agent, token, key, csr), agent, token)
    ensures Lookup(files', Key) == Some(key) && Lookup(files', Csr) == Some(csr)
  {
    assert Lookup(files', Key) == Some(key) && Lookup(files', Csr) == Some(csr);
    assert Lookup(files', CommitDoc) == None && Lookup(files', CompleteDoc) == None;
    forall n | n in files' ensures !n.Stray? {
      assert n.Stray? ==> Lookup(files', n) == Lookup(files, n);
    }
  }

  lemma EmptyPairs(d: Disk, k: nat, serial: nat)
    requires d.files == map[] && d.shadow == map[]
    ensures Paired(Put(d, Key, KeyPem(k)))
  {
    var d' := Put(d, Key, KeyPem(k));
    assert Possible(d', Key) <= {None, Some(KeyPem(k))} && Possible(d', Csr) <= {None, Some(CsrPem(k, serial))};
  }

  lemma KeyPairs(d: Disk, k: nat, serial: nat)
    requires d.shadow == map[] && Lookup(d.files, Key) == Some(KeyPem(k)) && Lookup(d.files, Csr) == None
    ensures Paired(Put(d, Csr, CsrPem(k, serial)))
  {
    var d' := Put(d, Csr, CsrPem(k, serial));
    assert Possible(d', Key) <= {None, Some(KeyPem(k))} && Possible(d', Csr) <= {None, Some(CsrPem(k, serial))};
  }

  lemma FreshIsRepeatable(d: Disk, agent: string, token: nat, k: nat, serial: nat)
    requires d.shadow == map[] && Lookup(d.files, Key) == Some(KeyPem(k))
             && Lookup(d.files, Csr) == Some(CsrPem(k, serial))
    ensures Repeatable(d, Pledge(agent, token, k))
  {
    hide Certain;
    SettledIsCertain(d, Key);
    SettledIsCertain(d, Csr);
  }

  /** What a faultless run makes of a readable staging directory that it does not discard. */
  ghost predicate Resumes(files: Files, files': Files, agent: string, token: nat, m: Manifest) {
    var loaded := Load(files, {}, agent, token);
    && (if loaded.Some? then m == loaded.value.manifest else m.phase == Ready)
    && (m.phase == Ready ==> PreparedFor(files', m, agent, token) && Commit(files') == Commit(files))
    && (m.phase != Ready ==> Load(files', {}, agent, token) == loaded)
    && (loaded.None? && Commit(files).Some? ==>
          forall x :: x in {Key, Csr, CommitDoc} ==> Lookup(files', x) == Lookup(files, x))
  }

  lemma LoadResumes(files: Files, files': Files, agent: string, token: nat, loaded: Loaded)
    requires Load(files, {}, agent, token) == Some(loaded) == Load(files', {}, agent, token)
    requires Drops(files, files', {}, {PreparedDoc}) && forall x :: x in Superseded(files, {}) ==> x !in files'
    ensures Resumes(files, files', agent, token, loaded.manifest)
  {
    hide Drops;
    assert Read(files', {}, Key) == Lookup(files', Key) && Read(files', {}, Csr) == Lookup(files', Csr);
  }

  lemma RecoverResumes(files: Files, files': Files, agent: string, token: nat, recovered: Loaded)
    requires Load(files, {}, agent, token).None?
             && Recover(files, {}, agent, token) == Some(recovered) == Recover(files', {}, agent, token)
    requires Drops(files, files', {}, {PreparedDoc})
    ensures Resumes(files, files', agent, token, recovered.manifest)
  {
    hide Load;
    assert Lookup(files', Key) == Lookup(files, Key) && Lookup(files', Csr) == Lookup(files, Csr);
    assert Lookup(files', CommitDoc) == Lookup(files, CommitDoc)
      || (CommitDoc in Superseded(files, {}) && Lookup(files', CommitDoc) == None);
  }

  /** Reading does not depend on temporary files. */
  lemma SameNamedReads(files: Files, files': Files, bad: set<Name>, agent: string, token: nat)
    requires SameNamed(files, files')
    ensures Load(files', bad, agent, token) == Load(files, bad, agent, token)
    ensures Recover(files', bad, agent, token) == Recover(files, bad, agent, token)
    ensures Superseded(files', bad) == Superseded(files, bad)
    ensures forall p :: LosesKey(files', bad, p) <==> LosesKey(files, bad, p)
    ensures Tidy(files') <==> Tidy(files)
    ensures Commit(files') == Commit(files)
  {
    assert forall x: Name :: !x.Temporary? ==>
      Read(files', bad, x) == Read(files, bad, x) && Read(files', {}, x) == Read(files, {}, x);
    assert Chosen(files', bad) == Chosen(files, bad);
    forall p ensures Seals(files', p) <==> Seals(files, p) { SameNamedSeals(files, files', p); }
    SameNamedTidy(files, files');
    SameNamedTidy(files', files);
  }

  lemma SameNamedSeals(files: Files, files': Files, p: Pledge)
    requires SameNamed(files, files')
    ensures Seals(files', p) <==> Seals(files, p)
  {
    hide Vouches;
    assert forall x: Name :: !x.Temporary? ==>
      (x in files' <==> x in files) && (x in files ==> files'[x] == files[x]) by {
      forall x: Name | !x.Temporary? ensures (x in files' <==> x in files) && (x in files ==> files'[x] == files[x]) {
        assert Lookup(files', x) == Lookup(files, x);
      }
    }
  }

  lemma SameNamedTidy(files: Files, files': Files)
    requires SameNamed(files, files')
    ensures Tidy(files) ==> Tidy(files')
  {
    assert forall n: Name :: n.Stray? ==> Lookup(files', n) == Lookup(files, n);
  }

  lemma ResumedIsAddressed(files: Files, bad: set<Name>, agent: string, token: nat, loaded: Loaded)
    requires Some(loaded) in {Load(files, bad, agent, token), Recover(files, bad, agent, token),
                              LoadOutput(files, bad, agent, token)}
    ensures loaded.manifest.agent == agent && loaded.manifest.token == token
    ensures Some(loaded) != LoadOutput(files, bad, agent, token) ==> Lookup(files, Key) == Some(loaded.key)
  {
    hide Chosen, ManifestAt, Pair, Matches;
  }

  lemma ResumedIsSafe(d: Disk, p: Promise, bad: set<Name>, agent: string, token: nat, loaded: Loaded)
    requires Keeps(d, p) && d.shadow == map[] && d.place == AtStage && d.places == {AtStage}
    requires Load(d.files, bad, agent, token) == Some(loaded) || Recover(d.files, bad, agent, token) == Some(loaded)
    ensures Safe(d, p, agent, token, loaded.key, loaded.manifest.phase)
  {
    hide Repeatable, Sealed, Published, Chosen, Holds;
    if p != Anything { ResumedCanBePledged(d, bad, agent, token, loaded); }
  }

  /** A key that was resumed under a pledge is the pledged one and is not at risk. */
  lemma ResumedIsKept(d: Disk, p: Promise, bad: set<Name>, agent: string, token: nat, loaded: Loaded)
    requires Keeps(d, p) && d.place == AtStage && p.Kept? && Belongs(p, (agent, token))
    requires Load(d.files, bad, agent, token) == Some(loaded) || Recover(d.files, bad, agent, token) == Some(loaded)
    ensures loaded.key == KeyPem(p.pledge.key) && !LosesKey(d.files, bad, p.pledge)
  {
    hide Keeps, LosesKey, Load, Recover;
    HeldNow(d, p.pledge);
    ResumedIsAddressed(d.files, bad, agent, token, loaded);
    KeyIsLostExactlyWhen(d, p.pledge, bad);
  }

  /** A pledged key is given up exactly when neither loading nor recovering finds it. */
  lemma GivenUpIsLost(d: Disk, p: Promise, bad: set<Name>, agent: string, token: nat)
    requires Keeps(d, p) && d.place == AtStage && Belongs(p, (agent, token))
    ensures GivenUp(d, p, bad) <==> p.Kept? && Resume(d.files, bad, agent, token).None?
  {
    hide Keeps, LosesKey, Resume;
    if p.Kept? { KeyIsLostExactlyWhen(d, p.pledge, bad); }
  }

  /** Loads or recovers the staging directory.  Where neither works a pledged key is given up: because too little of the
      directory can be read, or because an operation of loading or recovering failed. */
  method ResumeOrGiveUp(fs: Filesystem, agent: string, token: nat) returns (loaded: Option<Loaded>)
    requires fs.Valid() && fs.disk.place == AtStage && fs.owner == (agent, token)
    modifies fs
    ensures fs.Valid() && fs.Proceeds() && fs.disk.place == AtStage
    ensures loaded.Some? || !old(fs.promise).Kept? ==> fs.promise == old(fs.promise)
    ensures loaded.None? && old(fs.promise).Kept? ==>
              && fs.promise == Own
              && (LosesKey(old(fs.disk.files), fs.bad, old(fs.promise).pledge)
                  || Hinders(fs.fails, old(fs.clock), fs.clock))
    ensures loaded.Some? ==>
              loaded in {Load(fs.disk.files, fs.bad, agent, token), Recover(fs.disk.files, fs.bad, agent, token)}
    ensures Tidy(old(fs.disk.files)) ==> Tidy(fs.disk.files)
    ensures Commit(old(fs.disk.files)).None? ==> Commit(fs.disk.files).None?
    ensures fs.Faultless() ==> (loaded.Some? <==> Resume(old(fs.disk.files), fs.bad, agent, token).Some?)
    ensures (forall i :: fs.fails(Resuming, i)) && Load(old(fs.disk.files), fs.bad, agent, token).None? ==> loaded.None?
    ensures fs.Faultless() && loaded.Some? && fs.bad == {} ==>
              Resumes(old(fs.disk.files), fs.disk.files, agent, token, loaded.value.manifest)
  {
    hide Keeps, Recorded, Requested, Settled, Load, Recover, Guarded, Belongs, LosesKey, Superseded, Tidy, Drops,
      Resumes;
    ghost var d, p, from := fs.disk, fs.promise, fs.clock;
    GivenUpIsLost(d, p, fs.bad, agent, token);
    ghost var mid;
    loaded, mid := ResumeStage(fs, agent, token);
    DropsTidy(d.files, fs.disk.files, fs.bad);
    if Commit(d.files).None? { DropsCommit(d.files, fs.disk.files, fs.bad); }
    assert fs.Quiet(Resuming, mid, fs.clock) && mid < fs.clock ==> !fs.fails(Resuming, mid);
    fs.GiveUp(loaded.None? && fs.promise.Kept?, false);
    if fs.Faultless() && loaded.Some? && fs.bad == {} {
      ResumeResumes(d.files, fs.disk.files, agent, token, loaded.value);
    }
  }

  lemma ResumeResumes(files: Files, files': Files, agent: string, token: nat, loaded: Loaded)
    requires Drops(files, files', {}, {PreparedDoc})
    requires if Load(files, {}, agent, token).Some?
             then Load(files, {}, agent, token) == Some(loaded) == Load(files', {}, agent, token)
                  && forall x :: x in Superseded(files, {}) ==> x !in files'
             else Recover(files, {}, agent, token) == Some(loaded) == Recover(files', {}, agent, token)
    ensures Resumes(files, files', agent, token, loaded.manifest)
  {
    hide Load, Recover, Drops, Resumes, Superseded;
    if Load(files, {}, agent, token).Some? { LoadResumes(files, files', agent, token, loaded); }
    else { RecoverResumes(files, files', agent, token, loaded); }
  }

  /** Settles a resumed staging directory: from here on its key may be pledged. */
  method SettleStage(fs: Filesystem, agent: string, token: nat, loaded: Loaded) returns (gen: EnrollmentGeneration?)
    requires fs.Valid() && fs.disk.place == AtStage && fs.owner == (agent, token)
    requires Some(loaded) in {Load(fs.disk.files, fs.bad, agent, token), Recover(fs.disk.files, fs.bad, agent, token)}
    modifies fs
    ensures fs.Valid() && fs.Continues() && fs.disk.place == AtStage && fs.disk.files == old(fs.disk.files)
    ensures fs.Faultless() ==> gen != null
    ensures gen != null ==>
              && fresh(gen) && !gen.published && gen.manifest == loaded.manifest
              && gen.manifest.agent == agent && gen.manifest.token == token
              && Safe(fs.disk, fs.promise, agent, token, gen.key, gen.manifest.phase)
              && (fs.promise.Kept? ==>
                    gen.key == KeyPem(fs.promise.pledge.key) && !LosesKey(fs.disk.files, fs.bad, fs.promise.pledge))
  {
    hide Keeps, Recorded, Requested, Settled, Load, Recover, Guarded, Belongs, LosesKey, Safe;
    gen := null;
    StageIsGuarded(fs.disk, fs.promise);
    var ok := fs.SyncStage(StageGuard(fs.disk, fs.promise), Working);
    if !ok { return; }
    ok := fs.SyncOutputParent();
    if !ok { return; }
    gen := new EnrollmentGeneration(loaded, false);
    ResumedIsSafe(fs.disk, fs.promise, fs.bad, agent, token, loaded);
    ResumedIsAddressed(fs.disk.files, fs.bad, agent, token, loaded);
    if fs.promise.Kept? { ResumedIsKept(fs.disk, fs.promise, fs.bad, agent, token, loaded); }
  }

  /** Cleans up and resumes the staging directory, and settles what it holds; or it is to be discarded and started
      over. */
  method PrepareStage(fs: Filesystem, agent: string, token: nat) returns (gen: EnrollmentGeneration?, startOver: bool)
    requires fs.Valid() && fs.disk.place == AtStage && fs.owner == (agent, token)
    modifies fs
    ensures fs.Valid() && fs.Proceeds() && fs.disk.place == AtStage
    ensures !(startOver && old(fs.promise).Kept?) ==> fs.promise == old(fs.promise)
    ensures startOver ==> gen == null
    ensures startOver && old(fs.promise).Kept? ==>
              && fs.promise == Own
              && (LosesKey(old(fs.disk.files), fs.bad, old(fs.promise).pledge)
                  || Hinders(fs.fails, old(fs.clock), fs.clock))
    ensures gen != null ==>
              && fresh(gen) && !gen.published && gen.manifest.agent == agent && gen.manifest.token == token
              && Safe(fs.disk, fs.promise, agent, token, gen.key, gen.manifest.phase)
              && (fs.promise.Kept? ==>
                    gen.key == KeyPem(fs.promise.pledge.key) && !LosesKey(fs.disk.files, fs.bad, fs.promise.pledge))
    ensures Tidy(old(fs.disk.files)) ==> Tidy(fs.disk.files)
    ensures Commit(old(fs.disk.files)).None? ==> Commit(fs.disk.files).None?
    ensures fs.Faultless() ==> (startOver <==> Resume(old(fs.disk.files), fs.bad, agent, token).None?)
    ensures fs.Faultless() ==> (gen != null <==> !startOver)
    ensures fs.Faultless() && gen != null && fs.bad == {} ==>
              Resumes(old(fs.disk.files), fs.disk.files, agent, token, gen.manifest)
  {
    hide Keeps, Recorded, Requested, Settled, Repeatable, Sealed, Load, Recover, Possible, Guarded, Belongs, LosesKey,
      Superseded, Tidy, SameNamed, Resumes, Safe, Commit;
    gen, startOver := null, false;
    ghost var files := fs.disk.files;
    StageIsGuarded(fs.disk, fs.promise);
    var ok := CleanupTemporaries(fs, StageGuard(fs.disk, fs.promise));
    SameNamedReads(files, fs.disk.files, fs.bad, agent, token);
    if !ok { return; }
    ghost var named := fs.disk.files;
    var loaded := ResumeOrGiveUp(fs, agent, token);
    if loaded.None? {
      startOver := true;
      return;
    }
    gen := SettleStage(fs, agent, token, loaded.value);
    if fs.Faultless() && fs.bad == {} {
      ResumesNamed(files, named, fs.disk.files, agent, token, loaded.value.manifest);
    }
  }

  lemma DropsCommit(files: Files, files': Files, bad: set<Name>)
    requires Drops(files, files', bad, {PreparedDoc}) && Commit(files).None?
    ensures Commit(files').None?
  {
    assert Lookup(files', CommitDoc) == Lookup(files, CommitDoc) || Lookup(files', CommitDoc) == None;
  }

  lemma DropsTidy(files: Files, files': Files, bad: set<Name>)
    requires Drops(files, files', bad, {PreparedDoc})
    ensures Tidy(files) ==> Tidy(files')
  {
    assert forall n: Name :: n.Stray? ==> Lookup(files', n) == Lookup(files, n);
  }

  lemma ResumesNamed(files0: Files, files: Files, files': Files, agent: string, token: nat, m: Manifest)
    requires SameNamed(files0, files) && Resumes(files, files', agent, token, m)
    ensures Resumes(files0, files', agent, token, m)
  {
    hide Load, PreparedFor;
    SameNamedReads(files0, files, {}, agent, token);
    assert forall x :: x in {Key, Csr, CommitDoc} ==> Lookup(files, x) == Lookup(files0, x);
  }

  /** What a faultless run that can read everything makes of the directory it finds, short of an output directory. */
  ghost predicate Prepares(d: Disk, files': Files, agent: string, token: nat, m: Manifest) {
    if d.place == AtStage && Resume(d.files, {}, agent, token).Some?
    then Resumes(d.files, files', agent, token, m)
    else Freshly(files', m, agent, token)
  }

  /** Whether a faultless run can prepare at all: an output directory has to be its own. */
  ghost predicate Preparable(d: Disk, bad: set<Name>, agent: string, token: nat) {
    d.place == AtOutput ==> LoadOutput(d.files, bad, agent, token).Some?
  }

  /** The generation that prepare returns is its own and holds a key that may be pledged, the pledged one if there is
      one. */
  ghost predicate Returned(gen: EnrollmentGeneration, d: Disk, p: Promise, bad: set<Name>, agent: string, token: nat)
    reads gen
  {
    && gen.manifest.agent == agent && gen.manifest.token == token && (gen.published <==> d.place == AtOutput)
    && (if gen.published then gen.manifest.phase == Finalized && LoadOutput(d.files, bad, agent, token).Some?
        else Safe(d, p, agent, token, gen.key, gen.manifest.phase))
    && (p.Kept? ==> gen.key == KeyPem(p.pledge.key) && (!gen.published ==> !LosesKey(d.files, bad, p.pledge)))
  }

  method PrepareOutput(fs: Filesystem, agent: string, token: nat) returns (gen: EnrollmentGeneration?)
    requires fs.Valid() && fs.disk.place == AtOutput && fs.owner == (agent, token)
    ensures gen != null <==> LoadOutput(fs.disk.files, fs.bad, agent, token).Some?
    ensures gen != null ==> fresh(gen) && Returned(gen, fs.disk, fs.promise, fs.bad, agent, token)
  {
    hide Recorded, Settled, LosesKey, Safe, LoadOutput, Keeps;
    gen := null;
    var loaded := LoadOutput(fs.disk.files, fs.bad, agent, token);
    if loaded.Some? {
      OutputKey(fs.disk, fs.promise, fs.bad, agent, token, loaded.value);
      gen := new EnrollmentGeneration(loaded.value, true);
    }
  }

  lemma OutputKey(d: Disk, p: Promise, bad: set<Name>, agent: string, token: nat, loaded: Loaded)
    requires Keeps(d, p) && LoadOutput(d.files, bad, agent, token) == Some(loaded)
    ensures loaded.manifest.agent == agent && loaded.manifest.token == token && loaded.manifest.phase == Finalized
    ensures p.Kept? ==> loaded.key == KeyPem(p.pledge.key)
  {
    hide Keeps, Seals;
    if p.Kept? { HeldNow(d, p.pledge); }
  }

  lemma PlaceOfKept(d: Disk, p: Promise)
    requires Keeps(d, p) && d.place != AtOutput
    ensures AtOutput !in d.places
    ensures p.Kept? ==> d.place == AtStage
  {
    hide Repeatable, Sealed, Published, Paired;
  }

  method Prepare(fs: Filesystem, agent: string, token: nat, newKey: nat, serial: nat)
    returns (gen: EnrollmentGeneration?)
    requires fs.Valid() && fs.owner == (agent, token)
    modifies fs
    ensures fs.Valid() && fs.Proceeds()
    ensures gen != null ==> fresh(gen) && Returned(gen, fs.disk, fs.promise, fs.bad, agent, token)
    ensures old(fs.disk.place) == AtOutput ==> fs.disk == old(fs.disk)
    ensures gen != null ==> (gen.published <==> old(fs.disk.place) == AtOutput)
    // The pledge is kept or given up:
    ensures fs.promise != old(fs.promise) ==>
              && old(fs.disk.place == AtStage && fs.promise.Kept?) && fs.promise == Own
              && (LosesKey(old(fs.disk.files), fs.bad, old(fs.promise).pledge)
                  || Hinders(fs.fails, old(fs.clock), fs.clock))
    ensures (fs.promise != old(fs.promise) || old(fs.disk.place) == Nowhere) && gen != null ==>
              gen.key == KeyPem(newKey) && gen.manifest.phase == Ready
    ensures fs.Faultless() && old(fs.disk.place == AtStage && fs.promise.Kept?) ==>
              (fs.promise == Own <==> LosesKey(old(fs.disk.files), fs.bad, old(fs.promise).pledge))
    // Progress:
    ensures fs.Faultless() && old(fs.disk.place == Nowhere) ==> gen != null
    ensures fs.Faultless() && old(fs.disk.place == AtStage && Resume(fs.disk.files, fs.bad, agent, token).Some?) ==>
              gen != null
    ensures fs.Faultless() && Tidy(old(fs.disk.files)) ==>
              (gen != null <==> old(Preparable(fs.disk, fs.bad, agent, token)))
    ensures fs.Faultless() && fs.bad == {} && gen != null && !gen.published ==>
              Prepares(old(fs.disk), fs.disk.files, agent, token, gen.manifest)
    ensures gen != null && !gen.published && Tidy(old(fs.disk.files)) ==> Tidy(fs.disk.files)
    // No finalized manifest appears:
    ensures gen != null && !gen.published && (old(fs.disk.place) == AtStage ==> Commit(old(fs.disk.files)).None?) ==>
              Commit(fs.disk.files).None?
  {
    hide Keeps, Recorded, Requested, Settled, Resume, Guarded, Belongs, LosesKey, Tidy, Repeatable, Sealed, LoadOutput,
      Resumes;
    gen := null;
    if fs.disk.place == AtOutput {
      gen := PrepareOutput(fs, agent, token);
      return;
    }
    PlaceOfKept(fs.disk, fs.promise);
    if fs.disk.place == AtStage {
      ghost var d, p := fs.disk, fs.promise;
      GivenUpIsLost(d, p, fs.bad, agent, token);
      var startOver;
      gen, startOver := PrepareStage(fs, agent, token);
      if !startOver { return; }
      StageIsGuarded(fs.disk, fs.promise);
      var ok := ResetStage(fs);
      if !ok { return; }
    }
    gen := PrepareFresh(fs, agent, token, newKey, serial);
  }
}
