/** Completing an enrolment with the server's answer, and publishing it: the staging directory is finalized, reduced to
    four files and renamed (backend/cmd/agent/enrollment_generation.go). */
module EnrollmentPublishing {
  import opened Wrappers
  import opened Enrollment
  import opened EnrollmentResume
  import opened EnrollmentProgress
  import opened EnrollmentFiles
  import opened EnrollmentPreparing

  // ---- Completing ----------------------------------------------------------------------------

  /** When nothing outside the disk stops a generation from being completed. */
  predicate Acceptable(m: Manifest, cert: Option<Content>, ca: Option<Content>, response: Response,
                       serverCa: Option<Content>) {
    && response.agent == m.agent && response.trusted && serverCa.Some? && m.phase != Unknown && response.consistent
    && (m.phase == Completed ==> cert == Some(response.cert) && ca == serverCa)
  }

  /** Only what completing writes differs. */
  ghost predicate SameButAnswer(files: Files, files': Files) {
    forall x: Name :: x !in {Cert, Ca, CompleteDoc} && !x.Temporary? ==> Lookup(files', x) == Lookup(files, x)
  }

  lemma AnswerWritten(files0: Files, files1: Files, files2: Files, files3: Files, files4: Files)
    requires SameNamed(files0, files1) && SameBut(files1, files2, Cert) && SameBut(files2, files3, Ca)
             && SameBut(files3, files4, CompleteDoc)
    ensures SameButAnswer(files0, files1) && SameButAnswer(files0, files2) && SameButAnswer(files0, files3)
            && SameButAnswer(files0, files4)
    ensures Lookup(files4, Ca) == Lookup(files3, Ca)
            && Lookup(files4, Cert) == Lookup(files3, Cert) == Lookup(files2, Cert)
  {
  }

  /** Writes certificate, CA and completed manifest. */
  method WriteAnswer(fs: Filesystem, cert: Content, ca: Content, manifest: Manifest, ghost g: Guard) returns (ok: bool)
    requires fs.Valid() && Guarded(fs.disk, fs.promise, g) && g != Seal
    modifies fs
    ensures fs.Valid() && fs.Continues() && Guarded(fs.disk, fs.promise, g) && (fs.Faultless() ==> ok)
    ensures fs.disk.place == old(fs.disk.place) && fs.disk.places == old(fs.disk.places)
    ensures SameButAnswer(old(fs.disk.files), fs.disk.files)
    ensures ok ==> fs.disk.shadow == map[] && Completes(old(fs.disk.files), fs.disk.files, manifest, cert, ca)
  {
    hide Keeps, Recorded, Requested, Settled, Guarded, Possible, Belongs, SameBut, SameNamed, SameButAnswer;
    ghost var files0 := fs.disk.files;
    ok := CleanupTemporaries(fs, g);
    ghost var files1 := fs.disk.files;
    SameFiles(files1, Cert); SameFiles(files1, Ca); SameFiles(files1, CompleteDoc);
    AnswerWritten(files0, files1, files1, files1, files1);
    if !ok { return; }
    ok := WriteResumable(fs, Cert, cert, g);
    ghost var files2 := fs.disk.files;
    SameFiles(files2, Ca); SameFiles(files2, CompleteDoc);
    AnswerWritten(files0, files1, files2, files2, files2);
    if !ok { return; }
    ok := WriteResumable(fs, Ca, ca, g);
    ghost var files3 := fs.disk.files;
    SameFiles(files3, CompleteDoc);
    AnswerWritten(files0, files1, files2, files3, files3);
    if !ok { return; }
    ok := WriteResumable(fs, CompleteDoc, Document(manifest), g);
    ghost var files4 := fs.disk.files;
    AnswerWritten(files0, files1, files2, files3, files4);
    if !ok { return; }
    ok := fs.SyncStage(g, Working);
    AnswerCompletes(files0, files4, manifest, cert, ca);
  }

  lemma AnswerCompletes(files: Files, files': Files, manifest: Manifest, cert: Content, ca: Content)
    requires SameButAnswer(files, files')
    requires Lookup(files', Cert) == Some(cert) && Lookup(files', Ca) == Some(ca)
             && Lookup(files', CompleteDoc) == Some(Document(manifest))
    ensures Completes(files, files', manifest, cert, ca)
  {
  }

  /** Completes a generation, or checks a completed one against the answer.  A pledged key whose signing request has
      gone depends on the certificate and CA beside it: completing such a generation again gives it up. */
  method CompleteGeneration(fs: Filesystem, gen: EnrollmentGeneration, response: Response, serverCa: Option<Content>)
    returns (ok: bool)
    requires fs.Valid() && (!gen.published ==> fs.disk.place == AtStage && fs.disk.shadow == map[])
    modifies fs, gen
    ensures fs.Valid() && gen.key == old(gen.key) && gen.published == old(gen.published)
    ensures fs.promise == old(fs.promise) ==> fs.Continues()
    ensures fs.promise != old(fs.promise) ==>
              old(fs.promise.Kept? && Csr !in fs.disk.files && gen.manifest.phase != Completed) && fs.promise == Own
                && fs.misused && fs.requests == old(fs.requests)
    ensures !gen.published ==> SameButAnswer(old(fs.disk.files), fs.disk.files) && fs.disk.place == AtStage
    ensures gen.manifest.agent == old(gen.manifest.agent) && gen.manifest.token == old(gen.manifest.token)
    ensures ok ==>
              !gen.published && gen.manifest.phase == Completed && fs.disk.place == AtStage && fs.disk.shadow == map[]
    ensures ok && old(gen.manifest.phase) == Completed ==> fs.disk == old(fs.disk) && gen.manifest == old(gen.manifest)
    ensures ok && old(gen.manifest.phase) != Completed ==>
              && serverCa.Some? && gen.manifest == CompletedManifest(old(gen.manifest), response, serverCa.value)
              && Completes(old(fs.disk.files), fs.disk.files, gen.manifest, response.cert, serverCa.value)
    ensures ok ==> old(Acceptable(gen.manifest, gen.cert, gen.ca, response, serverCa))
    ensures fs.Faultless() ==>
              (ok <==> !gen.published && old(Acceptable(gen.manifest, gen.cert, gen.ca, response, serverCa)))
  {
    hide Keeps, Recorded, Requested, Settled, Guarded, Possible, Belongs, Completes;
    ok := false;
    if gen.published || response.agent != gen.manifest.agent || !response.trusted || serverCa.None? { return; }
    if gen.manifest.phase == Completed {
      ok := gen.cert == Some(response.cert) && gen.ca == serverCa && response.consistent;
      return;
    }
    if gen.manifest.phase == Unknown { return; }
    fs.GiveUp(fs.promise.Kept? && Csr !in fs.disk.files, true);
    StageIsGuarded(fs.disk, fs.promise);
    var manifest := CompletedManifest(gen.manifest, response, serverCa.value);
    ok := WriteAnswer(fs, response.cert, serverCa.value, manifest, StageGuard(fs.disk, fs.promise));
    if !ok { return; }
    gen.cert, gen.ca, gen.manifest := Some(response.cert), serverCa, manifest;
    ok := response.consistent;
  }

  // ---- Checking and finalizing ---------------------------------------------------------------

  /** Key, certificate, CA and finalized manifest are all there and agree. */
  ghost predicate Vouched(files: Files, m: Manifest) {
    && Lookup(files, CommitDoc) == Some(Document(m)) && Key in files && Cert in files && Ca in files
    && Vouches(m, files[Key], files[Cert], files[Ca])
  }

  lemma VouchedIsSealed(d: Disk, m: Manifest, p: Pledge)
    requires Vouched(d.files, m) && d.shadow == map[] && d.files[Key] == KeyPem(p.key) && m.agent == p.agent
             && m.token == p.token
    ensures Sealed(d, p)
  {
    hide Certain, Vouches;
    SettledIsCertain(d, Key); SettledIsCertain(d, CommitDoc); SettledIsCertain(d, Cert); SettledIsCertain(d, Ca);
  }

  lemma VouchedIs(files: Files, m: Manifest)
    requires Vouched(files, m)
    ensures Lookup(files, CommitDoc) == Some(Document(m))
  {
  }

  lemma VouchedIsPublished(files: Files, m: Manifest)
    requires Vouched(files, m) && files.Keys == {Key, Cert, Ca, CommitDoc}
    ensures Published(files)
  {
  }

  lemma LoadedVouches(files: Files, bad: set<Name>, agent: string, token: nat, loaded: Loaded)
    requires Load(files, bad, agent, token) == Some(loaded)
    ensures loaded.manifest.agent == agent && loaded.manifest.token == token && Lookup(files, Key) == Some(loaded.key)
    ensures loaded.manifest.phase == Finalized ==> Vouched(files, loaded.manifest)
    ensures loaded.manifest.phase == Completed ==>
              && Key in files && Cert in files && Ca in files && Csr in files
              && Vouches(loaded.manifest.(phase := Finalized), files[Key], files[Cert], files[Ca])
  {
    LoadedPhase(files, bad, agent, token);
  }

  /** A loaded generation for the owner, with the pledged key if there is one. */
  ghost predicate Owned(loaded: Loaded, p: Promise, owner: (string, nat)) {
    && (loaded.manifest.agent, loaded.manifest.token) == owner
       && (loaded.manifest.phase == Completed || loaded.manifest.phase == Finalized)
    && (p.Kept? ==> loaded.key == KeyPem(p.pledge.key) && (p.pledge.agent, p.pledge.token) == owner)
  }

  /** Cleans up and loads a stage that is to be published. */
  method ReloadStage(fs: Filesystem, agent: string, token: nat) returns (loaded: Option<Loaded>)
    requires fs.Valid() && fs.disk.place == AtStage && fs.disk.shadow == map[] && fs.owner == (agent, token)
    modifies fs
    ensures fs.Valid() && fs.disk.place == AtStage && fs.Proceeds()
    ensures fs.promise == if old(GivenUp(fs.disk, fs.promise, fs.bad)) then Own else old(fs.promise)
    ensures loaded.Some? ==>
              && fs.disk.shadow == map[] && Load(fs.disk.files, fs.bad, agent, token) == loaded
              && loaded == Load(old(fs.disk.files), fs.bad, agent, token)
    ensures loaded.Some? && Tidy(old(fs.disk.files)) ==> forall n :: n in fs.disk.files ==> KnownName(n)
    ensures fs.Faultless() ==> loaded == Load(old(fs.disk.files), fs.bad, agent, token)
    ensures Superseded(old(fs.disk.files), fs.bad) == {} ==> SameNamed(old(fs.disk.files), fs.disk.files)
  {
    hide Keeps, Recorded, Requested, Settled, Guarded, Load, Superseded, LosesKey, SameNamed, Tidy, Drops, Possible;
    ghost var files := fs.disk.files;
    fs.GiveUp(GivenUp(fs.disk, fs.promise, fs.bad), false);
    StageIsGuarded(fs.disk, fs.promise);
    var ok := CleanupTemporaries(fs, StageGuard(fs.disk, fs.promise));
    SameNamedReads(files, fs.disk.files, fs.bad, agent, token);
    if !ok { return None; }
    ghost var named := fs.disk.files;
    ResumeIsGuarded(fs.disk, fs.promise, fs.bad, agent, token);
    loaded := LoadStage(fs, agent, token, StageGuard(fs.disk, fs.promise));
    OnlyKnownNames(named, fs.disk.files);
  }

  /** The checks of a stage that is to be published. */
  method CheckStage(fs: Filesystem, agent: string, token: nat, serverCa: Content, trusted: bool)
    returns (loaded: Option<Loaded>)
    requires fs.Valid() && fs.disk.place == AtStage && fs.disk.shadow == map[] && fs.owner == (agent, token)
    modifies fs
    ensures fs.Valid() && fs.disk.place == AtStage && fs.Proceeds()
    ensures fs.promise == if old(GivenUp(fs.disk, fs.promise, fs.bad)) then Own else old(fs.promise)
    ensures loaded.Some? ==>
              && fs.disk.shadow == map[] && Load(fs.disk.files, fs.bad, agent, token) == loaded
              && Owned(loaded.value, fs.promise, fs.owner) && forall n :: n in fs.disk.files ==> KnownName(n)
    ensures loaded.Some? ==>
              trusted && Consistent(loaded.value, serverCa) && loaded == Load(old(fs.disk.files), fs.bad, agent, token)
    ensures fs.Faultless() && fs.bad == {} && Tidy(old(fs.disk.files)) ==>
              (loaded.Some? <==> trusted && Publishable(old(fs.disk.files), agent, token, serverCa))
    ensures Superseded(old(fs.disk.files), fs.bad) == {} ==> SameNamed(old(fs.disk.files), fs.disk.files)
  {
    hide Keeps, Recorded, Requested, Settled, Load, Superseded, GivenUp, SameNamed, Tidy;
    loaded := ReloadStage(fs, agent, token);
    if loaded.None? || loaded.value.manifest.phase == Ready || !trusted || !Consistent(loaded.value, serverCa) {
      return None;
    }
    LoadedPhase(fs.disk.files, fs.bad, agent, token);
    KeptKey(fs.disk, fs.promise, loaded.value);
    if exists n :: n in fs.disk.files && (!KnownName(n) || n in fs.bad) { return None; }
  }

  lemma OnlyKnownNames(files: Files, files': Files)
    requires files'.Keys <= files.Keys && forall x :: x in files ==> !x.Temporary?
    ensures Tidy(files) ==> forall n :: n in files' ==> KnownName(n)
  {
  }

  /** Whatever was loaded under a pledge, it carries the pledged key. */
  lemma KeptKey(d: Disk, p: Promise, loaded: Loaded)
    requires Keeps(d, p) && Lookup(d.files, Key) == Some(loaded.key)
    ensures p.Kept? ==> loaded.key == KeyPem(p.pledge.key)
  {
    hide Keeps, Seals;
    if p.Kept? { HeldNow(d, p.pledge); }
  }

  /** Writes the finalized manifest when it is not there yet; afterwards the stage vouches for itself. */
  method Finalize(fs: Filesystem, loaded: Loaded) returns (ok: bool, ghost m: Manifest)
    requires fs.Valid() && fs.disk.place == AtStage && fs.disk.shadow == map[] && Owned(loaded, fs.promise, fs.owner)
    requires Load(fs.disk.files, fs.bad, loaded.manifest.agent, loaded.manifest.token) == Some(loaded)
    modifies fs
    ensures fs.Valid() && fs.Continues() && (fs.Faultless() ==> ok)
    ensures fs.disk.place == AtStage && fs.disk.places == old(fs.disk.places)
            && SameBut(old(fs.disk.files), fs.disk.files, CommitDoc)
    ensures m == loaded.manifest.(phase := Finalized)
    ensures ok ==> && fs.disk.shadow == map[] && Vouched(fs.disk.files, m)
                   && Lookup(fs.disk.files, Key) == Some(loaded.key)
                   && fs.disk.files.Keys <= old(fs.disk.files.Keys) + {CommitDoc}
  {
    hide Keeps, Recorded, Requested, Settled, Guarded, Possible, Load, Vouches, Belongs;
    LoadedVouches(fs.disk.files, fs.bad, loaded.manifest.agent, loaded.manifest.token, loaded);
    ok, m := true, loaded.manifest.(phase := Finalized);
    if loaded.manifest.phase == Completed {
      StageIsGuarded(fs.disk, fs.promise);
      ghost var files := fs.disk.files;
      ok := WriteResumable(fs, CommitDoc, Document(loaded.manifest.(phase := Finalized)),
                           StageGuard(fs.disk, fs.promise));
      if !ok { return; }
      assert Lookup(fs.disk.files, Key) == Lookup(files, Key) && Lookup(fs.disk.files, Cert) == Lookup(files, Cert)
          && Lookup(fs.disk.files, Ca) == Lookup(files, Ca);
    }
  }

  /** Removes the transitional files of a finalized stage and settles what is left. */
  method DropTransitional(fs: Filesystem, ghost m: Manifest, ghost g: Guard) returns (ok: bool)
    requires fs.Valid() && Guarded(fs.disk, fs.promise, g) && g != Request && Vouched(fs.disk.files, m)
    modifies fs
    ensures fs.Valid() && fs.Continues() && Guarded(fs.disk, fs.promise, g) && (fs.Faultless() ==> ok)
    ensures Vouched(fs.disk.files, m) && Lookup(fs.disk.files, Key) == old(Lookup(fs.disk.files, Key))
    ensures ok ==> fs.disk.shadow == map[] && fs.disk.files == old(fs.disk.files) - {Csr, PreparedDoc, CompleteDoc}
  {
    hide Keeps, Recorded, Requested, Settled, Guarded, Possible, Vouches, Belongs, Vouched;
    ghost var files := fs.disk.files;
    TransitionalGone(files, m);
    ok := fs.Remove(Csr, g, Working);
    if !ok { return; }
    ok := fs.Remove(PreparedDoc, g, Working);
    if !ok { return; }
    ok := fs.Remove(CompleteDoc, g, Working);
    if !ok { return; }
    ok := fs.SyncStage(g, Working);
  }

  lemma TransitionalGone(files: Files, m: Manifest)
    requires Vouched(files, m)
    ensures var files1, files2, files3 := files - {Csr}, files - {Csr} - {PreparedDoc},
            files - {Csr} - {PreparedDoc} - {CompleteDoc};
            && Vouched(files1, m) && Vouched(files2, m) && Vouched(files3, m)
            && Lookup(files1, Key) == Lookup(files2, Key) == Lookup(files3, Key) == Lookup(files, Key)
            && files3 == files - {Csr, PreparedDoc, CompleteDoc}
  {
    hide Vouches;
  }

  lemma SealGuards(d: Disk, p: Promise, m: Manifest)
    requires Keeps(d, p) && d.place == AtStage && d.shadow == map[] && Vouched(d.files, m)
    requires p.Kept? ==>
               m.agent == p.pledge.agent && m.token == p.pledge.token
               && Lookup(d.files, Key) == Some(KeyPem(p.pledge.key))
    ensures Guarded(d, p, if p.Kept? then Seal else Free)
  {
    hide Published, Paired, Sealed, Repeatable;
    if p.Kept? { VouchedIsSealed(d, m, p.pledge); }
  }

  lemma SealGuarded(d: Disk, p: Promise, g: Guard)
    requires Guarded(d, p, g) && g != Request
    ensures d.place == AtStage && (p.Kept? ==> Sealed(d, p.pledge))
  {
    hide Sealed, Repeatable;
  }

  /** Of known files only the four remain. */
  lemma FourRemain(files: Files, files': Files, m: Manifest)
    requires files'.Keys <= files.Keys + {CommitDoc} && Vouched(files', m) && forall n :: n in files ==> KnownName(n)
    ensures (files' - {Csr, PreparedDoc, CompleteDoc}).Keys == {Key, Cert, Ca, CommitDoc}
  {
    assert forall n :: n in files' ==> n in files.Keys + {CommitDoc};
  }

  /** Finalizes a checked stage, reduces it to the four files and renames it. */
  method MoveFinalized(fs: Filesystem, loaded: Loaded) returns (ok: bool)
    requires fs.Valid() && fs.disk.place == AtStage && fs.disk.shadow == map[] && Owned(loaded, fs.promise, fs.owner)
    requires Load(fs.disk.files, fs.bad, loaded.manifest.agent, loaded.manifest.token) == Some(loaded)
    requires forall n :: n in fs.disk.files ==> KnownName(n)
    modifies fs
    ensures fs.Valid() && fs.Continues() && (ok ==> fs.disk.place == AtOutput) && (fs.Faultless() ==> ok)
    ensures ok ==> Lookup(fs.disk.files, CommitDoc) == Some(Document(loaded.manifest.(phase := Finalized)))
  {
    hide Keeps, Recorded, Requested, Settled, Guarded, Sealed, Possible, Load, Published, Vouched, Belongs, SameBut;
    ghost var m;
    ghost var files := fs.disk.files;
    ok, m := Finalize(fs, loaded);
    if !ok { return; }
    ghost var finalized := fs.disk.files;
    ghost var g := if fs.promise.Kept? then Seal else Free;
    SealGuards(fs.disk, fs.promise, m);
    ok := DropTransitional(fs, m, g);
    if !ok { return; }
    if fs.Faultless() { FourRemain(files, finalized, m); }
    if fs.disk.files.Keys != {Key, Cert, Ca, CommitDoc} { return false; }
    VouchedIsPublished(fs.disk.files, m);
    SealGuarded(fs.disk, fs.promise, g);
    VouchedIs(fs.disk.files, m);
    ok := fs.Publish();
  }

  // ---- Publishing ----------------------------------------------------------------------------

  /** What a faultless publish accepts. */
  ghost predicate CanPublish(files: Files, m: Manifest, published: bool, serverCa: Content) {
    && (m.phase == Completed || m.phase == Finalized)
    && (if published
        then var loaded := LoadOutput(files, {}, m.agent, m.token);
             loaded.Some? && loaded.value.manifest.ca == Some(Digest(serverCa))
        else Publishable(files, m.agent, m.token, serverCa))
  }

  lemma WedgeStaysNamed(files: Files, files': Files, agent: string, token: nat)
    ensures Wedged(files, agent, token) ==> Superseded(files, {}) == {} && Load(files, {}, agent, token).None?
    ensures Wedged(files, agent, token) && SameNamed(files, files') ==> Wedged(files', agent, token)
  {
    hide Wedged, Load;
    if Wedged(files, agent, token) {
      WedgedIsBlocked(files, agent, token);
      WedgeSupersedesNothing(files, agent, token);
      if SameNamed(files, files') { WedgeStays(files, files', agent, token); }
    }
  }

  lemma WedgeSupersedesNothing(files: Files, agent: string, token: nat)
    requires Wedged(files, agent, token)
    ensures Superseded(files, {}) == {}
  {
  }

  lemma OutputIsWhole(d: Disk, p: Promise)
    requires Keeps(d, p) && d.place == AtOutput
    ensures Published(d.files)
    ensures p.Kept? ==> Lookup(d.files, Key) == Some(KeyPem(p.pledge.key))
  {
    hide Published, Paired, Holds;
    if p.Kept? { HeldNow(d, p.pledge); }
  }

  /** Checks, finalizes and renames the staging directory. */
  method PublishStage(fs: Filesystem, agent: string, token: nat, serverCa: Content, trusted: bool)
    returns (loaded: Option<Loaded>)
    requires fs.Valid() && fs.disk.place == AtStage && fs.disk.shadow == map[] && fs.owner == (agent, token)
    modifies fs
    ensures fs.Valid() && fs.Proceeds()
    ensures fs.promise == if old(GivenUp(fs.disk, fs.promise, fs.bad)) then Own else old(fs.promise)
    ensures loaded.Some? ==>
              && fs.disk.place == AtOutput && !old(GivenUp(fs.disk, fs.promise, fs.bad))
              && loaded == Load(old(fs.disk.files), fs.bad, agent, token)
              && Lookup(fs.disk.files, CommitDoc) == Some(Document(loaded.value.manifest.(phase := Finalized)))
              && trusted && loaded.value.manifest.ca == Some(Digest(serverCa))
              && (loaded.value.manifest.agent, loaded.value.manifest.token) == (agent, token)
    ensures fs.Faultless() && fs.bad == {} && Tidy(old(fs.disk.files)) ==>
              (loaded.Some? <==> trusted && Publishable(old(fs.disk.files), agent, token, serverCa))
    ensures Wedged(old(fs.disk.files), agent, token) && fs.bad == {} ==>
              loaded.None? && fs.disk.place == AtStage && Wedged(fs.disk.files, agent, token)
  {
    hide Keeps, Recorded, Requested, Load, GivenUp, Belongs, Publishable, Wedged, Superseded, SameNamed, Tidy;
    ghost var files := fs.disk.files;
    GivenUpIsLost(fs.disk, fs.promise, fs.bad, agent, token);
    loaded := CheckStage(fs, agent, token, serverCa, trusted);
    WedgeStaysNamed(files, fs.disk.files, agent, token);
    if loaded.None? { return; }
    var ok := MoveFinalized(fs, loaded.value);
    if !ok { return None; }
  }

  method PublishGeneration(fs: Filesystem, gen: EnrollmentGeneration, serverCa: Content, trusted: bool)
    returns (ok: bool)
    requires fs.Valid() && fs.owner == (gen.manifest.agent, gen.manifest.token)
    requires if gen.published then fs.disk.place == AtOutput else fs.disk.place == AtStage && fs.disk.shadow == map[]
    modifies fs, gen
    ensures fs.Valid() && fs.Proceeds()
    ensures fs.promise != old(fs.promise) ==>
              old(!gen.published && GivenUp(fs.disk, fs.promise, fs.bad)) && fs.promise == Own
    ensures ok ==> gen.published && Settled(fs.disk) && Published(fs.disk.files) && fs.promise == old(fs.promise)
    ensures ok && fs.promise.Kept? ==> Lookup(fs.disk.files, Key) == Some(KeyPem(fs.promise.pledge.key))
    ensures ok ==> trusted && Lookup(fs.disk.files, Ca) == Some(serverCa)
    ensures old(gen.published) ==> fs.disk.files == old(fs.disk.files)
    ensures ok && !old(gen.published) ==>
              var loaded := Load(old(fs.disk.files), fs.bad, fs.owner.0, fs.owner.1);
              loaded.Some? && Lookup(fs.disk.files, CommitDoc) ==
                Some(Document(loaded.value.manifest.(phase := Finalized)))
    // Progress:
    ensures fs.Faultless() && fs.bad == {} && Tidy(old(fs.disk.files)) ==>
              (ok <==> trusted && old(CanPublish(fs.disk.files, gen.manifest, gen.published, serverCa)))
    ensures !old(gen.published) && Wedged(old(fs.disk.files), fs.owner.0, fs.owner.1) && fs.bad == {} ==>
              !ok && fs.disk.place == AtStage && Wedged(fs.disk.files, fs.owner.0, fs.owner.1)
  {
    hide Keeps, Recorded, Requested, Load, LoadOutput, Published, LosesKey, Belongs, Publishable, Wedged, Tidy;
    ok := false;
    var agent, token := gen.manifest.agent, gen.manifest.token;
    if gen.manifest.phase != Completed && gen.manifest.phase != Finalized { return; }
    if gen.published {
      var loaded := LoadOutput(fs.disk.files, fs.bad, agent, token);
      if loaded.None? || !trusted || loaded.value.manifest.ca != Some(Digest(serverCa)) { return; }
      OutputLoadsExactlyWhen(fs.disk.files, fs.bad, agent, token);
      gen.manifest, gen.key, gen.cert, gen.ca := loaded.value.manifest, loaded.value.key, loaded.value.cert,
        loaded.value.ca;
    } else {
      var loaded := PublishStage(fs, agent, token, serverCa, trusted);
      if loaded.None? { return; }
      gen.manifest := loaded.value.manifest.(phase := Finalized);
      gen.published := true;
    }
    ok := fs.SyncOutputParent();
    OutputIsWhole(fs.disk, fs.promise);
    PublishedCommit(fs.disk.files);
    PublishedCa(fs.disk.files, serverCa);
  }

  lemma PublishedCa(files: Files, ca: Content)
    requires Published(files) && files[CommitDoc].manifest.ca == Some(Digest(ca))
    ensures Lookup(files, Ca) == Some(ca)
  {
  }

  lemma PublishedCommit(files: Files)
    requires Published(files)
    ensures CommitDoc in files && files[CommitDoc].Document?
  {
  }
}
