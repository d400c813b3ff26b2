/** Runs that show where the enrolment falls short: a key that is replaced although its request had been sent, and a
    staging directory that no later run of another token gets past (backend/cmd/agent/enrollment_generation.go). */
module EnrollmentWitnesses {
  import opened Wrappers
  import opened Enrollment
  import opened EnrollmentResume
  import opened EnrollmentProgress
  import opened EnrollmentFiles
  import opened EnrollmentPreparing
  import opened EnrollmentPublishing
  import opened EnrollmentRuns

  const NOTHING := Disk(map[], map[], Nowhere, {Nowhere})

  /** Circumstances without failures; the server answers or does not. */
  function Calm(bad: set<Name>, newKey: nat, answered: bool, response: Response, serverCa: Content): Circumstances {
    Circumstances(bad, (part: Part, i: nat) => false, newKey, 0, answered, response, serverCa, true)
  }

  lemma NothingIsOwn()
    ensures Keeps(NOTHING, Own)
  {
    assert Possible(NOTHING, Key) <= {None, Some(KeyPem(0))} && Possible(NOTHING, Csr) <= {None, Some(CsrPem(0, 0))};
  }

  // ---- A key that is replaced ----------------------------------------------------------------

  /** A signing request that waits for its answer is lost with its key once it cannot be read. */
  lemma UnreadableRequestLosesKey(files: Files, m: Manifest, agent: string, token: nat, p: Pledge)
    requires Freshly(files, m, agent, token)
    ensures LosesKey(files, {Csr}, p) && Tidy(files)
  {
  }

  /** Two runs, neither with a failing operation.  The first sends its request and gets no answer.  The second cannot
      read the signing request, discards the readable key, and sends a request with another one. */
  method TwoKeys(agent: string, token: nat, response: Response, serverCa: Content)
    returns (first: Option<Content>, second: Option<Content>)
    ensures first == Some(KeyPem(1)) && second == Some(KeyPem(2))
  {
    hide Keeps, Recorded, Freshly, Published, LosesKey, Tidy;
    NothingIsOwn();
    var c := Calm({}, 1, false, response, serverCa);
    var fs := new Filesystem(NOTHING, c.fails, c.bad, (agent, token), Own);
    var ok;
    ok, first := Enroll(fs, agent, token, c);
    ghost var m :| Freshly(fs.disk.files, m, agent, token);
    UnreadableRequestLosesKey(fs.disk.files, m, agent, token, fs.promise.pledge);
    c := Calm({Csr}, 2, false, response, serverCa);
    fs := new Filesystem(fs.disk, c.fails, c.bad, (agent, token), fs.promise);
    ok, second := Enroll(fs, agent, token, c);
  }

  /** Key and signing request alone, settled: what a run leaves that stops between removing a prepared manifest it could
      not read and writing it again. */
  function Bare(key: nat): Disk {
    Disk(map[Key := KeyPem(key), Csr := CsrPem(key, 0)], map[], AtStage, {AtStage})
  }

  lemma BareIsKept(agent: string, token: nat, key: nat)
    ensures Keeps(Bare(key), Kept(Pledge(agent, token, key)))
    ensures !LosesKey(Bare(key).files, {}, Pledge(agent, token, key)) && Load(Bare(key).files, {}, agent, token).None?
  {
    var d := Bare(key);
    assert Possible(d, Key) <= {None, Some(KeyPem(key))} && Possible(d, Csr) <= {None, Some(CsrPem(key, 0))};
    assert Certain(d, Csr, CsrPem(key, 0));
  }

  /** Everything can be read, but the prepared manifest cannot be written again: the pledged key is given up. */
  method FailedRewriteLosesKey(agent: string, token: nat, key: nat)
    returns (loaded: Option<Loaded>, ghost promise: Promise)
    ensures loaded.None? && promise == Own && !LosesKey(Bare(key).files, {}, Pledge(agent, token, key))
  {
    hide Keeps, Recorded, LosesKey, Load;
    BareIsKept(agent, token, key);
    var fs := new Filesystem(Bare(key), (part: Part, i: nat) => part == Resuming, {}, (agent, token),
                             Kept(Pledge(agent, token, key)));
    loaded := ResumeOrGiveUp(fs, agent, token);
    promise := fs.promise;
  }

  // ---- A staging directory in the way --------------------------------------------------------

  /** A new generation that was completed loads as completed and can be published. */
  lemma FreshCompletes(files: Files, files': Files, m: Manifest, agent: string, token: nat, response: Response,
                       serverCa: Content)
    requires Freshly(files, m, agent, token)
    requires Completes(files, files', CompletedManifest(m, response, serverCa), response.cert, serverCa)
    ensures Tidy(files) && Publishable(files', agent, token, serverCa)
    ensures Load(files', {}, agent, token).Some? && Load(files', {}, agent, token).value.manifest.phase == Completed
  {
    CompletedPublishes(files, files', m, agent, token, response, serverCa);
    assert Lookup(files', CommitDoc) == Lookup(files, CommitDoc);
  }

  /** With the finalized manifest written and the signing request still there. */
  lemma FinalizedWedges(files: Files, files': Files, loaded: Loaded, agent: string, token: nat, m: Manifest,
                        serverCa: Content)
    requires Load(files, {}, agent, token) == Some(loaded) && loaded.manifest.phase == Completed
             && Consistent(loaded, serverCa)
    requires SameBut(files, files', CommitDoc) && Vouched(files', m) && m == loaded.manifest.(phase := Finalized)
    requires Lookup(files', Key) == Some(loaded.key) && forall n :: n in files ==> KnownName(n)
    ensures forall other :: other != token ==> Wedged(files', agent, other)
    ensures Tidy(files') && Load(files', {}, agent, token).Some?
            && Consistent(Load(files', {}, agent, token).value, serverCa)
  {
    assert Lookup(files', Csr) == Lookup(files, Csr) && Lookup(files', Cert) == Lookup(files, Cert)
      && Lookup(files', Ca) == Lookup(files, Ca);
    assert forall n: Name :: n.Stray? ==> Lookup(files', n) == Lookup(files, n);
    assert Commit(files') == Some(m);
  }

  /** A favourable run without failures for one token, stopped between writing the finalized manifest and removing the
      signing request.  What is left is in the way of every other token, and not of its own. */
  method StopBeforeCleanup(agent: string, token: nat, response: Response, serverCa: Content) returns (disk: Disk)
    requires response.agent == agent && response.trusted && response.consistent
    ensures Whole(disk) && disk.place == AtStage && Tidy(disk.files)
    ensures forall other :: other != token ==> Wedged(disk.files, agent, other)
    ensures Enrolls(disk, agent, token, response, serverCa)
  {
    hide Keeps, Recorded, Load, Completes, PreparedFor, Freshly, Publishable, Blocked, Prepares, Tidy, Wedged, Vouched;
    NothingIsOwn();
    var c := Calm({}, 1, true, response, serverCa);
    var fs := new Filesystem(NOTHING, c.fails, c.bad, (agent, token), Own);
    var gen := Prepare(fs, agent, token, c.newKey, c.serial);
    ghost var files, m := fs.disk.files, gen.manifest;
    FreshlyPrepared(NOTHING, fs.disk, fs.promise, agent, token, gen.key, m);
    var ok := CompleteGeneration(fs, gen, response, Some(serverCa));
    FreshCompletes(files, fs.disk.files, m, agent, token, response, serverCa);
    CompletedIsTidy(files, fs.disk.files, gen.manifest, response.cert, serverCa);
    var loaded := CheckStage(fs, agent, token, serverCa, true);
    ghost var checked := fs.disk.files;
    ghost var final;
    ok, final := Finalize(fs, loaded.value);
    disk := fs.disk;
    FinalizedWedges(checked, disk.files, loaded.value, agent, token, final, serverCa);
    KeepsIsWhole(disk, fs.promise);
  }

  lemma KeepsIsWhole(d: Disk, p: Promise)
    requires Keeps(d, p)
    ensures Whole(d)
  {
    hide Whole, Paired, Holds;
  }

  /** Any number of later runs without failures for a token whose way is blocked: none goes through, and the way stays
      blocked. */
  method NoRunGetsPast(found: Disk, agent: string, token: nat, runs: seq<Circumstances>)
    returns (disk: Disk, ended: seq<bool>)
    requires Whole(found) && found.place == AtStage && Wedged(found.files, agent, token)
    requires forall r :: 0 <= r < |runs| ==> runs[r].bad == {} && forall part, i :: !runs[r].fails(part, i)
    ensures |ended| == |runs| && (forall r :: 0 <= r < |ended| ==> !ended[r])
    ensures Whole(disk) && disk.place == AtStage && Wedged(disk.files, agent, token)
  {
    hide Whole, Wedged, Keeps, Recorded, Enrolls, Published;
    disk, ended := found, [];
    for r := 0 to |runs|
      invariant |ended| == r && forall j :: 0 <= j < |ended| ==> !ended[j]
      invariant Whole(disk) && disk.place == AtStage && Wedged(disk.files, agent, token)
    {
      WholeIsKept(disk);
      var fs := new Filesystem(disk, runs[r].fails, runs[r].bad, (agent, token), Anything);
      var ok, _ := Enroll(fs, agent, token, runs[r]);
      disk, ended := fs.disk, ended + [ok];
      KeepsIsWhole(disk, fs.promise);
    }
  }

  /** From nothing: one favourable run for a token, stopped at that point, and after it no run for another token ever
      goes through. */
  method AnotherTokenNeverEnrolls(agent: string, token: nat, other: nat, response: Response, serverCa: Content,
                                  runs: seq<Circumstances>)
    returns (ended: seq<bool>)
    requires response.agent == agent && response.trusted && response.consistent && other != token
    requires forall r :: 0 <= r < |runs| ==> runs[r].bad == {} && forall part, i :: !runs[r].fails(part, i)
    ensures |ended| == |runs| && forall r :: 0 <= r < |ended| ==> !ended[r]
  {
    hide Whole, Wedged, Enrolls, Tidy;
    var disk := StopBeforeCleanup(agent, token, response, serverCa);
    disk, ended := NoRunGetsPast(disk, agent, other, runs);
  }

  lemma WholeIsKept(d: Disk)
    requires Whole(d)
    ensures Keeps(d, Anything)
  {
    hide Whole;
  }
}
