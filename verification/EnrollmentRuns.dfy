/** Whole runs of the enrolment command, and any number of them with crashes in between
    (backend/cmd/agent/enroll.go, backend/cmd/agent/enrollment_generation.go). */
module EnrollmentRuns {
  import opened Wrappers
  import opened Enrollment
  import opened EnrollmentResume
  import opened EnrollmentProgress
  import opened EnrollmentFiles
  import opened EnrollmentPreparing
  import opened EnrollmentPublishing

  /** What a run meets that is not on the disk, which of its file operations fail, and what it cannot read. */
  datatype Circumstances = Circumstances(
    bad: set<Name>, fails: (Part, nat) -> bool, newKey: nat, serial: nat,
    answered: bool, response: Response, serverCa: Content, trusted: bool)

  /** The server answers, for this agent and with a certificate that is accepted. */
  predicate Favourable(c: Circumstances, agent: string) {
    c.answered && c.response.agent == agent && c.response.trusted && c.response.consistent && c.trusted
  }

  ghost function PledgeOf(agent: string, token: nat, key: Content): Pledge {
    Pledge(agent, token, if key.KeyPem? then key.key else 0)
  }

  lemma SafeCanBeKept(d: Disk, p: Promise, agent: string, token: nat, key: Content, phase: Phase)
    requires Keeps(d, p) && Safe(d, p, agent, token, key, phase)
    ensures d.place == AtStage && d.shadow == map[]
    ensures p == Own ==> Keeps(d, Kept(PledgeOf(agent, token, key))) && key == KeyPem(PledgeOf(agent, token, key).key)
    ensures p != Anything && phase != Finalized ==> Csr in d.files
  {
    hide Repeatable, Sealed, Published, Paired;
    if p != Anything && phase != Finalized { RequestIsThere(d, PledgeOf(agent, token, key)); }
    if p == Own && phase == Finalized && Csr in d.files { SealedRequestRepeats(d, PledgeOf(agent, token, key)); }
  }

  lemma ReadableIsNotGivenUp(d: Disk, p: Promise)
    requires Keeps(d, p)
    ensures !GivenUp(d, p, {})
  {
    hide Keeps, Seals;
    if p.Kept? { HeldNow(d, p.pledge); }
  }

  lemma SealedRequestRepeats(d: Disk, p: Pledge)
    requires Paired(d) && Sealed(d, p) && d.shadow == map[] && Csr in d.files
    ensures Repeatable(d, p)
  {
    hide Paired, Certain, Repeatable;
    SettledRequestRepeats(d, p);
  }

  // ---- When a run goes through ---------------------------------------------------------------

  lemma CompletedIsTidy(files: Files, files': Files, m: Manifest, cert: Content, ca: Content)
    requires Completes(files, files', m, cert, ca) && Tidy(files)
    ensures Tidy(files')
  {
    assert forall n: Name :: n.Stray? ==> Lookup(files', n) == Lookup(files, n);
  }

  /** What prepare leaves behind decides whether the run goes through, and it is what was there before that decides. */
  lemma PreparedDecides(d: Disk, files': Files, agent: string, token: nat, m: Manifest, response: Response,
                        serverCa: Content)
    requires Prepares(d, files', agent, token, m) && d.place != AtOutput
    ensures m.phase != Unknown
    ensures m.phase == Ready ==>
              && PreparedFor(files', m, agent, token)
              && (Enrolls(d, agent, token, response, serverCa) <==>
                    !Blocked(files', agent, token, response.cert, serverCa))
    ensures m.phase != Ready ==>
              (Enrolls(d, agent, token, response, serverCa) <==> Publishable(files', agent, token, serverCa))
  {
    hide Recover, Consistent, Matches, Pair;
    LoadedPhase(d.files, {}, agent, token);
    if d.place == AtStage && Resume(d.files, {}, agent, token).Some? && m.phase == Ready {
      if Load(d.files, {}, agent, token).Some? { ReadyIsNotBlocked(d.files, agent, token); }
      else if Commit(d.files).Some? { assert Lookup(files', Key) == Lookup(d.files, Key); }
    }
  }

  lemma ReadyIsNotBlocked(files: Files, agent: string, token: nat)
    requires Load(files, {}, agent, token).Some? && Load(files, {}, agent, token).value.manifest.phase == Ready
    ensures Commit(files).None?
  {
  }

  lemma WedgedPrepared(d: Disk, files': Files, agent: string, token: nat, m: Manifest)
    requires d.place == AtStage && Wedged(d.files, agent, token) && Prepares(d, files', agent, token, m)
    ensures m.phase == Ready && Wedged(files', agent, token)
  {
    hide Load, Recover, Wedged;
    WedgedResumes(d.files, agent, token);
    WedgeStays(d.files, files', agent, token);
  }

  lemma WedgedResumes(files: Files, agent: string, token: nat)
    requires Wedged(files, agent, token)
    ensures Load(files, {}, agent, token).None? && Resume(files, {}, agent, token).Some? && Commit(files).Some?
  {
    hide Load, Recover;
    WedgedIsBlocked(files, agent, token);
  }

  lemma WedgedAnswered(files: Files, files': Files, agent: string, token: nat)
    requires Wedged(files, agent, token) && SameButAnswer(files, files')
    ensures Wedged(files', agent, token)
  {
    hide Wedged;
    WedgeStays(files, files', agent, token);
  }

  /** Sends the request for a generation that is not completed yet, and completes it with the answer. */
  method RequestCertificate(fs: Filesystem, gen: EnrollmentGeneration, c: Circumstances) returns (ok: bool)
    requires fs.Valid() && !gen.published && gen.manifest.phase != Completed && fs.disk.place == AtStage
             && fs.disk.shadow == map[]
    requires Carries(fs.promise, gen.key) && (fs.promise.Kept? ==> Csr in fs.disk.files)
    modifies fs, gen
    ensures fs.Valid() && fs.promise == old(fs.promise) && fs.misused == old(fs.misused) && fs.clock >= old(fs.clock)
    ensures fs.requests == old(fs.requests)[|old(fs.trail)| - 1 := gen.key]
    ensures fs.disk.place == AtStage && SameButAnswer(old(fs.disk.files), fs.disk.files)
    ensures gen.published == old(gen.published) && gen.key == old(gen.key)
    ensures gen.manifest.agent == old(gen.manifest.agent) && gen.manifest.token == old(gen.manifest.token)
    ensures ok ==>
              && fs.disk.shadow == map[] && gen.manifest == CompletedManifest(old(gen.manifest), c.response, c.serverCa)
              && Completes(old(fs.disk.files), fs.disk.files, gen.manifest, c.response.cert, c.serverCa)
    ensures fs.Faultless() && old(gen.manifest.phase) == Ready && Favourable(c, old(gen.manifest.agent)) ==> ok
    ensures !c.answered ==> !ok && fs.disk == old(fs.disk)
  {
    hide Keeps, Recorded, Belongs, Carries, Requested, Completes;
    ok := false;
    fs.Send(gen.key);
    if !c.answered { return; }
    ok := CompleteGeneration(fs, gen, c.response, Some(c.serverCa));
  }

  /** Whether a prepared staging directory can be published, once its generation is completed. */
  ghost predicate WillPublish(files: Files, m: Manifest, response: Response, serverCa: Content) {
    && (m.phase == Ready ==> !Blocked(files, m.agent, m.token, response.cert, serverCa))
    && (m.phase != Ready ==> Publishable(files, m.agent, m.token, serverCa))
  }

  ghost predicate Loadable(files: Files, m: Manifest) {
    m.phase != Unknown && (m.phase == Ready ==> PreparedFor(files, m, m.agent, m.token))
  }

  /** The request, its answer and the publication: what is published is what the server answered. */
  method RequestAndPublish(fs: Filesystem, gen: EnrollmentGeneration, c: Circumstances) returns (ok: bool)
    requires fs.Valid() && !gen.published && fs.owner == (gen.manifest.agent, gen.manifest.token)
    requires gen.manifest.phase != Completed && fs.disk.place == AtStage && fs.disk.shadow == map[]
    requires Carries(fs.promise, gen.key) && (fs.promise.Kept? ==> Csr in fs.disk.files)
    modifies fs, gen
    ensures fs.Valid() && fs.misused == old(fs.misused) && fs.clock >= old(fs.clock)
    ensures fs.requests == old(fs.requests)[|old(fs.trail)| - 1 := old(gen.key)]
    ensures fs.bad == {} || ok ==> fs.promise == old(fs.promise)
    ensures !c.answered ==> !ok && fs.disk == old(fs.disk)
    ensures ok ==> Settled(fs.disk) && Published(fs.disk.files)
    ensures ok && fs.promise.Kept? ==> Lookup(fs.disk.files, Key) == Some(KeyPem(fs.promise.pledge.key))
    ensures ok ==> c.trusted && Lookup(fs.disk.files, Ca) == Some(c.serverCa)
    ensures ok && fs.bad == {} && old(Commit(fs.disk.files)).None? ==>
              AnswerPublished(fs.disk.files, fs.owner.0, fs.owner.1, c.response, c.serverCa)
    ensures fs.Faultless() && fs.bad == {} && Favourable(c, fs.owner.0) && old(Tidy(fs.disk.files))
            && PreparedFor(old(fs.disk.files), old(gen.manifest), fs.owner.0, fs.owner.1) ==>
              (ok <==> !Blocked(old(fs.disk.files), fs.owner.0, fs.owner.1, c.response.cert, c.serverCa))
    ensures fs.bad == {} && Wedged(old(fs.disk.files), fs.owner.0, fs.owner.1) ==>
              !ok && fs.disk.place == AtStage && Wedged(fs.disk.files, fs.owner.0, fs.owner.1)
  {
    hide Keeps, Recorded, Requested, Published, LosesKey, Wedged, LoadOutput, Load, Completes, SameButAnswer,
      Publishable, Blocked, PreparedFor, Tidy, Acceptable, Settled, GivenUp, AnswerPublished, Commit, Carries;
    ghost var files, m := fs.disk.files, gen.manifest;
    if PreparedFor(files, m, m.agent, m.token) { PreparedIsReady(files, m); }
    ok := RequestCertificate(fs, gen, c);
    if Wedged(files, m.agent, m.token) { WedgedAnswered(files, fs.disk.files, m.agent, m.token); }
    if !ok { return; }
    if PreparedFor(files, m, m.agent, m.token) {
      CompletedPublishes(files, fs.disk.files, m, m.agent, m.token, c.response, c.serverCa);
    }
    if Tidy(files) { CompletedIsTidy(files, fs.disk.files, gen.manifest, c.response.cert, c.serverCa); }
    if Commit(files).None? {
      CompletedLoads(files, fs.disk.files, gen.manifest, m.agent, m.token, c.response.cert, c.serverCa);
    }
    ReadableIsNotGivenUp(fs.disk, fs.promise);
    ok := PublishGeneration(fs, gen, c.serverCa, c.trusted);
    if ok && fs.bad == {} && Commit(files).None? { AnswerIsPublished(fs.disk.files, m, c.response, c.serverCa); }
  }

  lemma PreparedIsReady(files: Files, m: Manifest)
    requires PreparedFor(files, m, m.agent, m.token)
    ensures m.phase == Ready
  {
  }

  /** The rest of a run that has prepared a staging directory: the key is pledged, the request sent if that is still to
      be done, and the generation published. */
  method EnrollStage(fs: Filesystem, gen: EnrollmentGeneration, c: Circumstances)
    returns (ok: bool, request: Option<Content>)
    requires fs.Valid() && fs.owner == (gen.manifest.agent, gen.manifest.token) && fs.requests == map[]
             && !gen.published
    requires Safe(fs.disk, fs.promise, gen.manifest.agent, gen.manifest.token, gen.key, gen.manifest.phase)
    requires fs.promise.Kept? ==> gen.key == KeyPem(fs.promise.pledge.key)
    modifies fs, gen
    ensures fs.Valid() && fs.misused == old(fs.misused) && fs.clock >= old(fs.clock)
    ensures request.None? ==> fs.requests == map[]
    ensures request.Some? ==> request == Some(old(gen.key)) && exists sent :: fs.requests == map[sent := request.value]
    ensures ok ==> Settled(fs.disk) && Published(fs.disk.files)
    ensures old(gen.manifest.phase) == Ready ==> request.Some? && (!c.answered ==> fs.disk == old(fs.disk))
    ensures request.Some? && old(fs.promise) != Anything && fs.bad == {} ==>
              fs.promise == Kept(PledgeOf(fs.owner.0, fs.owner.1, request.value))
    ensures ok && fs.promise.Kept? ==> Lookup(fs.disk.files, Key) == Some(KeyPem(fs.promise.pledge.key))
    ensures ok && request.Some? && old(fs.promise) != Anything ==> Lookup(fs.disk.files, Key) == request
    ensures ok ==> c.trusted && Lookup(fs.disk.files, Ca) == Some(c.serverCa)
    ensures ok && fs.bad == {} && request.Some? && old(Commit(fs.disk.files)).None? ==>
              AnswerPublished(fs.disk.files, fs.owner.0, fs.owner.1, c.response, c.serverCa)
    ensures fs.Faultless() && fs.bad == {} && Favourable(c, fs.owner.0)
            && old(Tidy(fs.disk.files) && Loadable(fs.disk.files, gen.manifest)) ==>
              (ok <==> WillPublish(old(fs.disk.files), old(gen.manifest), c.response, c.serverCa))
    ensures fs.bad == {} && old(gen.manifest.phase) == Ready && Wedged(old(fs.disk.files), fs.owner.0, fs.owner.1) ==>
              !ok && fs.disk.place == AtStage && Wedged(fs.disk.files, fs.owner.0, fs.owner.1)
  {
    hide Keeps, Recorded, Requested, Published, LosesKey, Wedged, Safe, LoadOutput, Load, Publishable, Blocked,
      PreparedFor, Tidy, Settled, GivenUp, AnswerPublished, Commit;
    ok, request := false, None;
    ghost var m := gen.manifest;
    SafeCanBeKept(fs.disk, fs.promise, m.agent, m.token, gen.key, m.phase);
    fs.Keep(PledgeOf(m.agent, m.token, gen.key));
    if gen.manifest.phase != Completed && gen.manifest.phase != Finalized {
      request := Some(gen.key);
      ok := RequestAndPublish(fs, gen, c);
      return;
    }
    ok := PublishGeneration(fs, gen, c.serverCa, c.trusted);
  }

  /** One run of the enrolment command.  `request` is the key of the signing request the server was sent. */
  method Enroll(fs: Filesystem, agent: string, token: nat, c: Circumstances)
    returns (ok: bool, request: Option<Content>)
    requires fs.Valid() && fs.owner == (agent, token) && fs.requests == map[]
    modifies fs
    ensures fs.Valid() && fs.misused == old(fs.misused) && fs.clock >= old(fs.clock)
    ensures request.None? ==> fs.requests == map[]
    ensures request.Some? ==> exists sent :: fs.requests == map[sent := request.value]
    ensures ok ==> Settled(fs.disk) && Published(fs.disk.files)
    ensures ok && fs.promise.Kept? ==> Lookup(fs.disk.files, Key) == Some(KeyPem(fs.promise.pledge.key))
    ensures ok && request.Some? && old(fs.promise) != Anything ==> Lookup(fs.disk.files, Key) == request
    // A pledged key is asked for again, unless it is at risk; a faultless run that loses it asks with a new one:
    ensures old(fs.promise.Kept? && !LosesKey(fs.disk.files, fs.bad, fs.promise.pledge))
            && !Hinders(fs.fails, old(fs.clock), fs.clock) && request.Some? ==>
              request == Some(KeyPem(old(fs.promise).pledge.key))
    ensures fs.Faultless()
            && old(fs.disk.place == AtStage && GivenUp(fs.disk, fs.promise, fs.bad) && Tidy(fs.disk.files)) ==>
              request == Some(KeyPem(c.newKey))
    // A faultless first run asks with a new key, and goes on waiting where it gets no answer:
    ensures fs.Faultless() && old(fs.disk.place) == Nowhere ==> request == Some(KeyPem(c.newKey))
    ensures fs.Faultless() && old(fs.disk.place) == Nowhere && !c.answered && fs.bad == {} ==>
              fs.disk.place == AtStage && exists m :: Freshly(fs.disk.files, m, agent, token)
    ensures request.Some? && old(fs.promise) != Anything && fs.bad == {} ==>
              fs.promise == Kept(PledgeOf(agent, token, request.value))
    // Whatever is published has been trusted, for the configured CA:
    ensures ok ==> c.trusted && Lookup(fs.disk.files, Ca) == Some(c.serverCa)
    // What is published is what the server answered, unless a finalized manifest was there before:
    ensures ok && fs.bad == {} && request.Some?
            && (old(fs.disk.place) == AtStage ==> Commit(old(fs.disk.files)).None?) ==>
              AnswerPublished(fs.disk.files, agent, token, c.response, c.serverCa)
    // Progress:
    ensures fs.Faultless() && fs.bad == {} && Favourable(c, agent) && Tidy(old(fs.disk.files)) ==>
              (ok <==> Enrolls(old(fs.disk), agent, token, c.response, c.serverCa))
    ensures fs.Faultless() && fs.bad == {} && old(fs.disk.place == AtStage && Wedged(fs.disk.files, agent, token)) ==>
              !ok && fs.disk.place == AtStage && Wedged(fs.disk.files, agent, token)
  {
    hide Keeps, Recorded, Requested, Published, LosesKey, Resume, Prepares, Wedged, Safe, LoadOutput, Publishable,
      Blocked, PreparedFor, AnswerPublished, Commit, Tidy, Load, Recover, Consistent, Hinders, Settled;
    ok, request := false, None;
    ghost var d, plain := fs.disk, fs.Faultless() && fs.bad == {};
    ghost var wedged := plain && d.place == AtStage && Wedged(d.files, agent, token);
    if wedged { WedgedResumes(d.files, agent, token); }
    var gen := Prepare(fs, agent, token, c.newKey, c.serial);
    if gen == null { return; }
    if gen.published {
      ok := PublishGeneration(fs, gen, c.serverCa, c.trusted);
      return;
    }
    if plain { PreparedDecides(d, fs.disk.files, agent, token, gen.manifest, c.response, c.serverCa); }
    if wedged { WedgedPrepared(d, fs.disk.files, agent, token, gen.manifest); }
    if plain && d.place == Nowhere { FreshlyPrepared(d, fs.disk, fs.promise, agent, token, gen.key, gen.manifest); }
    ghost var mid := fs.clock;
    ok, request := EnrollStage(fs, gen, c);
    HindersWidens(fs.fails, old(fs.clock), mid, fs.clock);
  }

  lemma FreshlyPrepared(d: Disk, d': Disk, p: Promise, agent: string, token: nat, key: Content, m: Manifest)
    requires d.place == Nowhere && Prepares(d, d'.files, agent, token, m) && Safe(d', p, agent, token, key, m.phase)
    ensures Freshly(d'.files, m, agent, token) && d'.place == AtStage
  {
    hide Freshly, Repeatable, Sealed;
  }

  lemma HindersWidens(fails: (Part, nat) -> bool, from: nat, mid: nat, to: nat)
    requires mid <= to
    ensures Hinders(fails, from, mid) ==> Hinders(fails, from, to)
  {
  }

  // ---- Any number of runs and crashes --------------------------------------------------------

  /** What one run of a lifetime leaves when it is cut off in any of the states it went through, the last included: the
      process is stopped and the disk stays as it is, or the machine stops and the disk becomes anything
      that crash can leave. */
  datatype Cut = Cut(at: nat, after: Disk)

  ghost predicate CanCut(trail: seq<Disk>, cut: Cut) {
    cut.at < |trail| && (cut.after == trail[cut.at] || CrashLeaves(trail[cut.at], cut.after))
  }

  lemma CutIsIn(trail: seq<Disk>, cut: Cut)
    requires CanCut(trail, cut)
    ensures cut.at < |trail|
  {
    hide CrashLeaves;
  }

  /** What is left of a disk keeps the promise, and a settled output directory stays as it is. */
  lemma CutKeeps(trail: seq<Disk>, cut: Cut, p: Promise)
    requires CanCut(trail, cut) && Keeps(trail[cut.at], p)
    ensures Keeps(cut.after, p) && (Settled(trail[cut.at]) ==> cut.after == trail[cut.at])
  {
    hide Published, Paired, Holds, CrashLeaves;
    if CrashLeaves(trail[cut.at], cut.after) {
      CrashKeeps(trail[cut.at], cut.after, p);
      CrashKeepsWhole(trail[cut.at], cut.after);
      CrashPlace(trail[cut.at], cut.after);
    }
  }

  /** A state of the disk in a lifetime, what was promised then, the run it belongs to and how many operations that run
      performed, and the key of the request that was sent then, if one was. */
  datatype Moment = Moment(disk: Disk, promise: Promise, run: nat, ops: nat, request: Option<Content>)

  /** A pledged key may be given up here: too little of the directory can be read in this run, or one of its operations
      fails in loading or recovering. */
  ghost predicate RiskAt(m: Moment, runs: seq<Circumstances>) {
    m.run < |runs| && m.promise.Kept? && AtRisk(m.disk, m.promise.pledge, runs[m.run].bad, runs[m.run].fails, m.ops)
  }

  ghost predicate Next(m: Moment, m': Moment, runs: seq<Circumstances>) {
    && (Settled(m.disk) ==> m'.disk == m.disk)
    && (m'.promise == m.promise || (m.promise == Own && m'.promise.Kept?) || (m'.promise == Own && RiskAt(m, runs)))
  }

  /** The log of a lifetime: every moment keeps its promise, every request carries the pledged key, and from one moment
      to the next a settled output directory stays and a pledge is given up only at risk. */
  ghost predicate Logged(log: seq<Moment>, runs: seq<Circumstances>) {
    && (forall i :: 0 <= i < |log| ==> Keeps(log[i].disk, log[i].promise))
    && (forall i :: 0 <= i < |log| && log[i].request.Some? ==> Carries(log[i].promise, log[i].request.value))
    && (forall i :: 0 <= i < |log| - 1 ==> Next(log[i], log[i + 1], runs))
  }

  ghost function RunLog(trail: seq<Disk>, promises: seq<Promise>, requests: map<nat, Content>, run: nat, ops: nat,
                        at: nat): seq<Moment>
    requires at < |trail| == |promises|
  {
    seq(at + 1, i requires 0 <= i < |trail| =>
          Moment(trail[i], promises[i], run, ops, if i in requests then Some(requests[i]) else None))
  }

  lemma RunIsLogged(trail: seq<Disk>, promises: seq<Promise>, requests: map<nat, Content>, owner: (string, nat),
                    runs: seq<Circumstances>, run: nat, ops: nat, at: nat)
    requires run < |runs| && Recorded(trail, promises, owner, runs[run].bad, runs[run].fails, ops, false)
             && at < |trail|
    requires Requested(requests, promises)
    ensures Logged(RunLog(trail, promises, requests, run, ops, at), runs)
  {
    hide Keeps, Settled, AtRisk, Belongs, Carries;
    var log := RunLog(trail, promises, requests, run, ops, at);
    forall i | 0 <= i < |log| - 1 ensures Next(log[i], log[i + 1], runs) {
      assert Follows(trail[i], promises[i], promises[i + 1], runs[run].bad, runs[run].fails, ops, false);
    }
  }

  lemma LogsJoin(log: seq<Moment>, more: seq<Moment>, runs: seq<Circumstances>)
    requires Logged(log, runs) && Logged(more, runs)
             && (log != [] && more != [] ==> Next(log[|log| - 1], more[0], runs))
    ensures Logged(log + more, runs)
  {
    hide Keeps, Next, Carries;
    var all := log + more;
    forall i | 0 <= i < |all| - 1 ensures Next(all[i], all[i + 1], runs) {
      if i >= |log| { assert all[i] == more[i - |log|] && all[i + 1] == more[i - |log| + 1]; }
    }
  }

  lemma {:induction false} SettledStays(log: seq<Moment>, runs: seq<Circumstances>, i: nat, j: nat)
    requires Logged(log, runs) && i <= j < |log| && Settled(log[i].disk)
    ensures log[j].disk == log[i].disk
    decreases j - i
  {
    hide Keeps;
    if i < j {
      assert Next(log[i], log[i + 1], runs);
      SettledStays(log, runs, i + 1, j);
    }
  }

  /** A pledge that is no longer there was at risk in between. */
  lemma {:induction false} PledgeIsGivenUpAtRisk(log: seq<Moment>, runs: seq<Circumstances>, a: nat, b: nat)
    requires Logged(log, runs) && a <= b < |log| && log[a].promise.Kept? && log[b].promise != log[a].promise
    ensures exists c :: a <= c < b && RiskAt(log[c], runs)
    decreases b - a
  {
    hide Keeps, RiskAt;
    assert Next(log[a], log[a + 1], runs);
    if log[a + 1].promise == log[a].promise { PledgeIsGivenUpAtRisk(log, runs, a + 1, b); }
  }

  /** Nothing is at risk where everything can be read and loading and recovering meet no failure. */
  ghost predicate Steady(c: Circumstances) {
    c.bad == {} && !exists i: nat :: c.fails(Resuming, i)
  }

  lemma {:induction false} OwnStays(log: seq<Moment>, runs: seq<Circumstances>, i: nat)
    requires Logged(log, runs) && i < |log| && log[0].promise != Anything
    ensures log[i].promise != Anything
  {
    hide Keeps, RiskAt;
    if i > 0 {
      OwnStays(log, runs, i - 1);
      assert Next(log[i - 1], log[i], runs);
    }
  }

  /** Between two requests with different keys there was a moment at which the pledged key was at risk. */
  lemma DifferentKeysMeanRisk(log: seq<Moment>, runs: seq<Circumstances>, a: nat, b: nat)
    requires Logged(log, runs) && a < b < |log| && log[0].promise != Anything
    requires log[a].request.Some? && log[b].request.Some? && log[a].request != log[b].request
    ensures exists c :: a <= c < b && RiskAt(log[c], runs)
  {
    hide Next, RiskAt, Keeps;
    OwnStays(log, runs, a);
    OwnStays(log, runs, b);
    PledgeIsGivenUpAtRisk(log, runs, a, b);
  }

  lemma SteadyIsSafe(log: seq<Moment>, runs: seq<Circumstances>, i: nat)
    requires Logged(log, runs) && i < |log| && forall r :: 0 <= r < |runs| ==> Steady(runs[r])
    ensures !RiskAt(log[i], runs)
  {
    hide Keeps;
    if log[i].promise.Kept? { HeldNow(log[i].disk, log[i].promise.pledge); }
  }

  /** In steady runs the key of any request is still held at the end. */
  lemma SteadyKeyIsHeld(log: seq<Moment>, runs: seq<Circumstances>, disk: Disk, a: nat)
    requires Logged(log, runs) && a < |log| && log[0].promise != Anything && log[a].request.Some?
    requires (forall r :: 0 <= r < |runs| ==> Steady(runs[r])) && Keeps(disk, log[|log| - 1].promise)
    ensures var last := log[|log| - 1].promise;
            last.Kept? && log[a].request == Some(KeyPem(last.pledge.key)) && Holds(disk, last.pledge)
  {
    hide Next, RiskAt, Holds, Steady;
    OwnStays(log, runs, a);
    if log[|log| - 1].promise != log[a].promise {
      PledgeIsGivenUpAtRisk(log, runs, a, |log| - 1);
      var c :| a <= c < |log| - 1 && RiskAt(log[c], runs);
      SteadyIsSafe(log, runs, c);
    }
  }

  /** One run of a lifetime, cut off: what is left, and the log of the run up to there. */
  method LifetimeRun(found: Disk, agent: string, token: nat, runs: seq<Circumstances>, i: nat,
                     cut: (seq<Disk>, nat) -> Cut,
                     ghost p: Promise)
    returns (disk: Disk, ghost log: seq<Moment>)
    requires i < |runs| && Keeps(found, p) && Belongs(p, (agent, token))
    requires forall trail, i :: trail != [] ==> CanCut(trail, cut(trail, i))
    ensures Logged(log, runs) && log != [] && log[0].disk == found && log[0].promise == p
    ensures Keeps(disk, log[|log| - 1].promise) && Belongs(log[|log| - 1].promise, (agent, token))
    ensures Settled(log[|log| - 1].disk) ==> disk == log[|log| - 1].disk
  {
    hide Keeps, Settled, CanCut, Logged, Carries;
    var fs := new Filesystem(found, runs[i].fails, runs[i].bad, (agent, token), p);
    var _, _ := Enroll(fs, agent, token, runs[i]);
    var c := cut(fs.trail, i);
    CutIsIn(fs.trail, c);
    CutKeeps(fs.trail, c, fs.promises[c.at]);
    RunIsLogged(fs.trail, fs.promises, fs.requests, fs.owner, runs, i, fs.clock, c.at);
    disk, log := c.after, RunLog(fs.trail, fs.promises, fs.requests, i, fs.clock, c.at);
  }

  /** The keys of all requests in a log. */
  ghost function Keys(log: seq<Moment>): set<Content> {
    set i | 0 <= i < |log| && log[i].request.Some? :: log[i].request.value
  }

  /** A settled output directory is never changed again. */
  ghost predicate SettledForGood(log: seq<Moment>, disk: Disk) {
    forall i, j :: 0 <= i <= j < |log| && Settled(log[i].disk) ==> log[j].disk == log[i].disk == disk
  }

  /** Two requests carry different keys only if in between the pledged key was at risk. */
  ghost predicate KeyChangesOnlyAtRisk(log: seq<Moment>, runs: seq<Circumstances>) {
    forall a, b ::
      0 <= a < b < |log| && log[a].request.Some? && log[b].request.Some? && log[a].request != log[b].request ==>
      exists c :: a <= c < b && RiskAt(log[c], runs)
  }

  lemma NothingLogged(runs: seq<Circumstances>)
    ensures Logged([], runs) && KeyChangesOnlyAtRisk([], runs) && Keys([]) == {}
  {
  }

  lemma LogIsWhole(log: seq<Moment>, runs: seq<Circumstances>, disk: Disk)
    requires Logged(log, runs) && (log != [] && Settled(log[|log| - 1].disk) ==> disk == log[|log| - 1].disk)
    ensures (forall i :: 0 <= i < |log| ==> Whole(log[i].disk)) && SettledForGood(log, disk)
  {
    hide Whole, Paired, Holds, Next, Settled, Carries;
    forall i, j | 0 <= i <= j < |log| && Settled(log[i].disk) ensures log[j].disk == log[i].disk == disk {
      SettledStays(log, runs, i, j);
      SettledStays(log, runs, i, |log| - 1);
    }
  }

  lemma LogKeepsKey(log: seq<Moment>, runs: seq<Circumstances>, disk: Disk, agent: string, token: nat)
    requires Logged(log, runs) && log != [] && log[0].promise != Anything
    requires Keeps(disk, log[|log| - 1].promise) && Belongs(log[|log| - 1].promise, (agent, token))
    ensures KeyChangesOnlyAtRisk(log, runs)
    ensures (forall r :: 0 <= r < |runs| ==> Steady(runs[r])) && Keys(log) != {} ==>
              exists k :: Keys(log) == {KeyPem(k)} && Holds(disk, Pledge(agent, token, k))
  {
    hide Logged, RiskAt, Holds, Steady, Keeps;
    forall a, b | 0 <= a < b < |log| && log[a].request.Some? && log[b].request.Some? && log[a].request != log[b].request
      ensures exists c :: a <= c < b && RiskAt(log[c], runs)
    {
      DifferentKeysMeanRisk(log, runs, a, b);
    }
    if (forall r :: 0 <= r < |runs| ==> Steady(runs[r])) && Keys(log) != {} {
      forall a | 0 <= a < |log| && log[a].request.Some?
        ensures log[|log| - 1].promise.Kept? && log[a].request == Some(KeyPem(log[|log| - 1].promise.pledge.key))
        ensures Holds(disk, log[|log| - 1].promise.pledge)
      {
        SteadyKeyIsHeld(log, runs, disk, a);
      }
      var key :| key in Keys(log);
      assert Keys(log) == {key};
      assert Keys(log) == {KeyPem(log[|log| - 1].promise.pledge.key)};
    }
  }

  /** Any number of runs for one agent and token, each left to end or cut off in any state it went through, with any
      file operations failing and any files unreadable.  The output directory is never there in part, and a settled one
      is never changed again.  Two requests carry different keys only if in between the pledged key was at risk; in
      steady runs no two do. */
  method Lifetime(first: Disk, agent: string, token: nat, runs: seq<Circumstances>, cut: (seq<Disk>, nat) -> Cut)
    returns (disk: Disk, ghost log: seq<Moment>)
    requires Whole(first)
    requires forall trail, i :: trail != [] ==> CanCut(trail, cut(trail, i))
    ensures Whole(disk) && (forall i :: 0 <= i < |log| ==> Whole(log[i].disk))
    ensures (if log == [] then disk else log[0].disk) == first
    ensures SettledForGood(log, disk)
    ensures Paired(first) ==> KeyChangesOnlyAtRisk(log, runs)
    ensures Paired(first) && (forall r :: 0 <= r < |runs| ==> Steady(runs[r])) && Keys(log) != {} ==>
              exists k :: Keys(log) == {KeyPem(k)} && Holds(disk, Pledge(agent, token, k))
  {
    hide CanCut, Settled, Whole, Paired, Logged, Holds, Steady, RiskAt, Keys, SettledForGood, KeyChangesOnlyAtRisk;
    disk, log := first, [];
    NothingLogged(runs);
    ghost var promise := if Paired(first) then Own else Anything;
    for i := 0 to |runs|
      invariant Logged(log, runs) && Keeps(disk, promise) && Belongs(promise, (agent, token))
      invariant if log == [] then disk == first && promise == (if Paired(first) then Own else Anything)
                else
                  log[0].disk == first && log[0].promise == (if Paired(first) then Own else Anything)
                    && log[|log| - 1].promise == promise
                     && (Settled(log[|log| - 1].disk) ==> disk == log[|log| - 1].disk)
    {
      ghost var more;
      disk, more := LifetimeRun(disk, agent, token, runs, i, cut, promise);
      LogsJoin(log, more, runs);
      log := log + more;
      promise := log[|log| - 1].promise;
    }
    LogIsWhole(log, runs, disk);
    if log != [] && Paired(first) { LogKeepsKey(log, runs, disk, agent, token); }
  }
}
