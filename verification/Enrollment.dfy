/** Crash-safe publication of enrolment credentials (backend/cmd/agent/enrollment_generation.go).

    The agent builds its credentials in a staging directory and renames that directory to the output
    path.  A directory entry that was created, replaced or removed since the last directory sync is
    uncertain: after a crash the entry may be any of the values it had since that sync.  A `Disk` keeps
    these possibilities next to the current contents, so that "whatever a crash leaves" is a relation on
    values.

    A file's contents are symbolic: keys, signing requests, certificates and manifests are constructors,
    and the digest of a file is a value that determines it. */
module Enrollment {
  import opened Wrappers

  datatype Name =
    | Key | Csr | Cert | Ca                       // agent.key, agent.csr, agent.crt, ca.crt
    | PreparedDoc | CompleteDoc | CommitDoc       // the three manifests
    | Temporary(n: nat)                           // .dbpilot-enrollment-tmp-*
    | Stray(n: nat)                               // anything else

  datatype Content =
    | KeyPem(key: nat)
    | CsrPem(key: nat, serial: nat)
    | Pem(text: nat)
    | Document(manifest: Manifest)
    | Junk

  datatype Digest = Digest(of: Content)

  datatype Phase = Ready | Completed | Finalized | Unknown

  datatype Manifest = Manifest(
    version: int, phase: Phase, agent: string, token: nat, key: Digest, csr: Digest,
    host: string, revision: nat, cert: Option<Digest>, ca: Option<Digest>)

  const FORMAT := 1

  /** The one directory: not there, at the staging path, or at the output path. */
  datatype Place = Nowhere | AtStage | AtOutput

  datatype Disk = Disk(
    files: map<Name, Content>, shadow: map<Name, set<Option<Content>>>,
    place: Place, places: set<Place>)

  // ---- File operations -----------------------------------------------------------------------

  function Lookup(files: map<Name, Content>, n: Name): Option<Content> {
    if n in files then Some(files[n]) else None
  }

  /** What a crash can leave under a name. */
  function Possible(d: Disk, n: Name): set<Option<Content>> {
    {Lookup(d.files, n)} + (if n in d.shadow then d.shadow[n] else {})
  }

  function Put(d: Disk, n: Name, c: Content): Disk {
    d.(files := d.files[n := c], shadow := d.shadow[n := Possible(d, n)])
  }

  function Delete(d: Disk, n: Name): Disk {
    d.(files := d.files - {n}, shadow := d.shadow[n := Possible(d, n)])
  }

  /** The rename that turns a written and synced temporary file into its canonical name. */
  function Rename(d: Disk, temporary: Name, n: Name, c: Content): Disk {
    Delete(Put(d, n, c), temporary)
  }

  function SyncDirectory(d: Disk): Disk {
    d.(shadow := map[])
  }

  function MakeStage(d: Disk): Disk {
    Disk(map[], map[], AtStage, d.places + {AtStage})
  }

  function RemoveStage(d: Disk): Disk {
    d.(place := Nowhere, places := d.places + {Nowhere})
  }

  function MoveToOutput(d: Disk): Disk {
    d.(place := AtOutput, places := d.places + {AtOutput})
  }

  function SyncParent(d: Disk): Disk {
    d.(places := {d.place})
  }

  /** `after` is a disk that a crash of `d` can leave: every uncertain entry has settled independently, and the
      directory is at one of the places it has had since the parent directory was synced.  A staging
      directory that was removed or newly made may also come back empty. */
  ghost predicate CrashLeaves(d: Disk, after: Disk) {
    && after.shadow == map[] && after.places == {after.place}
    && after.place in d.places
    && (|| (forall n :: Lookup(after.files, n) in Possible(d, n))
        || (Nowhere in d.places && after.place == AtStage && after.files == map[]))
  }

  // ---- What the directory holds --------------------------------------------------------------

  /** The finalized manifest vouches for the key, the certificate and the CA beside it. */
  ghost predicate Vouches(m: Manifest, key: Content, cert: Content, ca: Content) {
    && m.version == FORMAT && m.phase == Finalized
    && m.key == Digest(key) && m.cert == Some(Digest(cert)) && m.ca == Some(Digest(ca))
  }

  /** Exactly key, certificate, CA and a finalized manifest whose digests match them. */
  ghost predicate Published(files: map<Name, Content>) {
    && files.Keys == {Key, Cert, Ca, CommitDoc}
    && files[CommitDoc].Document?
    && Vouches(files[CommitDoc].manifest, files[Key], files[Cert], files[Ca])
  }

  /** All or nothing: wherever the output path may come to exist, its contents are settled and published. */
  ghost predicate Whole(d: Disk) {
    && d.place in d.places
    && (AtOutput in d.places ==> d.place == AtOutput && d.shadow == map[] && Published(d.files))
  }

  datatype Pledge = Pledge(agent: string, token: nat, key: nat)

  /** How much is promised of a disk.  `Anything` allows any contents of the staging directory; `Own` says that only
      this program has written there; `Kept` adds that prepare has returned for this agent and token with
      this private key. */
  datatype Promise = Anything | Own | Kept(pledge: Pledge)

  ghost predicate Certain(d: Disk, n: Name, c: Content) {
    Possible(d, n) == {Some(c)}
  }

  /** Key and signing request are safe on disk, so that the request can be repeated. */
  ghost predicate Repeatable(d: Disk, p: Pledge) {
    && Certain(d, Key, KeyPem(p.key))
    && exists serial :: Certain(d, Csr, CsrPem(p.key, serial))
  }

  /** Key, certificate, CA and the finalized manifest are safe on disk. */
  ghost predicate Sealed(d: Disk, p: Pledge) {
    && Certain(d, Key, KeyPem(p.key))
    && exists m, cert, ca ::
         && Certain(d, CommitDoc, Document(m)) && Certain(d, Cert, cert) && Certain(d, Ca, ca)
         && Vouches(m, KeyPem(p.key), cert, ca) && m.agent == p.agent && m.token == p.token
  }

  /** The pledged key is safe: with its signing request as long as that is there, and with everything else once it has
      gone. */
  ghost predicate Holds(d: Disk, p: Pledge) {
    && Nowhere !in d.places
    && (Csr in d.files ==> Repeatable(d, p))
    && (Csr !in d.files || AtOutput in d.places ==> Sealed(d, p))
  }

  /** Key and signing request, where they exist, belong together. */
  ghost predicate Paired(d: Disk) {
    exists k, serial ::
      Possible(d, Key) <= {None, Some(KeyPem(k))} && Possible(d, Csr) <= {None, Some(CsrPem(k, serial))}
  }

  /** The invariant of every state between two file operations. */
  ghost predicate Keeps(d: Disk, p: Promise) {
    Whole(d) && (p != Anything ==> Paired(d)) && (p.Kept? ==> Holds(d, p.pledge))
  }

  // ---- Crashes keep the invariant ------------------------------------------------------------

  lemma CertainSurvives(d: Disk, after: Disk, n: Name, c: Content)
    requires CrashLeaves(d, after) && Nowhere !in d.places && Certain(d, n, c)
    ensures Certain(after, n, c) && n in after.files && after.files[n] == c
  {
    assert Lookup(after.files, n) in Possible(d, n);
  }

  lemma CrashKeepsSealed(d: Disk, after: Disk, p: Pledge)
    requires CrashLeaves(d, after) && Nowhere !in d.places && Sealed(d, p)
    ensures Sealed(after, p)
  {
    hide Certain, Vouches, CrashLeaves;
    CertainSurvives(d, after, Key, KeyPem(p.key));
    var m, cert, ca :| && Certain(d, CommitDoc, Document(m)) && Certain(d, Cert, cert) && Certain(d, Ca, ca)
                       && Vouches(m, KeyPem(p.key), cert, ca) && m.agent == p.agent && m.token == p.token;
    CertainSurvives(d, after, CommitDoc, Document(m));
    CertainSurvives(d, after, Cert, cert);
    CertainSurvives(d, after, Ca, ca);
  }

  lemma CrashKeepsRepeatable(d: Disk, after: Disk, p: Pledge)
    requires CrashLeaves(d, after) && Nowhere !in d.places && Repeatable(d, p)
    ensures Repeatable(after, p)
  {
    hide Certain, CrashLeaves;
    CertainSurvives(d, after, Key, KeyPem(p.key));
    var serial :| Certain(d, Csr, CsrPem(p.key, serial));
    CertainSurvives(d, after, Csr, CsrPem(p.key, serial));
  }

  lemma CrashKeepsWhole(d: Disk, after: Disk)
    requires CrashLeaves(d, after) && Whole(d)
    ensures Whole(after)
    ensures after.place == AtOutput ==> after.files == d.files && Published(after.files)
  {
    hide Published;
    if after.place == AtOutput {
      forall n ensures Lookup(after.files, n) == Lookup(d.files, n) {
        assert Lookup(after.files, n) in Possible(d, n);
      }
      assert forall n :: (n in after.files <==> n in d.files) by {
        forall n ensures n in after.files <==> n in d.files {
          assert Lookup(after.files, n) == Lookup(d.files, n);
        }
      }
      assert forall n :: n in after.files ==> after.files[n] == d.files[n] by {
        forall n | n in after.files ensures after.files[n] == d.files[n] {
          assert Lookup(after.files, n) == Lookup(d.files, n);
        }
      }
      assert after.files == d.files;
    }
  }

  lemma CrashKeepsPaired(d: Disk, after: Disk)
    requires CrashLeaves(d, after) && Paired(d)
    ensures Paired(after)
  {
    var k, serial :|
      Possible(d, Key) <= {None, Some(KeyPem(k))} && Possible(d, Csr) <= {None, Some(CsrPem(k, serial))};
    assert after.files != map[] ==>
      Lookup(after.files, Key) in Possible(d, Key) && Lookup(after.files, Csr) in Possible(d, Csr);
    assert Possible(after, Key) <= {None, Some(KeyPem(k))} && Possible(after, Csr) <= {None, Some(CsrPem(k, serial))};
  }

  /** A signing request that is settled beside a certain key is the one made with that key. */
  lemma SettledRequestRepeats(d: Disk, p: Pledge)
    requires Paired(d) && d.shadow == map[] && Certain(d, Key, KeyPem(p.key)) && Csr in d.files
    ensures Repeatable(d, p)
  {
    var k, serial :|
      Possible(d, Key) <= {None, Some(KeyPem(k))} && Possible(d, Csr) <= {None, Some(CsrPem(k, serial))};
    assert Lookup(d.files, Csr) in Possible(d, Csr) && Some(KeyPem(p.key)) in Possible(d, Key);
    assert Certain(d, Csr, CsrPem(p.key, serial));
  }

  /** Whatever a crash leaves satisfies the invariant again, so runs can be chained over any number of crashes. */
  lemma CrashKeeps(d: Disk, after: Disk, p: Promise)
    requires CrashLeaves(d, after) && Keeps(d, p)
    ensures Keeps(after, p)
  {
    hide CrashLeaves, Repeatable, Sealed, Whole, Paired;
    CrashKeepsWhole(d, after);
    CrashPlace(d, after);
    if p != Anything { CrashKeepsPaired(d, after); }
    if p.Kept? { CrashKeepsHolds(d, after, p.pledge); }
  }

  lemma CrashKeepsHolds(d: Disk, after: Disk, p: Pledge)
    requires CrashLeaves(d, after) && Holds(d, p) && Paired(after)
    ensures Holds(after, p)
  {
    hide CrashLeaves, Paired, Certain, Possible;
    CrashPlace(d, after);
    CertainSurvives(d, after, Key, KeyPem(p.key));
    if Csr in after.files { SettledRequestRepeats(after, p); }
    if Sealed(d, p) { CrashKeepsSealed(d, after, p); }
    else {
      CrashKeepsRepeatable(d, after, p);
      RequestIsThere(after, p);
    }
  }

  lemma RequestIsThere(d: Disk, p: Pledge)
    requires Repeatable(d, p)
    ensures Csr in d.files
  {
    hide Certain;
    var serial :| Certain(d, Csr, CsrPem(p.key, serial));
    CertainIsNow(d, Csr, CsrPem(p.key, serial));
  }

  lemma CertainIsNow(d: Disk, n: Name, c: Content)
    requires Certain(d, n, c)
    ensures n in d.files && d.files[n] == c
  {
    assert Lookup(d.files, n) in Possible(d, n);
  }

  lemma CrashPlace(d: Disk, after: Disk)
    requires CrashLeaves(d, after)
    ensures after.places == {after.place} && after.place in d.places && after.shadow == map[]
  {
  }

  // ---- File operations keep the invariant ----------------------------------------------------

  /** Which of a pledge's two safeguards an operation relies on; `Free` when nothing is pledged. */
  datatype Guard = Free | Request | Seal

  ghost predicate Guarded(d: Disk, p: Promise, g: Guard) {
    && d.place == AtStage && AtOutput !in d.places
    && match g
       case Free => !p.Kept?
       case Request => p.Kept? && Repeatable(d, p.pledge)
       case Seal => p.Kept? && Sealed(d, p.pledge)
  }

  /** The entries an operation under this guard may change. */
  predicate Allows(g: Guard, n: Name) {
    match g
    case Free => true
    case Request => n != Key && n != Csr
    case Seal => n != Key && n != Cert && n != Ca && n != CommitDoc
  }

  /** `d'` differs from `d` only in the entry `n`. */
  ghost predicate Touches(d: Disk, d': Disk, n: Name) {
    && d'.place == d.place && d'.places == d.places
    && (forall x :: x != n ==> Possible(d', x) == Possible(d, x))
    && (n != Csr ==> (Csr in d'.files <==> Csr in d.files))
  }

  lemma PutTouches(d: Disk, n: Name, c: Content)
    ensures Touches(d, Put(d, n, c), n)
    ensures Possible(Put(d, n, c), n) == Possible(d, n) + {Some(c)}
  {
    var d' := Put(d, n, c);
    forall x | x != n ensures Possible(d', x) == Possible(d, x) {
      assert Lookup(d'.files, x) == Lookup(d.files, x);
    }
  }

  lemma DeleteTouches(d: Disk, n: Name)
    ensures Touches(d, Delete(d, n), n) && n !in Delete(d, n).files
    ensures Possible(Delete(d, n), n) == Possible(d, n) + {None}
  {
    var d' := Delete(d, n);
    forall x | x != n ensures Possible(d', x) == Possible(d, x) {
      assert Lookup(d'.files, x) == Lookup(d.files, x);
    }
  }

  lemma TouchKeepsSafeguards(d: Disk, d': Disk, n: Name, p: Pledge)
    requires Touches(d, d', n)
    ensures Repeatable(d, p) && Allows(Request, n) ==> Repeatable(d', p)
    ensures Sealed(d, p) && Allows(Seal, n) ==> Sealed(d', p)
  {
    hide Vouches, Possible;
    if Sealed(d, p) && Allows(Seal, n) {
      var m, cert, ca :| && Certain(d, CommitDoc, Document(m)) && Certain(d, Cert, cert) && Certain(d, Ca, ca)
                         && Vouches(m, KeyPem(p.key), cert, ca) && m.agent == p.agent && m.token == p.token;
      assert Certain(d', CommitDoc, Document(m)) && Certain(d', Cert, cert) && Certain(d', Ca, ca);
    }
    if Repeatable(d, p) && Allows(Request, n) {
      var serial :| Certain(d, Csr, CsrPem(p.key, serial));
      assert Certain(d', Csr, CsrPem(p.key, serial));
    }
  }

  lemma TouchKeepsPaired(d: Disk, d': Disk, n: Name)
    requires Touches(d, d', n) && Paired(d)
    requires n == Key || n == Csr ==> Possible(d', n) == Possible(d, n) + {None}
    ensures Paired(d')
  {
    var k, serial :|
      Possible(d, Key) <= {None, Some(KeyPem(k))} && Possible(d, Csr) <= {None, Some(CsrPem(k, serial))};
    hide Possible;
    assert Possible(d', Key) <= {None, Some(KeyPem(k))} && Possible(d', Csr) <= {None, Some(CsrPem(k, serial))};
  }

  /** Changing an entry that the guard leaves free keeps the invariant and the guard. */
  lemma TouchKeeps(d: Disk, d': Disk, n: Name, p: Promise, g: Guard)
    requires Keeps(d, p) && Guarded(d, p, g) && Allows(g, n) && Touches(d, d', n)
    requires p != Anything ==> Paired(d')
    requires p.Kept? && n == Csr ==> Csr !in d'.files
    ensures Keeps(d', p) && Guarded(d', p, g)
  {
    hide Repeatable, Sealed, Paired, Published, Possible;
    if p.Kept? {
      TouchKeepsSafeguards(d, d', n, p.pledge);
      if g == Request { RequestIsThere(d', p.pledge); }
    }
  }

  lemma PutKeeps(d: Disk, n: Name, c: Content, p: Promise, g: Guard)
    requires Keeps(d, p) && Guarded(d, p, g) && Allows(g, n)
    requires p != Anything && (n == Key || n == Csr) ==> Paired(Put(d, n, c))
    requires p.Kept? ==> n != Csr
    ensures Keeps(Put(d, n, c), p) && Guarded(Put(d, n, c), p, g)
  {
    hide Put, Guarded, Allows, Touches, Paired, Whole, Holds;
    PutTouches(d, n, c);
    if p != Anything && n != Key && n != Csr { TouchKeepsPaired(d, Put(d, n, c), n); }
    TouchKeeps(d, Put(d, n, c), n, p, g);
  }

  lemma DeleteKeeps(d: Disk, n: Name, p: Promise, g: Guard)
    requires Keeps(d, p) && Guarded(d, p, g) && Allows(g, n)
    ensures Keeps(Delete(d, n), p) && Guarded(Delete(d, n), p, g)
  {
    hide Delete, Guarded, Allows, Touches, Paired, Whole, Holds;
    DeleteTouches(d, n);
    if p != Anything { TouchKeepsPaired(d, Delete(d, n), n); }
    TouchKeeps(d, Delete(d, n), n, p, g);
  }

  lemma SyncKeepsCertain(d: Disk, n: Name, c: Content)
    requires Certain(d, n, c)
    ensures Certain(SyncDirectory(d), n, c) && n in d.files && d.files[n] == c
  {
    assert Lookup(d.files, n) in Possible(d, n);
  }

  lemma SyncKeepsSafeguards(d: Disk, p: Pledge)
    ensures Repeatable(d, p) ==> Repeatable(SyncDirectory(d), p)
    ensures Sealed(d, p) ==> Sealed(SyncDirectory(d), p)
  {
    hide Vouches, Certain, SyncDirectory;
    if Sealed(d, p) {
      var m, cert, ca :| && Certain(d, CommitDoc, Document(m)) && Certain(d, Cert, cert) && Certain(d, Ca, ca)
                         && Vouches(m, KeyPem(p.key), cert, ca) && m.agent == p.agent && m.token == p.token;
      SyncKeepsCertain(d, Key, KeyPem(p.key));
      SyncKeepsCertain(d, CommitDoc, Document(m)); SyncKeepsCertain(d, Cert, cert); SyncKeepsCertain(d, Ca, ca);
    }
    if Repeatable(d, p) {
      var serial :| Certain(d, Csr, CsrPem(p.key, serial));
      SyncKeepsCertain(d, Key, KeyPem(p.key));
      SyncKeepsCertain(d, Csr, CsrPem(p.key, serial));
    }
  }

  lemma SyncKeepsPaired(d: Disk)
    requires Paired(d)
    ensures Paired(SyncDirectory(d))
  {
    var k, serial :|
      Possible(d, Key) <= {None, Some(KeyPem(k))} && Possible(d, Csr) <= {None, Some(CsrPem(k, serial))};
    var d' := SyncDirectory(d);
    assert Lookup(d.files, Key) in Possible(d, Key) && Lookup(d.files, Csr) in Possible(d, Csr);
    assert Possible(d', Key) <= {None, Some(KeyPem(k))} && Possible(d', Csr) <= {None, Some(CsrPem(k, serial))};
  }

  lemma SyncKeeps(d: Disk, p: Promise)
    requires Keeps(d, p)
    ensures Keeps(SyncDirectory(d), p)
    ensures forall g :: Guarded(d, p, g) ==> Guarded(SyncDirectory(d), p, g)
  {
    hide Repeatable, Sealed, Paired, Published;
    if p != Anything { SyncKeepsPaired(d); }
    if p.Kept? { SyncKeepsSafeguards(d, p.pledge); }
  }

  lemma SyncParentKeeps(d: Disk, p: Promise)
    requires Keeps(d, p)
    ensures Keeps(SyncParent(d), p)
    ensures forall g :: Guarded(d, p, g) ==> Guarded(SyncParent(d), p, g)
  {
    hide Repeatable, Sealed, Paired, Published;
    var d' := SyncParent(d);
    assert forall n :: Possible(d', n) == Possible(d, n);
    if p != Anything { PlaceKeepsPaired(d, d'); }
    if p.Kept? { PlaceKeepsSafeguards(d, d', p.pledge); }
  }

  lemma PlaceKeepsPaired(d: Disk, d': Disk)
    requires d'.files == d.files && d'.shadow == d.shadow && Paired(d)
    ensures Paired(d')
  {
    var k, serial :|
      Possible(d, Key) <= {None, Some(KeyPem(k))} && Possible(d, Csr) <= {None, Some(CsrPem(k, serial))};
    assert Possible(d', Key) <= {None, Some(KeyPem(k))} && Possible(d', Csr) <= {None, Some(CsrPem(k, serial))};
  }

  lemma PlaceKeepsSafeguards(d: Disk, d': Disk, p: Pledge)
    requires d'.files == d.files && d'.shadow == d.shadow
    ensures Repeatable(d, p) ==> Repeatable(d', p)
    ensures Sealed(d, p) ==> Sealed(d', p)
  {
    hide Vouches;
    assert forall n :: Possible(d', n) == Possible(d, n);
    hide Possible;
    if Sealed(d, p) {
      var m, cert, ca :| && Certain(d, CommitDoc, Document(m)) && Certain(d, Cert, cert) && Certain(d, Ca, ca)
                         && Vouches(m, KeyPem(p.key), cert, ca) && m.agent == p.agent && m.token == p.token;
      assert Certain(d', CommitDoc, Document(m)) && Certain(d', Cert, cert) && Certain(d', Ca, ca);
    }
    if Repeatable(d, p) {
      var serial :| Certain(d, Csr, CsrPem(p.key, serial));
      assert Certain(d', Csr, CsrPem(p.key, serial));
    }
  }

  /** The step that publishes: a settled directory with exactly the four files moves to the output path. */
  lemma MoveKeeps(d: Disk, p: Promise)
    requires Keeps(d, p) && d.place == AtStage && d.shadow == map[] && Published(d.files)
    requires p.Kept? ==> Sealed(d, p.pledge)
    ensures Keeps(MoveToOutput(d), p)
  {
    hide Repeatable, Sealed, Paired, Published;
    if p != Anything { PlaceKeepsPaired(d, MoveToOutput(d)); }
    if p.Kept? { PlaceKeepsSafeguards(d, MoveToOutput(d), p.pledge); }
  }

  lemma StageKeeps(d: Disk, p: Promise)
    requires Keeps(d, p) && !p.Kept?
    ensures d.place == Nowhere ==> Keeps(MakeStage(d), p) && Guarded(MakeStage(d), p, Free)
    ensures d.place == AtStage ==> Keeps(RemoveStage(d), p)
  {
    hide Published, Repeatable, Sealed;
    if d.place == Nowhere {
      var k, serial := 0, 0;
      assert Possible(MakeStage(d), Key) <= {None, Some(KeyPem(k))}
        && Possible(MakeStage(d), Csr) <= {None, Some(CsrPem(k, serial))};
    }
    if p != Anything { PlaceKeepsPaired(d, RemoveStage(d)); }
  }
}
