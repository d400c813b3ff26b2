/** The files of an enrolment, one operation at a time, and the writers built from single operations
    (backend/cmd/agent/enrollment_generation.go).

    `Filesystem` performs the operations.  Which of them fail is given beforehand, by the number of the operation and
    the part of the run it belongs to.  Each is a point where the machine can stop, and `trail` records every state the
    disk has been in.  Since every operation requires and ensures `Valid`, the invariant `Keeps` holds between any two
    operations of any run. */
module EnrollmentFiles {
  import opened Wrappers
  import opened Enrollment
  import opened EnrollmentResume

  /** The rename has reached the disk: nothing but this output directory can be found any more. */
  predicate Settled(d: Disk) {
    d.place == AtOutput && d.places == {AtOutput}
  }

  /** Pledges are made to one agent and token. */
  predicate Belongs(p: Promise, owner: (string, nat)) {
    p.Kept? ==> (p.pledge.agent, p.pledge.token) == owner
  }

  /** The operations of loading and recovering a staging directory, and all others. */
  datatype Part = Resuming | Working

  /** Some of these operations fails if it belongs to loading or recovering. */
  ghost predicate Hinders(fails: (Part, nat) -> bool, from: nat, to: nat) {
    exists i :: from <= i < to && fails(Resuming, i)
  }

  /** A key is given up for two reasons: too little of the directory can be read, or one of the run's operations so far
      has failed in loading or recovering. */
  ghost predicate AtRisk(d: Disk, pledge: Pledge, bad: set<Name>, fails: (Part, nat) -> bool, ops: nat) {
    LosesKey(d.files, bad, pledge) || Hinders(fails, 0, ops)
  }

  /** What may become of a promise in one step: it stays, a key is pledged, or a pledged key is given up. */
  ghost predicate Follows(d: Disk, p: Promise, p': Promise, bad: set<Name>, fails: (Part, nat) -> bool, ops: nat,
                          misused: bool) {
    || p' == p
    || (p == Own && p'.Kept?)
    || (p.Kept? && p' == Own && (misused || AtRisk(d, p.pledge, bad, fails, ops)))
  }

  /** The record of a run: each state it went through kept the promise made at that time, a settled output directory is
      never changed again, and a pledge is given up only where it was at risk. */
  ghost predicate Recorded(trail: seq<Disk>, promises: seq<Promise>, owner: (string, nat), bad: set<Name>,
                           fails: (Part, nat) -> bool,
                           ops: nat, misused: bool) {
    && 0 < |trail| == |promises|
    && (forall i :: 0 <= i < |trail| ==> Keeps(trail[i], promises[i]) && Belongs(promises[i], owner))
    && (forall i :: 0 <= i < |trail| - 1 && Settled(trail[i]) ==> trail[i + 1] == trail[i])
    && (forall i :: 0 <= i < |trail| - 1 ==> Follows(trail[i], promises[i], promises[i + 1], bad, fails, ops, misused))
  }

  lemma RecordGrows(trail: seq<Disk>, promises: seq<Promise>, owner: (string, nat), bad: set<Name>,
                    fails: (Part, nat) -> bool,
                    ops: nat, misused: bool, d: Disk, p: Promise)
    requires Recorded(trail, promises, owner, bad, fails, ops, misused) && Keeps(d, p) && Belongs(p, owner)
    requires Settled(trail[|trail| - 1]) ==> d == trail[|trail| - 1]
    requires Follows(trail[|trail| - 1], promises[|promises| - 1], p, bad, fails, ops, misused)
    ensures Recorded(trail + [d], promises + [p], owner, bad, fails, ops, misused)
  {
    hide Keeps, Settled, Belongs, Follows;
  }

  lemma RecordLoosens(trail: seq<Disk>, promises: seq<Promise>, owner: (string, nat), bad: set<Name>,
                      fails: (Part, nat) -> bool,
                      ops: nat, ops': nat, misused: bool, misused': bool)
    requires Recorded(trail, promises, owner, bad, fails, ops, misused) && ops <= ops' && (misused ==> misused')
    ensures Recorded(trail, promises, owner, bad, fails, ops', misused')
  {
    hide Keeps, Settled, Belongs, LosesKey;
    assert Hinders(fails, 0, ops) ==> Hinders(fails, 0, ops');
  }

  /** Requests, by the state in which they were sent: each carries the key that was pledged then. */
  ghost predicate Requested(requests: map<nat, Content>, promises: seq<Promise>) {
    forall n :: n in requests ==> n < |promises| && Carries(promises[n], requests[n])
  }

  ghost predicate Carries(p: Promise, key: Content) {
    p == Anything || (p.Kept? && key == KeyPem(p.pledge.key))
  }

  lemma StageIsNotSettled(d: Disk, p: Promise, g: Guard)
    requires Guarded(d, p, g)
    ensures !Settled(d)
  {
  }

  lemma SettledIsSynced(d: Disk)
    ensures Settled(d) ==> SyncParent(d) == d
  {
  }

  lemma LapsedKeeps(d: Disk, p: Promise)
    requires Keeps(d, p) && p.Kept?
    ensures Keeps(d, Own)
  {
    hide Whole, Paired, Holds;
  }

  lemma RenameKeeps(d: Disk, t: nat, n: Name, c: Content, p: Promise, g: Guard)
    requires Keeps(d, p) && Guarded(d, p, g) && Allows(g, n) && (p.Kept? ==> n != Csr)
    requires p != Anything && (n == Key || n == Csr) ==> Paired(Put(d, n, c))
    ensures Keeps(Rename(d, Temporary(t), n, c), p) && Guarded(Rename(d, Temporary(t), n, c), p, g)
  {
    hide Keeps, Guarded, Put, Delete, Paired;
    PutKeeps(d, n, c, p, g);
    AllowsTemporary(g, t);
    DeleteKeeps(Put(d, n, c), Temporary(t), p, g);
  }

  lemma AllowsTemporary(g: Guard, t: nat)
    ensures Allows(g, Temporary(t))
  {
  }

  class Filesystem {
    const fails: (Part, nat) -> bool
    const bad: set<Name>
    var clock: nat
    var disk: Disk
    var trail: seq<Disk>
    ghost const owner: (string, nat)
    ghost const first: Disk
    ghost const start: Promise
    ghost var promise: Promise
    ghost var promises: seq<Promise>
    ghost var requests: map<nat, Content>
    ghost var misused: bool

    ghost predicate Valid()
      reads this
    {
      && Keeps(disk, promise) && Recorded(trail, promises, owner, bad, fails, clock, misused) && Belongs(promise, owner)
      && 0 < |trail| == |promises| && trail[0] == first && trail[|trail| - 1] == disk
      && promises[0] == start && promises[|promises| - 1] == promise && Requested(requests, promises)
    }

    /** No request was sent, and no generation misused. */
    twostate predicate Proceeds()
      reads this
    {
      misused == old(misused) && requests == old(requests) && clock >= old(clock)
    }

    /** The operation went on from here without giving up what was promised. */
    twostate predicate Continues()
      reads this
    {
      promise == old(promise) && Proceeds()
    }

    /** None of these operations fails if it belongs to this part. */
    ghost predicate Quiet(part: Part, from: nat, to: nat) {
      forall i :: from <= i < to ==> !fails(part, i)
    }

    ghost predicate Faultless() {
      forall part, i :: !fails(part, i)
    }

    constructor (found: Disk, fails: (Part, nat) -> bool, bad: set<Name>, ghost owner: (string, nat), ghost p: Promise)
      requires Keeps(found, p) && Belongs(p, owner)
      ensures Valid() && disk == first == found && promise == start == p && clock == 0 && !misused && requests == map[]
      ensures this.fails == fails && this.bad == bad && this.owner == owner && trail == [found]
    {
      hide Keeps;
      this.fails, this.bad, clock, disk, trail := fails, bad, 0, found, [found];
      this.owner, first, start, promise, promises, misused, requests := owner, found, p, p, [p], false, map[];
    }

    /** One more state of the disk. */
    method Advance(after: Disk)
      requires Valid() && Keeps(after, promise) && (Settled(disk) ==> after == disk)
      modifies this`disk, this`trail, this`promises
      ensures Valid() && disk == after && trail == old(trail) + [after] && promises == old(promises) + [promise]
    {
      hide Keeps, Settled, Recorded, Belongs, AtRisk;
      RecordGrows(trail, promises, owner, bad, fails, clock, misused, after, promise);
      disk, trail, promises := after, trail + [after], promises + [promise];
    }

    /** Whether the next operation succeeds. */
    method Tick(part: Part) returns (ok: bool)
      requires Valid()
      modifies this`clock
      ensures Valid() && ok == !fails(part, old(clock)) && clock == old(clock) + 1
    {
      hide Keeps, Recorded, Belongs, Requested;
      RecordLoosens(trail, promises, owner, bad, fails, clock, clock + 1, misused, misused);
      ok := !fails(part, clock);
      clock := clock + 1;
    }

    /** Prepare has returned with this key: unless nothing is promised, it is kept from here on. */
    method Keep(ghost pledge: Pledge)
      requires Valid() && (promise == Own ==> Keeps(disk, Kept(pledge)) && Belongs(Kept(pledge), owner))
      modifies this`trail, this`promise, this`promises
      ensures Valid() && promise == if old(promise) == Own then Kept(pledge) else old(promise)
      ensures trail == old(trail) + [disk] && promises == old(promises) + [promise]
    {
      hide Keeps, Settled, Recorded, Belongs, AtRisk;
      ghost var now := if promise == Own then Kept(pledge) else promise;
      RecordGrows(trail, promises, owner, bad, fails, clock, misused, disk, now);
      trail, promises, promise := trail + [disk], promises + [now], now;
    }

    /** The request is sent, with this key. */
    ghost method Send(key: Content)
      requires Valid() && Carries(promise, key)
      modifies this`requests
      ensures Valid() && requests == old(requests)[|trail| - 1 := key]
    {
      hide Keeps, Recorded, Belongs, Carries;
      requests := requests[|trail| - 1 := key];
    }

    /** The key is given up `when` it cannot be read, an operation has failed, or a finalized generation is completed
        again. */
    method GiveUp(ghost when: bool, ghost misuse: bool)
      requires Valid() && (when ==> promise.Kept? && (misuse || AtRisk(disk, promise.pledge, bad, fails, clock)))
      modifies this`trail, this`promise, this`promises, this`misused
      ensures Valid() && promise == if when then Own else old(promise)
      ensures misused == (old(misused) || (when && misuse))
    {
      hide Keeps, Settled, Recorded, AtRisk;
      if when { LapsedKeeps(disk, promise); }
      ghost var now, wrong := if when then Own else promise, misused || (when && misuse);
      RecordLoosens(trail, promises, owner, bad, fails, clock, clock, misused, wrong);
      RecordGrows(trail, promises, owner, bad, fails, clock, wrong, disk, now);
      trail, promises, promise, misused := trail + [disk], promises + [now], now, wrong;
    }

    method Remove(n: Name, ghost g: Guard, part: Part) returns (ok: bool)
      requires Valid() && Guarded(disk, promise, g) && Allows(g, n)
      modifies this
      ensures Valid() && Continues() && Guarded(disk, promise, g)
      ensures ok == !fails(part, old(clock)) && clock == old(clock) + 1
      ensures disk == if ok then Delete(old(disk), n) else old(disk)
    {
      hide Keeps, Guarded, Delete, Recorded, Settled, Requested;
      ok := Tick(part);
      if ok {
        StageIsNotSettled(disk, promise, g);
        DeleteKeeps(disk, n, promise, g);
        Advance(Delete(disk, n));
      }
    }

    method CreateTemporary(t: nat, ghost g: Guard, part: Part) returns (ok: bool)
      requires Valid() && Guarded(disk, promise, g)
      modifies this
      ensures Valid() && Continues() && Guarded(disk, promise, g)
      ensures ok == !fails(part, old(clock)) && clock == old(clock) + 1
      ensures disk == if ok then Put(old(disk), Temporary(t), Junk) else old(disk)
    {
      hide Keeps, Guarded, Put, Recorded, Settled, Requested;
      ok := Tick(part);
      if ok {
        StageIsNotSettled(disk, promise, g);
        PutKeeps(disk, Temporary(t), Junk, promise, g);
        Advance(Put(disk, Temporary(t), Junk));
      }
    }

    method RenameTemporary(t: nat, n: Name, c: Content, ghost g: Guard, part: Part) returns (ok: bool)
      requires Valid() && Guarded(disk, promise, g) && Allows(g, n) && (promise.Kept? ==> n != Csr)
      requires promise != Anything && (n == Key || n == Csr) ==> Paired(Put(disk, n, c))
      modifies this
      ensures Valid() && Continues() && Guarded(disk, promise, g)
      ensures ok == !fails(part, old(clock)) && clock == old(clock) + 1
      ensures disk == if ok then Rename(old(disk), Temporary(t), n, c) else old(disk)
    {
      hide Keeps, Guarded, Rename, Recorded, Settled, Paired, Requested;
      ok := Tick(part);
      if ok {
        StageIsNotSettled(disk, promise, g);
        RenameKeeps(disk, t, n, c, promise, g);
        Advance(Rename(disk, Temporary(t), n, c));
      }
    }

    method SyncStage(ghost g: Guard, part: Part) returns (ok: bool)
      requires Valid() && Guarded(disk, promise, g)
      modifies this
      ensures Valid() && Continues() && Guarded(disk, promise, g)
      ensures ok == !fails(part, old(clock)) && clock == old(clock) + 1
      ensures disk == if ok then SyncDirectory(old(disk)) else old(disk)
    {
      hide Keeps, Guarded, SyncDirectory, Recorded, Settled, Requested;
      ok := Tick(part);
      if ok {
        StageIsNotSettled(disk, promise, g);
        SyncKeeps(disk, promise);
        Advance(SyncDirectory(disk));
      }
    }

    method SyncOutputParent() returns (ok: bool)
      requires Valid()
      modifies this
      ensures Valid() && Continues() && (ok == !fails(Working, old(clock)))
      ensures forall g :: old(Guarded(disk, promise, g)) ==> Guarded(disk, promise, g)
      ensures disk == if ok then SyncParent(old(disk)) else old(disk)
    {
      hide Keeps, Guarded, SyncParent, Recorded, Settled, Requested;
      ok := Tick(Working);
      if ok {
        SyncParentKeeps(disk, promise);
        SettledIsSynced(disk);
        Advance(SyncParent(disk));
      }
    }

    method MakeStageDirectory() returns (ok: bool)
      requires Valid() && !promise.Kept? && disk.place == Nowhere
      modifies this
      ensures Valid() && Continues() && (ok == !fails(Working, old(clock))) && (ok ==> Guarded(disk, promise, Free))
      ensures disk == if ok then MakeStage(old(disk)) else old(disk)
    {
      hide Keeps, Guarded, Recorded, Requested;
      ok := Tick(Working);
      if ok {
        StageKeeps(disk, promise);
        Advance(MakeStage(disk));
      }
    }

    method RemoveStageDirectory() returns (ok: bool)
      requires Valid() && !promise.Kept? && disk.place == AtStage
      modifies this
      ensures Valid() && Continues() && (ok == (!fails(Working, old(clock)) && old(disk).files == map[]))
      ensures disk == if ok then RemoveStage(old(disk)) else old(disk)
    {
      hide Keeps, Recorded, Requested;
      ok := Tick(Working);
      ok := ok && disk.files == map[];
      if ok {
        StageKeeps(disk, promise);
        Advance(RemoveStage(disk));
      }
    }

    /** The rename to the output path, which fails rather than replace something there. */
    method Publish() returns (ok: bool)
      requires Valid() && disk.place == AtStage && disk.shadow == map[] && Published(disk.files)
      requires promise.Kept? ==> Sealed(disk, promise.pledge)
      modifies this
      ensures Valid() && Continues() && (ok == !fails(Working, old(clock)))
      ensures disk == if ok then MoveToOutput(old(disk)) else old(disk)
    {
      hide Keeps, Published, Sealed, Recorded, Requested;
      ok := Tick(Working);
      if ok {
        MoveKeeps(disk, promise);
        Advance(MoveToOutput(disk));
      }
    }
  }

  // ---- Writers -------------------------------------------------------------------------------

  /** Only `n` and temporary files differ. */
  ghost predicate SameBut(files: Files, files': Files, n: Name) {
    forall x :: x != n && !x.Temporary? ==> Lookup(files', x) == Lookup(files, x)
  }

  lemma PairedIgnoresTemporary(d: Disk, t: nat, n: Name, c: Content)
    requires Paired(Put(d, n, c)) && !n.Temporary?
    ensures Paired(Put(Put(d, Temporary(t), Junk), n, c))
  {
    var d1, d2 := Put(d, n, c), Put(Put(d, Temporary(t), Junk), n, c);
    var k, serial :|
      Possible(d1, Key) <= {None, Some(KeyPem(k))} && Possible(d1, Csr) <= {None, Some(CsrPem(k, serial))};
    assert Possible(d2, Key) == Possible(d1, Key) && Possible(d2, Csr) == Possible(d1, Csr);
  }

  /** The states an atomic write goes through, as far as other files are concerned. */
  lemma WriteFacts(d: Disk, t: nat, n: Name, c: Content)
    requires !n.Temporary?
    ensures var d1, d2 := Put(d, Temporary(t), Junk), Rename(Put(d, Temporary(t), Junk), Temporary(t), n, c);
            && SameBut(d.files, d1.files, n) && Lookup(d1.files, n) == Lookup(d.files, n)
            && SameBut(d.files, Delete(d1, Temporary(t)).files, n)
               && Lookup(Delete(d1, Temporary(t)).files, n) == Lookup(d.files, n)
            && SameBut(d.files, d2.files, n) && Lookup(d2.files, n) == Some(c)
            && SyncDirectory(d2).files == d2.files && SyncDirectory(d2).shadow == map[]
               && d2.files.Keys <= d.files.Keys + {n}
            && d1.place == d2.place == SyncDirectory(d2).place == Delete(d1, Temporary(t)).place == d.place
            && d1.places == d2.places == SyncDirectory(d2).places == Delete(d1, Temporary(t)).places == d.places
  {
    hide Possible;
  }

  lemma SameFiles(files: Files, n: Name)
    ensures SameBut(files, files, n)
  {
  }

  /** Write beside, sync, rename, sync the directory; refuses to replace an existing file. */
  method WriteAtomic(fs: Filesystem, n: Name, c: Content, ghost g: Guard, part: Part) returns (ok: bool)
    requires fs.Valid() && Guarded(fs.disk, fs.promise, g) && Allows(g, n) && !n.Temporary?
             && (fs.promise.Kept? ==> n != Csr)
    requires fs.promise != Anything && (n == Key || n == Csr) ==> Paired(Put(fs.disk, n, c))
    modifies fs
    ensures fs.Valid() && fs.Continues() && Guarded(fs.disk, fs.promise, g)
    ensures SameBut(old(fs.disk.files), fs.disk.files, n)
    ensures fs.disk.place == old(fs.disk.place) && fs.disk.places == old(fs.disk.places)
    ensures ok ==>
              Lookup(fs.disk.files, n) == Some(c) && fs.disk.shadow == map[]
              && fs.disk.files.Keys <= old(fs.disk.files.Keys) + {n}
    ensures !ok ==> Lookup(fs.disk.files, n) == old(Lookup(fs.disk.files, n)) || Lookup(fs.disk.files, n) == Some(c)
    ensures ok <==> n !in old(fs.disk.files) && fs.Quiet(part, old(fs.clock), fs.clock)
    ensures ok ==> fs.clock > old(fs.clock)
  {
    hide Keeps, Recorded, Requested, Settled, Guarded, Paired, Allows, SameBut, Put, Rename, Delete, SyncDirectory,
      Belongs;
    SameFiles(fs.disk.files, n);
    if n in fs.disk.files { return false; }
    var t: nat := *;
    WriteFacts(fs.disk, t, n, c);
    if fs.promise != Anything && (n == Key || n == Csr) { PairedIgnoresTemporary(fs.disk, t, n, c); }
    ok := fs.CreateTemporary(t, g, part);
    if !ok { return; }
    ok := fs.RenameTemporary(t, n, c, g, part);
    if !ok {
      AllowsTemporary(g, t);
      var _ := fs.Remove(Temporary(t), g, Working);
      return;
    }
    ok := fs.SyncStage(g, part);
  }

  /** The state after a synced removal, as far as other files are concerned. */
  lemma RemovalFacts(d: Disk, n: Name)
    ensures var d1 := Delete(d, n);
            && SameBut(d.files, d1.files, n) && n !in d1.files && d1.files.Keys <= d.files.Keys
            && SyncDirectory(d1).files == d1.files && SyncDirectory(d).files == d.files
               && SyncDirectory(d).shadow == map[]
            && d1.place == SyncDirectory(d1).place == SyncDirectory(d).place == d.place
            && d1.places == SyncDirectory(d1).places == SyncDirectory(d).places == d.places
  {
    hide Possible;
  }

  lemma SameButChains(files: Files, files1: Files, files2: Files, n: Name)
    requires SameBut(files, files1, n) && SameBut(files1, files2, n)
    ensures SameBut(files, files2, n)
  {
  }

  /** The resumable writer: keeps an equal file, replaces any other, and one it cannot read, after a synced removal. */
  method WriteResumable(fs: Filesystem, n: Name, c: Content, ghost g: Guard) returns (ok: bool)
    requires fs.Valid() && Guarded(fs.disk, fs.promise, g) && Allows(g, n) && !n.Temporary? && n != Key && n != Csr
    modifies fs
    ensures fs.Valid() && fs.Continues() && Guarded(fs.disk, fs.promise, g) && (fs.Faultless() ==> ok)
    ensures SameBut(old(fs.disk.files), fs.disk.files, n)
    ensures fs.disk.place == old(fs.disk.place) && fs.disk.places == old(fs.disk.places)
    ensures ok ==>
              Lookup(fs.disk.files, n) == Some(c) && fs.disk.shadow == map[]
              && fs.disk.files.Keys <= old(fs.disk.files.Keys) + {n}
  {
    hide Keeps, Recorded, Requested, Settled, Guarded, Allows, Belongs, Delete, SyncDirectory, SameBut;
    ghost var files := fs.disk.files;
    SameFiles(files, n);
    RemovalFacts(fs.disk, n);
    if n in fs.disk.files {
      if n !in fs.bad && fs.disk.files[n] == c {
        ok := fs.SyncStage(g, Working);
        return;
      }
      ok := fs.Remove(n, g, Working);
      if !ok { return; }
      ok := fs.SyncStage(g, Working);
      if !ok { return; }
    }
    ghost var cleared := fs.disk.files;
    ok := WriteAtomic(fs, n, c, g, Working);
    SameButChains(files, cleared, fs.disk.files, n);
  }

  /** Nothing but temporary files differs. */
  ghost predicate SameNamed(files: Files, files': Files) {
    forall x: Name :: !x.Temporary? ==> Lookup(files', x) == Lookup(files, x)
  }

  /** Removes what an interrupted writer left behind. */
  method CleanupTemporaries(fs: Filesystem, ghost g: Guard) returns (ok: bool)
    requires fs.Valid() && Guarded(fs.disk, fs.promise, g)
    modifies fs
    ensures fs.Valid() && fs.Continues() && Guarded(fs.disk, fs.promise, g) && (fs.Faultless() ==> ok)
    ensures SameNamed(old(fs.disk.files), fs.disk.files)
    ensures fs.disk.place == old(fs.disk.place) && fs.disk.places == old(fs.disk.places)
    ensures ok ==> forall x :: x in fs.disk.files ==> !x.Temporary?
    ensures ok && old(fs.disk.shadow) == map[] ==> fs.disk.shadow == map[]
  {
    hide Keeps, Recorded, Requested, Settled, Guarded, Paired, Allows, Belongs, Possible;
    var rest := set x | x in fs.disk.files && x.Temporary?;
    var removed := false;
    while rest != {}
      invariant fs.Valid() && fs.Continues() && Guarded(fs.disk, fs.promise, g)
      invariant SameNamed(old(fs.disk.files), fs.disk.files)
      invariant fs.disk.place == old(fs.disk.place) && fs.disk.places == old(fs.disk.places)
      invariant rest == set x | x in fs.disk.files && x.Temporary?
      invariant !removed ==> fs.disk == old(fs.disk)
      decreases |rest|
    {
      var x :| x in rest;
      AllowsTemporary(g, x.n);
      ok := fs.Remove(x, g, Working);
      if !ok { return; }
      removed := true;
      rest := rest - {x};
      assert rest == set x | x in fs.disk.files && x.Temporary?;
    }
    ok := true;
    if removed { ok := fs.SyncStage(g, Working); }
    forall x | x in fs.disk.files ensures !x.Temporary? { assert x !in rest; }
  }
}
