/** One removal attempt, and every sequence of interrupted attempts. */
module Attempt {
  import opened Names
  import opened Storage
  import opened Fingerprint
  import opened Review
  import opened Removal
  import opened Remove

  /** After `k` effects of the plan the removal is still pending, and the plan seen from here is
      the remainder. */
  ghost predicate At(sha: Digest, w0: World, id: Id, plan: seq<Effect>, k: nat, w: World) {
    && WellFormed(w) && k <= |plan| && w == ApplyAll(w0, plan[..k])
    && Pending(sha, w, id) && Rest(w, id) == plan[k..]
  }

  lemma AtStep(sha: Digest, w0: World, id: Id, plan: seq<Effect>, k: nat, w: World)
    requires At(sha, w0, id, plan, k, w)
    ensures k < |plan| && plan[k] == Rest(w, id)[0]
    ensures var w' := Apply(w, plan[k]);
            && WellFormed(w') && w' == ApplyAll(w0, plan[..k + 1])
            && (k + 1 < |plan| ==> At(sha, w0, id, plan, k + 1, w'))
            && (k + 1 == |plan| ==> Gone(w', id))
  {
    PendingStep(sha, w, id);
    AppliedStep(w0, plan, k);
    assert plan[k..][0] == plan[k] && plan[k..][1..] == plan[k + 1..];
  }

  lemma AtStart(sha: Digest, w: World, id: Id)
    requires WellFormed(w) && Pending(sha, w, id)
    ensures At(sha, w, id, Rest(w, id), 0, w)
  {
    assert Rest(w, id)[..0] == [] && Rest(w, id)[0..] == Rest(w, id);
  }

  lemma JournaledWorld(sha: Digest, w: World, w1: World, id: Id)
    requires WellFormed(w) && Fresh(w, id) && IsDigest(sha)
    requires w1 == Apply(w, WriteJournalTemp)
    ensures var w2 := Apply(w1, PersistJournal(JournalFor(sha, w, id)));
            WellFormed(w1) && WellFormed(w2) && Pending(sha, w2, id) && Rest(w2, id) == Rest(w, id)
  {
    ApplyKeepsWellFormed(w, WriteJournalTemp);
    assert Verified(w1, id) && JournalFor(sha, w1, id) == JournalFor(sha, w, id);
    JournalStep(sha, w1, id);
    PlanFrame(w, w1, id);
  }

  lemma PlanShape(sha: Digest, w: World, id: Id)
    requires WellFormed(w) && Fresh(w, id)
    ensures var plan := Plan(sha, w, id);
            && |plan| > 2 && plan[..0] == [] && plan[..1] == [WriteJournalTemp]
            && plan[..2] == [WriteJournalTemp, PersistJournal(JournalFor(sha, w, id))]
            && plan[2..] == Rest(w, id)
  {
    var plan := Plan(sha, w, id);
    assert plan == [WriteJournalTemp, PersistJournal(JournalFor(sha, w, id))] + Rest(w, id);
  }

  lemma AtJournaled(sha: Digest, w: World, id: Id)
    requires WellFormed(w) && Fresh(w, id) && IsDigest(sha)
    ensures |Plan(sha, w, id)| > 2
    ensures At(sha, w, id, Plan(sha, w, id), 2, Apply(Apply(w, WriteJournalTemp), PersistJournal(JournalFor(sha, w, id))))
  {
    PlanShape(sha, w, id);
    ApplyTwo(w, WriteJournalTemp, PersistJournal(JournalFor(sha, w, id)));
    JournaledWorld(sha, w, Apply(w, WriteJournalTemp), id);
  }

  lemma PlanFrame(w: World, w': World, id: Id)
    requires w.imports == w'.imports && w.receipts == w'.receipts
    ensures Rest(w, id) == Rest(w', id)
  {
  }

  /** A journal written from a complete review records every file as it is. */
  lemma ReviewedJournal(sha: Digest, w: World, id: Id, review: DirectoryReview, p: PreparedRemoval)
    requires WellFormed(w) && id in w.imports && id in w.receipts
    requires IsReview(sha, w.inodes, w.imports[id], id, review)
    requires JournalWrittenFor(w, id, review, p)
    ensures p.journal == JournalFor(sha, w, id)
  {
    var d := w.imports[id];
    var expected := JournalFor(sha, w, id);
    assert Allocated(w.inodes, d) && Describes(sha, w.inodes, d, review.files);
    hide Describes, JournalFiles, SumLen, ObjectInodes, WellFormed, IsReview;
    JournaledFiles(sha, w.inodes, d, review.files, p.journal.files);
    assert p.journal.files == expected.files;
  }

  lemma JournaledFiles(sha: Digest, inodes: map<nat, INode>, d: Dir, files: seq<ReviewedFile>, journal: map<string, FileIdentity>)
    requires Allocated(inodes, d) && Describes(sha, inodes, d, files) && JournalFiles(inodes, d, files, |files|, journal)
    ensures journal.Keys == d.entries.Keys
    ensures forall n | n in d.entries ::
              var node := inodes[d.entries[n]];
              journal[n] == FileIdentity(d.entries[n], |node.data|, node.mtime, sha(node.data))
  {
    JournaledNames(sha, inodes, d, files, journal);
    forall n | n in d.entries
      ensures var node := inodes[d.entries[n]];
              journal[n] == FileIdentity(d.entries[n], |node.data|, node.mtime, sha(node.data))
    {
      JournaledAs(sha, inodes, d, files, journal, n);
    }
    hide Describes, JournalFiles;
  }

  lemma JournaledNames(sha: Digest, inodes: map<nat, INode>, d: Dir, files: seq<ReviewedFile>, journal: map<string, FileIdentity>)
    requires Allocated(inodes, d) && Describes(sha, inodes, d, files) && JournalFiles(inodes, d, files, |files|, journal)
    ensures journal.Keys == d.entries.Keys
  {
    JournalListsAll(inodes, d, files, journal);
    hide JournalFiles, LexSorted, Elements, Describe;
  }

  lemma JournaledAs(sha: Digest, inodes: map<nat, INode>, d: Dir, files: seq<ReviewedFile>, journal: map<string, FileIdentity>, n: string)
    requires Allocated(inodes, d) && Describes(sha, inodes, d, files) && JournalFiles(inodes, d, files, |files|, journal)
    requires n in d.entries
    ensures var node := inodes[d.entries[n]];
            n in journal && journal[n] == FileIdentity(d.entries[n], |node.data|, node.mtime, sha(node.data))
  {
    hide LexSorted;
    assert n in Elements(Paths(files));
    var i :| 0 <= i < |files| && Paths(files)[i] == n;
    assert files[i] in files;
    assert JournalEntry(inodes, d, files[i], journal);
  }

  /** A complete review of a verified import can always be journaled, unless the journal
      directory is full. */
  lemma ReviewIsPreparable(sha: Digest, w: World, id: Id, review: DirectoryReview)
    requires WellFormed(w) && Fresh(w, id) && IsDigest(sha)
    requires IsReview(sha, w.inodes, w.imports[id], id, review)
    ensures Preparable(w, id, review) <==> JournalFits(w)
    ensures JournalFits(w) <==> |w.removals| + w.removalTemps <= 1023
  {
    assert |w.removals| == |w.removals.Keys|;
    var d := w.imports[id];
    forall i | 0 <= i < |review.files|
      ensures review.files[i].path in d.entries && ReviewedAs(w.inodes, d, review.files[i])
    {
      assert review.files[i] in review.files;
    }
    assert Distinct(Paths(review.files));
  }

  /** The removal may start: it is authorised, the caller reviewed exactly this state, and there
      is room for a journal if one is needed. */
  ghost predicate MayStart(sha: Digest, w: World, id: Id, fingerprint: Sha, authorized: bool)
    requires WellFormed(w)
  {
    authorized && ReviewSha(sha, w, id) == Some(fingerprint) && (Fresh(w, id) ==> JournalFits(w))
  }

  lemma AlteredStops(sha: Digest, w: World, id: Id, fingerprint: Sha, authorized: bool)
    requires WellFormed(w)
    ensures id in w.removals && id in w.imports && Altered(w.inodes, w.imports[id], w.removals[id].files) ==>
              !MayStart(sha, w, id, fingerprint, authorized)
  {
    if id in w.removals && id in w.imports {
      RecordedUnlessAltered(w.inodes, w.imports[id], w.removals[id].files);
      hide Altered, AllRecorded, Acceptable, ValidJournal;
    }
  }

  lemma FirstOfOrdered(names: set<string>)
    requires names != {}
    ensures Ordered(names) != [] && Ordered(names)[0] == First(names) && Ordered(names)[1..] == Ordered(names - {First(names)})
  {
  }

  /** The first `i` names are unlinked, after `m` effects in all, and the others follow in order. */
  ghost predicate AtFile(sha: Digest, w0: World, id: Id, plan: seq<Effect>, m: nat, q: seq<string>, i: nat, w: World) {
    && At(sha, w0, id, plan, m, w) && i <= |q|
    && id in w.imports && Ordered(w.imports[id].entries.Keys) == q[i..]
  }

  lemma NextName(names: set<string>, q: seq<string>, i: nat)
    requires i < |q| && Ordered(names) == q[i..]
    ensures names != {} && q[i] in names && q[i] == First(names) && Ordered(names - {q[i]}) == q[i + 1..]
  {
    assert q[i] in q[i..] && q[i..][0] == q[i] && q[i..][1..] == q[i + 1..];
    FirstOfOrdered(names);
  }

  lemma AtFileStep(sha: Digest, w0: World, id: Id, plan: seq<Effect>, m: nat, q: seq<string>, i: nat, w: World)
    requires AtFile(sha, w0, id, plan, m, q, i, w) && i < |q|
    ensures id in w.imports && q[i] in w.imports[id].entries && w.imports[id].entries[q[i]] in w.inodes
    ensures id in w.removals && q[i] in w.removals[id].files
    ensures Matches(w.removals[id].files[q[i]], w.imports[id].entries[q[i]], w.inodes[w.imports[id].entries[q[i]]])
    ensures AtFile(sha, w0, id, plan, m + 1, q, i + 1, Apply(w, Unlink(id, q[i])))
    ensures Apply(w, Unlink(id, q[i])).removals == w.removals
    ensures OpenDirectory(Apply(w, Unlink(id, q[i])), id) == OpenDirectory(w, id)
  {
    NextName(w.imports[id].entries.Keys, q, i);
    assert WellFormed(w) && Pending(sha, w, id) && At(sha, w0, id, plan, m, w) && |Rest(w, id)| == |plan| - m;
    UnlinkHandles(w, id, q[i]);
    hide *;
    NextFile(sha, w, id, q[i]);
    UnlinkStep(sha, w, id, q[i]);
    AtStep(sha, w0, id, plan, m, w);
    AtFileHolds(sha, w0, id, plan, m + 1, q, i + 1, Apply(w, Unlink(id, q[i])));
  }

  lemma UnlinkHandles(w: World, id: Id, name: string)
    ensures Apply(w, Unlink(id, name)).removals == w.removals
    ensures OpenDirectory(Apply(w, Unlink(id, name)), id) == OpenDirectory(w, id)
  {
  }

  lemma AtFileHolds(sha: Digest, w0: World, id: Id, plan: seq<Effect>, m: nat, q: seq<string>, i: nat, w: World)
    requires i <= |q| && At(sha, w0, id, plan, m, w)
    requires id in w.imports && Ordered(w.imports[id].entries.Keys) == q[i..]
    ensures AtFile(sha, w0, id, plan, m, q, i, w)
  {
  }

  lemma NextFile(sha: Digest, w: World, id: Id, name: string)
    requires WellFormed(w) && Pending(sha, w, id) && id in w.imports && name in w.imports[id].entries
    ensures |Rest(w, id)| > 1
    ensures w.imports[id].entries[name] in w.inodes && id in w.removals && name in w.removals[id].files
    ensures Matches(w.removals[id].files[name], w.imports[id].entries[name], w.inodes[w.imports[id].entries[name]])
  {
    assert FileRecorded(w.inodes, w.imports[id], w.removals[id].files, name);
  }

  lemma AtFileEnd(sha: Digest, w0: World, id: Id, plan: seq<Effect>, m: nat, q: seq<string>, w: World)
    requires AtFile(sha, w0, id, plan, m, q, |q|, w)
    ensures At(sha, w0, id, plan, m, w) && id in w.imports && w.imports[id].entries.Keys == {}
  {
    assert q[|q|..] == [];
  }

  /** Unlinks the files in order: each alias before its object. */
  method UnlinkFiles(disk: Disk, sha: Digest, id: Id, q: seq<string>, ghost w0: World, ghost plan: seq<Effect>, ghost k: nat)
    returns (r: Outcome)
    requires disk.Valid() && AtFile(sha, w0, id, plan, k, q, 0, disk.world)
    modifies disk
    ensures disk.Valid()
    ensures old(disk.fuel) >= |q| ==> r == Done && disk.fuel == old(disk.fuel) - |q|
    ensures old(disk.fuel) >= |q| ==> AtFile(sha, w0, id, plan, k + |q|, q, |q|, disk.world)
    ensures old(disk.fuel) < |q| ==> r == Stopped && disk.fuel == 0
    ensures old(disk.fuel) < |q| ==> AtFile(sha, w0, id, plan, k + old(disk.fuel), q, old(disk.fuel), disk.world)
    ensures disk.world.removals == old(disk.world.removals)
    ensures OpenDirectory(disk.world, id) == OpenDirectory(old(disk.world), id)
  {
    hide *;
    ghost var m := k;
    for i := 0 to |q|
      invariant disk.Valid() && m == k + i && AtFile(sha, w0, id, plan, m, q, i, disk.world)
      invariant disk.fuel == old(disk.fuel) - i
      invariant disk.world.removals == old(disk.world.removals)
      invariant OpenDirectory(disk.world, id) == OpenDirectory(old(disk.world), id)
    {
      AtFileStep(sha, w0, id, plan, m, q, i, disk.world);
      var ino := disk.world.imports[id].entries[q[i]];
      if !Matches(disk.world.removals[id].files[q[i]], ino, disk.world.inodes[ino]) {
        return Refused;
      }
      var alive := disk.Perform(Unlink(id, q[i]));
      if !alive {
        return Stopped;
      }
      m := m + 1;
    }
    r := Done;
  }

  // The end of an attempt, once the journal exists.

  /** An open removal at step `m`, with the pinned handles still describing it. */
  ghost predicate Open(sha: Digest, w0: World, id: Id, plan: seq<Effect>, m: nat, w: World, p: PreparedRemoval) {
    At(sha, w0, id, plan, m, w) && id in w.removals && p == Current(w, id)
  }

  lemma OpenIsIntact(sha: Digest, w0: World, id: Id, plan: seq<Effect>, m: nat, w: World, p: PreparedRemoval)
    requires Open(sha, w0, id, plan, m, w, p)
    ensures WellFormed(w) && Intact(w, p, id) && p.journal.receipt.id == id && m < |plan|
  {
    PendingStep(sha, w, id);
  }

  lemma DirectoryIsNext(sha: Digest, w0: World, id: Id, plan: seq<Effect>, m: nat, w: World)
    requires At(sha, w0, id, plan, m, w) && id in w.imports && w.imports[id].entries.Keys == {}
    ensures var w' := Apply(w, RemoveDirectory(id));
            m + 1 < |plan| && id in w'.removals && id !in w'.imports && WellFormed(w') && At(sha, w0, id, plan, m + 1, w')
            && w'.removals == w.removals
  {
    AtStep(sha, w0, id, plan, m, w);
    RemoveDirectoryStep(sha, w, id);
    assert |Rest(w, id)| > 1;
  }

  lemma ReceiptIsNext(sha: Digest, w0: World, id: Id, plan: seq<Effect>, m: nat, w: World)
    requires At(sha, w0, id, plan, m, w) && id !in w.imports && id in w.receipts
    ensures var w' := Apply(w, RemoveReceipt(id));
            m + 1 < |plan| && id in w'.removals && id !in w'.imports && id !in w'.receipts && WellFormed(w')
            && At(sha, w0, id, plan, m + 1, w') && w'.removals == w.removals
  {
    AtStep(sha, w0, id, plan, m, w);
    RemoveReceiptStep(sha, w, id);
    assert |Rest(w, id)| > 1;
  }

  lemma JournalIsLast(sha: Digest, w0: World, id: Id, plan: seq<Effect>, m: nat, w: World)
    requires At(sha, w0, id, plan, m, w) && id !in w.imports && id !in w.receipts
    ensures var w' := Apply(w, RemoveJournal(id));
            m + 1 == |plan| && WellFormed(w') && w' == ApplyAll(w0, plan) && Gone(w', id)
  {
    AtStep(sha, w0, id, plan, m, w);
    RemoveJournalStep(sha, w, id);
    assert plan[..m + 1] == plan;
  }

  lemma ReachedNow(sha: Digest, w0: World, id: Id, plan: seq<Effect>, m: nat, w: World, p: PreparedRemoval)
    requires Open(sha, w0, id, plan, m, w, p)
    ensures Reached(w0, plan, m, 0, w, 0, Stopped)
  {
    OpenIsIntact(sha, w0, id, plan, m, w, p);
  }

  /** The last effect ends the plan. */
  lemma JournalRetired(sha: Digest, w0: World, id: Id, plan: seq<Effect>, m: nat, w: World, fuel: nat)
    requires At(sha, w0, id, plan, m, w) && id !in w.imports && id !in w.receipts && fuel > 0
    ensures Reached(w0, plan, m, fuel, Apply(w, RemoveJournal(id)), fuel - 1, Done)
  {
    JournalIsLast(sha, w0, id, plan, m, w);
    hide At, Apply;
  }

  lemma OpenIsAt(sha: Digest, w0: World, id: Id, plan: seq<Effect>, m: nat, w: World, p: PreparedRemoval)
    requires Open(sha, w0, id, plan, m, w, p)
    ensures At(sha, w0, id, plan, m, w)
  {
  }

  /** Retires the journal, the last thing an attempt does. */
  method RetireJournal(disk: Disk, sha: Digest, id: Id, p: PreparedRemoval, ghost w0: World, ghost plan: seq<Effect>, ghost m: nat)
    returns (r: Outcome)
    requires disk.Valid() && Open(sha, w0, id, plan, m, disk.world, p)
    requires id !in disk.world.imports && id !in disk.world.receipts
    modifies disk
    ensures disk.Valid() && Reached(w0, plan, m, old(disk.fuel), disk.world, disk.fuel, r)
  {
    hide *;
    OpenIsAt(sha, w0, id, plan, m, disk.world, p);
    OpenIsIntact(sha, w0, id, plan, m, disk.world, p);
    ReachedNow(sha, w0, id, plan, m, disk.world, p);
    var ok := VerifyRemaining(disk.world, p, id);
    if !ok {
      return Refused;
    }
    if disk.fuel > 0 {
      JournalRetired(sha, w0, id, plan, m, disk.world, disk.fuel);
    }
    var alive := disk.Perform(RemoveJournal(id));
    r := if alive then Done else Stopped;
  }

  /** After the receipt the removal is still open, with only the journal left. */
  lemma ReceiptRetired(sha: Digest, w0: World, id: Id, plan: seq<Effect>, m: nat, w: World, p: PreparedRemoval)
    requires Open(sha, w0, id, plan, m, w, p) && id !in w.imports && id in w.receipts
    ensures var w' := Apply(w, RemoveReceipt(id));
            Open(sha, w0, id, plan, m + 1, w', p) && id !in w'.imports && id !in w'.receipts
  {
    OpenIsAt(sha, w0, id, plan, m, w, p);
    ReceiptIsNext(sha, w0, id, plan, m, w);
    hide At, Apply;
  }

  /** Retires the ownership receipt, if it is still there. */
  method RetireReceipt(disk: Disk, sha: Digest, id: Id, p: PreparedRemoval, ghost w0: World, ghost plan: seq<Effect>, ghost m: nat)
    returns (r: Outcome)
    requires disk.Valid() && Open(sha, w0, id, plan, m, disk.world, p)
    requires id !in disk.world.imports
    modifies disk
    ensures disk.Valid() && Reached(w0, plan, m, old(disk.fuel), disk.world, disk.fuel, r)
  {
    hide *;
    OpenIsIntact(sha, w0, id, plan, m, disk.world, p);
    var ok := VerifyRemaining(disk.world, p, id);
    if !ok {
      return Refused;
    }
    if id in disk.world.receipts {
      ReceiptRetired(sha, w0, id, plan, m, disk.world, p);
      ReachedNow(sha, w0, id, plan, m, disk.world, p);
      ghost var fuel := disk.fuel;
      var alive := disk.Perform(RemoveReceipt(id));
      if !alive {
        return Stopped;
      }
      r := RetireJournal(disk, sha, id, p, w0, plan, m + 1);
      ReachedFrom(w0, plan, m, fuel, 1, disk.world, disk.fuel, r);
    } else {
      r := RetireJournal(disk, sha, id, p, w0, plan, m);
    }
  }

  lemma OpenFiles(sha: Digest, w0: World, id: Id, plan: seq<Effect>, m: nat, w: World, p: PreparedRemoval, q: seq<string>)
    requires Open(sha, w0, id, plan, m, w, p) && id in w.imports && Ordered(w.imports[id].entries.Keys) == q
    ensures AtFile(sha, w0, id, plan, m, q, 0, w)
  {
    assert q[0..] == q;
  }

  lemma StillOpen(sha: Digest, w0: World, id: Id, plan: seq<Effect>, m: nat, w: World, m': nat, w': World, p: PreparedRemoval)
    requires Open(sha, w0, id, plan, m, w, p) && At(sha, w0, id, plan, m', w')
    requires w'.removals == w.removals && OpenDirectory(w', id) == OpenDirectory(w, id)
    ensures Open(sha, w0, id, plan, m', w', p)
  {
  }

  lemma StoppedInFiles(sha: Digest, w0: World, id: Id, plan: seq<Effect>, m: nat, fuel: nat, q: seq<string>, w: World)
    requires fuel < |q| && AtFile(sha, w0, id, plan, m + fuel, q, fuel, w)
    ensures Reached(w0, plan, m, fuel, w, 0, Stopped)
  {
    PendingStep(sha, w, id);
  }

  lemma WithoutDirectory(sha: Digest, w0: World, id: Id, plan: seq<Effect>, m: nat, w: World, p: PreparedRemoval, w': World)
    requires Open(sha, w0, id, plan, m, w, p) && At(sha, w0, id, plan, m + 1, w')
    requires w'.removals == w.removals && id !in w'.imports
    ensures Open(sha, w0, id, plan, m + 1, w', p.(directory := None))
  {
  }

  /** Everything an attempt does once the removal is prepared. */
  method RemoveAll(disk: Disk, sha: Digest, id: Id, p: PreparedRemoval, q: seq<string>, ghost w0: World, ghost plan: seq<Effect>, ghost m: nat)
    returns (r: Outcome)
    requires disk.Valid() && Open(sha, w0, id, plan, m, disk.world, p)
    requires p.directory.Some? ==> id in disk.world.imports && Ordered(disk.world.imports[id].entries.Keys) == q
    requires p.directory.None? ==> id !in disk.world.imports
    modifies disk
    ensures disk.Valid() && Reached(w0, plan, m, old(disk.fuel), disk.world, disk.fuel, r)
  {
    hide *;
    var prepared := p;
    ghost var fuel := disk.fuel;
    ghost var start := disk.world;
    ghost var done := 0;
    if prepared.directory.Some? {
      OpenFiles(sha, w0, id, plan, m, disk.world, p, q);
      r := UnlinkFiles(disk, sha, id, q, w0, plan, m);
      if r != Done {
        StoppedInFiles(sha, w0, id, plan, m, fuel, q, disk.world);
        return;
      }
      ghost var m' := m + |q|;
      AtFileEnd(sha, w0, id, plan, m', q, disk.world);
      StillOpen(sha, w0, id, plan, m, start, m', disk.world, p);
      OpenIsIntact(sha, w0, id, plan, m', disk.world, p);
      var ok := VerifyRemaining(disk.world, prepared, id);
      if !ok {
        return Refused;
      }
      DirectoryIsNext(sha, w0, id, plan, m', disk.world);
      ReachedNow(sha, w0, id, plan, m', disk.world, p);
      WithoutDirectory(sha, w0, id, plan, m', disk.world, p, Apply(disk.world, RemoveDirectory(id)));
      var alive := disk.Perform(RemoveDirectory(id));
      if !alive {
        ReachedFrom(w0, plan, m, fuel, |q|, disk.world, 0, Stopped);
        return Stopped;
      }
      prepared := prepared.(directory := None);
      done := |q| + 1;
    }
    r := RetireReceipt(disk, sha, id, prepared, w0, plan, m + done);
    ReachedFrom(w0, plan, m, fuel, done, disk.world, disk.fuel, r);
  }

  lemma OrderedReview(names: set<string>, files: seq<ReviewedFile>)
    requires LexSorted(Paths(files)) && Elements(Paths(files)) == names
    ensures AliasesFirst(Paths(files)) == Ordered(names)
  {
    PartitionIsUnlinkOrder(Paths(files));
  }

  /** A reviewed pending removal opens at the start of its own plan. */
  lemma PendingOpens(sha: Digest, w: World, id: Id, review: DirectoryReview)
    requires WellFormed(w) && id in w.removals && Pending(sha, w, id)
    requires Authorises(w, Current(w, id), id, review) && LexSorted(Paths(review.files))
    ensures Open(sha, w, id, Plan(sha, w, id), 0, w, Current(w, id))
    ensures id in w.imports ==> Ordered(w.imports[id].entries.Keys) == AliasesFirst(Paths(review.files))
  {
    AtStart(sha, w, id);
    if id in w.imports {
      OrderedReview(w.imports[id].entries.Keys, review.files);
    }
  }

  function Journaled(w: World, journal: Journal): World {
    Apply(Apply(w, WriteJournalTemp), PersistJournal(journal))
  }

  lemma JournaledFrame(w: World, id: Id, journal: Journal)
    requires journal.receipt.id == id
    ensures var w' := Journaled(w, journal);
            && w'.imports == w.imports && w'.inodes == w.inodes && w'.receipts == w.receipts
            && id in w'.removals && w'.removals[id] == journal
            && Current(w', id) == PreparedRemoval(OpenDirectory(w, id), journal)
  {
  }

  /** A newly journaled removal opens after the first two effects of its plan. */
  lemma JournaledOpens(sha: Digest, w: World, id: Id, review: DirectoryReview, p: PreparedRemoval)
    requires WellFormed(w) && Fresh(w, id) && IsDigest(sha)
    requires IsReview(sha, w.inodes, w.imports[id], id, review) && JournalWrittenFor(w, id, review, p)
    ensures var w' := Journaled(w, p.journal);
            && WellFormed(w') && Open(sha, w, id, Plan(sha, w, id), 2, w', p) && |Plan(sha, w, id)| > 2
            && id in w'.imports && Ordered(w'.imports[id].entries.Keys) == AliasesFirst(Paths(review.files))
  {
    assert id in w.imports && p == PreparedRemoval(OpenDirectory(w, id), p.journal) && p.journal.receipt.id == id;
    assert LexSorted(Paths(review.files)) && Elements(Paths(review.files)) == w.imports[id].entries.Keys;
    ReviewedJournal(sha, w, id, review, p);
    assert Journaled(w, p.journal) == Apply(Apply(w, WriteJournalTemp), PersistJournal(JournalFor(sha, w, id)));
    hide *;
    AtJournaled(sha, w, id);
    JournaledFrame(w, id, p.journal);
    OrderedReview(w.imports[id].entries.Keys, review.files);
    IsOpen(sha, w, id, Plan(sha, w, id), 2, Journaled(w, p.journal), p);
  }

  lemma IsOpen(sha: Digest, w0: World, id: Id, plan: seq<Effect>, m: nat, w: World, p: PreparedRemoval)
    requires At(sha, w0, id, plan, m, w) && id in w.removals && p == Current(w, id)
    ensures WellFormed(w) && Open(sha, w0, id, plan, m, w, p)
  {
  }

  /** An open removal accepts the review it was prepared from, since nothing it depends on has
      changed. */
  lemma JournaledReview(sha: Digest, w: World, id: Id, review: DirectoryReview, p: PreparedRemoval)
    requires WellFormed(w) && Fresh(w, id) && IsDigest(sha)
    requires IsReview(sha, w.inodes, w.imports[id], id, review) && JournalWrittenFor(w, id, review, p)
    ensures var w' := Journaled(w, p.journal);
            WellFormed(w') && Authorises(w', p, id, review)
  {
    var w' := Journaled(w, p.journal);
    assert id in w.imports && p == PreparedRemoval(OpenDirectory(w, id), p.journal) && p.journal.receipt.id == id;
    JournaledOpens(sha, w, id, review, p);
    assert Pending(sha, w', id);
    hide *;
    OpenIsIntact(sha, w, id, Plan(sha, w, id), 2, w', p);
    JournaledFrame(w, id, p.journal);
    OwnReviewAuthorises(sha, w', id, review);
  }

  lemma OrphanPlan(sha: Digest, w: World, id: Id)
    requires WellFormed(w) && Orphan(w, id)
    ensures Plan(sha, w, id) == [RemoveReceipt(id)] && Plan(sha, w, id)[..0] == []
    ensures ApplyAll(w, Plan(sha, w, id)) == Apply(w, RemoveReceipt(id))
    ensures !Fresh(w, id)
  {
    assert [RemoveReceipt(id)][1..] == [];
  }

  lemma StoppedWriting(sha: Digest, w: World, id: Id)
    requires WellFormed(w) && Fresh(w, id)
    ensures Reached(w, Plan(sha, w, id), 0, 0, w, 0, Stopped)
    ensures Reached(w, Plan(sha, w, id), 0, 1, Apply(w, WriteJournalTemp), 0, Stopped)
  {
    PlanShape(sha, w, id);
    ApplyTwo(w, WriteJournalTemp, WriteJournalTemp);
  }

  lemma OrphanReached(sha: Digest, w: World, id: Id, fuel: nat)
    requires WellFormed(w) && Orphan(w, id)
    ensures Reached(w, Plan(sha, w, id), 0, 0, w, 0, Stopped)
    ensures fuel > 0 ==> Reached(w, Plan(sha, w, id), 0, fuel, Apply(w, RemoveReceipt(id)), fuel - 1, Done)
  {
    OrphanPlan(sha, w, id);
  }

  /** One removal attempt. It does nothing at all unless it is authorised and the caller reviewed
      exactly this state; otherwise it performs its plan, up to the interruption. */
  method RemoveWith(disk: Disk, sha: Digest, id: Id, fingerprint: Sha, authorized: bool) returns (r: Outcome)
    requires disk.Valid() && IsDigest(sha)
    modifies disk
    ensures disk.Valid()
    ensures MayStart(sha, old(disk.world), id, fingerprint, authorized) ==>
              Reached(old(disk.world), Plan(sha, old(disk.world), id), 0, old(disk.fuel), disk.world, disk.fuel, r)
    ensures !MayStart(sha, old(disk.world), id, fingerprint, authorized) ==>
              r == Refused && disk.world == old(disk.world) && disk.fuel == old(disk.fuel)
    // A remaining file that was written to or replaced stops an interrupted removal.
    ensures var w := old(disk.world);
            id in w.removals && id in w.imports && Altered(w.inodes, w.imports[id], w.removals[id].files) ==>
              r == Refused && disk.world == w && disk.fuel == old(disk.fuel)
  {
    ghost var w0 := disk.world;
    ghost var fuel := disk.fuel;
    AlteredStops(sha, w0, id, fingerprint, authorized);
    var review := ReviewImport(sha, disk.world, id);
    if review.None? || review.value.sha != fingerprint || !authorized {
      return Refused;
    }
    var resumed := Resume(disk.world, id);
    if resumed.Err? {
      return Refused;
    }
    if resumed.value.None? && Orphan(disk.world, id) {
      OrphanReached(sha, w0, id, fuel);
      if OrphanReceipt(disk.world.receipts[id]) != fingerprint {
        return Refused;
      }
      var alive := disk.Perform(RemoveReceipt(id));
      return if alive then Done else Stopped;
    }
    r := RemoveReviewed(disk, sha, id, review.value);
  }

  /** What an attempt may start from after its review. */
  ghost predicate Reviewed(sha: Digest, w: World, id: Id, review: DirectoryReview)
    requires WellFormed(w)
  {
    && review.directory == id && LexSorted(Paths(review.files))
    && (id in w.removals ==> Pending(sha, w, id) && Authorises(w, Current(w, id), id, review))
    && (id !in w.removals ==> Fresh(w, id) && IsReview(sha, w.inodes, w.imports[id], id, review))
  }

  /** A prepared removal is open in its plan and still accepts the review. */
  lemma PreparedOpens(sha: Digest, w: World, id: Id, review: DirectoryReview, p: PreparedRemoval, w': World)
    requires WellFormed(w) && IsDigest(sha) && Reviewed(sha, w, id, review)
    requires id in w.removals ==> w' == w && p == Current(w, id)
    requires id !in w.removals ==> JournalWrittenFor(w, id, review, p) && w' == Journaled(w, p.journal)
    ensures var m := if id in w.removals then 0 else 2;
            && WellFormed(w') && Open(sha, w, id, Plan(sha, w, id), m, w', p)
            && Authorises(w', p, id, review) && p.journal.receipt.id == id
    ensures p.directory.Some? ==> id in w'.imports && Ordered(w'.imports[id].entries.Keys) == AliasesFirst(Paths(review.files))
    ensures p.directory.None? ==> id !in w'.imports
  {
    if id in w.removals {
      PendingOpens(sha, w, id, review);
    } else {
      JournaledOpens(sha, w, id, review, p);
      JournaledReview(sha, w, id, review, p);
    }
  }

  /** The attempt once the removal is prepared: check the review again, and remove. */
  method RemovePrepared(disk: Disk, sha: Digest, id: Id, review: DirectoryReview, p: PreparedRemoval,
                        ghost w0: World, ghost plan: seq<Effect>, ghost m: nat)
    returns (r: Outcome)
    requires disk.Valid() && Open(sha, w0, id, plan, m, disk.world, p)
    requires WellFormed(disk.world) && Authorises(disk.world, p, id, review) && p.journal.receipt.id == id
    requires p.directory.Some? ==> id in disk.world.imports
    requires p.directory.Some? ==> Ordered(disk.world.imports[id].entries.Keys) == AliasesFirst(Paths(review.files))
    requires p.directory.None? ==> id !in disk.world.imports
    modifies disk
    ensures disk.Valid() && Reached(w0, plan, m, old(disk.fuel), disk.world, disk.fuel, r)
  {
    hide *;
    var ok := VerifyReview(disk.world, p, id, review);
    if !ok {
      return Refused;
    }
    r := RemoveAll(disk, sha, id, p, AliasesFirst(Paths(review.files)), w0, plan, m);
  }

  /** What an attempt that passed its review may end with. */
  ghost predicate Attempted(sha: Digest, w: World, id: Id, fuel: nat, after: World, left: nat, r: Outcome)
    requires WellFormed(w)
  {
    if id in w.removals || JournalFits(w) then Reached(w, Plan(sha, w, id), 0, fuel, after, left, r)
    else r == Refused && after == w && left == fuel
  }

  lemma FitsIffPreparable(sha: Digest, w: World, id: Id, review: DirectoryReview)
    requires WellFormed(w) && IsDigest(sha) && Reviewed(sha, w, id, review)
    ensures id !in w.removals ==> (Preparable(w, id, review) <==> JournalFits(w))
    ensures id !in w.removals ==> Fresh(w, id)
  {
    if id !in w.removals {
      ReviewIsPreparable(sha, w, id, review);
    }
  }

  lemma NotPreparedEnds(sha: Digest, w: World, id: Id, review: DirectoryReview, fuel: nat)
    requires WellFormed(w) && IsDigest(sha) && Reviewed(sha, w, id, review)
    requires id !in w.removals && !Preparable(w, id, review)
    ensures Attempted(sha, w, id, fuel, w, fuel, Refused)
  {
    FitsIffPreparable(sha, w, id, review);
    hide Plan, Reviewed, Preparable, JournalFits, WellFormed, IsDigest, Reached;
  }

  lemma InterruptedEnds(sha: Digest, w: World, id: Id, review: DirectoryReview, fuel: nat, after: World)
    requires WellFormed(w) && IsDigest(sha) && Reviewed(sha, w, id, review)
    requires id !in w.removals && Preparable(w, id, review) && fuel < 2
    requires after == if fuel == 0 then w else Apply(w, WriteJournalTemp)
    ensures Attempted(sha, w, id, fuel, after, 0, Stopped)
  {
    FitsIffPreparable(sha, w, id, review);
    hide Plan, Reviewed, Preparable, JournalFits, WellFormed, IsDigest, Reached, Apply, Fresh;
    StoppedWriting(sha, w, id);
  }

  lemma PreparedEnds(sha: Digest, w: World, id: Id, review: DirectoryReview, m: nat, fuel: nat, after: World, left: nat, r: Outcome)
    requires WellFormed(w) && IsDigest(sha) && Reviewed(sha, w, id, review) && m <= fuel
    requires id in w.removals || Preparable(w, id, review)
    requires Reached(w, Plan(sha, w, id), m, fuel - m, after, left, r)
    ensures Attempted(sha, w, id, fuel, after, left, r)
  {
    hide Plan, Reviewed, Preparable, JournalFits, WellFormed, IsDigest, Reached;
    FitsIffPreparable(sha, w, id, review);
    ReachedFrom(w, Plan(sha, w, id), 0, fuel, m, after, left, r);
  }

  lemma ReviewedFacts(sha: Digest, w: World, id: Id, review: DirectoryReview)
    requires WellFormed(w) && Reviewed(sha, w, id, review)
    ensures review.directory == id
    ensures id in w.removals ==> Authorises(w, Current(w, id), id, review)
  {
  }

  /** The attempt after its review: prepare, check the review again, and remove. */
  method RemoveReviewed(disk: Disk, sha: Digest, id: Id, review: DirectoryReview) returns (r: Outcome)
    requires disk.Valid() && IsDigest(sha) && WellFormed(disk.world) && Reviewed(sha, disk.world, id, review)
    modifies disk
    ensures disk.Valid()
    ensures WellFormed(old(disk.world))
    ensures Attempted(sha, old(disk.world), id, old(disk.fuel), disk.world, disk.fuel, r)
  {
    hide *;
    ghost var w0 := disk.world;
    ghost var fuel := disk.fuel;
    ghost var plan := Plan(sha, w0, id);
    ReviewedFacts(sha, w0, id, review);
    var preparation := Prepare(disk, id, review);
    if preparation.NotPrepared? {
      NotPreparedEnds(sha, w0, id, review, fuel);
      return Refused;
    }
    if preparation.Interrupted? {
      InterruptedEnds(sha, w0, id, review, fuel, disk.world);
      return Stopped;
    }
    var p := preparation.removal;
    JournaledIs(w0, p.journal);
    PreparedOpens(sha, w0, id, review, p, disk.world);
    ghost var m := if id in w0.removals then 0 else 2;
    r := RemovePrepared(disk, sha, id, review, p, w0, plan, m);
    PreparedEnds(sha, w0, id, review, m, fuel, disk.world, disk.fuel, r);
  }

  lemma JournaledIs(w: World, journal: Journal)
    ensures Journaled(w, journal) == Apply(Apply(w, WriteJournalTemp), PersistJournal(journal))
  {
  }
}
