/** The journal of a removal: what it promises about the files that remain, and the plan of
    effects that finishes a removal from any point. */
module Removal {
  import opened Names
  import opened Storage
  import opened Fingerprint
  import opened Review

  const MAX_RECORDS: nat := 1023

  predicate Matches(f: FileIdentity, ino: nat, node: INode) {
    f.ino == ino && f.bytes == |node.data| && f.mtime == node.mtime
  }

  predicate ValidRecord(name: string, f: FileIdentity) {
    ValidName(name) && ValidHash(f.sha256) && f.bytes <= MAX_FILE
  }

  ghost predicate ValidJournal(j: Journal, id: Id) {
    && j.receipt.id == id
    && |j.files.Keys| <= MAX_NAMES
    && forall n {:trigger ValidRecord(n, j.files[n])} | n in j.files :: ValidRecord(n, j.files[n])
  }

  /** An open removal: the pinned import directory, if it still exists, and the journal. */
  datatype PreparedRemoval = PreparedRemoval(directory: Option<nat>, journal: Journal)

  function OpenDirectory(w: World, id: Id): Option<nat> {
    if id in w.imports then Some(w.imports[id].ino) else None
  }

  function Current(w: World, id: Id): PreparedRemoval
    requires id in w.removals
  {
    PreparedRemoval(OpenDirectory(w, id), w.removals[id])
  }

  ghost predicate FileRecorded(inodes: map<nat, INode>, d: Dir, files: map<string, FileIdentity>, n: string)
    requires n in d.entries && d.entries[n] in inodes
  {
    n in files && Matches(files[n], d.entries[n], inodes[d.entries[n]])
  }

  /** Every remaining file is the one the journal recorded. */
  ghost predicate AllRecorded(inodes: map<nat, INode>, d: Dir, files: map<string, FileIdentity>)
    requires Allocated(inodes, d)
  {
    forall n {:trigger FileRecorded(inodes, d, files, n)} | n in d.entries :: FileRecorded(inodes, d, files, n)
  }

  /** Receipt, directory and journal are still the ones the removal was prepared for. */
  predicate SameOwnership(w: World, p: PreparedRemoval, id: Id) {
    && w.importsIno == p.journal.receipt.importsIno
    && (id in w.receipts ==> w.receipts[id] == p.journal.receipt)
    && (p.directory.Some? ==> id in w.receipts)
    && p.directory == OpenDirectory(w, id)
    && (p.directory.Some? ==> p.directory.value == p.journal.receipt.dirIno)
  }

  /** What every check of an open removal demands. */
  ghost predicate Intact(w: World, p: PreparedRemoval, id: Id)
    requires WellFormed(w)
  {
    && SameOwnership(w, p, id)
    && (id in w.imports ==> Acceptable(w.inodes, w.imports[id]) && AllRecorded(w.inodes, w.imports[id], p.journal.files))
    && id in w.removals && w.removals[id] == p.journal
    && ValidJournal(p.journal, id)
  }

  ghost predicate SameFile(sha: Digest, inodes: map<nat, INode>, d: Dir, files: map<string, FileIdentity>, n: string)
    requires n in d.entries && d.entries[n] in inodes
  {
    n in files && files[n].sha256 == sha(inodes[d.entries[n]].data)
  }

  /** The remaining files still hold the bytes that were reviewed. */
  ghost predicate SameContent(sha: Digest, inodes: map<nat, INode>, d: Dir, files: map<string, FileIdentity>)
    requires Allocated(inodes, d)
  {
    forall n {:trigger SameFile(sha, inodes, d, files, n)} | n in d.entries :: SameFile(sha, inodes, d, files, n)
  }

  /** A journaled removal that can be continued. */
  ghost predicate Pending(sha: Digest, w: World, id: Id)
    requires WellFormed(w)
  {
    && id in w.removals && Intact(w, Current(w, id), id)
    && (id in w.imports ==> SameContent(sha, w.inodes, w.imports[id], w.removals[id].files))
  }

  // The plan.

  ghost function Unlinks(id: Id, q: seq<string>): (plan: seq<Effect>)
    ensures |plan| == |q| && forall i :: 0 <= i < |q| ==> plan[i] == Unlink(id, q[i])
  {
    if q == [] then [] else [Unlink(id, q[0])] + Unlinks(id, q[1..])
  }

  ghost function DirectoryPlan(w: World, id: Id): seq<Effect> {
    if id in w.imports then Unlinks(id, Ordered(w.imports[id].entries.Keys)) + [RemoveDirectory(id)] else []
  }

  ghost function ReceiptPlan(w: World, id: Id): seq<Effect> {
    if id in w.receipts then [RemoveReceipt(id)] else []
  }

  /** What is left to do once the journal exists. */
  ghost function Rest(w: World, id: Id): seq<Effect> {
    DirectoryPlan(w, id) + ReceiptPlan(w, id) + [RemoveJournal(id)]
  }

  function JournalFor(sha: Digest, w: World, id: Id): Journal
    requires id in w.receipts && id in w.imports && Allocated(w.inodes, w.imports[id])
  {
    var d := w.imports[id];
    Journal(w.receipts[id],
            map n | n in d.entries :: FileIdentity(d.entries[n], |w.inodes[d.entries[n]].data|,
                                                   w.inodes[d.entries[n]].mtime, sha(w.inodes[d.entries[n]].data)))
  }

  /** A removal that has not been journaled yet. */
  ghost predicate Fresh(w: World, id: Id) {
    id !in w.removals && Verified(w, id)
  }

  /** A receipt whose import was never published, or is gone without a journal. */
  predicate Orphan(w: World, id: Id) {
    id !in w.removals && id !in w.imports && id in w.receipts
  }

  ghost predicate JournalFits(w: World) {
    |w.removals.Keys| + w.removalTemps <= MAX_RECORDS
  }

  /** The effects by which a removal finishes from `w`. */
  ghost function Plan(sha: Digest, w: World, id: Id): seq<Effect>
    requires WellFormed(w)
  {
    if id in w.removals then Rest(w, id)
    else if Orphan(w, id) then [RemoveReceipt(id)]
    else if id in w.receipts && id in w.imports then
      var journal := JournalFor(sha, w, id);
      [WriteJournalTemp, PersistJournal(journal)] + Rest(w, id)
    else []
  }

  /** Nothing of the import is left. */
  predicate Gone(w: World, id: Id) {
    id !in w.imports && id !in w.receipts && id !in w.removals
  }

  // One effect of the plan at a time.

  lemma AcceptableAfterUnlink(inodes: map<nat, INode>, d: Dir, name: string, node: INode)
    requires Acceptable(inodes, d) && name in d.entries && IsFirst(name, d.entries.Keys)
    requires node.data == inodes[d.entries[name]].data
    ensures Acceptable(inodes[d.entries[name] := node], d.(entries := Without(d.entries, name)))
  {
    var ino := d.entries[name];
    var inodes' := inodes[ino := node];
    var d' := d.(entries := Without(d.entries, name));
    assert d'.entries.Keys == d.entries.Keys - {name};
    SubsetSize(d'.entries.Keys, d.entries.Keys);
    forall n | n in d'.entries ensures Owned(d', n) && ValidFile(inodes', n, d'.entries[n]) {
      assert Owned(d, n) && ValidFile(inodes, n, d.entries[n]);
      StemOfObject(n);
      assert Before(name, n);
      assert Stem(n) != name;
    }
    ObjectsAfterUnlink(inodes, d, name, node);
  }

  lemma ObjectsAfterUnlink(inodes: map<nat, INode>, d: Dir, name: string, node: INode)
    requires Acceptable(inodes, d) && name in d.entries
    requires node.data == inodes[d.entries[name]].data
    ensures var inodes' := inodes[d.entries[name] := node];
            var d' := d.(entries := Without(d.entries, name));
            && ObjectInodes(d') <= ObjectInodes(d) <= inodes'.Keys
            && |ObjectInodes(d')| <= MAX_OBJECTS && SumLen(inodes', ObjectInodes(d')) <= MAX_STORE
            && DistinctObjects(d') && Allocated(inodes', d')
  {
    var inodes' := inodes[d.entries[name] := node];
    var d' := d.(entries := Without(d.entries, name));
    SubsetSize(ObjectInodes(d'), ObjectInodes(d));
    assert ObjectInodes(d) <= inodes.Keys;
    SumLenMonotone(inodes, ObjectInodes(d'), ObjectInodes(d));
    SumLenFrame(inodes, inodes', ObjectInodes(d'));
  }

  lemma UnlinkKeepsRecords(sha: Digest, inodes: map<nat, INode>, d: Dir, files: map<string, FileIdentity>, name: string, node: INode)
    requires Allocated(inodes, d) && name in d.entries
    requires AllRecorded(inodes, d, files) && SameContent(sha, inodes, d, files)
    requires node.data == inodes[d.entries[name]].data && node.mtime == inodes[d.entries[name]].mtime
    ensures var inodes' := inodes[d.entries[name] := node];
            var d' := d.(entries := Without(d.entries, name));
            Allocated(inodes', d') && AllRecorded(inodes', d', files) && SameContent(sha, inodes', d', files)
  {
    var inodes' := inodes[d.entries[name] := node];
    var d' := d.(entries := Without(d.entries, name));
    forall n | n in d'.entries ensures FileRecorded(inodes', d', files, n) && SameFile(sha, inodes', d', files, n) {
      assert FileRecorded(inodes, d, files, n) && SameFile(sha, inodes, d, files, n);
    }
  }

  /** The state after unlinking `name` from the import. */
  lemma UnlinkEffect(w: World, id: Id, name: string)
    requires WellFormed(w) && id in w.imports && name in w.imports[id].entries
    ensures var w' := Apply(w, Unlink(id, name));
            var d := w.imports[id];
            var last := w.inodes[d.entries[name]];
            var node := last.(nlink := last.nlink - 1, ctime := w.clock);
            && WellFormed(w') && w'.imports.Keys == w.imports.Keys
            && w'.imports[id] == d.(entries := Without(d.entries, name))
            && w'.imports[id].entries.Keys == d.entries.Keys - {name}
            && w'.inodes == w.inodes[d.entries[name] := node]
            && w'.receipts == w.receipts && w'.removals == w.removals && w'.importsIno == w.importsIno
  {
    ApplyKeepsWellFormed(w, Unlink(id, name));
  }

  lemma PendingCarries(sha: Digest, w: World, w': World, id: Id)
    requires WellFormed(w) && WellFormed(w') && Pending(sha, w, id) && id in w.imports && id in w'.imports
    requires w'.imports[id].ino == w.imports[id].ino
    requires w'.receipts == w.receipts && w'.removals == w.removals && w'.importsIno == w.importsIno
    requires Acceptable(w'.inodes, w'.imports[id])
    requires AllRecorded(w'.inodes, w'.imports[id], w.removals[id].files)
    requires SameContent(sha, w'.inodes, w'.imports[id], w.removals[id].files)
    ensures Pending(sha, w', id)
  {
  }

  /** Because only the change time and the link count of the unlinked inode move, the identities
      recorded for the surviving names stay valid. */
  lemma UnlinkKeepsPending(sha: Digest, w: World, w': World, id: Id, name: string, node: INode)
    requires WellFormed(w) && WellFormed(w') && Pending(sha, w, id)
    requires id in w.imports && id in w'.imports && IsFirst(name, w.imports[id].entries.Keys)
    requires w'.imports[id] == w.imports[id].(entries := Without(w.imports[id].entries, name))
    requires w'.inodes == w.inodes[w.imports[id].entries[name] := node]
    requires node.data == w.inodes[w.imports[id].entries[name]].data && node.mtime == w.inodes[w.imports[id].entries[name]].mtime
    requires w'.receipts == w.receipts && w'.removals == w.removals && w'.importsIno == w.importsIno
    ensures Pending(sha, w', id)
  {
    AcceptableAfterUnlink(w.inodes, w.imports[id], name, node);
    UnlinkKeepsRecords(sha, w.inodes, w.imports[id], w.removals[id].files, name, node);
    PendingCarries(sha, w, w', id);
  }

  lemma PrependAll<T>(x: T, a: seq<T>, b: seq<T>, c: seq<T>, d: seq<T>)
    ensures ([x] + a) + b + c + d == [x] + (a + b + c + d)
    ensures (([x] + a) + b + c + d)[1..] == a + b + c + d
  {
  }

  lemma UnlinkPlan(w: World, id: Id, w': World, name: string)
    requires id in w.imports && w.imports[id].entries.Keys != {} && name == First(w.imports[id].entries.Keys)
    requires id in w'.imports && w'.imports[id].entries.Keys == w.imports[id].entries.Keys - {name}
    requires w'.receipts == w.receipts
    ensures Rest(w, id)[0] == Unlink(id, name) && Rest(w', id) == Rest(w, id)[1..]
  {
    var names := w.imports[id].entries.Keys;
    var tail := Unlinks(id, Ordered(names - {name}));
    assert Unlinks(id, Ordered(names)) == [Unlink(id, name)] + tail;
    PrependAll(Unlink(id, name), tail, [RemoveDirectory(id)], ReceiptPlan(w, id), [RemoveJournal(id)]);
  }

  /** Unlinking the next name keeps the removal continuable, and leaves the rest of the plan. */
  lemma UnlinkStep(sha: Digest, w: World, id: Id, name: string)
    requires WellFormed(w) && Pending(sha, w, id)
    requires id in w.imports && w.imports[id].entries.Keys != {} && name == First(w.imports[id].entries.Keys)
    ensures var w' := Apply(w, Unlink(id, name));
            WellFormed(w') && Pending(sha, w', id)
            && id in w'.imports && w'.imports[id].entries.Keys == w.imports[id].entries.Keys - {name}
            && Rest(w, id)[0] == Unlink(id, name) && Rest(w', id) == Rest(w, id)[1..]
  {
    UnlinkEffect(w, id, name);
    var last := w.inodes[w.imports[id].entries[name]];
    UnlinkKeepsPending(sha, w, Apply(w, Unlink(id, name)), id, name, last.(nlink := last.nlink - 1, ctime := w.clock));
    UnlinkPlan(w, id, Apply(w, Unlink(id, name)), name);
  }

  lemma RemoveDirectoryStep(sha: Digest, w: World, id: Id)
    requires WellFormed(w) && Pending(sha, w, id) && id in w.imports && w.imports[id].entries.Keys == {}
    ensures var w' := Apply(w, RemoveDirectory(id));
            WellFormed(w') && Pending(sha, w', id) && id !in w'.imports
            && Rest(w, id)[0] == RemoveDirectory(id) && Rest(w', id) == Rest(w, id)[1..]
  {
    var w' := Apply(w, RemoveDirectory(id));
    assert w.imports[id].entries == map[];
    ApplyKeepsWellFormed(w, RemoveDirectory(id));
    assert DirectoryPlan(w, id) == [RemoveDirectory(id)];
    assert DirectoryPlan(w', id) == [];
    assert Rest(w, id) == [RemoveDirectory(id)] + Rest(w', id);
  }

  lemma RemoveReceiptStep(sha: Digest, w: World, id: Id)
    requires WellFormed(w) && Pending(sha, w, id) && id !in w.imports && id in w.receipts
    ensures var w' := Apply(w, RemoveReceipt(id));
            WellFormed(w') && Pending(sha, w', id) && id !in w'.imports && id !in w'.receipts
            && Rest(w, id)[0] == RemoveReceipt(id) && Rest(w', id) == Rest(w, id)[1..]
  {
    var w' := Apply(w, RemoveReceipt(id));
    ApplyKeepsWellFormed(w, RemoveReceipt(id));
    assert Rest(w, id) == [RemoveReceipt(id)] + Rest(w', id);
  }

  lemma RemoveJournalStep(sha: Digest, w: World, id: Id)
    requires WellFormed(w) && Pending(sha, w, id) && id !in w.imports && id !in w.receipts
    ensures Rest(w, id) == [RemoveJournal(id)]
    ensures WellFormed(Apply(w, RemoveJournal(id))) && Gone(Apply(w, RemoveJournal(id)), id)
  {
    ApplyKeepsWellFormed(w, RemoveJournal(id));
  }

  /** Any one effect of a pending removal leaves a pending removal whose plan is exactly what
      was left, and the last effect leaves nothing. */
  lemma PendingStep(sha: Digest, w: World, id: Id)
    requires WellFormed(w) && Pending(sha, w, id)
    ensures Rest(w, id) != [] && WellFormed(Apply(w, Rest(w, id)[0]))
    ensures |Rest(w, id)| == 1 ==> Gone(Apply(w, Rest(w, id)[0]), id)
    ensures |Rest(w, id)| > 1 ==>
              var w' := Apply(w, Rest(w, id)[0]);
              Pending(sha, w', id) && Rest(w', id) == Rest(w, id)[1..]
  {
    if id in w.imports {
      if w.imports[id].entries.Keys != {} {
        UnlinkStep(sha, w, id, First(w.imports[id].entries.Keys));
      } else {
        RemoveDirectoryStep(sha, w, id);
      }
    } else if id in w.receipts {
      RemoveReceiptStep(sha, w, id);
    } else {
      RemoveJournalStep(sha, w, id);
    }
  }

  lemma JournalStep(sha: Digest, w: World, id: Id)
    requires WellFormed(w) && Fresh(w, id) && IsDigest(sha)
    ensures Verified(w, id) && WellFormed(w)
    ensures var w' := Apply(w, PersistJournal(JournalFor(sha, w, id)));
            WellFormed(w') && Pending(sha, w', id) && Rest(w', id) == Rest(w, id)
  {
    var journal := JournalFor(sha, w, id);
    var w' := Apply(w, PersistJournal(journal));
    ApplyKeepsWellFormed(w, PersistJournal(journal));
    var d := w.imports[id];
    assert journal.files.Keys == d.entries.Keys;
    forall n | n in d.entries
      ensures ValidRecord(n, journal.files[n]) && FileRecorded(w.inodes, d, journal.files, n) && SameFile(sha, w.inodes, d, journal.files, n)
    {
      assert ValidFile(w.inodes, n, d.entries[n]);
    }
  }
}
