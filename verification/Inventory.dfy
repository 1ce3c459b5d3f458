/** The storage inventory: its limits, what it reports, and when the store lets it finish. */
module Inventory {
  import opened Names
  import opened Storage
  import opened Fingerprint
  import opened Quota
  import opened Review
  import opened Removal
  import opened Remove
  import opened Store
  import Publication
  import PublicationRuns
  import RemovalRuns

  datatype Entry = Entry(bytes: nat, verified: bool)

  ghost predicate ListedImport(w: World, id: Id, e: Entry)
    requires WellFormed(w) && id in w.imports
  {
    assert FileInodes(w.imports[id]) <= w.inodes.Keys;
    e.bytes == SumLen(w.inodes, FileInodes(w.imports[id])) && (e.verified <==> Verified(w, id))
  }

  ghost predicate ImportsListed(w: World, done: set<Id>, entries: map<Id, Entry>, files: nat)
    requires WellFormed(w)
  {
    && done <= w.imports.Keys && entries.Keys == done && files == |NamesIn(w.imports, done)|
    && forall id | id in done :: ListedImport(w, id, entries[id])
  }

  /** Counts the files of one import and adds up their sizes, each inode once. */
  method CountFiles(inodes: map<nat, INode>, d: Dir, files: nat) returns (fits: bool, files': nat, bytes: nat)
    requires Allocated(inodes, d) && FileInodes(d) <= inodes.Keys && files <= MAX_ENTRIES
    ensures fits <==> files + |d.entries.Keys| <= MAX_ENTRIES
    ensures fits ==> files' == files + |d.entries.Keys| && bytes == SumLen(inodes, FileInodes(d))
  {
    var c := Count({}, files, 0);
    ghost var before := c;
    var remaining := d.entries.Keys;
    ghost var done: set<string> := {};
    Quota.ReadNone(inodes, d, before);
    while remaining != {}
      invariant Quota.Reading(inodes, d, before, done, remaining, c)
      invariant c.entries <= MAX_ENTRIES
      decreases remaining
    {
      var name :| name in remaining;
      Quota.ReadOne(inodes, d, before, done, remaining, c, name);
      c := CountOne(inodes, c, d.entries[name]);
      remaining := remaining - {name};
      done := done + {name};
      PartOfAfter(inodes, d, before, done, remaining, c);
      if c.entries > MAX_ENTRIES {
        return false, 0, 0;
      }
    }
    PartOfAfter(inodes, d, before, done, remaining, c);
    assert {} + FileInodes(d) == FileInodes(d);
    return true, c.entries, c.bytes;
  }

  ghost predicate ImportLimits(w: World) {
    |w.imports.Keys| <= MAX_IMPORTS && |NamesIn(w.imports, w.imports.Keys)| <= MAX_ENTRIES
  }

  lemma ListImport(w: World, done: set<Id>, entries: map<Id, Entry>, files: nat, id: Id, e: Entry)
    requires WellFormed(w) && ImportsListed(w, done, entries, files) && id in w.imports && id !in done
    requires ListedImport(w, id, e)
    ensures ImportsListed(w, done + {id}, entries[id := e], files + |w.imports[id].entries.Keys|)
  {
    hide WellFormed, ListedImport, NamesIn;
    NamesAdd(w.imports, done, id);
  }

  /** The imports listed so far, within the limits. */
  ghost predicate ListingImports(w: World, done: set<Id>, remaining: set<Id>, entries: map<Id, Entry>, files: nat)
    requires WellFormed(w)
  {
    && ImportsListed(w, done, entries, files) && remaining == w.imports.Keys - done
    && |entries| <= MAX_IMPORTS && files <= MAX_ENTRIES
  }

  lemma TooManyListed(w: World, done: set<Id>, remaining: set<Id>, entries: map<Id, Entry>, files: nat, id: Id)
    requires WellFormed(w) && ListingImports(w, done, remaining, entries, files) && id in remaining
    ensures id in w.imports && Allocated(w.inodes, w.imports[id]) && FileInodes(w.imports[id]) <= w.inodes.Keys && files <= MAX_ENTRIES
    ensures |entries| >= MAX_IMPORTS || files + |w.imports[id].entries.Keys| > MAX_ENTRIES ==> !ImportLimits(w)
  {
    hide ListedImport;
    NamesAdd(w.imports, done, id);
    SubsetSize(done + {id}, w.imports.Keys);
    assert NamesIn(w.imports, done + {id}) <= NamesIn(w.imports, w.imports.Keys);
    SubsetSize(NamesIn(w.imports, done + {id}), NamesIn(w.imports, w.imports.Keys));
    assert |entries| == |entries.Keys|;
  }

  lemma ListNext(w: World, done: set<Id>, remaining: set<Id>, entries: map<Id, Entry>, files: nat, id: Id, e: Entry)
    requires WellFormed(w) && ListingImports(w, done, remaining, entries, files) && id in remaining && id in w.imports
    requires |entries| < MAX_IMPORTS && files + |w.imports[id].entries.Keys| <= MAX_ENTRIES
    requires ListedImport(w, id, e)
    ensures ListingImports(w, done + {id}, remaining - {id}, entries[id := e], files + |w.imports[id].entries.Keys|)
  {
    hide ListedImport, ImportsListed, WellFormed;
    assert id !in done && ImportsListed(w, done, entries, files);
    ListImport(w, done, entries, files, id, e);
    MapInsert(entries, id, e);
  }

  lemma ListedAllImports(w: World, done: set<Id>, entries: map<Id, Entry>, files: nat)
    requires WellFormed(w) && ListingImports(w, done, {}, entries, files)
    ensures ImportsListed(w, w.imports.Keys, entries, |NamesIn(w.imports, w.imports.Keys)|) && ImportLimits(w)
  {
    hide ListedImport, WellFormed, NamesIn;
    AllDone(w.imports.Keys, done);
    assert |entries| == |entries.Keys|;
  }

  lemma NoImports(w: World)
    requires WellFormed(w)
    ensures ListingImports(w, {}, w.imports.Keys, map[], 0)
  {
    assert NamesIn(w.imports, {}) == {};
  }

  method ListImports(w: World) returns (ok: bool, entries: map<Id, Entry>)
    requires WellFormed(w)
    ensures ok <==> ImportLimits(w)
    ensures ok ==> ImportsListed(w, w.imports.Keys, entries, |NamesIn(w.imports, w.imports.Keys)|)
  {
    hide *;
    entries := map[];
    var files: nat := 0;
    var remaining := w.imports.Keys;
    ghost var done: set<Id> := {};
    NoImports(w);
    while remaining != {}
      invariant ListingImports(w, done, remaining, entries, files)
      decreases remaining
    {
      var id :| id in remaining;
      TooManyListed(w, done, remaining, entries, files, id);
      if |entries| >= MAX_IMPORTS {
        return false, entries;
      }
      var fits, files', bytes := CountFiles(w.inodes, w.imports[id], files);
      if !fits {
        return false, entries;
      }
      var verified := Verify(w, id);
      ListedAs(w, id, Entry(bytes, verified == Ok(true)));
      ListNext(w, done, remaining, entries, files, id, Entry(bytes, verified == Ok(true)));
      entries := entries[id := Entry(bytes, verified == Ok(true))];
      files := files';
      remaining := remaining - {id};
      done := done + {id};
    }
    ListedAllImports(w, done, entries, files);
    ok := true;
  }

  lemma ListedAs(w: World, id: Id, e: Entry)
    requires WellFormed(w) && id in w.imports && FileInodes(w.imports[id]) <= w.inodes.Keys
    ensures e.bytes == SumLen(w.inodes, FileInodes(w.imports[id])) && (e.verified <==> Verified(w, id)) ==> ListedImport(w, id, e)
  {
  }

  /** The row of an id after the receipts are listed. */
  function ReceiptRow(w: World, imported: map<Id, Entry>, id: Id): Entry {
    if id in imported then imported[id] else Entry(0, Orphan(w, id))
  }

  ghost predicate ReceiptsListed(w: World, imported: map<Id, Entry>, done: set<Id>, entries: map<Id, Entry>)
  {
    && done <= w.receipts.Keys && entries.Keys == imported.Keys + done
    && forall id | id in entries :: entries[id] == ReceiptRow(w, imported, id)
  }

  ghost predicate ReceiptsFit(w: World, imported: set<Id>) {
    |w.receipts.Keys| <= 2048 && |imported + w.receipts.Keys| <= MAX_IMPORTS
  }

  lemma UnionTooLarge(base: set<Id>, all: set<Id>, done: set<Id>, id: Id)
    requires done <= all && id in all && id !in base && id !in done && |base + done| >= MAX_IMPORTS
    ensures |base + all| > MAX_IMPORTS
  {
    assert (base + done) + {id} <= base + all;
    SubsetSize((base + done) + {id}, base + all);
  }

  /** The receipts listed so far, within the limits. */
  ghost predicate ListingReceipts(w: World, imported: map<Id, Entry>, done: set<Id>, remaining: set<Id>, entries: map<Id, Entry>, index: nat)
  {
    && ReceiptsListed(w, imported, done, entries) && remaining == w.receipts.Keys - done
    && index == |done| && index <= 2048 && |entries| <= MAX_IMPORTS
  }

  lemma SkipReceipt(w: World, imported: map<Id, Entry>, done: set<Id>, entries: map<Id, Entry>, id: Id)
    requires ReceiptsListed(w, imported, done, entries) && id in w.receipts && id in imported
    ensures ReceiptsListed(w, imported, done + {id}, entries)
  {
    hide ReceiptRow;
    assert imported.Keys + done == imported.Keys + (done + {id});
  }

  lemma AddReceipt(w: World, imported: map<Id, Entry>, done: set<Id>, entries: map<Id, Entry>, id: Id)
    requires ReceiptsListed(w, imported, done, entries) && id in w.receipts && id !in done && id !in imported
    ensures id !in entries && ReceiptsListed(w, imported, done + {id}, entries[id := Entry(0, Orphan(w, id))])
  {
    assert ReceiptRow(w, imported, id) == Entry(0, Orphan(w, id));
    hide ReceiptRow, Orphan;
    assert entries[id := Entry(0, Orphan(w, id))].Keys == imported.Keys + (done + {id});
  }

  lemma ReceiptLimits(w: World, imported: map<Id, Entry>, done: set<Id>, remaining: set<Id>, entries: map<Id, Entry>, index: nat, id: Id)
    requires ListingReceipts(w, imported, done, remaining, entries, index) && id in remaining
    ensures |done + {id}| == index + 1 && id in w.receipts && id !in done
    ensures remaining - {id} == w.receipts.Keys - (done + {id})
    ensures index >= 2048 || (id !in imported && |entries| >= MAX_IMPORTS) ==> !ReceiptsFit(w, imported.Keys)
  {
    hide Orphan;
    assert |done + {id}| == index + 1;
    SubsetSize(done + {id}, w.receipts.Keys);
    assert |entries| == |entries.Keys|;
    if id !in imported && |entries| >= MAX_IMPORTS {
      UnionTooLarge(imported.Keys, w.receipts.Keys, done, id);
    }
  }

  lemma ListingReceiptsIs(w: World, imported: map<Id, Entry>, done: set<Id>, remaining: set<Id>, entries: map<Id, Entry>, index: nat)
    ensures ListingReceipts(w, imported, done, remaining, entries, index) <==>
              ReceiptsListed(w, imported, done, entries) && remaining == w.receipts.Keys - done
              && index == |done| && index <= 2048 && |entries| <= MAX_IMPORTS
  {
  }

  lemma ListReceipt(w: World, imported: map<Id, Entry>, done: set<Id>, remaining: set<Id>, entries: map<Id, Entry>, index: nat, id: Id)
    requires ListingReceipts(w, imported, done, remaining, entries, index) && id in remaining
    ensures index < 2048 && id in imported ==> ListingReceipts(w, imported, done + {id}, remaining - {id}, entries, index + 1)
    ensures index < 2048 && id !in imported && |entries| < MAX_IMPORTS ==>
              ListingReceipts(w, imported, done + {id}, remaining - {id}, entries[id := Entry(0, Orphan(w, id))], index + 1)
    ensures index >= 2048 || (id !in imported && |entries| >= MAX_IMPORTS) ==> !ReceiptsFit(w, imported.Keys)
  {
    hide *;
    ReceiptLimits(w, imported, done, remaining, entries, index, id);
    ListingReceiptsIs(w, imported, done, remaining, entries, index);
    if id in imported {
      SkipReceipt(w, imported, done, entries, id);
      ListingReceiptsIs(w, imported, done + {id}, remaining - {id}, entries, index + 1);
    } else {
      AddReceipt(w, imported, done, entries, id);
      MapInsert(entries, id, Entry(0, Orphan(w, id)));
      ListingReceiptsIs(w, imported, done + {id}, remaining - {id}, entries[id := Entry(0, Orphan(w, id))], index + 1);
    }
  }

  lemma ListedReceipts(w: World, imported: map<Id, Entry>, done: set<Id>, entries: map<Id, Entry>, index: nat)
    requires ListingReceipts(w, imported, done, {}, entries, index)
    ensures ReceiptsListed(w, imported, w.receipts.Keys, entries)
    ensures ReceiptsFit(w, imported.Keys)
  {
    AllDone(w.receipts.Keys, done);
    assert |entries| == |entries.Keys|;
  }

  lemma NoReceipts(w: World, imported: map<Id, Entry>)
    requires |imported| <= MAX_IMPORTS
    ensures ListingReceipts(w, imported, {}, w.receipts.Keys, imported, 0)
  {
  }

  /** Lists the receipts without a published directory. A file that is not a receipt, such as the
      remainder of an interrupted write, is an error. */
  method ListReceipts(w: World, imported: map<Id, Entry>) returns (ok: bool, entries: map<Id, Entry>)
    requires |imported| <= MAX_IMPORTS
    ensures ok <==> w.receiptTemps == 0 && ReceiptsFit(w, imported.Keys)
    ensures ok ==> ReceiptsListed(w, imported, w.receipts.Keys, entries)
  {
    hide *;
    entries := imported;
    var remaining := w.receipts.Keys;
    ghost var done: set<Id> := {};
    var index: nat := 0;
    NoReceipts(w, imported);
    while remaining != {}
      invariant ListingReceipts(w, imported, done, remaining, entries, index)
      decreases remaining
    {
      var id :| id in remaining;
      ListReceipt(w, imported, done, remaining, entries, index, id);
      if index >= 2048 {
        return false, entries;
      }
      if id !in imported {
        if |entries| >= MAX_IMPORTS {
          return false, entries;
        }
        entries := entries[id := Entry(0, Orphan(w, id))];
      }
      remaining := remaining - {id};
      done := done + {id};
      index := index + 1;
    }
    ListedReceipts(w, imported, done, entries, index);
    ok := w.receiptTemps == 0;
  }

  lemma AllDone(all: set<Id>, done: set<Id>)
    requires done <= all && all - done == {}
    ensures done == all
  {
    forall id | id in all ensures id in done {
      assert id !in all - done;
    }
  }

  /** The row of an id after the journals in `done` are listed. */
  ghost function RemovalRow(w: World, listed: map<Id, Entry>, done: set<Id>, id: Id): Entry
    requires WellFormed(w) && done <= w.removals.Keys && id in listed.Keys + done
  {
    Entry(if id in listed then listed[id].bytes else 0, if id in done then Intact(w, Current(w, id), id) else listed[id].verified)
  }

  ghost predicate RemovalsListed(w: World, listed: map<Id, Entry>, done: set<Id>, entries: map<Id, Entry>)
    requires WellFormed(w)
  {
    && done <= w.removals.Keys && entries.Keys == listed.Keys + done
    && forall id | id in entries :: entries[id] == RemovalRow(w, listed, done, id)
  }

  ghost predicate ListingRemovals(w: World, listed: map<Id, Entry>, done: set<Id>, remaining: set<Id>, entries: map<Id, Entry>)
    requires WellFormed(w)
  {
    RemovalsListed(w, listed, done, entries) && remaining == w.removals.Keys - done && |entries| <= MAX_IMPORTS
  }

  lemma RowElsewhere(w: World, listed: map<Id, Entry>, done: set<Id>, id: Id, other: Id)
    requires WellFormed(w) && done + {id} <= w.removals.Keys && other in listed.Keys + done && other != id
    ensures RemovalRow(w, listed, done + {id}, other) == RemovalRow(w, listed, done, other)
  {
    hide Intact, WellFormed, Current;
  }

  lemma RowHere(w: World, listed: map<Id, Entry>, done: set<Id>, entries: map<Id, Entry>, id: Id, verified: bool)
    requires WellFormed(w) && RemovalsListed(w, listed, done, entries) && id in w.removals && id !in done
    requires verified <==> Intact(w, Current(w, id), id)
    ensures done + {id} <= w.removals.Keys
    ensures RemovalRow(w, listed, done + {id}, id) == Entry(if id in entries then entries[id].bytes else 0, verified)
  {
    hide Intact, WellFormed, Current;
  }

  lemma KeepRemoval(w: World, listed: map<Id, Entry>, done: set<Id>, entries: map<Id, Entry>, id: Id, verified: bool)
    requires WellFormed(w) && RemovalsListed(w, listed, done, entries) && id in w.removals && id !in done
    requires verified <==> Intact(w, Current(w, id), id)
    ensures RemovalsListed(w, listed, done + {id}, entries[id := Entry(if id in entries then entries[id].bytes else 0, verified)])
  {
    hide Intact, WellFormed, Current, RemovalRow;
    var e := Entry(if id in entries then entries[id].bytes else 0, verified);
    RowHere(w, listed, done, entries, id, verified);
    assert entries[id := e].Keys == listed.Keys + (done + {id});
    forall other | other in entries && other != id
      ensures entries[other] == RemovalRow(w, listed, done + {id}, other)
    {
      RowElsewhere(w, listed, done, id, other);
    }
  }

  lemma RemovalLimits(w: World, listed: map<Id, Entry>, done: set<Id>, entries: map<Id, Entry>, id: Id)
    requires WellFormed(w) && RemovalsListed(w, listed, done, entries) && id in w.removals && id !in done
    requires id !in entries && |entries| >= MAX_IMPORTS
    ensures |listed.Keys + w.removals.Keys| > MAX_IMPORTS
  {
    hide Intact, WellFormed;
    assert |entries| == |entries.Keys|;
    UnionTooLarge(listed.Keys, w.removals.Keys, done, id);
  }

  lemma ListRemoval(w: World, listed: map<Id, Entry>, done: set<Id>, remaining: set<Id>, entries: map<Id, Entry>, id: Id, verified: bool)
    requires WellFormed(w) && ListingRemovals(w, listed, done, remaining, entries) && id in remaining
    requires id in w.removals ==> (verified <==> Intact(w, Current(w, id), id))
    ensures id in entries || |entries| < MAX_IMPORTS ==>
              ListingRemovals(w, listed, done + {id}, remaining - {id},
                              entries[id := Entry(if id in entries then entries[id].bytes else 0, verified)])
    ensures id !in entries && |entries| >= MAX_IMPORTS ==> |listed.Keys + w.removals.Keys| > MAX_IMPORTS
  {
    hide Intact, WellFormed, RemovalsListed, Current;
    KeepRemoval(w, listed, done, entries, id, verified);
    MapInsert(entries, id, Entry(if id in entries then entries[id].bytes else 0, verified));
    if id !in entries && |entries| >= MAX_IMPORTS {
      RemovalLimits(w, listed, done, entries, id);
    }
  }

  lemma RemainingIsJournaled(w: World, listed: map<Id, Entry>, done: set<Id>, remaining: set<Id>, entries: map<Id, Entry>, id: Id)
    requires WellFormed(w) && ListingRemovals(w, listed, done, remaining, entries) && id in remaining
    ensures id in w.removals
  {
    hide WellFormed, RemovalsListed;
  }

  lemma ListedRemovals(w: World, listed: map<Id, Entry>, done: set<Id>, entries: map<Id, Entry>)
    requires WellFormed(w) && ListingRemovals(w, listed, done, {}, entries)
    ensures RemovalsListed(w, listed, w.removals.Keys, entries) && |listed.Keys + w.removals.Keys| <= MAX_IMPORTS
  {
    hide Intact;
    AllDone(w.removals.Keys, done);
    assert |entries| == |entries.Keys|;
  }

  lemma NoRemovals(w: World, listed: map<Id, Entry>)
    requires WellFormed(w) && |listed| <= MAX_IMPORTS
    ensures ListingRemovals(w, listed, {}, w.removals.Keys, listed)
  {
  }

  /** Adds the interrupted removals: whether each can be reopened decides its ownership. */
  method ListRemovals(w: World, listed: map<Id, Entry>) returns (ok: bool, entries: map<Id, Entry>)
    requires WellFormed(w) && |listed| <= MAX_IMPORTS
    ensures ok <==> w.removalTemps == 0 && |w.removals.Keys| <= 1024 && |listed.Keys + w.removals.Keys| <= MAX_IMPORTS
    ensures ok ==> RemovalsListed(w, listed, w.removals.Keys, entries)
  {
    hide *;
    entries := listed;
    if |w.removals.Keys| > 1024 || w.removalTemps > 0 {
      return false, entries;
    }
    var remaining := w.removals.Keys;
    ghost var done: set<Id> := {};
    NoRemovals(w, listed);
    while remaining != {}
      invariant ListingRemovals(w, listed, done, remaining, entries)
      decreases remaining
    {
      var id :| id in remaining;
      RemainingIsJournaled(w, listed, done, remaining, entries, id);
      var resumed := Resume(w, id);
      var verified := resumed.Ok? && resumed.value.Some?;
      ListRemoval(w, listed, done, remaining, entries, id, verified);
      if id !in entries && |entries| >= MAX_IMPORTS {
        return false, entries;
      }
      entries := entries[id := Entry(if id in entries then entries[id].bytes else 0, verified)];
      remaining := remaining - {id};
      done := done + {id};
    }
    ListedRemovals(w, listed, done, entries);
    ok := true;
  }

  function Known(w: World): set<Id> {
    w.imports.Keys + w.receipts.Keys + w.removals.Keys
  }

  /** The limits within which the inventory finishes. */
  ghost predicate Listable(w: World) {
    && ImportLimits(w)
    && w.receiptTemps == 0 && ReceiptsFit(w, w.imports.Keys)
    && w.removalTemps == 0 && |w.removals.Keys| <= 1024 && |Known(w)| <= MAX_IMPORTS
  }

  /** What the inventory reports as owned. */
  ghost predicate ReportedOwned(w: World, id: Id)
    requires WellFormed(w)
  {
    if id in w.removals then Intact(w, Current(w, id), id)
    else if id in w.imports then Verified(w, id)
    else Orphan(w, id)
  }

  /** Every known id is listed once, with the size of its directory and whether it is owned. */
  ghost predicate IsInventory(w: World, entries: map<Id, Entry>)
    requires WellFormed(w)
  {
    && entries.Keys == Known(w)
    && (forall id | id in entries :: entries[id].verified <==> ReportedOwned(w, id))
    && (forall id | id in w.imports && id in entries :: SizeIs(w, id, entries[id].bytes))
    && (forall id | id in entries && id !in w.imports :: entries[id].bytes == 0)
  }

  ghost predicate SizeIs(w: World, id: Id, bytes: nat)
    requires WellFormed(w) && id in w.imports
  {
    assert FileInodes(w.imports[id]) <= w.inodes.Keys;
    bytes == SumLen(w.inodes, FileInodes(w.imports[id]))
  }

  lemma Assemble(w: World, imported: map<Id, Entry>, listed: map<Id, Entry>, entries: map<Id, Entry>, files: nat)
    requires WellFormed(w) && ImportsListed(w, w.imports.Keys, imported, files)
    requires ReceiptsListed(w, imported, w.receipts.Keys, listed)
    requires RemovalsListed(w, listed, w.removals.Keys, entries)
    ensures IsInventory(w, entries)
  {
    hide Intact, Verified, WellFormed;
    assert entries.Keys == Known(w);
    forall id | id in entries ensures entries[id].verified <==> ReportedOwned(w, id) {
      if id !in w.removals {
        assert entries[id] == listed[id];
        if id in w.imports {
          assert ListedImport(w, id, imported[id]);
        }
      }
    }
    forall id | id in w.imports ensures SizeIs(w, id, entries[id].bytes) {
      assert ListedImport(w, id, imported[id]) && listed[id] == imported[id];
    }
  }

  /** The inventory finishes exactly within its limits, and then lists every id once. */
  method Inspect(w: World) returns (r: Option<map<Id, Entry>>)
    requires WellFormed(w)
    ensures r.Some? <==> Listable(w)
    ensures r.Some? ==> IsInventory(w, r.value)
  {
    hide WellFormed, ListedImport, Intact, Verified, NamesIn, IsInventory, RemovalsListed;
    var ok, imported := ListImports(w);
    if !ok {
      return None;
    }
    assert imported.Keys == w.imports.Keys && |imported| == |imported.Keys|;
    var listed, entries;
    ok, listed := ListReceipts(w, imported);
    if !ok {
      return None;
    }
    assert listed.Keys == w.imports.Keys + w.receipts.Keys && |listed| == |listed.Keys|;
    ok, entries := ListRemovals(w, listed);
    if !ok {
      assert Known(w) == listed.Keys + w.removals.Keys;
      return None;
    }
    assert Known(w) == listed.Keys + w.removals.Keys;
    Assemble(w, imported, listed, entries, |NamesIn(w.imports, w.imports.Keys)|);
    r := Some(entries);
  }

  /** In a sound store the directory and file limits of the inventory cannot trip; it finishes
      exactly when no interrupted write left a file behind and at most 1024 ids are known, and
      then it reports every one of them as owned. */
  lemma SoundInventory(sha: Digest, w: World)
    requires Sound(sha, w)
    ensures WellFormed(w) && ImportLimits(w)
    ensures Listable(w) <==> w.receiptTemps == 0 && w.removalTemps == 0 && |Known(w)| <= MAX_IMPORTS
    ensures forall id | id in Known(w) :: ReportedOwned(w, id) && ReviewSha(sha, w, id).Some?
  {
    SubsetSize(w.receipts.Keys, Known(w));
    SubsetSize(w.removals.Keys, Known(w));
    SubsetSize(w.imports.Keys + w.receipts.Keys, Known(w));
    forall id | id in Known(w) ensures ReportedOwned(w, id) && ReviewSha(sha, w, id).Some? {
      assert RemovalRuns.Healthy(sha, w, id);
      RemovalRuns.HealthyIsReviewable(sha, w, id);
    }
  }

  // Files left by interrupted writes.

  /** Every receipt or journal is persisted right after its temporary file is written. */
  ghost predicate Careful(plan: seq<Effect>) {
    && (forall i | 0 <= i < |plan| && plan[i].PersistReceipt? :: i > 0 && plan[i - 1] == WriteReceiptTemp)
    && (forall i | 0 <= i < |plan| && plan[i].PersistJournal? :: i > 0 && plan[i - 1] == WriteJournalTemp)
  }

  lemma EffectDebris(w: World, e: Effect)
    ensures var w' := Apply(w, e);
            && w'.receiptTemps == (if e.WriteReceiptTemp? then w.receiptTemps + 1
                                   else if e.PersistReceipt? && w.receiptTemps > 0 then w.receiptTemps - 1 else w.receiptTemps)
            && w'.removalTemps == (if e.WriteJournalTemp? then w.removalTemps + 1
                                   else if e.PersistJournal? && w.removalTemps > 0 then w.removalTemps - 1 else w.removalTemps)
  {
  }

  /** The last effect of a plan, if there is one. */
  function Last(plan: seq<Effect>): Option<Effect> {
    if plan == [] then None else Some(plan[|plan| - 1])
  }

  ghost predicate NoLess(w: World, w': World, last: Option<Effect>) {
    && w'.receiptTemps >= w.receiptTemps && w'.removalTemps >= w.removalTemps
    && (last == Some(WriteReceiptTemp) ==> w'.receiptTemps > w.receiptTemps)
    && (last == Some(WriteJournalTemp) ==> w'.removalTemps > w.removalTemps)
  }

  lemma CarefulFront(plan: seq<Effect>)
    requires Careful(plan) && plan != []
    ensures var front, last := plan[..|plan| - 1], plan[|plan| - 1];
            && plan == front + [last] && Careful(front)
            && (last.PersistReceipt? ==> Last(front) == Some(WriteReceiptTemp))
            && (last.PersistJournal? ==> Last(front) == Some(WriteJournalTemp))
  {
  }

  lemma {:induction false} CarefulKeepsDebris(w: World, plan: seq<Effect>)
    requires Careful(plan)
    ensures NoLess(w, ApplyAll(w, plan), Last(plan))
    decreases |plan|
  {
    hide Careful, Apply;
    if plan != [] {
      var front, last := plan[..|plan| - 1], plan[|plan| - 1];
      CarefulFront(plan);
      CarefulKeepsDebris(w, front);
      ApplyAllSnoc(w, front, last);
      EffectDebris(ApplyAll(w, front), last);
    }
  }

  lemma PrefixKeepsDebris(w: World, plan: seq<Effect>, k: nat)
    requires Careful(plan) && k <= |plan|
    ensures ApplyAll(w, plan[..k]).receiptTemps >= w.receiptTemps && ApplyAll(w, plan[..k]).removalTemps >= w.removalTemps
  {
    CarefulKeepsDebris(w, plan[..k]);
  }

  ghost predicate NoWrites(plan: seq<Effect>) {
    forall i | 0 <= i < |plan| :: !plan[i].PersistReceipt? && !plan[i].PersistJournal?
  }

  lemma NoWritesAppend(a: seq<Effect>, b: seq<Effect>)
    requires NoWrites(a) && NoWrites(b)
    ensures NoWrites(a + b)
  {
  }

  lemma DirectoryHasNoWrites(w: World, id: Id)
    ensures NoWrites(DirectoryPlan(w, id))
  {
    hide Ordered;
  }

  lemma ReceiptHasNoWrites(w: World, id: Id)
    ensures NoWrites(ReceiptPlan(w, id) + [RemoveJournal(id)])
  {
  }

  lemma RestHasNoWrites(w: World, id: Id)
    ensures NoWrites(Rest(w, id))
  {
    hide DirectoryPlan, ReceiptPlan, NoWrites;
    DirectoryHasNoWrites(w, id);
    ReceiptHasNoWrites(w, id);
    NoWritesAppend(DirectoryPlan(w, id), ReceiptPlan(w, id) + [RemoveJournal(id)]);
    assert Rest(w, id) == DirectoryPlan(w, id) + (ReceiptPlan(w, id) + [RemoveJournal(id)]);
  }

  lemma RemovalIsCareful(sha: Digest, w: World, id: Id)
    requires WellFormed(w)
    ensures Careful(Plan(sha, w, id))
  {
    RestHasNoWrites(w, id);
    hide Rest;
  }

  lemma PublicationIsCareful(w: World, id: Id, fingerprint: Sha, e: Effect)
    requires id in w.staged && !e.PersistReceipt? && !e.PersistJournal?
    ensures Careful(Publication.RecordPlan(w, Publication.ReceiptFor(w, id, fingerprint)) + [e])
  {
  }

  /** No operation, stopped anywhere, retires a temporary file that an earlier one left. */
  lemma StepKeepsDebris(sha: Digest, w: World, op: Operation)
    requires WellFormed(w) && Possible(w, op)
    ensures Step(sha, w, op).receiptTemps >= w.receiptTemps && Step(sha, w, op).removalTemps >= w.removalTemps
  {
    hide Careful, Plan, WellFormed, Publication.Ready;
    match op
    case Stage(_, _, _) =>
    case Publish(id, fingerprint, fuel) =>
      PublishedIs(w, id, fingerprint, fuel);
      if Publication.Ready(w, id, fingerprint) {
        PublicationIsCareful(w, id, fingerprint, RenameStaged(id));
        var plan := Publication.PublishPlan(w, id, fingerprint);
        PrefixKeepsDebris(w, plan, if fuel <= |plan| then fuel else |plan|);
      }
    case Select(id, fingerprint, addressed, checks, fuel) =>
      var plan := Publication.SelectionPlan(w, id, fingerprint, addressed, checks);
      PublicationIsCareful(w, id, fingerprint, Publication.LastEffect(w, id, checks));
      assert Careful(plan) by { SelectionIsCareful(w, id, fingerprint, addressed, checks); }
      PrefixKeepsDebris(w, plan, if fuel <= |plan| then fuel else |plan|);
    case Remove(id, attempt) =>
      RemovalIsCareful(sha, w, id);
      PrefixKeepsDebris(w, Plan(sha, w, id), RemovalRuns.Steps(sha, w, id, attempt));
  }

  lemma SelectionIsCareful(w: World, id: Id, fingerprint: Sha, addressed: bool, checks: nat)
    requires WellFormed(w) && id in w.staged
    ensures Careful(Publication.SelectionPlan(w, id, fingerprint, addressed, checks))
  {
    PublicationIsCareful(w, id, fingerprint, Publication.LastEffect(w, id, checks));
  }

  lemma {:induction false} RunKeepsDebris(sha: Digest, w: World, ops: seq<Operation>, w': World)
    requires Reachable(sha, w, ops, w')
    ensures w'.receiptTemps >= w.receiptTemps && w'.removalTemps >= w.removalTemps
    decreases |ops|
  {
    hide Step;
    if ops != [] {
      StepKeepsDebris(sha, w, ops[0]);
      RunKeepsDebris(sha, Step(sha, w, ops[0]), ops[1..], w');
    }
  }

  /** One publication interrupted between writing its receipt and putting it in place stops the
      inventory for good: no later run of operations makes it finish again. */
  lemma InterruptedWriteStopsInventory(sha: Digest, w: World, id: Id, fingerprint: Sha, ops: seq<Operation>, w': World)
    requires WellFormed(w) && PublicationRuns.Prepared(w, id, fingerprint) && PublicationRuns.Room(w) >= 0
    requires Reachable(sha, PublicationRuns.After(w, id, fingerprint, 1), ops, w')
    ensures !Listable(w')
  {
    PublicationRuns.UnrecordedStep(w, id, fingerprint, 0, 1);
    assert PublicationRuns.WorldAt(w, id, fingerprint, PublicationRuns.Unrecorded(0)) == w;
    RunKeepsDebris(sha, PublicationRuns.After(w, id, fingerprint, 1), ops, w');
  }
}
