/** The removal of one managed import, as the code performs it, stopped after any effect. */
module Remove {
  import opened Names
  import opened Storage
  import opened Fingerprint
  import opened Review
  import opened Removal

  // Checks of an open removal.

  predicate JournalAccepted(j: Journal, id: Id) {
    && j.receipt.id == id
    && |j.files.Keys| <= MAX_NAMES
    && forall n | n in j.files.Keys :: ValidRecord(n, j.files[n])
  }

  /** Reading a journal validates it. */
  method ReadJournal(w: World, id: Id) returns (r: Result<Option<Journal>>)
    ensures r == Ok(None) <==> id !in w.removals
    ensures r.Ok? && r.value.Some? <==> id in w.removals && ValidJournal(w.removals[id], id)
    ensures r.Ok? && r.value.Some? ==> r.value.value == w.removals[id]
  {
    if id !in w.removals {
      return Ok(None);
    }
    var journal := w.removals[id];
    if !JournalAccepted(journal, id) {
      return Err;
    }
    r := Ok(Some(journal));
  }

  ghost predicate RecordedIn(inodes: map<nat, INode>, d: Dir, files: map<string, FileIdentity>, done: set<string>)
    requires Allocated(inodes, d)
  {
    forall n {:trigger FileRecorded(inodes, d, files, n)} | n in done && n in d.entries :: FileRecorded(inodes, d, files, n)
  }

  lemma RecordedAll(inodes: map<nat, INode>, d: Dir, files: map<string, FileIdentity>, done: set<string>)
    requires Allocated(inodes, d) && RecordedIn(inodes, d, files, done) && d.entries.Keys <= done
    ensures AllRecorded(inodes, d, files)
  {
  }

  method CheckRecorded(inodes: map<nat, INode>, d: Dir, files: map<string, FileIdentity>) returns (ok: bool)
    requires Allocated(inodes, d)
    ensures ok <==> AllRecorded(inodes, d, files)
  {
    var remaining := d.entries.Keys;
    ghost var done: set<string> := {};
    while remaining != {}
      invariant d.entries.Keys <= remaining + done && remaining <= d.entries.Keys
      invariant RecordedIn(inodes, d, files, done)
      decreases remaining
    {
      var name :| name in remaining;
      if name !in files || !Matches(files[name], d.entries[name], inodes[d.entries[name]]) {
        assert !FileRecorded(inodes, d, files, name);
        return false;
      }
      remaining := remaining - {name};
      done := done + {name};
    }
    RecordedAll(inodes, d, files, done);
    ok := true;
  }

  /** Something remains that is not what the journal recorded: an unknown name, another inode, another
      length, or another modification time. */
  ghost predicate Altered(inodes: map<nat, INode>, d: Dir, files: map<string, FileIdentity>)
    requires Allocated(inodes, d)
  {
    exists n :: n in d.entries &&
      (n in files ==>
         || files[n].ino != d.entries[n] || files[n].bytes != |inodes[d.entries[n]].data|
         || files[n].mtime != inodes[d.entries[n]].mtime)
  }

  lemma RecordedUnlessAltered(inodes: map<nat, INode>, d: Dir, files: map<string, FileIdentity>)
    requires Allocated(inodes, d)
    ensures AllRecorded(inodes, d, files) <==> !Altered(inodes, d, files)
  {
    if !AllRecorded(inodes, d, files) {
      var n :| n in d.entries && !FileRecorded(inodes, d, files, n);
    }
    if Altered(inodes, d, files) {
      var n :| n in d.entries &&
        (n in files ==>
           || files[n].ino != d.entries[n] || files[n].bytes != |inodes[d.entries[n]].data|
           || files[n].mtime != inodes[d.entries[n]].mtime);
      assert !FileRecorded(inodes, d, files, n);
    }
  }

  /** When an interrupted removal is still intact, field by field: the journal is valid; the receipt is
      gone or the recorded one, and there as long as the directory is; and the directory is gone, or the
      recorded one with acceptable content and every remaining file at its recorded inode, length and
      modification time. */
  lemma IntactExactly(w: World, id: Id)
    requires WellFormed(w) && id in w.removals
    ensures Intact(w, Current(w, id), id) <==>
              var journal := w.removals[id];
              && w.importsIno == journal.receipt.importsIno && |journal.files| <= 8192
              && (forall n | n in journal.files ::
                    ValidName(n) && ValidHash(journal.files[n].sha256) && journal.files[n].bytes <= 2 * 1024 * 1024 * 1024)
              && (id in w.receipts ==> w.receipts[id] == journal.receipt)
              && (id in w.imports ==>
                    && id in w.receipts && w.imports[id].ino == journal.receipt.dirIno
                    && Acceptable(w.inodes, w.imports[id])
                    && forall n | n in w.imports[id].entries ::
                         && n in journal.files && journal.files[n].ino == w.imports[id].entries[n]
                         && journal.files[n].bytes == |w.inodes[w.imports[id].entries[n]].data|
                         && journal.files[n].mtime == w.inodes[w.imports[id].entries[n]].mtime)
  {
    hide Acceptable, ValidName, ValidHash;
    var journal := w.removals[id];
    assert |journal.files| == |journal.files.Keys|;
    assert forall n | n in journal.files :: ValidRecord(n, journal.files[n]) <==>
      ValidName(n) && ValidHash(journal.files[n].sha256) && journal.files[n].bytes <= MAX_FILE;
    if id in w.imports {
      RecordedUnlessAltered(w.inodes, w.imports[id], journal.files);
    }
  }

  /** The check made before every destructive step. */
  method VerifyRemaining(w: World, p: PreparedRemoval, id: Id) returns (ok: bool)
    requires WellFormed(w) && p.journal.receipt.id == id
    ensures ok <==> Intact(w, p, id)
    ensures id in w.imports && Altered(w.inodes, w.imports[id], p.journal.files) ==> !ok
  {
    if id in w.imports {
      RecordedUnlessAltered(w.inodes, w.imports[id], p.journal.files);
    }
    if !SameOwnership(w, p, id) {
      return false;
    }
    if p.directory.Some? {
      var identity := FingerprintDirectory(w.inodes, w.imports[id]);
      if identity.None? {
        return false;
      }
      var recorded := CheckRecorded(w.inodes, w.imports[id], p.journal.files);
      if !recorded {
        return false;
      }
    }
    var journal := ReadJournal(w, id);
    ok := journal == Ok(Some(p.journal));
  }

  /** The value a review of an open removal must carry. */
  function RemovalSha(w: World, p: PreparedRemoval, id: Id): Sha
    requires WellFormed(w)
  {
    if p.directory.Some? && id in w.imports then IdentityOf(w.inodes, w.imports[id]) else RemovedImport(p.journal)
  }

  function RemainingNames(w: World, id: Id): set<string> {
    if id in w.imports then w.imports[id].entries.Keys else {}
  }

  predicate AgreesWithJournal(files: map<string, FileIdentity>, f: ReviewedFile) {
    f.path in files && f.sha256 == files[f.path].sha256 && f.bytes == files[f.path].bytes
  }

  /** A review lists each remaining file once, with the content the journal recorded. */
  ghost predicate ListsRemaining(names: set<string>, journal: map<string, FileIdentity>, files: seq<ReviewedFile>) {
    && Distinct(Paths(files)) && Elements(Paths(files)) == names
    && forall i | 0 <= i < |files| :: AgreesWithJournal(journal, files[i])
  }

  ghost predicate Authorises(w: World, p: PreparedRemoval, id: Id, review: DirectoryReview)
    requires WellFormed(w)
  {
    && Intact(w, p, id)
    && review.directory == id && review.sha == RemovalSha(w, p, id)
    && ListsRemaining(RemainingNames(w, id), p.journal.files, review.files)
  }

  /** Field by field, when a review authorises an interrupted removal that is intact: it is for this import
      and the present state, and lists every remaining file once, with the digest and the size that the
      journal recorded, and nothing else. */
  lemma AuthorisesExactly(w: World, id: Id, review: DirectoryReview)
    requires WellFormed(w) && id in w.removals && Intact(w, Current(w, id), id)
    ensures Authorises(w, Current(w, id), id, review) <==>
              var journal, present := w.removals[id].files, if id in w.imports then w.imports[id].entries.Keys else {};
              && review.directory == id
              && review.sha == (if id in w.imports then IdentityOf(w.inodes, w.imports[id]) else RemovedImport(w.removals[id]))
              && (forall i, j | 0 <= i < j < |review.files| :: review.files[i].path != review.files[j].path)
              && (forall n | n in present :: exists i :: 0 <= i < |review.files| && review.files[i].path == n)
              && forall i | 0 <= i < |review.files| ::
                   var f := review.files[i];
                   f.path in present && f.path in journal && f.sha256 == journal[f.path].sha256 && f.bytes == journal[f.path].bytes
  {
    hide Intact, IdentityOf;
    PathsAre(review.files, RemainingNames(w, id));
  }

  lemma PathsAre(files: seq<ReviewedFile>, names: set<string>)
    ensures Distinct(Paths(files)) <==> forall i, j | 0 <= i < j < |files| :: files[i].path != files[j].path
    ensures Elements(Paths(files)) == names <==>
              && (forall n | n in names :: exists i :: 0 <= i < |files| && files[i].path == n)
              && forall i | 0 <= i < |files| :: files[i].path in names
  {
    var q := Paths(files);
    forall i | 0 <= i < |files| ensures q[i] == files[i].path && q[i] in Elements(q) {
    }
    if (forall n | n in names :: exists i :: 0 <= i < |files| && files[i].path == n) && (forall i | 0 <= i < |files| :: files[i].path in names) {
      forall n ensures n in Elements(q) <==> n in names {
        if n in names {
          var i :| 0 <= i < |files| && files[i].path == n;
          assert q[i] == n;
        }
      }
    }
    if Elements(q) == names {
      forall n | n in names ensures exists i :: 0 <= i < |files| && files[i].path == n {
        assert n in q;
        var i :| 0 <= i < |q| && q[i] == n;
      }
    }
  }

  /** The listed files so far, and the names still unlisted. */
  ghost predicate ListedSoFar(names: set<string>, journal: map<string, FileIdentity>, files: seq<ReviewedFile>, k: nat, remaining: set<string>) {
    && k <= |files| && remaining <= names
    && (forall i, j | 0 <= i < j < k :: files[i].path != files[j].path)
    && (forall n | n in names :: n !in remaining <==> exists i | 0 <= i < k :: files[i].path == n)
    && (forall i | 0 <= i < k :: files[i].path in names && AgreesWithJournal(journal, files[i]))
  }

  lemma ListOneMore(names: set<string>, journal: map<string, FileIdentity>, files: seq<ReviewedFile>, k: nat, remaining: set<string>)
    requires ListedSoFar(names, journal, files, k, remaining) && k < |files|
    ensures files[k].path in remaining && AgreesWithJournal(journal, files[k]) ==>
              ListedSoFar(names, journal, files, k + 1, remaining - {files[k].path})
    ensures files[k].path !in remaining || !AgreesWithJournal(journal, files[k]) ==> !ListsRemaining(names, journal, files)
  {
    var paths := Paths(files);
    var n := files[k].path;
    if n !in remaining {
      if n in names {
        var i :| 0 <= i < k && files[i].path == n;
        assert paths[i] == paths[k];
      } else {
        assert paths[k] in Elements(paths);
      }
    }
  }

  lemma ListedAll(names: set<string>, journal: map<string, FileIdentity>, files: seq<ReviewedFile>, remaining: set<string>)
    requires ListedSoFar(names, journal, files, |files|, remaining)
    ensures ListsRemaining(names, journal, files) <==> remaining == {}
  {
    var paths := Paths(files);
    assert Distinct(paths);
    if remaining == {} {
      forall n ensures n in Elements(paths) <==> n in names {
        if n in names {
          var i :| 0 <= i < |files| && files[i].path == n;
          assert paths[i] == n;
        }
      }
    } else {
      var n :| n in remaining;
      assert n in names && n !in Elements(paths);
    }
  }

  method CheckListed(names: set<string>, journal: map<string, FileIdentity>, files: seq<ReviewedFile>) returns (ok: bool)
    ensures ok <==> ListsRemaining(names, journal, files)
  {
    var remaining := names;
    for k := 0 to |files|
      invariant ListedSoFar(names, journal, files, k, remaining)
    {
      ListOneMore(names, journal, files, k, remaining);
      if files[k].path !in remaining || !AgreesWithJournal(journal, files[k]) {
        return false;
      }
      remaining := remaining - {files[k].path};
    }
    ListedAll(names, journal, files, remaining);
    ok := remaining == {};
  }

  method VerifyReview(w: World, p: PreparedRemoval, id: Id, review: DirectoryReview) returns (ok: bool)
    requires WellFormed(w) && p.journal.receipt.id == id
    ensures ok <==> Authorises(w, p, id, review)
  {
    ok := VerifyRemaining(w, p, id);
    if !ok {
      return;
    }
    if review.directory != id || review.sha != RemovalSha(w, p, id) {
      return false;
    }
    ok := CheckListed(RemainingNames(w, id), p.journal.files, review.files);
  }

  // Reviews.

  /** Reopening a removal: no journal is `Ok(None)`. */
  method Resume(w: World, id: Id) returns (r: Result<Option<PreparedRemoval>>)
    requires WellFormed(w)
    ensures r == Ok(None) <==> id !in w.removals
    ensures r.Ok? && r.value.Some? <==> id in w.removals && Intact(w, Current(w, id), id)
    ensures r.Ok? && r.value.Some? ==> r.value.value == Current(w, id)
    ensures id in w.removals && id in w.imports && Altered(w.inodes, w.imports[id], w.removals[id].files) ==> r == Err
  {
    var journal := ReadJournal(w, id);
    if journal.Err? {
      return Err;
    }
    if journal.value.None? {
      return Ok(None);
    }
    var prepared := PreparedRemoval(OpenDirectory(w, id), journal.value.value);
    var ok := VerifyRemaining(w, prepared, id);
    r := if ok then Ok(Some(prepared)) else Err;
  }

  lemma OwnReviewAuthorises(sha: Digest, w: World, id: Id, review: DirectoryReview)
    requires WellFormed(w) && id in w.removals && Intact(w, Current(w, id), id) && id in w.imports
    requires IsReview(sha, w.inodes, w.imports[id], id, review)
    ensures Authorises(w, Current(w, id), id, review) <==> Pending(sha, w, id)
  {
    var d := w.imports[id];
    var files := w.removals[id].files;
    forall i | 0 <= i < |review.files|
      ensures var n := review.files[i].path;
              n in d.entries && (AgreesWithJournal(files, review.files[i]) <==> SameFile(sha, w.inodes, d, files, n))
    {
      assert review.files[i] in review.files;
      var n := review.files[i].path;
      assert FileRecorded(w.inodes, d, files, n);
    }
    assert Distinct(Paths(review.files));
    if ListsRemaining(RemainingNames(w, id), files, review.files) {
      forall n | n in d.entries ensures SameFile(sha, w.inodes, d, files, n) {
        assert n in Elements(Paths(review.files));
        var i :| 0 <= i < |review.files| && Paths(review.files)[i] == n;
        assert review.files[i].path == n;
      }
    }
  }

  /** The review of an interrupted removal. It succeeds exactly when the removal can go on. */
  method ReviewRemoval(sha: Digest, w: World, id: Id, p: PreparedRemoval) returns (r: Option<DirectoryReview>)
    requires WellFormed(w) && id in w.removals && Intact(w, Current(w, id), id) && p == Current(w, id)
    ensures r.Some? <==> Pending(sha, w, id)
    ensures r.Some? ==> Authorises(w, p, id, r.value)
    ensures r.Some? ==> LexSorted(Paths(r.value.files))
    ensures r.Some? ==> r.value.missing == p.journal.files.Keys - RemainingNames(w, id)
    ensures r.Some? && id !in w.imports ==> r.value.files == [] && r.value.bytes == 0
    ensures r.Some? && id in w.imports ==> IsReview(sha, w.inodes, w.imports[id], id, r.value.(missing := {}))
  {
    var review: DirectoryReview;
    if p.directory.Some? {
      var found := ReviewDirectory(sha, w.inodes, w.imports[id], id);
      review := found.value;
      OwnReviewAuthorises(sha, w, id, review);
    } else {
      review := DirectoryReview(id, RemovedImport(p.journal), 0, [], {});
      assert Paths(review.files) == [];
    }
    var ok := VerifyReview(w, p, id, review);
    if !ok {
      return None;
    }
    var present := set n | n in Paths(review.files);
    assert present == Elements(Paths(review.files));
    r := Some(review.(missing := p.journal.files.Keys - present));
  }

  /** What a review of `id` is worth: the value that a removal must be started with. */
  ghost function ReviewSha(sha: Digest, w: World, id: Id): Option<Sha>
    requires WellFormed(w)
  {
    if id in w.removals then
      if Pending(sha, w, id) then Some(RemovalSha(w, Current(w, id), id)) else None
    else if Orphan(w, id) then Some(OrphanReceipt(w.receipts[id]))
    else if Verified(w, id) then Some(IdentityOf(w.inodes, w.imports[id]))
    else None
  }

  /** The review offered to the user: of an interrupted removal, of an orphan receipt, or of a
      verified import. */
  method ReviewImport(sha: Digest, w: World, id: Id) returns (r: Option<DirectoryReview>)
    requires WellFormed(w)
    ensures r.Some? <==> ReviewSha(sha, w, id).Some?
    ensures r.Some? ==> r.value.directory == id && r.value.sha == ReviewSha(sha, w, id).value
    ensures r.Some? ==> LexSorted(Paths(r.value.files))
    ensures r.Some? && id in w.removals ==>
              && Authorises(w, Current(w, id), id, r.value)
              && r.value.missing == w.removals[id].files.Keys - RemainingNames(w, id)
              && if id in w.imports then IsReview(sha, w.inodes, w.imports[id], id, r.value.(missing := {})) else r.value.bytes == 0
    ensures r.Some? && id !in w.removals && Orphan(w, id) ==>
              r.value == DirectoryReview(id, OrphanReceipt(w.receipts[id]), 0, [], {})
    ensures r.Some? && id !in w.removals && !Orphan(w, id) ==> IsReview(sha, w.inodes, w.imports[id], id, r.value)
  {
    var resumed := Resume(w, id);
    if resumed.Err? {
      return None;
    }
    if resumed.value.Some? {
      r := ReviewRemoval(sha, w, id, resumed.value.value);
      return;
    }
    if Orphan(w, id) {
      assert Paths([]) == [];
      return Some(DirectoryReview(id, OrphanReceipt(w.receipts[id]), 0, [], {}));
    }
    var verified := Verify(w, id);
    if verified != Ok(true) {
      return None;
    }
    r := ReviewDirectory(sha, w.inodes, w.imports[id], id);
  }

  // Writing the journal.

  /** The journal entries taken over from the first `k` reviewed files. */
  ghost predicate JournalFiles(inodes: map<nat, INode>, d: Dir, files: seq<ReviewedFile>, k: nat, journal: map<string, FileIdentity>)
    requires Allocated(inodes, d)
  {
    && k <= |files|
    && (forall i, j | 0 <= i < j < k :: files[i].path != files[j].path)
    && (forall n | n in journal :: exists i | 0 <= i < k :: files[i].path == n)
    && (forall i | 0 <= i < k :: JournalEntry(inodes, d, files[i], journal))
  }

  ghost predicate JournalEntry(inodes: map<nat, INode>, d: Dir, f: ReviewedFile, journal: map<string, FileIdentity>)
    requires Allocated(inodes, d)
  {
    && f.path in journal && f.path in d.entries
    && ReviewedAs(inodes, d, f)
    && journal[f.path] == FileIdentity(d.entries[f.path], f.bytes, inodes[d.entries[f.path]].mtime, f.sha256)
  }

  /** A reviewed file still has its size, and a well-formed digest. */
  predicate ReviewedAs(inodes: map<nat, INode>, d: Dir, f: ReviewedFile)
    requires f.path in d.entries && d.entries[f.path] in inodes
  {
    f.bytes == |inodes[d.entries[f.path]].data| && ValidHash(f.sha256)
  }

  /** A review from which a journal can be written. */
  ghost predicate Preparable(w: World, id: Id, review: DirectoryReview)
    requires WellFormed(w)
  {
    && Fresh(w, id) && JournalFits(w)
    && review.sha == IdentityOf(w.inodes, w.imports[id])
    && Distinct(Paths(review.files)) && Elements(Paths(review.files)) == w.imports[id].entries.Keys
    && forall i | 0 <= i < |review.files| ::
         review.files[i].path in w.imports[id].entries && ReviewedAs(w.inodes, w.imports[id], review.files[i])
  }

  /** Field by field, when a new removal can be journaled: the import is verified, there are at most 1023
      journals and temporary files, and the review is of the present state and lists every file once, with
      its size and a digest of 64 hexadecimal digits, and nothing else. */
  lemma PreparableExactly(w: World, id: Id, review: DirectoryReview)
    requires WellFormed(w) && id !in w.removals && Verified(w, id)
    ensures Preparable(w, id, review) <==>
              var d := w.imports[id];
              && |w.removals| + w.removalTemps <= 1023 && review.sha == IdentityOf(w.inodes, d)
              && (forall i, j | 0 <= i < j < |review.files| :: review.files[i].path != review.files[j].path)
              && (forall n | n in d.entries :: exists i :: 0 <= i < |review.files| && review.files[i].path == n)
              && forall i | 0 <= i < |review.files| ::
                   var f := review.files[i];
                   f.path in d.entries && f.bytes == |w.inodes[d.entries[f.path]].data| && ValidHash(f.sha256)
  {
    hide IdentityOf, ValidHash, Acceptable;
    assert |w.removals| == |w.removals.Keys|;
    PathsAre(review.files, w.imports[id].entries.Keys);
  }

  lemma JournalOneMore(inodes: map<nat, INode>, d: Dir, files: seq<ReviewedFile>, k: nat, journal: map<string, FileIdentity>)
    requires Allocated(inodes, d) && JournalFiles(inodes, d, files, k, journal) && k < |files|
    requires files[k].path in d.entries && files[k].path !in journal && ReviewedAs(inodes, d, files[k])
    ensures var f := files[k];
            JournalFiles(inodes, d, files, k + 1,
                         journal[f.path := FileIdentity(d.entries[f.path], f.bytes, inodes[d.entries[f.path]].mtime, f.sha256)])
  {
    forall i | 0 <= i < k ensures files[i].path in journal {
      assert JournalEntry(inodes, d, files[i], journal);
    }
  }

  lemma JournalListsAll(inodes: map<nat, INode>, d: Dir, files: seq<ReviewedFile>, journal: map<string, FileIdentity>)
    requires Allocated(inodes, d) && JournalFiles(inodes, d, files, |files|, journal)
    ensures journal.Keys == Elements(Paths(files)) && Distinct(Paths(files))
    ensures forall i | 0 <= i < |files| :: files[i].path in d.entries && ReviewedAs(inodes, d, files[i])
  {
    var paths := Paths(files);
    forall n ensures n in journal <==> n in Elements(paths) {
      if n in journal {
        var i :| 0 <= i < |files| && files[i].path == n;
        assert paths[i] == n;
      }
      if n in paths {
        var i :| 0 <= i < |paths| && paths[i] == n;
        assert JournalEntry(inodes, d, files[i], journal);
      }
    }
    forall i | 0 <= i < |files| ensures files[i].path in d.entries && ReviewedAs(inodes, d, files[i]) {
      assert JournalEntry(inodes, d, files[i], journal);
    }
  }

  lemma JournalRefused(inodes: map<nat, INode>, d: Dir, files: seq<ReviewedFile>, k: nat, journal: map<string, FileIdentity>)
    requires Allocated(inodes, d) && JournalFiles(inodes, d, files, k, journal) && k < |files|
    requires files[k].path in journal
    ensures !Distinct(Paths(files))
  {
    var i :| 0 <= i < k && files[i].path == files[k].path;
    assert Paths(files)[i] == Paths(files)[k];
  }

  /** Collects the identities of the reviewed files. */
  method CollectJournal(inodes: map<nat, INode>, d: Dir, files: seq<ReviewedFile>) returns (r: Option<map<string, FileIdentity>>)
    requires Allocated(inodes, d)
    ensures r.Some? ==> JournalFiles(inodes, d, files, |files|, r.value)
    ensures r.None? ==> !Distinct(Paths(files)) || |files| > MAX_NAMES || exists i | 0 <= i < |files| ::
                          !(ValidName(files[i].path) && files[i].path in d.entries && ReviewedAs(inodes, d, files[i]))
    ensures r.Some? ==> forall i | 0 <= i < |files| :: ValidName(files[i].path)
  {
    var journal: map<string, FileIdentity> := map[];
    for k := 0 to |files|
      invariant JournalFiles(inodes, d, files, k, journal)
      invariant forall i | 0 <= i < k :: ValidName(files[i].path)
    {
      var f := files[k];
      if k >= MAX_NAMES || !ValidName(f.path) || f.path !in d.entries || !ReviewedAs(inodes, d, f) {
        return None;
      }
      if f.path in journal {
        JournalRefused(inodes, d, files, k, journal);
        return None;
      }
      JournalOneMore(inodes, d, files, k, journal);
      journal := journal[f.path := FileIdentity(d.entries[f.path], f.bytes, inodes[d.entries[f.path]].mtime, f.sha256)];
    }
    r := Some(journal);
  }

  datatype Preparation = Prepared(removal: PreparedRemoval) | NotPrepared | Interrupted

  /** The journal is written for the directory and receipt that were found. */
  ghost predicate JournalWrittenFor(w: World, id: Id, review: DirectoryReview, p: PreparedRemoval)
    requires WellFormed(w)
  {
    && id in w.imports && id in w.receipts
    && p.directory == Some(w.imports[id].ino) && p.journal.receipt == w.receipts[id]
    && JournalFiles(w.inodes, w.imports[id], review.files, |review.files|, p.journal.files)
  }

  lemma WrittenJournalIsIntact(w: World, w': World, id: Id, review: DirectoryReview, p: PreparedRemoval)
    requires WellFormed(w) && Preparable(w, id, review) && JournalWrittenFor(w, id, review, p)
    requires WellFormed(w') && w' == w.(removals := w.removals[id := p.journal], removalTemps := w'.removalTemps)
    ensures Intact(w', p, id) && p == Current(w', id)
  {
    var d := w.imports[id];
    var files := p.journal.files;
    JournalListsAll(w.inodes, d, review.files, files);
    forall n | n in d.entries ensures n in files && ValidRecord(n, files[n]) && FileRecorded(w.inodes, d, files, n) {
      assert n in Elements(Paths(review.files));
      var i :| 0 <= i < |review.files| && Paths(review.files)[i] == n;
      assert JournalEntry(w.inodes, d, review.files[i], files);
      assert ValidFile(w.inodes, n, d.entries[n]);
    }
  }

  /** Preparing a removal: reuse the journal of an interrupted one, or write a new one. */
  method Prepare(disk: Disk, id: Id, review: DirectoryReview) returns (r: Preparation)
    requires disk.Valid() && review.directory == id
    modifies disk
    ensures disk.Valid()
    ensures r == NotPrepared ==> disk.world == old(disk.world) && disk.fuel == old(disk.fuel)
    ensures id in old(disk.world).removals ==>
              && disk.world == old(disk.world) && disk.fuel == old(disk.fuel) && !r.Interrupted?
              && (r.Prepared? <==> Authorises(disk.world, Current(disk.world, id), id, review))
              && (r.Prepared? ==> r.removal == Current(disk.world, id))
    ensures id !in old(disk.world).removals ==>
              && (r == NotPrepared <==> !Preparable(old(disk.world), id, review))
              && (r == Interrupted ==> disk.fuel == 0 && old(disk.fuel) < 2
                                       && disk.world == if old(disk.fuel) == 0 then old(disk.world) else Apply(old(disk.world), WriteJournalTemp))
              && (r.Prepared? ==>
                    && old(disk.fuel) >= 2 && disk.fuel == old(disk.fuel) - 2
                    && JournalWrittenFor(old(disk.world), id, review, r.removal)
                    && disk.world == Apply(Apply(old(disk.world), WriteJournalTemp), PersistJournal(r.removal.journal)))
  {
    var resumed := Resume(disk.world, id);
    if resumed.Err? {
      return NotPrepared;
    }
    if resumed.value.Some? {
      var ok := VerifyReview(disk.world, resumed.value.value, id, review);
      return if ok then Prepared(resumed.value.value) else NotPrepared;
    }
    var candidate := PrepareJournal(disk.world, id, review);
    if candidate.None? {
      return NotPrepared;
    }
    r := WriteJournal(disk, id, review, candidate.value);
  }

  method WriteJournal(disk: Disk, id: Id, review: DirectoryReview, p: PreparedRemoval) returns (r: Preparation)
    requires disk.Valid() && Preparable(disk.world, id, review) && JournalWrittenFor(disk.world, id, review, p)
    modifies disk
    ensures disk.Valid()
    ensures r == Interrupted ==> disk.fuel == 0 && old(disk.fuel) < 2
    ensures r == Interrupted ==>
              disk.world == if old(disk.fuel) == 0 then old(disk.world) else Apply(old(disk.world), WriteJournalTemp)
    ensures r != Interrupted ==> r == Prepared(p) && old(disk.fuel) >= 2 && disk.fuel == old(disk.fuel) - 2
    ensures r != Interrupted ==>
              disk.world == Apply(Apply(old(disk.world), WriteJournalTemp), PersistJournal(p.journal))
  {
    ghost var before := disk.world;
    var alive := disk.Perform(WriteJournalTemp);
    if !alive {
      return Interrupted;
    }
    alive := disk.Perform(PersistJournal(p.journal));
    if !alive {
      return Interrupted;
    }
    WrittenJournalIsIntact(before, disk.world, id, review, p);
    var ok := VerifyRemaining(disk.world, p, id);
    assert ok;
    r := if ok then Prepared(p) else NotPrepared;
  }

  /** The checks before a new journal is written. */
  method PrepareJournal(w: World, id: Id, review: DirectoryReview) returns (r: Option<PreparedRemoval>)
    requires WellFormed(w) && id !in w.removals && review.directory == id
    ensures r.Some? <==> Preparable(w, id, review)
    ensures r.Some? ==> JournalWrittenFor(w, id, review, r.value)
  {
    var verified := Verify(w, id);
    if verified != Ok(true) {
      return None;
    }
    var d := w.imports[id];
    var identity := FingerprintDirectory(w.inodes, d);
    if identity.None? || identity.value != review.sha {
      return None;
    }
    var files := CollectJournal(w.inodes, d, review.files);
    if files.None? {
      NotCollected(w, id, review);
      return None;
    }
    JournalListsAll(w.inodes, d, review.files, files.value);
    if d.entries.Keys != files.value.Keys {
      return None;
    }
    if |w.removals.Keys| + w.removalTemps > MAX_RECORDS {
      return None;
    }
    r := Some(PreparedRemoval(Some(d.ino), Journal(w.receipts[id], files.value)));
  }

  lemma PathCount(files: seq<ReviewedFile>)
    requires Distinct(Paths(files))
    ensures |Elements(Paths(files))| == |files|
  {
    DistinctCount(Paths(files));
  }

  lemma {:induction false} DistinctCount(q: seq<string>)
    requires Distinct(q)
    ensures |Elements(q)| == |q|
    decreases |q|
  {
    if q != [] {
      DistinctCount(q[1..]);
      assert Elements(q) == {q[0]} + Elements(q[1..]);
      assert q[0] !in q[1..];
    }
  }

  lemma PreparableFiles(w: World, id: Id, review: DirectoryReview)
    requires WellFormed(w) && Preparable(w, id, review)
    ensures |review.files| <= MAX_NAMES && forall i | 0 <= i < |review.files| :: ValidName(review.files[i].path)
  {
    PathCount(review.files);
    forall i | 0 <= i < |review.files| ensures ValidName(review.files[i].path) {
      var n := review.files[i].path;
      assert ValidFile(w.inodes, n, w.imports[id].entries[n]);
    }
  }

  lemma NotCollected(w: World, id: Id, review: DirectoryReview)
    requires WellFormed(w) && id in w.imports
    requires !Distinct(Paths(review.files)) || |review.files| > MAX_NAMES || exists i | 0 <= i < |review.files| ::
               !(ValidName(review.files[i].path) && review.files[i].path in w.imports[id].entries
                 && ReviewedAs(w.inodes, w.imports[id], review.files[i]))
    ensures !Preparable(w, id, review)
  {
    if Preparable(w, id, review) {
      PreparableFiles(w, id, review);
      assert false;
    }
  }
}
