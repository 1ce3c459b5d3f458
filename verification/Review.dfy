/** Reading a managed import: ownership, content review, and what a removal journal promises
    about the files that remain. */
module Review {
  import opened Names
  import opened Storage
  import opened Fingerprint

  datatype Result<+T> = Ok(value: T) | Err

  /** `matches` says whether the file's name carries the digest of its content. */
  datatype ReviewedFile = ReviewedFile(path: string, bytes: nat, sha256: string, matches: bool)

  datatype DirectoryReview = DirectoryReview(
    directory: Id, sha: Sha, bytes: nat, files: seq<ReviewedFile>, missing: set<string>)

  ghost predicate IsDigest(sha: Digest) {
    forall c: Content :: ValidHash(sha(c))
  }

  // Ownership.

  /** The ownership check returns true: the receipt names this very directory and identity. */
  ghost predicate Verified(w: World, id: Id) {
    && id in w.receipts && id in w.imports
    && w.receipts[id].importsIno == w.importsIno
    && w.receipts[id].dirIno == w.imports[id].ino
    && Acceptable(w.inodes, w.imports[id])
    && IdentityOf(w.inodes, w.imports[id]) == w.receipts[id].fingerprint
  }

  /** A missing receipt is `Ok(false)`; a missing, replaced or changed import is an error. */
  method Verify(w: World, id: Id) returns (r: Result<bool>)
    requires WellFormed(w)
    ensures r == Ok(true) <==> Verified(w, id)
    ensures r == Ok(false) <==> id !in w.receipts
    ensures r == Err <==> id in w.receipts && !Verified(w, id)
  {
    if id !in w.receipts {
      return Ok(false);
    }
    var receipt := w.receipts[id];
    if id !in w.imports || receipt.importsIno != w.importsIno || receipt.dirIno != w.imports[id].ino {
      return Err;
    }
    var identity := FingerprintDirectory(w.inodes, w.imports[id]);
    if identity.None? || identity.value != receipt.fingerprint {
      return Err;
    }
    r := Ok(true);
  }

  /** Ownership holds on exactly while nothing of the import is touched: as long as its receipt is there,
      a verified import verifies again if and only if it is still the same directory with the same names,
      and every name is still the same inode with the same length, link count and times. */
  lemma VerifiedWhileUntouched(w: World, w': World, id: Id)
    requires WellFormed(w) && WellFormed(w') && Verified(w, id)
    requires w'.importsIno == w.importsIno && id in w'.receipts && w'.receipts[id] == w.receipts[id]
    ensures Verified(w', id) <==>
              && id in w'.imports && w'.imports[id].ino == w.imports[id].ino
              && w'.imports[id].entries.Keys == w.imports[id].entries.Keys
              && forall n | n in w.imports[id].entries ::
                   var ino, ino' := w.imports[id].entries[n], w'.imports[id].entries[n];
                   && ino' == ino && |w'.inodes[ino'].data| == |w.inodes[ino].data|
                   && w'.inodes[ino'].nlink == w.inodes[ino].nlink
                   && w'.inodes[ino'].mtime == w.inodes[ino].mtime && w'.inodes[ino'].ctime == w.inodes[ino].ctime
  {
    if id in w'.imports {
      var d, d' := w.imports[id], w'.imports[id];
      SameIdentity(w.inodes, d, w'.inodes, d');
      hide IdentityOf, Acceptable;
      if IdentityOf(w'.inodes, d') == IdentityOf(w.inodes, d) {
        assert d'.entries == d.entries && d' == d;
        SameSizesAcceptable(w.inodes, w'.inodes, d);
      }
    }
  }

  /** A file that was written to since: its import is an error, not verified. */
  method VerifyLater(w: World, w': World, id: Id, name: string) returns (r: Result<bool>)
    requires WellFormed(w) && WellFormed(w') && Verified(w, id)
    requires w'.importsIno == w.importsIno && id in w'.receipts && w'.receipts[id] == w.receipts[id]
    requires id in w'.imports && name in w.imports[id].entries && name in w'.imports[id].entries
    requires var a, b := w.inodes[w.imports[id].entries[name]], w'.inodes[w'.imports[id].entries[name]];
             a.mtime != b.mtime || a.ctime != b.ctime || |a.data| != |b.data| || a.nlink != b.nlink
    ensures r == Err
  {
    VerifiedWhileUntouched(w, w', id);
    r := Verify(w', id);
  }

  // Content review.

  function Describe(sha: Digest, inodes: map<nat, INode>, d: Dir, name: string): ReviewedFile
    requires name in d.entries && d.entries[name] in inodes
  {
    var node := inodes[d.entries[name]];
    ReviewedFile(name, |node.data|, sha(node.data), Stem(name) == sha(node.data))
  }

  function Paths(files: seq<ReviewedFile>): (q: seq<string>)
    ensures |q| == |files| && forall i :: 0 <= i < |q| ==> q[i] == files[i].path
  {
    seq(|files|, i requires 0 <= i < |files| => files[i].path)
  }

  /** The listed files are exactly the directory's, sorted by path, each with its size and the
      digest of its bytes. */
  ghost predicate Describes(sha: Digest, inodes: map<nat, INode>, d: Dir, files: seq<ReviewedFile>)
    requires Allocated(inodes, d)
  {
    && LexSorted(Paths(files)) && Elements(Paths(files)) == d.entries.Keys
    && forall f | f in files :: f.path in d.entries && f == Describe(sha, inodes, d, f.path)
  }

  /** The inodes hashed so far: each is read once, whatever the number of its names. */
  ghost predicate HashTable(sha: Digest, inodes: map<nat, INode>, d: Dir, hashes: map<nat, string>, bytes: nat) {
    && hashes.Keys <= ObjectInodes(d) && hashes.Keys <= inodes.Keys
    && (forall i | i in hashes :: hashes[i] == sha(inodes[i].data))
    && bytes == SumLen(inodes, hashes.Keys)
  }

  /** The names listed so far. */
  ghost predicate Listing(sha: Digest, inodes: map<nat, INode>, d: Dir, names: seq<string>, files: map<string, ReviewedFile>)
    requires Allocated(inodes, d)
  {
    && Distinct(names) && files.Keys == Elements(names) <= d.entries.Keys
    && (forall n | n in files :: files[n] == Describe(sha, inodes, d, n))
  }

  ghost predicate Covers(d: Dir, names: set<string>, hashes: map<nat, string>)
  {
    forall n | n in names :: n in d.entries && d.entries[n] in hashes
  }

  lemma OwnersAreObjects(inodes: map<nat, INode>, d: Dir, name: string)
    requires Acceptable(inodes, d) && name in d.entries
    ensures d.entries[name] in ObjectInodes(d)
  {
    StemOfObject(name);
    assert Owned(d, name);
  }

  lemma TableBound(sha: Digest, inodes: map<nat, INode>, d: Dir, hashes: map<nat, string>, bytes: nat)
    requires Acceptable(inodes, d) && HashTable(sha, inodes, d, hashes, bytes)
    ensures |hashes| <= MAX_OBJECTS && bytes <= MAX_STORE
  {
    SubsetSize(hashes.Keys, ObjectInodes(d));
    assert ObjectInodes(d) <= inodes.Keys;
    SumLenMonotone(inodes, hashes.Keys, ObjectInodes(d));
  }

  lemma TableAdd(sha: Digest, inodes: map<nat, INode>, d: Dir, hashes: map<nat, string>, bytes: nat, ino: nat)
    requires HashTable(sha, inodes, d, hashes, bytes) && ino in ObjectInodes(d) && ino in inodes && ino !in hashes
    ensures HashTable(sha, inodes, d, hashes[ino := sha(inodes[ino].data)], bytes + |inodes[ino].data|)
  {
    SumLenAdd(inodes, hashes.Keys, ino);
    assert hashes[ino := sha(inodes[ino].data)].Keys == hashes.Keys + {ino};
  }

  lemma HashOne(sha: Digest, inodes: map<nat, INode>, d: Dir, hashes: map<nat, string>, bytes: nat, name: string)
    requires Acceptable(inodes, d) && HashTable(sha, inodes, d, hashes, bytes)
    requires name in d.entries && d.entries[name] !in hashes
    ensures var ino := d.entries[name];
            && HashTable(sha, inodes, d, hashes[ino := sha(inodes[ino].data)], bytes + |inodes[ino].data|)
            && |hashes| < MAX_OBJECTS && bytes + |inodes[ino].data| <= MAX_STORE
  {
    var ino := d.entries[name];
    OwnersAreObjects(inodes, d, name);
    TableAdd(sha, inodes, d, hashes, bytes, ino);
    TableBound(sha, inodes, d, hashes[ino := sha(inodes[ino].data)], bytes + |inodes[ino].data|);
  }

  lemma ListOne(sha: Digest, inodes: map<nat, INode>, d: Dir, names: seq<string>, files: map<string, ReviewedFile>, name: string)
    requires Allocated(inodes, d) && Listing(sha, inodes, d, names, files)
    requires name in d.entries && name !in Elements(names)
    ensures Listing(sha, inodes, d, names + [name], files[name := Describe(sha, inodes, d, name)])
    ensures Elements(names + [name]) == Elements(names) + {name}
  {
    assert Elements(names + [name]) == Elements(names) + {name};
  }

  function ListFiles(files: map<string, ReviewedFile>, q: seq<string>): (listed: seq<ReviewedFile>)
    requires forall n | n in q :: n in files
    ensures |listed| == |q| && forall i :: 0 <= i < |q| ==> q[i] in files && listed[i] == files[q[i]]
  {
    seq(|q|, i requires 0 <= i < |q| => assert q[i] in q; files[q[i]])
  }

  lemma ListComplete(sha: Digest, inodes: map<nat, INode>, d: Dir, names: seq<string>, files: map<string, ReviewedFile>)
    requires Allocated(inodes, d) && Listing(sha, inodes, d, names, files) && Elements(names) == d.entries.Keys
    ensures forall n | n in SortByPath(names) :: n in files
    ensures Describes(sha, inodes, d, ListFiles(files, SortByPath(names)))
  {
    SortByPathSorts(names);
    var q := SortByPath(names);
    assert forall n | n in q :: n in Elements(q);
    assert forall n | n in files :: files[n].path == n;
    hide LexSorted, Describe, Listing, ListFiles, SortByPath, Paths, Elements;
    ListedPaths(files, q);
    ListedFiles(sha, inodes, d, names, files, q);
  }

  lemma ListedPaths(files: map<string, ReviewedFile>, q: seq<string>)
    requires forall n | n in q :: n in files
    requires forall n | n in files :: files[n].path == n
    ensures Paths(ListFiles(files, q)) == q
  {
  }

  lemma ListedFiles(sha: Digest, inodes: map<nat, INode>, d: Dir, names: seq<string>, files: map<string, ReviewedFile>, q: seq<string>)
    requires Allocated(inodes, d) && Listing(sha, inodes, d, names, files)
    requires forall n | n in q :: n in files
    ensures forall f | f in ListFiles(files, q) :: f.path in d.entries && f == Describe(sha, inodes, d, f.path)
  {
    var listed := ListFiles(files, q);
    forall f | f in listed ensures f.path in d.entries && f == Describe(sha, inodes, d, f.path) {
      var i :| 0 <= i < |listed| && listed[i] == f;
      assert f == files[q[i]];
    }
  }

  lemma TableComplete(sha: Digest, inodes: map<nat, INode>, d: Dir, hashes: map<nat, string>, bytes: nat)
    requires Acceptable(inodes, d) && HashTable(sha, inodes, d, hashes, bytes) && Covers(d, d.entries.Keys, hashes)
    ensures ObjectInodes(d) <= inodes.Keys && bytes == SumLen(inodes, ObjectInodes(d))
  {
    forall i | i in ObjectInodes(d) ensures i in hashes.Keys {
      var n :| n in d.entries && !IsAlias(n) && d.entries[n] == i;
    }
    assert hashes.Keys == ObjectInodes(d);
  }

  /** A complete review of a directory. */
  ghost predicate IsReview(sha: Digest, inodes: map<nat, INode>, d: Dir, id: Id, review: DirectoryReview)
    requires Allocated(inodes, d)
  {
    && review.directory == id && review.sha == IdentityOf(inodes, d) && review.missing == {}
    && Describes(sha, inodes, d, review.files)
    && ObjectInodes(d) <= inodes.Keys && review.bytes == SumLen(inodes, ObjectInodes(d))
  }

  /** The review reads every file and never trips its own limits on an acceptable directory. */
  method ReviewDirectory(sha: Digest, inodes: map<nat, INode>, d: Dir, id: Id) returns (r: Option<DirectoryReview>)
    requires Allocated(inodes, d)
    ensures r.Some? <==> Acceptable(inodes, d)
    ensures r.Some? ==> IsReview(sha, inodes, d, id, r.value)
  {
    var fingerprint := FingerprintDirectory(inodes, d);
    if fingerprint.None? {
      return None;
    }
    var files, names, bytes := HashFiles(sha, inodes, d);
    ListComplete(sha, inodes, d, names, files);
    r := Some(DirectoryReview(id, fingerprint.value, bytes, ListFiles(files, SortByPath(names)), {}));
  }

  ghost predicate Hashing(sha: Digest, inodes: map<nat, INode>, d: Dir, remaining: set<string>, names: seq<string>,
                          files: map<string, ReviewedFile>, hashes: map<nat, string>, bytes: nat)
    requires Allocated(inodes, d)
  {
    && remaining <= d.entries.Keys && Elements(names) == d.entries.Keys - remaining
    && Listing(sha, inodes, d, names, files)
    && HashTable(sha, inodes, d, hashes, bytes)
    && Covers(d, Elements(names), hashes)
  }

  lemma HashingStart(sha: Digest, inodes: map<nat, INode>, d: Dir)
    requires Acceptable(inodes, d)
    ensures Allocated(inodes, d) && Hashing(sha, inodes, d, d.entries.Keys, [], map[], map[], 0)
  {
  }

  lemma HashingStep(sha: Digest, inodes: map<nat, INode>, d: Dir, remaining: set<string>, names: seq<string>,
                    files: map<string, ReviewedFile>, hashes: map<nat, string>, bytes: nat, name: string)
    requires Allocated(inodes, d) && Hashing(sha, inodes, d, remaining, names, files, hashes, bytes)
    requires name in remaining && d.entries[name] in hashes
    ensures Hashing(sha, inodes, d, remaining - {name}, names + [name],
                    files[name := ReviewedFile(name, |inodes[d.entries[name]].data|, hashes[d.entries[name]], Stem(name) == hashes[d.entries[name]])],
                    hashes, bytes)
  {
    ListOne(sha, inodes, d, names, files, name);
  }

  lemma HashingAdd(sha: Digest, inodes: map<nat, INode>, d: Dir, remaining: set<string>, names: seq<string>,
                   files: map<string, ReviewedFile>, hashes: map<nat, string>, bytes: nat, name: string)
    requires Acceptable(inodes, d) && Hashing(sha, inodes, d, remaining, names, files, hashes, bytes)
    requires name in remaining && d.entries[name] !in hashes
    ensures var ino := d.entries[name];
            && Hashing(sha, inodes, d, remaining, names, files, hashes[ino := sha(inodes[ino].data)], bytes + |inodes[ino].data|)
            && |hashes| < MAX_OBJECTS && bytes + |inodes[ino].data| <= MAX_STORE
  {
    HashOne(sha, inodes, d, hashes, bytes, name);
  }

  lemma HashingDone(sha: Digest, inodes: map<nat, INode>, d: Dir, names: seq<string>,
                    files: map<string, ReviewedFile>, hashes: map<nat, string>, bytes: nat)
    requires Acceptable(inodes, d) && Hashing(sha, inodes, d, {}, names, files, hashes, bytes)
    ensures Listing(sha, inodes, d, names, files) && Elements(names) == d.entries.Keys
    ensures ObjectInodes(d) <= inodes.Keys && bytes == SumLen(inodes, ObjectInodes(d))
  {
    assert Elements(names) == d.entries.Keys;
    TableComplete(sha, inodes, d, hashes, bytes);
  }

  /** Before each file there is room for it in the review. */
  lemma HashingRoom(sha: Digest, inodes: map<nat, INode>, d: Dir, remaining: set<string>, names: seq<string>,
                    files: map<string, ReviewedFile>, hashes: map<nat, string>, bytes: nat, name: string)
    requires Acceptable(inodes, d) && Hashing(sha, inodes, d, remaining, names, files, hashes, bytes) && name in remaining
    ensures name in d.entries && d.entries[name] in inodes
    ensures |files| < MAX_NAMES && |inodes[d.entries[name]].data| <= MAX_FILE
  {
    assert ValidFile(inodes, name, d.entries[name]);
    SubsetSize(files.Keys + {name}, d.entries.Keys);
    assert |files.Keys + {name}| == |files| + 1;
  }

  method HashFiles(sha: Digest, inodes: map<nat, INode>, d: Dir)
    returns (files: map<string, ReviewedFile>, names: seq<string>, bytes: nat)
    requires Acceptable(inodes, d)
    ensures Listing(sha, inodes, d, names, files) && Elements(names) == d.entries.Keys
    ensures ObjectInodes(d) <= inodes.Keys && bytes == SumLen(inodes, ObjectInodes(d))
  {
    HashingStart(sha, inodes, d);
    hide *;
    var hashes: map<nat, string> := map[];
    files, names, bytes := map[], [], 0;
    var remaining := d.entries.Keys;
    while remaining != {}
      invariant Hashing(sha, inodes, d, remaining, names, files, hashes, bytes)
      decreases remaining
    {
      var name :| name in remaining;
      HashingRoom(sha, inodes, d, remaining, names, files, hashes, bytes, name);
      var ino := d.entries[name];
      // Neither the entry limit nor the file limit of the review can be reached here.
      assert |files| < MAX_NAMES && |inodes[ino].data| <= MAX_FILE;
      if ino !in hashes {
        HashingAdd(sha, inodes, d, remaining, names, files, hashes, bytes, name);
        // Neither the object limit nor the byte limit of the review can be reached here.
        assert |hashes| < MAX_OBJECTS && bytes + |inodes[ino].data| <= MAX_STORE;
        hashes := hashes[ino := sha(inodes[ino].data)];
        bytes := bytes + |inodes[ino].data|;
      }
      HashingStep(sha, inodes, d, remaining, names, files, hashes, bytes, name);
      files := files[name := ReviewedFile(name, |inodes[ino].data|, hashes[ino], Stem(name) == hashes[ino])];
      names := names + [name];
      remaining := remaining - {name};
    }
    HashingDone(sha, inodes, d, names, files, hashes, bytes);
  }
}
