/** The identity of a managed directory, what makes a directory acceptable, and the quota scan. */
module Fingerprint {
  import opened Names
  import opened Storage

  function Meta(inodes: map<nat, INode>, ino: nat): FileMeta
    requires ino in inodes
  {
    var node := inodes[ino];
    FileMeta(ino, |node.data|, node.nlink, node.mtime, node.ctime)
  }

  /** The value hashed for a directory: its inode, and every name with its metadata. */
  function IdentityOf(inodes: map<nat, INode>, d: Dir): Sha
    requires Allocated(inodes, d)
  {
    MediaIdentity(d.ino, map n | n in d.entries :: Meta(inodes, d.entries[n]))
  }

  /** Two directories have the same identity exactly when they are one inode with the same names, and
      every name is the same inode with the same length, link count, modification and change time. */
  lemma SameIdentity(inodes: map<nat, INode>, d: Dir, inodes': map<nat, INode>, d': Dir)
    requires Allocated(inodes, d) && Allocated(inodes', d')
    ensures IdentityOf(inodes, d) == IdentityOf(inodes', d') <==>
              && d.ino == d'.ino && d.entries.Keys == d'.entries.Keys
              && forall n | n in d.entries ::
                   var a, b := inodes[d.entries[n]], inodes'[d'.entries[n]];
                   && d.entries[n] == d'.entries[n] && |a.data| == |b.data| && a.nlink == b.nlink
                   && a.mtime == b.mtime && a.ctime == b.ctime
  {
    var here, there := IdentityOf(inodes, d).files, IdentityOf(inodes', d').files;
    assert here.Keys == d.entries.Keys && there.Keys == d'.entries.Keys;
    if d.entries.Keys == d'.entries.Keys {
      assert here == there <==> forall n | n in d.entries :: here[n] == there[n];
    }
  }

  ghost function ObjectInodes(d: Dir): set<nat> {
    set n | n in d.entries && !IsAlias(n) :: d.entries[n]
  }

  /** Every name identifies the object with its own digest. */
  ghost predicate Owned(d: Dir, name: string)
    requires name in d.entries
  {
    Stem(name) in d.entries && d.entries[Stem(name)] == d.entries[name]
  }

  ghost predicate DistinctObjects(d: Dir) {
    forall a, b | a in d.entries && b in d.entries && !IsAlias(a) && !IsAlias(b) && d.entries[a] == d.entries[b] :: a == b
  }

  ghost predicate ValidFile(inodes: map<nat, INode>, name: string, ino: nat)
    requires ino in inodes
  {
    ValidName(name) && |inodes[ino].data| <= MAX_FILE
  }

  /** What a directory must satisfy to have an identity. */
  ghost predicate Acceptable(inodes: map<nat, INode>, d: Dir) {
    && Allocated(inodes, d)
    && |d.entries.Keys| <= MAX_NAMES
    && (forall n | n in d.entries :: ValidFile(inodes, n, d.entries[n]))
    && DistinctObjects(d)
    && |ObjectInodes(d)| <= MAX_OBJECTS
    && SumLen(inodes, ObjectInodes(d)) <= MAX_STORE
    && (forall n {:trigger Owned(d, n)} | n in d.entries :: Owned(d, n))
  }

  /** A name of 64 hexadecimal digits, with or without an extension, for a file of at most 2 GiB that is
      the object these digits name. */
  ghost predicate Proper(inodes: map<nat, INode>, d: Dir, n: string)
    requires n in d.entries && d.entries[n] in inodes
  {
    && |n| >= 64 && ValidName(n) && |inodes[d.entries[n]].data| <= 0x8000_0000
    && n[..64] in d.entries && d.entries[n[..64]] == d.entries[n]
  }

  lemma ProperName(inodes: map<nat, INode>, d: Dir, n: string)
    requires n in d.entries && d.entries[n] in inodes
    ensures Proper(inodes, d, n) <==> ValidFile(inodes, n, d.entries[n]) && Owned(d, n)
    ensures ValidName(n) ==> (IsAlias(n) <==> |n| != 64)
  {
    NamesAre(n);
    hide HexNumber, IsAlphanumeric;
  }

  ghost predicate AllProper(inodes: map<nat, INode>, d: Dir)
    requires Allocated(inodes, d)
  {
    forall n {:trigger Proper(inodes, d, n)} | n in d.entries :: Proper(inodes, d, n)
  }

  /** No two names of 64 digits are one inode. */
  ghost predicate OwnInodes(d: Dir) {
    forall a, b | a in d.entries && b in d.entries && |a| == |b| == 64 && a != b :: d.entries[a] != d.entries[b]
  }

  lemma ProperFiles(inodes: map<nat, INode>, d: Dir)
    requires Allocated(inodes, d)
    ensures AllProper(inodes, d) <==>
              && (forall n | n in d.entries :: ValidFile(inodes, n, d.entries[n]))
              && (forall n {:trigger Owned(d, n)} | n in d.entries :: Owned(d, n))
  {
    hide Proper, ValidFile, Owned;
    if AllProper(inodes, d) {
      forall n | n in d.entries ensures ValidFile(inodes, n, d.entries[n]) && Owned(d, n) {
        ProperName(inodes, d, n);
      }
    }
    if (forall n | n in d.entries :: ValidFile(inodes, n, d.entries[n])) && (forall n {:trigger Owned(d, n)} | n in d.entries :: Owned(d, n)) {
      forall n | n in d.entries ensures Proper(inodes, d, n) {
        ProperName(inodes, d, n);
        assert Owned(d, n);
      }
    }
  }

  lemma ProperObjects(inodes: map<nat, INode>, d: Dir)
    requires Allocated(inodes, d) && AllProper(inodes, d)
    ensures DistinctObjects(d) <==> OwnInodes(d)
  {
    hide IsAlias, ValidFile, Owned, ValidName;
    forall n | n in d.entries ensures IsAlias(n) <==> |n| != 64 {
      assert Proper(inodes, d, n);
      ProperName(inodes, d, n);
    }
    hide Proper;
  }

  /** Which directories are acceptable, in numbers: at most 8192 proper names, and at most 4096 objects on
      inodes of their own that take at most 8 GiB. */
  lemma AcceptableExactly(inodes: map<nat, INode>, d: Dir)
    requires Allocated(inodes, d)
    ensures Acceptable(inodes, d) <==>
              && |d.entries.Keys| <= 8192 && |ObjectInodes(d)| <= 4096 && SumLen(inodes, ObjectInodes(d)) <= 0x2_0000_0000
              && AllProper(inodes, d) && OwnInodes(d)
  {
    hide SumLen, ObjectInodes, AllProper, ValidFile, Owned, DistinctObjects, OwnInodes;
    ProperFiles(inodes, d);
    if AllProper(inodes, d) {
      ProperObjects(inodes, d);
    }
  }

  /** Whether a directory is acceptable depends on its names, its inodes and their sizes alone. */
  lemma SameSizesAcceptable(inodes: map<nat, INode>, inodes': map<nat, INode>, d: Dir)
    requires Acceptable(inodes, d)
    requires forall n | n in d.entries :: d.entries[n] in inodes' && |inodes'[d.entries[n]].data| == |inodes[d.entries[n]].data|
    ensures Acceptable(inodes', d)
  {
    hide ValidName, SumLen, IsAlias, Stem;
    assert ObjectInodes(d) <= inodes.Keys && ObjectInodes(d) <= inodes'.Keys;
    SumLenFrame(inodes, inodes', ObjectInodes(d));
    hide ObjectInodes, DistinctObjects, Owned;
  }

  lemma SubsetSize<T>(a: set<T>, b: set<T>)
    requires a <= b
    ensures |a| <= |b|
  {
    assert |b - a| + |a| == |b| by { assert b == (b - a) + a; }
  }

  /** What the first pass over a directory knows after reading the names in `done`. */
  ghost predicate Scanned(inodes: map<nat, INode>, d: Dir, done: set<string>, objects: map<nat, string>, total: nat)
    requires Allocated(inodes, d)
  {
    && done <= d.entries.Keys
    && (forall n | n in done :: ValidFile(inodes, n, d.entries[n]))
    && (forall i | i in objects :: objects[i] in done && !IsAlias(objects[i]) && d.entries[objects[i]] == i)
    && (forall n | n in done && !IsAlias(n) :: d.entries[n] in objects && objects[d.entries[n]] == n)
    && total == SumLen(inodes, objects.Keys)
  }

  lemma ScanAlias(inodes: map<nat, INode>, d: Dir, done: set<string>, objects: map<nat, string>, total: nat, name: string)
    requires Allocated(inodes, d) && Scanned(inodes, d, done, objects, total)
    requires name in d.entries && IsAlias(name) && ValidFile(inodes, name, d.entries[name])
    ensures Scanned(inodes, d, done + {name}, objects, total)
  {
  }

  lemma ScanObject(inodes: map<nat, INode>, d: Dir, done: set<string>, objects: map<nat, string>, total: nat, name: string)
    requires Allocated(inodes, d) && Scanned(inodes, d, done, objects, total)
    requires name in d.entries && name !in done && !IsAlias(name) && ValidFile(inodes, name, d.entries[name])
    ensures d.entries[name] in objects ==> !Acceptable(inodes, d)
    ensures d.entries[name] !in objects ==>
              var ino := d.entries[name];
              Scanned(inodes, d, done + {name}, objects[ino := name], total + |inodes[ino].data|)
  {
    var ino := d.entries[name];
    if ino !in objects {
      SumLenAdd(inodes, objects.Keys, ino);
      assert objects[ino := name].Keys == objects.Keys + {ino};
    }
  }

  lemma ScanBound(inodes: map<nat, INode>, d: Dir, done: set<string>, objects: map<nat, string>, total: nat)
    requires Allocated(inodes, d) && Scanned(inodes, d, done, objects, total)
    ensures objects.Keys <= ObjectInodes(d) <= inodes.Keys
    ensures |objects| <= |ObjectInodes(d)| && total <= SumLen(inodes, ObjectInodes(d))
    ensures done == d.entries.Keys ==> objects.Keys == ObjectInodes(d) && DistinctObjects(d)
  {
    assert forall i | i in objects :: i in ObjectInodes(d);
    SubsetSize(objects.Keys, ObjectInodes(d));
    SumLenMonotone(inodes, objects.Keys, ObjectInodes(d));
  }

  lemma TooManyNames(inodes: map<nat, INode>, d: Dir, done: set<string>, name: string)
    requires done <= d.entries.Keys && |done| >= MAX_NAMES && name in d.entries && name !in done
    ensures !Acceptable(inodes, d)
  {
    assert |done + {name}| > MAX_NAMES;
    SubsetSize(done + {name}, d.entries.Keys);
  }

  ghost predicate Recorded(inodes: map<nat, INode>, d: Dir, done: set<string>, entries: map<string, FileMeta>)
    requires Allocated(inodes, d)
  {
    done <= d.entries.Keys && entries.Keys == done && forall n | n in done :: entries[n] == Meta(inodes, d.entries[n])
  }

  lemma RecordOne(inodes: map<nat, INode>, d: Dir, done: set<string>, entries: map<string, FileMeta>, name: string)
    requires Allocated(inodes, d) && Recorded(inodes, d, done, entries) && name in d.entries
    ensures Recorded(inodes, d, done + {name}, entries[name := Meta(inodes, d.entries[name])])
  {
  }

  ghost predicate Reading(d: Dir, done: set<string>, remaining: set<string>, index: nat) {
    done <= d.entries.Keys && remaining == d.entries.Keys - done && index == |done|
  }

  lemma ReadOne(d: Dir, done: set<string>, remaining: set<string>, index: nat, name: string)
    requires Reading(d, done, remaining, index) && name in remaining
    ensures Reading(d, done + {name}, remaining - {name}, index + 1)
  {
  }

  lemma ReadAll(d: Dir, done: set<string>, index: nat)
    requires Reading(d, done, {}, index)
    ensures done == d.entries.Keys && index == |d.entries.Keys|
  {
    forall n | n in d.entries.Keys ensures n in done {
      assert n !in d.entries.Keys - done;
    }
  }

  lemma RefusedFile(inodes: map<nat, INode>, d: Dir, name: string)
    requires Allocated(inodes, d) && name in d.entries && !ValidFile(inodes, name, d.entries[name])
    ensures !Acceptable(inodes, d)
  {
  }

  lemma OverBudget(inodes: map<nat, INode>, d: Dir, done: set<string>, objects: map<nat, string>, total: nat)
    requires Allocated(inodes, d) && Scanned(inodes, d, done, objects, total)
    requires |objects| > MAX_OBJECTS || total > MAX_STORE
    ensures !Acceptable(inodes, d)
  {
    ScanBound(inodes, d, done, objects, total);
  }

  /** One object of the first pass: it must not share an inode with an earlier object, and must
      stay within the publication budget. */
  method CountObject(inodes: map<nat, INode>, d: Dir, ghost done: set<string>, objects: map<nat, string>, total: nat, name: string)
    returns (fits: bool, objects': map<nat, string>, total': nat)
    requires Allocated(inodes, d) && Scanned(inodes, d, done, objects, total)
    requires name in d.entries && name !in done && !IsAlias(name) && ValidFile(inodes, name, d.entries[name])
    ensures fits ==> Scanned(inodes, d, done + {name}, objects', total')
    ensures fits ==> |objects'| <= MAX_OBJECTS && total' <= MAX_STORE
    ensures !fits ==> !Acceptable(inodes, d)
  {
    var metadata := Meta(inodes, d.entries[name]);
    ScanObject(inodes, d, done, objects, total, name);
    if metadata.ino in objects {
      return false, objects, total;
    }
    objects' := objects[metadata.ino := name];
    total' := total + metadata.len;
    fits := |objects'| <= MAX_OBJECTS && total' <= MAX_STORE;
    if !fits {
      OverBudget(inodes, d, done + {name}, objects', total');
    }
  }

  /** The scan of a directory: it accepts exactly the acceptable directories, in whatever order
      the names are read, and returns their identity. */
  method FingerprintDirectory(inodes: map<nat, INode>, d: Dir) returns (r: Option<Sha>)
    requires Allocated(inodes, d)
    ensures r.Some? <==> Acceptable(inodes, d)
    ensures r.Some? ==> r.value == IdentityOf(inodes, d)
  {
    var entries: map<string, FileMeta> := map[];
    var objects: map<nat, string> := map[];
    var total: nat := 0;
    var remaining := d.entries.Keys;
    var index := 0;
    ghost var done: set<string> := {};
    while remaining != {}
      invariant Reading(d, done, remaining, index)
      invariant Recorded(inodes, d, done, entries)
      invariant index <= MAX_NAMES
      invariant Scanned(inodes, d, done, objects, total)
      invariant |objects| <= MAX_OBJECTS && total <= MAX_STORE
      decreases remaining
    {
      var name :| name in remaining;
      if index >= MAX_NAMES {
        TooManyNames(inodes, d, done, name);
        return None;
      }
      var metadata := Meta(inodes, d.entries[name]);
      if !ValidName(name) || metadata.len > MAX_FILE {
        RefusedFile(inodes, d, name);
        return None;
      }
      if IsAlias(name) {
        ScanAlias(inodes, d, done, objects, total, name);
      } else {
        var fits: bool;
        fits, objects, total := CountObject(inodes, d, done, objects, total, name);
        if !fits {
          return None;
        }
      }
      RecordOne(inodes, d, done, entries, name);
      ReadOne(d, done, remaining, index, name);
      entries := entries[name := metadata];
      remaining := remaining - {name};
      done := done + {name};
      index := index + 1;
    }
    ReadAll(d, done, index);
    ScanComplete(inodes, d, objects, total);
    r := CheckOwners(inodes, d, entries, objects, total);
  }

  /** After the first pass, a name is owned exactly when the object recorded for its inode has
      its stem. */
  lemma OwnerRecorded(inodes: map<nat, INode>, d: Dir, objects: map<nat, string>, total: nat, name: string)
    requires Allocated(inodes, d) && Scanned(inodes, d, d.entries.Keys, objects, total)
    requires name in d.entries
    ensures Owned(d, name) <==> d.entries[name] in objects && objects[d.entries[name]] == Stem(name)
  {
    StemOfObject(name);
  }

  lemma ScanComplete(inodes: map<nat, INode>, d: Dir, objects: map<nat, string>, total: nat)
    requires Allocated(inodes, d) && Scanned(inodes, d, d.entries.Keys, objects, total)
    requires |d.entries.Keys| <= MAX_NAMES && |objects| <= MAX_OBJECTS && total <= MAX_STORE
    ensures Acceptable(inodes, d) <==> forall n {:trigger Owned(d, n)} | n in d.entries :: Owned(d, n)
  {
    ScanBound(inodes, d, d.entries.Keys, objects, total);
    assert |ObjectInodes(d)| == |objects.Keys|;
  }

  lemma EntriesAreIdentity(inodes: map<nat, INode>, d: Dir, entries: map<string, FileMeta>)
    requires Allocated(inodes, d)
    requires Recorded(inodes, d, d.entries.Keys, entries)
    ensures MediaIdentity(d.ino, entries) == IdentityOf(inodes, d)
  {
    assert entries == map n | n in d.entries :: Meta(inodes, d.entries[n]);
  }

  /** The second pass: every name must identify the object that owns its inode. */
  method CheckOwners(inodes: map<nat, INode>, d: Dir, entries: map<string, FileMeta>, objects: map<nat, string>, ghost total: nat)
    returns (r: Option<Sha>)
    requires Allocated(inodes, d) && Scanned(inodes, d, d.entries.Keys, objects, total)
    requires Recorded(inodes, d, d.entries.Keys, entries)
    ensures r.Some? <==> forall n {:trigger Owned(d, n)} | n in d.entries :: Owned(d, n)
    ensures r.Some? ==> r.value == IdentityOf(inodes, d)
  {
    var unchecked := entries.Keys;
    while unchecked != {}
      invariant unchecked <= d.entries.Keys
      invariant forall n {:trigger Owned(d, n)} | n in d.entries && n !in unchecked :: Owned(d, n)
      decreases unchecked
    {
      var name :| name in unchecked;
      var key := entries[name].ino;
      OwnerRecorded(inodes, d, objects, total, name);
      if key !in objects || Stem(name) != objects[key] {
        assert !Owned(d, name);
        return None;
      }
      unchecked := unchecked - {name};
    }
    EntriesAreIdentity(inodes, d, entries);
    return Some(MediaIdentity(d.ino, entries));
  }
}
