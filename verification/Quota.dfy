/** The quota over all imports and the directory about to be published. */
module Quota {
  import opened Names
  import opened Storage
  import opened Fingerprint

  ghost function FileInodes(d: Dir): set<nat> {
    set n | n in d.entries :: d.entries[n]
  }

  /** The inodes behind the names of the imports in `ids`. */
  ghost function InodesIn(dirs: map<Id, Dir>, ids: set<Id>): set<nat> {
    set id, n | id in ids && id in dirs && n in dirs[id].entries :: dirs[id].entries[n]
  }

  /** The names of the imports in `ids`. */
  ghost function NamesIn(dirs: map<Id, Dir>, ids: set<Id>): set<(Id, string)> {
    set id, n | id in ids && id in dirs && n in dirs[id].entries :: (id, n)
  }

  ghost predicate AllAllocated(inodes: map<nat, INode>, dirs: map<Id, Dir>) {
    forall id | id in dirs :: Allocated(inodes, dirs[id])
  }

  lemma {:induction false} PairsSize(id: Id, names: set<string>)
    ensures |set n | n in names :: (id, n)| == |names|
    decreases names
  {
    if names != {} {
      var x :| x in names;
      PairsSize(id, names - {x});
      assert (set n | n in names :: (id, n)) == (set n | n in names - {x} :: (id, n)) + {(id, x)};
    }
  }

  lemma NamesAdd(dirs: map<Id, Dir>, ids: set<Id>, id: Id)
    requires id in dirs && id !in ids
    ensures |NamesIn(dirs, ids + {id})| == |NamesIn(dirs, ids)| + |dirs[id].entries.Keys|
  {
    var own := set n | n in dirs[id].entries.Keys :: (id, n);
    PairsSize(id, dirs[id].entries.Keys);
    assert NamesIn(dirs, ids + {id}) == NamesIn(dirs, ids) + own;
    assert NamesIn(dirs, ids) !! own;
  }

  lemma InodesAdd(dirs: map<Id, Dir>, ids: set<Id>, id: Id)
    requires id in dirs
    ensures InodesIn(dirs, ids + {id}) == InodesIn(dirs, ids) + FileInodes(dirs[id])
  {
  }

  lemma InodesAllocated(inodes: map<nat, INode>, dirs: map<Id, Dir>, ids: set<Id>)
    requires AllAllocated(inodes, dirs)
    ensures InodesIn(dirs, ids) <= inodes.Keys
  {
  }

  /** What the scan has counted: every inode once, every name. */
  datatype Count = Count(objects: set<nat>, entries: nat, bytes: nat)

  ghost predicate Counts(inodes: map<nat, INode>, c: Count) {
    c.objects <= inodes.Keys && c.bytes == SumLen(inodes, c.objects)
  }

  predicate Within(c: Count, limit: nat) {
    c.entries <= MAX_ENTRIES && c.bytes <= limit
  }

  /** The files of `d` read so far, on top of `before`. */
  ghost predicate Reading(inodes: map<nat, INode>, d: Dir, before: Count, done: set<string>, remaining: set<string>, c: Count) {
    && done <= d.entries.Keys && remaining == d.entries.Keys - done
    && c.objects == before.objects + (set n | n in done && n in d.entries :: d.entries[n])
    && c.entries == before.entries + |done|
    && Counts(inodes, c)
  }

  function CountOne(inodes: map<nat, INode>, c: Count, ino: nat): Count
    requires ino in inodes
  {
    if ino in c.objects then c.(entries := c.entries + 1)
    else Count(c.objects + {ino}, c.entries + 1, c.bytes + |inodes[ino].data|)
  }

  lemma ReadNone(inodes: map<nat, INode>, d: Dir, before: Count)
    requires Counts(inodes, before)
    ensures Reading(inodes, d, before, {}, d.entries.Keys, before)
  {
  }

  lemma ReadOne(inodes: map<nat, INode>, d: Dir, before: Count, done: set<string>, remaining: set<string>, c: Count, name: string)
    requires Allocated(inodes, d) && Reading(inodes, d, before, done, remaining, c) && name in remaining
    ensures Reading(inodes, d, before, done + {name}, remaining - {name}, CountOne(inodes, c, d.entries[name]))
  {
    var ino := d.entries[name];
    var c' := CountOne(inodes, c, ino);
    assert c'.objects == c.objects + {ino};
    if ino !in c.objects {
      SumLenAdd(inodes, c.objects, ino);
    }
  }

  /** The totals after `d`, however many of its files have been read. */
  ghost function After(inodes: map<nat, INode>, before: Count, d: Dir): Count
    requires Allocated(inodes, d) && before.objects <= inodes.Keys
  {
    assert FileInodes(d) <= inodes.Keys;
    Count(before.objects + FileInodes(d), before.entries + |d.entries.Keys|, SumLen(inodes, before.objects + FileInodes(d)))
  }

  lemma PartOfAfter(inodes: map<nat, INode>, d: Dir, before: Count, done: set<string>, remaining: set<string>, c: Count)
    requires Allocated(inodes, d) && Counts(inodes, before) && Reading(inodes, d, before, done, remaining, c)
    ensures var all := After(inodes, before, d);
            c.entries <= all.entries && c.bytes <= all.bytes && (remaining == {} ==> c == all)
  {
    var all := After(inodes, before, d);
    SubsetSize(done, d.entries.Keys);
    assert c.objects <= all.objects;
    SumLenMonotone(inodes, c.objects, all.objects);
    if remaining == {} {
      forall n | n in d.entries ensures n in done {
        assert n !in d.entries.Keys - done;
      }
      assert done == d.entries.Keys;
      assert c.objects == all.objects;
    }
  }

  lemma SumLenIncreases(inodes: map<nat, INode>, before: Count, d: Dir)
    requires Allocated(inodes, d) && Counts(inodes, before)
    ensures before.bytes <= After(inodes, before, d).bytes
    ensures Counts(inodes, After(inodes, before, d))
  {
    SumLenMonotone(inodes, before.objects, After(inodes, before, d).objects);
  }

  /** One directory of the quota scan. */
  method Scan(inodes: map<nat, INode>, d: Dir, before: Count, limit: nat) returns (fits: bool, c: Count)
    requires Allocated(inodes, d) && Counts(inodes, before) && Within(before, limit)
    ensures fits <==> Within(After(inodes, before, d), limit)
    ensures fits ==> c == After(inodes, before, d)
  {
    c := before;
    var remaining := d.entries.Keys;
    ghost var done: set<string> := {};
    ReadNone(inodes, d, before);
    while remaining != {}
      invariant Reading(inodes, d, before, done, remaining, c)
      invariant Within(c, limit)
      decreases remaining
    {
      var name :| name in remaining;
      ReadOne(inodes, d, before, done, remaining, c, name);
      c := CountOne(inodes, c, d.entries[name]);
      remaining := remaining - {name};
      done := done + {name};
      PartOfAfter(inodes, d, before, done, remaining, c);
      if !Within(c, limit) {
        return false, c;
      }
    }
    PartOfAfter(inodes, d, before, done, remaining, c);
    fits := true;
  }

  /** The whole quota: at most 1023 imports besides the new one, every name counted, every
      inode counted once. */
  ghost predicate Fits(inodes: map<nat, INode>, imports: map<Id, Dir>, staged: Dir, limit: nat)
    requires AllAllocated(inodes, imports) && Allocated(inodes, staged)
  {
    InodesAllocated(inodes, imports, imports.Keys);
    assert FileInodes(staged) <= inodes.Keys;
    && |imports.Keys| <= MAX_IMPORTS - 1
    && |NamesIn(imports, imports.Keys)| + |staged.entries.Keys| <= MAX_ENTRIES
    && SumLen(inodes, InodesIn(imports, imports.Keys) + FileInodes(staged)) <= limit
  }

  /** The imports scanned so far. */
  ghost predicate Scanning(inodes: map<nat, INode>, imports: map<Id, Dir>, done: set<Id>, remaining: set<Id>, c: Count) {
    && done <= imports.Keys && remaining == imports.Keys - done
    && c.objects == InodesIn(imports, done) && c.entries == |NamesIn(imports, done)|
    && Counts(inodes, c)
  }

  lemma ScanOne(inodes: map<nat, INode>, imports: map<Id, Dir>, done: set<Id>, remaining: set<Id>, c: Count, id: Id)
    requires AllAllocated(inodes, imports) && Scanning(inodes, imports, done, remaining, c) && id in remaining
    ensures Scanning(inodes, imports, done + {id}, remaining - {id}, After(inodes, c, imports[id]))
  {
    NamesAdd(imports, done, id);
    InodesAdd(imports, done, id);
    SumLenIncreases(inodes, c, imports[id]);
  }

  lemma ScanPart(inodes: map<nat, INode>, imports: map<Id, Dir>, done: set<Id>, remaining: set<Id>, c: Count)
    requires AllAllocated(inodes, imports) && Scanning(inodes, imports, done, remaining, c)
    ensures c.objects <= InodesIn(imports, imports.Keys) <= inodes.Keys
    ensures c.entries <= |NamesIn(imports, imports.Keys)| && |done| <= |imports.Keys|
    ensures remaining == {} ==> done == imports.Keys
  {
    InodesAllocated(inodes, imports, imports.Keys);
    SubsetSize(done, imports.Keys);
    assert NamesIn(imports, done) <= NamesIn(imports, imports.Keys);
    SubsetSize(NamesIn(imports, done), NamesIn(imports, imports.Keys));
    if remaining == {} {
      forall id | id in imports ensures id in done {
        assert id !in imports.Keys - done;
      }
    }
  }

  lemma TooMuch(inodes: map<nat, INode>, imports: map<Id, Dir>, done: set<Id>, remaining: set<Id>, c: Count, staged: Dir, limit: nat)
    requires AllAllocated(inodes, imports) && Allocated(inodes, staged)
    requires Scanning(inodes, imports, done, remaining, c)
    requires !Within(c, limit) || |done| >= MAX_IMPORTS
    ensures !Fits(inodes, imports, staged, limit)
  {
    ScanPart(inodes, imports, done, remaining, c);
    assert FileInodes(staged) <= inodes.Keys;
    SumLenMonotone(inodes, c.objects, InodesIn(imports, imports.Keys) + FileInodes(staged));
  }

  lemma ScannedAll(inodes: map<nat, INode>, imports: map<Id, Dir>, done: set<Id>, c: Count, staged: Dir, limit: nat)
    requires AllAllocated(inodes, imports) && Allocated(inodes, staged)
    requires Scanning(inodes, imports, done, {}, c) && |done| <= MAX_IMPORTS - 1
    ensures Counts(inodes, c) && (Fits(inodes, imports, staged, limit) <==> Within(After(inodes, c, staged), limit))
  {
    ScanPart(inodes, imports, done, {}, c);
  }

  /** The capacity check accepts exactly what fits. */
  method CheckCapacity(inodes: map<nat, INode>, imports: map<Id, Dir>, staged: Dir, limit: nat) returns (fits: bool)
    requires AllAllocated(inodes, imports) && Allocated(inodes, staged)
    ensures fits <==> Fits(inodes, imports, staged, limit)
  {
    var c := Count({}, 0, 0);
    var remaining := imports.Keys;
    ghost var done: set<Id> := {};
    var index := 0;
    assert InodesIn(imports, done) == {} && NamesIn(imports, done) == {};
    while remaining != {}
      invariant Scanning(inodes, imports, done, remaining, c)
      invariant index == |done| <= MAX_IMPORTS - 1
      invariant Within(c, limit)
      decreases remaining
    {
      var id :| id in remaining;
      ScanOne(inodes, imports, done, remaining, c, id);
      if index >= MAX_IMPORTS - 1 {
        TooMuch(inodes, imports, done + {id}, remaining - {id}, After(inodes, c, imports[id]), staged, limit);
        return false;
      }
      var ok, next := Scan(inodes, imports[id], c, limit);
      if !ok {
        TooMuch(inodes, imports, done + {id}, remaining - {id}, After(inodes, c, imports[id]), staged, limit);
        return false;
      }
      c := next;
      remaining := remaining - {id};
      done := done + {id};
      index := index + 1;
    }
    ScannedAll(inodes, imports, done, c, staged, limit);
    fits, c := Scan(inodes, staged, c, limit);
  }
}
