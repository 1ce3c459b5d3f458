/** The managed media storage as a value, and the single effects that change it.

    Every effect is one system call that either happened or did not. A crash is a point
    between two effects. */
module Storage {
  import opened Names

  const MAX_FILE: nat := 2 * 1024 * 1024 * 1024
  const MAX_STORE: nat := 8 * 1024 * 1024 * 1024
  const MAX_OBJECTS: nat := 4096
  const MAX_NAMES: nat := 8192
  const MAX_IMPORTS: nat := 1024
  const MAX_ENTRIES: nat := 65536

  /** The references of one selection, and of one validation. */
  const MAX_REFERENCES: nat := 4096

  newtype Byte = b: int | 0 <= b < 256
  type Content = seq<Byte>
  type Id = string
  type Digest = Content -> string

  datatype INode = INode(data: Content, mtime: int, ctime: int, nlink: int)

  datatype Dir = Dir(ino: nat, entries: map<string, nat>)

  datatype FileMeta = FileMeta(ino: nat, len: nat, nlink: int, mtime: int, ctime: int)

  /** A SHA-256 value, represented by the bytes that were hashed: two values are equal exactly
      when the hashed identities are. The three domains have different prefixes. */
  datatype Sha =
    | MediaIdentity(dirIno: nat, files: map<string, FileMeta>)
    | RemovedImport(journal: Journal)
    | OrphanReceipt(receipt: Receipt)

  datatype Receipt = Receipt(id: Id, importsIno: nat, dirIno: nat, fingerprint: Sha)

  datatype FileIdentity = FileIdentity(ino: nat, bytes: nat, mtime: int, sha256: string)

  datatype Journal = Journal(receipt: Receipt, files: map<string, FileIdentity>)

  /** Staged and published directories, receipts, removal journals, and the number of temporary
      files that interrupted writers left in the receipt and journal directories. */
  datatype World = World(
    importsIno: nat,
    inodes: map<nat, INode>,
    staged: map<Id, Dir>,
    imports: map<Id, Dir>,
    receipts: map<Id, Receipt>,
    removals: map<Id, Journal>,
    receiptTemps: nat,
    removalTemps: nat,
    clock: int)

  datatype Effect =
    | WriteReceiptTemp
    | PersistReceipt(receipt: Receipt)
    | RenameStaged(id: Id)
    | WriteJournalTemp
    | PersistJournal(journal: Journal)
    | Unlink(id: Id, name: string)
    | RemoveDirectory(id: Id)
    | RemoveReceipt(id: Id)
    | RemoveJournal(id: Id)
    | DiscardStaged(id: Id)

  function Without<K, V>(m: map<K, V>, k: K): map<K, V> {
    m - {k}
  }

  lemma MapInsert<K, V>(m: map<K, V>, k: K, v: V)
    ensures m[k := v].Keys == m.Keys + {k}
    ensures |m[k := v]| == if k in m then |m| else |m| + 1
  {
    assert m[k := v].Keys == m.Keys + {k};
    assert |m| == |m.Keys| && |m[k := v]| == |m[k := v].Keys|;
  }

  /** What one effect does. Unlinking a name changes the link count and change time that the
      surviving names of the same inode show, and nothing else about them. */
  function Apply(w: World, e: Effect): World {
    match e
    case WriteReceiptTemp => w.(receiptTemps := w.receiptTemps + 1)
    case PersistReceipt(receipt) =>
      w.(receipts := w.receipts[receipt.id := receipt],
         receiptTemps := if w.receiptTemps > 0 then w.receiptTemps - 1 else 0)
    case RenameStaged(id) =>
      if id in w.staged && id !in w.imports then
        w.(staged := Without(w.staged, id), imports := w.imports[id := w.staged[id]])
      else w
    case WriteJournalTemp => w.(removalTemps := w.removalTemps + 1)
    case PersistJournal(journal) =>
      w.(removals := w.removals[journal.receipt.id := journal],
         removalTemps := if w.removalTemps > 0 then w.removalTemps - 1 else 0)
    case Unlink(id, name) =>
      if id in w.imports && name in w.imports[id].entries && w.imports[id].entries[name] in w.inodes then
        var d := w.imports[id];
        var ino := d.entries[name];
        var node := w.inodes[ino];
        w.(imports := w.imports[id := d.(entries := Without(d.entries, name))],
           inodes := w.inodes[ino := node.(nlink := node.nlink - 1, ctime := w.clock)],
           clock := w.clock + 1)
      else w
    case RemoveDirectory(id) =>
      if id in w.imports && w.imports[id].entries == map[] then
        w.(imports := Without(w.imports, id))
      else w
    case RemoveReceipt(id) => w.(receipts := Without(w.receipts, id))
    case RemoveJournal(id) => w.(removals := Without(w.removals, id))
    case DiscardStaged(id) => w.(staged := Without(w.staged, id))
  }

  function ApplyAll(w: World, plan: seq<Effect>): World
    decreases |plan|
  {
    if plan == [] then w else ApplyAll(Apply(w, plan[0]), plan[1..])
  }

  lemma {:induction false} ApplyAllSnoc(w: World, plan: seq<Effect>, e: Effect)
    ensures ApplyAll(w, plan + [e]) == Apply(ApplyAll(w, plan), e)
    decreases |plan|
  {
    if plan == [] {
      assert ([] + [e])[1..] == [];
    } else {
      assert (plan + [e])[1..] == plan[1..] + [e];
      ApplyAllSnoc(Apply(w, plan[0]), plan[1..], e);
    }
  }

  ghost predicate Allocated(inodes: map<nat, INode>, d: Dir) {
    forall n | n in d.entries :: d.entries[n] in inodes
  }

  /** Directory entries name allocated inodes; receipts and journals carry the id they are
      filed under. */
  ghost predicate WellFormed(w: World) {
    && (forall id | id in w.imports :: Allocated(w.inodes, w.imports[id]))
    && (forall id | id in w.staged :: Allocated(w.inodes, w.staged[id]))
    && (forall id | id in w.receipts :: w.receipts[id].id == id)
    && (forall id | id in w.removals :: w.removals[id].receipt.id == id)
  }

  lemma ApplyKeepsWellFormed(w: World, e: Effect)
    requires WellFormed(w)
    ensures WellFormed(Apply(w, e))
    ensures w.inodes.Keys <= Apply(w, e).inodes.Keys
  {
  }

  /** No effect changes the bytes or the modification time of a file, and inode numbers are
      never reused. */
  lemma ApplyKeepsContent(w: World, e: Effect, ino: nat)
    requires ino in w.inodes
    ensures var w' := Apply(w, e);
            ino in w'.inodes && w'.inodes[ino].data == w.inodes[ino].data && w'.inodes[ino].mtime == w.inodes[ino].mtime
  {
  }

  /** The storage devices as the code sees them: the stored state, and the number of effects
      that still happen before the process is interrupted. */
  class Disk {
    var world: World
    var fuel: nat

    ghost predicate Valid()
      reads this
    {
      WellFormed(world)
    }

    constructor (world: World, fuel: nat)
      requires WellFormed(world)
      ensures Valid() && this.world == world && this.fuel == fuel
    {
      this.world := world;
      this.fuel := fuel;
    }

    method Perform(e: Effect) returns (alive: bool)
      requires Valid()
      modifies this
      ensures Valid()
      ensures alive == (old(fuel) > 0)
      ensures world == (if alive then Apply(old(world), e) else old(world))
      ensures fuel == (if alive then old(fuel) - 1 else 0)
    {
      alive := fuel > 0;
      if alive {
        ApplyKeepsWellFormed(world, e);
        world := Apply(world, e);
        fuel := fuel - 1;
      }
    }
  }

  lemma AppliedStep(w0: World, plan: seq<Effect>, k: nat)
    requires k < |plan|
    ensures ApplyAll(w0, plan[..k + 1]) == Apply(ApplyAll(w0, plan[..k]), plan[k])
  {
    assert plan[..k + 1] == plan[..k] + [plan[k]];
    ApplyAllSnoc(w0, plan[..k], plan[k]);
  }

  lemma ApplyTwo(w: World, a: Effect, b: Effect)
    ensures ApplyAll(w, [a, b]) == Apply(Apply(w, a), b) && ApplyAll(w, [a]) == Apply(w, a)
  {
    assert [a, b][1..] == [b] && [b][1..] == [] && [a][1..] == [];
    assert ApplyAll(Apply(w, a), [b]) == Apply(Apply(w, a), b);
  }

  lemma {:induction false} ApplyAllAppend(w: World, a: seq<Effect>, b: seq<Effect>)
    ensures ApplyAll(ApplyAll(w, a), b) == ApplyAll(w, a + b)
    decreases |a|
  {
    if a == [] {
      assert [] + b == b;
    } else {
      assert (a + b)[1..] == a[1..] + b;
      ApplyAllAppend(Apply(w, a[0]), a[1..], b);
    }
  }

  lemma {:induction false} ApplyAllKeepsWellFormed(w: World, plan: seq<Effect>)
    requires WellFormed(w)
    ensures WellFormed(ApplyAll(w, plan))
    decreases |plan|
  {
    if plan != [] {
      ApplyKeepsWellFormed(w, plan[0]);
      ApplyAllKeepsWellFormed(Apply(w, plan[0]), plan[1..]);
    }
  }

  lemma Split<T>(q: seq<T>, k: nat, n: nat)
    requires k <= n <= |q|
    ensures q[k..][..n - k] == q[k..n] && q[..k] + q[k..n] == q[..n] && q[k..][n - k..] == q[n..]
  {
  }

  /** How an operation ends: finished, refused before its next effect, or interrupted. */
  datatype Outcome = Done | Refused | Stopped

  /** How far an operation got through its plan from step `m`, with `fuel` effects before the
      interruption. */
  ghost predicate Reached(w0: World, plan: seq<Effect>, m: nat, fuel: nat, after: World, left: nat, r: Outcome) {
    && m <= |plan|
    && (m + fuel >= |plan| ==> r == Done && after == ApplyAll(w0, plan) && left == m + fuel - |plan|)
    && (m + fuel < |plan| ==> r == Stopped && after == ApplyAll(w0, plan[..m + fuel]) && left == 0)
  }

  lemma ReachedFrom(w0: World, plan: seq<Effect>, m: nat, fuel: nat, steps: nat, after: World, left: nat, r: Outcome)
    requires steps <= fuel && Reached(w0, plan, m + steps, fuel - steps, after, left, r)
    ensures Reached(w0, plan, m, fuel, after, left, r)
  {
  }

  // Sizes are counted once per inode.

  ghost function SumLen(inodes: map<nat, INode>, s: set<nat>): nat
    requires s <= inodes.Keys
    decreases |s|
  {
    if s == {} then 0 else
    var i :| i in s;
    |inodes[i].data| + SumLen(inodes, s - {i})
  }

  lemma {:induction false} SumLenAdd(inodes: map<nat, INode>, s: set<nat>, x: nat)
    requires s <= inodes.Keys && x in inodes && x !in s
    ensures SumLen(inodes, s + {x}) == |inodes[x].data| + SumLen(inodes, s)
    decreases |s|
  {
    var all := s + {x};
    var i :| i in all && SumLen(inodes, all) == |inodes[i].data| + SumLen(inodes, all - {i});
    if i == x {
      assert all - {i} == s;
    } else {
      assert all - {i} == (s - {i}) + {x};
      SumLenAdd(inodes, s - {i}, x);
      assert s == (s - {i}) + {i};
      SumLenAdd(inodes, s - {i}, i);
    }
  }

  lemma {:induction false} SumLenUnion(inodes: map<nat, INode>, a: set<nat>, b: set<nat>)
    requires a <= inodes.Keys && b <= inodes.Keys && a !! b
    ensures SumLen(inodes, a + b) == SumLen(inodes, a) + SumLen(inodes, b)
    decreases |b|
  {
    if b == {} {
      assert a + b == a;
    } else {
      var x :| x in b;
      SumLenUnion(inodes, a, b - {x});
      assert a + b == (a + (b - {x})) + {x};
      SumLenAdd(inodes, a + (b - {x}), x);
      assert b == (b - {x}) + {x};
      SumLenAdd(inodes, b - {x}, x);
    }
  }

  lemma SumLenMonotone(inodes: map<nat, INode>, a: set<nat>, b: set<nat>)
    requires a <= b <= inodes.Keys
    ensures SumLen(inodes, a) <= SumLen(inodes, b)
  {
    SumLenUnion(inodes, a, b - a);
    assert a + (b - a) == b;
  }

  lemma {:induction false} SumLenFrame(inodes: map<nat, INode>, inodes': map<nat, INode>, s: set<nat>)
    requires s <= inodes.Keys && s <= inodes'.Keys
    requires forall i | i in s :: |inodes[i].data| == |inodes'[i].data|
    ensures SumLen(inodes, s) == SumLen(inodes', s)
    decreases |s|
  {
    if s != {} {
      var x :| x in s;
      SumLenFrame(inodes, inodes', s - {x});
      assert s == (s - {x}) + {x};
      SumLenAdd(inodes, s - {x}, x);
      SumLenAdd(inodes', s - {x}, x);
    }
  }
}
