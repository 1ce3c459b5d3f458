/** The managed store over every run of staging, publication and removal, each operation stopped
    after any effect. */
module Store {
  import opened Names
  import opened Storage
  import opened Fingerprint
  import opened Quota
  import opened Review
  import opened Removal
  import opened Remove
  import opened Publication
  import RemovalRuns
  import PublicationRuns

  /** Bytes counted once per inode, names and directories of the store. */
  ghost predicate WithinQuota(w: World)
    requires WellFormed(w)
  {
    assert AllAllocated(w.inodes, w.imports);
    InodesAllocated(w.inodes, w.imports, w.imports.Keys);
    && |w.imports.Keys| <= MAX_IMPORTS
    && |NamesIn(w.imports, w.imports.Keys)| <= MAX_ENTRIES
    && SumLen(w.inodes, InodesIn(w.imports, w.imports.Keys)) <= MAX_STORE
  }

  ghost predicate AllHealthy(sha: Digest, w: World)
    requires WellFormed(w)
  {
    forall id: Id :: RemovalRuns.Healthy(sha, w, id)
  }

  function Folders(w: World): map<Id, Dir> {
    w.imports + w.staged
  }

  /** A staged directory is not published, and no two directories share a file. */
  ghost predicate Exclusive(w: World) {
    && (forall id | id in w.staged :: id !in w.imports && id !in w.removals)
    && (forall a, b | a in Folders(w) && b in Folders(w) && a != b :: FileInodes(Folders(w)[a]) !! FileInodes(Folders(w)[b]))
  }

  ghost predicate Sound(sha: Digest, w: World) {
    WellFormed(w) && WithinQuota(w) && AllHealthy(sha, w) && Exclusive(w)
  }

  function Empty(importsIno: nat): World {
    World(importsIno, map[], map[], map[], map[], map[], 0, 0, 0)
  }

  lemma EmptyIsSound(sha: Digest, importsIno: nat)
    ensures Sound(sha, Empty(importsIno))
  {
    var w := Empty(importsIno);
    assert InodesIn(w.imports, w.imports.Keys) == {} && NamesIn(w.imports, w.imports.Keys) == {};
    forall id: Id ensures RemovalRuns.Healthy(sha, w, id) {
      assert Gone(w, id);
    }
  }

  // Quota.

  /** Imports only lose names, and files keep their length. */
  ghost predicate Shrunk(w: World, w': World) {
    && (forall id | id in w'.imports :: id in w.imports && Within(w'.imports[id], w.imports[id]))
    && (forall i | i in w.inodes :: i in w'.inodes && |w'.inodes[i].data| == |w.inodes[i].data|)
  }

  ghost predicate Within(d: Dir, d0: Dir) {
    forall n | n in d.entries :: n in d0.entries && d0.entries[n] == d.entries[n]
  }

  lemma ShrunkTransitive(w: World, w': World, w'': World)
    requires Shrunk(w, w') && Shrunk(w', w'')
    ensures Shrunk(w, w'')
  {
    forall id | id in w''.imports ensures id in w.imports && Within(w''.imports[id], w.imports[id]) {
      assert id in w'.imports && Within(w''.imports[id], w'.imports[id]) && Within(w'.imports[id], w.imports[id]);
    }
  }

  lemma EffectShrinks(w: World, e: Effect)
    requires !e.RenameStaged?
    ensures Shrunk(w, Apply(w, e))
  {
  }

  lemma {:induction false} EffectsShrink(w: World, plan: seq<Effect>, id: Id)
    requires RemovalRuns.AllConcern(plan, id)
    ensures Shrunk(w, ApplyAll(w, plan)) && ApplyAll(w, plan).staged == w.staged
    decreases |plan|
  {
    if plan != [] {
      EffectShrinks(w, plan[0]);
      assert Apply(w, plan[0]).staged == w.staged;
      EffectsShrink(Apply(w, plan[0]), plan[1..], id);
      ShrunkTransitive(w, Apply(w, plan[0]), ApplyAll(w, plan));
    } else {
      assert Shrunk(w, w);
    }
  }

  lemma ShrunkWithinQuota(w: World, w': World)
    requires WellFormed(w) && WellFormed(w') && Shrunk(w, w') && WithinQuota(w)
    ensures WithinQuota(w')
  {
    var ids, ids' := w.imports.Keys, w'.imports.Keys;
    SubsetSize(ids', ids);
    forall x | x in NamesIn(w'.imports, ids') ensures x in NamesIn(w.imports, ids) {
      assert Within(w'.imports[x.0], w.imports[x.0]);
    }
    SubsetSize(NamesIn(w'.imports, ids'), NamesIn(w.imports, ids));
    InodesAllocated(w.inodes, w.imports, ids);
    var all, all' := InodesIn(w.imports, ids), InodesIn(w'.imports, ids');
    forall i | i in all' ensures i in all {
      var id, n :| id in ids' && n in w'.imports[id].entries && w'.imports[id].entries[n] == i;
      assert Within(w'.imports[id], w.imports[id]);
    }
    SumLenMonotone(w.inodes, all', all);
    SumLenFrame(w.inodes, w'.inodes, all');
  }

  lemma RenameWithinQuota(w: World, id: Id)
    requires WellFormed(w) && id in w.staged && id !in w.imports
    requires Fits(w.inodes, w.imports, w.staged[id], MAX_STORE)
    ensures WellFormed(Apply(w, RenameStaged(id))) && WithinQuota(Apply(w, RenameStaged(id)))
  {
    var w' := Apply(w, RenameStaged(id));
    ApplyKeepsWellFormed(w, RenameStaged(id));
    assert w'.imports == w.imports[id := w.staged[id]];
    RenameCounts(w.imports, id, w.staged[id]);
  }

  lemma RenameCounts(imports: map<Id, Dir>, id: Id, d: Dir)
    requires id !in imports
    ensures var imports' := imports[id := d];
            && imports'.Keys == imports.Keys + {id}
            && |NamesIn(imports', imports'.Keys)| == |NamesIn(imports, imports.Keys)| + |d.entries.Keys|
            && InodesIn(imports', imports'.Keys) == InodesIn(imports, imports.Keys) + FileInodes(d)
  {
    var imports' := imports[id := d];
    assert imports'.Keys == imports.Keys + {id};
    NamesAdd(imports', imports.Keys, id);
    InodesAdd(imports', imports.Keys, id);
    assert NamesIn(imports', imports.Keys) == NamesIn(imports, imports.Keys);
    assert InodesIn(imports', imports.Keys) == InodesIn(imports, imports.Keys);
  }

  // Health.

  lemma SameImportSameHealth(sha: Digest, w: World, w': World, id: Id)
    requires WellFormed(w) && WellFormed(w') && RemovalRuns.SameImport(w, w', id)
    ensures RemovalRuns.Healthy(sha, w, id) ==> RemovalRuns.Healthy(sha, w', id)
  {
    RemovalRuns.SameImportSameReview(sha, w, w', id);
  }

  /** Everything but one import is untouched, and that one is healthy. */
  lemma HealthyElsewhere(sha: Digest, w: World, w': World, id: Id)
    requires WellFormed(w) && WellFormed(w') && AllHealthy(sha, w) && RemovalRuns.Healthy(sha, w', id)
    requires forall other: Id | other != id :: RemovalRuns.SameImport(w, w', other)
    ensures AllHealthy(sha, w')
  {
    forall other: Id ensures RemovalRuns.Healthy(sha, w', other) {
      if other != id {
        assert RemovalRuns.Healthy(sha, w, other);
        SameImportSameHealth(sha, w, w', other);
      }
    }
  }

  /** The effects of publication that the code performs in a state. */
  ghost predicate Legal(w: World, e: Effect)
    requires WellFormed(w)
  {
    match e
    case WriteReceiptTemp => true
    case PersistReceipt(receipt) => receipt.id in w.staged && receipt.id !in w.receipts
    case RenameStaged(id) =>
      && id in w.staged && id !in w.imports && id in w.receipts
      && HasIdentity(w.inodes, w.staged[id], w.receipts[id].fingerprint)
      && w.receipts[id] == ReceiptFor(w, id, w.receipts[id].fingerprint)
      && Fits(w.inodes, w.imports, w.staged[id], MAX_STORE)
    case DiscardStaged(id) => true
    case _ => false
  }

  function Subject(e: Effect): Id {
    match e
    case PersistReceipt(receipt) => receipt.id
    case RenameStaged(id) => id
    case DiscardStaged(id) => id
    case _ => ""
  }

  lemma LegalLeavesOthers(w: World, e: Effect, other: Id)
    requires WellFormed(w) && Legal(w, e) && other != Subject(e)
    ensures RemovalRuns.SameImport(w, Apply(w, e), other)
  {
    hide HasIdentity, Fits, WellFormed;
  }

  lemma BystanderEffect(sha: Digest, w: World, e: Effect, id: Id)
    requires WellFormed(w) && (e.WriteReceiptTemp? || e.DiscardStaged?) && RemovalRuns.Healthy(sha, w, id)
    ensures WellFormed(Apply(w, e)) && RemovalRuns.Healthy(sha, Apply(w, e), id)
  {
    ApplyKeepsWellFormed(w, e);
    assert RemovalRuns.SameImport(w, Apply(w, e), id);
    SameImportSameHealth(sha, w, Apply(w, e), id);
  }

  lemma RecordedIsOrphan(w: World, receipt: Receipt)
    requires WellFormed(w) && Legal(w, PersistReceipt(receipt)) && Exclusive(w)
    ensures WellFormed(Apply(w, PersistReceipt(receipt))) && Orphan(Apply(w, PersistReceipt(receipt)), receipt.id)
  {
    ApplyKeepsWellFormed(w, PersistReceipt(receipt));
  }

  lemma LegalSubject(sha: Digest, w: World, e: Effect)
    requires WellFormed(w) && Legal(w, e) && RemovalRuns.Healthy(sha, w, Subject(e)) && Exclusive(w)
    ensures WellFormed(Apply(w, e)) && RemovalRuns.Healthy(sha, Apply(w, e), Subject(e))
  {
    if e.PersistReceipt? {
      RecordedIsOrphan(w, e.receipt);
    } else if e.RenameStaged? {
      RenamedIsFresh(w, e.id);
    } else {
      BystanderEffect(sha, w, e, Subject(e));
    }
  }

  lemma RenamedIsFresh(w: World, id: Id)
    requires WellFormed(w) && Legal(w, RenameStaged(id)) && Exclusive(w)
    ensures WellFormed(Apply(w, RenameStaged(id))) && Fresh(Apply(w, RenameStaged(id)), id)
  {
    var fingerprint := w.receipts[id].fingerprint;
    RenameEffect(w, id, fingerprint);
    assert id !in w.removals;
    PublicationRuns.ReceiptMatches(Apply(w, RenameStaged(id)), id, fingerprint);
  }

  lemma LegalKeepsExclusive(w: World, e: Effect)
    requires WellFormed(w) && Legal(w, e) && Exclusive(w)
    ensures Exclusive(Apply(w, e))
  {
    hide HasIdentity, Fits, WellFormed;
    var w' := Apply(w, e);
    forall a | a in Folders(w') ensures a in Folders(w) && Folders(w)[a] == Folders(w')[a] {
    }
  }

  lemma LegalKeepsQuota(w: World, e: Effect)
    requires WellFormed(w) && Legal(w, e) && WithinQuota(w)
    ensures WellFormed(Apply(w, e)) && WithinQuota(Apply(w, e))
  {
    ApplyKeepsWellFormed(w, e);
    if e.RenameStaged? {
      RenameWithinQuota(w, e.id);
    } else {
      EffectShrinks(w, e);
      ShrunkWithinQuota(w, Apply(w, e));
    }
  }

  /** Each effect of a publication keeps the store sound. */
  lemma LegalKeepsSound(sha: Digest, w: World, e: Effect)
    requires Sound(sha, w) && Legal(w, e)
    ensures Sound(sha, Apply(w, e))
  {
    assert RemovalRuns.Healthy(sha, w, Subject(e));
    LegalSubject(sha, w, e);
    LegalKeepsExclusive(w, e);
    LegalKeepsQuota(w, e);
    forall other: Id | other != Subject(e) ensures RemovalRuns.SameImport(w, Apply(w, e), other) {
      LegalLeavesOthers(w, e, other);
    }
    hide Apply, Legal, RemovalRuns.Healthy, RemovalRuns.SameImport;
    HealthyElsewhere(sha, w, Apply(w, e), Subject(e));
  }

  // Operations.

  /** Staging a directory of new files under an id that was never used. */
  ghost predicate Stageable(w: World, id: Id, d: Dir, files: map<nat, INode>) {
    && id !in w.staged && id !in w.imports && id !in w.receipts && id !in w.removals
    && files.Keys !! w.inodes.Keys && FileInodes(d) <= files.Keys
  }

  function Staged(w: World, id: Id, d: Dir, files: map<nat, INode>): World {
    w.(staged := w.staged[id := d], inodes := w.inodes + files)
  }

  lemma StagedWellFormed(w: World, id: Id, d: Dir, files: map<nat, INode>)
    requires WellFormed(w) && Stageable(w, id, d, files)
    ensures WellFormed(Staged(w, id, d, files)) && Shrunk(w, Staged(w, id, d, files))
  {
    assert forall n | n in d.entries :: d.entries[n] in FileInodes(d);
  }

  lemma StagedExclusive(w: World, id: Id, d: Dir, files: map<nat, INode>)
    requires WellFormed(w) && Stageable(w, id, d, files) && Exclusive(w)
    ensures Exclusive(Staged(w, id, d, files))
  {
    var w' := Staged(w, id, d, files);
    forall a | a in Folders(w') && a != id ensures a in Folders(w) && Folders(w')[a] == Folders(w)[a] && FileInodes(Folders(w)[a]) <= w.inodes.Keys {
      assert Allocated(w.inodes, Folders(w)[a]);
    }
    assert Folders(w')[id] == d;
  }

  lemma StagedKeepsSound(sha: Digest, w: World, id: Id, d: Dir, files: map<nat, INode>)
    requires Sound(sha, w) && Stageable(w, id, d, files)
    ensures Sound(sha, Staged(w, id, d, files))
  {
    var w' := Staged(w, id, d, files);
    StagedWellFormed(w, id, d, files);
    StagedExclusive(w, id, d, files);
    ShrunkWithinQuota(w, w');
    forall other: Id ensures RemovalRuns.Healthy(sha, w', other) {
      assert RemovalRuns.Healthy(sha, w, other);
      assert RemovalRuns.SameImport(w, w', other);
      SameImportSameHealth(sha, w, w', other);
    }
  }

  lemma ReadyEffects(w: World, id: Id, fingerprint: Sha)
    requires WellFormed(w) && Ready(w, id, fingerprint)
    ensures id in w.staged
    ensures var receipt := ReceiptFor(w, id, fingerprint);
            var w1 := Apply(w, WriteReceiptTemp);
            var w2 := if id in w.receipts then w else Apply(w1, PersistReceipt(receipt));
            && WellFormed(w1) && WellFormed(w2)
            && (id !in w.receipts ==> Legal(w, WriteReceiptTemp) && Legal(w1, PersistReceipt(receipt)))
            && Legal(w2, RenameStaged(id)) && Legal(w2, DiscardStaged(id))
  {
    var receipt := ReceiptFor(w, id, fingerprint);
    ApplyKeepsWellFormed(w, WriteReceiptTemp);
    ApplyKeepsWellFormed(Apply(w, WriteReceiptTemp), PersistReceipt(receipt));
    hide WellFormed, Acceptable, Fits, IdentityOf;
  }

  function Performed(w: World, plan: seq<Effect>, fuel: nat): World {
    ApplyAll(w, plan[..if fuel <= |plan| then fuel else |plan|])
  }

  lemma OneEffect(w: World, e: Effect)
    ensures ApplyAll(w, [e][..0]) == w && ApplyAll(w, [e][..1]) == Apply(w, e)
  {
    assert [e][..0] == [] && [e][..1] == [e];
    ApplyTwo(w, e, e);
  }

  lemma OneKeeps(sha: Digest, w: World, e: Effect, fuel: nat)
    requires Sound(sha, w) && Legal(w, e)
    ensures Sound(sha, Performed(w, [e], fuel))
  {
    hide Sound, Legal, Apply;
    OneEffect(w, e);
    LegalKeepsSound(sha, w, e);
  }

  lemma ThreeKeep(sha: Digest, w: World, a: Effect, b: Effect, c: Effect, fuel: nat)
    requires Sound(sha, w) && Legal(w, a)
    requires WellFormed(Apply(w, a)) && Legal(Apply(w, a), b)
    requires WellFormed(Apply(Apply(w, a), b)) && Legal(Apply(Apply(w, a), b), c)
    ensures Sound(sha, Performed(w, [a, b, c], fuel))
  {
    hide Sound, Legal, Apply, WellFormed;
    PublicationRuns.ThreeEffects(w, a, b, c);
    LegalKeepsSound(sha, w, a);
    LegalKeepsSound(sha, Apply(w, a), b);
    LegalKeepsSound(sha, Apply(Apply(w, a), b), c);
  }

  lemma PublishedIs(w: World, id: Id, fingerprint: Sha, fuel: nat)
    requires WellFormed(w)
    ensures !Ready(w, id, fingerprint) ==> PublicationRuns.After(w, id, fingerprint, fuel) == w
    ensures Ready(w, id, fingerprint) ==> id in w.staged
    ensures Ready(w, id, fingerprint) ==>
              PublicationRuns.After(w, id, fingerprint, fuel) == Performed(w, PublishPlan(w, id, fingerprint), fuel)
  {
  }

  /** An attempt to publish, stopped anywhere, keeps the store sound. */
  lemma PublishKeepsSound(sha: Digest, w: World, id: Id, fingerprint: Sha, fuel: nat)
    requires Sound(sha, w)
    ensures WellFormed(w) && Sound(sha, PublicationRuns.After(w, id, fingerprint, fuel))
  {
    assert WellFormed(w);
    hide *;
    PublishedIs(w, id, fingerprint, fuel);
    if Ready(w, id, fingerprint) {
      ReadyEffects(w, id, fingerprint);
      if id in w.receipts {
        PublicationRuns.PlanRecorded(w, id, fingerprint);
        OneKeeps(sha, w, RenameStaged(id), fuel);
      } else {
        PublicationRuns.PlanUnrecorded(w, id, fingerprint);
        ThreeKeep(sha, w, WriteReceiptTemp, PersistReceipt(ReceiptFor(w, id, fingerprint)), RenameStaged(id), fuel);
      }
    }
  }

  /** The state a publication of a selection leaves after `fuel` effects. */
  ghost function Selected(w: World, id: Id, fingerprint: Sha, addressed: bool, checks: nat, fuel: nat): World
    requires WellFormed(w) && id in w.staged
  {
    var plan := SelectionPlan(w, id, fingerprint, addressed, checks);
    ApplyAll(w, plan[..if fuel <= |plan| then fuel else |plan|])
  }

  lemma SelectedIsLeft(w: World, id: Id, fingerprint: Sha, addressed: bool, checks: nat, fuel: nat, after: World, left: nat, r: Outcome)
    requires WellFormed(w) && id in w.staged
    requires SelectionEnds(w, id, fingerprint, addressed, checks, fuel, after, left, r)
    ensures after == Selected(w, id, fingerprint, addressed, checks, fuel)
  {
    hide WellFormed, SelectionPlan, ApplyAll, Accepted;
    var plan := SelectionPlan(w, id, fingerprint, addressed, checks);
    assert plan[..|plan|] == plan;
  }

  /** The selection code leaves exactly this state. */
  method Select(disk: Disk, id: Id, fingerprint: Sha, addressed: bool, checks: nat) returns (r: Outcome)
    requires disk.Valid() && WellFormed(disk.world) && id in disk.world.staged
    modifies disk
    ensures disk.Valid() && WellFormed(old(disk.world))
    ensures disk.world == Selected(old(disk.world), id, fingerprint, addressed, checks, old(disk.fuel))
  {
    hide *;
    ghost var w0 := disk.world;
    ghost var fuel := disk.fuel;
    r := PublishSelection(disk, id, fingerprint, addressed, checks);
    SelectedIsLeft(w0, id, fingerprint, addressed, checks, fuel, disk.world, disk.fuel, r);
  }

  /** In a sound store a selection that is accepted is ready to publish, and its plan is one of
      three. */
  lemma SelectionPlans(sha: Digest, w: World, id: Id, fingerprint: Sha, addressed: bool, checks: nat)
    requires Sound(sha, w) && id in w.staged
    ensures Legal(w, DiscardStaged(id))
    ensures var plan := SelectionPlan(w, id, fingerprint, addressed, checks);
            var receipt := ReceiptFor(w, id, fingerprint);
            var last := LastEffect(w, id, checks);
            || plan == [DiscardStaged(id)]
            || (Ready(w, id, fingerprint) && (last == RenameStaged(id) || last == DiscardStaged(id))
                && plan == if id in w.receipts then [last] else [WriteReceiptTemp, PersistReceipt(receipt), last])
  {
    hide Admitted, WellFormed, WithinQuota, AllHealthy;
  }

  lemma SelectKeepsSound(sha: Digest, w: World, id: Id, fingerprint: Sha, addressed: bool, checks: nat, fuel: nat)
    requires Sound(sha, w) && id in w.staged
    ensures Sound(sha, Selected(w, id, fingerprint, addressed, checks, fuel))
  {
    assert WellFormed(w);
    hide *;
    SelectionPlans(sha, w, id, fingerprint, addressed, checks);
    SelectedIs(w, id, fingerprint, addressed, checks, fuel);
    if SelectionPlan(w, id, fingerprint, addressed, checks) == [DiscardStaged(id)] {
      OneKeeps(sha, w, DiscardStaged(id), fuel);
    } else {
      var receipt := ReceiptFor(w, id, fingerprint);
      ReadyEffects(w, id, fingerprint);
      if id in w.receipts {
        OneKeeps(sha, w, LastEffect(w, id, checks), fuel);
      } else {
        ThreeKeep(sha, w, WriteReceiptTemp, PersistReceipt(receipt), LastEffect(w, id, checks), fuel);
      }
    }
  }

  lemma SelectedIs(w: World, id: Id, fingerprint: Sha, addressed: bool, checks: nat, fuel: nat)
    requires WellFormed(w) && id in w.staged
    ensures Selected(w, id, fingerprint, addressed, checks, fuel) == Performed(w, SelectionPlan(w, id, fingerprint, addressed, checks), fuel)
  {
  }

  // Removal.

  lemma ExclusiveSeparate(w: World, id: Id, other: Id)
    requires Exclusive(w) && other != id
    ensures RemovalRuns.Separate(w, id, other)
  {
    if id in w.imports && other in w.imports {
      assert id in Folders(w) && other in Folders(w);
    }
  }

  lemma RemovalLeavesOthers(sha: Digest, w: World, id: Id, t: RemovalRuns.Try, other: Id)
    requires WellFormed(w) && Exclusive(w) && other != id
    ensures RemovalRuns.SameImport(w, RemovalRuns.After(sha, w, id, t), other)
  {
    ExclusiveSeparate(w, id, other);
    RemovalRuns.PlanConcerns(sha, w, id);
    RemovalRuns.EffectsLeaveOthers(w, Plan(sha, w, id)[..RemovalRuns.Steps(sha, w, id, t)], id, other);
  }

  lemma RemovalShrinks(sha: Digest, w: World, id: Id, t: RemovalRuns.Try)
    requires WellFormed(w)
    ensures var w' := RemovalRuns.After(sha, w, id, t); Shrunk(w, w') && w'.staged == w.staged
  {
    RemovalRuns.PlanConcerns(sha, w, id);
    EffectsShrink(w, Plan(sha, w, id)[..RemovalRuns.Steps(sha, w, id, t)], id);
  }

  /** A removal never journals an id whose directory is staged. */
  lemma StagedNotJournaled(sha: Digest, w: World, id: Id, t: RemovalRuns.Try)
    requires WellFormed(w) && RemovalRuns.Healthy(sha, w, id) && id !in w.imports && id !in w.removals
    ensures RemovalRuns.After(sha, w, id, t).removals == w.removals
  {
    ShortPlan(sha, w, id);
    var n := RemovalRuns.Steps(sha, w, id, t);
    assert RemovalRuns.After(sha, w, id, t) == ApplyAll(w, Plan(sha, w, id)[..n]);
    hide *;
    if Plan(sha, w, id) == [RemoveReceipt(id)] {
      OneEffect(w, RemoveReceipt(id));
      KeepsRemovals(w, id);
    } else {
      NoEffect(w);
    }
  }

  lemma NoEffect(w: World)
    ensures var none: seq<Effect> := []; none[..0] == none && ApplyAll(w, none) == w
  {
  }

  lemma KeepsRemovals(w: World, id: Id)
    ensures Apply(w, RemoveReceipt(id)).removals == w.removals
  {
  }

  lemma ShortPlan(sha: Digest, w: World, id: Id)
    requires WellFormed(w) && RemovalRuns.Healthy(sha, w, id) && id !in w.imports && id !in w.removals
    ensures Plan(sha, w, id) == [RemoveReceipt(id)] || Plan(sha, w, id) == []
  {
    hide Rest, JournalFor;
  }

  lemma RemovalKeepsExclusive(sha: Digest, w: World, id: Id, t: RemovalRuns.Try)
    requires Sound(sha, w)
    ensures Exclusive(RemovalRuns.After(sha, w, id, t))
  {
    assert RemovalRuns.Healthy(sha, w, id) && WellFormed(w) && Exclusive(w);
    var w' := RemovalRuns.After(sha, w, id, t);
    hide RemovalRuns.After, WellFormed, WithinQuota, AllHealthy, RemovalRuns.Healthy;
    RemovalShrinks(sha, w, id, t);
    forall s | s in w'.staged ensures s !in w'.imports && s !in w'.removals {
      if s == id {
        StagedNotJournaled(sha, w, id, t);
      } else {
        RemovalLeavesOthers(sha, w, id, t, s);
      }
    }
    forall a | a in Folders(w') ensures a in Folders(w) && FileInodes(Folders(w')[a]) <= FileInodes(Folders(w)[a]) {
      if a !in w'.staged {
        assert Within(w'.imports[a], w.imports[a]);
      }
    }
  }

  lemma RemoveKeepsSound(sha: Digest, w: World, id: Id, t: RemovalRuns.Try)
    requires Sound(sha, w) && IsDigest(sha)
    ensures Sound(sha, RemovalRuns.After(sha, w, id, t))
  {
    var w' := RemovalRuns.After(sha, w, id, t);
    assert RemovalRuns.Healthy(sha, w, id) && WellFormed(w) && WellFormed(w');
    RemovalRuns.HealthyStep(sha, w, id, t);
    RemovalShrinks(sha, w, id, t);
    ShrunkWithinQuota(w, w');
    RemovalKeepsExclusive(sha, w, id, t);
    forall other: Id | other != id ensures RemovalRuns.SameImport(w, w', other) {
      RemovalLeavesOthers(sha, w, id, t, other);
    }
    hide RemovalRuns.After, RemovalRuns.Healthy, WithinQuota, Exclusive, RemovalRuns.SameImport;
    HealthyElsewhere(sha, w, w', id);
  }

  // Runs.

  datatype Operation =
    | Stage(id: Id, directory: Dir, files: map<nat, INode>)
    | Publish(id: Id, fingerprint: Sha, fuel: nat)
    | Select(id: Id, fingerprint: Sha, addressed: bool, checks: nat, fuel: nat)
    | Remove(id: Id, attempt: RemovalRuns.Try)

  /** Staging takes an unused id and new files; a selection still has its staged files. */
  ghost predicate Possible(w: World, op: Operation) {
    match op
    case Stage(id, d, files) => Stageable(w, id, d, files)
    case Select(id, _, _, _, _) => id in w.staged
    case _ => true
  }

  ghost function Step(sha: Digest, w: World, op: Operation): World
    requires WellFormed(w) && Possible(w, op)
  {
    match op
    case Stage(id, d, files) => Staged(w, id, d, files)
    case Publish(id, fingerprint, fuel) => PublicationRuns.After(w, id, fingerprint, fuel)
    case Select(id, fingerprint, addressed, checks, fuel) => Selected(w, id, fingerprint, addressed, checks, fuel)
    case Remove(id, attempt) => RemovalRuns.After(sha, w, id, attempt)
  }

  /** Whatever operation is attempted in a sound store, with any review or fingerprint and stopped
      after any effect, the store stays sound. */
  lemma StepKeepsSound(sha: Digest, w: World, op: Operation)
    requires Sound(sha, w) && IsDigest(sha) && Possible(w, op)
    ensures Sound(sha, Step(sha, w, op))
  {
    hide Sound;
    assert WellFormed(w) by { SoundWellFormed(sha, w); }
    match op
    case Stage(id, d, files) => StagedKeepsSound(sha, w, id, d, files);
    case Publish(id, fingerprint, fuel) => PublishKeepsSound(sha, w, id, fingerprint, fuel);
    case Select(id, fingerprint, addressed, checks, fuel) => SelectKeepsSound(sha, w, id, fingerprint, addressed, checks, fuel);
    case Remove(id, attempt) => RemoveKeepsSound(sha, w, id, attempt);
  }

  lemma SoundWellFormed(sha: Digest, w: World)
    requires Sound(sha, w)
    ensures WellFormed(w)
  {
  }

  /** The states that runs of possible operations reach. */
  ghost predicate Reachable(sha: Digest, w: World, ops: seq<Operation>, w': World)
    decreases |ops|
  {
    if ops == [] then w' == w
    else WellFormed(w) && Possible(w, ops[0]) && Reachable(sha, Step(sha, w, ops[0]), ops[1..], w')
  }

  /** Every reachable store is sound: each import is verified or its removal can be continued, the
      bytes counted once per file stay within 8 GiB, and there are at most 1024 imports with at
      most 65536 names. */
  lemma {:induction false} RunKeepsSound(sha: Digest, w: World, ops: seq<Operation>, w': World)
    requires Sound(sha, w) && IsDigest(sha) && Reachable(sha, w, ops, w')
    ensures Sound(sha, w')
    decreases |ops|
  {
    hide Sound, Step;
    if ops != [] {
      StepKeepsSound(sha, w, ops[0]);
      RunKeepsSound(sha, Step(sha, w, ops[0]), ops[1..], w');
    }
  }

  // Ids.

  /** Why an id must not be used twice: published under an id whose removal is still journaled, a
      directory can never be reviewed, so no attempt removes it. With no journal it can. */
  lemma ReusedId(sha: Digest, w: World, id: Id, fingerprint: Sha, debris: nat, tries: seq<RemovalRuns.Try>)
    requires WellFormed(w) && PublicationRuns.Prepared(w, id, fingerprint)
    requires id in w.removals ==> w.removals[id].receipt.dirIno != w.staged[id].ino
    ensures var w' := PublicationRuns.WorldAt(w, id, fingerprint, PublicationRuns.Complete(debris));
            && WellFormed(w')
            && (ReviewSha(sha, w', id).Some? <==> id !in w.removals)
            && (id in w.removals ==> RemovalRuns.Run(sha, w', id, tries) == w')
  {
    var w' := PublicationRuns.WorldAt(w, id, fingerprint, PublicationRuns.Complete(debris));
    assert id in w.staged;
    PublicationRuns.WorldAtFields(w, id, fingerprint, PublicationRuns.Complete(debris));
    hide *;
    PublicationRuns.CompleteFields(w, id, fingerprint, debris);
    PublicationRuns.CompleteState(w, id, fingerprint, debris);
    if id in w.removals {
      ForeignReceipt(sha, w', id);
      UnreviewableRun(sha, w', id, tries);
    } else {
      VerifiedIsReviewable(sha, w', id);
    }
  }

  /** A journal for another receipt authorises nothing. */
  lemma ForeignReceipt(sha: Digest, w: World, id: Id)
    requires WellFormed(w) && id in w.removals && id in w.receipts && w.receipts[id].dirIno != w.removals[id].receipt.dirIno
    ensures ReviewSha(sha, w, id).None?
  {
    hide WellFormed;
  }

  lemma VerifiedIsReviewable(sha: Digest, w: World, id: Id)
    requires WellFormed(w) && id !in w.removals && Verified(w, id)
    ensures ReviewSha(sha, w, id).Some?
  {
  }

  lemma {:induction false} UnreviewableRun(sha: Digest, w: World, id: Id, tries: seq<RemovalRuns.Try>)
    requires WellFormed(w) && ReviewSha(sha, w, id).None?
    ensures RemovalRuns.Run(sha, w, id, tries) == w
    decreases |tries|
  {
    hide ReviewSha, WellFormed, Plan;
    if tries != [] {
      assert Plan(sha, w, id)[..0] == [];
      UnreviewableRun(sha, w, id, tries[1..]);
    }
  }
}
