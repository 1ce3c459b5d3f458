/** Moving a staged directory into place under an ownership receipt, stopped after any effect. */
module Publication {
  import opened Names
  import opened Storage
  import opened Fingerprint
  import opened Quota
  import opened Review

  const MAX_RECEIPTS: nat := 2047

  // Ownership receipts.

  function ReceiptFor(w: World, id: Id, fingerprint: Sha): Receipt
    requires id in w.staged
  {
    Receipt(id, w.importsIno, w.staged[id].ino, fingerprint)
  }

  /** A receipt can be recorded when the same one is there, or none is and there is room. */
  predicate Recordable(w: World, receipt: Receipt) {
    if receipt.id in w.receipts then w.receipts[receipt.id] == receipt
    else |w.receipts.Keys| + w.receiptTemps <= MAX_RECEIPTS
  }

  function RecordPlan(w: World, receipt: Receipt): seq<Effect> {
    if receipt.id in w.receipts then [] else [WriteReceiptTemp, PersistReceipt(receipt)]
  }

  ghost predicate RecordEnds(w: World, receipt: Receipt, fuel: nat, after: World, left: nat, r: Outcome) {
    if Recordable(w, receipt) then Reached(w, RecordPlan(w, receipt), 0, fuel, after, left, r)
    else r == Refused && after == w && left == fuel
  }

  lemma RecordKnown(w: World, receipt: Receipt, fuel: nat)
    ensures receipt.id in w.receipts ==>
              RecordEnds(w, receipt, fuel, w, fuel, if w.receipts[receipt.id] == receipt then Done else Refused)
    ensures receipt.id !in w.receipts && |w.receipts.Keys| + w.receiptTemps > MAX_RECEIPTS ==>
              RecordEnds(w, receipt, fuel, w, fuel, Refused)
  {
  }

  lemma RecordSteps(w: World, receipt: Receipt, fuel: nat)
    requires receipt.id !in w.receipts && |w.receipts.Keys| + w.receiptTemps <= MAX_RECEIPTS
    ensures fuel == 0 ==> RecordEnds(w, receipt, fuel, w, 0, Stopped)
    ensures fuel == 1 ==> RecordEnds(w, receipt, fuel, Apply(w, WriteReceiptTemp), 0, Stopped)
    ensures fuel >= 2 ==>
              RecordEnds(w, receipt, fuel, Apply(Apply(w, WriteReceiptTemp), PersistReceipt(receipt)), fuel - 2, Done)
  {
    ApplyTwo(w, WriteReceiptTemp, PersistReceipt(receipt));
    var plan := RecordPlan(w, receipt);
    assert plan[..0] == [] && plan[..1] == [WriteReceiptTemp];
  }

  method Record(disk: Disk, receipt: Receipt) returns (r: Outcome)
    requires disk.Valid()
    modifies disk
    ensures disk.Valid()
    ensures RecordEnds(old(disk.world), receipt, old(disk.fuel), disk.world, disk.fuel, r)
  {
    hide *;
    RecordKnown(disk.world, receipt, disk.fuel);
    if receipt.id in disk.world.receipts {
      return if disk.world.receipts[receipt.id] == receipt then Done else Refused;
    }
    if |disk.world.receipts.Keys| + disk.world.receiptTemps > MAX_RECEIPTS {
      return Refused;
    }
    RecordSteps(disk.world, receipt, disk.fuel);
    var alive := disk.Perform(WriteReceiptTemp);
    if !alive {
      return Stopped;
    }
    alive := disk.Perform(PersistReceipt(receipt));
    r := if alive then Done else Stopped;
  }

  // Publication of a migration.

  ghost predicate HasIdentity(inodes: map<nat, INode>, d: Dir, fingerprint: Sha)
    requires Allocated(inodes, d)
  {
    Acceptable(inodes, d) && IdentityOf(inodes, d) == fingerprint
  }

  method CheckIdentity(inodes: map<nat, INode>, d: Dir, fingerprint: Sha) returns (ok: bool)
    requires Allocated(inodes, d)
    ensures ok <==> HasIdentity(inodes, d, fingerprint)
  {
    var identity := FingerprintDirectory(inodes, d);
    ok := identity == Some(fingerprint);
  }

  /** The staged directory is the prepared one and fits the quota. */
  ghost predicate Admitted(w: World, id: Id, fingerprint: Sha)
    requires WellFormed(w)
  {
    id in w.staged && HasIdentity(w.inodes, w.staged[id], fingerprint) && Fits(w.inodes, w.imports, w.staged[id], MAX_STORE)
  }

  ghost predicate Ready(w: World, id: Id, fingerprint: Sha)
    requires WellFormed(w)
  {
    id !in w.imports && Admitted(w, id, fingerprint) && Recordable(w, ReceiptFor(w, id, fingerprint))
  }

  ghost predicate Published(w: World, id: Id, fingerprint: Sha)
    requires WellFormed(w)
  {
    id in w.imports && id !in w.staged && HasIdentity(w.inodes, w.imports[id], fingerprint)
  }

  function PublishPlan(w: World, id: Id, fingerprint: Sha): seq<Effect>
    requires id in w.staged
  {
    RecordPlan(w, ReceiptFor(w, id, fingerprint)) + [RenameStaged(id)]
  }

  ghost predicate PublishEnds(w: World, id: Id, fingerprint: Sha, fuel: nat, after: World, left: nat, r: Outcome)
    requires WellFormed(w)
  {
    if Ready(w, id, fingerprint) then Reached(w, PublishPlan(w, id, fingerprint), 0, fuel, after, left, r)
    else after == w && left == fuel && r == if Published(w, id, fingerprint) then Done else Refused
  }

  lemma RenameEffect(w: World, id: Id, fingerprint: Sha)
    requires WellFormed(w) && id in w.staged && id !in w.imports && HasIdentity(w.inodes, w.staged[id], fingerprint)
    ensures var w' := Apply(w, RenameStaged(id));
            WellFormed(w') && Published(w', id, fingerprint)
            && w' == w.(staged := Without(w.staged, id), imports := w.imports[id := w.staged[id]])
  {
    ApplyKeepsWellFormed(w, RenameStaged(id));
  }

  /** What a completed record leaves for the rename. */
  lemma RecordedState(w: World, id: Id, fingerprint: Sha)
    requires WellFormed(w) && id in w.staged && Recordable(w, ReceiptFor(w, id, fingerprint))
    ensures var receipt := ReceiptFor(w, id, fingerprint);
            var w' := ApplyAll(w, RecordPlan(w, receipt));
            WellFormed(w') && w' == w.(receipts := w.receipts[id := receipt])
  {
    var receipt := ReceiptFor(w, id, fingerprint);
    if id in w.receipts {
      assert w.receipts == w.receipts[id := receipt];
    } else {
      ApplyTwo(w, WriteReceiptTemp, PersistReceipt(receipt));
    }
  }

  lemma ReachedInPrefix(w: World, a: seq<Effect>, e: Effect, fuel: nat, after: World, left: nat, r: Outcome)
    requires Reached(w, a, 0, fuel, after, left, r) && r == Stopped
    ensures Reached(w, a + [e], 0, fuel, after, left, r)
  {
    assert (a + [e])[..fuel] == a[..fuel];
  }

  lemma ReachedOneMore(w: World, a: seq<Effect>, e: Effect, fuel: nat, after: World, left: nat, r: Outcome)
    requires Reached(w, a, 0, fuel, after, left, r) && r == Done
    ensures left == 0 ==> Reached(w, a + [e], 0, fuel, after, 0, Stopped)
    ensures left > 0 ==> Reached(w, a + [e], 0, fuel, Apply(after, e), left - 1, Done)
  {
    assert (a + [e])[..|a|] == a;
    ApplyAllSnoc(w, a, e);
  }

  lemma RecordedWithin(w: World, id: Id, fingerprint: Sha, fuel: nat, after: World, left: nat, r: Outcome, e: Effect)
    requires WellFormed(w) && id in w.staged && Recordable(w, ReceiptFor(w, id, fingerprint))
    requires RecordEnds(w, ReceiptFor(w, id, fingerprint), fuel, after, left, r)
    ensures var plan := RecordPlan(w, ReceiptFor(w, id, fingerprint)) + [e];
            && (r != Done ==> r == Stopped && Reached(w, plan, 0, fuel, after, left, r))
            && (r == Done && left == 0 ==> Reached(w, plan, 0, fuel, after, 0, Stopped))
            && (r == Done && left > 0 ==> Reached(w, plan, 0, fuel, Apply(after, e), left - 1, Done))
    ensures r == Done ==> after == w.(receipts := w.receipts[id := ReceiptFor(w, id, fingerprint)]) && WellFormed(after)
  {
    var receipt := ReceiptFor(w, id, fingerprint);
    if r == Done {
      ReachedOneMore(w, RecordPlan(w, receipt), e, fuel, after, left, r);
      RecordedState(w, id, fingerprint);
    } else {
      ReachedInPrefix(w, RecordPlan(w, receipt), e, fuel, after, left, r);
    }
  }

  lemma RenamedPublishes(w: World, id: Id, fingerprint: Sha, after: World)
    requires WellFormed(w) && WellFormed(after) && Ready(w, id, fingerprint)
    requires after == w.(receipts := w.receipts[id := ReceiptFor(w, id, fingerprint)])
    ensures var w' := Apply(after, RenameStaged(id)); WellFormed(w') && Published(w', id, fingerprint)
    ensures id in after.staged && id !in after.imports
  {
    RenameEffect(after, id, fingerprint);
  }

  /** Publishing a migration: a present destination is accepted only when the source is gone. */
  method Publish(disk: Disk, id: Id, fingerprint: Sha) returns (r: Outcome)
    requires disk.Valid() && WellFormed(disk.world)
    modifies disk
    ensures disk.Valid() && WellFormed(old(disk.world))
    ensures PublishEnds(old(disk.world), id, fingerprint, old(disk.fuel), disk.world, disk.fuel, r)
  {
    if id in disk.world.imports {
      if id in disk.world.staged {
        return Refused;
      }
      var ok := CheckIdentity(disk.world.inodes, disk.world.imports[id], fingerprint);
      return if ok then Done else Refused;
    }
    if id !in disk.world.staged {
      return Refused;
    }
    var staged := CheckIdentity(disk.world.inodes, disk.world.staged[id], fingerprint);
    if !staged {
      return Refused;
    }
    var fits := CheckCapacity(disk.world.inodes, disk.world.imports, disk.world.staged[id], MAX_STORE);
    if !fits {
      return Refused;
    }
    r := RecordAndRename(disk, id, fingerprint);
  }

  lemma ReadyEnds(w: World, id: Id, fingerprint: Sha, fuel: nat, after: World, left: nat, r: Outcome)
    requires WellFormed(w) && id !in w.imports && Admitted(w, id, fingerprint)
    requires Recordable(w, ReceiptFor(w, id, fingerprint))
    ensures Ready(w, id, fingerprint)
    ensures Reached(w, PublishPlan(w, id, fingerprint), 0, fuel, after, left, r) ==> PublishEnds(w, id, fingerprint, fuel, after, left, r)
  {
  }

  method RecordAndRename(disk: Disk, id: Id, fingerprint: Sha) returns (r: Outcome)
    requires disk.Valid() && WellFormed(disk.world) && id !in disk.world.imports && Admitted(disk.world, id, fingerprint)
    modifies disk
    ensures disk.Valid() && WellFormed(old(disk.world))
    ensures PublishEnds(old(disk.world), id, fingerprint, old(disk.fuel), disk.world, disk.fuel, r)
  {
    ghost var w0 := disk.world;
    ghost var fuel := disk.fuel;
    assert id in w0.staged;
    hide *;
    var receipt := ReceiptFor(disk.world, id, fingerprint);
    r := Record(disk, receipt);
    RecordOutcome(w0, id, fingerprint, fuel, disk.world, disk.fuel, r);
    if r != Done {
      return;
    }
    RenamedPublishes(w0, id, fingerprint, disk.world);
    // The rename refuses an existing destination; there is none.
    assert id in disk.world.staged && id !in disk.world.imports;
    var alive := disk.Perform(RenameStaged(id));
    if !alive {
      return Stopped;
    }
    PublishedIs(disk.world, id, fingerprint);
    var ok := CheckIdentity(disk.world.inodes, disk.world.imports[id], fingerprint);
    r := if ok then Done else Refused;
  }

  lemma PublishedIs(w: World, id: Id, fingerprint: Sha)
    requires WellFormed(w) && Published(w, id, fingerprint)
    ensures id in w.imports && Allocated(w.inodes, w.imports[id]) && HasIdentity(w.inodes, w.imports[id], fingerprint)
  {
  }

  /** Where a publication stands after its record. */
  lemma RecordOutcome(w: World, id: Id, fingerprint: Sha, fuel: nat, after: World, left: nat, r: Outcome)
    requires WellFormed(w) && id !in w.imports && Admitted(w, id, fingerprint) && id in w.staged
    requires RecordEnds(w, ReceiptFor(w, id, fingerprint), fuel, after, left, r)
    ensures r != Done ==> PublishEnds(w, id, fingerprint, fuel, after, left, r)
    ensures r == Done ==> Ready(w, id, fingerprint) && WellFormed(after)
    ensures r == Done ==> after == w.(receipts := w.receipts[id := ReceiptFor(w, id, fingerprint)])
    ensures r == Done && left == 0 ==> PublishEnds(w, id, fingerprint, fuel, after, 0, Stopped)
    ensures r == Done && left > 0 ==> PublishEnds(w, id, fingerprint, fuel, Apply(after, RenameStaged(id)), left - 1, Done)
  {
    if Recordable(w, ReceiptFor(w, id, fingerprint)) {
      RecordedWithin(w, id, fingerprint, fuel, after, left, r, RenameStaged(id));
      ReadyEnds(w, id, fingerprint, fuel, after, left, r);
      ReadyEnds(w, id, fingerprint, fuel, after, 0, Stopped);
      if left > 0 {
        ReadyEnds(w, id, fingerprint, fuel, Apply(after, RenameStaged(id)), left - 1, Done);
      }
    }
  }

  // Publication of a validated selection.

  /** Nothing stops the selection before its receipt. */
  ghost predicate Accepted(w: World, id: Id, fingerprint: Sha, addressed: bool, checks: nat)
    requires WellFormed(w) && id in w.staged
  {
    checks >= 2 && addressed && Admitted(w, id, fingerprint) && Recordable(w, ReceiptFor(w, id, fingerprint))
  }

  /** A selection that is not published leaves no staged files: they are dropped with it. `checks`
      counts the control checks that pass before a cancellation or the deadline. */
  ghost function SelectionPlan(w: World, id: Id, fingerprint: Sha, addressed: bool, checks: nat): seq<Effect>
    requires WellFormed(w) && id in w.staged
  {
    if !Accepted(w, id, fingerprint, addressed, checks) then [DiscardStaged(id)]
    else RecordPlan(w, ReceiptFor(w, id, fingerprint)) + [LastEffect(w, id, checks)]
  }

  function LastEffect(w: World, id: Id, checks: nat): Effect {
    if checks >= 3 && id !in w.imports then RenameStaged(id) else DiscardStaged(id)
  }

  ghost predicate SelectionEnds(w: World, id: Id, fingerprint: Sha, addressed: bool, checks: nat, fuel: nat,
                                after: World, left: nat, r: Outcome)
    requires WellFormed(w) && id in w.staged
  {
    && Reached(w, SelectionPlan(w, id, fingerprint, addressed, checks), 0, fuel, after, left, if r == Stopped then Stopped else Done)
    && (r == Done ==> Accepted(w, id, fingerprint, addressed, checks) && LastEffect(w, id, checks) == RenameStaged(id))
    && (r == Refused ==> !Accepted(w, id, fingerprint, addressed, checks) || LastEffect(w, id, checks) == DiscardStaged(id))
  }

  lemma Rejected(w: World, id: Id, fingerprint: Sha, addressed: bool, checks: nat, fuel: nat)
    requires WellFormed(w) && id in w.staged && !Accepted(w, id, fingerprint, addressed, checks)
    ensures fuel == 0 ==> SelectionEnds(w, id, fingerprint, addressed, checks, fuel, w, 0, Stopped)
    ensures fuel > 0 ==>
              SelectionEnds(w, id, fingerprint, addressed, checks, fuel, Apply(w, DiscardStaged(id)), fuel - 1, Refused)
  {
    ApplyTwo(w, DiscardStaged(id), DiscardStaged(id));
    assert [DiscardStaged(id)][..0] == [];
  }

  /** Where a selection stands after its record. */
  lemma SelectionOutcome(w: World, id: Id, fingerprint: Sha, checks: nat, fuel: nat, after: World, left: nat, r: Outcome)
    requires WellFormed(w) && id in w.staged && Accepted(w, id, fingerprint, true, checks)
    requires RecordEnds(w, ReceiptFor(w, id, fingerprint), fuel, after, left, r)
    ensures r != Refused
    ensures r != Done ==> SelectionEnds(w, id, fingerprint, true, checks, fuel, after, left, r)
    ensures r == Done ==> after == w.(receipts := w.receipts[id := ReceiptFor(w, id, fingerprint)]) && WellFormed(after)
    ensures r == Done && left == 0 ==> SelectionEnds(w, id, fingerprint, true, checks, fuel, after, 0, Stopped)
    ensures r == Done && left > 0 ==>
              SelectionEnds(w, id, fingerprint, true, checks, fuel, Apply(after, LastEffect(w, id, checks)), left - 1,
                            if LastEffect(w, id, checks).RenameStaged? then Done else Refused)
  {
    RecordedWithin(w, id, fingerprint, fuel, after, left, r, LastEffect(w, id, checks));
  }

  lemma AcceptedFacts(w: World, id: Id, fingerprint: Sha, addressed: bool, checks: nat)
    requires WellFormed(w) && id in w.staged
    ensures Accepted(w, id, fingerprint, addressed, checks) <==>
              checks >= 2 && addressed && HasIdentity(w.inodes, w.staged[id], fingerprint)
              && Fits(w.inodes, w.imports, w.staged[id], MAX_STORE) && Recordable(w, ReceiptFor(w, id, fingerprint))
  {
  }

  method Drop(disk: Disk, id: Id, fingerprint: Sha, addressed: bool, checks: nat) returns (r: Outcome)
    requires disk.Valid() && WellFormed(disk.world) && id in disk.world.staged
    requires !Accepted(disk.world, id, fingerprint, addressed, checks)
    modifies disk
    ensures disk.Valid() && WellFormed(old(disk.world))
    ensures SelectionEnds(old(disk.world), id, fingerprint, addressed, checks, old(disk.fuel), disk.world, disk.fuel, r)
  {
    hide *;
    Rejected(disk.world, id, fingerprint, addressed, checks, disk.fuel);
    var alive := disk.Perform(DiscardStaged(id));
    r := if alive then Refused else Stopped;
  }

  method PublishSelection(disk: Disk, id: Id, fingerprint: Sha, addressed: bool, checks: nat) returns (r: Outcome)
    requires disk.Valid() && WellFormed(disk.world) && id in disk.world.staged
    modifies disk
    ensures disk.Valid() && WellFormed(old(disk.world))
    ensures SelectionEnds(old(disk.world), id, fingerprint, addressed, checks, old(disk.fuel), disk.world, disk.fuel, r)
  {
    AcceptedFacts(disk.world, id, fingerprint, addressed, checks);
    assert Allocated(disk.world.inodes, disk.world.staged[id]) && AllAllocated(disk.world.inodes, disk.world.imports);
    hide *;
    if checks < 1 || !addressed {
      r := Drop(disk, id, fingerprint, addressed, checks);
      return;
    }
    var fits := CheckCapacity(disk.world.inodes, disk.world.imports, disk.world.staged[id], MAX_STORE);
    if !fits {
      r := Drop(disk, id, fingerprint, addressed, checks);
      return;
    }
    var same := CheckIdentity(disk.world.inodes, disk.world.staged[id], fingerprint);
    if !same || checks < 2 {
      r := Drop(disk, id, fingerprint, addressed, checks);
      return;
    }
    r := RecordAndMove(disk, id, fingerprint, checks);
  }

  lemma NotAccepted(w: World, id: Id, fingerprint: Sha, checks: nat, fuel: nat, after: World, left: nat, r: Outcome)
    requires WellFormed(w) && id in w.staged && !Accepted(w, id, fingerprint, true, checks) && checks >= 2 && Admitted(w, id, fingerprint)
    requires RecordEnds(w, ReceiptFor(w, id, fingerprint), fuel, after, left, r)
    ensures r == Refused && after == w && left == fuel
  {
  }

  lemma AcceptedMeans(w: World, id: Id, fingerprint: Sha, checks: nat)
    requires WellFormed(w) && id in w.staged && HasIdentity(w.inodes, w.staged[id], fingerprint)
    requires Fits(w.inodes, w.imports, w.staged[id], MAX_STORE) && checks >= 2
    ensures Admitted(w, id, fingerprint)
  {
  }

  method RecordAndMove(disk: Disk, id: Id, fingerprint: Sha, checks: nat) returns (r: Outcome)
    requires disk.Valid() && WellFormed(disk.world) && id in disk.world.staged && checks >= 2
    requires Allocated(disk.world.inodes, disk.world.staged[id]) && AllAllocated(disk.world.inodes, disk.world.imports)
    requires HasIdentity(disk.world.inodes, disk.world.staged[id], fingerprint)
    requires Fits(disk.world.inodes, disk.world.imports, disk.world.staged[id], MAX_STORE)
    modifies disk
    ensures disk.Valid() && WellFormed(old(disk.world))
    ensures SelectionEnds(old(disk.world), id, fingerprint, true, checks, old(disk.fuel), disk.world, disk.fuel, r)
  {
    hide *;
    ghost var w0 := disk.world;
    ghost var fuel := disk.fuel;
    AcceptedMeans(w0, id, fingerprint, checks);
    var receipt := ReceiptFor(disk.world, id, fingerprint);
    r := Record(disk, receipt);
    if Accepted(w0, id, fingerprint, true, checks) {
      SelectionOutcome(w0, id, fingerprint, checks, fuel, disk.world, disk.fuel, r);
    } else {
      NotAccepted(w0, id, fingerprint, checks, fuel, disk.world, disk.fuel, r);
    }
    if r == Refused {
      r := Drop(disk, id, fingerprint, true, checks);
      return;
    }
    if r == Stopped {
      return;
    }
    LastIs(w0, id, checks);
    assert (id in disk.world.imports) == (id in w0.imports);
    if checks < 3 || id in disk.world.imports {
      var alive := disk.Perform(DiscardStaged(id));
      return if alive then Refused else Stopped;
    }
    SelectedPublishes(w0, id, fingerprint, checks, disk.world);
    var alive := disk.Perform(RenameStaged(id));
    if !alive {
      return Stopped;
    }
    PublishedIs(disk.world, id, fingerprint);
    var ok := CheckIdentity(disk.world.inodes, disk.world.imports[id], fingerprint);
    r := if ok then Done else Refused;
  }

  lemma SelectedPublishes(w: World, id: Id, fingerprint: Sha, checks: nat, after: World)
    requires WellFormed(w) && WellFormed(after) && id in w.staged && id !in after.imports
    requires Accepted(w, id, fingerprint, true, checks)
    requires after == w.(receipts := w.receipts[id := ReceiptFor(w, id, fingerprint)])
    ensures var w' := Apply(after, RenameStaged(id)); WellFormed(w') && Published(w', id, fingerprint)
  {
    hide WellFormed, HasIdentity, Fits, Recordable, Published, ReceiptFor, Apply;
    RenamedPublishes(w, id, fingerprint, after);
  }

  lemma LastIs(w: World, id: Id, checks: nat)
    ensures LastEffect(w, id, checks) == if checks >= 3 && id !in w.imports then RenameStaged(id) else DiscardStaged(id)
  {
  }
}
