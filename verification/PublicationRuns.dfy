/** Every sequence of interrupted publications of one prepared directory. */
module PublicationRuns {
  import opened Names
  import opened Storage
  import opened Fingerprint
  import opened Quota
  import opened Review
  import opened Publication

  /** How far a publication has got: nothing, the receipt, or the directory in place. `debris`
      counts the temporary files left by interrupted receipt writes. */
  datatype Phase = Unrecorded(debris: nat) | Recorded(debris: nat) | Complete(debris: nat)

  /** A prepared directory whose id was never used. */
  ghost predicate Prepared(w: World, id: Id, fingerprint: Sha)
    requires WellFormed(w)
  {
    id !in w.imports && id !in w.receipts && Admitted(w, id, fingerprint)
  }

  /** The state a phase stands for. */
  function WorldAt(w: World, id: Id, fingerprint: Sha, p: Phase): World
    requires id in w.staged
  {
    match p
    case Unrecorded(debris) => w.(receiptTemps := w.receiptTemps + debris)
    case Recorded(debris) =>
      w.(receiptTemps := w.receiptTemps + debris, receipts := w.receipts[id := ReceiptFor(w, id, fingerprint)])
    case Complete(debris) =>
      w.(receiptTemps := w.receiptTemps + debris, receipts := w.receipts[id := ReceiptFor(w, id, fingerprint)],
         staged := Without(w.staged, id), imports := w.imports[id := w.staged[id]])
  }

  /** What one attempt with `fuel` effects makes of a phase, when `room` more entries fit beside
      the receipts. */
  function Next(room: int, p: Phase, fuel: nat): Phase {
    match p
    case Unrecorded(debris) =>
      if debris > room || fuel == 0 then p
      else if fuel == 1 then Unrecorded(debris + 1)
      else if fuel == 2 then Recorded(debris)
      else Complete(debris)
    case Recorded(debris) => if fuel == 0 then p else Complete(debris)
    case Complete(_) => p
  }

  function Room(w: World): int {
    MAX_RECEIPTS - |w.receipts.Keys| - w.receiptTemps
  }

  /** The state an attempt leaves. */
  ghost function After(w: World, id: Id, fingerprint: Sha, fuel: nat): World
    requires WellFormed(w)
  {
    if Ready(w, id, fingerprint) then
      var plan := PublishPlan(w, id, fingerprint);
      ApplyAll(w, plan[..if fuel <= |plan| then fuel else |plan|])
    else w
  }

  lemma ReadyIsStaged(w: World, id: Id, fingerprint: Sha)
    requires WellFormed(w)
    ensures Ready(w, id, fingerprint) ==> id in w.staged && !Published(w, id, fingerprint)
  {
    hide WellFormed, Fits, HasIdentity, Recordable;
  }

  lemma AfterIsLeft(w: World, id: Id, fingerprint: Sha, fuel: nat, after: World, left: nat, r: Outcome)
    requires WellFormed(w) && PublishEnds(w, id, fingerprint, fuel, after, left, r)
    ensures after == After(w, id, fingerprint, fuel)
    ensures r == Done <==> Published(w, id, fingerprint) || (Ready(w, id, fingerprint) && fuel >= |PublishPlan(w, id, fingerprint)|)
  {
    ReadyIsStaged(w, id, fingerprint);
    hide WellFormed, Ready, Published, PublishPlan, ApplyAll;
    if Ready(w, id, fingerprint) {
      var plan := PublishPlan(w, id, fingerprint);
      assert plan[..|plan|] == plan;
    }
  }

  /** The publication code leaves exactly this state. */
  method Attempt(disk: Disk, id: Id, fingerprint: Sha) returns (r: Outcome)
    requires disk.Valid() && WellFormed(disk.world)
    modifies disk
    ensures disk.Valid() && WellFormed(old(disk.world))
    ensures disk.world == After(old(disk.world), id, fingerprint, old(disk.fuel))
  {
    hide *;
    ghost var w0 := disk.world;
    ghost var fuel := disk.fuel;
    r := Publish(disk, id, fingerprint);
    AfterIsLeft(w0, id, fingerprint, fuel, disk.world, disk.fuel, r);
  }

  lemma WorldAtFields(w: World, id: Id, fingerprint: Sha, p: Phase)
    requires id in w.staged
    ensures var w' := WorldAt(w, id, fingerprint, p);
            && w'.inodes == w.inodes && w'.importsIno == w.importsIno && w'.removals == w.removals
            && (!p.Complete? ==> w'.imports == w.imports && w'.staged == w.staged
                                 && ReceiptFor(w', id, fingerprint) == ReceiptFor(w, id, fingerprint))
  {
  }

  lemma WorldAtWellFormed(w: World, id: Id, fingerprint: Sha, p: Phase)
    requires WellFormed(w) && id in w.staged
    ensures WellFormed(WorldAt(w, id, fingerprint, p))
  {
  }

  lemma AdmittedFrame(w: World, w': World, id: Id, fingerprint: Sha)
    requires WellFormed(w) && WellFormed(w') && Admitted(w, id, fingerprint)
    requires w'.inodes == w.inodes && w'.imports == w.imports && w'.staged == w.staged
    ensures Admitted(w', id, fingerprint)
  {
    hide WellFormed, HasIdentity, Fits;
  }

  lemma WorldAtKept(w: World, id: Id, fingerprint: Sha, p: Phase)
    requires WellFormed(w) && Prepared(w, id, fingerprint)
    ensures var w' := WorldAt(w, id, fingerprint, p);
            && WellFormed(w') && w'.inodes == w.inodes && w'.importsIno == w.importsIno
            && (!p.Complete? ==> w'.imports == w.imports && w'.staged == w.staged && Admitted(w', id, fingerprint)
                                 && ReceiptFor(w', id, fingerprint) == ReceiptFor(w, id, fingerprint))
  {
    assert id in w.staged && Admitted(w, id, fingerprint);
    hide *;
    WorldAtFields(w, id, fingerprint, p);
    WorldAtWellFormed(w, id, fingerprint, p);
    if !p.Complete? {
      AdmittedFrame(w, WorldAt(w, id, fingerprint, p), id, fingerprint);
    }
  }

  lemma ThreeEffects(w: World, a: Effect, b: Effect, c: Effect)
    ensures var plan := [a, b, c];
            && ApplyAll(w, plan[..0]) == w && ApplyAll(w, plan[..1]) == Apply(w, a)
            && ApplyAll(w, plan[..2]) == Apply(Apply(w, a), b)
            && ApplyAll(w, plan[..3]) == Apply(Apply(Apply(w, a), b), c)
  {
    hide Apply;
    var plan := [a, b, c];
    assert plan[..0] == [] && plan[..1] == [a] && plan[..2] == [a, b] && plan[..3] == [a, b] + [c];
    ApplyTwo(w, a, b);
    ApplyAllSnoc(w, [a, b], c);
  }

  lemma PlanUnrecorded(w: World, id: Id, fingerprint: Sha)
    requires id in w.staged && id !in w.receipts
    ensures PublishPlan(w, id, fingerprint) == [WriteReceiptTemp, PersistReceipt(ReceiptFor(w, id, fingerprint)), RenameStaged(id)]
  {
  }

  lemma PlanRecorded(w: World, id: Id, fingerprint: Sha)
    requires id in w.staged && id in w.receipts
    ensures PublishPlan(w, id, fingerprint) == [RenameStaged(id)]
  {
  }

  lemma AfterPrefix(w: World, id: Id, fingerprint: Sha, fuel: nat)
    requires WellFormed(w) && Ready(w, id, fingerprint)
    ensures id in w.staged
    ensures var plan := PublishPlan(w, id, fingerprint);
            After(w, id, fingerprint, fuel) == ApplyAll(w, plan[..if fuel <= |plan| then fuel else |plan|])
  {
  }

  /** The states an attempt can leave when the receipt is still missing. */
  lemma AfterUnrecorded(w: World, id: Id, fingerprint: Sha, fuel: nat)
    requires WellFormed(w) && Ready(w, id, fingerprint) && id !in w.receipts
    ensures id in w.staged
    ensures fuel == 0 ==> After(w, id, fingerprint, fuel) == w
    ensures fuel == 1 ==> After(w, id, fingerprint, fuel) == Apply(w, WriteReceiptTemp)
    ensures fuel == 2 ==>
              After(w, id, fingerprint, fuel) == Apply(Apply(w, WriteReceiptTemp), PersistReceipt(ReceiptFor(w, id, fingerprint)))
    ensures fuel >= 3 ==>
              After(w, id, fingerprint, fuel)
              == Apply(Apply(Apply(w, WriteReceiptTemp), PersistReceipt(ReceiptFor(w, id, fingerprint))), RenameStaged(id))
  {
    hide *;
    AfterPrefix(w, id, fingerprint, fuel);
    PlanUnrecorded(w, id, fingerprint);
    ThreeEffects(w, WriteReceiptTemp, PersistReceipt(ReceiptFor(w, id, fingerprint)), RenameStaged(id));
  }

  lemma AfterRecorded(w: World, id: Id, fingerprint: Sha, fuel: nat)
    requires WellFormed(w) && Ready(w, id, fingerprint) && id in w.receipts
    ensures After(w, id, fingerprint, fuel) == if fuel == 0 then w else Apply(w, RenameStaged(id))
  {
    assert id in w.staged;
    hide Ready, Apply, WellFormed, PublishPlan;
    PlanRecorded(w, id, fingerprint);
    ThreeEffects(w, RenameStaged(id), RenameStaged(id), RenameStaged(id));
    assert [RenameStaged(id)][..0] == [] && [RenameStaged(id)][..1] == [RenameStaged(id)];
    ApplyTwo(w, RenameStaged(id), RenameStaged(id));
  }

  lemma PhaseEffects(w: World, id: Id, fingerprint: Sha, debris: nat)
    requires id in w.staged && id !in w.imports && id !in w.receipts
    ensures var receipt := ReceiptFor(w, id, fingerprint);
            var at := p => WorldAt(w, id, fingerprint, p);
            && Apply(at(Unrecorded(debris)), WriteReceiptTemp) == at(Unrecorded(debris + 1))
            && Apply(at(Unrecorded(debris + 1)), PersistReceipt(receipt)) == at(Recorded(debris))
            && Apply(at(Recorded(debris)), RenameStaged(id)) == at(Complete(debris))
  {
  }

  lemma PhaseReady(w: World, id: Id, fingerprint: Sha, p: Phase)
    requires WellFormed(w) && Prepared(w, id, fingerprint) && !p.Complete?
    ensures id in w.staged && id !in w.imports && id !in w.receipts
    ensures var w' := WorldAt(w, id, fingerprint, p);
            && WellFormed(w') && (Ready(w', id, fingerprint) <==> p.Recorded? || p.debris <= Room(w))
            && (id in w'.receipts <==> p.Recorded?)
            && (id in w'.staged && ReceiptFor(w', id, fingerprint) == ReceiptFor(w, id, fingerprint))
  {
    WorldAtKept(w, id, fingerprint, p);
    hide Admitted, WellFormed;
  }

  lemma UnrecordedStep(w: World, id: Id, fingerprint: Sha, debris: nat, fuel: nat)
    requires WellFormed(w) && Prepared(w, id, fingerprint)
    ensures WellFormed(WorldAt(w, id, fingerprint, Unrecorded(debris)))
    ensures After(WorldAt(w, id, fingerprint, Unrecorded(debris)), id, fingerprint, fuel)
            == WorldAt(w, id, fingerprint, Next(Room(w), Unrecorded(debris), fuel))
  {
    hide WorldAt, Ready, Prepared, WellFormed, Apply, ReceiptFor;
    PhaseReady(w, id, fingerprint, Unrecorded(debris));
    if debris <= Room(w) {
      AfterUnrecorded(WorldAt(w, id, fingerprint, Unrecorded(debris)), id, fingerprint, fuel);
      PhaseEffects(w, id, fingerprint, debris);
    }
  }

  lemma RecordedStep(w: World, id: Id, fingerprint: Sha, debris: nat, fuel: nat)
    requires WellFormed(w) && Prepared(w, id, fingerprint)
    ensures WellFormed(WorldAt(w, id, fingerprint, Recorded(debris)))
    ensures After(WorldAt(w, id, fingerprint, Recorded(debris)), id, fingerprint, fuel)
            == WorldAt(w, id, fingerprint, Next(Room(w), Recorded(debris), fuel))
  {
    hide WorldAt, Ready, Prepared, WellFormed, Apply, ReceiptFor;
    PhaseReady(w, id, fingerprint, Recorded(debris));
    AfterRecorded(WorldAt(w, id, fingerprint, Recorded(debris)), id, fingerprint, fuel);
    PhaseEffects(w, id, fingerprint, debris);
  }

  /** One attempt, stopped anywhere, moves the publication from phase to phase. */
  lemma PhaseStep(w: World, id: Id, fingerprint: Sha, p: Phase, fuel: nat)
    requires WellFormed(w) && Prepared(w, id, fingerprint)
    ensures WellFormed(WorldAt(w, id, fingerprint, p))
    ensures After(WorldAt(w, id, fingerprint, p), id, fingerprint, fuel) == WorldAt(w, id, fingerprint, Next(Room(w), p, fuel))
  {
    WorldAtKept(w, id, fingerprint, p);
    match p
    case Unrecorded(debris) => UnrecordedStep(w, id, fingerprint, debris, fuel);
    case Recorded(debris) => RecordedStep(w, id, fingerprint, debris, fuel);
    case Complete(debris) =>
  }

  lemma AfterKeepsWellFormed(w: World, id: Id, fingerprint: Sha, fuel: nat)
    requires WellFormed(w)
    ensures WellFormed(After(w, id, fingerprint, fuel))
  {
    if Ready(w, id, fingerprint) {
      var plan := PublishPlan(w, id, fingerprint);
      ApplyAllKeepsWellFormed(w, plan[..if fuel <= |plan| then fuel else |plan|]);
    }
  }

  ghost function Run(w: World, id: Id, fingerprint: Sha, fuels: seq<nat>): World
    requires WellFormed(w)
    decreases |fuels|
  {
    if fuels == [] then w else
    AfterKeepsWellFormed(w, id, fingerprint, fuels[0]);
    Run(After(w, id, fingerprint, fuels[0]), id, fingerprint, fuels[1..])
  }

  function Phases(room: int, p: Phase, fuels: seq<nat>): Phase
    decreases |fuels|
  {
    if fuels == [] then p else Phases(room, Next(room, p, fuels[0]), fuels[1..])
  }

  /** However often and wherever publication is interrupted, the state is one of the phases. */
  lemma {:induction false} RunIsPhases(w: World, id: Id, fingerprint: Sha, p: Phase, fuels: seq<nat>)
    requires WellFormed(w) && Prepared(w, id, fingerprint)
    ensures WellFormed(WorldAt(w, id, fingerprint, p))
    ensures Run(WorldAt(w, id, fingerprint, p), id, fingerprint, fuels)
            == WorldAt(w, id, fingerprint, Phases(Room(w), p, fuels))
    decreases |fuels|
  {
    hide WorldAt, Prepared, After, WellFormed, Next;
    WorldAtKept(w, id, fingerprint, p);
    if fuels != [] {
      PhaseStep(w, id, fingerprint, p, fuels[0]);
      RunIsPhases(w, id, fingerprint, Next(Room(w), p, fuels[0]), fuels[1..]);
    }
  }

  /** Nothing published is ever unpublished, and each interrupted receipt write leaves at most one
      temporary file. */
  lemma {:induction false} PhasesAdvance(room: int, p: Phase, fuels: seq<nat>)
    ensures var q := Phases(room, p, fuels);
            && (p.Complete? ==> q == p)
            && (p.Recorded? ==> !q.Unrecorded? && q.debris == p.debris)
            && p.debris <= q.debris <= p.debris + |fuels|
    decreases |fuels|
  {
    if fuels != [] {
      PhasesAdvance(room, Next(room, p, fuels[0]), fuels[1..]);
    }
  }

  lemma {:induction false} PhasesSnoc(room: int, p: Phase, fuels: seq<nat>, f: nat)
    ensures Phases(room, p, fuels + [f]) == Next(room, Phases(room, p, fuels), f)
    decreases |fuels|
  {
    if fuels == [] {
      assert ([] + [f])[1..] == [];
    } else {
      assert (fuels + [f])[1..] == fuels[1..] + [f];
      PhasesSnoc(room, Next(room, p, fuels[0]), fuels[1..], f);
    }
  }

  /** A rerun that is not interrupted completes the publication, exactly when the temporary files
      left behind still leave room for the receipt or the receipt is already there. */
  lemma RerunConverges(w: World, id: Id, fingerprint: Sha, fuels: seq<nat>, f: nat)
    requires WellFormed(w) && Prepared(w, id, fingerprint) && f >= 3
    ensures var reached := Phases(Room(w), Unrecorded(0), fuels);
            var done := reached.Unrecorded? ==> reached.debris <= Room(w);
            && Run(w, id, fingerprint, fuels) == WorldAt(w, id, fingerprint, reached)
            && Run(w, id, fingerprint, fuels + [f])
               == WorldAt(w, id, fingerprint, if done then Complete(reached.debris) else reached)
  {
    assert w == WorldAt(w, id, fingerprint, Unrecorded(0));
    RunIsPhases(w, id, fingerprint, Unrecorded(0), fuels);
    RunIsPhases(w, id, fingerprint, Unrecorded(0), fuels + [f]);
    PhasesSnoc(Room(w), Unrecorded(0), fuels, f);
  }

  /** `n` attempts, each interrupted after its first effect. */
  function Interruptions(n: nat): (fuels: seq<nat>)
    ensures |fuels| == n && forall i | 0 <= i < n :: fuels[i] == 1
  {
    seq(n, _ => 1)
  }

  lemma {:induction false} InterruptionsAddUp(room: int, debris: nat, n: nat)
    requires debris + n <= room + 1
    ensures Phases(room, Unrecorded(debris), Interruptions(n)) == Unrecorded(debris + n)
    decreases n
  {
    if n == 0 {
      assert Interruptions(0) == [];
    } else {
      assert Interruptions(n)[0] == 1 && Interruptions(n)[1..] == Interruptions(n - 1);
      InterruptionsAddUp(room, debris + 1, n - 1);
    }
  }

  lemma {:induction false} FullStays(room: int, debris: nat, fuels: seq<nat>)
    requires debris > room
    ensures Phases(room, Unrecorded(debris), fuels) == Unrecorded(debris)
    decreases |fuels|
  {
    if fuels != [] {
      FullStays(room, debris, fuels[1..]);
    }
  }

  /** The blocked end of a publication is within reach: as many interrupted attempts as there is room for
      receipts, and one more, and no later attempt records the receipt or moves the directory. */
  lemma InterruptionsBlock(w: World, id: Id, fingerprint: Sha, later: seq<nat>)
    requires WellFormed(w) && Prepared(w, id, fingerprint) && Room(w) >= 0
    ensures var blocked := WorldAt(w, id, fingerprint, Unrecorded(Room(w) + 1));
            && Run(w, id, fingerprint, Interruptions(Room(w) + 1)) == blocked
            && WellFormed(blocked) && Run(blocked, id, fingerprint, later) == blocked
            && id !in blocked.imports && id !in blocked.receipts && id in blocked.staged
            && Room(w) == 2047 - |w.receipts| - w.receiptTemps
  {
    assert |w.receipts| == |w.receipts.Keys|;
    assert WorldAt(w, id, fingerprint, Unrecorded(0)) == w;
    InterruptionsAddUp(Room(w), 0, Room(w) + 1);
    RunIsPhases(w, id, fingerprint, Unrecorded(0), Interruptions(Room(w) + 1));
    FullStays(Room(w), Room(w) + 1, later);
    RunIsPhases(w, id, fingerprint, Unrecorded(Room(w) + 1), later);
    hide WellFormed, Admitted, Run, Phases;
  }

  lemma CompleteFields(w: World, id: Id, fingerprint: Sha, debris: nat)
    requires id in w.staged
    ensures var w' := WorldAt(w, id, fingerprint, Complete(debris));
            && w'.inodes == w.inodes && w'.importsIno == w.importsIno && id !in w'.staged
            && id in w'.imports && w'.imports[id] == w.staged[id]
            && id in w'.receipts && w'.receipts[id] == Receipt(id, w.importsIno, w.staged[id].ino, fingerprint)
            && w'.imports.Keys == w.imports.Keys + {id} && w'.receipts.Keys == w.receipts.Keys + {id}
  {
  }

  lemma ReceiptMatches(w: World, id: Id, fingerprint: Sha)
    requires WellFormed(w) && id in w.imports && id in w.receipts && HasIdentity(w.inodes, w.imports[id], fingerprint)
    requires w.receipts[id] == Receipt(id, w.importsIno, w.imports[id].ino, fingerprint)
    ensures Verified(w, id) && (id !in w.staged ==> Published(w, id, fingerprint))
  {
  }

  lemma CompleteState(w: World, id: Id, fingerprint: Sha, debris: nat)
    requires WellFormed(w) && Prepared(w, id, fingerprint)
    ensures var w' := WorldAt(w, id, fingerprint, Complete(debris));
            && WellFormed(w') && Verified(w', id) && Published(w', id, fingerprint)
            && w'.imports.Keys == w.imports.Keys + {id} && w'.receipts.Keys == w.receipts.Keys + {id}
  {
    assert id in w.staged && HasIdentity(w.inodes, w.staged[id], fingerprint);
    hide *;
    WorldAtKept(w, id, fingerprint, Complete(debris));
    CompleteFields(w, id, fingerprint, debris);
    ReceiptMatches(WorldAt(w, id, fingerprint, Complete(debris)), id, fingerprint);
  }

  /** A completed publication is one directory with one matching receipt and no staged source;
      ownership verification accepts it, and so does publishing again, without effects. */
  lemma CompleteIsVerified(w: World, id: Id, fingerprint: Sha, debris: nat, fuel: nat)
    requires WellFormed(w) && Prepared(w, id, fingerprint)
    ensures var w' := WorldAt(w, id, fingerprint, Complete(debris));
            && WellFormed(w') && Verified(w', id) && Published(w', id, fingerprint) && id !in w'.staged
            && w'.imports.Keys == w.imports.Keys + {id} && w'.receipts.Keys == w.receipts.Keys + {id}
            && After(w', id, fingerprint, fuel) == w'
  {
    CompleteState(w, id, fingerprint, debris);
    PublishedStays(WorldAt(w, id, fingerprint, Complete(debris)), id, fingerprint, fuel);
    hide *;
  }

  lemma PublishedStays(w: World, id: Id, fingerprint: Sha, fuel: nat)
    requires WellFormed(w) && Published(w, id, fingerprint)
    ensures id !in w.staged && After(w, id, fingerprint, fuel) == w
  {
    hide WellFormed, HasIdentity, Fits;
  }

  /** In the two earlier phases the directory is still staged and admitted, and a receipt that was
      left behind belongs to it. */
  lemma IncompleteIsRetryable(w: World, id: Id, fingerprint: Sha, p: Phase)
    requires WellFormed(w) && Prepared(w, id, fingerprint) && !p.Complete?
    ensures var w' := WorldAt(w, id, fingerprint, p);
            && WellFormed(w') && Admitted(w', id, fingerprint) && id !in w'.imports
            && (id in w'.receipts ==> w'.receipts[id] == ReceiptFor(w', id, fingerprint))
            && (Ready(w', id, fingerprint) <==> p.Recorded? || p.debris <= Room(w))
  {
    WorldAtKept(w, id, fingerprint, p);
  }

  /** An import and its receipt are as they were. */
  ghost predicate Untouched(w: World, w': World, id: Id) {
    && id in w'.imports && id in w.imports && w'.imports[id] == w.imports[id] && w'.inodes == w.inodes
    && (id in w.receipts ==> id in w'.receipts && w'.receipts[id] == w.receipts[id])
  }

  /** The effects of an attempt for another directory. */
  lemma OtherEffect(w: World, w': World, e: Effect, id: Id)
    requires Untouched(w, w', id)
    requires e.WriteReceiptTemp? || (e.PersistReceipt? && e.receipt.id != id) || (e.RenameStaged? && e.id != id)
    ensures Untouched(w, Apply(w', e), id)
  {
  }

  /** No attempt, in any state, replaces, changes or removes an existing import. */
  lemma NeverReplaces(w: World, id: Id, fingerprint: Sha, fuel: nat, other: Id)
    requires WellFormed(w) && other in w.imports
    ensures Untouched(w, After(w, id, fingerprint, fuel), other)
  {
    assert Untouched(w, w, other);
    ReadyIsStaged(w, id, fingerprint);
    assert Ready(w, id, fingerprint) ==> other != id;
    hide Ready, WellFormed, Apply, Untouched, PublishPlan, ApplyAll;
    if Ready(w, id, fingerprint) {
      var temp, persist, rename := WriteReceiptTemp, PersistReceipt(ReceiptFor(w, id, fingerprint)), RenameStaged(id);
      OtherEffect(w, w, rename, other);
      if id in w.receipts {
        AfterRecorded(w, id, fingerprint, fuel);
      } else {
        AfterUnrecorded(w, id, fingerprint, fuel);
        OtherEffect(w, w, temp, other);
        OtherEffect(w, Apply(w, temp), persist, other);
        OtherEffect(w, Apply(Apply(w, temp), persist), rename, other);
      }
    }
  }
}
