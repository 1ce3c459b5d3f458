/** Every sequence of removal attempts, each stopped anywhere, with any reviews. */
module RemovalRuns {
  import opened Names
  import opened Storage
  import opened Fingerprint
  import opened Quota
  import opened Review
  import opened Removal
  import opened Remove
  import opened Attempt

  /** One attempt: the review it carries, whether it is authorised, and how many effects happen
      before it is interrupted. */
  datatype Try = Try(fingerprint: Sha, authorized: bool, fuel: nat)

  function Min(a: nat, b: nat): nat {
    if a <= b then a else b
  }

  /** How many effects an attempt performs. */
  ghost function Steps(sha: Digest, w: World, id: Id, t: Try): (n: nat)
    requires WellFormed(w)
    ensures n <= |Plan(sha, w, id)|
  {
    if MayStart(sha, w, id, t.fingerprint, t.authorized) then Min(t.fuel, |Plan(sha, w, id)|) else 0
  }

  /** The state an attempt leaves. */
  ghost function After(sha: Digest, w: World, id: Id, t: Try): (w': World)
    requires WellFormed(w)
    ensures WellFormed(w')
  {
    var plan := Plan(sha, w, id)[..Steps(sha, w, id, t)];
    ApplyAllKeepsWellFormed(w, plan);
    ApplyAll(w, plan)
  }

  lemma TryEnds(sha: Digest, w: World, id: Id, t: Try, after: World, left: nat, r: Outcome)
    requires WellFormed(w)
    requires MayStart(sha, w, id, t.fingerprint, t.authorized) ==> Reached(w, Plan(sha, w, id), 0, t.fuel, after, left, r)
    requires !MayStart(sha, w, id, t.fingerprint, t.authorized) ==> r == Refused && after == w
    ensures after == After(sha, w, id, t)
    ensures r == Done ==> Steps(sha, w, id, t) == |Plan(sha, w, id)|
  {
    hide MayStart, Plan;
    assert Plan(sha, w, id)[..|Plan(sha, w, id)|] == Plan(sha, w, id) && Plan(sha, w, id)[..0] == [];
  }

  /** The removal code leaves exactly this state. */
  method PerformTry(disk: Disk, sha: Digest, id: Id, t: Try) returns (r: Outcome)
    requires disk.Valid() && WellFormed(disk.world) && IsDigest(sha) && disk.fuel == t.fuel
    modifies disk
    ensures disk.Valid() && WellFormed(old(disk.world))
    ensures disk.world == After(sha, old(disk.world), id, t)
    ensures r == Done ==> Steps(sha, old(disk.world), id, t) == |Plan(sha, old(disk.world), id)|
  {
    hide *;
    ghost var w0 := disk.world;
    r := RemoveWith(disk, sha, id, t.fingerprint, t.authorized);
    TryEnds(sha, w0, id, t, disk.world, disk.fuel, r);
  }

  ghost function Run(sha: Digest, w: World, id: Id, tries: seq<Try>): (w': World)
    requires WellFormed(w)
    ensures WellFormed(w')
    decreases |tries|
  {
    if tries == [] then w else Run(sha, After(sha, w, id, tries[0]), id, tries[1..])
  }

  ghost function Spent(sha: Digest, w: World, id: Id, tries: seq<Try>): nat
    requires WellFormed(w)
    decreases |tries|
  {
    if tries == [] then 0
    else Steps(sha, w, id, tries[0]) + Spent(sha, After(sha, w, id, tries[0]), id, tries[1..])
  }

  // From any point of a journaled removal.

  /** Every prefix of the plan leaves a removal that continues with the remainder. */
  lemma {:induction false} EveryPrefixIsPending(sha: Digest, w: World, id: Id, k: nat)
    requires WellFormed(w) && Pending(sha, w, id) && k <= |Rest(w, id)|
    ensures k < |Rest(w, id)| ==> At(sha, w, id, Rest(w, id), k, ApplyAll(w, Rest(w, id)[..k]))
    ensures k == |Rest(w, id)| ==> Gone(ApplyAll(w, Rest(w, id)), id)
  {
    hide Rest, Pending, Gone, WellFormed, Apply, At;
    var plan := Rest(w, id);
    assert plan[..|plan|] == plan;
    AtStart(sha, w, id);
    PendingStep(sha, w, id);
    if k > 0 {
      EveryPrefixIsPending(sha, w, id, k - 1);
      AtStep(sha, w, id, plan, k - 1, ApplyAll(w, plan[..k - 1]));
    }
  }

  lemma GoneStaysGone(sha: Digest, w: World, id: Id, t: Try)
    requires WellFormed(w) && Gone(w, id)
    ensures Plan(sha, w, id) == [] && ReviewSha(sha, w, id) == None && After(sha, w, id, t) == w && Steps(sha, w, id, t) == 0
  {
  }

  /** The state after `n` effects of a pending removal. */
  ghost predicate Progress(sha: Digest, w: World, id: Id, n: nat, w': World)
    requires WellFormed(w) && WellFormed(w')
  {
    && n <= |Rest(w, id)| && w' == ApplyAll(w, Rest(w, id)[..n])
    && (n < |Rest(w, id)| ==> Pending(sha, w', id) && Rest(w', id) == Rest(w, id)[n..])
    && (n == |Rest(w, id)| ==> Gone(w', id))
  }

  lemma ProgressAt(sha: Digest, w: World, id: Id, n: nat)
    requires WellFormed(w) && Pending(sha, w, id) && n <= |Rest(w, id)|
    ensures WellFormed(ApplyAll(w, Rest(w, id)[..n])) && Progress(sha, w, id, n, ApplyAll(w, Rest(w, id)[..n]))
  {
    ApplyAllKeepsWellFormed(w, Rest(w, id)[..n]);
    EveryPrefixIsPending(sha, w, id, n);
    assert Rest(w, id)[..|Rest(w, id)|] == Rest(w, id);
  }

  lemma ProgressCompose(sha: Digest, w: World, id: Id, n: nat, w': World, m: nat, w'': World)
    requires WellFormed(w) && WellFormed(w') && WellFormed(w'')
    requires Progress(sha, w, id, n, w') && n < |Rest(w, id)| && Progress(sha, w', id, m, w'')
    ensures Progress(sha, w, id, n + m, w'')
  {
    hide Rest, Pending, Gone, WellFormed, Apply, Intact;
    var plan := Rest(w, id);
    assert plan[n..][..m] == plan[n..n + m];
    assert plan[..n] + plan[n..n + m] == plan[..n + m];
    ApplyAllAppend(w, plan[..n], plan[n..n + m]);
    assert plan[n..][m..] == plan[n + m..];
  }

  lemma {:induction false} GoneRun(sha: Digest, w: World, id: Id, tries: seq<Try>)
    requires WellFormed(w) && Gone(w, id)
    ensures Run(sha, w, id, tries) == w && Spent(sha, w, id, tries) == 0
    decreases |tries|
  {
    if tries != [] {
      GoneStaysGone(sha, w, id, tries[0]);
      GoneRun(sha, w, id, tries[1..]);
    }
  }

  lemma ProgressEnds(sha: Digest, w: World, id: Id, n: nat, w': World)
    requires WellFormed(w) && WellFormed(w') && Progress(sha, w, id, n, w')
    ensures Gone(w', id) <==> n == |Rest(w, id)|
  {
  }

  lemma TryProgress(sha: Digest, w: World, id: Id, t: Try)
    requires WellFormed(w) && Pending(sha, w, id)
    ensures Progress(sha, w, id, Steps(sha, w, id, t), After(sha, w, id, t))
    ensures !Gone(w, id) && |Rest(w, id)| > 0
    ensures t.authorized && ReviewSha(sha, w, id) == Some(t.fingerprint) ==> Steps(sha, w, id, t) == Min(t.fuel, |Rest(w, id)|)
  {
    ProgressAt(sha, w, id, Steps(sha, w, id, t));
    PendingStep(sha, w, id);
  }

  /** Interruptions cost nothing: any sequence of attempts, with any reviews, has performed a
      prefix of the one plan; it is pending until the whole plan is done, and gone after. */
  lemma {:induction false} PendingRun(sha: Digest, w: World, id: Id, tries: seq<Try>)
    requires WellFormed(w) && Pending(sha, w, id)
    ensures Progress(sha, w, id, Spent(sha, w, id, tries), Run(sha, w, id, tries))
    decreases |tries|
  {
    hide Rest, Pending, Gone, WellFormed, Apply, MayStart, Steps, After;
    if tries == [] {
      ProgressAt(sha, w, id, 0);
      assert Rest(w, id)[..0] == [];
    } else {
      var n := Steps(sha, w, id, tries[0]);
      var w' := After(sha, w, id, tries[0]);
      TryProgress(sha, w, id, tries[0]);
      if n < |Rest(w, id)| {
        PendingRun(sha, w', id, tries[1..]);
        ProgressCompose(sha, w, id, n, w', Spent(sha, w', id, tries[1..]), Run(sha, w', id, tries[1..]));
      } else {
        GoneRun(sha, w', id, tries[1..]);
      }
    }
  }

  /** Every attempt is authorised and carries a review of the state it starts from. */
  ghost predicate FreshlyReviewed(sha: Digest, w: World, id: Id, tries: seq<Try>)
    requires WellFormed(w)
    decreases |tries|
  {
    tries == [] || (tries[0].authorized && (Gone(w, id) || ReviewSha(sha, w, id) == Some(tries[0].fingerprint))
                    && FreshlyReviewed(sha, After(sha, w, id, tries[0]), id, tries[1..]))
  }

  function Total(tries: seq<Try>): nat {
    if tries == [] then 0 else tries[0].fuel + Total(tries[1..])
  }

  /** With fresh reviews the effects of all attempts add up, and the removal is complete exactly
      when they cover the plan. */
  lemma {:induction false} ReviewedRunCompletes(sha: Digest, w: World, id: Id, tries: seq<Try>)
    requires WellFormed(w) && Pending(sha, w, id) && FreshlyReviewed(sha, w, id, tries)
    ensures Spent(sha, w, id, tries) == Min(Total(tries), |Rest(w, id)|)
    ensures Gone(Run(sha, w, id, tries), id) <==> Total(tries) >= |Rest(w, id)|
    decreases |tries|
  {
    hide Rest, Pending, Gone, WellFormed, Apply, MayStart, Steps, After, ReviewSha;
    PendingRun(sha, w, id, tries);
    ProgressEnds(sha, w, id, Spent(sha, w, id, tries), Run(sha, w, id, tries));
    if tries == [] {
      PendingStep(sha, w, id);
    } else {
      var w' := After(sha, w, id, tries[0]);
      TryProgress(sha, w, id, tries[0]);
      if Steps(sha, w, id, tries[0]) < |Rest(w, id)| {
        ReviewedRunCompletes(sha, w', id, tries[1..]);
      } else {
        GoneRun(sha, w', id, tries[1..]);
      }
    }
  }

  // From any healthy state.

  /** A verified import, a removal under way, a receipt alone, or nothing. */
  ghost predicate Healthy(sha: Digest, w: World, id: Id)
    requires WellFormed(w)
  {
    Fresh(w, id) || Pending(sha, w, id) || Orphan(w, id) || Gone(w, id)
  }

  /** In every healthy state but the last a review is offered, so the removal can be continued. */
  lemma HealthyIsReviewable(sha: Digest, w: World, id: Id)
    requires WellFormed(w) && Healthy(sha, w, id)
    ensures ReviewSha(sha, w, id).Some? <==> !Gone(w, id)
    ensures Plan(sha, w, id) != [] <==> !Gone(w, id)
  {
  }

  lemma SameStore(sha: Digest, w: World, w': World, id: Id)
    requires WellFormed(w) && Fresh(w, id)
    requires w' == w.(removalTemps := w'.removalTemps)
    ensures WellFormed(w') && Fresh(w', id) && Plan(sha, w', id) == Plan(sha, w, id)
  {
    assert Verified(w', id);
    var journal, journal' := JournalFor(sha, w, id), JournalFor(sha, w', id);
    hide WellFormed, Verified, Ordered, Unlinks;
    assert journal == journal';
    PlanFrame(w, w', id);
  }

  lemma TempProgress(sha: Digest, w: World, id: Id)
    requires WellFormed(w) && Fresh(w, id)
    ensures var w' := w.(removalTemps := w.removalTemps + 1);
            && ApplyAll(w, Plan(sha, w, id)[..1]) == w' && WellFormed(w')
            && Fresh(w', id) && Plan(sha, w', id) == Plan(sha, w, id)
  {
    hide Plan, WellFormed, Fresh;
    PlanShape(sha, w, id);
    ApplyTwo(w, WriteJournalTemp, WriteJournalTemp);
    SameStore(sha, w, w.(removalTemps := w.removalTemps + 1), id);
  }

  lemma JournaledStart(sha: Digest, w: World, id: Id)
    requires WellFormed(w) && Fresh(w, id) && IsDigest(sha)
    ensures |Plan(sha, w, id)| > 2
    ensures var w2 := ApplyAll(w, Plan(sha, w, id)[..2]);
            WellFormed(w2) && Pending(sha, w2, id) && Rest(w2, id) == Plan(sha, w, id)[2..]
  {
    PlanShape(sha, w, id);
    ApplyTwo(w, WriteJournalTemp, PersistJournal(JournalFor(sha, w, id)));
    AtJournaled(sha, w, id);
  }

  lemma JournaledProgress(sha: Digest, w: World, id: Id, n: nat)
    requires WellFormed(w) && Fresh(w, id) && IsDigest(sha) && 2 <= n <= |Plan(sha, w, id)|
    ensures var plan := Plan(sha, w, id);
            var w' := ApplyAll(w, plan[..n]);
            && WellFormed(w')
            && (n < |plan| ==> Pending(sha, w', id) && Rest(w', id) == plan[n..])
            && (n == |plan| ==> Gone(w', id))
  {
    hide *;
    var plan := Plan(sha, w, id);
    JournaledStart(sha, w, id);
    var w2 := ApplyAll(w, plan[..2]);
    ProgressAt(sha, w2, id, n - 2);
    Split(plan, 2, n);
    ApplyAllAppend(w, plan[..2], plan[2..n]);
    ProgressMeans(sha, w2, id, n - 2, ApplyAll(w2, plan[2..n]));
  }

  lemma ProgressMeans(sha: Digest, w: World, id: Id, n: nat, w': World)
    requires WellFormed(w) && WellFormed(w') && Progress(sha, w, id, n, w')
    ensures n < |Rest(w, id)| ==> Pending(sha, w', id) && Rest(w', id) == Rest(w, id)[n..]
    ensures n == |Rest(w, id)| ==> Gone(w', id)
  {
  }

  lemma PendingPlan(sha: Digest, w: World, id: Id)
    requires WellFormed(w) && Pending(sha, w, id)
    ensures Plan(sha, w, id) == Rest(w, id)
  {
  }

  /** What the first effects of an unjournaled removal leave. */
  lemma FreshProgress(sha: Digest, w: World, id: Id, n: nat)
    requires WellFormed(w) && Fresh(w, id) && IsDigest(sha) && n <= |Plan(sha, w, id)|
    ensures var plan := Plan(sha, w, id);
            var w' := ApplyAll(w, plan[..n]);
            && WellFormed(w') && |plan| > 2
            && (n == 0 ==> w' == w)
            && (n == 1 ==> w' == w.(removalTemps := w.removalTemps + 1) && Fresh(w', id) && Plan(sha, w', id) == plan)
            && (2 <= n < |plan| ==> Pending(sha, w', id) && Plan(sha, w', id) == plan[n..])
            && (n == |plan| ==> Gone(w', id))
  {
    hide Fresh, Pending, Plan, WellFormed, Gone, Apply, Rest;
    JournaledStart(sha, w, id);
    assert Plan(sha, w, id)[..0] == [];
    if n == 1 {
      TempProgress(sha, w, id);
    } else if n >= 2 {
      JournaledProgress(sha, w, id, n);
      if n < |Plan(sha, w, id)| {
        PendingPlan(sha, ApplyAll(w, Plan(sha, w, id)[..n]), id);
      }
    }
  }

  /** Any attempt, stopped anywhere, keeps the import healthy and never adds to what is left to
      do; an attempt that may start makes progress, except that one interrupted before its
      journal is in place has to write it again. */
  lemma HealthyStep(sha: Digest, w: World, id: Id, t: Try)
    requires WellFormed(w) && Healthy(sha, w, id) && IsDigest(sha)
    ensures var w' := After(sha, w, id, t);
            && Healthy(sha, w', id)
            && |Plan(sha, w', id)| <= |Plan(sha, w, id)|
            && (MayStart(sha, w, id, t.fingerprint, t.authorized) && t.fuel >= (if Fresh(w, id) then 2 else 1) ==>
                  |Plan(sha, w', id)| == |Plan(sha, w, id)| - Min(t.fuel, |Plan(sha, w, id)|) < |Plan(sha, w, id)|)
  {
    var n := Steps(sha, w, id, t);
    assert Plan(sha, w, id)[..0] == [];
    HealthyIsReviewable(sha, w, id);
    if Gone(w, id) {
      GoneStaysGone(sha, w, id, t);
    } else if Fresh(w, id) {
      FreshProgress(sha, w, id, n);
    } else if Pending(sha, w, id) {
      ProgressAt(sha, w, id, n);
    } else {
      OrphanPlan(sha, w, id);
      assert Plan(sha, w, id)[..1] == Plan(sha, w, id);
    }
  }

  /** The invariant of every run. */
  lemma {:induction false} HealthyRun(sha: Digest, w: World, id: Id, tries: seq<Try>)
    requires WellFormed(w) && Healthy(sha, w, id) && IsDigest(sha)
    ensures Healthy(sha, Run(sha, w, id, tries), id)
    ensures |Plan(sha, Run(sha, w, id, tries), id)| <= |Plan(sha, w, id)|
    decreases |tries|
  {
    if tries != [] {
      HealthyStep(sha, w, id, tries[0]);
      HealthyRun(sha, After(sha, w, id, tries[0]), id, tries[1..]);
    }
  }

  /** The other side of the journal limit: nothing ever retires the temporary files of interrupted
      journal writes, and once they and the journals exceed the limit no unjournaled import can be
      removed by any sequence of attempts. */
  lemma {:induction false} FullJournalBlocks(sha: Digest, w: World, id: Id, tries: seq<Try>)
    requires WellFormed(w) && Fresh(w, id) && !JournalFits(w)
    ensures Run(sha, w, id, tries) == w
    decreases |tries|
  {
    if tries != [] {
      assert Plan(sha, w, id)[..0] == [];
      FullJournalBlocks(sha, w, id, tries[1..]);
    }
  }

  /** An authorised attempt with a fresh review that is interrupted after its first effect. */
  function Interrupted(fingerprint: Sha): Try {
    Try(fingerprint, true, 1)
  }

  /** `n` such attempts. */
  function Interruptions(fingerprint: Sha, n: nat): (tries: seq<Try>)
    ensures |tries| == n && forall i | 0 <= i < n :: tries[i] == Interrupted(fingerprint)
  {
    seq(n, i requires 0 <= i < n => Interrupted(fingerprint))
  }

  /** One more temporary file for each of them. */
  function Littered(w: World, n: nat): World {
    w.(removalTemps := w.removalTemps + n)
  }

  /** The number of interrupted attempts that use up the room for journals. */
  ghost function JournalRoom(w: World): nat
    requires JournalFits(w)
  {
    MAX_RECORDS + 1 - |w.removals.Keys| - w.removalTemps
  }

  lemma LitteredIsFresh(sha: Digest, w: World, id: Id, n: nat)
    requires WellFormed(w) && Fresh(w, id)
    ensures WellFormed(Littered(w, n)) && Fresh(Littered(w, n), id)
    ensures ReviewSha(sha, Littered(w, n), id) == ReviewSha(sha, w, id) && ReviewSha(sha, w, id).Some?
    ensures JournalFits(Littered(w, n)) <==> |w.removals.Keys| + w.removalTemps + n <= MAX_RECORDS
  {
    SameStore(sha, w, Littered(w, n), id);
    FreshReview(sha, w, id);
    FreshReview(sha, Littered(w, n), id);
  }

  lemma FreshReview(sha: Digest, w: World, id: Id)
    requires WellFormed(w) && Fresh(w, id)
    ensures ReviewSha(sha, w, id) == Some(IdentityOf(w.inodes, w.imports[id]))
  {
    hide WellFormed, Acceptable;
  }

  /** An interrupted attempt leaves its temporary file and nothing else. */
  lemma InterruptedTry(sha: Digest, w: World, id: Id)
    requires WellFormed(w) && Fresh(w, id) && JournalFits(w) && ReviewSha(sha, w, id).Some?
    ensures After(sha, w, id, Interrupted(ReviewSha(sha, w, id).value)) == Littered(w, 1)
  {
    TempProgress(sha, w, id);
    PlanShape(sha, w, id);
    hide Plan, WellFormed, Fresh, ReviewSha, JournalFits;
  }

  lemma LitteredTwice(w: World, m: nat, n: nat)
    ensures Littered(Littered(w, m), n) == Littered(w, m + n) && Littered(w, 0) == w
  {
  }

  lemma InterruptionsRest(fingerprint: Sha, n: nat)
    requires n > 0
    ensures Interruptions(fingerprint, n)[0] == Interrupted(fingerprint) && Interruptions(fingerprint, n)[1..] == Interruptions(fingerprint, n - 1)
  {
  }

  /** Interrupted attempts add up: each leaves one temporary file, and every one of them is authorised and
      carries a fresh review. */
  lemma {:induction false} InterruptionsAddUp(sha: Digest, w: World, id: Id, n: nat)
    requires WellFormed(w) && Fresh(w, id) && JournalFits(w) && n <= JournalRoom(w) && ReviewSha(sha, w, id).Some?
    ensures var tries := Interruptions(ReviewSha(sha, w, id).value, n);
            Run(sha, w, id, tries) == Littered(w, n) && FreshlyReviewed(sha, w, id, tries)
    decreases n
  {
    hide After, ReviewSha, Fresh, WellFormed, JournalFits, Littered, Interruptions;
    var fingerprint := ReviewSha(sha, w, id).value;
    LitteredTwice(w, 1, 0);
    if n == 0 {
      assert Interruptions(fingerprint, 0) == [];
    } else {
      InterruptionsRest(fingerprint, n);
      InterruptedTry(sha, w, id);
      LitteredIsFresh(sha, w, id, 1);
      if n > 1 {
        RoomLeft(w);
        InterruptionsAddUp(sha, Littered(w, 1), id, n - 1);
        LitteredTwice(w, 1, n - 1);
      } else {
        assert Interruptions(fingerprint, 0) == [];
      }
    }
  }

  lemma RoomLeft(w: World)
    requires JournalFits(w) && JournalRoom(w) > 1
    ensures JournalFits(Littered(w, 1)) && JournalRoom(Littered(w, 1)) == JournalRoom(w) - 1
  {
  }

  /** So the full journal directory is within reach: from any verified import, as many interrupted attempts
      as there is room for journals leave it verified and reviewable, and no attempt after them, with
      whatever review, does anything. One fewer does not block. */
  lemma InterruptionsBlock(sha: Digest, w: World, id: Id, later: seq<Try>)
    requires WellFormed(w) && Fresh(w, id) && JournalFits(w) && ReviewSha(sha, w, id).Some?
    ensures var w' := Littered(w, JournalRoom(w));
            && Run(sha, w, id, Interruptions(ReviewSha(sha, w, id).value, JournalRoom(w))) == w'
            && WellFormed(w') && Fresh(w', id) && ReviewSha(sha, w', id).Some? && !JournalFits(w')
            && Run(sha, w', id, later) == w'
    ensures JournalFits(Littered(w, JournalRoom(w) - 1)) && JournalRoom(w) == 1024 - |w.removals| - w.removalTemps
  {
    assert |w.removals| == |w.removals.Keys|;
    InterruptionsAddUp(sha, w, id, JournalRoom(w));
    LitteredIsFresh(sha, w, id, JournalRoom(w));
    LitteredIsFresh(sha, w, id, JournalRoom(w) - 1);
    FullJournalBlocks(sha, Littered(w, JournalRoom(w)), id, later);
    hide WellFormed, Fresh, ReviewSha, Run;
  }

  // When a review can still be spent.

  lemma RestHead(w: World, id: Id)
    requires |Rest(w, id)| > 1
    ensures var e := Rest(w, id)[0]; e.Unlink? || e.RemoveDirectory? || e.RemoveReceipt?
  {
    if id in w.imports {
      var q := Ordered(w.imports[id].entries.Keys);
      assert DirectoryPlan(w, id)[0] == if q == [] then RemoveDirectory(id) else Unlink(id, q[0]);
    }
  }

  lemma KeepsJournal(w: World, e: Effect)
    requires e.Unlink? || e.RemoveDirectory? || e.RemoveReceipt?
    ensures Apply(w, e).removals == w.removals
  {
  }

  /** No effect but the last touches the journal. */
  lemma StepKeepsJournal(w: World, id: Id)
    requires |Rest(w, id)| > 1
    ensures Apply(w, Rest(w, id)[0]).removals == w.removals
  {
    RestHead(w, id);
    KeepsJournal(w, Rest(w, id)[0]);
  }

  lemma {:induction false} JournalKept(sha: Digest, w: World, id: Id, k: nat)
    requires WellFormed(w) && Pending(sha, w, id) && k < |Rest(w, id)|
    ensures ApplyAll(w, Rest(w, id)[..k]).removals == w.removals
  {
    var plan := Rest(w, id);
    hide Rest, Pending, WellFormed, Apply;
    if k == 0 {
      assert plan[..0] == [];
    } else {
      JournalKept(sha, w, id, k - 1);
      EveryPrefixIsPending(sha, w, id, k - 1);
      StepKeepsJournal(ApplyAll(w, plan[..k - 1]), id);
      AppliedStep(w, plan, k - 1);
    }
  }

  lemma RestLength(sha: Digest, w: World, id: Id)
    requires WellFormed(w) && Pending(sha, w, id)
    ensures id in w.imports ==> |Rest(w, id)| == |w.imports[id].entries.Keys| + 3
    ensures id !in w.imports ==> |Rest(w, id)| <= 2
  {
  }

  lemma PendingReview(sha: Digest, w: World, id: Id)
    requires WellFormed(w) && Pending(sha, w, id)
    ensures id in w.removals
    ensures id in w.imports ==> ReviewSha(sha, w, id) == Some(IdentityOf(w.inodes, w.imports[id]))
    ensures id !in w.imports ==> ReviewSha(sha, w, id) == Some(RemovedImport(w.removals[id]))
  {
  }

  lemma IdentityNames(inodes: map<nat, INode>, d: Dir, inodes': map<nat, INode>, d': Dir)
    requires Allocated(inodes, d) && Allocated(inodes', d') && IdentityOf(inodes, d) == IdentityOf(inodes', d')
    ensures d.entries.Keys == d'.entries.Keys
  {
    assert IdentityOf(inodes, d).files.Keys == d.entries.Keys;
    assert IdentityOf(inodes', d').files.Keys == d'.entries.Keys;
  }

  /** A review taken during a removal is worth as much at a later point of it exactly when nothing
      of the directory was removed in between: every unlink demands a new review, and the review
      of a removed directory stays good until the end. */
  lemma ReviewStaysGood(sha: Digest, w: World, id: Id, j: nat, k: nat)
    requires WellFormed(w) && Pending(sha, w, id) && j <= k < |Rest(w, id)|
    ensures var plan := Rest(w, id);
            var earlier, later := ApplyAll(w, plan[..j]), ApplyAll(w, plan[..k]);
            && WellFormed(earlier) && WellFormed(later)
            && (ReviewSha(sha, earlier, id) == ReviewSha(sha, later, id) <==> j == k || id !in earlier.imports)
  {
    var plan := Rest(w, id);
    var earlier, later := ApplyAll(w, plan[..j]), ApplyAll(w, plan[..k]);
    EveryPrefixIsPending(sha, w, id, j);
    EveryPrefixIsPending(sha, w, id, k);
    assert |Rest(earlier, id)| == |plan| - j && |Rest(later, id)| == |plan| - k;
    hide Rest, Pending, ReviewSha, Apply;
    JournalKept(sha, w, id, j);
    JournalKept(sha, w, id, k);
    RestLength(sha, earlier, id);
    RestLength(sha, later, id);
    PendingReview(sha, earlier, id);
    PendingReview(sha, later, id);
    if id in earlier.imports && id in later.imports && ReviewSha(sha, earlier, id) == ReviewSha(sha, later, id) {
      IdentityNames(earlier.inodes, earlier.imports[id], later.inodes, later.imports[id]);
    }
  }

  // What a removal leaves alone.

  /** The effects of a removal of `id`. */
  predicate Concerns(e: Effect, id: Id) {
    match e
    case WriteJournalTemp => true
    case PersistJournal(journal) => journal.receipt.id == id
    case Unlink(i, _) => i == id
    case RemoveDirectory(i) => i == id
    case RemoveReceipt(i) => i == id
    case RemoveJournal(i) => i == id
    case _ => false
  }

  /** No file is shared between two imports. */
  ghost predicate Separate(w: World, id: Id, other: Id) {
    id in w.imports && other in w.imports ==> FileInodes(w.imports[id]) !! FileInodes(w.imports[other])
  }

  /** Everything that is known about an import is the same in both states. */
  ghost predicate SameImport(w: World, w': World, id: Id) {
    && w'.importsIno == w.importsIno
    && (id in w'.imports <==> id in w.imports) && (id in w.imports ==> w'.imports[id] == w.imports[id])
    && (id in w'.receipts <==> id in w.receipts) && (id in w.receipts ==> w'.receipts[id] == w.receipts[id])
    && (id in w'.removals <==> id in w.removals) && (id in w.removals ==> w'.removals[id] == w.removals[id])
    && (id in w.imports ==> SameFiles(w, w', FileInodes(w.imports[id])))
  }

  ghost predicate SameFiles(w: World, w': World, files: set<nat>) {
    forall i | i in files && i in w.inodes :: i in w'.inodes && w'.inodes[i] == w.inodes[i]
  }

  lemma EffectLeavesOthers(w: World, e: Effect, id: Id, other: Id)
    requires WellFormed(w) && Concerns(e, id) && other != id && Separate(w, id, other)
    ensures SameImport(w, Apply(w, e), other) && Separate(Apply(w, e), id, other)
  {
  }

  lemma SameImportTransitive(w: World, w': World, w'': World, id: Id)
    requires WellFormed(w) && SameImport(w, w', id) && SameImport(w', w'', id)
    ensures SameImport(w, w'', id)
  {
  }

  lemma {:induction false} EffectsLeaveOthers(w: World, plan: seq<Effect>, id: Id, other: Id)
    requires WellFormed(w) && other != id && Separate(w, id, other)
    requires AllConcern(plan, id)
    ensures SameImport(w, ApplyAll(w, plan), other) && Separate(ApplyAll(w, plan), id, other)
    decreases |plan|
  {
    if plan != [] {
      ApplyKeepsWellFormed(w, plan[0]);
      EffectLeavesOthers(w, plan[0], id, other);
      EffectsLeaveOthers(Apply(w, plan[0]), plan[1..], id, other);
      SameImportTransitive(w, Apply(w, plan[0]), ApplyAll(w, plan), other);
    }
  }

  ghost predicate AllConcern(plan: seq<Effect>, id: Id) {
    forall i | 0 <= i < |plan| :: Concerns(plan[i], id)
  }

  lemma ConcernAppend(a: seq<Effect>, b: seq<Effect>, id: Id)
    requires AllConcern(a, id) && AllConcern(b, id)
    ensures AllConcern(a + b, id)
  {
  }

  lemma RestConcerns(w: World, id: Id)
    ensures AllConcern(Rest(w, id), id)
  {
    hide Ordered, Unlinks;
    ConcernAppend(DirectoryPlan(w, id), ReceiptPlan(w, id), id);
    ConcernAppend(DirectoryPlan(w, id) + ReceiptPlan(w, id), [RemoveJournal(id)], id);
  }

  lemma PlanConcerns(sha: Digest, w: World, id: Id)
    requires WellFormed(w)
    ensures AllConcern(Plan(sha, w, id), id)
  {
    RestConcerns(w, id);
    hide Rest;
    if id !in w.removals && !Orphan(w, id) && id in w.receipts && id in w.imports {
      ConcernAppend([WriteJournalTemp, PersistJournal(JournalFor(sha, w, id))], Rest(w, id), id);
    }
  }

  /** No run of attempts on one import, whatever state it is in and wherever it is stopped, changes
      anything about another. */
  lemma {:induction false} RunLeavesOthers(sha: Digest, w: World, id: Id, tries: seq<Try>, other: Id)
    requires WellFormed(w) && other != id && Separate(w, id, other)
    ensures SameImport(w, Run(sha, w, id, tries), other) && Separate(Run(sha, w, id, tries), id, other)
    decreases |tries|
  {
    if tries != [] {
      var w' := After(sha, w, id, tries[0]);
      PlanConcerns(sha, w, id);
      hide Plan, WellFormed, Apply, SameImport, Concerns, Separate;
      EffectsLeaveOthers(w, Plan(sha, w, id)[..Steps(sha, w, id, tries[0])], id, other);
      RunLeavesOthers(sha, w', id, tries[1..], other);
      SameImportTransitive(w, w', Run(sha, w', id, tries[1..]), other);
    }
  }

  lemma SameFilesSameIdentity(w: World, w': World, d: Dir)
    requires Allocated(w.inodes, d) && SameFiles(w, w', FileInodes(d))
    ensures Allocated(w'.inodes, d) && IdentityOf(w'.inodes, d) == IdentityOf(w.inodes, d)
    ensures Acceptable(w'.inodes, d) <==> Acceptable(w.inodes, d)
  {
    hide Acceptable;
    forall n | n in d.entries ensures d.entries[n] in w'.inodes && w'.inodes[d.entries[n]] == w.inodes[d.entries[n]] {
      assert d.entries[n] in FileInodes(d);
    }
    if Acceptable(w.inodes, d) {
      SameSizesAcceptable(w.inodes, w'.inodes, d);
    }
    if Acceptable(w'.inodes, d) {
      SameSizesAcceptable(w'.inodes, w.inodes, d);
    }
  }

  /** So its review, its health and its ownership are what they were. */
  lemma SameImportSameReview(sha: Digest, w: World, w': World, id: Id)
    requires WellFormed(w) && WellFormed(w') && SameImport(w, w', id)
    ensures ReviewSha(sha, w', id) == ReviewSha(sha, w, id)
    ensures Verified(w', id) <==> Verified(w, id)
    ensures Pending(sha, w', id) <==> Pending(sha, w, id)
  {
    if id in w.imports {
      var d := w.imports[id];
      SameFilesSameIdentity(w, w', d);
      hide Acceptable, IdentityOf;
      assert forall n | n in d.entries :: d.entries[n] in FileInodes(d);
      if id in w.removals {
        var files := w.removals[id].files;
        forall n | n in d.entries
          ensures FileRecorded(w.inodes, d, files, n) <==> FileRecorded(w'.inodes, d, files, n)
          ensures SameFile(sha, w.inodes, d, files, n) <==> SameFile(sha, w'.inodes, d, files, n)
        {
          assert d.entries[n] in FileInodes(d);
        }
      }
    }
  }
}
