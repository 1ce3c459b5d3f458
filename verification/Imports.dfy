/** A selection from its references to its published files, and how long they stay. */
module Imports {
  import opened Names
  import opened Storage
  import opened Fingerprint
  import opened Quota
  import opened Review
  import opened Publication
  import opened Staging
  import PublicationRuns
  import RemovalRuns
  import Store

  // Validation of the staged copies.

  /** The staged files behind the rewritten references, as the decoder is asked for them. */
  function StagedNames(references: seq<string>): (names: seq<string>)
    ensures |names| == |references| && forall k | 0 <= k < |names| :: names[k] == BaseName(references[k])
  {
    seq(|references|, k requires 0 <= k < |references| => BaseName(references[k]))
  }

  /** The staging directory before and after the decoder ran: the same identity, and acceptable. */
  ghost predicate Undisturbed(inodes: map<nat, INode>, d: Dir, inodes': map<nat, INode>, d': Dir)
    requires Allocated(inodes, d) && Allocated(inodes', d')
  {
    Acceptable(inodes, d) && HasIdentity(inodes', d', IdentityOf(inodes, d))
  }

  /** A reference can be validated when it leads into this staging area. */
  ghost predicate AllStaged(paths: map<string, string>, references: seq<string>) {
    forall k | 0 <= k < |references| :: references[k] in paths.Values
  }

  /** Validates the staged copies: every reference leads into the staging area, the decoder accepts the
      staged file behind each of them, and the directory is the same before and after. `decodes` is the
      decoder's verdict; `inodes'` and `d'` are the staging directory when it is done. */
  method ValidateWith(paths: map<string, string>, inodes: map<nat, INode>, d: Dir, references: seq<string>, control: CopyControl,
                      decodes: seq<string> -> bool, inodes': map<nat, INode>, d': Dir) returns (r: Option<Sha>)
    requires Allocated(inodes, d) && Allocated(inodes', d')
    modifies control
    ensures r.Some? <==>
            && old(control.checks) >= 2 && |references| <= MAX_REFERENCES && AllStaged(paths, references)
            && decodes(StagedNames(references)) && Undisturbed(inodes, d, inodes', d')
    ensures r.Some? ==> r.value == IdentityOf(inodes, d)
  {
    var ok := control.Check();
    if !ok || |references| > MAX_REFERENCES {
      return None;
    }
    var names: seq<string> := [];
    for k := 0 to |references|
      invariant AllStaged(paths, references[..k]) && names == StagedNames(references[..k])
    {
      if references[k] !in paths.Values {
        return None;
      }
      assert references[..k + 1] == references[..k] + [references[k]];
      names := names + [BaseName(references[k])];
    }
    assert references[..|references|] == references;
    var fingerprint := FingerprintDirectory(inodes, d);
    if fingerprint.None? || !decodes(names) {
      return None;
    }
    ok := control.Check();
    if !ok {
      return None;
    }
    ok := CheckIdentity(inodes', d', fingerprint.value);
    r := if ok then fingerprint else None;
  }

  lemma {:induction false} LastSlash(prefix: string, name: string)
    requires '/' !in name
    ensures LastIndex(prefix + "/" + name, '/') == Some(|prefix|)
    decreases |name|
  {
    var path := prefix + "/" + name;
    if name != [] {
      assert path[..|path| - 1] == prefix + "/" + name[..|name| - 1];
      LastSlash(prefix, name[..|name| - 1]);
    }
  }

  lemma FileNameHasNoSlash(digest: string, path: string)
    requires ValidHash(digest)
    ensures '/' !in FileName(digest, path)
  {
    assert ValidExtension(Extension(path));
    hide Extension;
  }

  /** The file name of a destination is the staged name. */
  lemma TargetName(destination: string, digest: string, path: string)
    requires ValidHash(digest)
    ensures BaseName(Target(destination, digest, path)) == FileName(digest, path)
  {
    FileNameHasNoSlash(digest, path);
    hide FileName;
    LastSlash(destination, FileName(digest, path));
  }

  /** A name of a directory that holds these bytes. */
  ghost predicate Contains(inodes: map<nat, INode>, d: Dir, name: string, content: Content) {
    name in d.entries && d.entries[name] in inodes && inodes[d.entries[name]].data == content
  }

  /** Whatever the decoder is asked for is the staged copy of the bytes that were read from the source
      the reference named. */
  lemma DecodedCopies(s: Stage, sha: Digest, destination: string, path: string)
    requires Sound(s, sha, destination) && IsDigest(sha) && CollisionFree(sha, Touched(s)) && path in s.paths
    ensures path in s.contents && Contains(s.inodes, s.dir, BaseName(s.paths[path]), s.contents[path])
  {
    SoundKeys(s, sha, destination);
    StagedContent(s, sha, destination, path, path);
    TargetName(destination, sha(s.contents[path]), path);
  }

  // Publication.

  /** The staging area `s` is what the store has staged under `id`. */
  ghost predicate StagedAs(w: World, id: Id, s: Stage) {
    && id in w.staged && w.staged[id] == s.dir
    && forall i | i in s.inodes :: i in w.inodes && w.inodes[i] == s.inodes[i]
  }

  lemma SelectedFully(w: World, id: Id, fingerprint: Sha, checks: nat, fuel: nat)
    requires WellFormed(w) && id in w.staged && Accepted(w, id, fingerprint, true, checks)
    requires LastEffect(w, id, checks) == RenameStaged(id) && fuel >= |SelectionPlan(w, id, fingerprint, true, checks)|
    ensures var after := w.(receipts := w.receipts[id := ReceiptFor(w, id, fingerprint)]);
            Store.Selected(w, id, fingerprint, true, checks, fuel) == Apply(after, RenameStaged(id)) && WellFormed(after)
  {
    var plan := SelectionPlan(w, id, fingerprint, true, checks);
    var record := RecordPlan(w, ReceiptFor(w, id, fingerprint));
    assert plan[..|plan|] == plan;
    RecordedState(w, id, fingerprint);
    hide Accepted, WellFormed, RecordPlan, ApplyAll, Apply;
    ApplyAllSnoc(w, record, RenameStaged(id));
  }

  /** A selection that is published: the import is verified, and every reference of the selection leads
      to a file of it with exactly the bytes that were read from the source it named. */
  lemma PublishedSelection(sha: Digest, destination: string, s: Stage, w: World, id: Id, fingerprint: Sha, checks: nat, fuel: nat, path: string)
    requires Staging.Sound(s, sha, destination) && IsDigest(sha) && CollisionFree(sha, Touched(s)) && path in s.paths
    requires WellFormed(w) && StagedAs(w, id, s)
    requires Accepted(w, id, fingerprint, true, checks) && LastEffect(w, id, checks) == RenameStaged(id)
    requires fuel >= |SelectionPlan(w, id, fingerprint, true, checks)|
    ensures var w' := Store.Selected(w, id, fingerprint, true, checks, fuel);
            && WellFormed(w') && Verified(w', id) && id !in w'.staged
            && path in s.contents && Contains(w'.inodes, w'.imports[id], BaseName(s.paths[path]), s.contents[path])
  {
    DecodedCopies(s, sha, destination, path);
    SelectedFully(w, id, fingerprint, checks, fuel);
    PublishedIsVerified(w, id, fingerprint, checks);
    hide Staging.Sound, Accepted, WellFormed, Verified, CollisionFree, Touched, IsDigest, BaseName, Store.Selected, SelectionPlan;
  }

  lemma ReceiptIsWellFormed(w: World, id: Id, fingerprint: Sha)
    requires WellFormed(w) && id in w.staged
    ensures WellFormed(w.(receipts := w.receipts[id := ReceiptFor(w, id, fingerprint)]))
  {
  }

  lemma PublishedIsVerified(w: World, id: Id, fingerprint: Sha, checks: nat)
    requires WellFormed(w) && id in w.staged && id !in w.imports && Accepted(w, id, fingerprint, true, checks)
    ensures var after := w.(receipts := w.receipts[id := ReceiptFor(w, id, fingerprint)]);
            var w' := Apply(after, RenameStaged(id));
            && WellFormed(w') && Verified(w', id) && id !in w'.staged && w'.inodes == w.inodes && w'.imports[id] == w.staged[id]
  {
    hide HasIdentity, Fits, Acceptable;
    var after := w.(receipts := w.receipts[id := ReceiptFor(w, id, fingerprint)]);
    assert HasIdentity(w.inodes, w.staged[id], fingerprint);
    ReceiptIsWellFormed(w, id, fingerprint);
    RenameEffect(after, id, fingerprint);
    hide WellFormed;
    PublicationRuns.ReceiptMatches(Apply(after, RenameStaged(id)), id, fingerprint);
  }

  // How long an import stays.

  /** Effects of a publication of another directory. */
  predicate Spares(e: Effect, id: Id) {
    match e
    case WriteReceiptTemp => true
    case PersistReceipt(receipt) => receipt.id != id
    case RenameStaged(other) => other != id
    case DiscardStaged(other) => other != id
    case _ => false
  }

  lemma SparedEffect(w: World, e: Effect, id: Id)
    requires WellFormed(w) && Spares(e, id)
    ensures WellFormed(Apply(w, e)) && RemovalRuns.SameImport(w, Apply(w, e), id)
  {
    ApplyKeepsWellFormed(w, e);
    hide WellFormed;
  }

  lemma {:induction false} SparedEffects(w: World, plan: seq<Effect>, id: Id)
    requires WellFormed(w) && forall i | 0 <= i < |plan| :: Spares(plan[i], id)
    ensures RemovalRuns.SameImport(w, ApplyAll(w, plan), id)
    decreases |plan|
  {
    hide WellFormed, Apply, RemovalRuns.SameImport;
    SameItself(w, id);
    if plan != [] {
      SparedEffect(w, plan[0], id);
      SparedEffects(Apply(w, plan[0]), plan[1..], id);
      RemovalRuns.SameImportTransitive(w, Apply(w, plan[0]), ApplyAll(w, plan), id);
    }
  }

  lemma SameItself(w: World, id: Id)
    ensures RemovalRuns.SameImport(w, w, id)
  {
  }

  lemma PlansSpare(w: World, other: Id, fingerprint: Sha, addressed: bool, checks: nat, id: Id)
    requires WellFormed(w) && other in w.staged && other != id
    ensures forall e | e in PublishPlan(w, other, fingerprint) :: Spares(e, id)
    ensures forall e | e in SelectionPlan(w, other, fingerprint, addressed, checks) :: Spares(e, id)
  {
    hide Accepted, WellFormed;
  }

  lemma StageLeavesImport(w: World, other: Id, d: Dir, files: map<nat, INode>, id: Id)
    requires WellFormed(w) && Store.Stageable(w, other, d, files) && id in w.imports
    ensures RemovalRuns.SameImport(w, Store.Staged(w, other, d, files), id)
  {
  }

  /** No operation but a removal of it, stopped anywhere, changes anything about an import. */
  lemma StepLeavesImport(sha: Digest, w: World, op: Store.Operation, id: Id)
    requires Store.Sound(sha, w) && Store.Possible(w, op) && id in w.imports && !(op.Remove? && op.id == id)
    ensures WellFormed(w) && RemovalRuns.SameImport(w, Store.Step(sha, w, op), id)
  {
    assert WellFormed(w) && Store.Exclusive(w);
    hide Store.Sound, WellFormed, RemovalRuns.SameImport, Ready, PublishPlan, SelectionPlan, ApplyAll, Spares;
    match op
    case Stage(other, d, files) => StageLeavesImport(w, other, d, files, id);
    case Publish(other, fingerprint, fuel) =>
      Store.PublishedIs(w, other, fingerprint, fuel);
      SameItself(w, id);
      if Ready(w, other, fingerprint) {
        PlansSpare(w, other, fingerprint, true, 0, id);
        var plan := PublishPlan(w, other, fingerprint);
        SparedEffects(w, plan[..if fuel <= |plan| then fuel else |plan|], id);
      }
    case Select(other, fingerprint, addressed, checks, fuel) =>
      PlansSpare(w, other, fingerprint, addressed, checks, id);
      var plan := SelectionPlan(w, other, fingerprint, addressed, checks);
      SparedEffects(w, plan[..if fuel <= |plan| then fuel else |plan|], id);
    case Remove(other, attempt) => Store.RemovalLeavesOthers(sha, w, other, attempt, id);
  }

  /** Over every run of stagings, publications and removals, a published import keeps its files, its
      receipt and its identity until a removal of that very import is attempted. */
  lemma {:induction false} ImportStays(sha: Digest, w: World, ops: seq<Store.Operation>, w': World, id: Id)
    requires Store.Sound(sha, w) && IsDigest(sha) && Store.Reachable(sha, w, ops, w')
    requires id in w.imports && forall op | op in ops :: !(op.Remove? && op.id == id)
    ensures WellFormed(w) && WellFormed(w') && RemovalRuns.SameImport(w, w', id) && (Verified(w', id) <==> Verified(w, id))
    decreases |ops|
  {
    Store.SoundWellFormed(sha, w);
    hide Store.Sound, Store.Step, WellFormed, Verified;
    SameItself(w, id);
    if ops != [] {
      var next := Store.Step(sha, w, ops[0]);
      StepLeavesImport(sha, w, ops[0], id);
      Store.StepKeepsSound(sha, w, ops[0]);
      ImportStays(sha, next, ops[1..], w', id);
      RemovalRuns.SameImportTransitive(w, next, w', id);
      RemovalRuns.SameImportSameReview(sha, w, w', id);
    }
  }
}
