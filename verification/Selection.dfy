/** Copying everything a selection refers to, and rewriting its references in place. */
module Selection {
  import opened Names
  import opened Storage
  import opened Fingerprint
  import opened Review
  import opened Staging

  // The references of a selection.

  function Flat(items: seq<seq<string>>): seq<string> {
    if items == [] then [] else Flat(items[..|items| - 1]) + items[|items| - 1]
  }

  lemma {:induction false} FlatPrefix(items: seq<seq<string>>, k: nat)
    requires k <= |items|
    ensures |Flat(items[..k])| <= |Flat(items)|
    decreases |items| - k
  {
    if k < |items| {
      assert items[..k + 1][..k] == items[..k];
      FlatPrefix(items, k + 1);
    } else {
      assert items[..k] == items;
    }
  }

  lemma {:induction false} FlatHas(items: seq<seq<string>>, i: nat, k: nat)
    requires i < |items| && k < |items[i]|
    ensures items[i][k] in Flat(items)
  {
    if i < |items| - 1 {
      FlatHas(items[..|items| - 1], i, k);
    }
  }

  /** Removes adjacent duplicates. */
  function Dedup(q: seq<string>): (r: seq<string>)
    ensures |r| <= |q| && (q != [] ==> r != [] && r[0] == q[0])
  {
    if |q| <= 1 then q
    else if q[0] == q[1] then Dedup(q[1..])
    else [q[0]] + Dedup(q[1..])
  }

  ghost predicate Ascending(q: seq<string>) {
    forall i, j :: 0 <= i < j < |q| ==> LexLe(q[i], q[j])
  }

  lemma {:induction false} InsertAscends(q: seq<string>, n: string)
    requires Ascending(q)
    ensures Ascending(Insert(q, n))
  {
    if q == [] {
    } else if LexLe(n, q[0]) {
      forall j | 0 <= j < |q| ensures LexLe(n, q[j]) {
        if j > 0 { LexTransitive(n, q[0], q[j]); }
      }
    } else {
      LexTotal(n, q[0]);
      assert Ascending(q[1..]);
      InsertAscends(q[1..], n);
      var rest := Insert(q[1..], n);
      forall j | 0 <= j < |rest| ensures LexLe(q[0], rest[j]) {
        assert rest[j] in Elements(rest);
        if rest[j] in Elements(q[1..]) {
          var k :| 0 <= k < |q[1..]| && q[1..][k] == rest[j];
          assert q[k + 1] == rest[j];
        }
      }
    }
  }

  lemma {:induction false} SortAscends(names: seq<string>)
    ensures Ascending(SortByPath(names))
  {
    if names != [] {
      SortAscends(names[1..]);
      InsertAscends(SortByPath(names[1..]), names[0]);
    }
  }

  /** After sorting, removing adjacent duplicates removes all of them and nothing else. */
  lemma {:induction false} DedupIsSet(q: seq<string>)
    requires Ascending(q)
    ensures LexSorted(Dedup(q)) && Elements(Dedup(q)) == Elements(q)
  {
    if |q| > 1 {
      assert Ascending(q[1..]);
      DedupIsSet(q[1..]);
      assert Elements(q) == {q[0]} + Elements(q[1..]);
      var rest := Dedup(q[1..]);
      if q[0] == q[1] {
        assert q[1..][0] in Elements(q[1..]);
      } else {
        assert Elements([q[0]] + rest) == {q[0]} + Elements(rest);
        forall j | 0 <= j < |rest| ensures LexLe(q[0], rest[j]) && q[0] != rest[j] {
          assert rest[j] in Elements(q[1..]);
          var k :| 0 <= k < |q[1..]| && q[1..][k] == rest[j];
          assert q[k + 1] == rest[j];
          LexTotal(q[0], q[1]);
          assert k > 0 ==> LexLe(q[1], q[k + 1]);
        }
      }
    } else if |q| == 1 {
      assert Elements(Dedup(q)) == Elements(q);
    }
  }

  predicate Referable(path: string) {
    |path| <= MAX_PATH && path != [] && path[0] == '/'
  }

  /** What a selection refers to: the references of its displays and templates, each at most once. */
  ghost predicate AreDependencies(all: seq<string>, deps: seq<string>) {
    LexSorted(deps) && Elements(deps) == Elements(all)
  }

  method Append(items: seq<seq<string>>, start: seq<string>) returns (ok: bool, deps: seq<string>)
    requires |start| <= MAX_REFERENCES
    ensures ok <==> |start| + |Flat(items)| <= MAX_REFERENCES
    ensures ok ==> deps == start + Flat(items)
  {
    deps := start;
    assert items[..0] == [] && start + Flat([]) == start;
    for k := 0 to |items|
      invariant deps == start + Flat(items[..k]) && |deps| <= MAX_REFERENCES
    {
      assert items[..k + 1][..k] == items[..k];
      deps := deps + items[k];
      FlatPrefix(items, k + 1);
      assert deps == start + Flat(items[..k + 1]);
      if |deps| > MAX_REFERENCES {
        return false, deps;
      }
    }
    assert items[..|items|] == items;
    ok := true;
  }

  /** The dependency list exists exactly when there are between one and 4096 references and every
      one is an absolute path of at most 4096 bytes. */
  method Dependencies(lcds: seq<seq<string>>, templates: seq<seq<string>>) returns (r: Option<seq<string>>)
    ensures var all := Flat(lcds) + Flat(templates);
            r.Some? <==> 1 <= |all| <= 4096 && forall p | p in all :: "/" <= p && |p| <= 4096
    ensures r.Some? ==> AreDependencies(Flat(lcds) + Flat(templates), r.value)
  {
    var ok, deps := Append(lcds, []);
    assert [] + Flat(lcds) == Flat(lcds);
    if !ok {
      return None;
    }
    ok, deps := Append(templates, deps);
    if !ok || deps == [] {
      return None;
    }
    for k := 0 to |deps|
      invariant forall i | 0 <= i < k :: Referable(deps[i])
    {
      if !Referable(deps[k]) {
        return None;
      }
    }
    SortAscends(deps);
    DedupIsSet(SortByPath(deps));
    r := Some(Dedup(SortByPath(deps)));
  }

  // Copying.

  type Opens = string -> Option<Source>

  function Bytes(opens: Opens, path: string): Content
    requires opens(path).Some?
  {
    Joined(opens(path).value.chunks)
  }

  /** The sources in `done` are staged, each with the bytes that were read from it. */
  ghost predicate Copied(opens: Opens, done: set<string>, paths: map<string, string>, contents: map<string, Content>) {
    && paths.Keys == done && contents.Keys == done
    && forall p | p in done :: opens(p).Some? && contents[p] == Bytes(opens, p)
  }

  /** What can be read from the sources in `paths`. */
  ghost function SourceBytes(opens: Opens, paths: set<string>): set<Content> {
    set p | p in paths && opens(p).Some? :: Bytes(opens, p)
  }

  lemma SourceBytesGrow(opens: Opens, paths: set<string>, p: string)
    requires opens(p).Some?
    ensures SourceBytes(opens, paths + {p}) == SourceBytes(opens, paths) + {Bytes(opens, p)}
  {
    hide Bytes;
  }

  /** A copy puts nothing but the content it read into the staging area. */
  lemma CopyStages(s: Stage, s': Stage, sha: Digest, path: string, source: Source, checks: nat, ino: nat)
    requires Stores(s, path, source, checks) ==> Gained(s, s', sha(Joined(source.chunks)), path, Joined(source.chunks), ino)
    requires !Stores(s, path, source, checks) ==> s' == s
    ensures DataOf(s') <= DataOf(s) + {Joined(source.chunks)}
  {
    hide Stores, Joined, FileName, DataOf;
  }

  /** Once everything is copied, the contents in play are what the sources held. */
  lemma TouchedSources(s: Stage, opens: Opens, all: set<string>)
    requires Copied(opens, all, s.paths, s.contents) && DataOf(s) <= SourceBytes(opens, all)
    ensures Touched(s) <= SourceBytes(opens, all)
  {
    hide Bytes, DataOf;
    forall c | c in s.contents.Values ensures c in SourceBytes(opens, all) {
      var p :| p in s.contents && s.contents[p] == c;
      assert opens(p).Some? && Bytes(opens, p) == c;
    }
  }

  lemma CopiedOne(opens: Opens, done: set<string>, paths: map<string, string>, contents: map<string, Content>, path: string, target: string)
    requires Copied(opens, done, paths, contents) && opens(path).Some?
    ensures Copied(opens, done + {path}, paths[path := target], contents[path := Bytes(opens, path)])
  {
    hide Joined;
  }

  lemma PrefixElements(deps: seq<string>, k: nat)
    requires LexSorted(deps) && k < |deps|
    ensures deps[k] !in Elements(deps[..k]) && Elements(deps[..k + 1]) == Elements(deps[..k]) + {deps[k]}
  {
    assert deps[..k + 1] == deps[..k] + [deps[k]];
    forall i | 0 <= i < k ensures deps[i] != deps[k] {
    }
  }

  /** Why a dependency ended the staging: nothing before it was lost, and either the operation was
      cancelled, or the path does not open, or its source is not accepted. */
  ghost predicate Stuck(sha: Digest, destination: string, deps: seq<string>, opens: Opens, k: nat, s: Stage, checks: nat) {
    && k < |deps| && Sound(s, sha, destination) && Copied(opens, Elements(deps[..k]), s.paths, s.contents)
    && (checks == 0 || opens(deps[k]).None? || !Accepts(s, deps[k], opens(deps[k]).value, checks - 1))
  }

  /** The first `k` dependencies are staged, and nothing else. */
  ghost predicate StagedSoFar(opens: Opens, deps: seq<string>, k: nat, s: Stage) {
    && k <= |deps| && s.spoiled == 0
    && Copied(opens, Elements(deps[..k]), s.paths, s.contents)
    && DataOf(s) <= SourceBytes(opens, Elements(deps[..k]))
  }

  lemma StagedNext(opens: Opens, deps: seq<string>, k: nat, s: Stage, s': Stage, target: string)
    requires LexSorted(deps) && k < |deps| && opens(deps[k]).Some? && StagedSoFar(opens, deps, k, s) && s'.spoiled == 0
    requires s'.paths == s.paths[deps[k] := target] && s'.contents == s.contents[deps[k] := Bytes(opens, deps[k])]
    requires DataOf(s') <= DataOf(s) + {Bytes(opens, deps[k])}
    ensures StagedSoFar(opens, deps, k + 1, s')
  {
    hide Bytes, Copied, DataOf, SourceBytes, LexSorted;
    PrefixElements(deps, k);
    CopiedOne(opens, Elements(deps[..k]), s.paths, s.contents, deps[k], target);
    SourceBytesGrow(opens, Elements(deps[..k]), deps[k]);
  }

  lemma NotStaged(opens: Opens, deps: seq<string>, k: nat, s: Stage)
    requires LexSorted(deps) && k < |deps| && StagedSoFar(opens, deps, k, s)
    ensures deps[k] !in s.paths && s.spoiled == 0
  {
    hide Bytes, DataOf, SourceBytes, LexSorted;
    PrefixElements(deps, k);
  }

  /** Stages one dependency. */
  method StageNext(deps: seq<string>, k: nat, opens: Opens, media: MediaStaging, control: CopyControl, ino: nat, now: int)
    returns (ok: bool)
    requires media.Valid() && LexSorted(deps) && k < |deps| && ino !in media.inodes
    requires StagedSoFar(opens, deps, k, media.View())
    modifies media, control
    ensures media.Valid() && media.inodes.Keys <= old(media.inodes.Keys) + {ino}
    ensures ok ==> StagedSoFar(opens, deps, k + 1, media.View())
    ensures !ok ==> Stuck(media.sha, media.destination, deps, opens, k, old(media.View()), old(control.checks))
  {
    hide Extends, Accepts, Target, Bytes, Joined, Sound, IsDigest, Stuck, Stores, Gained, DataOf, StagedSoFar, LexSorted;
    ghost var s := media.View();
    StuckWhen(media.sha, media.destination, deps, opens, k, s, control.checks);
    NotStaged(opens, deps, k, s);
    var open := control.Check();
    if !open {
      return false;
    }
    var source := opens(deps[k]);
    if source.None? {
      return false;
    }
    ghost var checks := control.checks;
    var target := media.Add(deps[k], source.value, control, ino, now);
    if target.Err? {
      return false;
    }
    BytesAre(opens, deps[k]);
    CopyStages(s, media.View(), media.sha, deps[k], source.value, checks, ino);
    StagedNext(opens, deps, k, s, media.View(), target.value);
    ok := true;
  }

  /** Stages every dependency, in order; the first one that cannot be opened or added ends it. */
  method StageAll(deps: seq<string>, opens: Opens, media: MediaStaging, control: CopyControl, base: nat, now: int)
    returns (ok: bool, ghost at: nat, ghost stage: Stage, ghost checks: nat)
    requires media.Valid() && LexSorted(deps)
    requires media.paths == map[] && media.contents == map[] && media.spoiled == 0 && media.inodes == map[]
    modifies media, control
    ensures media.Valid()
    ensures ok ==> StagedSoFar(opens, deps, |deps|, media.View())
    ensures !ok ==> Stuck(media.sha, media.destination, deps, opens, at, stage, checks)
  {
    NothingStaged(opens, deps, media.View());
    hide Sound, IsDigest, Stuck, StagedSoFar, LexSorted;
    at, stage, checks := 0, media.View(), 0;
    for k := 0 to |deps|
      invariant media.Valid() && StagedSoFar(opens, deps, k, media.View())
      invariant forall i | i in media.inodes :: i < base + k
    {
      at, stage, checks := k, media.View(), control.checks;
      ok := StageNext(deps, k, opens, media, control, base + k, now);
      if !ok {
        return;
      }
    }
    ok := true;
  }

  lemma NothingStaged(opens: Opens, deps: seq<string>, s: Stage)
    requires s.paths == map[] && s.contents == map[] && s.spoiled == 0 && s.inodes == map[]
    ensures StagedSoFar(opens, deps, 0, s)
  {
    assert Elements(deps[..0]) == {};
  }

  lemma AllStaged(opens: Opens, deps: seq<string>, s: Stage)
    requires StagedSoFar(opens, deps, |deps|, s)
    ensures Copied(opens, Elements(deps), s.paths, s.contents) && DataOf(s) <= SourceBytes(opens, Elements(deps)) && s.spoiled == 0
  {
    hide Copied, DataOf, SourceBytes;
    assert deps[..|deps|] == deps;
  }

  lemma StuckWhen(sha: Digest, destination: string, deps: seq<string>, opens: Opens, k: nat, s: Stage, checks: nat)
    requires k < |deps| && Sound(s, sha, destination) && StagedSoFar(opens, deps, k, s)
    ensures checks == 0 || opens(deps[k]).None? || !Accepts(s, deps[k], opens(deps[k]).value, checks - 1) ==>
              Stuck(sha, destination, deps, opens, k, s, checks)
  {
    hide Sound, Accepts, Copied, DataOf, SourceBytes;
  }

  lemma BytesAre(opens: Opens, path: string)
    requires opens(path).Some?
    ensures Bytes(opens, path) == Joined(opens(path).value.chunks)
  {
  }

  // Rewriting.

  function Rewrite(paths: map<string, string>, item: seq<string>): (r: seq<string>)
    ensures |r| == |item|
    ensures forall k | 0 <= k < |item| :: r[k] == if item[k] in paths then paths[item[k]] else item[k]
  {
    seq(|item|, k requires 0 <= k < |item| => if item[k] in paths then paths[item[k]] else item[k])
  }

  method RewriteAll(paths: map<string, string>, items: array<seq<string>>)
    modifies items
    ensures forall i | 0 <= i < items.Length :: items[i] == Rewrite(paths, old(items[i]))
  {
    for i := 0 to items.Length
      invariant forall j | 0 <= j < i :: items[j] == Rewrite(paths, old(items[j]))
      invariant forall j | i <= j < items.Length :: items[j] == old(items[j])
    {
      items[i] := Rewrite(paths, items[i]);
    }
  }

  /** Where a reference to `path` leads after the copy. */
  ghost predicate LeadsTo(s: Stage, sha: Digest, destination: string, path: string, target: string, content: Content) {
    var name := FileName(sha(content), path);
    && target == Target(destination, sha(content), path) && name in s.dir.entries && s.dir.entries[name] in s.inodes
    && s.inodes[s.dir.entries[name]].data == content
  }

  /** Every rewritten reference leads to a staged file with exactly the bytes read from the source
      it named. */
  ghost predicate Rewritten(s: Stage, sha: Digest, destination: string, opens: Opens, item: seq<string>, item': seq<string>) {
    && |item'| == |item|
    && forall k | 0 <= k < |item| ::
         opens(item[k]).Some? && LeadsTo(s, sha, destination, item[k], item'[k], Bytes(opens, item[k]))
  }

  lemma RewriteLeads(s: Stage, sha: Digest, destination: string, opens: Opens, all: seq<string>, item: seq<string>)
    requires Sound(s, sha, destination) && IsDigest(sha) && CollisionFree(sha, Touched(s))
    requires Copied(opens, Elements(all), s.paths, s.contents) && forall k | 0 <= k < |item| :: item[k] in all
    ensures Rewritten(s, sha, destination, opens, item, Rewrite(s.paths, item))
  {
    forall k | 0 <= k < |item|
      ensures opens(item[k]).Some? && LeadsTo(s, sha, destination, item[k], Rewrite(s.paths, item)[k], Bytes(opens, item[k]))
    {
      assert item[k] in Elements(all) && item[k] in s.paths;
      ContentAt(s, sha, destination, item[k]);
    }
  }

  lemma CopiedSame(opens: Opens, a: seq<string>, b: seq<string>, paths: map<string, string>, contents: map<string, Content>)
    requires Copied(opens, Elements(a), paths, contents) && Elements(a) == Elements(b)
    ensures Copied(opens, Elements(b), paths, contents)
  {
  }

  /** Why a selection was not prepared. */
  datatype Refusal = Cancelled | Unreferable | Misplaced | Unstaged(deps: seq<string>, k: nat, stage: Stage, checks: nat)

  ghost predicate Refused(sha: Digest, destination: string, opens: Opens, all: seq<string>, why: Refusal, checks: nat) {
    match why
    case Cancelled => checks == 0
    case Unreferable => !(1 <= |all| <= 4096 && forall p | p in all :: "/" <= p && |p| <= 4096)
    case Misplaced => !ValidDestination(destination)
    case Unstaged(deps, k, stage, left) => AreDependencies(all, deps) && Stuck(sha, destination, deps, opens, k, stage, left)
  }

  /** Prepares a selection: when it succeeds, the staged directory is acceptable for publication,
      and every reference of every display and template leads to a staged file with the bytes of
      the source it named. It fails only when it is cancelled, when the references or the destination
      are not acceptable, or when one reference cannot be staged. */
  method PrepareFrom(sha: Digest, destination: string, directory: nat, opens: Opens, lcds: array<seq<string>>,
                     templates: array<seq<string>>, control: CopyControl, base: nat, now: int)
    returns (r: Option<MediaStaging>, ghost why: Refusal)
    requires IsDigest(sha) && lcds != templates
    modifies lcds, templates, control
    ensures r.Some? ==> fresh(r.value) && r.value.Valid() && r.value.sha == sha && r.value.destination == destination
    ensures r.Some? ==> ValidDestination(destination) && Acceptable(r.value.View().inodes, r.value.View().dir)
    // Unless two of the contents that were read have the same digest, nothing is mixed up.
    ensures r.Some? && CollisionFree(sha, SourceBytes(opens, Elements(Flat(old(lcds[..])) + Flat(old(templates[..]))))) ==>
              forall i | 0 <= i < lcds.Length :: Rewritten(r.value.View(), sha, destination, opens, old(lcds[i]), lcds[i])
    ensures r.Some? && CollisionFree(sha, SourceBytes(opens, Elements(Flat(old(lcds[..])) + Flat(old(templates[..]))))) ==>
              forall i | 0 <= i < templates.Length ::
                Rewritten(r.value.View(), sha, destination, opens, old(templates[i]), templates[i])
    ensures r.None? ==> Refused(sha, destination, opens, Flat(old(lcds[..])) + Flat(old(templates[..])), why, control.checks)
  {
    hide Sound, CollisionFree, IsDigest, Acceptable, Copied, Rewrite, Rewritten, AreDependencies, Stuck, Referable, ValidDestination, Touched, SourceBytes, DataOf, StagedSoFar;
    why := Cancelled;
    var ok := control.Check();
    if !ok {
      return None, why;
    }
    ghost var all := Flat(lcds[..]) + Flat(templates[..]);
    var deps := Dependencies(lcds[..], templates[..]);
    if deps.None? {
      return None, Unreferable;
    }
    if !ValidDestination(destination) {
      return None, Misplaced;
    }
    DependenciesAre(all, deps.value);
    var media := new MediaStaging(sha, destination, directory);
    ghost var at, stage, checks;
    ok, at, stage, checks := StageAll(deps.value, opens, media, control, base, now);
    if !ok {
      return None, Unstaged(deps.value, at, stage, checks);
    }
    ghost var s := media.View();
    AllStaged(opens, deps.value, s);
    SoundIsAcceptable(s, sha, destination);
    CopiedSame(opens, deps.value, all, media.paths, media.contents);
    SameSources(opens, deps.value, all);
    TouchedSources(s, opens, Elements(all));
    if CollisionFree(sha, SourceBytes(opens, Elements(all))) {
      FewerCollisions(sha, Touched(s), SourceBytes(opens, Elements(all)));
      AllLead(s, sha, destination, opens, all, lcds[..]);
      AllLead(s, sha, destination, opens, all, templates[..]);
    }
    RewriteAll(media.paths, lcds);
    RewriteAll(media.paths, templates);
    ok := control.Check();
    if !ok {
      return None, Cancelled;
    }
    ok := control.Check();
    return if ok then Some(media) else None, Cancelled;
  }

  lemma SameSources(opens: Opens, a: seq<string>, b: seq<string>)
    requires Elements(a) == Elements(b)
    ensures SourceBytes(opens, Elements(a)) == SourceBytes(opens, Elements(b))
  {
  }

  lemma FewerCollisions(sha: Digest, some: set<Content>, all: set<Content>)
    requires CollisionFree(sha, all) && some <= all
    ensures CollisionFree(sha, some)
  {
  }

  lemma DependenciesAre(all: seq<string>, deps: seq<string>)
    requires AreDependencies(all, deps)
    ensures LexSorted(deps) && Elements(deps) == Elements(all)
  {
  }

  lemma AllLead(s: Stage, sha: Digest, destination: string, opens: Opens, all: seq<string>, items: seq<seq<string>>)
    requires Sound(s, sha, destination) && IsDigest(sha) && CollisionFree(sha, Touched(s))
    requires Copied(opens, Elements(all), s.paths, s.contents) && Elements(Flat(items)) <= Elements(all)
    ensures forall i | 0 <= i < |items| :: Rewritten(s, sha, destination, opens, items[i], Rewrite(s.paths, items[i]))
  {
    forall i | 0 <= i < |items| ensures Rewritten(s, sha, destination, opens, items[i], Rewrite(s.paths, items[i])) {
      forall k | 0 <= k < |items[i]| ensures items[i][k] in all {
        FlatHas(items, i, k);
        assert items[i][k] in Elements(Flat(items));
      }
      RewriteLeads(s, sha, destination, opens, all, items[i]);
    }
  }
}
