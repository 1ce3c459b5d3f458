/** What copies leave behind that are refused after their files were placed. */
module Refusals {
  import opened Names
  import opened Storage
  import opened Fingerprint
  import opened Review
  import opened Staging

  function TotalLength(contents: seq<Content>): nat {
    if contents == [] then 0 else TotalLength(contents[..|contents| - 1]) + |contents[|contents| - 1]|
  }

  lemma {:induction false} TotalPrefix(contents: seq<Content>, k: nat)
    requires k <= |contents|
    ensures TotalLength(contents[..k]) <= TotalLength(contents)
    decreases |contents| - k
  {
    if k < |contents| {
      assert contents[..k + 1][..k] == contents[..k];
      TotalPrefix(contents, k + 1);
    } else {
      assert contents[..k] == contents;
    }
  }

  /** The contents are new to the staging area, and have different digests. */
  ghost predicate NewObjects(sha: Digest, objects: set<string>, contents: seq<Content>) {
    && (forall i | 0 <= i < |contents| :: sha(contents[i]) !in objects)
    && (forall i, j | 0 <= i < j < |contents| :: sha(contents[i]) != sha(contents[j]))
  }

  ghost function Digests(sha: Digest, contents: seq<Content>, k: nat): set<string>
    requires k <= |contents|
  {
    set i | 0 <= i < k :: sha(contents[i])
  }

  lemma DigestsNext(sha: Digest, objects: set<string>, contents: seq<Content>, k: nat)
    requires k < |contents| && NewObjects(sha, objects, contents)
    ensures Digests(sha, contents, k + 1) == Digests(sha, contents, k) + {sha(contents[k])}
    ensures sha(contents[k]) !in objects + Digests(sha, contents, k)
  {
  }

  /** The objects after the first `k` refusals. */
  ghost predicate Leftover(s0: Stage, s: Stage, sha: Digest, contents: seq<Content>, k: nat) {
    && k <= |contents| && s.objects.Keys == s0.objects.Keys + Digests(sha, contents, k)
    && |s.objects.Keys| == |s0.objects.Keys| + k && s.spoiled == s0.spoiled + k
    && s.stored == s0.stored + TotalLength(contents[..k])
    && s.paths == s0.paths && s.sources == s0.sources && s.contents == s0.contents
  }

  lemma LeftoverNone(s: Stage, sha: Digest, contents: seq<Content>)
    ensures Leftover(s, s, sha, contents, 0)
  {
    assert Digests(sha, contents, 0) == {};
  }

  lemma OneMoreObject(s: Stage, s': Stage, digest: string, path: string, content: Content, ino: nat)
    requires Gained(s, s', digest, path, content, ino) && digest !in s.objects
    ensures s'.objects.Keys == s.objects.Keys + {digest} && |s'.objects.Keys| == |s.objects.Keys| + 1
    ensures s'.stored == s.stored + |content|
  {
    hide FileName, DataOf;
  }

  lemma LeftoverNext(s0: Stage, s: Stage, s': Stage, sha: Digest, contents: seq<Content>, k: nat, path: string, ino: nat)
    requires Leftover(s0, s, sha, contents, k) && k < |contents| && NewObjects(sha, s0.objects.Keys, contents)
    requires Gained(s, s', sha(contents[k]), path, contents[k], ino) && s'.spoiled == s.spoiled + 1
    requires s'.paths == s.paths && s'.sources == s.sources && s'.contents == s.contents
    ensures Leftover(s0, s', sha, contents, k + 1)
  {
    hide Gained, Digests, NewObjects, TotalLength;
    DigestsNext(sha, s0.objects.Keys, contents, k);
    OneMoreObject(s, s', sha(contents[k]), path, contents[k], ino);
    TotalNext(contents, k);
    UnionNext(s0.objects.Keys, Digests(sha, contents, k), sha(contents[k]));
  }

  lemma TotalNext(contents: seq<Content>, k: nat)
    requires k < |contents|
    ensures TotalLength(contents[..k + 1]) == TotalLength(contents[..k]) + |contents[k]|
  {
    assert contents[..k + 1][..k] == contents[..k];
  }

  lemma UnionNext(a: set<string>, b: set<string>, x: string)
    ensures a + (b + {x}) == a + b + {x}
  {
  }

  lemma LeftoverRoom(s0: Stage, s: Stage, sha: Digest, contents: seq<Content>, k: nat)
    requires Leftover(s0, s, sha, contents, k) && k < |contents|
    ensures s.stored + |contents[k]| <= s0.stored + TotalLength(contents)
  {
    assert contents[..k + 1][..k] == contents[..k];
    TotalPrefix(contents, k + 1);
  }

  lemma LateRefusal(s: Stage, path: string, c: Content)
    requires ValidPath(path) && path !in s.sources && |s.paths.Keys| < MAX_ASSETS && |c| <= MAX_FILE && |c| + s.stored <= MAX_STORE
    ensures var checks := |SteadySource(c).chunks| + 3;
            Stores(s, path, SteadySource(c), checks) && !Accepts(s, path, SteadySource(c), checks)
  {
    SteadyCopies(c);
    hide Copies, Joined, ValidPath;
  }

  /** A copy that is cancelled at its very last check. */
  method RefuseOne(media: MediaStaging, path: string, contents: seq<Content>, k: nat, ino: nat, now: int, ghost s0: Stage)
    requires media.Valid() && ValidPath(path) && path !in s0.sources && |s0.paths.Keys| < MAX_ASSETS && ino !in media.inodes
    requires k < |contents| && |contents[k]| <= MAX_FILE && s0.stored + TotalLength(contents) <= MAX_STORE
    requires NewObjects(media.sha, s0.objects.Keys, contents) && Leftover(s0, media.View(), media.sha, contents, k)
    modifies media
    ensures media.Valid() && media.inodes.Keys <= old(media.inodes.Keys) + {ino}
    ensures Leftover(s0, media.View(), media.sha, contents, k + 1)
  {
    ghost var s := media.View();
    LeftoverMeans(s0, s, media.sha, contents, k);
    LeftoverRoom(s0, s, media.sha, contents, k);
    hide Sound, IsDigest, Gained, Stores, Accepts, Joined, ValidPath, Leftover, NewObjects, TotalLength, Target, Extends;
    LateRefusal(s, path, contents[k]);
    SteadyCopies(contents[k]);
    var control := new CopyControl(|SteadySource(contents[k]).chunks| + 3);
    var r := media.Add(path, SteadySource(contents[k]), control, ino, now);
    LeftoverNext(s0, s, media.View(), media.sha, contents, k, path, ino);
  }

  /** Every such copy leaves an object, and none of them is listed: after more than 4096 of them the
      fingerprint refuses the directory. */
  method RefusedCopies(media: MediaStaging, path: string, contents: seq<Content>, ino: nat, now: int)
    requires media.Valid() && ValidPath(path) && path !in media.sources && |media.paths.Keys| < MAX_ASSETS
    requires forall i | i in media.inodes :: i < ino
    requires (forall i | 0 <= i < |contents| :: |contents[i]| <= MAX_FILE) && media.stored + TotalLength(contents) <= MAX_STORE
    requires NewObjects(media.sha, media.objects.Keys, contents)
    modifies media
    ensures media.Valid() && media.paths == old(media.paths) && media.spoiled == old(media.spoiled) + |contents|
    ensures |media.objects.Keys| == |old(media.objects.Keys)| + |contents|
    ensures |old(media.objects.Keys)| + |contents| > MAX_OBJECTS ==> !Acceptable(media.View().inodes, media.View().dir)
  {
    hide Sound, IsDigest, Acceptable, Leftover, NewObjects, TotalLength, ValidPath;
    ghost var s0 := media.View();
    LeftoverNone(s0, media.sha, contents);
    for k := 0 to |contents|
      invariant media.Valid() && Leftover(s0, media.View(), media.sha, contents, k)
      invariant forall i | i in media.inodes :: i < ino + k
    {
      RefuseOne(media, path, contents, k, ino + k, now, s0);
    }
    LeftoverEnds(s0, media.View(), media.sha, media.destination, contents);
  }

  lemma LeftoverMeans(s0: Stage, s: Stage, sha: Digest, contents: seq<Content>, k: nat)
    requires Leftover(s0, s, sha, contents, k)
    ensures s.paths == s0.paths && s.sources == s0.sources && s.contents == s0.contents
  {
    hide Digests;
  }

  lemma LeftoverEnds(s0: Stage, s: Stage, sha: Digest, destination: string, contents: seq<Content>)
    requires Leftover(s0, s, sha, contents, |contents|) && Sound(s, sha, destination)
    ensures |s.objects.Keys| == |s0.objects.Keys| + |contents| && s.spoiled == s0.spoiled + |contents| && s.paths == s0.paths
    ensures |s0.objects.Keys| + |contents| > MAX_OBJECTS ==> !Acceptable(s.inodes, s.dir)
  {
    hide Sound, Acceptable, Digests;
    SoundIsAcceptable(s, sha, destination);
  }

  /** A digest for contents of two bytes. */
  function ShortDigest(c: Content): (q: string)
    ensures |q| == 64 && forall i | 0 <= i < 64 :: '0' <= q[i] <= '9'
  {
    Numeral(if |c| == 2 then c[0] as nat * 256 + c[1] as nat else 0, 64)
  }

  function ShortContent(n: nat): Content
    requires n < 65536
  {
    [(n / 256) as Byte, (n % 256) as Byte]
  }

  lemma {:induction false} PowerGrows(w: nat)
    requires w >= 5
    ensures Power(w) >= 100000
    decreases w
  {
    if w > 5 {
      PowerGrows(w - 1);
    } else {
      assert Power(1) == 10 && Power(2) == 100 && Power(3) == 1000 && Power(4) == 10000;
    }
  }

  lemma ShortValue(n: nat)
    requires n < 65536
    ensures ShortDigest(ShortContent(n)) == Numeral(n, 64)
  {
    hide Numeral;
    assert n / 256 * 256 + n % 256 == n;
  }

  lemma ShortDigestsDiffer(m: nat, n: nat)
    requires m < 65536 && n < 65536 && ShortDigest(ShortContent(m)) == ShortDigest(ShortContent(n))
    ensures m == n
  {
    PowerGrows(64);
    ShortValue(m);
    ShortValue(n);
    hide Power, ShortDigest, Numeral;
    NumeralsDiffer(m, n, 64);
  }

  lemma {:induction false} ShortTotal(contents: seq<Content>)
    requires forall i | 0 <= i < |contents| :: |contents[i]| == 2
    ensures TotalLength(contents) == 2 * |contents|
    decreases |contents|
  {
    if contents != [] {
      ShortTotal(contents[..|contents| - 1]);
    }
  }

  /** Such a staging area exists: 4097 refused copies of two bytes each. */
  method OverfullStaging() returns (media: MediaStaging)
    ensures fresh(media) && media.Valid() && media.paths == map[] && !Acceptable(media.View().inodes, media.View().dir)
  {
    hide Acceptable, Sound, TotalLength;
    media := new MediaStaging(ShortDigest, "/media", 0);
    var contents := seq(MAX_OBJECTS + 1, i requires 0 <= i < MAX_OBJECTS + 1 => ShortContent(i));
    ShortTotal(contents);
    forall i, j | 0 <= i < j < |contents| ensures ShortDigest(contents[i]) != ShortDigest(contents[j]) {
      if ShortDigest(contents[i]) == ShortDigest(contents[j]) {
        ShortDigestsDiffer(i, j);
      }
    }
    RefusedCopies(media, "/source", contents, 1, 0);
  }
}
