/** Resolving a path under a trusted boundary: the work list against a recursive pathname walk. */
module PathWalk {
  import opened Names

  /** A location is the list of names from the root directory. */
  type Loc = seq<string>

  datatype Kind = Directory | Regular | Link(target: string)

  datatype Node = Node(kind: Kind, owner: nat, sticky: bool, groupWritable: bool, otherWritable: bool)

  type Files = map<Loc, Node>

  const MAX_LINKS: nat := 40

  // Path text.

  predicate IsAbsolute(path: string) {
    path != [] && path[0] == '/'
  }

  function Slash(path: string): (k: nat)
    ensures k <= |path| && (k < |path| ==> path[k] == '/')
    ensures forall i :: 0 <= i < k ==> path[i] != '/'
  {
    if path == [] || path[0] == '/' then 0 else 1 + Slash(path[1..])
  }

  /** The names of a path: empty components and single dots are dropped, double dots are kept. */
  function Components(path: string): seq<string>
    decreases |path|
  {
    if path == [] then [] else
    var k := Slash(path);
    var rest := if k < |path| then Components(path[k + 1..]) else [];
    if path[..k] == "" || path[..k] == "." then rest else [path[..k]] + rest
  }

  function StripPrefix(parts: seq<string>, boundary: Loc): Option<seq<string>> {
    if boundary <= parts then Some(parts[|boundary|..]) else None
  }

  // Trust.

  /** Trusted ownership, and no other writers; a sticky directory that only its group may write
      also protects what is in it. */
  predicate Trusted(node: Node, owners: set<nat>, parent: bool) {
    && node.owner in owners
    && ((!node.groupWritable && !node.otherWritable)
        || (parent && node.kind.Directory? && node.sticky && !node.otherWritable))
    && (parent ==> node.kind.Directory?)
  }

  predicate TrustedAt(fs: Files, loc: Loc, owners: set<nat>, parent: bool) {
    loc in fs && Trusted(fs[loc], owners, parent)
  }

  // The recursive walk.

  datatype Walked = Fail | At(loc: Loc, links: nat)

  /** The walk from `dir`, with `links` links left: a link is resolved completely, from its own
      directory or from the boundary, before the components after it. `more` says whether anything
      follows `parts`. */
  function Walk(fs: Files, boundary: Loc, owners: set<nat>, dir: Loc, parts: seq<string>, links: nat, more: bool): (r: Walked)
    ensures r.At? ==> r.links <= links
    decreases links, |parts|
  {
    if parts == [] then At(dir, links)
    else if parts[0] == ".." then
      if dir == boundary || dir == [] then Fail
      else Walk(fs, boundary, owners, dir[..|dir| - 1], parts[1..], links, more)
    else
      var loc := dir + [parts[0]];
      var follow := more || parts[1..] != [];
      if loc !in fs || fs[loc].owner !in owners then Fail
      else if fs[loc].kind.Link? then
        if links == 0 then Fail else
        var start := LinkStart(boundary, dir, fs[loc].kind.target);
        if start.None? then Fail else
        var target := Walk(fs, boundary, owners, start.value.0, start.value.1, links - 1, follow);
        if target.Fail? then Fail
        else Walk(fs, boundary, owners, target.loc, parts[1..], target.links, more)
      else if !Trusted(fs[loc], owners, follow) then Fail
      else Walk(fs, boundary, owners, loc, parts[1..], links, more)
  }

  /** Where a link target is resolved from; an absolute one has to lie under the boundary. */
  function LinkStart(boundary: Loc, dir: Loc, target: string): Option<(Loc, seq<string>)> {
    if IsAbsolute(target) then
      match StripPrefix(Components(target), boundary)
      case Some(parts) => Some((boundary, parts))
      case None => None
    else Some((dir, Components(target)))
  }

  /** Components put in front of the work list are walked first. */
  lemma {:induction false} WalkAppend(fs: Files, boundary: Loc, owners: set<nat>, dir: Loc, a: seq<string>, b: seq<string>, links: nat, more: bool)
    ensures Walk(fs, boundary, owners, dir, a + b, links, more) ==
            match Walk(fs, boundary, owners, dir, a, links, more || b != [])
            case Fail => Fail
            case At(loc, left) => Walk(fs, boundary, owners, loc, b, left, more)
    decreases links, |a|
  {
    if a == [] {
      assert a + b == b;
    } else {
      assert (a + b)[1..] == a[1..] + b && (a + b)[0] == a[0];
      var loc := dir + [a[0]];
      if a[0] == ".." {
        if dir != boundary && dir != [] {
          WalkAppend(fs, boundary, owners, dir[..|dir| - 1], a[1..], b, links, more);
        }
      } else if loc in fs && fs[loc].kind.Link? {
        var start := LinkStart(boundary, dir, fs[loc].kind.target);
        if links > 0 && start.Some? {
          var target := Walk(fs, boundary, owners, start.value.0, start.value.1, links - 1, more || (a + b)[1..] != []);
          if target.At? {
            WalkAppend(fs, boundary, owners, target.loc, a[1..], b, target.links, more);
          }
        }
      } else {
        WalkAppend(fs, boundary, owners, loc, a[1..], b, links, more);
      }
    }
  }

  /** The whole resolution: the path has to lie under a trusted boundary. */
  function Resolution(fs: Files, owners: set<nat>, boundary: Loc, path: seq<string>): Option<Loc> {
    match StripPrefix(path, boundary)
    case None => None
    case Some(parts) =>
      if !TrustedAt(fs, boundary, owners, true) then None else
      match Walk(fs, boundary, owners, boundary, parts, MAX_LINKS, false)
      case Fail => None
      case At(loc, _) => Some(loc)
  }

  function Outcome(w: Walked): Option<Loc> {
    if w.At? then Some(w.loc) else None
  }

  /** One step of the work list at a component that is not a double dot. */
  lemma LinkStep(fs: Files, boundary: Loc, owners: set<nat>, dir: Loc, part: string, rest: seq<string>, links: nat)
    requires part != ".."
    ensures var pending := [part] + rest;
            var loc := dir + [part];
            var w := Walk(fs, boundary, owners, dir, pending, links, false);
            && (loc !in fs || fs[loc].owner !in owners ==> w == Fail)
            && (loc in fs && fs[loc].owner in owners && !fs[loc].kind.Link? && Trusted(fs[loc], owners, rest != []) ==>
                  w == Walk(fs, boundary, owners, loc, rest, links, false))
            && (loc in fs && fs[loc].owner in owners && !fs[loc].kind.Link? && !Trusted(fs[loc], owners, rest != []) ==> w == Fail)
            && (loc in fs && fs[loc].owner in owners && fs[loc].kind.Link? && links == 0 ==> w == Fail)
  {
    assert ([part] + rest)[1..] == rest;
  }

  lemma FollowStep(fs: Files, boundary: Loc, owners: set<nat>, dir: Loc, part: string, rest: seq<string>, links: nat)
    requires part != ".." && links > 0
    requires dir + [part] in fs && fs[dir + [part]].owner in owners && fs[dir + [part]].kind.Link?
    ensures var w := Walk(fs, boundary, owners, dir, [part] + rest, links, false);
            var start := LinkStart(boundary, dir, fs[dir + [part]].kind.target);
            && (start.None? ==> w == Fail)
            && (start.Some? ==> w == Walk(fs, boundary, owners, start.value.0, start.value.1 + rest, links - 1, false))
  {
    assert ([part] + rest)[1..] == rest;
    var start := LinkStart(boundary, dir, fs[dir + [part]].kind.target);
    if start.Some? {
      WalkAppend(fs, boundary, owners, start.value.0, start.value.1, rest, links - 1, false);
    }
  }

  /** The work-list loop computes the recursive walk. It ends on every file system, link cycles
      included: either a link is spent, or the work list gets shorter. */
  method Resolve(fs: Files, path: string, boundary: string, owners: set<nat>) returns (r: Option<Loc>)
    ensures r == if "/" <= path && "/" <= boundary then Resolution(fs, owners, Components(boundary), Components(path)) else None
  {
    if !IsAbsolute(path) || !IsAbsolute(boundary) {
      return None;
    }
    var root := Components(boundary);
    var stripped := StripPrefix(Components(path), root);
    if stripped.None? {
      return None;
    }
    var pending := stripped.value;
    var resolved := root;
    if !TrustedAt(fs, root, owners, true) {
      return None;
    }
    ghost var whole := Walk(fs, root, owners, root, pending, MAX_LINKS, false);
    var links := 0;
    while pending != []
      invariant links <= MAX_LINKS
      invariant Walk(fs, root, owners, resolved, pending, MAX_LINKS - links, false).At? == whole.At?
      invariant Outcome(Walk(fs, root, owners, resolved, pending, MAX_LINKS - links, false)) == Outcome(whole)
      decreases MAX_LINKS - links, |pending|
    {
      var part := pending[0];
      assert pending == [part] + pending[1..];
      pending := pending[1..];
      if part == ".." {
        if resolved == root || resolved == [] {
          return None;
        }
        resolved := resolved[..|resolved| - 1];
        continue;
      }
      LinkStep(fs, root, owners, resolved, part, pending, MAX_LINKS - links);
      var here := resolved + [part];
      if here !in fs || fs[here].owner !in owners {
        return None;
      }
      if fs[here].kind.Link? {
        if links + 1 > MAX_LINKS {
          return None;
        }
        FollowStep(fs, root, owners, resolved, part, pending, MAX_LINKS - links);
        links := links + 1;
        var start := LinkStart(root, resolved, fs[here].kind.target);
        if start.None? {
          return None;
        }
        resolved := start.value.0;
        pending := start.value.1 + pending;
      } else {
        if !Trusted(fs[here], owners, pending != []) {
          return None;
        }
        resolved := here;
      }
    }
    r := Some(resolved);
  }

  // Safety of the result.

  /** Every directory from the boundary down to `loc` is a real directory that passed the check for
      parents. */
  ghost predicate SafeDirectory(fs: Files, boundary: Loc, owners: set<nat>, loc: Loc) {
    && boundary <= loc
    && forall k {:trigger loc[..k]} | |boundary| <= k <= |loc| :: TrustedAt(fs, loc[..k], owners, true)
  }

  ghost predicate SafeResult(fs: Files, boundary: Loc, owners: set<nat>, loc: Loc) {
    || SafeDirectory(fs, boundary, owners, loc)
    || (boundary < loc && SafeDirectory(fs, boundary, owners, loc[..|loc| - 1])
        && TrustedAt(fs, loc, owners, false) && !fs[loc].kind.Link?)
  }

  lemma SafeParent(fs: Files, boundary: Loc, owners: set<nat>, loc: Loc)
    requires SafeDirectory(fs, boundary, owners, loc) && loc != boundary
    ensures loc != [] && SafeDirectory(fs, boundary, owners, loc[..|loc| - 1])
  {
    var up := loc[..|loc| - 1];
    assert boundary == loc[..|boundary|];
    forall k | |boundary| <= k <= |up| ensures TrustedAt(fs, up[..k], owners, true) {
      assert up[..k] == loc[..k];
    }
  }

  lemma SafeChild(fs: Files, boundary: Loc, owners: set<nat>, dir: Loc, name: string)
    requires SafeDirectory(fs, boundary, owners, dir) && TrustedAt(fs, dir + [name], owners, true)
    ensures SafeDirectory(fs, boundary, owners, dir + [name])
  {
    var loc := dir + [name];
    forall k | |boundary| <= k <= |loc| ensures TrustedAt(fs, loc[..k], owners, true) {
      if k <= |dir| { assert loc[..k] == dir[..k]; } else { assert loc[..k] == loc; }
    }
  }

  lemma SafeBoundary(fs: Files, boundary: Loc, owners: set<nat>)
    requires TrustedAt(fs, boundary, owners, true)
    ensures SafeDirectory(fs, boundary, owners, boundary)
  {
    assert boundary[..|boundary|] == boundary;
  }

  /** Wherever a walk ends, it ends safely. */
  lemma {:induction false} WalkIsSafe(fs: Files, boundary: Loc, owners: set<nat>, dir: Loc, parts: seq<string>, links: nat, more: bool)
    requires TrustedAt(fs, boundary, owners, true) && SafeDirectory(fs, boundary, owners, dir)
    ensures var w := Walk(fs, boundary, owners, dir, parts, links, more);
            w.At? ==> SafeResult(fs, boundary, owners, w.loc) && (more ==> SafeDirectory(fs, boundary, owners, w.loc))
    decreases links, |parts|
  {
    if parts != [] {
      var loc := dir + [parts[0]];
      var follow := more || parts[1..] != [];
      if parts[0] == ".." {
        if dir != boundary {
          SafeParent(fs, boundary, owners, dir);
          WalkIsSafe(fs, boundary, owners, dir[..|dir| - 1], parts[1..], links, more);
        }
      } else if loc in fs && fs[loc].owner in owners {
        if fs[loc].kind.Link? {
          var start := LinkStart(boundary, dir, fs[loc].kind.target);
          if links > 0 && start.Some? {
            SafeBoundary(fs, boundary, owners);
            WalkIsSafe(fs, boundary, owners, start.value.0, start.value.1, links - 1, follow);
            var target := Walk(fs, boundary, owners, start.value.0, start.value.1, links - 1, follow);
            if target.At? && parts[1..] != [] {
              WalkIsSafe(fs, boundary, owners, target.loc, parts[1..], target.links, more);
            }
          }
        } else if Trusted(fs[loc], owners, follow) {
          if follow {
            SafeChild(fs, boundary, owners, dir, parts[0]);
            WalkIsSafe(fs, boundary, owners, loc, parts[1..], links, more);
          } else {
            assert loc[..|loc| - 1] == dir;
          }
        }
      }
    }
  }

  /** A resolved path lies under the boundary, and no component of it is a link or escapes the
      trust check. */
  lemma ResolutionIsSafe(fs: Files, owners: set<nat>, boundary: Loc, path: seq<string>)
    ensures var r := Resolution(fs, owners, boundary, path);
            r.Some? ==> SafeResult(fs, boundary, owners, r.value)
  {
    if boundary <= path && TrustedAt(fs, boundary, owners, true) {
      SafeBoundary(fs, boundary, owners);
      WalkIsSafe(fs, boundary, owners, boundary, path[|boundary|..], MAX_LINKS, false);
    }
  }

  // What trust gives.

  /** The permission bits let an account write: as the owner, who can also change them, or as a member of
      the file's group or one of the others. */
  predicate MayWrite(node: Node, account: nat, member: bool) {
    node.owner == account || if member then node.groupWritable else node.otherWritable
  }

  /** An account may rename or remove an entry of a directory; a sticky one protects the entries of others. */
  predicate MayRemove(dir: Node, entry: Node, account: nat, member: bool) {
    MayWrite(dir, account, member) && (dir.sticky ==> dir.owner == account || entry.owner == account)
  }

  /** Whatever an account outside the trusted owners may do at a location: create names in a sticky
      directory of its group. */
  predicate Shared(node: Node, member: bool) {
    node.kind.Directory? && node.sticky && node.groupWritable && !node.otherWritable && member
  }

  /** A resolved path is out of reach of every account that is not trusted, in the group of any of its
      directories or not: it cannot write a file there, nor any directory except to create new names in a
      sticky one of its group, and from no directory on the way can it remove or rename an entry that is
      not its own, in particular none of the path. */
  lemma ResolvedIsProtected(fs: Files, owners: set<nat>, boundary: Loc, path: seq<string>, account: nat, member: bool)
    requires account !in owners
    ensures var r := Resolution(fs, owners, boundary, path);
            r.Some? ==>
              && boundary <= r.value
              && (forall k {:trigger r.value[..k]} | |boundary| <= k <= |r.value| ::
                    r.value[..k] in fs && (MayWrite(fs[r.value[..k]], account, member) ==> Shared(fs[r.value[..k]], member)))
              && (forall k {:trigger r.value[..k]} | |boundary| <= k < |r.value| ::
                    forall name | r.value[..k] + [name] in fs && MayRemove(fs[r.value[..k]], fs[r.value[..k] + [name]], account, member) ::
                      fs[r.value[..k] + [name]].owner == account)
              && (forall k {:trigger r.value[..k]} | |boundary| <= k < |r.value| ::
                    !MayRemove(fs[r.value[..k]], fs[r.value[..k + 1]], account, member))
  {
    ResolutionIsSafe(fs, owners, boundary, path);
    var r := Resolution(fs, owners, boundary, path);
    hide Resolution;
    if r.Some? {
      forall k | |boundary| <= k <= |r.value|
        ensures r.value[..k] in fs && fs[r.value[..k]].owner in owners
        ensures TrustedAt(fs, r.value[..k], owners, k < |r.value|) || TrustedAt(fs, r.value[..k], owners, true)
      {
        SafePrefix(fs, boundary, owners, r.value, k);
      }
    }
  }

  /** Every prefix of a safe result passed the check for directories, or for the last component. */
  lemma SafePrefix(fs: Files, boundary: Loc, owners: set<nat>, loc: Loc, k: nat)
    requires SafeResult(fs, boundary, owners, loc) && |boundary| <= k <= |loc|
    ensures TrustedAt(fs, loc[..k], owners, k < |loc|) || TrustedAt(fs, loc[..k], owners, true)
  {
    if SafeDirectory(fs, boundary, owners, loc) {
      assert TrustedAt(fs, loc[..k], owners, true);
    } else if k < |loc| {
      var up := loc[..|loc| - 1];
      assert up[..k] == loc[..k];
    } else {
      assert loc[..k] == loc;
    }
  }

  /** Exactly when a component that is no link is refused: its owner is not trusted; others may write
      it; its group may write it, unless it is a sticky directory on the way; or it is on the way and not
      a directory. Otherwise the walk goes on from it. */
  lemma PlainComponent(fs: Files, boundary: Loc, owners: set<nat>, dir: Loc, part: string, rest: seq<string>, links: nat, more: bool)
    requires part != ".." && dir + [part] in fs && !fs[dir + [part]].kind.Link?
    ensures var node := fs[dir + [part]];
            var parent := more || rest != [];
            var refused := node.owner !in owners || node.otherWritable || (node.groupWritable && !(parent && node.sticky))
                           || (parent && !node.kind.Directory?);
            Walk(fs, boundary, owners, dir, [part] + rest, links, more)
            == if refused then Fail else Walk(fs, boundary, owners, dir + [part], rest, links, more)
  {
    assert ([part] + rest)[1..] == rest;
  }

  /** The boundary itself is checked as a directory on the way. */
  lemma BoundaryIsChecked(fs: Files, owners: set<nat>, boundary: Loc)
    ensures Resolution(fs, owners, boundary, boundary) ==
            if boundary in fs && fs[boundary].kind.Directory? && fs[boundary].owner in owners
               && !fs[boundary].otherWritable && (fs[boundary].groupWritable ==> fs[boundary].sticky) then Some(boundary) else None
  {
    assert boundary[|boundary|..] == [];
  }

  // The system's own resolution (section 4.13 of IEEE Std 1003.1-2017).

  /** Pathname resolution without boundary or trust: double dots at the root stay there. */
  function Posix(fs: Files, dir: Loc, parts: seq<string>, links: nat): (r: Walked)
    ensures r.At? ==> r.links <= links
    decreases links, |parts|
  {
    if parts == [] then At(dir, links)
    else if dir !in fs || !fs[dir].kind.Directory? then Fail
    else if parts[0] == ".." then
      Posix(fs, if dir == [] then [] else dir[..|dir| - 1], parts[1..], links)
    else
      var loc := dir + [parts[0]];
      if loc !in fs then Fail
      else if fs[loc].kind.Link? then
        if links == 0 then Fail else
        var text := fs[loc].kind.target;
        var target := Posix(fs, if IsAbsolute(text) then [] else dir, Components(text), links - 1);
        if target.Fail? then Fail else Posix(fs, target.loc, parts[1..], target.links)
      else Posix(fs, loc, parts[1..], links)
  }

  /** The boundary is written without links: every directory above it is real. */
  ghost predicate RealDirectory(fs: Files, loc: Loc) {
    && (forall k {:trigger loc[..k]} | 0 <= k <= |loc| :: loc[..k] in fs && fs[loc[..k]].kind.Directory?)
    && (forall i | 0 <= i < |loc| :: loc[i] != "..")
  }

  /** Walking the boundary itself from the root leads to the boundary and spends no link. */
  lemma {:induction false} PosixReal(fs: Files, boundary: Loc, k: nat, parts: seq<string>, links: nat)
    requires RealDirectory(fs, boundary) && k <= |boundary|
    ensures Posix(fs, boundary[..k], boundary[k..] + parts, links) == Posix(fs, boundary, parts, links)
    decreases |boundary| - k
  {
    var rest := boundary[k..] + parts;
    if k == |boundary| {
      assert boundary[..k] == boundary && rest == parts;
    } else {
      assert rest[0] == boundary[k] && rest[1..] == boundary[k + 1..] + parts;
      assert boundary[..k] + [boundary[k]] == boundary[..k + 1];
      assert boundary[..k] in fs;
      PosixReal(fs, boundary, k + 1, parts, links);
    }
  }

  /** What the protected walk demands beyond the system's resolution, at every step of it. */
  ghost predicate Guarded(fs: Files, boundary: Loc, owners: set<nat>, dir: Loc, parts: seq<string>, links: nat, more: bool)
    decreases links, |parts|
  {
    if parts == [] then true
    else if parts[0] == ".." then
      dir != boundary && dir != [] && Guarded(fs, boundary, owners, dir[..|dir| - 1], parts[1..], links, more)
    else
      var loc := dir + [parts[0]];
      var follow := more || parts[1..] != [];
      loc in fs ==>
        && fs[loc].owner in owners
        && (!fs[loc].kind.Link? ==> Trusted(fs[loc], owners, follow) && Guarded(fs, boundary, owners, loc, parts[1..], links, more))
        && (fs[loc].kind.Link? && links > 0 ==>
              var start := LinkStart(boundary, dir, fs[loc].kind.target);
              && start.Some?
              && Guarded(fs, boundary, owners, start.value.0, start.value.1, links - 1, follow)
              && var target := Posix(fs, start.value.0, start.value.1, links - 1);
                 target.At? ==> Guarded(fs, boundary, owners, target.loc, parts[1..], target.links, more))
  }

  lemma StartAgrees(fs: Files, boundary: Loc, dir: Loc, text: string, links: nat)
    requires RealDirectory(fs, boundary) && LinkStart(boundary, dir, text).Some?
    ensures var start := LinkStart(boundary, dir, text).value;
            Posix(fs, if IsAbsolute(text) then [] else dir, Components(text), links) == Posix(fs, start.0, start.1, links)
  {
    if IsAbsolute(text) {
      var parts := Components(text);
      assert parts == boundary + parts[|boundary|..];
      assert boundary[..0] == [] && boundary[0..] == boundary;
      PosixReal(fs, boundary, 0, parts[|boundary|..], links);
    }
  }

  lemma SafeIsDirectory(fs: Files, boundary: Loc, owners: set<nat>, dir: Loc)
    requires SafeDirectory(fs, boundary, owners, dir)
    ensures dir in fs && fs[dir].kind.Directory?
  {
    assert dir[..|dir|] == dir;
    assert TrustedAt(fs, dir[..|dir|], owners, true);
  }

  /** The protected walk succeeds exactly when the system's resolution does and every step of it is
      guarded, and then both lead to the same place with the same number of links. */
  lemma {:induction false} WalkIsGuardedPosix(fs: Files, boundary: Loc, owners: set<nat>, dir: Loc, parts: seq<string>, links: nat, more: bool)
    requires RealDirectory(fs, boundary) && TrustedAt(fs, boundary, owners, true) && SafeDirectory(fs, boundary, owners, dir)
    ensures Walk(fs, boundary, owners, dir, parts, links, more)
            == if Guarded(fs, boundary, owners, dir, parts, links, more) then Posix(fs, dir, parts, links) else Fail
    decreases links, |parts|
  {
    if parts != [] {
      SafeIsDirectory(fs, boundary, owners, dir);
      var loc := dir + [parts[0]];
      if parts[0] == ".." {
        if dir != boundary {
          SafeParent(fs, boundary, owners, dir);
          WalkIsGuardedPosix(fs, boundary, owners, dir[..|dir| - 1], parts[1..], links, more);
        }
      } else if loc in fs && fs[loc].owner in owners {
        if fs[loc].kind.Link? {
          FollowIsGuarded(fs, boundary, owners, dir, parts, links, more);
        } else if Trusted(fs[loc], owners, more || parts[1..] != []) {
          PlainIsGuarded(fs, boundary, owners, dir, parts, links, more);
        }
      }
    }
  }

  lemma PlainIsGuarded(fs: Files, boundary: Loc, owners: set<nat>, dir: Loc, parts: seq<string>, links: nat, more: bool)
    requires RealDirectory(fs, boundary) && TrustedAt(fs, boundary, owners, true) && SafeDirectory(fs, boundary, owners, dir)
    requires parts != [] && parts[0] != ".." && dir in fs && fs[dir].kind.Directory?
    requires dir + [parts[0]] in fs && !fs[dir + [parts[0]]].kind.Link?
    requires Trusted(fs[dir + [parts[0]]], owners, more || parts[1..] != [])
    ensures Walk(fs, boundary, owners, dir, parts, links, more)
            == if Guarded(fs, boundary, owners, dir, parts, links, more) then Posix(fs, dir, parts, links) else Fail
    decreases links, |parts|, 0
  {
    if parts[1..] != [] {
      SafeChild(fs, boundary, owners, dir, parts[0]);
      WalkIsGuardedPosix(fs, boundary, owners, dir + [parts[0]], parts[1..], links, more);
    }
  }

  lemma FollowIsGuarded(fs: Files, boundary: Loc, owners: set<nat>, dir: Loc, parts: seq<string>, links: nat, more: bool)
    requires RealDirectory(fs, boundary) && TrustedAt(fs, boundary, owners, true) && SafeDirectory(fs, boundary, owners, dir)
    requires parts != [] && parts[0] != ".." && dir in fs && fs[dir].kind.Directory?
    requires dir + [parts[0]] in fs && fs[dir + [parts[0]]].kind.Link? && fs[dir + [parts[0]]].owner in owners
    ensures Walk(fs, boundary, owners, dir, parts, links, more)
            == if Guarded(fs, boundary, owners, dir, parts, links, more) then Posix(fs, dir, parts, links) else Fail
    decreases links, |parts|, 0
  {
    hide RealDirectory, TrustedAt, Trusted, IsAbsolute, Components, StripPrefix;
    var text := fs[dir + [parts[0]]].kind.target;
    var start := LinkStart(boundary, dir, text);
    var follow := more || parts[1..] != [];
    if links > 0 && start.Some? {
      StartAgrees(fs, boundary, dir, text, links - 1);
      SafeBoundary(fs, boundary, owners);
      WalkIsGuardedPosix(fs, boundary, owners, start.value.0, start.value.1, links - 1, follow);
      WalkIsSafe(fs, boundary, owners, start.value.0, start.value.1, links - 1, follow);
      var target := Walk(fs, boundary, owners, start.value.0, start.value.1, links - 1, follow);
      if target.At? && parts[1..] != [] {
        WalkIsGuardedPosix(fs, boundary, owners, target.loc, parts[1..], target.links, more);
      }
    }
  }

  /** Resolution under a real boundary: the same place as the system's own resolution of the whole
      path from the root, or nothing. */
  lemma ResolutionIsPosix(fs: Files, owners: set<nat>, boundary: Loc, path: seq<string>)
    requires RealDirectory(fs, boundary) && boundary <= path && TrustedAt(fs, boundary, owners, true)
    ensures var guarded := Guarded(fs, boundary, owners, boundary, path[|boundary|..], 40, false);
            Resolution(fs, owners, boundary, path) == if guarded then Outcome(Posix(fs, [], path, 40)) else None
  {
    var parts := path[|boundary|..];
    SafeBoundary(fs, boundary, owners);
    WalkIsGuardedPosix(fs, boundary, owners, boundary, parts, MAX_LINKS, false);
    assert path == boundary + parts && boundary[..0] == [] && boundary[0..] == boundary;
    PosixReal(fs, boundary, 0, parts, MAX_LINKS);
  }

  // Cycles.

  /** `n` is a relative link to a single name of the same directory, again in `names`. */
  ghost predicate CycleLink(fs: Files, dir: Loc, names: set<string>, n: string) {
    && n != ".." && dir + [n] in fs && fs[dir + [n]].kind.Link?
    && !IsAbsolute(fs[dir + [n]].kind.target)
    && |Components(fs[dir + [n]].kind.target)| == 1 && Components(fs[dir + [n]].kind.target)[0] in names
  }

  /** Links that lead to each other inside one directory. */
  ghost predicate LinkCycle(fs: Files, dir: Loc, names: set<string>) {
    forall n {:trigger CycleLink(fs, dir, names, n)} | n in names :: CycleLink(fs, dir, names, n)
  }

  /** A walk into a cycle of links fails, whatever the link budget and whatever follows. */
  lemma {:induction false} CycleFails(fs: Files, boundary: Loc, owners: set<nat>, dir: Loc, names: set<string>, n: string, rest: seq<string>, links: nat, more: bool)
    requires LinkCycle(fs, dir, names) && n in names
    ensures Walk(fs, boundary, owners, dir, [n] + rest, links, more) == Fail
    decreases links
  {
    var parts := [n] + rest;
    assert parts[1..] == rest;
    assert CycleLink(fs, dir, names, n);
    if links > 0 {
      var target := Components(fs[dir + [n]].kind.target);
      assert target == [target[0]] + [];
      CycleFails(fs, boundary, owners, dir, names, target[0], [], links - 1, more || rest != []);
    }
  }
}
