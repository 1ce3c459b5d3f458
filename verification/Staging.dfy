/** Copying sources into a staged directory: one object per content, one alias per extension. */
module Staging {
  import opened Names
  import opened Storage
  import opened Fingerprint
  import opened Review

  const MAX_ASSETS: nat := 4096
  const MAX_PATH: nat := 4096
  const MAX_DESTINATION: nat := 4000

  datatype Identity = Identity(device: nat, ino: nat, length: nat, modified: int, changed: int)

  /** An open source as its copy sees it: the identity before, the non-empty reads until the end of
      the file, and the identity after. */
  datatype Source = Source(regular: bool, before: Identity, chunks: seq<Content>, after: Identity)

  function Joined(chunks: seq<Content>): Content {
    if chunks == [] then [] else Joined(chunks[..|chunks| - 1]) + chunks[|chunks| - 1]
  }

  // File names.

  function Lower(c: char): char {
    if 'A' <= c <= 'Z' then c - 'A' + 'a' else c
  }

  function LowerAll(s: string): (r: string)
    ensures |r| == |s| && forall i :: 0 <= i < |s| ==> r[i] == Lower(s[i])
  {
    seq(|s|, i requires 0 <= i < |s| => Lower(s[i]))
  }

  function LastIndex(s: string, c: char): (k: Option<nat>)
    ensures k.Some? ==> k.value < |s| && s[k.value] == c && forall i :: k.value < i < |s| ==> s[i] != c
    ensures k.None? ==> c !in s
  {
    if s == [] then None
    else if s[|s| - 1] == c then Some(|s| - 1)
    else LastIndex(s[..|s| - 1], c)
  }

  function BaseName(path: string): string {
    match LastIndex(path, '/')
    case Some(k) => path[k + 1..]
    case None => path
  }

  /** The part after the last dot of the file name; a name that starts with its only dot has none. */
  function RawExtension(path: string): Option<string> {
    var name := BaseName(path);
    match LastIndex(name, '.')
    case Some(k) => if k == 0 || name == ".." then None else Some(name[k + 1..])
    case None => None
  }

  lemma LowerIsValid(s: string)
    requires ValidExtension(s)
    ensures ValidExtension(LowerAll(s))
  {
  }

  lemma BinIsValid()
    ensures ValidExtension("bin")
  {
  }

  function Extension(path: string): (r: string)
    ensures ValidExtension(r)
  {
    hide *;
    BinIsValid();
    var raw := RawExtension(path);
    var chosen := if raw.Some? && ValidExtension(raw.value) then raw.value else "bin";
    LowerIsValid(chosen);
    LowerAll(chosen)
  }

  lemma LastIs(s: string, c: char, k: nat)
    requires k < |s| && s[k] == c && c !in s[k + 1..]
    ensures LastIndex(s, c) == Some(k)
  {
    hide LastIndex;
    assert forall i | k < i < |s| :: s[i] == s[k + 1..][i - k - 1];
    var last := LastIndex(s, c);
    assert s[k] in s;
  }

  lemma LastName(dir: string, name: string)
    requires '/' !in name
    ensures BaseName(dir + "/" + name) == name
  {
    hide LastIndex;
    var path := dir + "/" + name;
    assert path[|dir|] == '/' && path[|dir| + 1..] == name;
    LastIs(path, '/', |dir|);
  }

  lemma LastDot(stem: string, ext: string)
    requires '.' !in ext
    ensures LastIndex(stem + "." + ext, '.') == Some(|stem|) && (stem + "." + ext)[|stem| + 1..] == ext
  {
    hide LastIndex;
    var name := stem + "." + ext;
    assert name[|stem|] == '.' && name[|stem| + 1..] == ext;
    LastIs(name, '.', |stem|);
  }

  lemma NameExtension(dir: string, stem: string, ext: string)
    requires '/' !in stem && '/' !in ext && '.' !in ext && (stem == "." ==> ext != "")
    ensures RawExtension(dir + "/" + (stem + "." + ext)) == if stem == "" then None else Some(ext)
  {
    hide LastIndex, BaseName;
    LastName(dir, stem + "." + ext);
    LastDot(stem, ext);
    var name := stem + "." + ext;
    assert stem != "" ==> name[0] == stem[0];
    assert ext != "" ==> name[|stem| + 1] == ext[0];
    assert |stem| == 1 ==> stem == [stem[0]];
    assert name != "..";
  }

  lemma NoDot(dir: string, name: string)
    requires '/' !in name && ('.' !in name || name == "..")
    ensures RawExtension(dir + "/" + name).None?
  {
    hide LastIndex, BaseName;
    LastName(dir, name);
  }

  lemma ExtensionIs(path: string)
    ensures var raw := RawExtension(path);
            Extension(path) == LowerAll(if raw.Some? && ValidExtension(raw.value) then raw.value else "bin")
    ensures LowerAll("bin") == "bin"
  {
    hide RawExtension, ValidExtension;
  }

  /** The extension of a copy is that of its source in lower case, when it is 1 to 16 letters and digits
      after the last dot of a name that has something before it. */
  lemma ExtensionOf(dir: string, stem: string, ext: string)
    requires stem != "" && '/' !in stem && '/' !in ext && '.' !in ext && 1 <= |ext| <= 16
    requires forall i | 0 <= i < |ext| :: IsAlphanumeric(ext[i])
    ensures var r := Extension(dir + "/" + (stem + "." + ext));
            && |r| == |ext|
            && forall i | 0 <= i < |ext| :: r[i] as int == ext[i] as int + if 65 <= ext[i] as int <= 90 then 32 else 0
  {
    hide RawExtension, Extension;
    NameExtension(dir, stem, ext);
    ExtensionIs(dir + "/" + (stem + "." + ext));
  }

  /** Otherwise it is "bin": for a name without a dot or with its only dot at the start, for a parent
      directory, and for an extension that is empty, too long, or has other characters. */
  lemma OtherExtensions(dir: string, name: string, stem: string, ext: string)
    requires '/' !in name && '.' !in name && '/' !in stem && '/' !in ext && '.' !in ext
    ensures Extension(dir + "/" + name) == "bin"
    ensures Extension(dir + "/" + ("" + "." + name)) == "bin" && Extension(dir + "/" + "..") == "bin"
    ensures ext == "" || |ext| > 16 || (exists i :: 0 <= i < |ext| && !IsAlphanumeric(ext[i])) ==>
              Extension(dir + "/" + (stem + "." + ext)) == "bin"
  {
    hide RawExtension, Extension;
    NoDot(dir, name);
    NoDot(dir, "..");
    NameExtension(dir, "", name);
    ExtensionIs(dir + "/" + name);
    ExtensionIs(dir + "/" + "..");
    ExtensionIs(dir + "/" + ("" + "." + name));
    if stem == "." && ext == "" {
      assert stem + "." + ext == "..";
    } else {
      NameExtension(dir, stem, ext);
      ExtensionIs(dir + "/" + (stem + "." + ext));
    }
  }

  /** Where an import may be staged for. */
  predicate ValidDestination(destination: string) {
    destination != [] && destination[0] == '/' && |destination| <= MAX_DESTINATION && '\0' !in destination
  }

  predicate ValidPath(path: string) {
    path != [] && path[0] == '/' && |path| <= MAX_PATH && '\0' !in path
  }

  function FileName(digest: string, path: string): string {
    digest + "." + Extension(path)
  }

  function Target(destination: string, digest: string, path: string): string {
    destination + "/" + FileName(digest, path)
  }

  /** Cancellation and the deadline: how many more checks pass. */
  class CopyControl {
    var checks: nat
    var copied: nat

    constructor (checks: nat)
      ensures this.checks == checks && copied == 0
    {
      this.checks, copied := checks, 0;
    }

    method Check() returns (ok: bool)
      modifies this
      ensures ok == (old(checks) > 0) && copied == old(copied)
      ensures checks == if ok then old(checks) - 1 else 0
    {
      ok := checks > 0;
      if ok {
        checks := checks - 1;
      }
    }
  }

  // The staged state as a value.

  datatype Stage = Stage(
    paths: map<string, string>,
    sources: map<string, Identity>,
    objects: map<string, string>,
    stored: nat,
    dir: Dir,
    inodes: map<nat, INode>,
    contents: map<string, Content>,
    spoiled: nat)

  ghost predicate EntryOk(s: Stage, name: string)
    requires name in s.dir.entries
  {
    ValidName(name) && Stem(name) in s.objects && Stem(name) in s.dir.entries && s.dir.entries[Stem(name)] == s.dir.entries[name]
  }

  ghost predicate ObjectOk(s: Stage, sha: Digest, hash: string) {
    && ValidHash(hash) && hash in s.dir.entries && s.dir.entries[hash] in s.inodes
    && sha(s.inodes[s.dir.entries[hash]].data) == hash && |s.inodes[s.dir.entries[hash]].data| <= MAX_FILE
  }

  ghost predicate PathOk(s: Stage, sha: Digest, destination: string, path: string)
    requires path in s.paths && path in s.contents && path in s.sources
  {
    var name := FileName(sha(s.contents[path]), path);
    s.paths[path] == Target(destination, sha(s.contents[path]), path) && name in s.dir.entries && s.sources[path].length == |s.contents[path]|
  }

  ghost function ObjectNodes(s: Stage): set<nat> {
    set h | h in s.objects && h in s.dir.entries :: s.dir.entries[h]
  }

  ghost predicate FilesOk(s: Stage, sha: Digest) {
    && (forall n {:trigger EntryOk(s, n)} | n in s.dir.entries :: EntryOk(s, n))
    && (forall h {:trigger ObjectOk(s, sha, h)} | h in s.objects :: ObjectOk(s, sha, h))
    && ObjectNodes(s) <= s.inodes.Keys && s.stored == SumLen(s.inodes, ObjectNodes(s)) && s.stored <= MAX_STORE
  }

  ghost predicate PathsOk(s: Stage, sha: Digest, destination: string) {
    && s.paths.Keys == s.sources.Keys == s.contents.Keys
    && (forall p | p in s.paths :: PathOk(s, sha, destination, p))
  }

  /** Each successful copy adds at most one object and one alias; `spoiled` counts the copies that
      were refused after that. */
  ghost predicate CountsOk(s: Stage) {
    && |s.paths.Keys| <= MAX_ASSETS
    && |s.objects.Keys| <= |s.paths.Keys| + s.spoiled
    && |s.dir.entries.Keys| <= 2 * (|s.paths.Keys| + s.spoiled)
  }

  ghost predicate Sound(s: Stage, sha: Digest, destination: string) {
    FilesOk(s, sha) && PathsOk(s, sha, destination) && CountsOk(s)
  }

  /** Keeping the copy, unless its content is already an object. */
  function Kept(s: Stage, digest: string, ino: nat, node: INode): Stage {
    if digest in s.objects then s else
    s.(objects := s.objects[digest := digest], stored := s.stored + |node.data|,
       dir := s.dir.(entries := s.dir.entries[digest := ino]), inodes := s.inodes[ino := node])
  }

  /** The hard link under the source's extension. */
  function Linked(s: Stage, digest: string, name: string, now: int): Stage
    requires digest in s.dir.entries && s.dir.entries[digest] in s.inodes
  {
    if name in s.dir.entries then s else
    var ino := s.dir.entries[digest];
    s.(dir := s.dir.(entries := s.dir.entries[name := ino]),
       inodes := s.inodes[ino := s.inodes[ino].(nlink := s.inodes[ino].nlink + 1, ctime := now)])
  }

  function Listed(s: Stage, path: string, identity: Identity, target: string, content: Content): Stage {
    s.(paths := s.paths[path := target], sources := s.sources[path := identity], contents := s.contents[path := content])
  }

  /** Nothing that was staged before is lost or changed. */
  ghost predicate Extends(s: Stage, s': Stage) {
    && (forall n | n in s.dir.entries :: n in s'.dir.entries && s'.dir.entries[n] == s.dir.entries[n])
    && (forall i | i in s.inodes :: i in s'.inodes && s'.inodes[i].data == s.inodes[i].data)
    && s'.dir.ino == s.dir.ino
  }

  lemma EntryIsObject(s: Stage, sha: Digest, name: string)
    requires FilesOk(s, sha) && name in s.dir.entries && !IsAlias(name)
    ensures name in s.objects
  {
    assert EntryOk(s, name);
    StemOfObject(name);
  }

  lemma KeptFiles(s: Stage, sha: Digest, ino: nat, node: INode)
    requires IsDigest(sha) && FilesOk(s, sha) && ino !in s.inodes
    requires |node.data| <= MAX_FILE && s.stored + |node.data| <= MAX_STORE
    ensures var s' := Kept(s, sha(node.data), ino, node);
            FilesOk(s', sha) && Extends(s, s') && ObjectOk(s', sha, sha(node.data)) && sha(node.data) in s'.objects
  {
    if sha(node.data) in s.objects {
      assert ObjectOk(s, sha, sha(node.data));
      ExtendsItself(s);
    } else {
      hide IsDigest, FilesOk, ObjectOk, EntryOk, Extends;
      KeptEntries(s, sha, ino, node);
      KeptNew(s, sha, ino, node);
      KeptStored(s, sha, ino, node);
      FilesOkWhen(Kept(s, sha(node.data), ino, node), sha);
    }
  }

  lemma NodesAllocated(s: Stage, sha: Digest)
    requires FilesOk(s, sha)
    ensures ObjectNodes(s) <= s.inodes.Keys && s.stored == SumLen(s.inodes, ObjectNodes(s))
  {
  }

  lemma KeptNodes(s: Stage, sha: Digest, ino: nat, node: INode)
    requires sha(node.data) !in s.objects && sha(node.data) !in s.dir.entries
    ensures ObjectNodes(Kept(s, sha(node.data), ino, node)) == ObjectNodes(s) + {ino}
  {
    var digest := sha(node.data);
    var s' := Kept(s, digest, ino, node);
    assert digest in s'.objects && s'.dir.entries[digest] == ino;
    forall i | i in ObjectNodes(s) ensures i in ObjectNodes(s') {
      var h :| h in s.objects && h in s.dir.entries && s.dir.entries[h] == i;
      assert h in s'.objects && s'.dir.entries[h] == i;
    }
  }

  lemma KeptStored(s: Stage, sha: Digest, ino: nat, node: INode)
    requires FilesOk(s, sha) && ino !in s.inodes && sha(node.data) !in s.objects && sha(node.data) !in s.dir.entries
    ensures var s' := Kept(s, sha(node.data), ino, node);
            ObjectNodes(s') <= s'.inodes.Keys && s'.stored == SumLen(s'.inodes, ObjectNodes(s'))
  {
    hide FilesOk, ObjectNodes;
    var s' := Kept(s, sha(node.data), ino, node);
    NodesAllocated(s, sha);
    KeptNodes(s, sha, ino, node);
    SumLenFrame(s.inodes, s'.inodes, ObjectNodes(s));
    SumLenAdd(s'.inodes, ObjectNodes(s), ino);
  }

  lemma KeptObject(s: Stage, sha: Digest, ino: nat, node: INode, h: string)
    requires IsDigest(sha) && ino !in s.inodes && sha(node.data) !in s.objects && |node.data| <= MAX_FILE
    requires h == sha(node.data) || ObjectOk(s, sha, h)
    ensures ObjectOk(Kept(s, sha(node.data), ino, node), sha, h)
  {
  }

  lemma KeptNew(s: Stage, sha: Digest, ino: nat, node: INode)
    requires IsDigest(sha) && FilesOk(s, sha) && ino !in s.inodes && sha(node.data) !in s.objects
    ensures var s' := Kept(s, sha(node.data), ino, node);
            && sha(node.data) !in s.dir.entries
            && s'.dir.entries.Keys == s.dir.entries.Keys + {sha(node.data)}
            && s'.objects.Keys == s.objects.Keys + {sha(node.data)} && EntryOk(s', sha(node.data)) && Extends(s, s')
  {
    HashIsObject(sha(node.data));
    if sha(node.data) in s.dir.entries {
      EntryIsObject(s, sha, sha(node.data));
    }
    hide FilesOk;
  }

  lemma KeptEntries(s: Stage, sha: Digest, ino: nat, node: INode)
    requires IsDigest(sha) && FilesOk(s, sha) && ino !in s.inodes && sha(node.data) !in s.objects && |node.data| <= MAX_FILE
    ensures var s' := Kept(s, sha(node.data), ino, node);
            && (forall n {:trigger EntryOk(s', n)} | n in s'.dir.entries :: EntryOk(s', n))
            && (forall h {:trigger ObjectOk(s', sha, h)} | h in s'.objects :: ObjectOk(s', sha, h))
            && Extends(s, s')
  {
    var digest := sha(node.data);
    var s' := Kept(s, digest, ino, node);
    KeptNew(s, sha, ino, node);
    hide EntryOk, ObjectOk, Kept;
    forall n | n in s'.dir.entries ensures EntryOk(s', n) {
      if n != digest { KeptEntry(s, sha, ino, node, n); }
    }
    forall h | h in s'.objects ensures ObjectOk(s', sha, h) {
      if h != digest { assert ObjectOk(s, sha, h); }
      KeptObject(s, sha, ino, node, h);
    }
  }

  lemma KeptEntry(s: Stage, sha: Digest, ino: nat, node: INode, name: string)
    requires IsDigest(sha) && FilesOk(s, sha) && sha(node.data) !in s.objects
    requires name in s.dir.entries && name != sha(node.data)
    ensures EntryOk(Kept(s, sha(node.data), ino, node), name)
  {
    assert EntryOk(s, name);
    StemOfObject(name);
  }

  lemma LinkedEntry(s: Stage, digest: string, name: string, now: int, n: string)
    requires digest in s.dir.entries && s.dir.entries[digest] in s.inodes && name !in s.dir.entries
    requires n in s.dir.entries && EntryOk(s, n)
    ensures EntryOk(Linked(s, digest, name, now), n)
  {
  }

  lemma LinkedObject(s: Stage, sha: Digest, digest: string, name: string, now: int, h: string)
    requires digest in s.dir.entries && s.dir.entries[digest] in s.inodes && name !in s.dir.entries
    requires ObjectOk(s, sha, h)
    ensures ObjectOk(Linked(s, digest, name, now), sha, h)
  {
  }

  lemma LinkedName(s: Stage, digest: string, path: string, now: int)
    requires ValidHash(digest) && digest in s.objects && digest in s.dir.entries && s.dir.entries[digest] in s.inodes
    ensures var s' := Linked(s, digest, FileName(digest, path), now);
            FileName(digest, path) !in s.dir.entries ==> EntryOk(s', FileName(digest, path))
  {
    AliasParts(digest, Extension(path));
  }

  lemma LinkedStored(s: Stage, sha: Digest, digest: string, name: string, now: int)
    requires FilesOk(s, sha) && digest in s.dir.entries && s.dir.entries[digest] in s.inodes && name !in s.dir.entries
    ensures var s' := Linked(s, digest, name, now);
            ObjectNodes(s') == ObjectNodes(s) <= s'.inodes.Keys && SumLen(s'.inodes, ObjectNodes(s)) == s.stored
  {
    var s' := Linked(s, digest, name, now);
    forall h | h in s.objects ensures h in s.dir.entries {
      assert ObjectOk(s, sha, h);
    }
    assert ObjectNodes(s') == ObjectNodes(s);
    SumLenFrame(s.inodes, s'.inodes, ObjectNodes(s));
  }

  lemma LinkedNew(s: Stage, digest: string, name: string, now: int)
    requires digest in s.dir.entries && s.dir.entries[digest] in s.inodes && name !in s.dir.entries
    ensures var s' := Linked(s, digest, name, now);
            && s'.dir.entries.Keys == s.dir.entries.Keys + {name} && s'.objects == s.objects && s'.stored == s.stored
            && s'.dir.entries[name] == s.dir.entries[digest] && Extends(s, s')
  {
  }

  lemma LinkedAll(s: Stage, sha: Digest, digest: string, path: string, now: int)
    requires FilesOk(s, sha) && digest in s.objects && ValidHash(digest)
    requires digest in s.dir.entries && s.dir.entries[digest] in s.inodes && FileName(digest, path) !in s.dir.entries
    ensures var s' := Linked(s, digest, FileName(digest, path), now);
            && (forall n {:trigger EntryOk(s', n)} | n in s'.dir.entries :: EntryOk(s', n))
            && (forall h {:trigger ObjectOk(s', sha, h)} | h in s'.objects :: ObjectOk(s', sha, h))
  {
    var name := FileName(digest, path);
    var s' := Linked(s, digest, name, now);
    LinkedNew(s, digest, name, now);
    LinkedName(s, digest, path, now);
    hide EntryOk, ObjectOk, FileName, Linked, Extends, ValidHash;
    forall n | n in s'.dir.entries ensures EntryOk(s', n) {
      if n != name { LinkedEntry(s, digest, name, now, n); }
    }
    forall h | h in s'.objects ensures ObjectOk(s', sha, h) {
      assert ObjectOk(s, sha, h);
      LinkedObject(s, sha, digest, name, now, h);
    }
  }

  lemma FilesOkWhen(s: Stage, sha: Digest)
    requires forall n {:trigger EntryOk(s, n)} | n in s.dir.entries :: EntryOk(s, n)
    requires forall h {:trigger ObjectOk(s, sha, h)} | h in s.objects :: ObjectOk(s, sha, h)
    requires ObjectNodes(s) <= s.inodes.Keys && s.stored == SumLen(s.inodes, ObjectNodes(s)) && s.stored <= MAX_STORE
    ensures FilesOk(s, sha)
  {
    hide EntryOk, ObjectOk, ObjectNodes;
  }

  lemma ObjectFacts(s: Stage, sha: Digest, digest: string)
    requires ObjectOk(s, sha, digest)
    ensures ValidHash(digest) && digest in s.dir.entries && s.dir.entries[digest] in s.inodes
  {
    hide ValidHash;
  }

  lemma StoredWithin(s: Stage, sha: Digest)
    requires FilesOk(s, sha)
    ensures s.stored <= MAX_STORE
  {
    hide EntryOk, ObjectOk;
  }

  lemma LinkedFresh(s: Stage, sha: Digest, digest: string, path: string, now: int)
    requires FilesOk(s, sha) && digest in s.objects && ObjectOk(s, sha, digest) && FileName(digest, path) !in s.dir.entries
    ensures digest in s.dir.entries && s.dir.entries[digest] in s.inodes
    ensures var s' := Linked(s, digest, FileName(digest, path), now);
            && FilesOk(s', sha) && Extends(s, s') && FileName(digest, path) in s'.dir.entries
            && s'.dir.entries[FileName(digest, path)] == s.dir.entries[digest]
  {
    hide *;
    var name := FileName(digest, path);
    ObjectFacts(s, sha, digest);
    StoredWithin(s, sha);
    LinkedNew(s, digest, name, now);
    LinkedAll(s, sha, digest, path, now);
    LinkedStored(s, sha, digest, name, now);
    FilesOkWhen(Linked(s, digest, name, now), sha);
  }

  lemma LinkedFiles(s: Stage, sha: Digest, digest: string, path: string, now: int)
    requires FilesOk(s, sha) && digest in s.objects && ObjectOk(s, sha, digest)
    ensures digest in s.dir.entries && s.dir.entries[digest] in s.inodes
    ensures var s' := Linked(s, digest, FileName(digest, path), now);
            && FilesOk(s', sha) && Extends(s, s') && FileName(digest, path) in s'.dir.entries
            && s'.dir.entries[FileName(digest, path)] == s.dir.entries[digest]
  {
    var name := FileName(digest, path);
    if name in s.dir.entries {
      AliasParts(digest, Extension(path));
      assert EntryOk(s, name);
    } else {
      hide FilesOk;
      LinkedFresh(s, sha, digest, path, now);
    }
  }

  lemma ExtendsPaths(s: Stage, s': Stage, sha: Digest, destination: string)
    requires PathsOk(s, sha, destination) && Extends(s, s')
    requires s'.paths == s.paths && s'.sources == s.sources && s'.contents == s.contents
    ensures PathsOk(s', sha, destination)
  {
    forall p | p in s'.paths ensures PathOk(s', sha, destination, p) {
      assert PathOk(s, sha, destination, p);
    }
  }

  lemma RecordedPaths(s: Stage, sha: Digest, destination: string, path: string, identity: Identity, content: Content)
    requires PathsOk(s, sha, destination) && FileName(sha(content), path) in s.dir.entries && identity.length == |content|
    ensures PathsOk(Listed(s, path, identity, Target(destination, sha(content), path), content), sha, destination)
  {
    var s' := Listed(s, path, identity, Target(destination, sha(content), path), content);
    forall p | p in s'.paths ensures PathOk(s', sha, destination, p) {
      if p != path { assert PathOk(s, sha, destination, p); }
    }
  }

  /** The files a copy leaves behind, recorded or not. */
  function Placed(s: Stage, digest: string, path: string, ino: nat, node: INode, now: int): Stage
    requires digest in Kept(s, digest, ino, node).dir.entries
    requires Kept(s, digest, ino, node).dir.entries[digest] in Kept(s, digest, ino, node).inodes
  {
    Linked(Kept(s, digest, ino, node), digest, FileName(digest, path), now)
  }

  lemma KeptCounts(s: Stage, digest: string, ino: nat, node: INode)
    ensures var s' := Kept(s, digest, ino, node);
            && |s'.objects.Keys| <= |s.objects.Keys| + 1 && |s'.dir.entries.Keys| <= |s.dir.entries.Keys| + 1
            && s'.paths == s.paths && s'.sources == s.sources && s'.contents == s.contents && s'.spoiled == s.spoiled
  {
    MapInsert(s.objects, digest, digest);
    MapInsert(s.dir.entries, digest, ino);
  }

  lemma LinkedCounts(s: Stage, digest: string, name: string, now: int)
    requires digest in s.dir.entries && s.dir.entries[digest] in s.inodes
    ensures var s' := Linked(s, digest, name, now);
            && s'.objects == s.objects && |s'.dir.entries.Keys| <= |s.dir.entries.Keys| + 1
            && s'.paths == s.paths && s'.sources == s.sources && s'.contents == s.contents && s'.spoiled == s.spoiled
  {
    MapInsert(s.dir.entries, name, s.dir.entries[digest]);
  }

  lemma PlacedCounts(s: Stage, digest: string, path: string, ino: nat, node: INode, now: int)
    requires digest in Kept(s, digest, ino, node).dir.entries
    requires Kept(s, digest, ino, node).dir.entries[digest] in Kept(s, digest, ino, node).inodes
    ensures var s' := Placed(s, digest, path, ino, node, now);
            && |s'.objects.Keys| <= |s.objects.Keys| + 1 && |s'.dir.entries.Keys| <= |s.dir.entries.Keys| + 2
            && s'.paths == s.paths && s'.sources == s.sources && s'.contents == s.contents && s'.spoiled == s.spoiled
  {
    hide Kept, Linked, FileName;
    KeptCounts(s, digest, ino, node);
    LinkedCounts(Kept(s, digest, ino, node), digest, FileName(digest, path), now);
  }

  /** A copy that is recorded, and one that is refused at the very last check. */
  lemma PlacedSound(s: Stage, sha: Digest, destination: string, path: string, identity: Identity, ino: nat, node: INode, now: int)
    requires IsDigest(sha) && Sound(s, sha, destination) && ino !in s.inodes && path !in s.paths
    requires |node.data| <= MAX_FILE && s.stored + |node.data| <= MAX_STORE && identity.length == |node.data|
    ensures var digest := sha(node.data);
            && digest in Kept(s, digest, ino, node).dir.entries
            && Kept(s, digest, ino, node).dir.entries[digest] in Kept(s, digest, ino, node).inodes
    ensures var digest := sha(node.data);
            var s' := Placed(s, digest, path, ino, node, now);
            && Extends(s, s') && FileName(digest, path) in s'.dir.entries
            && Sound(s'.(spoiled := s.spoiled + 1), sha, destination)
            && (|s.paths.Keys| < MAX_ASSETS ==>
                  Sound(Listed(s', path, identity, Target(destination, digest, path), node.data), sha, destination))
  {
    var digest := sha(node.data);
    KeptFiles(s, sha, ino, node);
    var kept := Kept(s, digest, ino, node);
    LinkedFiles(kept, sha, digest, path, now);
    var s' := Placed(s, digest, path, ino, node, now);
    PlacedCounts(s, digest, path, ino, node, now);
    ExtendsTransitive(s, kept, s');
    ExtendsPaths(s, s', sha, destination);
    hide FilesOk, Kept, Linked, Extends, PathOk, ObjectOk;
    SpoiledSound(s, s', sha, destination);
    if |s.paths.Keys| < MAX_ASSETS {
      RecordedPaths(s', sha, destination, path, identity, node.data);
      RecordedSound(s, s', sha, destination, path, identity, node.data);
    }
  }

  lemma ExtendsTransitive(s: Stage, s': Stage, s'': Stage)
    requires Extends(s, s') && Extends(s', s'')
    ensures Extends(s, s'')
  {
  }

  lemma FilesFrame(s: Stage, s': Stage, sha: Digest)
    requires FilesOk(s, sha) && s'.objects == s.objects && s'.dir == s.dir && s'.inodes == s.inodes && s'.stored == s.stored
    ensures FilesOk(s', sha)
  {
    forall n | n in s'.dir.entries ensures EntryOk(s', n) {
      assert EntryOk(s, n);
    }
    forall h | h in s'.objects ensures ObjectOk(s', sha, h) {
      assert ObjectOk(s, sha, h);
    }
    assert ObjectNodes(s') == ObjectNodes(s);
  }

  lemma SpoiledSound(s: Stage, s': Stage, sha: Digest, destination: string)
    requires FilesOk(s', sha) && PathsOk(s', sha, destination) && CountsOk(s)
    requires s'.paths == s.paths && s'.spoiled == s.spoiled
    requires |s'.objects.Keys| <= |s.objects.Keys| + 1 && |s'.dir.entries.Keys| <= |s.dir.entries.Keys| + 2
    ensures Sound(s'.(spoiled := s.spoiled + 1), sha, destination)
  {
    var s'' := s'.(spoiled := s.spoiled + 1);
    FilesFrame(s', s'', sha);
    forall p | p in s''.paths ensures PathOk(s'', sha, destination, p) {
      assert PathOk(s', sha, destination, p);
    }
    hide FilesOk;
  }

  lemma RecordedSound(s: Stage, s': Stage, sha: Digest, destination: string, path: string, identity: Identity, content: Content)
    requires FilesOk(s', sha) && CountsOk(s) && path !in s.paths && |s.paths.Keys| < MAX_ASSETS
    requires s'.paths == s.paths && s'.spoiled == s.spoiled
    requires |s'.objects.Keys| <= |s.objects.Keys| + 1 && |s'.dir.entries.Keys| <= |s.dir.entries.Keys| + 2
    requires PathsOk(Listed(s', path, identity, Target(destination, sha(content), path), content), sha, destination)
    ensures Sound(Listed(s', path, identity, Target(destination, sha(content), path), content), sha, destination)
  {
    hide FilesOk, PathsOk, FileName, Target;
    var s'' := Listed(s', path, identity, Target(destination, sha(content), path), content);
    FilesFrame(s', s'', sha);
    ListedCounts(s, s', path, identity, Target(destination, sha(content), path), content);
  }

  lemma ListedCounts(s: Stage, s': Stage, path: string, identity: Identity, target: string, content: Content)
    requires CountsOk(s) && path !in s.paths && |s.paths.Keys| < MAX_ASSETS
    requires s'.paths == s.paths && s'.spoiled == s.spoiled
    requires |s'.objects.Keys| <= |s.objects.Keys| + 1 && |s'.dir.entries.Keys| <= |s.dir.entries.Keys| + 2
    ensures CountsOk(Listed(s', path, identity, target, content))
  {
    MapInsert(s.paths, path, target);
  }

  // What a staged directory is good for.

  lemma FilesAreValid(s: Stage, sha: Digest)
    requires FilesOk(s, sha)
    ensures forall n | n in s.dir.entries :: s.dir.entries[n] in s.inodes && ValidFile(s.inodes, n, s.dir.entries[n])
    ensures forall n {:trigger Owned(s.dir, n)} | n in s.dir.entries :: Owned(s.dir, n)
  {
    forall n | n in s.dir.entries ensures Owned(s.dir, n) && s.dir.entries[n] in s.inodes && ValidFile(s.inodes, n, s.dir.entries[n]) {
      assert EntryOk(s, n) && ObjectOk(s, sha, Stem(n));
    }
  }

  lemma NodesAreObjects(s: Stage, sha: Digest)
    requires FilesOk(s, sha)
    ensures ObjectInodes(s.dir) == ObjectNodes(s) && |ObjectNodes(s)| == |s.objects.Keys|
    ensures DistinctObjects(s.dir)
  {
    ObjectNames(s, sha);
    ObjectCount(s, sha);
    forall h | h in s.objects ensures h in s.dir.entries {
      assert ObjectOk(s, sha, h);
    }
  }

  /** A staged directory is accepted by the fingerprint exactly while its counts are within the
      publication limits, and its objects take exactly the stored bytes. */
  lemma SoundIsAcceptable(s: Stage, sha: Digest, destination: string)
    requires Sound(s, sha, destination)
    ensures Allocated(s.inodes, s.dir) && ObjectInodes(s.dir) <= s.inodes.Keys
    ensures s.stored == SumLen(s.inodes, ObjectInodes(s.dir)) <= MAX_STORE
    ensures Acceptable(s.inodes, s.dir) <==> |s.objects.Keys| <= MAX_OBJECTS && |s.dir.entries.Keys| <= MAX_NAMES
    ensures s.spoiled == 0 ==> Acceptable(s.inodes, s.dir)
  {
    FilesAreValid(s, sha);
    NodesAreObjects(s, sha);
    assert CountsOk(s) && ObjectNodes(s) <= s.inodes.Keys && s.stored == SumLen(s.inodes, ObjectNodes(s)) <= MAX_STORE;
    hide FilesOk, PathsOk, ValidFile, Owned, ObjectNodes, ObjectInodes, DistinctObjects;
  }

  /** The names without extension are the objects. */
  lemma ObjectNames(s: Stage, sha: Digest)
    requires FilesOk(s, sha)
    ensures forall n | n in s.dir.entries :: !IsAlias(n) <==> n in s.objects
    ensures DistinctObjects(s.dir)
  {
    forall n | n in s.dir.entries ensures !IsAlias(n) <==> n in s.objects {
      assert EntryOk(s, n);
      StemOfObject(n);
      if n in s.objects {
        assert ObjectOk(s, sha, n);
        HashIsObject(n);
      }
    }
    forall a, b | a in s.dir.entries && b in s.dir.entries && !IsAlias(a) && !IsAlias(b) && s.dir.entries[a] == s.dir.entries[b]
      ensures a == b
    {
      assert ObjectOk(s, sha, a) && ObjectOk(s, sha, b);
    }
  }

  lemma ObjectCount(s: Stage, sha: Digest)
    requires FilesOk(s, sha)
    ensures |ObjectNodes(s)| == |s.objects.Keys|
  {
    ImageCount(s, sha, s.objects.Keys);
    assert (set h | h in s.objects.Keys && h in s.dir.entries :: s.dir.entries[h]) == ObjectNodes(s);
  }

  lemma SameNode(s: Stage, sha: Digest, a: string, b: string)
    requires FilesOk(s, sha) && a in s.objects && b in s.objects && a in s.dir.entries && b in s.dir.entries
    requires s.dir.entries[a] == s.dir.entries[b]
    ensures a == b
  {
    assert ObjectOk(s, sha, a) && ObjectOk(s, sha, b);
  }

  lemma {:induction false} ImageCount(s: Stage, sha: Digest, hashes: set<string>)
    requires FilesOk(s, sha) && hashes <= s.objects.Keys
    ensures |set h | h in hashes && h in s.dir.entries :: s.dir.entries[h]| == |hashes|
    decreases hashes
  {
    if hashes != {} {
      var x :| x in hashes;
      assert ObjectOk(s, sha, x);
      ImageCount(s, sha, hashes - {x});
      var rest := set h | h in hashes - {x} && h in s.dir.entries :: s.dir.entries[h];
      if s.dir.entries[x] in rest {
        var h :| h in hashes - {x} && h in s.dir.entries && s.dir.entries[h] == s.dir.entries[x];
        SameNode(s, sha, h, x);
      }
      assert (set h | h in hashes && h in s.dir.entries :: s.dir.entries[h]) == rest + {s.dir.entries[x]};
    }
  }

  /** Different contents among these have different digests. Digests are finite, so this can only be
      asked of the contents in play. */
  ghost predicate CollisionFree(sha: Digest, contents: set<Content>) {
    forall a, b | a in contents && b in contents && sha(a) == sha(b) :: a == b
  }

  /** The contents of the staged files. */
  ghost function DataOf(s: Stage): set<Content> {
    set i | i in s.inodes :: s.inodes[i].data
  }

  /** The contents in play: what was read from the listed sources, and what is staged. */
  ghost function Touched(s: Stage): set<Content> {
    s.contents.Values + DataOf(s)
  }

  /** Staging preserves content: the destination of every source names a staged file that holds
      exactly the bytes that were read, and sources with equal content share that file. */
  lemma StagedContent(s: Stage, sha: Digest, destination: string, p: string, q: string)
    requires Sound(s, sha, destination) && CollisionFree(sha, Touched(s)) && IsDigest(sha) && p in s.paths && q in s.paths
    ensures var name := FileName(sha(s.contents[p]), p);
            && s.paths[p] == Target(destination, sha(s.contents[p]), p) && name in s.dir.entries && s.dir.entries[name] in s.inodes
            && s.inodes[s.dir.entries[name]].data == s.contents[p]
    ensures var f, g := FileName(sha(s.contents[p]), p), FileName(sha(s.contents[q]), q);
            f in s.dir.entries && g in s.dir.entries && (s.dir.entries[f] == s.dir.entries[g] <==> s.contents[p] == s.contents[q])
  {
    ContentAt(s, sha, destination, p);
    ContentAt(s, sha, destination, q);
  }

  /** Without any assumption about collisions: the destination of a source names the object with the
      digest of its bytes. */
  lemma DigestAt(s: Stage, sha: Digest, destination: string, p: string)
    requires Sound(s, sha, destination) && IsDigest(sha) && p in s.paths && p in s.contents
    ensures var digest := sha(s.contents[p]);
            var name := FileName(digest, p);
            && s.paths[p] == Target(destination, digest, p) && name in s.dir.entries
            && digest in s.dir.entries && s.dir.entries[name] == s.dir.entries[digest]
            && s.dir.entries[name] in s.inodes && sha(s.inodes[s.dir.entries[name]].data) == digest
  {
    assert PathOk(s, sha, destination, p);
    var digest := sha(s.contents[p]);
    var name := FileName(digest, p);
    AliasParts(digest, Extension(p));
    assert EntryOk(s, name) && ObjectOk(s, sha, digest);
  }

  lemma ContentAt(s: Stage, sha: Digest, destination: string, p: string)
    requires Sound(s, sha, destination) && CollisionFree(sha, Touched(s)) && IsDigest(sha) && p in s.paths
    ensures var name := FileName(sha(s.contents[p]), p);
            && s.paths[p] == Target(destination, sha(s.contents[p]), p) && name in s.dir.entries
            && sha(s.contents[p]) in s.dir.entries && s.dir.entries[name] == s.dir.entries[sha(s.contents[p])]
            && s.dir.entries[name] in s.inodes && s.inodes[s.dir.entries[name]].data == s.contents[p]
  {
    SoundKeys(s, sha, destination);
    DigestAt(s, sha, destination, p);
    hide Sound, FileName, Target;
    assert s.contents[p] in s.contents.Values;
    assert s.inodes[s.dir.entries[FileName(sha(s.contents[p]), p)]].data in DataOf(s);
  }

  /** The staged file of a source holds the bytes that were read. */
  ghost predicate Holds(s: Stage, sha: Digest, p: string) {
    && p in s.contents && FileName(sha(s.contents[p]), p) in s.dir.entries
    && s.dir.entries[FileName(sha(s.contents[p]), p)] in s.inodes
    && s.inodes[s.dir.entries[FileName(sha(s.contents[p]), p)]].data == s.contents[p]
  }

  lemma ContentHeld(s: Stage, sha: Digest, destination: string, p: string)
    requires Sound(s, sha, destination) && CollisionFree(sha, Touched(s)) && IsDigest(sha) && p in s.paths
    ensures Holds(s, sha, p)
  {
    SoundKeys(s, sha, destination);
    ContentAt(s, sha, destination, p);
    hide Sound, FileName, Target, CollisionFree;
  }

  /** Exactly when staging preserves content: as long as only listed contents are staged, every file
      holds what was read from its sources if and only if no two different listed contents have the
      same digest. */
  lemma PreservedExactly(s: Stage, sha: Digest, destination: string)
    requires Sound(s, sha, destination) && IsDigest(sha) && DataOf(s) <= s.contents.Values
    ensures (forall p | p in s.paths :: Holds(s, sha, p)) <==> CollisionFree(sha, s.contents.Values)
  {
    SoundKeys(s, sha, destination);
    hide Sound, FileName, Holds, DataOf, Target, IsDigest;
    if CollisionFree(sha, s.contents.Values) {
      assert Touched(s) == s.contents.Values;
      forall p | p in s.paths ensures Holds(s, sha, p) {
        ContentHeld(s, sha, destination, p);
      }
    } else {
      var a, b :| a in s.contents.Values && b in s.contents.Values && sha(a) == sha(b) && a != b;
      hide CollisionFree;
      var p :| p in s.contents && s.contents[p] == a;
      var q :| q in s.contents && s.contents[q] == b;
      CollisionMixes(s, sha, destination, p, q);
    }
  }

  /** Two different contents with one digest cannot both be kept. */
  lemma CollisionMixes(s: Stage, sha: Digest, destination: string, p: string, q: string)
    requires Sound(s, sha, destination) && IsDigest(sha) && p in s.paths && q in s.paths && p in s.contents && q in s.contents
    requires sha(s.contents[p]) == sha(s.contents[q]) && s.contents[p] != s.contents[q]
    ensures !Holds(s, sha, p) || !Holds(s, sha, q)
  {
    DigestAt(s, sha, destination, p);
    DigestAt(s, sha, destination, q);
    hide Sound, FileName, Target;
  }

  // Digests without collisions exist.

  function Power(w: nat): nat {
    if w == 0 then 1 else 10 * Power(w - 1)
  }

  /** The last `w` decimal digits of a number. */
  function Numeral(n: nat, w: nat): (q: string)
    ensures |q| == w && forall i | 0 <= i < w :: '0' <= q[i] <= '9'
  {
    if w == 0 then [] else Numeral(n / 10, w - 1) + [('0' as int + n % 10) as char]
  }

  lemma {:induction false} NumeralsDiffer(m: nat, n: nat, w: nat)
    requires m < Power(w) && n < Power(w) && Numeral(m, w) == Numeral(n, w)
    ensures m == n
  {
    if w > 0 {
      var a, b := Numeral(m, w), Numeral(n, w);
      assert a[..w - 1] == Numeral(m / 10, w - 1) && b[..w - 1] == Numeral(n / 10, w - 1);
      assert a[w - 1] == b[w - 1] && m % 10 == n % 10;
      NumeralsDiffer(m / 10, n / 10, w - 1);
    }
  }

  /** The place of a content in some order of a set. */
  ghost function Rank(contents: set<Content>, c: Content): (n: nat)
    requires c in contents
    ensures n < |contents|
    decreases |contents|
  {
    var x :| x in contents;
    if c == x then |contents| - 1 else Rank(contents - {x}, c)
  }

  lemma {:induction false} RanksDiffer(contents: set<Content>, a: Content, b: Content)
    requires a in contents && b in contents && Rank(contents, a) == Rank(contents, b)
    ensures a == b
    decreases |contents|
  {
    var x :| x in contents && (a == x <==> Rank(contents, a) == |contents| - 1) && (b == x <==> Rank(contents, b) == |contents| - 1)
             && (a != x ==> Rank(contents, a) == Rank(contents - {x}, a)) && (b != x ==> Rank(contents, b) == Rank(contents - {x}, b));
    if a != x && b != x {
      RanksDiffer(contents - {x}, a, b);
    }
  }

  /** For every set of at most 10^64 contents some digest has no collision among them, so the assumption
      can be met by any staging area. */
  lemma DigestExists(contents: set<Content>) returns (sha: Digest)
    requires |contents| <= Power(64)
    ensures IsDigest(sha) && CollisionFree(sha, contents)
  {
    sha := (c: Content) => if c in contents then Numeral(Rank(contents, c), 64) else Numeral(0, 64);
    forall a, b | a in contents && b in contents && sha(a) == sha(b) ensures a == b {
      NumeralsDiffer(Rank(contents, a), Rank(contents, b), 64);
      RanksDiffer(contents, a, b);
    }
  }

  // The copy.

  lemma {:induction false} JoinedPrefix(chunks: seq<Content>, k: nat)
    requires k <= |chunks|
    ensures |Joined(chunks[..k])| <= |Joined(chunks)|
    decreases |chunks| - k
  {
    if k < |chunks| {
      assert chunks[..k + 1][..k] == chunks[..k];
      JoinedPrefix(chunks, k + 1);
    } else {
      assert chunks[..k] == chunks;
    }
  }

  lemma JoinedNext(chunks: seq<Content>, k: nat)
    requires k < |chunks|
    ensures Joined(chunks[..k + 1]) == Joined(chunks[..k]) + chunks[k]
    ensures |Joined(chunks[..k])| + |chunks[k]| <= |Joined(chunks)|
  {
    assert chunks[..k + 1][..k] == chunks[..k];
    JoinedPrefix(chunks, k + 1);
  }

  /** The copy goes through: nothing is cancelled, and the source did not change meanwhile. */
  predicate Copies(source: Source, checks: nat) {
    checks >= |source.chunks| + 2 && |Joined(source.chunks)| == source.before.length && source.after == source.before
  }

  method Copy(source: Source, control: CopyControl) returns (ok: bool, content: Content)
    modifies control
    ensures ok <==> Copies(source, old(control.checks))
    ensures ok ==> content == Joined(source.chunks)
    ensures ok ==> control.checks == old(control.checks) - |source.chunks| - 2
    ensures ok ==> control.copied == old(control.copied) + source.before.length
  {
    content := [];
    var k := 0;
    assert source.chunks[..0] == [];
    while true
      invariant k <= |source.chunks| && content == Joined(source.chunks[..k])
      invariant |content| <= source.before.length
      invariant old(control.checks) >= k && control.checks == old(control.checks) - k
      invariant control.copied == old(control.copied) + |content|
      decreases |source.chunks| - k
    {
      ok := control.Check();
      if !ok {
        return false, [];
      }
      if k == |source.chunks| {
        break;
      }
      JoinedNext(source.chunks, k);
      if |content| + |source.chunks[k]| > source.before.length {
        return false, [];
      }
      content := content + source.chunks[k];
      control.copied := control.copied + |source.chunks[k]|;
      k := k + 1;
    }
    assert source.chunks[..k] == source.chunks;
    if |content| != source.before.length || source.after != source.before {
      return false, [];
    }
    ok := control.Check();
  }

  // The staging area.

  /** When the copy of a new source is placed: it is within the limits, and its copy goes through. */
  predicate Places(s: Stage, source: Source, checks: nat) {
    && |s.paths.Keys| < MAX_ASSETS && source.before.length <= MAX_FILE
    && source.before.length + s.stored <= MAX_STORE
    && Copies(source, checks)
  }

  /** When a new source is accepted: its copy is placed, and one more check passes at the end. */
  predicate AcceptsNew(s: Stage, source: Source, checks: nat) {
    Places(s, source, checks) && checks >= |source.chunks| + 3
  }

  /** When a source is accepted: after one check, a source that was copied before must be
      unchanged. */
  predicate Accepts(s: Stage, path: string, source: Source, checks: nat) {
    && checks >= 1 && ValidPath(path) && source.regular
    && if path in s.sources then s.sources[path] == source.before else AcceptsNew(s, source, checks - 1)
  }

  /** When the files of a source are placed, whether or not it is accepted in the end. */
  predicate Stores(s: Stage, path: string, source: Source, checks: nat) {
    checks >= 1 && ValidPath(path) && source.regular && path !in s.sources && Places(s, source, checks - 1)
  }

  /** What a source must be to be accepted, in numbers: after one check, an absolute path of at most 4096
      characters to a regular file that was copied before and did not change, or that brings no more than
      4096 sources, 2 GiB for itself and 8 GiB in all, and is copied without being cancelled. */
  lemma AcceptedExactly(s: Stage, path: string, source: Source, checks: nat)
    ensures Accepts(s, path, source, checks) <==>
              && checks >= 1 && "/" <= path && |path| <= 4096 && '\0' !in path && source.regular
              && if path in s.sources then s.sources[path] == source.before
                 else
                   && |s.paths| < 4096 && source.before.length <= 0x8000_0000 && source.before.length + s.stored <= 0x2_0000_0000
                   && Copies(source, checks - 1) && checks >= |source.chunks| + 4
  {
    hide Copies;
    assert |s.paths| == |s.paths.Keys|;
  }

  /** A destination is an absolute path of at most 4000 characters. */
  lemma DestinationsAre(destination: string)
    ensures ValidDestination(destination) <==> "/" <= destination && |destination| <= 4000 && '\0' !in destination
  {
  }

  /** The files of one content were placed: at most one new object with it, and its alias. */
  ghost predicate Gained(s: Stage, s': Stage, digest: string, path: string, content: Content, ino: nat) {
    && s'.objects.Keys == s.objects.Keys + {digest}
    && s'.dir.entries.Keys == s.dir.entries.Keys + {digest, FileName(digest, path)}
    && s'.inodes.Keys <= s.inodes.Keys + {ino} && DataOf(s') <= DataOf(s) + {content}
    && s'.stored == s.stored + if digest in s.objects then 0 else |content|
  }

  lemma ObjectsPresent(s: Stage, sha: Digest, destination: string, digest: string)
    requires Sound(s, sha, destination) && digest in s.objects
    ensures digest in s.dir.entries && s.dir.entries[digest] in s.inodes
  {
    assert ObjectOk(s, sha, digest);
  }

  class MediaStaging {
    const sha: Digest
    const destination: string
    const directory: nat
    var paths: map<string, string>
    var sources: map<string, Identity>
    var objects: map<string, string>
    var stored: nat
    var entries: map<string, nat>
    var inodes: map<nat, INode>
    ghost var contents: map<string, Content>
    ghost var spoiled: nat

    ghost function View(): Stage
      reads this
    {
      Stage(paths, sources, objects, stored, Dir(directory, entries), inodes, contents, spoiled)
    }

    ghost predicate Valid()
      reads this
    {
      IsDigest(sha) && Sound(View(), sha, destination)
    }

    constructor (sha: Digest, destination: string, directory: nat)
      requires IsDigest(sha)
      ensures Valid() && this.sha == sha && this.destination == destination
      ensures View() == Stage(map[], map[], map[], 0, Dir(directory, map[]), map[], map[], 0)
    {
      this.sha, this.destination, this.directory := sha, destination, directory;
      paths, sources, objects, stored, entries, inodes, contents, spoiled := map[], map[], map[], 0, map[], map[], map[], 0;
    }

    /** Keeps the copy as an object, unless there is one, and links the source's alias to it. */
    method PutFiles(path: string, content: Content, digest: string, ino: nat, now: int)
      requires digest in objects ==> digest in entries && entries[digest] in inodes
      modifies `entries, `inodes, `objects, `stored
      ensures digest in Kept(old(View()), digest, ino, INode(content, now, now, 1)).dir.entries
      ensures Kept(old(View()), digest, ino, INode(content, now, now, 1)).dir.entries[digest]
              in Kept(old(View()), digest, ino, INode(content, now, now, 1)).inodes
      ensures View() == Placed(old(View()), digest, path, ino, INode(content, now, now, 1), now)
    {
      hide FileName;
      if digest !in objects {
        entries := entries[digest := ino];
        inodes := inodes[ino := INode(content, now, now, 1)];
        stored := stored + |content|;
        objects := objects[digest := digest];
      }
      var name := FileName(digest, path);
      if name !in entries {
        var node := entries[digest];
        entries := entries[name := node];
        inodes := inodes[node := inodes[node].(nlink := inodes[node].nlink + 1, ctime := now)];
      }
    }

    method Place(path: string, identity: Identity, content: Content, ino: nat, now: int)
      requires Valid() && ino !in inodes && path !in paths && |paths.Keys| < MAX_ASSETS
      requires |content| == identity.length <= MAX_FILE && |content| + stored <= MAX_STORE
      modifies `entries, `inodes, `objects, `stored
      ensures IsDigest(sha) && Unlisted(View(), sha, destination, path, identity, content)
      ensures Extends(old(View()), View()) && Gained(old(View()), View(), sha(content), path, content, ino)
    {
      ghost var s := View();
      var digest := sha(content);
      PlacedUnlisted(s, sha, destination, path, identity, ino, INode(content, now, now, 1), now);
      if digest in objects {
        ObjectsPresent(s, sha, destination, digest);
      }
      PlacedGains(s, sha, destination, path, ino, INode(content, now, now, 1), now);
      hide Sound, Extends, Placed, FileName, Target, Kept, Unlisted, Gained;
      PutFiles(path, content, digest, ino, now);
    }

    ghost method Spoil(path: string, identity: Identity, content: Content)
      requires IsDigest(sha) && Unlisted(View(), sha, destination, path, identity, content)
      modifies `spoiled
      ensures Valid() && spoiled == old(spoiled) + 1
    {
      hide Sound, Unlisted, IsDigest;
      UnlistedMeans(View(), sha, destination, path, identity, content);
      spoiled := spoiled + 1;
    }

    method Finish(path: string, identity: Identity, ghost content: Content, digest: string) returns (target: string)
      requires IsDigest(sha) && digest == sha(content) && Unlisted(View(), sha, destination, path, identity, content)
      modifies `paths, `sources, `contents
      ensures Valid()
      ensures target == Target(destination, sha(content), path)
      ensures paths == old(paths)[path := target] && sources == old(sources)[path := identity]
      ensures contents == old(contents)[path := content]
    {
      hide Sound, Unlisted, IsDigest, Target, FileName;
      target := Target(destination, digest, path);
      UnlistedMeans(View(), sha, destination, path, identity, content);
      paths := paths[path := target];
      sources := sources[path := identity];
      contents := contents[path := content];
    }

    /** Copies one open source, unless the same source was copied before. `ino` and `now` are what
        the file system gives the copy. */
    method Add(path: string, source: Source, control: CopyControl, ino: nat, now: int) returns (r: Result<string>)
      requires Valid() && ino !in inodes
      modifies this, control
      ensures Valid() && Extends(old(View()), View()) && inodes.Keys <= old(inodes.Keys) + {ino}
      // The files of the copy are placed, or nothing is.
      ensures Stores(old(View()), path, source, old(control.checks)) ==>
                var content := Joined(source.chunks);
                Gained(old(View()), View(), sha(content), path, content, ino) && spoiled == old(spoiled) + if r.Ok? then 0 else 1
      ensures !Stores(old(View()), path, source, old(control.checks)) ==> View() == old(View())
      ensures r.Ok? <==> Accepts(old(View()), path, source, old(control.checks))
      ensures r.Ok? && path in old(paths) ==> r.value == old(paths[path]) && View() == old(View())
      ensures r.Ok? && path !in old(paths) ==> r.value == Target(destination, sha(Joined(source.chunks)), path)
      ensures r.Ok? && path !in old(paths) ==> paths == old(paths)[path := r.value] && spoiled == old(spoiled)
      ensures r.Ok? && path !in old(paths) ==> contents == old(contents)[path := Joined(source.chunks)]
      ensures r.Ok? && path !in old(paths) ==> sources == old(sources)[path := source.before]
      ensures r.Err? ==> paths == old(paths) && contents == old(contents) && sources == old(sources)
    {
      hide Sound, Unlisted, IsDigest, Target, FileName, Extends, Copies, ValidPath, Joined, AcceptsNew, Places, Gained;
      SoundKeys(View(), sha, destination);
      ExtendsItself(View());
      var ok := control.Check();
      if !ok || !ValidPath(path) || !source.regular {
        return Err;
      }
      if path in sources {
        return if sources[path] == source.before then Ok(paths[path]) else Err;
      }
      r := AddNew(path, source, control, ino, now);
      GainedNodes(old(View()), View(), sha(Joined(source.chunks)), path, Joined(source.chunks), ino);
    }

    /** A source that was not copied before. */
    method AddNew(path: string, source: Source, control: CopyControl, ino: nat, now: int) returns (r: Result<string>)
      requires Valid() && ino !in inodes && path !in paths
      modifies this, control
      ensures Valid() && Extends(old(View()), View())
      ensures Places(old(View()), source, old(control.checks)) ==>
                var content := Joined(source.chunks);
                Gained(old(View()), View(), sha(content), path, content, ino) && spoiled == old(spoiled) + if r.Ok? then 0 else 1
      ensures !Places(old(View()), source, old(control.checks)) ==> View() == old(View())
      ensures r.Ok? <==> AcceptsNew(old(View()), source, old(control.checks))
      ensures r.Ok? ==> r.value == Target(destination, sha(Joined(source.chunks)), path)
      ensures r.Ok? ==> paths == old(paths)[path := r.value] && spoiled == old(spoiled)
      ensures r.Ok? ==> contents == old(contents)[path := Joined(source.chunks)]
      ensures r.Ok? ==> sources == old(sources)[path := source.before]
      ensures r.Err? ==> paths == old(paths) && contents == old(contents) && sources == old(sources)
    {
      hide Sound, Unlisted, IsDigest, Target, FileName, Extends, Copies, Joined, Gained;
      ExtendsItself(View());
      CopiesMeans(source, control.checks);
      if |paths.Keys| >= MAX_ASSETS || source.before.length > MAX_FILE || source.before.length + stored > MAX_STORE {
        return Err;
      }
      var ok, content := Copy(source, control);
      if !ok {
        return Err;
      }
      r := Keep(path, source.before, content, control, ino, now);
    }

    method Keep(path: string, identity: Identity, content: Content, control: CopyControl, ino: nat, now: int) returns (r: Result<string>)
      requires Valid() && ino !in inodes && path !in paths && |paths.Keys| < MAX_ASSETS
      requires |content| == identity.length <= MAX_FILE && |content| + stored <= MAX_STORE
      modifies this, control
      ensures Valid() && Extends(old(View()), View()) && Gained(old(View()), View(), sha(content), path, content, ino)
      ensures r.Ok? <==> old(control.checks) > 0
      ensures r.Ok? ==> r.value == Target(destination, sha(content), path)
      ensures r.Ok? ==> paths == old(paths)[path := r.value] && spoiled == old(spoiled)
      ensures r.Ok? ==> contents == old(contents)[path := content]
      ensures r.Ok? ==> sources == old(sources)[path := identity]
      ensures r.Err? ==> paths == old(paths) && contents == old(contents) && sources == old(sources) && spoiled == old(spoiled) + 1
    {
      hide Sound, Unlisted, IsDigest, Target, FileName, Extends, Gained;
      ghost var s := View();
      Place(path, identity, content, ino, now);
      ghost var placed := View();
      var ok := control.Check();
      if ok {
        var target := Finish(path, identity, content, sha(content));
        r := Ok(target);
      } else {
        Spoil(path, identity, content);
        r := Err;
      }
      ExtendsSame(s, placed, View());
      GainedSame(s, placed, View(), sha(content), path, content, ino);
    }
  }

  /** The files of a copy are in place, and its source is not listed yet. */
  ghost predicate Unlisted(s: Stage, sha: Digest, destination: string, path: string, identity: Identity, content: Content) {
    && Sound(s.(spoiled := s.spoiled + 1), sha, destination)
    && Sound(Listed(s, path, identity, Target(destination, sha(content), path), content), sha, destination)
  }

  lemma PlacedUnlisted(s: Stage, sha: Digest, destination: string, path: string, identity: Identity, ino: nat, node: INode, now: int)
    requires IsDigest(sha) && Sound(s, sha, destination) && ino !in s.inodes && path !in s.paths && |s.paths.Keys| < MAX_ASSETS
    requires |node.data| <= MAX_FILE && s.stored + |node.data| <= MAX_STORE && identity.length == |node.data|
    ensures sha(node.data) in Kept(s, sha(node.data), ino, node).dir.entries
    ensures Kept(s, sha(node.data), ino, node).dir.entries[sha(node.data)] in Kept(s, sha(node.data), ino, node).inodes
    ensures var s' := Placed(s, sha(node.data), path, ino, node, now);
            Unlisted(s', sha, destination, path, identity, node.data) && Extends(s, s')
  {
    hide *;
    PlacedSound(s, sha, destination, path, identity, ino, node, now);
    PlacedKeepsRecords(s, sha(node.data), path, ino, node, now);
    UnlistedIs(Placed(s, sha(node.data), path, ino, node, now), sha, destination, path, identity, node.data);
  }

  lemma UnlistedMeans(s: Stage, sha: Digest, destination: string, path: string, identity: Identity, content: Content)
    requires Unlisted(s, sha, destination, path, identity, content)
    ensures Sound(s.(spoiled := s.spoiled + 1), sha, destination)
    ensures Sound(Listed(s, path, identity, Target(destination, sha(content), path), content), sha, destination)
  {
    hide Sound, Listed, Target;
  }

  lemma UnlistedIs(s: Stage, sha: Digest, destination: string, path: string, identity: Identity, content: Content)
    requires Sound(s.(spoiled := s.spoiled + 1), sha, destination)
    requires Sound(Listed(s, path, identity, Target(destination, sha(content), path), content), sha, destination)
    ensures Unlisted(s, sha, destination, path, identity, content)
  {
    hide Sound, Listed, Target;
  }


  lemma ExtendsItself(s: Stage)
    ensures Extends(s, s)
  {
  }

  lemma KeptGains(s: Stage, sha: Digest, ino: nat, node: INode)
    requires FilesOk(s, sha) && ino !in s.inodes
    ensures var digest := sha(node.data);
            var s' := Kept(s, digest, ino, node);
            && s'.objects.Keys == s.objects.Keys + {digest} && s'.dir.entries.Keys == s.dir.entries.Keys + {digest}
            && s'.inodes.Keys <= s.inodes.Keys + {ino} && DataOf(s') <= DataOf(s) + {node.data}
            && s'.stored == s.stored + if digest in s.objects then 0 else |node.data|
  {
    if sha(node.data) in s.objects {
      assert ObjectOk(s, sha, sha(node.data));
    }
    hide FilesOk;
  }

  lemma LinkedGains(s: Stage, digest: string, name: string, now: int)
    requires digest in s.dir.entries && s.dir.entries[digest] in s.inodes
    ensures var s' := Linked(s, digest, name, now);
            && s'.objects == s.objects && s'.dir.entries.Keys == s.dir.entries.Keys + {name}
            && s'.inodes.Keys == s.inodes.Keys && DataOf(s') <= DataOf(s) && s'.stored == s.stored
  {
  }

  lemma PlacedGains(s: Stage, sha: Digest, destination: string, path: string, ino: nat, node: INode, now: int)
    requires Sound(s, sha, destination) && ino !in s.inodes
    requires sha(node.data) in Kept(s, sha(node.data), ino, node).dir.entries
    requires Kept(s, sha(node.data), ino, node).dir.entries[sha(node.data)] in Kept(s, sha(node.data), ino, node).inodes
    ensures Gained(s, Placed(s, sha(node.data), path, ino, node, now), sha(node.data), path, node.data, ino)
  {
    hide FilesOk, PathsOk, CountsOk, Kept, Linked, FileName, DataOf;
    KeptGains(s, sha, ino, node);
    LinkedGains(Kept(s, sha(node.data), ino, node), sha(node.data), FileName(sha(node.data), path), now);
  }

  lemma GainedSame(s: Stage, s': Stage, s'': Stage, digest: string, path: string, content: Content, ino: nat)
    requires Gained(s, s', digest, path, content, ino)
    requires s''.dir == s'.dir && s''.inodes == s'.inodes && s''.objects == s'.objects && s''.stored == s'.stored
    ensures Gained(s, s'', digest, path, content, ino)
  {
    hide FileName;
  }

  lemma GainedNodes(s: Stage, s': Stage, digest: string, path: string, content: Content, ino: nat)
    ensures Gained(s, s', digest, path, content, ino) ==> s'.inodes.Keys <= s.inodes.Keys + {ino}
  {
    hide FileName, DataOf;
  }

  lemma SoundKeys(s: Stage, sha: Digest, destination: string)
    requires Sound(s, sha, destination)
    ensures s.paths.Keys == s.sources.Keys == s.contents.Keys
  {
    hide FilesOk, CountsOk;
  }

  lemma CopiesMeans(source: Source, checks: nat)
    ensures Copies(source, checks) ==> |Joined(source.chunks)| == source.before.length
    ensures Copies(source, checks) ==> checks >= |source.chunks| + 2
  {
  }

  lemma ExtendsSame(s: Stage, s': Stage, s'': Stage)
    requires Extends(s, s') && s''.dir == s'.dir && s''.inodes == s'.inodes
    ensures Extends(s, s'')
  {
  }

  lemma PlacedKeepsRecords(s: Stage, digest: string, path: string, ino: nat, node: INode, now: int)
    requires digest in Kept(s, digest, ino, node).dir.entries
    requires Kept(s, digest, ino, node).dir.entries[digest] in Kept(s, digest, ino, node).inodes
    ensures var s' := Placed(s, digest, path, ino, node, now);
            s'.paths == s.paths && s'.sources == s.sources && s'.contents == s.contents && s'.spoiled == s.spoiled
  {
  }

  // Staging areas that meet the assumptions about content.

  /** A source that holds this content and does not change. */
  function SteadySource(c: Content): Source {
    var identity := Identity(0, 0, |c|, 0, 0);
    Source(true, identity, if c == [] then [] else [c], identity)
  }

  lemma SteadyCopies(c: Content)
    ensures Joined(SteadySource(c).chunks) == c
    ensures forall checks: nat | checks >= |SteadySource(c).chunks| + 2 :: Copies(SteadySource(c), checks)
  {
    if c != [] {
      assert [c][..0] == [];
    }
  }

  lemma SteadyAccepted(s: Stage, path: string, c: Content)
    requires ValidPath(path) && path !in s.sources && |s.paths.Keys| < MAX_ASSETS && |c| <= MAX_FILE && |c| + s.stored <= MAX_STORE
    ensures var checks := |SteadySource(c).chunks| + 4;
            Stores(s, path, SteadySource(c), checks) && Accepts(s, path, SteadySource(c), checks)
  {
    SteadyCopies(c);
    hide Copies, Joined, ValidPath;
  }

  lemma GainedData(s: Stage, s': Stage, digest: string, path: string, content: Content, ino: nat)
    requires Gained(s, s', digest, path, content, ino)
    ensures DataOf(s') <= DataOf(s) + {content} && s'.stored <= s.stored + |content|
  {
    hide DataOf, FileName;
  }

  /** Copies of two steady sources with any contents within the limits: the staging area holds nothing
      else, and a digest that tells the two contents apart has no collision among the contents in play. */
  method CopyTwo(sha: Digest, destination: string, directory: nat, p: string, q: string, a: Content, b: Content)
    returns (media: MediaStaging)
    requires IsDigest(sha) && CollisionFree(sha, {a, b}) && ValidPath(p) && ValidPath(q) && p != q
    requires |a| <= MAX_FILE && |b| <= MAX_FILE && |a| + |b| <= MAX_STORE
    ensures fresh(media) && media.Valid() && media.sha == sha && media.paths.Keys == {p, q}
    ensures media.contents == map[p := a, q := b] && CollisionFree(sha, Touched(media.View()))
    ensures DataOf(media.View()) <= media.contents.Values
  {
    hide Sound, IsDigest, Stores, Accepts, Joined, ValidPath, Target, Extends, Gained, SteadySource;
    media := new MediaStaging(sha, destination, directory);
    ghost var s0 := media.View();
    SteadyCopies(a);
    SteadyAccepted(s0, p, a);
    var control := new CopyControl(|SteadySource(a).chunks| + 4);
    var r := media.Add(p, SteadySource(a), control, 0, 0);
    ghost var s1 := media.View();
    GainedData(s0, s1, sha(a), p, a, 0);
    SteadyCopies(b);
    SteadyAccepted(s1, q, b);
    control := new CopyControl(|SteadySource(b).chunks| + 4);
    r := media.Add(q, SteadySource(b), control, 1, 0);
    GainedData(s1, media.View(), sha(b), q, b, 1);
    hide CollisionFree;
    OnlyTwo(media.View(), sha, p, q, a, b);
  }

  lemma OnlyTwo(s: Stage, sha: Digest, p: string, q: string, a: Content, b: Content)
    requires CollisionFree(sha, {a, b}) && p != q && s.contents == map[p := a, q := b] && DataOf(s) <= {a, b}
    ensures CollisionFree(sha, Touched(s)) && DataOf(s) <= s.contents.Values
  {
    hide DataOf;
    assert s.contents[p] == a && s.contents[q] == b;
  }
}
