/** Advisory locks of open file descriptions (flock(2)), and the reservations built on them. */
module Locks {
  import opened Names

  type Inode = nat
  type Description = nat
  type Descriptor = nat

  datatype Mode = Shared | Exclusive

  /** The kernel: what each path names, which inode each open file description is for, which
      description each descriptor refers to, and the lock each description holds. */
  datatype Kernel = Kernel(
    paths: map<string, Inode>,
    files: map<Description, Inode>,
    descriptors: map<Descriptor, Description>,
    locks: map<Description, Mode>)

  ghost predicate Refers(k: Kernel, d: Description) {
    exists fd :: fd in k.descriptors && k.descriptors[fd] == d
  }

  /** Descriptors refer to open descriptions, and only open descriptions have locks. */
  predicate Usable(k: Kernel) {
    (forall fd | fd in k.descriptors :: k.descriptors[fd] in k.files) && k.locks.Keys <= k.files.Keys
  }

  /** Locks belong to open descriptions; an exclusive one is alone on its inode. */
  ghost predicate Inv(k: Kernel) {
    && Usable(k)
    && (forall a, b | a in k.locks && b in k.locks && a != b && k.files[a] == k.files[b] ::
          k.locks[a].Shared? && k.locks[b].Shared?)
    && (forall d | d in k.files :: Refers(k, d))
  }

  lemma InvMeans(k: Kernel)
    requires Inv(k)
    ensures Usable(k)
  {
  }

  /** The lock is free for a description in a mode. */
  predicate Free(k: Kernel, d: Description, mode: Mode)
    requires d in k.files && k.locks.Keys <= k.files.Keys
  {
    forall other | other in k.locks && other != d && k.files[other] == k.files[d] ::
      mode.Shared? && k.locks[other].Shared?
  }

  datatype Op =
    | Open(path: string, fd: Descriptor, d: Description)
    | Duplicate(source: Descriptor, fd: Descriptor)
    | Lock(fd: Descriptor, mode: Mode)
    | Unlock(fd: Descriptor)
    | Close(fd: Descriptor)
    | Replace(path: string, inode: Inode)
    | Remove(path: string)

  /** A non-blocking lock attempt. Changing the mode gives up the old lock first, also when the new one
      is not available. */
  function Locked(k: Kernel, d: Description, mode: Mode): Kernel
    requires d in k.files && k.locks.Keys <= k.files.Keys
  {
    if d in k.locks && k.locks[d] == mode then k
    else if Free(k, d, mode) then k.(locks := k.locks[d := mode])
    else k.(locks := k.locks - {d})
  }

  function Closed(k: Kernel, fd: Descriptor): Kernel
    requires fd in k.descriptors
  {
    var d := k.descriptors[fd];
    var rest := k.(descriptors := k.descriptors - {fd});
    if exists other :: other in rest.descriptors && rest.descriptors[other] == d then rest
    else rest.(files := k.files - {d}, locks := k.locks - {d})
  }

  function Step(k: Kernel, op: Op): Kernel
    requires Usable(k)
  {
    match op
    case Open(path, fd, d) =>
      if path in k.paths && fd !in k.descriptors && d !in k.files
      then k.(files := k.files[d := k.paths[path]], descriptors := k.descriptors[fd := d]) else k
    case Duplicate(source, fd) =>
      if source in k.descriptors && fd !in k.descriptors
      then k.(descriptors := k.descriptors[fd := k.descriptors[source]]) else k
    case Lock(fd, mode) => if fd in k.descriptors then Locked(k, k.descriptors[fd], mode) else k
    case Unlock(fd) => if fd in k.descriptors then k.(locks := k.locks - {k.descriptors[fd]}) else k
    case Close(fd) => if fd in k.descriptors then Closed(k, fd) else k
    case Replace(path, inode) => k.(paths := k.paths[path := inode])
    case Remove(path) => k.(paths := k.paths - {path})
  }

  lemma OpenKeeps(k: Kernel, path: string, fd: Descriptor, d: Description)
    requires Inv(k)
    ensures Inv(Step(k, Open(path, fd, d)))
  {
    var k' := Step(k, Open(path, fd, d));
    if k' != k {
      forall e | e in k'.files ensures Refers(k', e) {
        if e == d {
          assert k'.descriptors[fd] == d;
        } else {
          assert Refers(k, e);
          var f :| f in k.descriptors && k.descriptors[f] == e;
          assert k'.descriptors[f] == e;
        }
      }
    }
  }

  lemma DuplicateKeeps(k: Kernel, source: Descriptor, fd: Descriptor)
    requires Inv(k)
    ensures Inv(Step(k, Duplicate(source, fd)))
  {
    var k' := Step(k, Duplicate(source, fd));
    forall e | e in k'.files ensures Refers(k', e) {
      assert Refers(k, e);
      var f :| f in k.descriptors && k.descriptors[f] == e;
      assert f in k'.descriptors && k'.descriptors[f] == e;
    }
  }

  lemma LockKeeps(k: Kernel, op: Op)
    requires Inv(k) && (op.Lock? || op.Unlock? || op.Replace? || op.Remove?)
    ensures Inv(Step(k, op))
  {
    var k' := Step(k, op);
    forall e | e in k'.files ensures Refers(k', e) {
      assert Refers(k, e);
    }
  }

  lemma CloseKeeps(k: Kernel, fd: Descriptor)
    requires Inv(k)
    ensures Inv(Step(k, Close(fd)))
  {
    if fd in k.descriptors {
      var d := k.descriptors[fd];
      var k' := Closed(k, fd);
      forall e | e in k'.files ensures Refers(k', e) {
        assert Refers(k, e);
        var f :| f in k.descriptors && k.descriptors[f] == e;
        if f != fd {
          assert f in k'.descriptors && k'.descriptors[f] == e;
        } else {
          var other :| other in k.descriptors - {fd} && (k.descriptors - {fd})[other] == d;
          assert other in k'.descriptors && k'.descriptors[other] == e;
        }
      }
    }
  }

  /** Every step of every process keeps exclusion. */
  lemma StepKeeps(k: Kernel, op: Op)
    requires Inv(k)
    ensures Inv(Step(k, op))
  {
    hide Inv;
    match op
    case Open(path, fd, d) => OpenKeeps(k, path, fd, d);
    case Duplicate(source, fd) => DuplicateKeeps(k, source, fd);
    case Close(fd) => CloseKeeps(k, fd);
    case _ => LockKeeps(k, op);
  }

  function Run(k: Kernel, ops: seq<Op>): Kernel
    requires Inv(k)
    decreases |ops|
  {
    if ops == [] then k else
    StepKeeps(k, ops[0]);
    Run(Step(k, ops[0]), ops[1..])
  }

  lemma {:induction false} RunKeeps(k: Kernel, ops: seq<Op>)
    requires Inv(k)
    ensures Inv(Run(k, ops))
    decreases |ops|
  {
    hide Step;
    if ops != [] {
      StepKeeps(k, ops[0]);
      RunKeeps(Step(k, ops[0]), ops[1..]);
    }
  }

  /** The descriptions that hold an inode exclusively. */
  ghost predicate Owns(k: Kernel, d: Description, inode: Inode) {
    d in k.locks && d in k.files && k.files[d] == inode && k.locks[d].Exclusive?
  }

  /** In every run of any processes: at most one open file description holds an inode exclusively, and
      then nobody holds it shared. */
  lemma Exclusion(k: Kernel, ops: seq<Op>, a: Description, b: Description, inode: Inode)
    requires Inv(k)
    ensures var k' := Run(k, ops);
            Owns(k', a, inode) && b in k'.locks && b in k'.files && k'.files[b] == inode ==> a == b
  {
    RunKeeps(k, ops);
  }

  // Who can take a lock away.

  /** The operations through one descriptor of a description that give its lock up. */
  ghost predicate Releases(k: Kernel, op: Op, d: Description) {
    match op
    case Unlock(fd) => fd in k.descriptors && k.descriptors[fd] == d
    case Lock(fd, mode) => fd in k.descriptors && k.descriptors[fd] == d && mode.Shared?
    case Close(fd) =>
      fd in k.descriptors && k.descriptors[fd] == d && !(exists other :: other in k.descriptors && other != fd && k.descriptors[other] == d)
    case _ => false
  }

  /** An exclusive lock is lost exactly by unlocking it or locking it shared through one of its own
      descriptors, or by closing the last of them. */
  lemma OwnershipEnds(k: Kernel, op: Op, d: Description, inode: Inode)
    requires Inv(k) && Owns(k, d, inode)
    ensures Owns(Step(k, op), d, inode) <==> !Releases(k, op, d)
  {
    match op
    case Close(fd) =>
      if fd in k.descriptors && k.descriptors[fd] == d {
        CloseOne(k, fd);
      }
    case _ =>
  }

  lemma CloseOne(k: Kernel, fd: Descriptor)
    requires fd in k.descriptors
    ensures var d := k.descriptors[fd];
            (exists other :: other in k.descriptors && other != fd && k.descriptors[other] == d)
            <==> (exists other :: other in k.descriptors - {fd} && (k.descriptors - {fd})[other] == d)
  {
    var d := k.descriptors[fd];
    if other :| other in k.descriptors && other != fd && k.descriptors[other] == d {
      assert other in k.descriptors - {fd} && (k.descriptors - {fd})[other] == d;
    }
    if other :| other in k.descriptors - {fd} && (k.descriptors - {fd})[other] == d {
      assert other in k.descriptors && other != fd && k.descriptors[other] == d;
    }
  }

  /** The description owns the inode before, between and after the operations of a run. */
  ghost predicate OwnedThroughout(k: Kernel, ops: seq<Op>, d: Description, inode: Inode)
    requires Inv(k)
  {
    forall i | 0 <= i <= |ops| :: Owns(Run(k, ops[..i]), d, inode)
  }

  /** No operation of a run gives the lock up at its time. */
  ghost predicate NeverReleased(k: Kernel, ops: seq<Op>, d: Description)
    requires Inv(k)
  {
    forall i | 0 <= i < |ops| :: !Releases(Run(k, ops[..i]), ops[i], d)
  }

  lemma RunFirst(k: Kernel, ops: seq<Op>, i: nat)
    requires Inv(k) && 0 < i <= |ops|
    ensures Inv(Step(k, ops[0])) && Run(k, ops[..i]) == Run(Step(k, ops[0]), ops[1..][..i - 1])
  {
    hide Inv, Step;
    StepKeeps(k, ops[0]);
    assert ops[..i][0] == ops[0] && ops[..i][1..] == ops[1..][..i - 1];
  }

  /** So over a whole run, whatever any process does: a lock that is owned at the start is owned all the
      way exactly when no operation releases it at its time. */
  lemma {:induction false} OwnershipRuns(k: Kernel, ops: seq<Op>, d: Description, inode: Inode)
    requires Inv(k) && Owns(k, d, inode)
    ensures OwnedThroughout(k, ops, d, inode) <==> NeverReleased(k, ops, d)
    decreases |ops|
  {
    hide Inv, Step, Owns, Releases;
    assert Run(k, ops[..0]) == k;
    if ops != [] {
      InvMeans(k);
      StepKeeps(k, ops[0]);
      OwnershipEnds(k, ops[0], d, inode);
      FirstThenRest(k, ops, d, inode);
      if Owns(Step(k, ops[0]), d, inode) {
        OwnershipRuns(Step(k, ops[0]), ops[1..], d, inode);
      } else {
        assert Run(Step(k, ops[0]), ops[1..][..0]) == Step(k, ops[0]);
      }
    }
  }

  /** Both parts of a run, its first operation and the rest. */
  lemma FirstThenRest(k: Kernel, ops: seq<Op>, d: Description, inode: Inode)
    requires Inv(k) && ops != []
    ensures Inv(Step(k, ops[0]))
    ensures OwnedThroughout(k, ops, d, inode) <==> Owns(k, d, inode) && OwnedThroughout(Step(k, ops[0]), ops[1..], d, inode)
    ensures NeverReleased(k, ops, d) <==> !Releases(k, ops[0], d) && NeverReleased(Step(k, ops[0]), ops[1..], d)
  {
    hide Inv, Step, Owns, Releases, Run;
    InvMeans(k);
    StepKeeps(k, ops[0]);
    RunNone(k, ops);
    var next := Step(k, ops[0]);
    forall i: nat | 0 < i <= |ops| ensures Run(k, ops[..i]) == Run(next, ops[1..][..i - 1]) {
      RunFirst(k, ops, i);
    }
    if OwnedThroughout(k, ops, d, inode) {
      forall j: nat | j <= |ops[1..]| ensures Owns(Run(next, ops[1..][..j]), d, inode) {
        assert Owns(Run(k, ops[..j + 1]), d, inode);
      }
    }
    if NeverReleased(k, ops, d) {
      assert !Releases(Run(k, ops[..0]), ops[0], d);
      forall j: nat | j < |ops[1..]| ensures !Releases(Run(next, ops[1..][..j]), ops[1..][j], d) {
        assert !Releases(Run(k, ops[..j + 1]), ops[j + 1], d);
      }
    }
    if Owns(k, d, inode) && OwnedThroughout(next, ops[1..], d, inode) {
      forall i: nat | i <= |ops| ensures Owns(Run(k, ops[..i]), d, inode) {
        if i > 0 {
          assert Owns(Run(next, ops[1..][..i - 1]), d, inode);
        }
      }
    }
    if !Releases(k, ops[0], d) && NeverReleased(next, ops[1..], d) {
      forall i: nat | i < |ops| ensures !Releases(Run(k, ops[..i]), ops[i], d) {
        if i > 0 {
          assert !Releases(Run(next, ops[1..][..i - 1]), ops[1..][i - 1], d);
        }
      }
    }
  }

  lemma RunNone(k: Kernel, ops: seq<Op>)
    requires Inv(k)
    ensures Run(k, ops[..0]) == k
  {
    hide Inv;
  }

  // Reservations.

  /** The kernel as the processes share it. */
  class System {
    var kernel: Kernel

    ghost predicate Valid()
      reads this
    {
      Inv(kernel)
    }

    constructor (paths: map<string, Inode>)
      ensures Valid() && kernel == Kernel(paths, map[], map[], map[])
    {
      kernel := Kernel(paths, map[], map[], map[]);
    }

    method Do(op: Op)
      requires Valid()
      modifies this
      ensures Valid() && kernel == Step(old(kernel), op)
    {
      StepKeeps(kernel, op);
      kernel := Step(kernel, op);
    }

    /** Whatever other processes do meanwhile. */
    method DoAll(ops: seq<Op>)
      requires Valid()
      modifies this
      ensures Valid() && kernel == Run(old(kernel), ops)
    {
      hide Inv, Step;
      assert ops[0..] == ops;
      for i := 0 to |ops|
        invariant Valid() && Run(old(kernel), ops) == Run(kernel, ops[i..])
      {
        assert ops[i..][0] == ops[i] && ops[i..][1..] == ops[i + 1..];
        Do(ops[i]);
      }
    }
  }

  /** A reservation made by opening and locking a path. */
  datatype Reservation = Reservation(fd: Descriptor, path: string, identity: Inode)

  /** The reservation's own check: the open file and the path are still the reserved inode. */
  predicate Verified(k: Kernel, r: Reservation) {
    && r.fd in k.descriptors && k.descriptors[r.fd] in k.files && k.files[k.descriptors[r.fd]] == r.identity
    && r.path in k.paths && k.paths[r.path] == r.identity
  }

  ghost predicate Holds(k: Kernel, fd: Descriptor, inode: Inode, mode: Mode) {
    && fd in k.descriptors && k.descriptors[fd] in k.files && k.files[k.descriptors[fd]] == inode
    && k.descriptors[fd] in k.locks && k.locks[k.descriptors[fd]] == mode
  }

  /** What other processes do is up to them, except with this process's new descriptor and description. */
  predicate Foreign(op: Op, fd: Descriptor, d: Description) {
    match op
    case Open(_, f, e) => f != fd && e != d
    case Duplicate(source, f) => source != fd && f != fd
    case Lock(f, _) => f != fd
    case Unlock(f) => f != fd
    case Close(f) => f != fd
    case Replace(_, _) => true
    case Remove(_) => true
  }

  predicate AllForeign(ops: seq<Op>, fd: Descriptor, d: Description) {
    forall op | op in ops :: Foreign(op, fd, d)
  }

  ghost predicate Alone(k: Kernel, fd: Descriptor) {
    fd in k.descriptors && forall other | other in k.descriptors && other != fd :: k.descriptors[other] != k.descriptors[fd]
  }

  /** An own description of the expected inode, locked in this mode exactly when `locked`. */
  ghost predicate Waiting(k: Kernel, fd: Descriptor, d: Description, expected: Inode, mode: Mode, locked: bool) {
    && Inv(k) && Alone(k, fd) && k.descriptors[fd] == d && d in k.files && k.files[d] == expected
    && (d in k.locks <==> locked) && (locked ==> k.locks[d] == mode)
  }

  lemma Opened(k: Kernel, path: string, fd: Descriptor, d: Description, mode: Mode)
    requires Inv(k) && path in k.paths && fd !in k.descriptors && d !in k.files
    ensures Waiting(Step(k, Open(path, fd, d)), fd, d, k.paths[path], mode, false)
  {
    StepKeeps(k, Open(path, fd, d));
    assert forall other | other in k.descriptors :: k.descriptors[other] != d;
  }

  /** An attempt gets the lock exactly when it is free, and changes nothing otherwise. */
  lemma Tried(k: Kernel, fd: Descriptor, d: Description, expected: Inode, mode: Mode)
    requires Waiting(k, fd, d, expected, mode, false)
    ensures Inv(k) && d in k.files && k.locks.Keys <= k.files.Keys
    ensures Free(k, d, mode) ==> Waiting(Step(k, Lock(fd, mode)), fd, d, expected, mode, true)
    ensures !Free(k, d, mode) ==> Step(k, Lock(fd, mode)) == k
    ensures d in Step(k, Lock(fd, mode)).locks <==> Free(k, d, mode)
  {
    StepKeeps(k, Lock(fd, mode));
  }

  /** Other processes cannot touch a description that only this process refers to. */
  lemma Undisturbed(k: Kernel, op: Op, fd: Descriptor, d: Description, expected: Inode, mode: Mode, locked: bool)
    requires Waiting(k, fd, d, expected, mode, locked) && Foreign(op, fd, d)
    ensures Waiting(Step(k, op), fd, d, expected, mode, locked)
  {
    StepKeeps(k, op);
  }

  lemma {:induction false} Waited(k: Kernel, ops: seq<Op>, fd: Descriptor, d: Description, expected: Inode, mode: Mode, locked: bool)
    requires Waiting(k, fd, d, expected, mode, locked) && AllForeign(ops, fd, d)
    ensures Inv(k) && Waiting(Run(k, ops), fd, d, expected, mode, locked)
    decreases |ops|
  {
    WaitingMeans(k, fd, d, expected, mode, locked);
    hide Inv, Waiting, Step, Foreign;
    if ops != [] {
      Undisturbed(k, ops[0], fd, d, expected, mode, locked);
      StepKeeps(k, ops[0]);
      Waited(Step(k, ops[0]), ops[1..], fd, d, expected, mode, locked);
    }
  }

  lemma WaitingMeans(k: Kernel, fd: Descriptor, d: Description, expected: Inode, mode: Mode, locked: bool)
    requires Waiting(k, fd, d, expected, mode, locked)
    ensures fd in k.descriptors && k.descriptors[fd] == d && Inv(k) && Usable(k) && d in k.files && k.files[d] == expected
    ensures d in k.locks <==> locked
    ensures locked ==> Holds(k, fd, expected, mode)
    ensures forall path: string | path in k.paths && k.paths[path] == expected :: Verified(k, Reservation(fd, path, expected))
    ensures fd !in Step(k, Close(fd)).descriptors
  {
  }

  /** Before the file is opened, its descriptor and description stay unused. */
  lemma {:induction false} Unused(k: Kernel, ops: seq<Op>, fd: Descriptor, d: Description)
    requires Inv(k) && AllForeign(ops, fd, d) && fd !in k.descriptors && d !in k.files
    ensures fd !in Run(k, ops).descriptors && d !in Run(k, ops).files
    decreases |ops|
  {
    hide Inv;
    if ops != [] {
      assert Foreign(ops[0], fd, d);
      StepKeeps(k, ops[0]);
      InvMeans(k);
      Unused(Step(k, ops[0]), ops[1..], fd, d);
    }
  }

  /** The kernel after the attempts to lock: each one follows whatever the other processes did since the
      one before, and the first that succeeds is the last. */
  function Acquire(k: Kernel, fd: Descriptor, d: Description, mode: Mode, waits: seq<seq<Op>>): (k': Kernel)
    requires Inv(k) && waits != []
    ensures Inv(k')
    decreases |waits|
  {
    RunKeeps(k, waits[0]);
    var before := Run(k, waits[0]);
    StepKeeps(before, Lock(fd, mode));
    var tried := Step(before, Lock(fd, mode));
    if d in tried.locks || |waits| == 1 then tried else Acquire(tried, fd, d, mode, waits[1..])
  }

  lemma AcquireNext(k: Kernel, fd: Descriptor, d: Description, mode: Mode, waits: seq<seq<Op>>)
    requires Inv(k) && waits != []
    ensures var before := Run(k, waits[0]);
            && Inv(before) && Inv(Step(before, Lock(fd, mode)))
            && var tried := Step(before, Lock(fd, mode));
            Acquire(k, fd, d, mode, waits) ==
              if d in tried.locks || |waits| == 1 then tried else Acquire(tried, fd, d, mode, waits[1..])
  {
    hide Inv, Step, Run;
    RunKeeps(k, waits[0]);
    StepKeeps(Run(k, waits[0]), Lock(fd, mode));
  }

  /** The kernel at attempt `i` when only the other processes have done anything. */
  function Moment(k: Kernel, waits: seq<seq<Op>>, i: nat): (k': Kernel)
    requires Inv(k) && i < |waits|
    ensures Inv(k')
    decreases i
  {
    RunKeeps(k, waits[0]);
    if i == 0 then Run(k, waits[0]) else Moment(Run(k, waits[0]), waits[1..], i - 1)
  }

  ghost predicate FreeAt(k: Kernel, d: Description, mode: Mode, waits: seq<seq<Op>>, i: nat)
    requires Inv(k) && i < |waits|
  {
    var k' := Moment(k, waits, i);
    d in k'.files && Free(k', d, mode)
  }

  lemma FreeFirst(k: Kernel, d: Description, mode: Mode, waits: seq<seq<Op>>)
    requires Inv(k) && waits != []
    ensures Inv(Run(k, waits[0])) && Moment(k, waits, 0) == Run(k, waits[0])
    ensures var k' := Run(k, waits[0]);
            FreeAt(k, d, mode, waits, 0) <==> d in k'.files && k'.locks.Keys <= k'.files.Keys && Free(k', d, mode)
  {
    RunKeeps(k, waits[0]);
    InvMeans(Run(k, waits[0]));
    hide Inv, Run, Free;
  }

  lemma FreeNext(k: Kernel, d: Description, mode: Mode, waits: seq<seq<Op>>, i: nat)
    requires Inv(k) && 0 < i < |waits|
    ensures Inv(Run(k, waits[0]))
    ensures Moment(k, waits, i) == Moment(Run(k, waits[0]), waits[1..], i - 1)
    ensures FreeAt(k, d, mode, waits, i) <==> FreeAt(Run(k, waits[0]), d, mode, waits[1..], i - 1)
  {
    RunKeeps(k, waits[0]);
    hide Inv, Run, Free;
  }

  /** Polling misses nothing it could see and disturbs nobody: the lock is got exactly when it is free
      at the moment of one of the attempts, and then the process holds it. Without success only the other
      processes have changed anything. */
  lemma {:induction false} AcquiredWhenFree(
    k: Kernel, fd: Descriptor, d: Description, expected: Inode, mode: Mode, waits: seq<seq<Op>>)
    requires Waiting(k, fd, d, expected, mode, false) && waits != []
    requires forall ops | ops in waits :: AllForeign(ops, fd, d)
    ensures Inv(k)
    ensures var last := Acquire(k, fd, d, mode, waits);
            var got := exists i: nat :: i < |waits| && FreeAt(k, d, mode, waits, i);
            && Waiting(last, fd, d, expected, mode, got)
            && (!got ==> last == Moment(k, waits, |waits| - 1))
    decreases |waits|
  {
    WaitingMeans(k, fd, d, expected, mode, false);
    hide Inv, Waiting, AllForeign, Step, Run, Acquire, Free, FreeAt, Moment;
    assert waits[0] in waits;
    Waited(k, waits[0], fd, d, expected, mode, false);
    var before := Run(k, waits[0]);
    Tried(before, fd, d, expected, mode);
    WaitingMeans(before, fd, d, expected, mode, false);
    AcquireNext(k, fd, d, mode, waits);
    FreeFirst(k, d, mode, waits);
    if Free(before, d, mode) {
      assert FreeAt(k, d, mode, waits, 0);
    } else if |waits| > 1 {
      AcquiredWhenFree(before, fd, d, expected, mode, waits[1..]);
      forall i: nat | 0 < i < |waits| ensures FreeAt(k, d, mode, waits, i) <==> FreeAt(before, d, mode, waits[1..], i - 1) {
        FreeNext(k, d, mode, waits, i);
      }
      FreeNext(k, d, mode, waits, |waits| - 1);
      if i: nat :| i < |waits[1..]| && FreeAt(before, d, mode, waits[1..], i) {
        assert FreeAt(k, d, mode, waits, i + 1);
      }
    }
  }

  /** What opening and locking a path comes to: the state it leaves, and whether the path is reserved.
      `before` is what other processes do between looking at the path and opening it, `waits[i]` what they
      do before attempt `i`, and `after` what they do between the lock and the last look at the path. */
  ghost predicate Reserves(k: Kernel, path: string, expected: Inode, mode: Mode, fd: Descriptor, d: Description,
                           before: seq<Op>, waits: seq<seq<Op>>, after: seq<Op>, ok: bool, k': Kernel)
    requires Inv(k) && waits != []
  {
    if path !in k.paths || k.paths[path] != expected then !ok && k' == k else
    RunKeeps(k, before);
    var k1 := Run(k, before);
    if path !in k1.paths then !ok && k' == k1 else
    StepKeeps(k1, Open(path, fd, d));
    var k2 := Step(k1, Open(path, fd, d));
    if k1.paths[path] != expected then !ok && k' == Step(k2, Close(fd)) else
    if forall i: nat | i < |waits| :: !FreeAt(k2, d, mode, waits, i) then
      !ok && k' == Step(Moment(k2, waits, |waits| - 1), Close(fd)) else
    var last := Acquire(k2, fd, d, mode, waits);
    RunKeeps(last, after);
    var k3 := Run(last, after);
    (ok <==> path in k3.paths && k3.paths[path] == expected) && k' == if ok then k3 else Dropped(k3, fd)
  }

  /** The attempts to lock, until one succeeds or the time is up. */
  method TryLock(system: System, expected: Inode, mode: Mode, fd: Descriptor, d: Description, waits: seq<seq<Op>>) returns (ok: bool)
    requires system.Valid() && Waiting(system.kernel, fd, d, expected, mode, false)
    requires waits != [] && forall ops | ops in waits :: AllForeign(ops, fd, d)
    modifies system
    ensures system.Valid() && Waiting(system.kernel, fd, d, expected, mode, ok)
    ensures system.kernel == Acquire(old(system.kernel), fd, d, mode, waits)
    ensures ok <==> exists i: nat :: i < |waits| && FreeAt(old(system.kernel), d, mode, waits, i)
    ensures !ok ==> system.kernel == Moment(old(system.kernel), waits, |waits| - 1)
  {
    hide Inv, Waiting, AllForeign, Step, Run, Acquire, Free, FreeAt, Moment;
    AcquiredWhenFree(system.kernel, fd, d, expected, mode, waits);
    WaitingMeans(Acquire(system.kernel, fd, d, mode, waits), fd, d, expected, mode,
      exists i: nat :: i < |waits| && FreeAt(system.kernel, d, mode, waits, i));
    ghost var start := system.kernel;
    system.DoAll(waits[0]);
    InvMeans(system.kernel);
    system.Do(Lock(fd, mode));
    var i := 1;
    assert waits[0..] == waits;
    while i < |waits| && d !in system.kernel.locks
      invariant 0 < i <= |waits| && system.Valid() && Inv(start) && Inv(Run(start, waits[i - 1]))
      invariant Usable(Run(start, waits[i - 1])) && system.kernel == Step(Run(start, waits[i - 1]), Lock(fd, mode))
      invariant Acquire(old(system.kernel), fd, d, mode, waits) == Acquire(start, fd, d, mode, waits[i - 1..])
    {
      AcquireNext(start, fd, d, mode, waits[i - 1..]);
      assert waits[i - 1..][0] == waits[i - 1] && waits[i - 1..][1..] == waits[i..];
      start := system.kernel;
      system.DoAll(waits[i]);
      InvMeans(system.kernel);
      system.Do(Lock(fd, mode));
      i := i + 1;
    }
    AcquireNext(start, fd, d, mode, waits[i - 1..]);
    assert waits[i - 1..][0] == waits[i - 1];
    ok := d in system.kernel.locks;
  }

  /** Opens and locks a path, retrying while it is busy. It succeeds exactly when the path names the
      expected inode before and while it is opened, the lock is free at the moment of one of the attempts,
      and the path still names that inode at the end; otherwise nothing of its own stays behind. */
  method OpenLocked(system: System, path: string, expected: Inode, mode: Mode, fd: Descriptor, d: Description,
                    before: seq<Op>, waits: seq<seq<Op>>, after: seq<Op>)
    returns (r: Option<Reservation>)
    requires system.Valid() && fd !in system.kernel.descriptors && d !in system.kernel.files && waits != []
    requires AllForeign(before, fd, d) && AllForeign(after, fd, d) && forall ops | ops in waits :: AllForeign(ops, fd, d)
    modifies system
    ensures system.Valid()
    ensures r.Some? ==> r.value == Reservation(fd, path, expected)
    ensures r.Some? ==> Holds(system.kernel, fd, expected, mode) && Verified(system.kernel, r.value)
    ensures r.None? ==> fd !in system.kernel.descriptors
    ensures Reserves(old(system.kernel), path, expected, mode, fd, d, before, waits, after, r.Some?, system.kernel)
  {
    hide Inv, Waiting, AllForeign, Step, Run, Acquire, FreeAt, Moment, Holds, Verified;
    if path !in system.kernel.paths || system.kernel.paths[path] != expected {
      return None;
    }
    Unused(system.kernel, before, fd, d);
    system.DoAll(before);
    if path !in system.kernel.paths {
      return None;
    }
    Opened(system.kernel, path, fd, d, mode);
    ghost var found := system.kernel.paths[path];
    system.Do(Open(path, fd, d));
    WaitingMeans(system.kernel, fd, d, found, mode, false);
    if system.kernel.files[d] != expected {
      system.Do(Close(fd));
      return None;
    }
    var locked := TryLock(system, expected, mode, fd, d, waits);
    WaitingMeans(system.kernel, fd, d, expected, mode, locked);
    if !locked {
      system.Do(Close(fd));
      return None;
    }
    Waited(system.kernel, after, fd, d, expected, mode, true);
    system.DoAll(after);
    WaitingMeans(system.kernel, fd, d, expected, mode, true);
    var reservation := Reservation(fd, path, expected);
    if path !in system.kernel.paths || system.kernel.paths[path] != expected {
      DropReservation(system, reservation);
      return None;
    }
    r := Some(reservation);
  }

  /** The kernel after a reservation is dropped: unlocked, then closed. */
  function Dropped(k: Kernel, fd: Descriptor): Kernel
    requires Inv(k)
  {
    StepKeeps(k, Unlock(fd));
    Step(Step(k, Unlock(fd)), Close(fd))
  }

  /** Dropping a reservation unlocks before it closes. */
  method DropReservation(system: System, r: Reservation)
    requires system.Valid() && r.fd in system.kernel.descriptors
    modifies system
    ensures system.Valid() && system.kernel == Dropped(old(system.kernel), r.fd)
    ensures r.fd !in system.kernel.descriptors
  {
    system.Do(Unlock(r.fd));
    system.Do(Close(r.fd));
  }

  /** So the lock is free at once, even while duplicates of the descriptor live on elsewhere. */
  lemma DropReleases(k: Kernel, r: Reservation, mode: Mode)
    requires Inv(k) && Holds(k, r.fd, r.identity, mode)
    ensures var d := k.descriptors[r.fd];
            var k' := Step(Step(k, Unlock(r.fd)), Close(r.fd));
            && d !in k'.locks && r.fd !in k'.descriptors
            && (forall other | other in k'.locks :: other in k.locks && k'.locks[other] == k.locks[other])
            && (mode.Exclusive? ==> forall other | other in k'.locks && other in k'.files :: k'.files[other] != r.identity)
  {
    var d := k.descriptors[r.fd];
    assert d in k.locks && k.files[d] == r.identity;
    StepKeeps(k, Unlock(r.fd));
    var k1 := Step(k, Unlock(r.fd));
    assert d !in k1.locks && k1.files == k.files;
    assert forall other | other in k1.locks :: k1.locks[other] == k.locks[other];
  }

  // Inherited reservations.

  /** Closing a duplicate never takes the lock away from the description it shares. */
  lemma InheritedDropKeeps(k: Kernel, coordinator: Descriptor, helper: Descriptor, inode: Inode, mode: Mode)
    requires Inv(k) && Holds(k, coordinator, inode, mode) && coordinator != helper
    ensures Holds(Step(k, Close(helper)), coordinator, inode, mode)
  {
    if helper in k.descriptors && k.descriptors[helper] == k.descriptors[coordinator] {
      assert coordinator in k.descriptors - {helper} && (k.descriptors - {helper})[coordinator] == k.descriptors[helper];
    }
  }

  /** An inherited descriptor is for the inode its path names, and can be locked exclusively: nobody
      but its own description has a lock. */
  predicate Inheritable(k: Kernel, fd: Descriptor, path: string)
    requires Usable(k)
  {
    && fd in k.descriptors && path in k.paths && k.files[k.descriptors[fd]] == k.paths[path]
    && Free(k, k.descriptors[fd], Exclusive)
  }

  /** The helper's check of one inherited descriptor: the expected inode, and an exclusive lock through
      the shared description. */
  method VerifyInherited(system: System, fd: Descriptor, path: string) returns (ok: bool)
    requires system.Valid()
    modifies system
    ensures system.Valid()
    ensures ok <==> Inheritable(old(system.kernel), fd, path)
    ensures ok ==> system.kernel == Step(old(system.kernel), Lock(fd, Exclusive))
    ensures ok ==> Holds(system.kernel, fd, old(system.kernel).paths[path], Exclusive)
    ensures ok && Owns(old(system.kernel), old(system.kernel).descriptors[fd], old(system.kernel).paths[path]) ==>
              system.kernel == old(system.kernel)
  {
    var k := system.kernel;
    if fd !in k.descriptors || path !in k.paths || k.files[k.descriptors[fd]] != k.paths[path] {
      return false;
    }
    system.Do(Lock(fd, Exclusive));
    OwnerIsFree(k, k.descriptors[fd]);
    ok := k.descriptors[fd] in system.kernel.locks && system.kernel.locks[k.descriptors[fd]] == Exclusive;
  }

  /** Both inherited reservations, on two distinct inodes. */
  predicate BothInheritable(k: Kernel, operation: Descriptor, hardware: Descriptor, operationPath: string, hardwarePath: string)
    requires Usable(k)
  {
    && Inheritable(k, operation, operationPath)
    && var k' := Step(k, Lock(operation, Exclusive));
    && Usable(k') && Inheritable(k', hardware, hardwarePath)
    && k.paths[operationPath] != k.paths[hardwarePath]
  }

  /** The helper's whole check: it succeeds exactly when both descriptors can be locked, one after the
      other, and are for different inodes; then both are locked exclusively, and locks that were owned
      already are not touched. */
  method VerifyReservations(system: System, operation: Descriptor, hardware: Descriptor, operationPath: string, hardwarePath: string)
    returns (ok: bool)
    requires system.Valid()
    modifies system
    ensures system.Valid()
    ensures ok <==> BothInheritable(old(system.kernel), operation, hardware, operationPath, hardwarePath)
    ensures ok ==> Holds(system.kernel, operation, old(system.kernel).paths[operationPath], Exclusive)
                   && Holds(system.kernel, hardware, old(system.kernel).paths[hardwarePath], Exclusive)
    ensures ok && Holds(old(system.kernel), operation, old(system.kernel).paths[operationPath], Exclusive)
            && Holds(old(system.kernel), hardware, old(system.kernel).paths[hardwarePath], Exclusive) ==>
              system.kernel == old(system.kernel)
  {
    var k := system.kernel;
    ok := VerifyInherited(system, operation, operationPath);
    if !ok {
      return;
    }
    LockKeepsPlaces(k, operation);
    ghost var k1 := system.kernel;
    ok := VerifyInherited(system, hardware, hardwarePath);
    if !ok {
      return;
    }
    LockKeepsPlaces(k1, hardware);
    ok := k.files[k.descriptors[operation]] != k.files[k.descriptors[hardware]];
    if ok {
      LockElsewhere(k1, operation, hardware);
    }
  }

  lemma LockKeepsPlaces(k: Kernel, fd: Descriptor)
    requires Usable(k)
    ensures var k' := Step(k, Lock(fd, Exclusive)); k'.paths == k.paths && k'.files == k.files && k'.descriptors == k.descriptors
  {
  }

  /** Locking one description leaves the locks of the others alone. */
  lemma LockElsewhere(k: Kernel, fd: Descriptor, other: Descriptor)
    requires Usable(k) && fd in k.descriptors && other in k.descriptors && k.descriptors[fd] != k.descriptors[other]
    ensures var k' := Step(k, Lock(other, Exclusive));
            k.descriptors[fd] in k.locks ==> k.descriptors[fd] in k'.locks && k'.locks[k.descriptors[fd]] == k.locks[k.descriptors[fd]]
  {
  }

  lemma OwnerIsFree(k: Kernel, d: Description)
    requires Inv(k) && d in k.files
    ensures d in k.locks && k.locks[d].Exclusive? ==> Free(k, d, Exclusive)
  {
  }

  /** While the coordinator keeps its exclusive lock, the helper's checks change nothing; once the
      coordinator has dropped it, a later check takes the lock for the shared description unless
      someone else took it first. */
  lemma HelperAfterDrop(k: Kernel, coordinator: Descriptor, helper: Descriptor, inode: Inode)
    requires Inv(k) && Holds(k, coordinator, inode, Exclusive) && coordinator != helper
    requires helper in k.descriptors && k.descriptors[helper] == k.descriptors[coordinator]
    ensures Step(k, Lock(helper, Exclusive)) == k
    ensures var k' := Step(Step(k, Unlock(coordinator)), Close(coordinator));
            Inv(k') && helper in k'.descriptors && Holds(Step(k', Lock(helper, Exclusive)), helper, inode, Exclusive)
  {
    StepKeeps(k, Unlock(coordinator));
    var k1 := Step(k, Unlock(coordinator));
    StepKeeps(k1, Close(coordinator));
    assert helper in k1.descriptors - {coordinator} && (k1.descriptors - {coordinator})[helper] == k.descriptors[helper];
    DropReleases(k, Reservation(coordinator, "", inode), Exclusive);
  }
}
