/** Observing background jobs through a status file and a worker lock: any number of workers and
    observers, any interleaving, workers and observers dying anywhere. */
module Jobs {
  import opened Names

  type JobId = string

  datatype Status = Status(id: JobId, active: bool, success: bool)

  /** The life of a worker; its lock is held from `Locked` to `Written`. */
  datatype Worker = Locked | Running | Written(success: bool) | Released

  datatype Outcome = Active | Success | Failure | Interrupted

  datatype Report = Report(id: JobId, outcome: Outcome)

  /** What an observer knows: `Checking` has read an active record, `Busy` found the lock held by a
      worker, `Holding` has the lock shared. */
  datatype Observer =
    | Idle(import_: bool)
    | Checking(id: JobId)
    | Busy(holder: JobId)
    | Holding
    | Answered(report: Option<Report>, seen: Option<JobId>)

  /** `written` are the jobs in the order of their first writes, `finals` the final writes that happened,
      and `gone` the workers that released their lock without one. */
  datatype State = State(
    status: Option<Status>,
    exclusive: Option<JobId>,
    shared: set<nat>,
    workers: map<JobId, Worker>,
    observers: map<nat, Observer>,
    written: seq<JobId>,
    finals: map<JobId, bool>,
    gone: set<JobId>)

  datatype Event =
    | Begin(job: JobId)
    | WriteActive(job: JobId)
    | WriteFinal(job: JobId, success: bool)
    | Release(job: JobId)
    | Arrive(observer: nat, import_: bool)
    | Observe(observer: nat)
    | Leave(observer: nat)

  const Empty := State(None, None, {}, map[], map[], [], map[], {})

  /** The lock attempt of an observer succeeds unless a worker holds the lock. */
  function TryShared(s: State, r: nat, busy: JobId -> Observer): State {
    match s.exclusive
    case Some(holder) => s.(observers := s.observers[r := busy(holder)])
    case None => s.(observers := s.observers[r := Holding], shared := s.shared + {r})
  }

  function Answer(s: State, r: nat, report: Option<Report>, holder: Option<JobId>): State {
    s.(observers := s.observers[r := Answered(report, holder)], shared := s.shared - {r})
  }

  function Finished(status: Status): Report {
    Report(status.id, if status.success then Success else Failure)
  }

  /** What an observer that holds the lock answers: an active record has lost its worker. */
  function Settled(status: Option<Status>): Option<Report> {
    match status
    case None => None
    case Some(record) => Some(if record.active then Report(record.id, Interrupted) else Finished(record))
  }

  function Observed(s: State, r: nat): State
    requires r in s.observers
  {
    match s.observers[r]
    case Idle(import_) =>
      if import_ then TryShared(s, r, (holder: JobId) => Busy(holder))
      else
        (match s.status
         case None => Answer(s, r, None, None)
         case Some(record) =>
           if record.active then s.(observers := s.observers[r := Checking(record.id)])
           else Answer(s, r, Some(Finished(record)), None))
    case Checking(id) => TryShared(s, r, (holder: JobId) => Answered(Some(Report(id, Active)), Some(holder)))
    case Busy(holder) =>
      (match s.status
       case None => Answer(s, r, None, None)
       case Some(record) => Answer(s, r, Some(Report(record.id, Active)), Some(holder)))
    case Holding => Answer(s, r, Settled(s.status), None)
    case Answered(_, _) => s
  }

  function Holds(s: State, job: JobId, phase: Worker): bool {
    job in s.workers && s.workers[job] == phase
  }

  function Step(s: State, e: Event): State {
    match e
    case Begin(job) =>
      // A worker that cannot lock ends at once and leaves no trace.
      if job in s.workers || s.exclusive.Some? || s.shared != {} then s
      else s.(workers := s.workers[job := Locked], exclusive := Some(job))
    case WriteActive(job) =>
      // The first write and every progress write.
      if Holds(s, job, Locked) || Holds(s, job, Running)
      then s.(workers := s.workers[job := Running], status := Some(Status(job, true, false)),
              written := if Holds(s, job, Locked) then s.written + [job] else s.written)
      else s
    case WriteFinal(job, success) =>
      if Holds(s, job, Running)
      then s.(workers := s.workers[job := Written(success)], status := Some(Status(job, false, success)),
              finals := s.finals[job := success])
      else s
    case Release(job) =>
      // Normal end, error or death.
      if job in s.workers && s.workers[job] != Released then
        s.(workers := s.workers[job := Released], exclusive := None,
           gone := if s.workers[job].Written? then s.gone else s.gone + {job})
      else s
    case Arrive(r, import_) => if r in s.observers then s else s.(observers := s.observers[r := Idle(import_)])
    case Observe(r) => if r in s.observers then Observed(s, r) else s
    case Leave(r) => s.(observers := s.observers - {r}, shared := s.shared - {r})
  }

  function Run(s: State, events: seq<Event>): State
    decreases |events|
  {
    if events == [] then s else Run(Step(s, events[0]), events[1..])
  }

  // The invariant.

  /** A worker that is neither released nor new holds the lock, and nobody else does. */
  ghost predicate LockOk(s: State) {
    && (forall job | job in s.workers && s.workers[job] != Released :: s.exclusive == Some(job))
    && (s.exclusive.Some? ==> s.exclusive.value in s.workers && s.workers[s.exclusive.value] != Released && s.shared == {})
  }

  /** An active record belongs to the worker that holds the lock or to one that is gone; a finished
      record belongs to a final write. */
  ghost predicate StatusOk(s: State) {
    && (s.status.Some? && s.status.value.active ==>
          s.status.value.id in s.gone || Holds(s, s.status.value.id, Running))
    && (s.status.Some? && !s.status.value.active ==>
          s.status.value.id in s.finals && s.finals[s.status.value.id] == s.status.value.success)
  }

  ghost predicate HistoryOk(s: State) {
    && (forall job | job in s.finals :: job !in s.gone && job in s.workers
                                        && (s.workers[job] == Released || s.workers[job] == Written(s.finals[job])))
    && (forall job | job in s.gone :: Holds(s, job, Released))
    && (forall job | job in s.workers && s.workers[job].Written? :: job in s.finals)
  }

  /** The latest job that made its first write. */
  function Latest(s: State): Option<JobId> {
    if s.written == [] then None else Some(s.written[|s.written| - 1])
  }

  /** A job that made its first write still runs, made its final write, or is gone without one. */
  ghost predicate Accounted(s: State, job: JobId) {
    Holds(s, job, Running) || job in s.finals || job in s.gone
  }

  /** The record is always that of the latest first write, and the worker that holds the lock is the
      latest writer if it wrote at all. */
  ghost predicate WrittenOk(s: State) {
    && (forall job | job in s.written :: job in s.workers && s.workers[job] != Locked && Accounted(s, job))
    && (forall job | job in s.workers && (s.workers[job].Running? || s.workers[job].Written?) :: Latest(s) == Some(job))
    && (s.status.Some? ==> Latest(s) == Some(s.status.value.id)) && (s.status.None? ==> s.written == [])
  }

  /** What the answer of an observer proves. */
  ghost predicate Truthful(s: State, report: Option<Report>, holder: Option<JobId>) {
    report.Some? ==>
      match report.value.outcome
      case Active => holder.Some? && holder.value in s.workers
      case Success => report.value.id in s.finals && s.finals[report.value.id]
      case Failure => report.value.id in s.finals && !s.finals[report.value.id]
      case Interrupted => report.value.id in s.gone && report.value.id !in s.finals
  }

  ghost predicate ObserverOk(s: State, r: nat)
    requires r in s.observers
  {
    match s.observers[r]
    case Idle(_) => true
    case Checking(_) => true
    case Busy(holder) => holder in s.workers
    case Holding => r in s.shared
    case Answered(report, holder) => Truthful(s, report, holder)
  }

  ghost predicate Inv(s: State) {
    && LockOk(s) && StatusOk(s) && HistoryOk(s) && WrittenOk(s)
    && (forall r | r in s.observers :: ObserverOk(s, r))
    && (forall r | r in s.shared :: r in s.observers && s.observers[r] == Holding)
  }

  /** Nothing of the history of jobs is ever taken back. */
  ghost predicate Grows(s: State, s': State) {
    && s.gone <= s'.gone && s.workers.Keys <= s'.workers.Keys && s.written <= s'.written
    && (forall job | job in s.workers && s.workers[job] == Released :: s'.workers[job] == Released)
    && (forall job | job in s.finals :: job in s'.finals && s'.finals[job] == s.finals[job])
    && (forall job | job in s.gone :: job !in s'.finals)
  }

  lemma TruthfulGrows(s: State, s': State, report: Option<Report>, holder: Option<JobId>)
    requires Truthful(s, report, holder) && Grows(s, s')
    ensures Truthful(s', report, holder)
  {
  }

  lemma ObserversKept(s: State, s': State)
    requires (forall r | r in s.observers :: ObserverOk(s, r)) && Grows(s, s')
    requires s'.observers == s.observers && s'.shared == s.shared
    ensures forall r | r in s'.observers :: ObserverOk(s', r)
  {
    forall r | r in s'.observers ensures ObserverOk(s', r) {
      assert ObserverOk(s, r);
      if s.observers[r].Answered? {
        TruthfulGrows(s, s', s.observers[r].report, s.observers[r].seen);
      }
    }
  }

  predicate OfWorker(e: Event) {
    e.Begin? || e.WriteActive? || e.WriteFinal? || e.Release?
  }

  lemma WorkerLock(s: State, e: Event)
    requires Inv(s) && OfWorker(e)
    ensures LockOk(Step(s, e)) && StatusOk(Step(s, e))
  {
    hide ObserverOk;
  }

  lemma WorkerFrame(s: State, e: Event)
    requires OfWorker(e)
    ensures Step(s, e).observers == s.observers && Step(s, e).shared == s.shared
  {
  }

  lemma WorkerGrows(s: State, e: Event)
    requires LockOk(s) && HistoryOk(s) && OfWorker(e)
    ensures Grows(s, Step(s, e))
  {
  }

  lemma WorkerHistory(s: State, e: Event)
    requires LockOk(s) && HistoryOk(s) && OfWorker(e)
    ensures HistoryOk(Step(s, e))
  {
  }

  lemma BeginWrites(s: State, job: JobId)
    requires LockOk(s) && HistoryOk(s) && WrittenOk(s)
    ensures WrittenOk(Step(s, Begin(job)))
  {
  }

  lemma ActiveWrites(s: State, job: JobId)
    requires LockOk(s) && HistoryOk(s) && WrittenOk(s)
    ensures WrittenOk(Step(s, WriteActive(job)))
  {
  }

  lemma FinalWrites(s: State, job: JobId, success: bool)
    requires LockOk(s) && HistoryOk(s) && WrittenOk(s)
    ensures WrittenOk(Step(s, WriteFinal(job, success)))
  {
  }

  lemma ReleaseWrites(s: State, job: JobId)
    requires LockOk(s) && HistoryOk(s) && WrittenOk(s)
    ensures WrittenOk(Step(s, Release(job)))
  {
  }

  lemma WorkerWrites(s: State, e: Event)
    requires LockOk(s) && HistoryOk(s) && WrittenOk(s) && OfWorker(e)
    ensures WrittenOk(Step(s, e))
  {
    hide LockOk, HistoryOk, WrittenOk, Step;
    match e
    case Begin(job) => BeginWrites(s, job);
    case WriteActive(job) => ActiveWrites(s, job);
    case WriteFinal(job, success) => FinalWrites(s, job, success);
    case Release(job) => ReleaseWrites(s, job);
  }

  lemma WorkerKeeps(s: State, e: Event)
    requires Inv(s) && OfWorker(e)
    ensures Inv(Step(s, e)) && Grows(s, Step(s, e))
  {
    WorkerLock(s, e);
    WorkerHistory(s, e);
    WorkerWrites(s, e);
    WorkerGrows(s, e);
    WorkerFrame(s, e);
    ObserversKept(s, Step(s, e));
    hide ObserverOk, LockOk, StatusOk, HistoryOk, WrittenOk, Grows, Step;
  }

  /** The answers an observer can give. */
  lemma AnswerIsTruthful(s: State, r: nat)
    requires Inv(s) && r in s.observers
    ensures Observed(s, r).observers.Keys == s.observers.Keys && ObserverOk(Observed(s, r), r)
  {
    assert ObserverOk(s, r);
    if s.observers[r].Holding? {
      // Nobody can be writing: the lock is held shared.
      assert s.exclusive.None?;
      assert forall job | job in s.workers :: s.workers[job] == Released;
    }
  }

  /** Everything but the observers and the shared holders. */
  ghost predicate SameJobs(s: State, s': State) {
    && s'.workers == s.workers && s'.finals == s.finals && s'.gone == s.gone
    && s'.status == s.status && s'.exclusive == s.exclusive && s'.written == s.written
  }

  lemma ObserverFrame(s: State, e: Event)
    requires !OfWorker(e)
    ensures SameJobs(s, Step(s, e))
    ensures s.exclusive.Some? && s.shared == {} ==> Step(s, e).shared == {}
  {
  }

  lemma SameJobsKeep(s: State, s': State)
    requires Inv(s) && SameJobs(s, s') && (s.exclusive.Some? ==> s'.shared == {})
    ensures LockOk(s') && StatusOk(s') && HistoryOk(s') && WrittenOk(s') && Grows(s, s')
  {
    hide ObserverOk;
  }

  lemma TryFrame(s: State, r: nat, busy: JobId -> Observer)
    requires r in s.observers && r !in s.shared
    ensures var s' := TryShared(s, r, busy);
            && s'.observers.Keys == s.observers.Keys
            && (forall q | q in s.observers && q != r :: s'.observers[q] == s.observers[q])
            && (forall q | q != r :: q in s'.shared <==> q in s.shared)
            && (r in s'.shared ==> s'.observers[r] == Holding)
  {
  }

  lemma AnswerFrame(s: State, r: nat, report: Option<Report>, holder: Option<JobId>)
    requires r in s.observers
    ensures var s' := Answer(s, r, report, holder);
            && s'.observers.Keys == s.observers.Keys
            && (forall q | q in s.observers && q != r :: s'.observers[q] == s.observers[q])
            && (forall q | q != r :: q in s'.shared <==> q in s.shared) && r !in s'.shared
  {
  }

  /** An observation changes its own observer only. */
  lemma ObservedFrame(s: State, r: nat)
    requires r in s.observers && (forall q | q in s.shared :: q in s.observers && s.observers[q] == Holding)
    ensures var s' := Observed(s, r);
            && s'.observers.Keys == s.observers.Keys
            && (forall q | q in s.observers && q != r :: s'.observers[q] == s.observers[q])
            && (forall q | q != r :: q in s'.shared <==> q in s.shared)
            && (r in s'.shared ==> s'.observers[r] == Holding)
  {
    match s.observers[r] {
      case Idle(import_) =>
        TryFrame(s, r, (holder: JobId) => Busy(holder));
        AnswerFrame(s, r, if s.status.Some? then Some(Finished(s.status.value)) else None, None);
        hide TryShared, Answer;
      case Checking(id) =>
        TryFrame(s, r, (holder: JobId) => Answered(Some(Report(id, Active)), Some(holder)));
        hide TryShared, Answer;
      case _ =>
    }
  }

  ghost predicate ObserversFit(s: State) {
    && (forall r | r in s.observers :: ObserverOk(s, r))
    && (forall r | r in s.shared :: r in s.observers && s.observers[r] == Holding)
  }

  lemma ObserveOk(s: State, r: nat)
    requires Inv(s) && r in s.observers
    ensures ObserversFit(Observed(s, r))
  {
    var s' := Observed(s, r);
    ObservedFrame(s, r);
    AnswerIsTruthful(s, r);
    ObserverFrame(s, Observe(r));
    hide Observed, Step, LockOk, StatusOk, HistoryOk;
    assert Step(s, Observe(r)) == s' by { StepObserves(s, r); }
    forall q | q in s'.observers ensures ObserverOk(s', q) {
      assert ObserverOk(s, q);
    }
  }

  lemma StepObserves(s: State, r: nat)
    requires r in s.observers
    ensures Step(s, Observe(r)) == Observed(s, r)
  {
  }

  lemma ObserversOk(s: State, e: Event)
    requires Inv(s) && !OfWorker(e)
    ensures ObserversFit(Step(s, e))
  {
    if e.Observe? && e.observer in s.observers {
      StepObserves(s, e.observer);
      ObserveOk(s, e.observer);
    } else {
      var s' := Step(s, e);
      forall r | r in s'.observers ensures ObserverOk(s', r) {
        if r in s.observers { assert ObserverOk(s, r); }
      }
    }
  }

  lemma ObserverKeeps(s: State, e: Event)
    requires Inv(s) && !OfWorker(e)
    ensures Inv(Step(s, e)) && Grows(s, Step(s, e))
  {
    ObserverFrame(s, e);
    SameJobsKeep(s, Step(s, e));
    ObserversOk(s, e);
    hide Step, ObserverOk, LockOk, StatusOk, HistoryOk, WrittenOk, Grows;
  }

  lemma StepKeeps(s: State, e: Event)
    requires Inv(s)
    ensures Inv(Step(s, e)) && Grows(s, Step(s, e))
  {
    hide Inv, Grows, Step;
    if OfWorker(e) {
      WorkerKeeps(s, e);
    } else {
      ObserverKeeps(s, e);
    }
  }

  lemma {:induction false} RunKeeps(s: State, events: seq<Event>)
    requires Inv(s)
    ensures Inv(Run(s, events))
    decreases |events|
  {
    hide Inv, Step;
    if events != [] {
      StepKeeps(s, events[0]);
      RunKeeps(Step(s, events[0]), events[1..]);
    }
  }

  /** A job has at most one final write, and none after its worker is gone. */
  lemma {:induction false} HistoryStays(s: State, events: seq<Event>)
    requires Inv(s)
    ensures Grows(s, Run(s, events))
    decreases |events|
  {
    hide Inv, Step;
    if events != [] {
      StepKeeps(s, events[0]);
      HistoryStays(Step(s, events[0]), events[1..]);
      GrowsTransitive(s, Step(s, events[0]), Run(s, events));
    } else {
      GrowsItself(s);
    }
  }

  lemma GrowsItself(s: State)
    requires Inv(s)
    ensures Grows(s, s)
  {
  }

  lemma GrowsTransitive(s: State, s': State, s'': State)
    requires Grows(s, s') && Grows(s', s'')
    ensures Grows(s, s'')
  {
  }

  // Runs, prefix by prefix.

  ghost function At(events: seq<Event>, k: nat): State
    requires k <= |events|
  {
    Run(Empty, events[..k])
  }

  lemma {:induction false} RunSnoc(s: State, events: seq<Event>, e: Event)
    ensures Run(s, events + [e]) == Step(Run(s, events), e)
    decreases |events|
  {
    hide Step;
    if events == [] {
      assert [] + [e] == [e] && [e][1..] == [];
    } else {
      assert (events + [e])[1..] == events[1..] + [e];
      RunSnoc(Step(s, events[0]), events[1..], e);
    }
  }

  lemma AtStart(events: seq<Event>)
    ensures At(events, 0) == Empty
  {
    assert events[..0] == [];
  }

  lemma AtEnd(events: seq<Event>)
    ensures At(events, |events|) == Run(Empty, events)
  {
    assert events[..|events|] == events;
  }

  lemma AtNext(events: seq<Event>, k: nat)
    requires k < |events|
    ensures At(events, k + 1) == Step(At(events, k), events[k])
  {
    hide Step;
    assert events[..k + 1] == events[..k] + [events[k]];
    RunSnoc(Empty, events[..k], events[k]);
  }

  lemma AtKeeps(events: seq<Event>, k: nat)
    requires k <= |events|
    ensures Inv(At(events, k))
  {
    RunKeeps(Empty, events[..k]);
  }

  lemma {:induction false} AtGrows(events: seq<Event>, j: nat, k: nat)
    requires j <= k <= |events|
    ensures Inv(At(events, j)) && Grows(At(events, j), At(events, k))
    decreases k - j
  {
    hide Inv, Grows, Step, At;
    AtKeeps(events, j);
    if j == k {
      GrowsItself(At(events, j));
    } else {
      AtNext(events, j);
      StepKeeps(At(events, j), events[j]);
      AtGrows(events, j + 1, k);
      GrowsTransitive(At(events, j), At(events, j + 1), At(events, k));
    }
  }

  // Calls.

  /** A call is under way: the observer is there and has not answered. */
  predicate Pending(s: State, r: nat) {
    r in s.observers && !s.observers[r].Answered?
  }

  /** The call is under way from `a` to `b`. */
  ghost predicate PendingFrom(events: seq<Event>, r: nat, a: nat, b: nat) {
    a <= b <= |events| && forall j {:trigger At(events, j)} | a <= j <= b :: Pending(At(events, j), r)
  }

  /** The answer was given by `a`, and stands at `b`. */
  ghost predicate StandsFrom(events: seq<Event>, r: nat, a: nat, b: nat, answer: Observer) {
    a <= b <= |events| && forall j {:trigger At(events, j)} | a <= j <= b ::
      r in At(events, j).observers && At(events, j).observers[r] == answer
  }

  /** In a call that is under way at `n`, the lock attempt at `l` found it held by a worker. */
  ghost predicate LockedAt(events: seq<Event>, r: nat, l: nat, n: nat, holder: JobId) {
    l < n && PendingFrom(events, r, l, n) && At(events, l).exclusive == Some(holder)
  }

  /** In a call that is under way at `n`, the record read at `q` was active. */
  ghost predicate ReadAt(events: seq<Event>, r: nat, q: nat, n: nat, id: JobId) {
    && q < n && PendingFrom(events, r, q, n)
    && At(events, q).status.Some? && At(events, q).status.value.active && At(events, q).status.value.id == id
  }

  /** The two moments of a call that matter: the lock attempt and the reading of the record. An observer
      of imports tries the lock first. */
  datatype Call = Call(import_: bool, lock: nat, read: nat)

  function First(c: Call): nat {
    if c.import_ then c.lock else c.read
  }

  function Last(c: Call): nat {
    if c.import_ then c.read else c.lock
  }

  /** The call that led to the answer that `id` is active, with the witness `holder`: it was under way at
      both moments and in between, the lock was held by the witness at the one, the record of `id` was there
      at the other, and the answer stands since. */
  ghost predicate Told(events: seq<Event>, n: nat, r: nat, id: JobId, holder: JobId, c: Call) {
    && First(c) < Last(c) < n <= |events| && PendingFrom(events, r, First(c), Last(c))
    && StandsFrom(events, r, Last(c) + 1, n, Answered(Some(Report(id, Active)), Some(holder)))
    && At(events, c.lock).exclusive == Some(holder)
    && At(events, c.read).status.Some? && At(events, c.read).status.value.id == id
    && (!c.import_ ==> At(events, c.read).status.value.active)
  }

  /** How an observer got where it is at `n`. */
  ghost predicate Story(events: seq<Event>, n: nat, r: nat)
    requires n <= |events| && r in At(events, n).observers
  {
    match At(events, n).observers[r]
    case Checking(id) => exists q: nat :: ReadAt(events, r, q, n, id)
    case Busy(holder) => exists l: nat :: LockedAt(events, r, l, n, holder)
    case Answered(Some(Report(id, Active)), Some(holder)) => exists c: Call :: Told(events, n, r, id, holder, c)
    case _ => true
  }

  /** Only its own step and its departure touch an observer. */
  lemma ObserverWaits(s: State, e: Event, r: nat)
    requires r in s.observers && r in Step(s, e).observers && e != Observe(r)
    ensures Step(s, e).observers[r] == s.observers[r]
  {
    if e.Observe? && e.observer in s.observers {
      ObservedElsewhere(s, e.observer, r);
    }
  }

  lemma ObservedElsewhere(s: State, r: nat, other: nat)
    requires r in s.observers && other in s.observers && r != other
    ensures other in Observed(s, r).observers && Observed(s, r).observers[other] == s.observers[other]
  {
  }

  lemma PendingNext(events: seq<Event>, r: nat, a: nat, b: nat)
    requires PendingFrom(events, r, a, b) && b < |events| && Pending(At(events, b + 1), r)
    ensures PendingFrom(events, r, a, b + 1)
  {
    hide At, Pending;
  }

  lemma StandsNext(events: seq<Event>, r: nat, a: nat, b: nat, answer: Observer)
    requires StandsFrom(events, r, a, b, answer) && b < |events|
    requires r in At(events, b + 1).observers && At(events, b + 1).observers[r] == answer
    ensures StandsFrom(events, r, a, b + 1, answer)
  {
    hide At;
  }

  /** A story goes on while the observer does nothing. */
  lemma StoryWaits(events: seq<Event>, n: nat, r: nat)
    requires n < |events| && r in At(events, n).observers && r in At(events, n + 1).observers
    requires At(events, n + 1).observers[r] == At(events, n).observers[r] && Story(events, n, r)
    ensures Story(events, n + 1, r)
  {
    hide At, StandsFrom, PendingFrom;
    match At(events, n).observers[r] {
      case Checking(id) =>
        var q: nat :| ReadAt(events, r, q, n, id);
        PendingNext(events, r, q, n);
        assert ReadAt(events, r, q, n + 1, id);
      case Busy(holder) =>
        var l: nat :| LockedAt(events, r, l, n, holder);
        PendingNext(events, r, l, n);
        assert LockedAt(events, r, l, n + 1, holder);
      case Answered(Some(Report(id, Active)), Some(holder)) =>
        var c: Call :| Told(events, n, r, id, holder, c);
        StandsNext(events, r, Last(c) + 1, n, Answered(Some(Report(id, Active)), Some(holder)));
        assert Told(events, n + 1, r, id, holder, c);
      case _ =>
    }
  }

  lemma PendingTwo(events: seq<Event>, r: nat, n: nat)
    requires n < |events| && Pending(At(events, n), r) && Pending(At(events, n + 1), r)
    ensures PendingFrom(events, r, n, n + 1)
  {
    hide At, Pending;
  }

  lemma StandsNow(events: seq<Event>, r: nat, n: nat, answer: Observer)
    requires n <= |events| && r in At(events, n).observers && At(events, n).observers[r] == answer
    ensures StandsFrom(events, r, n, n, answer)
  {
    hide At;
  }

  /** What a step of an observer makes of its state. */
  lemma ObservedState(s: State, r: nat)
    requires r in s.observers
    ensures r in Observed(s, r).observers
    ensures match Observed(s, r).observers[r]
            case Checking(id) => s.observers[r].Idle? && s.status.Some? && s.status.value.active && s.status.value.id == id
            case Busy(holder) => s.observers[r].Idle? && s.exclusive == Some(holder)
            case Answered(Some(Report(id, Active)), Some(holder)) =>
              || (s.observers[r] == Checking(id) && s.exclusive == Some(holder))
              || (s.observers[r] == Busy(holder) && s.status.Some? && s.status.value.id == id)
              || s.observers[r] == Answered(Some(Report(id, Active)), Some(holder))
            case _ => true
  {
  }

  /** A story goes on with the observer's own step. */
  lemma StoryGoesOn(events: seq<Event>, n: nat, r: nat)
    requires n < |events| && r in At(events, n).observers && events[n] == Observe(r) && Story(events, n, r)
    requires At(events, n + 1) == Observed(At(events, n), r)
    ensures r in At(events, n + 1).observers && Story(events, n + 1, r)
  {
    ObservedState(At(events, n), r);
    hide At, StandsFrom, PendingFrom, Observed;
    match At(events, n + 1).observers[r] {
      case Checking(id) =>
        PendingTwo(events, r, n);
        assert ReadAt(events, r, n, n + 1, id);
      case Busy(holder) =>
        PendingTwo(events, r, n);
        assert LockedAt(events, r, n, n + 1, holder);
      case Answered(Some(Report(id, Active)), Some(holder)) =>
        StandsNow(events, r, n + 1, Answered(Some(Report(id, Active)), Some(holder)));
        match At(events, n).observers[r] {
          case Checking(_) =>
            var q: nat :| ReadAt(events, r, q, n, id);
            assert Told(events, n + 1, r, id, holder, Call(false, n, q));
          case Busy(_) =>
            var l: nat :| LockedAt(events, r, l, n, holder);
            assert Told(events, n + 1, r, id, holder, Call(true, l, n));
          case _ => StoryWaits(events, n, r);
        }
      case _ =>
    }
  }

  lemma ArrivedIdle(s: State, e: Event, r: nat)
    requires r !in s.observers && r in Step(s, e).observers
    ensures Step(s, e).observers[r].Idle?
  {
  }

  /** Every observer has its story. */
  lemma {:induction false} StoryHolds(events: seq<Event>, n: nat, r: nat)
    requires n <= |events| && r in At(events, n).observers
    ensures Story(events, n, r)
    decreases n
  {
    AtStart(events);
    hide At, Step, Observed, Story;
    if n > 0 {
      var s := At(events, n - 1);
      AtNext(events, n - 1);
      if r !in s.observers {
        ArrivedIdle(s, events[n - 1], r);
        IdleStory(events, n, r);
      } else {
        StoryHolds(events, n - 1, r);
        if events[n - 1] == Observe(r) {
          StepObserves(s, r);
          StoryGoesOn(events, n - 1, r);
        } else {
          ObserverWaits(s, events[n - 1], r);
          StoryWaits(events, n - 1, r);
        }
      }
    }
  }

  lemma IdleStory(events: seq<Event>, n: nat, r: nat)
    requires n <= |events| && r in At(events, n).observers && At(events, n).observers[r].Idle?
    ensures Story(events, n, r)
  {
    hide At;
  }

  // What answers prove.

  /** In every run, whatever any observer of either kind of job answered: success and failure follow
      that job's own final write; an interrupted job lost its worker before one, and will never write
      again; and for an active job there was a moment during the call when the witness held the lock. */
  lemma AnswersAreTrue(events: seq<Event>, r: nat)
    requires r in Run(Empty, events).observers && Run(Empty, events).observers[r].Answered?
    ensures var s := Run(Empty, events);
            var report := s.observers[r].report;
            report.Some? ==>
              match report.value.outcome
              case Active => s.observers[r].seen.Some? && exists c: Call :: Told(events, |events|, r, report.value.id, s.observers[r].seen.value, c)
              case Success => report.value.id in s.finals && s.finals[report.value.id]
              case Failure => report.value.id in s.finals && !s.finals[report.value.id]
              case Interrupted => report.value.id in s.gone && report.value.id !in s.finals
  {
    AtEnd(events);
    RunKeeps(Empty, events);
    assert ObserverOk(Run(Empty, events), r);
    StoryHolds(events, |events|, r);
    hide Step, Told, Inv;
  }

  /** "Active only if a worker held the lock during the call": the observer was waiting at a moment when the
      witness held the lock, and from then until it answered. */
  lemma ActivityWasSeen(events: seq<Event>, r: nat) returns (k: nat, m: nat)
    requires r in Run(Empty, events).observers
    requires var o := Run(Empty, events).observers[r]; o.Answered? && o.report.Some? && o.report.value.outcome == Active
    ensures var answer := Run(Empty, events).observers[r];
            && k < m <= |events| && answer.seen.Some? && At(events, k).exclusive == answer.seen
            && PendingFrom(events, r, k, m - 1) && StandsFrom(events, r, m, |events|, answer)
  {
    AnswersAreTrue(events, r);
    var answer := Run(Empty, events).observers[r];
    var c: Call :| Told(events, |events|, r, answer.report.value.id, answer.seen.value, c);
    k, m := c.lock, Last(c) + 1;
    hide At, Run;
  }

  /** What the record says when it is read, and what becomes of the job it names. */
  lemma RecordRead(s: State)
    requires Inv(s) && s.status.Some?
    ensures Latest(s) == Some(s.status.value.id) && s.status.value.id in s.written && s.status.value.id in s.workers
    ensures Accounted(s, s.status.value.id)
    ensures s.status.value.active ==> s.status.value.id in s.gone || Holds(s, s.status.value.id, Running)
    ensures Holds(s, s.status.value.id, Running) ==> s.exclusive == Some(s.status.value.id)
    ensures s.exclusive == Some(s.status.value.id) <==> s.workers[s.status.value.id] != Released
  {
    hide ObserverOk;
  }

  /** A worker that holds the lock later held it since its first write. */
  lemma HolderWrote(s: State, s': State, holder: JobId)
    requires Inv(s) && Inv(s') && Grows(s, s') && s'.exclusive == Some(holder) && holder in s.written
    ensures Latest(s) == Some(holder)
  {
    hide ObserverOk;
  }

  lemma AccountedLater(s: State, s': State, job: JobId)
    requires Inv(s') && Grows(s, s') && job in s.written
    ensures job in s'.written && Accounted(s', job)
    ensures s'.exclusive != Some(job) ==> job in s'.finals || job in s'.gone
  {
    hide ObserverOk;
  }

  /** Which job an active answer names: the latest job that had made its first write when the record was
      read. That is the witness exactly when the witness had written by then and no later job had; an observer
      of services names it exactly when it had written. Any other job that is named has ended by the time of
      the answer, except that an import can have been overtaken by a job that was working when the record was
      read. */
  lemma ActiveAnswer(events: seq<Event>, r: nat, id: JobId, holder: JobId, c: Call)
    requires Told(events, |events|, r, id, holder, c)
    ensures var s, read := At(events, |events|), At(events, c.read);
            && Latest(read) == Some(id)
            && (id == holder <==> Latest(read) == Some(holder))
            && (!c.import_ ==> (id == holder <==> holder in read.written))
            && (id == holder || id in s.gone || id in s.finals || (c.import_ && Holds(read, id, Running)))
  {
    assert c.lock <= |events| && c.read <= |events|;
    var s, lock, read := At(events, |events|), At(events, c.lock), At(events, c.read);
    AtGrows(events, c.read, |events|);
    AtGrows(events, c.lock, |events|);
    AtKeeps(events, |events|);
    if !c.import_ { AtGrows(events, c.read, c.lock); }
    hide At, Inv, Grows, PendingFrom, StandsFrom;
    RecordRead(read);
    AnswerNames(read, lock, s, id, holder, c.import_);
  }

  lemma AnswerNames(read: State, lock: State, s: State, id: JobId, holder: JobId, import_: bool)
    requires Inv(read) && Inv(lock) && Inv(s) && Grows(read, s) && Grows(lock, s) && (!import_ ==> Grows(read, lock))
    requires read.status.Some? && read.status.value.id == id && lock.exclusive == Some(holder)
    ensures !import_ ==> (id == holder <==> holder in read.written)
    ensures id == holder || id in s.gone || id in s.finals || (import_ && Holds(read, id, Running))
  {
    hide Inv, Grows;
    RecordRead(read);
    if !import_ {
      if holder in read.written { HolderWrote(read, lock, holder); }
      AccountedLater(read, lock, id);
    }
    EndedStays(lock, s, id);
    EndedStays(read, s, id);
  }

  lemma EndedStays(s: State, s': State, job: JobId)
    requires Grows(s, s')
    ensures job in s.gone || job in s.finals ==> job in s'.gone || job in s'.finals
  {
  }

  /** Whether the job named in an active answer was really working at one of the two moments of the call:
      exactly when it is the witness, or had not released its lock when the record was read. */
  lemma ActiveJobWorked(events: seq<Event>, r: nat, id: JobId, holder: JobId, c: Call)
    requires Told(events, |events|, r, id, holder, c)
    ensures var lock, read := At(events, c.lock), At(events, c.read);
            && id in read.workers
            && (lock.exclusive == Some(id) || read.exclusive == Some(id) <==> id == holder || read.workers[id] != Released)
  {
    assert c.lock <= |events| && c.read <= |events|;
    AtKeeps(events, c.read);
    hide At, Inv, PendingFrom, StandsFrom;
    RecordRead(At(events, c.read));
  }

  // Each of the other cases happens.

  lemma {:induction false} RunAppend(s: State, a: seq<Event>, b: seq<Event>)
    ensures Run(s, a + b) == Run(Run(s, a), b)
    decreases |a|
  {
    hide Step;
    if a == [] {
      assert a + b == b;
    } else {
      assert (a + b)[1..] == a[1..] + b;
      RunAppend(Step(s, a[0]), a[1..], b);
    }
  }

  lemma RunTwo(s: State, e: Event, f: Event)
    ensures Run(s, [e, f]) == Step(Step(s, e), f)
  {
    hide Step;
    assert [e, f][1..] == [f] && [f][1..] == [];
    assert Run(Step(s, e), [f]) == Run(Step(Step(s, e), f), []);
  }

  lemma RunThree(s: State, e: Event, f: Event, g: Event)
    ensures Run(s, [e, f, g]) == Step(Step(Step(s, e), f), g)
  {
    hide Step;
    assert [e, f, g][1..] == [f, g];
    RunTwo(Step(s, e), f, g);
  }

  function Record(id: JobId): Option<Status> {
    Some(Status(id, true, false))
  }

  lemma Vanished(a: JobId)
    ensures Run(Empty, [Begin(a), WriteActive(a), Release(a)]) == State(Record(a), None, {}, map[a := Released], map[], [a], map[], {a})
  {
    RunThree(Empty, Begin(a), WriteActive(a), Release(a));
    hide Run;
  }

  lemma Succeeded(a: JobId, b: JobId)
    requires a != b
    ensures Run(State(Record(a), None, {}, map[a := Released], map[], [a], map[], {a}), [Begin(b), Arrive(0, false)])
            == State(Record(a), Some(b), {}, map[a := Released, b := Locked], map[0 := Idle(false)], [a], map[], {a})
  {
    RunTwo(State(Record(a), None, {}, map[a := Released], map[], [a], map[], {a}), Begin(b), Arrive(0, false));
    hide Run;
  }

  /** A job that is gone: its worker vanished, and another worker has the lock and has not written yet. */
  lemma StaleActivity(a: JobId, b: JobId)
    requires a != b
    ensures var s := Run(Empty, [Begin(a), WriteActive(a), Release(a)] + [Begin(b), Arrive(0, false)] + [Observe(0), Observe(0)]);
            && 0 in s.observers && s.observers[0] == Answered(Some(Report(a, Active)), Some(b))
            && a in s.gone && b !in s.gone
  {
    hide Run;
    RunAppend(Empty, [Begin(a), WriteActive(a), Release(a)] + [Begin(b), Arrive(0, false)], [Observe(0), Observe(0)]);
    RunAppend(Empty, [Begin(a), WriteActive(a), Release(a)], [Begin(b), Arrive(0, false)]);
    Vanished(a);
    Succeeded(a, b);
    RunTwo(State(Record(a), Some(b), {}, map[a := Released, b := Locked], map[0 := Idle(false)], [a], map[], {a}), Observe(0), Observe(0));
  }

  lemma Started(a: JobId)
    ensures Run(Empty, [Begin(a), WriteActive(a), Arrive(0, false)])
            == State(Record(a), Some(a), {}, map[a := Running], map[0 := Idle(false)], [a], map[], {})
  {
    RunThree(Empty, Begin(a), WriteActive(a), Arrive(0, false));
    hide Run;
  }

  lemma Ended(a: JobId)
    ensures Run(State(Record(a), Some(a), {}, map[a := Running], map[0 := Idle(false)], [a], map[], {}), [Observe(0), WriteFinal(a, true), Release(a)])
            == State(Some(Status(a, false, true)), None, {}, map[a := Released], map[0 := Checking(a)], [a], map[a := true], {})
  {
    RunThree(State(Record(a), Some(a), {}, map[a := Running], map[0 := Idle(false)], [a], map[], {}), Observe(0), WriteFinal(a, true), Release(a));
    hide Run;
  }

  /** A job that has finished: its final write falls between the reading of the record and the lock
      attempt, which meets the next worker. */
  lemma FinishedActivity(a: JobId, b: JobId)
    requires a != b
    ensures var s := Run(Empty, [Begin(a), WriteActive(a), Arrive(0, false)] + [Observe(0), WriteFinal(a, true), Release(a)] + [Begin(b), Observe(0)]);
            && 0 in s.observers && s.observers[0] == Answered(Some(Report(a, Active)), Some(b))
            && a in s.finals && a !in s.gone
  {
    hide Run;
    RunAppend(Empty, [Begin(a), WriteActive(a), Arrive(0, false)] + [Observe(0), WriteFinal(a, true), Release(a)], [Begin(b), Observe(0)]);
    RunAppend(Empty, [Begin(a), WriteActive(a), Arrive(0, false)], [Observe(0), WriteFinal(a, true), Release(a)]);
    Started(a);
    Ended(a);
    RunTwo(State(Some(Status(a, false, true)), None, {}, map[a := Released], map[0 := Checking(a)], [a], map[a := true], {}), Begin(b), Observe(0));
  }

  lemma Met(a: JobId)
    ensures Run(Empty, [Begin(a), Arrive(0, true), Observe(0)]) == State(None, Some(a), {}, map[a := Locked], map[0 := Busy(a)], [], map[], {})
  {
    RunThree(Empty, Begin(a), Arrive(0, true), Observe(0));
    hide Run;
  }

  lemma Replaced(a: JobId, b: JobId)
    requires a != b
    ensures Run(State(None, Some(a), {}, map[a := Locked], map[0 := Busy(a)], [], map[], {}), [Release(a), Begin(b)])
            == State(None, Some(b), {}, map[a := Released, b := Locked], map[0 := Busy(a)], [], map[], {a})
  {
    RunTwo(State(None, Some(a), {}, map[a := Locked], map[0 := Busy(a)], [], map[], {}), Release(a), Begin(b));
    hide Run;
  }

  /** An import that was overtaken: the lock attempt met one worker, and the record was already that of the
      next one, which is working. */
  lemma OvertakenActivity(a: JobId, b: JobId)
    requires a != b
    ensures var s := Run(Empty, [Begin(a), Arrive(0, true), Observe(0)] + [Release(a), Begin(b)] + [WriteActive(b), Observe(0)]);
            && 0 in s.observers && s.observers[0] == Answered(Some(Report(b, Active)), Some(a))
            && Holds(s, b, Running)
  {
    hide Run;
    RunAppend(Empty, [Begin(a), Arrive(0, true), Observe(0)] + [Release(a), Begin(b)], [WriteActive(b), Observe(0)]);
    RunAppend(Empty, [Begin(a), Arrive(0, true), Observe(0)], [Release(a), Begin(b)]);
    Met(a);
    Replaced(a, b);
    RunTwo(State(None, Some(b), {}, map[a := Released, b := Locked], map[0 := Busy(a)], [], map[], {a}), WriteActive(b), Observe(0));
  }
}
