/** One service action: checks, one dispatch, and waiting for the outcome, against services that may
    fail, settle or ignore requests at any moment. */
module ServiceAction {
  import opened Modes
  import opened Names

  datatype Action = Start | Stop | Restart

  datatype Request = Request(scope: Scope, action: Action)

  /** A unit between its states; a running one has the instance that its daemon reports, and an idle
      one may have failed. */
  datatype Phase = Idle(failed: bool) | Starting | Running(instance: nat) | Stopping | Restarting

  datatype Services = Services(user: Phase, system: Phase, next: nat)

  function Of(s: Services, scope: Scope): Phase {
    if scope.User? then s.user else s.system
  }

  function With(s: Services, scope: Scope, p: Phase): Services {
    if scope.User? then s.(user := p) else s.(system := p)
  }

  predicate BothUp(s: Services) {
    !s.user.Idle? && !s.system.Idle?
  }

  /** Instances are new: every running one was numbered before. */
  predicate Numbered(s: Services) {
    (s.user.Running? ==> s.user.instance < s.next) && (s.system.Running? ==> s.system.instance < s.next)
  }

  /** What happens by itself: a job settles, or a service fails. Nothing starts by itself. */
  datatype Move = Still | Settle(scope: Scope) | Fail(scope: Scope)

  function Moved(s: Services, m: Move): Services {
    match m
    case Still => s
    case Settle(scope) =>
      (match Of(s, scope)
       case Starting => With(s, scope, Running(s.next)).(next := s.next + 1)
       case Restarting => With(s, scope, Running(s.next)).(next := s.next + 1)
       case Stopping => With(s, scope, Idle(false))
       case _ => s)
    case Fail(scope) => if Of(s, scope).Idle? then s else With(s, scope, Idle(true))
  }

  /** What the service manager does with a request. */
  function Dispatched(s: Services, r: Request): Services {
    match r.action
    case Start => if Of(s, r.scope).Idle? then With(s, r.scope, Starting) else s
    case Stop => if Of(s, r.scope).Idle? then s else With(s, r.scope, Stopping)
    case Restart => if Of(s, r.scope).Idle? then With(s, r.scope, Starting) else With(s, r.scope, Restarting)
  }

  /** What else an inspection reports: whether the unit is loaded, whether selection and startup leave
      this mode free to run, whether the kernel lock is free or held by the unit, which lock it is, and
      whether the daemon guards its invocation and settings writes. */
  datatype Checks = Checks(loaded: bool, selected: bool, startupClear: bool, lockFree: bool, owned: bool, lock: nat, guarded: bool)

  datatype Reply = Reply(fails: bool, applied: bool, checks: Checks)

  datatype Report = Report(services: Services, checks: Checks)

  class Backend {
    const moves: nat -> Move
    const replies: nat -> Reply
    var now: nat
    var services: Services
    var dispatches: seq<Request>
    ghost var history: seq<Services>

    constructor (moves: nat -> Move, replies: nat -> Reply, services: Services)
      ensures this.moves == moves && this.replies == replies && this.services == services
      ensures now == 0 && dispatches == [] && history == [services]
    {
      this.moves, this.replies, this.services, now, dispatches, history := moves, replies, services, 0, [], [services];
    }

    /** Time passes with every question. */
    method Tick() returns (reply: Reply)
      modifies `now, `services, `history
      ensures now == old(now) + 1 && reply == replies(old(now))
      ensures services == Moved(old(services), moves(old(now))) && history == old(history) + [services]
    {
      reply := replies(now);
      services := Moved(services, moves(now));
      history := history + [services];
      now := now + 1;
    }

    method Inspect() returns (r: Option<Report>)
      modifies `now, `services, `history
      ensures now == old(now) + 1 && services == Moved(old(services), moves(old(now)))
      ensures history == old(history) + [services]
      ensures r == if replies(old(now)).fails then None else Some(Report(services, replies(old(now)).checks))
    {
      var reply := Tick();
      r := if reply.fails then None else Some(Report(services, reply.checks));
    }

    /** Asks the daemon of a running unit for its instance. */
    method Probe(scope: Scope) returns (r: Option<nat>)
      modifies `now, `services, `history
      ensures now == old(now) + 1 && services == Moved(old(services), moves(old(now)))
      ensures history == old(history) + [services]
      ensures r.Some? ==> Of(services, scope) == Running(r.value)
      ensures r.Some? <==> !replies(old(now)).fails && Of(services, scope).Running? && replies(old(now)).checks.guarded
    {
      var reply := Tick();
      var phase := Of(services, scope);
      r := if reply.fails || !phase.Running? || !reply.checks.guarded then None else Some(phase.instance);
    }

    method ReserveIdle() returns (ok: bool)
      modifies `now, `services, `history
      ensures now == old(now) + 1 && services == Moved(old(services), moves(old(now)))
      ensures history == old(history) + [services]
      ensures ok == (!replies(old(now)).fails && replies(old(now)).checks.lockFree)
    {
      var reply := Tick();
      ok := !reply.fails && reply.checks.lockFree;
    }

    method Dispatch(request: Request) returns (ok: bool)
      modifies this
      ensures now == old(now) + 1 && dispatches == old(dispatches) + [request]
      ensures var settled := Moved(old(services), moves(old(now)));
              && services == (if replies(old(now)).applied then Dispatched(settled, request) else settled)
              && history == old(history) + [services]
      ensures ok == !replies(old(now)).fails
    {
      var reply := replies(now);
      services := Moved(services, moves(now));
      if reply.applied {
        services := Dispatched(services, request);
      }
      history := history + [services];
      dispatches := dispatches + [request];
      now := now + 1;
      ok := !reply.fails;
    }
  }

  // Safety of one moment.

  /** Both modes stay apart when nothing was dispatched. */
  lemma MovesKeepApart(s: Services, m: Move)
    ensures BothUp(Moved(s, m)) ==> BothUp(s)
    ensures Of(s, User).Idle? ==> Of(Moved(s, m), User).Idle?
    ensures Of(s, System).Idle? ==> Of(Moved(s, m), System).Idle?
    ensures Numbered(s) ==> Numbered(Moved(s, m)) && Moved(s, m).next >= s.next
  {
  }

  /** The checks before a dispatch. */
  predicate Preflight(report: Report, r: Request) {
    && report.checks.loaded
    && (match r.action
        case Start => Of(report.services, r.scope).Idle? && report.checks.lockFree
        case Stop => Of(report.services, r.scope).Running? && report.checks.owned
        case Restart => Of(report.services, r.scope).Running? && report.checks.owned)
    && (!r.action.Stop? ==> report.checks.selected && Of(report.services, Other(r.scope)).Idle? && report.checks.startupClear)
  }

  /** No step of `history` after `before` has both modes up unless the start had, and instances stay
      numbered. */
  ghost predicate Apart(start: Services, before: nat, history: seq<Services>, end: Services) {
    && before <= |history| && Numbered(end) && start.next <= end.next
    && (!BothUp(start) ==> !BothUp(end))
    && forall i | before <= i < |history| :: BothUp(history[i]) ==> BothUp(start)
  }

  lemma ApartStep(start: Services, before: nat, history: seq<Services>, s: Services, s': Services)
    requires Apart(start, before, history, s) && (BothUp(s') ==> BothUp(s)) && Numbered(s') && s.next <= s'.next
    ensures Apart(start, before, history + [s'], s')
  {
  }

  /** The outcome a request asks for, as it was observed. */
  predicate Reached(s: Services, r: Request, previous: Option<nat>) {
    match r.action
    case Stop => Of(s, r.scope) == Idle(false)
    case _ => Of(s, r.scope).Running? && (previous.Some? ==> Of(s, r.scope).instance != previous.value)
  }

  /** What an inspection at `now` and the question after it must show for the outcome to be accepted. */
  predicate Shows(backend: Backend, now: nat, s: Services, r: Request, previous: Option<nat>, lock: nat) {
    var first, second := backend.replies(now), backend.replies(now + 1);
    var s1 := Moved(s, backend.moves(now));
    var s2 := Moved(s1, backend.moves(now + 1));
    && !first.fails && first.checks.lock == lock && !second.fails
    && if r.action.Stop? then Of(s1, r.scope) == Idle(false) && first.checks.lockFree && second.checks.lockFree
       else
         && Of(s1, r.scope).Running? && first.checks.owned && Of(s2, r.scope).Running? && second.checks.guarded
         && (previous.Some? ==> Of(s2, r.scope).instance != previous.value)
  }

  /** What the checks before a dispatch must show, at `now` and at the question after it. */
  predicate Cleared(backend: Backend, now: nat, s: Services, r: Request, progress: nat) {
    var first, second := backend.replies(now), backend.replies(now + 1);
    var s1 := Moved(s, backend.moves(now));
    var s2 := Moved(s1, backend.moves(now + 1));
    && progress >= 2 && !first.fails && Preflight(Report(s1, first.checks), r) && !second.fails
    && if r.action.Start? then second.checks.lockFree else Of(s2, r.scope).Running? && second.checks.guarded
  }

  /** The dispatch is acknowledged, and its progress can be reported. */
  predicate Accepted(backend: Backend, now: nat, s: Services, r: Request, progress: nat) {
    progress >= 3 && Cleared(backend, now, s, r, progress) && !backend.replies(now + 2).fails
  }

  /** The services after the dispatch that follows two questions at `now`. */
  function AfterDispatch(backend: Backend, now: nat, s: Services, r: Request): Services {
    var s1 := Moved(s, backend.moves(now));
    var s2 := Moved(s1, backend.moves(now + 1));
    var s3 := Moved(s2, backend.moves(now + 2));
    if backend.replies(now + 2).applied then Dispatched(s3, r) else s3
  }

  /** The instance a dispatch has to replace, as it was probed before. */
  function Probed(backend: Backend, now: nat, s: Services, r: Request): Option<nat> {
    var s1 := Moved(s, backend.moves(now));
    var s2 := Moved(s1, backend.moves(now + 1));
    if r.action.Start? || !Of(s2, r.scope).Running? then None else Some(Of(s2, r.scope).instance)
  }

  /** The outcome shows at the first inspection after the dispatch. */
  predicate ShowsNext(backend: Backend, now: nat, s: Services, r: Request) {
    Shows(backend, now + 3, AfterDispatch(backend, now, s, r), r, Probed(backend, now, s, r), backend.replies(now).checks.lock)
  }

  predicate ShowsAtOnce(backend: Backend, now: nat, s: Services, r: Request, progress: nat) {
    Accepted(backend, now, s, r, progress) && ShowsNext(backend, now, s, r)
  }

  /** A first inspection that failed, or shows that a check failed that this action needs. */
  predicate Blocked(first: Reply, s: Services, r: Request) {
    var target, other := if r.scope.User? then s.user else s.system, if r.scope.User? then s.system else s.user;
    || first.fails || !first.checks.loaded
    || (r.action.Start? && (!target.Idle? || !first.checks.lockFree))
    || (!r.action.Start? && (!target.Running? || !first.checks.owned))
    || (!r.action.Stop? && (!first.checks.selected || !other.Idle? || !first.checks.startupClear))
  }

  /** Each failed check stops the action, and nothing else in the first inspection does. */
  lemma BlockedIsNotCleared(backend: Backend, now: nat, s: Services, r: Request, progress: nat)
    ensures var first := backend.replies(now);
            var s1 := Moved(s, backend.moves(now));
            && (Blocked(first, s1, r) <==> first.fails || !Preflight(Report(s1, first.checks), r))
            && (Blocked(first, s1, r) ==> !Cleared(backend, now, s, r, progress))
  {
    hide Moved;
  }

  lemma ClearedParts(backend: Backend, now: nat, s: Services, r: Request, progress: nat)
    ensures var first, second := backend.replies(now), backend.replies(now + 1);
            var s1 := Moved(s, backend.moves(now));
            var s2 := Moved(s1, backend.moves(now + 1));
            var verified := !second.fails && if r.action.Start? then second.checks.lockFree
                                             else Of(s2, r.scope).Running? && second.checks.guarded;
            Cleared(backend, now, s, r, progress) <==>
              progress >= 2 && !first.fails && Preflight(Report(s1, first.checks), r) && verified
    ensures Accepted(backend, now, s, r, progress) <==>
              progress >= 3 && Cleared(backend, now, s, r, progress) && !backend.replies(now + 2).fails
  {
  }

  /** One inspection while waiting: whether the outcome is there. */
  method Check(backend: Backend, r: Request, previous: Option<nat>, lock: nat, ghost start: Services, ghost before: nat)
    returns (done: bool, ghost at: Services)
    requires Apart(start, before, backend.history, backend.services)
    modifies backend`now, backend`services, backend`history
    ensures Apart(start, before, backend.history, backend.services) && backend.now > old(backend.now)
    ensures old(backend.history) <= backend.history
    ensures done ==> at in backend.history[|old(backend.history)|..] && Reached(at, r, previous)
    ensures done <==> Shows(backend, old(backend.now), old(backend.services), r, previous, lock)
    ensures done && !r.action.Stop? ==> at == backend.services
  {
    hide Apart;
    at := backend.services;
    MovesKeepApart(backend.services, backend.moves(backend.now));
    ApartNumbered(start, before, backend.history, backend.services);
    ApartStep(start, before, backend.history, backend.services, Moved(backend.services, backend.moves(backend.now)));
    var current := backend.Inspect();
    at := backend.services;
    if current.None? || current.value.checks.lock != lock {
      return false, at;
    }
    MovesKeepApart(backend.services, backend.moves(backend.now));
    ApartNumbered(start, before, backend.history, backend.services);
    ApartStep(start, before, backend.history, backend.services, Moved(backend.services, backend.moves(backend.now)));
    if r.action.Stop? {
      if Of(current.value.services, r.scope) == Idle(false) && current.value.checks.lockFree {
        done := backend.ReserveIdle();
        assert at == backend.history[|old(backend.history)|];
        return;
      }
    } else if Of(current.value.services, r.scope).Running? && current.value.checks.owned {
      var info := backend.Probe(r.scope);
      at := backend.services;
      assert at == backend.history[|old(backend.history)| + 1];
      done := info.Some? && (previous.Some? ==> previous.value != info.value);
      return;
    }
    done := false;
  }

  lemma ApartNumbered(start: Services, before: nat, history: seq<Services>, s: Services)
    requires Apart(start, before, history, s)
    ensures Numbered(s)
  {
  }

  /** After the checks passed, dispatching keeps the modes apart, however the services moved since. */
  lemma DispatchKeepsApart(report: Report, s: Services, r: Request)
    requires Preflight(report, r) && Numbered(s)
    requires Of(report.services, Other(r.scope)).Idle? ==> Of(s, Other(r.scope)).Idle?
    requires BothUp(s) ==> BothUp(report.services)
    ensures BothUp(Dispatched(s, r)) ==> BothUp(s)
    ensures Numbered(Dispatched(s, r)) && Dispatched(s, r).next == s.next
  {
  }

  /** The previous instance of a running service, or the idle hardware, is verified before anything is
      dispatched. */
  method Verify(backend: Backend, report: Report, r: Request, ghost start: Services, ghost before: nat)
    returns (ok: bool, previous: Option<nat>)
    requires Apart(start, before, backend.history, backend.services)
    requires Of(report.services, Other(r.scope)).Idle? ==> Of(backend.services, Other(r.scope)).Idle?
    modifies backend`now, backend`services, backend`history
    ensures Apart(start, before, backend.history, backend.services) && old(backend.history) <= backend.history
    ensures backend.now >= old(backend.now)
    ensures Of(report.services, Other(r.scope)).Idle? ==> Of(backend.services, Other(r.scope)).Idle?
    ensures BothUp(backend.services) ==> BothUp(old(backend.services))
    ensures ok && !r.action.Start? ==> Of(backend.services, r.scope).Running? && previous == Some(Of(backend.services, r.scope).instance)
    ensures ok && r.action.Start? ==> previous.None?
    ensures backend.now == old(backend.now) + 1 && backend.services == Moved(old(backend.services), backend.moves(old(backend.now)))
    ensures ok <==> !backend.replies(old(backend.now)).fails
                    && if r.action.Start? then backend.replies(old(backend.now)).checks.lockFree
                       else Of(backend.services, r.scope).Running? && backend.replies(old(backend.now)).checks.guarded
  {
    hide Apart;
    MovesKeepApart(backend.services, backend.moves(backend.now));
    ApartNumbered(start, before, backend.history, backend.services);
    ApartStep(start, before, backend.history, backend.services, Moved(backend.services, backend.moves(backend.now)));
    if r.action.Start? {
      ok := backend.ReserveIdle();
      previous := None;
    } else {
      previous := backend.Probe(r.scope);
      ok := previous.Some?;
    }
  }

  /** The part of an action up to its dispatch: checks, the previous instance or the idle hardware, and the
      request. `progress` counts the progress reports that can be delivered. */
  method Ask(backend: Backend, r: Request, progress: nat)
    returns (ok: bool, lock: nat, ghost previous: Option<nat>, seen: Option<nat>)
    requires Numbered(backend.services)
    modifies backend
    ensures backend.dispatches ==
            old(backend.dispatches) + if Cleared(backend, old(backend.now), old(backend.services), r, progress) then [r] else []
    ensures ok <==> Accepted(backend, old(backend.now), old(backend.services), r, progress)
    ensures ok ==> Cleared(backend, old(backend.now), old(backend.services), r, progress)
    ensures ok ==> previous == seen == Probed(backend, old(backend.now), old(backend.services), r)
    ensures ok && r.action.Restart? ==> previous.Some?
    ensures ok ==> backend.now == old(backend.now) + 3 && lock == backend.replies(old(backend.now)).checks.lock
    ensures ok ==> backend.services == AfterDispatch(backend, old(backend.now), old(backend.services), r)
    ensures Apart(old(backend.services), |old(backend.history)|, backend.history, backend.services)
    ensures old(backend.history) <= backend.history && backend.now >= old(backend.now)
  {
    hide Apart, Preflight, Cleared, Accepted, Moved, Dispatched;
    ghost var start, before, was := backend.services, |backend.history|, backend.history;
    ClearedParts(backend, backend.now, start, r, progress);
    ok, lock, previous, seen := false, 0, None, None;
    ApartStart(start, was);
    if progress < 1 {
      return;
    }
    MovesKeepApart(backend.services, backend.moves(backend.now));
    ApartStep(start, before, backend.history, backend.services, Moved(backend.services, backend.moves(backend.now)));
    var report := backend.Inspect();
    if report.None? || !Preflight(report.value, r) {
      return;
    }
    lock := report.value.checks.lock;
    var verified;
    verified, seen := Verify(backend, report.value, r, start, before);
    previous := seen;
    if !verified || progress < 2 {
      return;
    }
    ghost var settled := Moved(backend.services, backend.moves(backend.now));
    MovesKeepApart(backend.services, backend.moves(backend.now));
    ApartNumbered(start, before, backend.history, backend.services);
    DispatchKeepsApart(report.value, settled, r);
    ApartStep(start, before, backend.history, backend.services,
              if backend.replies(backend.now).applied then Dispatched(settled, r) else settled);
    var accepted := backend.Dispatch(r);
    ok := accepted && progress >= 3;
  }

  /** Runs one action: checks, at most one dispatch, then waiting until the deadline. */
  method RunAction(backend: Backend, r: Request, progress: nat, deadline: nat) returns (ok: bool, ghost at: Services, ghost previous: Option<nat>)
    requires Numbered(backend.services)
    modifies backend
    // The request is dispatched once, exactly when the checks before it pass.
    ensures backend.dispatches ==
            old(backend.dispatches) + if Cleared(backend, old(backend.now), old(backend.services), r, progress) then [r] else []
    ensures ok ==> Cleared(backend, old(backend.now), old(backend.services), r, progress)
    // No dispatch when the first inspection shows that any check failed that this action needs.
    ensures Blocked(backend.replies(old(backend.now)), Moved(old(backend.services), backend.moves(old(backend.now))), r) ==>
              backend.dispatches == old(backend.dispatches) && !ok
    // An accepted request whose outcome shows at once succeeds.
    ensures old(backend.now) + 3 < deadline && ShowsAtOnce(backend, old(backend.now), old(backend.services), r, progress) ==> ok
    // An accepted request fails only at the deadline.
    ensures !ok && Accepted(backend, old(backend.now), old(backend.services), r, progress) ==> backend.now >= deadline
    ensures ok ==> old(backend.history) <= backend.history && at in backend.history[|old(backend.history)|..] && Reached(at, r, previous)
    // A restart is over when another instance runs than the one probed before.
    ensures ok ==> previous == Probed(backend, old(backend.now), old(backend.services), r)
    ensures ok && r.action.Restart? ==> previous.Some?
    ensures ok && !r.action.Stop? ==> at == backend.services
    ensures ok ==> backend.now > old(backend.now) + 3
    ensures Apart(old(backend.services), |old(backend.history)|, backend.history, backend.services)
    ensures old(backend.history) <= backend.history && backend.now >= old(backend.now)
  {
    BlockedIsNotCleared(backend, backend.now, backend.services, r, progress);
    hide Apart, Reached, Cleared, Accepted, Moved, Shows, Blocked, Probed, AfterDispatch;
    at := backend.services;
    var lock: nat, seen: Option<nat>;
    ok, lock, previous, seen := Ask(backend, r, progress);
    if ok {
      ok, at := Wait(backend, r, seen, lock, deadline, old(backend.services), |old(backend.history)|);
    }
  }

  /** Inspects until the outcome is there or the deadline has passed; nothing is dispatched. */
  method Wait(backend: Backend, r: Request, previous: Option<nat>, lock: nat, deadline: nat, ghost start: Services, ghost before: nat)
    returns (done: bool, ghost at: Services)
    requires Apart(start, before, backend.history, backend.services) && before <= |backend.history|
    modifies backend`now, backend`services, backend`history
    ensures Apart(start, before, backend.history, backend.services)
    ensures old(backend.history) <= backend.history && backend.now >= old(backend.now)
    ensures done ==> at in backend.history[before..] && Reached(at, r, previous) && backend.now > old(backend.now)
    ensures !done ==> backend.now >= deadline
    ensures old(backend.now) < deadline && Shows(backend, old(backend.now), old(backend.services), r, previous, lock) ==> done
    ensures done && !r.action.Stop? ==> at == backend.services
    ensures old(backend.now) >= deadline ==> !done && backend.now == old(backend.now)
  {
    hide Apart, Reached, Shows;
    at := backend.services;
    ghost var s0, now0 := backend.services, backend.now;
    while backend.now < deadline
      invariant Apart(start, before, backend.history, backend.services)
      invariant backend.now == now0 ==> backend.services == s0
      invariant backend.now > now0 ==> now0 < deadline && !Shows(backend, now0, s0, r, previous, lock)
      invariant old(backend.history) <= backend.history && backend.now >= old(backend.now)
      decreases deadline - backend.now
    {
      ghost var seen := backend.history;
      done, at := Check(backend, r, previous, lock, start, before);
      if done {
        Suffix(seen, backend.history, before, at);
        return;
      }
    }
    done := false;
  }

  lemma Suffix(a: seq<Services>, b: seq<Services>, before: nat, x: Services)
    requires a <= b && before <= |a| && x in b[|a|..]
    ensures x in b[before..]
  {
    var i :| 0 <= i < |b[|a|..]| && b[|a|..][i] == x;
    assert b[before..][|a| - before + i] == x;
  }

  lemma ApartStart(s: Services, history: seq<Services>)
    requires Numbered(s)
    ensures Apart(s, |history|, history, s)
  {
  }

  lemma ApartCompose(a: Services, h: seq<Services>, b: Services, h': seq<Services>, c: Services, h'': seq<Services>)
    requires Apart(a, |h|, h', b) && Apart(b, |h'|, h'', c) && h <= h' <= h''
    ensures Apart(a, |h|, h'', c)
  {
    forall i | |h| <= i < |h''| ensures BothUp(h''[i]) ==> BothUp(a) {
      if i < |h'| { assert h''[i] == h'[i]; }
    }
  }

  /** Every question is answered, every job settles, and every check passes: the lock is free until the
      service is asked to start and its own afterwards, and the other way round for a stop. */
  ghost predicate Cooperative(backend: Backend, r: Request, now: nat) {
    forall i: nat {:trigger backend.replies(i)} | i >= now ::
      var reply := backend.replies(i);
      && backend.moves(i) == Settle(r.scope)
      && !reply.fails && reply.applied && reply.checks.lock == backend.replies(now).checks.lock
      && reply.checks.loaded && reply.checks.selected && reply.checks.startupClear && reply.checks.guarded
      && (reply.checks.lockFree <==> if i < now + 3 then r.action.Start? else r.action.Stop?)
      && (reply.checks.owned <==> if i < now + 3 then !r.action.Start? else !r.action.Stop?)
  }

  /** The target is where the action starts from, and nothing but a stop happens beside the other mode. */
  predicate Startable(s: Services, r: Request) {
    var target, other := if r.scope.User? then s.user else s.system, if r.scope.User? then s.system else s.user;
    (if r.action.Start? then target.Idle? else target.Running?) && (r.action.Stop? || other.Idle?)
  }

  lemma CooperativeShows(backend: Backend, r: Request, now: nat, s: Services, progress: nat)
    requires Cooperative(backend, r, now) && Startable(s, r) && Numbered(s) && progress >= 3
    ensures Accepted(backend, now, s, r, progress) && ShowsNext(backend, now, s, r)
    ensures r.action.Restart? ==> Of(s, r.scope).Running? && Probed(backend, now, s, r) == Some(Of(s, r.scope).instance)
  {
    assert backend.replies(now).applied && backend.replies(now + 1).applied && backend.replies(now + 2).applied;
    assert backend.replies(now + 3).applied && backend.replies(now + 4).applied;
    assert Moved(s, Settle(r.scope)) == s;
  }

  /** Start, stop and restart each work: they dispatch once and reach their outcome, a restart with a new
      instance. */
  method RunCooperative(backend: Backend, r: Request, progress: nat, deadline: nat) returns (ok: bool, ghost at: Services)
    requires Numbered(backend.services) && Startable(backend.services, r) && Cooperative(backend, r, backend.now)
    requires progress >= 3 && deadline > backend.now + 3
    modifies backend
    ensures ok && backend.dispatches == old(backend.dispatches) + [r]
    ensures old(backend.history) <= backend.history && at in backend.history[|old(backend.history)|..]
    ensures var target := if r.scope.User? then at.user else at.system;
            if r.action.Stop? then target == Idle(false) else target.Running?
    ensures var was, target := if r.scope.User? then old(backend.services).user else old(backend.services).system,
                               if r.scope.User? then at.user else at.system;
            r.action.Restart? ==> was.Running? && target.Running? && target.instance != was.instance
  {
    CooperativeShows(backend, r, backend.now, backend.services, progress);
    AcceptedIsCleared(backend, backend.now, backend.services, r, progress);
    hide Cooperative, Startable, Accepted, Cleared, ShowsNext, Apart, Probed;
    ghost var previous: Option<nat>;
    ok, at, previous := RunAction(backend, r, progress, deadline);
  }

  lemma AcceptedIsCleared(backend: Backend, now: nat, s: Services, r: Request, progress: nat)
    requires Accepted(backend, now, s, r, progress)
    ensures Cleared(backend, now, s, r, progress)
  {
    hide Cleared;
  }

  /** Every sequence of actions, whatever fails, settles late or is ignored: if only dispatched actions
      start services and the two modes are apart at the start, they are never both up. */
  method RunAll(backend: Backend, requests: seq<Request>, progress: seq<nat>, deadlines: seq<nat>)
    requires Numbered(backend.services) && !BothUp(backend.services)
    requires |progress| == |requests| && |deadlines| == |requests|
    modifies backend
    ensures !BothUp(backend.services) && |backend.dispatches| <= |old(backend.dispatches)| + |requests|
    ensures old(backend.history) <= backend.history
    ensures forall i | |old(backend.history)| <= i < |backend.history| :: !BothUp(backend.history[i])
  {
    ghost var start, h := backend.services, backend.history;
    ApartStart(start, h);
    for k := 0 to |requests|
      invariant h <= backend.history && Apart(start, |h|, backend.history, backend.services)
      invariant |backend.dispatches| <= |old(backend.dispatches)| + k
    {
      ghost var middle, h' := backend.services, backend.history;
      ApartNumbered(start, |h|, backend.history, backend.services);
      var _, _, _ := RunAction(backend, requests[k], progress[k], deadlines[k]);
      ApartCompose(start, h, middle, h', backend.services, backend.history);
    }
  }

  // The loops of a mode switch around an action.

  /** What two questions at `now` must show for a selected daemon to be verified. */
  predicate DaemonShows(backend: Backend, now: nat, s: Services, scope: Scope) {
    var first, second := backend.replies(now), backend.replies(now + 1);
    var s1 := Moved(s, backend.moves(now));
    var s2 := Moved(s1, backend.moves(now + 1));
    && !first.fails && Of(s1, scope).Running? && Of(s1, Other(scope)).Idle? && first.checks.owned
    && !second.fails && Of(s2, scope).Running? && second.checks.guarded
  }

  /** A selected daemon is verified while the other mode is idle. */
  method VerifyDaemon(backend: Backend, scope: Scope, ghost start: Services, ghost before: nat) returns (ok: bool)
    requires Apart(start, before, backend.history, backend.services)
    modifies backend`now, backend`services, backend`history
    ensures Apart(start, before, backend.history, backend.services) && old(backend.history) <= backend.history
    ensures backend.now >= old(backend.now)
    ensures ok <==> DaemonShows(backend, old(backend.now), old(backend.services), scope)
    ensures ok ==> Of(backend.services, scope).Running? && Of(backend.services, Other(scope)).Idle?
  {
    hide Apart;
    Observed(backend, start, before);
    var report := backend.Inspect();
    if report.None? || !Of(report.value.services, scope).Running? || !Of(report.value.services, Other(scope)).Idle?
       || !report.value.checks.owned {
      return false;
    }
    MovesKeepApart(backend.services, backend.moves(backend.now));
    Observed(backend, start, before);
    var info := backend.Probe(scope);
    ok := info.Some?;
  }

  /** The services after the first look of a loop. */
  function FirstLook(backend: Backend, now: nat, s: Services): Services {
    Moved(s, backend.moves(now))
  }

  /** An action that can start at `now` and meets nothing but cooperation. */
  ghost predicate WorksFrom(backend: Backend, now: nat, s: Services, r: Request, progress: nat, deadline: nat) {
    Startable(s, r) && Numbered(s) && Cooperative(backend, r, now) && progress >= 3 && deadline > now + 3
  }

  /** What the first look decides about a start: whether it is dispatched, and with what result. */
  ghost predicate StartDecides(backend: Backend, now: nat, s: Services, scope: Scope, progress: nat, deadline: nat,
                               before: seq<Request>, after: seq<Request>, ok: bool) {
    var s1 := FirstLook(backend, now, s);
    var r := Request(scope, Start);
    && (backend.replies(now).fails ==> !ok && after == before)
    && (!backend.replies(now).fails && Of(s1, scope).Idle? ==>
          after == before + if Cleared(backend, now + 1, s1, r, progress) then [r] else [])
    && (!backend.replies(now).fails && Of(s1, scope).Running? && DaemonShows(backend, now + 1, s1, scope) ==> ok && after == before)
    && (!backend.replies(now).fails && WorksFrom(backend, now + 1, s1, r, progress, deadline) ==> ok && after == before + [r])
  }

  lemma StartFailed(backend: Backend, now: nat, s: Services, scope: Scope, progress: nat, deadline: nat, before: seq<Request>)
    ensures backend.replies(now).fails ==> StartDecides(backend, now, s, scope, progress, deadline, before, before, false)
    ensures !backend.replies(now).fails && Of(FirstLook(backend, now, s), scope).Running? && DaemonShows(backend, now + 1, FirstLook(backend, now, s), scope) ==>
              StartDecides(backend, now, s, scope, progress, deadline, before, before, true)
  {
    hide Moved, DaemonShows, Cleared, Cooperative;
  }

  /** When the first look shows neither, a later one decides. */
  lemma StartLater(backend: Backend, now: nat, s: Services, scope: Scope, progress: nat, deadline: nat, before: seq<Request>, after: seq<Request>, ok: bool)
    requires !backend.replies(now).fails && !Of(FirstLook(backend, now, s), scope).Idle?
    requires Of(FirstLook(backend, now, s), scope).Running? ==> !DaemonShows(backend, now + 1, FirstLook(backend, now, s), scope)
    ensures StartDecides(backend, now, s, scope, progress, deadline, before, after, ok)
  {
    hide Moved, DaemonShows, Cleared, Cooperative;
  }

  lemma StartIdle(backend: Backend, now: nat, s: Services, scope: Scope, progress: nat, deadline: nat,
                  before: seq<Request>, after: seq<Request>, started: bool, verified: bool)
    requires !backend.replies(now).fails && Of(FirstLook(backend, now, s), scope).Idle?
    requires after == before + if Cleared(backend, now + 1, FirstLook(backend, now, s), Request(scope, Start), progress) then [Request(scope, Start)] else []
    requires now + 4 < deadline && ShowsAtOnce(backend, now + 1, FirstLook(backend, now, s), Request(scope, Start), progress) ==> started
    requires started && WorksFrom(backend, now + 1, FirstLook(backend, now, s), Request(scope, Start), progress, deadline) ==> verified
    ensures StartDecides(backend, now, s, scope, progress, deadline, before, after, started && verified)
  {
    var s1, r := FirstLook(backend, now, s), Request(scope, Start);
    hide Moved, DaemonShows, Cleared, Cooperative, ShowsNext, Accepted;
    if WorksFrom(backend, now + 1, s1, r, progress, deadline) {
      CooperativeShows(backend, r, now + 1, s1, progress);
      AcceptedIsCleared(backend, now + 1, s1, r, progress);
    }
  }

  /** A daemon that runs after its cooperative start is verified at any later moment. */
  lemma CooperativeDaemon(backend: Backend, scope: Scope, from: nat, now: nat, s: Services)
    requires now >= from + 3 && Of(s, scope).Running? && Of(s, Other(scope)).Idle?
    requires Cooperative(backend, Request(scope, Start), from)
    ensures DaemonShows(backend, now, s, scope)
  {
    assert backend.replies(now).applied && backend.replies(now + 1).applied;
  }

  lemma OtherStaysIdle(start: Services, before: nat, history: seq<Services>, end: Services, scope: Scope)
    requires Apart(start, before, history, end) && Startable(start, Request(scope, Start)) && Of(end, scope).Running?
    ensures Of(end, Other(scope)).Idle?
  {
  }

  /** Starts the selected mode: an idle one is started once, a running one is only verified, and a
      changing one is waited for. */
  method StartSelected(backend: Backend, scope: Scope, progress: nat, deadline: nat) returns (ok: bool)
    requires Numbered(backend.services)
    modifies backend
    ensures |backend.dispatches| <= |old(backend.dispatches)| + 1 && old(backend.dispatches) <= backend.dispatches
    ensures StartDecides(backend, old(backend.now), old(backend.services), scope, progress, deadline,
                         old(backend.dispatches), backend.dispatches, ok)
    ensures ok ==> Of(backend.services, scope).Running? && Of(backend.services, Other(scope)).Idle?
    ensures old(backend.history) <= backend.history
    ensures Apart(old(backend.services), |old(backend.history)|, backend.history, backend.services)
  {
    hide Apart, StartDecides, DaemonShows, Cleared, Accepted, ShowsAtOnce, Moved, WorksFrom, Blocked, Probed, Reached;
    ghost var start, h, now0, first := backend.services, backend.history, backend.now, true;
    ghost var was := backend.dispatches;
    ApartStart(start, h);
    while true
      invariant h <= backend.history && Apart(start, |h|, backend.history, backend.services)
      invariant backend.dispatches == was
      invariant first ==> backend.now == now0 && backend.services == start
      invariant !first ==> forall dispatched: seq<Request>, result: bool ::
                  StartDecides(backend, now0, start, scope, progress, deadline, was, dispatched, result)
      decreases if backend.now < deadline then deadline - backend.now else 0
    {
      ghost var now, s := backend.now, backend.services;
      Observed(backend, start, |h|);
      StartFailed(backend, now, s, scope, progress, deadline, was);
      var report := backend.Inspect();
      if report.None? {
        return false;
      }
      if Of(report.value.services, scope).Idle? {
        ghost var middle, h' := backend.services, backend.history;
        ApartNumbered(start, |h|, backend.history, backend.services);
        ghost var at, previous;
        var started;
        started, at, previous := RunAction(backend, Request(scope, Start), progress, deadline);
        ghost var dispatched, h'', end, later := backend.dispatches, backend.history, backend.services, backend.now;
        ApartCompose(start, h, middle, h', end, h'');
        if !started {
          StartIdle(backend, now, s, scope, progress, deadline, was, dispatched, false, false);
          return false;
        }
        StartedDaemon(backend, scope, now + 1, later, middle, |h'|, h'', end, previous, progress, deadline);
        ok := VerifyDaemon(backend, scope, start, |h|);
        StartIdle(backend, now, s, scope, progress, deadline, was, dispatched, true, ok);
        return;
      }
      ghost var seen := report.value.services;
      if Of(report.value.services, scope).Running? {
        ok := VerifyDaemon(backend, scope, start, |h|);
        if ok {
          return;
        }
      }
      if first {
        forall dispatched: seq<Request>, result: bool
          ensures StartDecides(backend, now0, start, scope, progress, deadline, was, dispatched, result)
        {
          StartLater(backend, now0, start, scope, progress, deadline, was, dispatched, result);
        }
      }
      first := false;
      if backend.now >= deadline {
        return false;
      }
    }
  }

  lemma StartedDaemon(backend: Backend, scope: Scope, from: nat, now: nat, start: Services, before: nat, history: seq<Services>, end: Services,
                      previous: Option<nat>, progress: nat, deadline: nat)
    requires Apart(start, before, history, end) && now >= from + 3 && Reached(end, Request(scope, Start), previous)
    ensures WorksFrom(backend, from, start, Request(scope, Start), progress, deadline) ==> DaemonShows(backend, now, end, scope)
  {
    hide Cooperative, Startable, Apart, DaemonShows;
    if WorksFrom(backend, from, start, Request(scope, Start), progress, deadline) {
      OtherStaysIdle(start, before, history, end, scope);
      CooperativeDaemon(backend, scope, from, now, end);
    }
  }

  lemma Observed(backend: Backend, start: Services, before: nat)
    requires Apart(start, before, backend.history, backend.services)
    ensures Apart(start, before, backend.history + [Moved(backend.services, backend.moves(backend.now))],
                  Moved(backend.services, backend.moves(backend.now)))
  {
    MovesKeepApart(backend.services, backend.moves(backend.now));
    ApartStep(start, before, backend.history, backend.services, Moved(backend.services, backend.moves(backend.now)));
  }

  /** What the first look decides about a stop: whether it is dispatched, and with what result. */
  ghost predicate StopDecides(backend: Backend, now: nat, s: Services, scope: Scope, progress: nat, deadline: nat,
                              before: seq<Request>, after: seq<Request>, ok: bool) {
    var s1 := FirstLook(backend, now, s);
    var r := Request(scope, Stop);
    && (backend.replies(now).fails ==> !ok && after == before)
    && (!backend.replies(now).fails && Of(s1, scope).Idle? ==> ok && after == before)
    && (!backend.replies(now).fails && Of(s1, scope).Running? ==>
          after == before + if Cleared(backend, now + 1, s1, r, progress) then [r] else [])
    && (!backend.replies(now).fails && WorksFrom(backend, now + 1, s1, r, progress, deadline) ==> ok && after == before + [r])
  }

  lemma StopAtOnce(backend: Backend, now: nat, s: Services, scope: Scope, progress: nat, deadline: nat, before: seq<Request>)
    ensures backend.replies(now).fails ==> StopDecides(backend, now, s, scope, progress, deadline, before, before, false)
    ensures !backend.replies(now).fails && Of(FirstLook(backend, now, s), scope).Idle? ==>
              StopDecides(backend, now, s, scope, progress, deadline, before, before, true)
  {
    hide Moved, Cleared, Cooperative;
  }

  lemma StopLater(backend: Backend, now: nat, s: Services, scope: Scope, progress: nat, deadline: nat, before: seq<Request>, after: seq<Request>, ok: bool)
    requires !backend.replies(now).fails && !Of(FirstLook(backend, now, s), scope).Idle? && !Of(FirstLook(backend, now, s), scope).Running?
    ensures StopDecides(backend, now, s, scope, progress, deadline, before, after, ok)
  {
    hide Moved, Cleared, Cooperative;
  }

  lemma StopRuns(backend: Backend, now: nat, s: Services, scope: Scope, progress: nat, deadline: nat, before: seq<Request>, after: seq<Request>, ok: bool)
    requires !backend.replies(now).fails && Of(FirstLook(backend, now, s), scope).Running?
    requires after == before + if Cleared(backend, now + 1, FirstLook(backend, now, s), Request(scope, Stop), progress) then [Request(scope, Stop)] else []
    requires now + 4 < deadline && ShowsAtOnce(backend, now + 1, FirstLook(backend, now, s), Request(scope, Stop), progress) ==> ok
    ensures StopDecides(backend, now, s, scope, progress, deadline, before, after, ok)
  {
    var s1, r := FirstLook(backend, now, s), Request(scope, Stop);
    hide Moved, Cleared, Cooperative, ShowsNext, Accepted;
    if WorksFrom(backend, now + 1, s1, r, progress, deadline) {
      CooperativeShows(backend, r, now + 1, s1, progress);
      AcceptedIsCleared(backend, now + 1, s1, r, progress);
    }
  }

  /** Stops the destination of a switch: an idle one is left alone, a running one is stopped once, and a
      changing one is waited for. */
  method StopDestination(backend: Backend, scope: Scope, progress: nat, deadline: nat) returns (ok: bool, ghost at: Services)
    requires Numbered(backend.services)
    modifies backend
    ensures |backend.dispatches| <= |old(backend.dispatches)| + 1 && old(backend.dispatches) <= backend.dispatches
    ensures StopDecides(backend, old(backend.now), old(backend.services), scope, progress, deadline,
                        old(backend.dispatches), backend.dispatches, ok)
    ensures old(backend.history) <= backend.history
    ensures ok ==> at in backend.history[|old(backend.history)|..] && Of(at, scope).Idle?
    ensures Apart(old(backend.services), |old(backend.history)|, backend.history, backend.services)
  {
    hide Apart, StopDecides, Cleared, Accepted, ShowsAtOnce, Moved, WorksFrom, Blocked, Probed;
    ghost var start, h, now0, first := backend.services, backend.history, backend.now, true;
    ghost var was := backend.dispatches;
    at := start;
    ApartStart(start, h);
    while true
      invariant h <= backend.history && Apart(start, |h|, backend.history, backend.services)
      invariant backend.dispatches == was
      invariant first ==> backend.now == now0 && backend.services == start
      invariant !first ==> forall dispatched: seq<Request>, result: bool ::
                  StopDecides(backend, now0, start, scope, progress, deadline, was, dispatched, result)
      decreases if backend.now < deadline then deadline - backend.now else 0
    {
      ghost var before, now, s := backend.history, backend.now, backend.services;
      Observed(backend, start, |h|);
      StopAtOnce(backend, now, s, scope, progress, deadline, was);
      var report := backend.Inspect();
      at := backend.services;
      if report.None? {
        return false, at;
      }
      assert at in backend.history[|h|..] by {
        assert backend.history[|h|..][|before| - |h|] == at;
      }
      if Of(report.value.services, scope).Idle? {
        return true, at;
      }
      if Of(report.value.services, scope).Running? {
        ghost var middle, h' := backend.services, backend.history;
        ApartNumbered(start, |h|, backend.history, backend.services);
        ghost var previous: Option<nat>;
        ok, at, previous := RunAction(backend, Request(scope, Stop), progress, deadline);
        StopRuns(backend, now, s, scope, progress, deadline, was, backend.dispatches, ok);
        ApartCompose(start, h, middle, h', backend.services, backend.history);
        if ok {
          Suffix(h', backend.history, |h|, at);
        }
        return;
      }
      if first {
        forall dispatched: seq<Request>, result: bool
          ensures StopDecides(backend, now0, start, scope, progress, deadline, was, dispatched, result)
        {
          StopLater(backend, now0, start, scope, progress, deadline, was, dispatched, result);
        }
      }
      first := false;
      if backend.now >= deadline {
        return false, at;
      }
    }
  }
}
