/** Changing which hardware service starts at boot: never both modes, whatever the commands do. */
module Startup {
  import opened Modes
  import opened Names

  datatype Enablement = Disabled | Enabled | Runtime

  datatype Policy = Policy(user: Enablement, system: Enablement)

  datatype Change = Disable(runtime: bool) | Enable(runtime: bool)

  datatype Call = Call(scope: Scope, change: Change)

  /** The two layers of one unit: links that survive a boot, and links that do not. */
  datatype Layers = Layers(persistent: bool, runtime: bool)

  datatype Machine = Machine(user: Layers, system: Layers)

  function Show(l: Layers): Enablement {
    if l.persistent then Enabled else if l.runtime then Runtime else Disabled
  }

  function Observed(m: Machine): Policy {
    Policy(Show(m.user), Show(m.system))
  }

  function Get(p: Policy, s: Scope): Enablement {
    if s.User? then p.user else p.system
  }

  function Set(p: Policy, s: Scope, e: Enablement): Policy {
    if s.User? then p.(user := e) else p.(system := e)
  }

  function Changed(l: Layers, c: Change): Layers {
    match c
    case Disable(runtime) => if runtime then l.(runtime := false) else l.(persistent := false)
    case Enable(runtime) => if runtime then l.(runtime := true) else l.(persistent := true)
  }

  function Applied(m: Machine, call: Call): Machine {
    if call.scope.User? then m.(user := Changed(m.user, call.change)) else m.(system := Changed(m.system, call.change))
  }

  predicate AnyLayer(l: Layers) {
    l.persistent || l.runtime
  }

  predicate BothModes(m: Machine) {
    AnyLayer(m.user) && AnyLayer(m.system)
  }

  predicate ValidPolicy(p: Policy) {
    p.user == Disabled || p.system == Disabled
  }

  /** What happens to one request: whether it takes effect, and whether it is acknowledged. */
  datatype Fate = Fate(applied: bool, acknowledged: bool)

  /** The service managers. `fates` decides every request; the machine is hidden from the caller,
      who only sees inspections. `log` lists the requested changes, `history` the machine at the start
      and after each of them, and `found` the machine each of them met. */
  class Backend {
    const fates: nat -> Fate
    var requests: nat
    var machine: Machine
    var log: seq<Call>
    ghost var history: seq<Machine>
    ghost var found: seq<Machine>

    constructor (fates: nat -> Fate, machine: Machine)
      ensures this.fates == fates && this.machine == machine && requests == 0 && log == [] && history == [machine] && found == []
    {
      this.fates, this.machine, requests, log, history, found := fates, machine, 0, [], [machine], [];
    }

    method Inspect() returns (r: Option<Policy>)
      modifies `requests
      ensures requests == old(requests) + 1
      ensures r == if fates(old(requests)).acknowledged then Some(Observed(machine)) else None
    {
      r := if fates(requests).acknowledged then Some(Observed(machine)) else None;
      requests := requests + 1;
    }

    method Request(scope: Scope, change: Change) returns (ok: bool)
      modifies this
      ensures requests == old(requests) + 1 && log == old(log) + [Call(scope, change)]
      ensures machine == if fates(old(requests)).applied then Applied(old(machine), Call(scope, change)) else old(machine)
      ensures ok == fates(old(requests)).acknowledged
      ensures history == old(history) + [machine] && found == old(found) + [old(machine)]
    {
      var fate := fates(requests);
      found := found + [machine];
      if fate.applied {
        machine := Applied(machine, Call(scope, change));
      }
      ok := fate.acknowledged;
      log := log + [Call(scope, change)];
      history := history + [machine];
      requests := requests + 1;
    }
  }

  // The plan of a change.

  predicate MustDisable(original: Policy, desired: Policy, s: Scope) {
    Get(original, s) != Get(desired, s) && Get(original, s) != Disabled
  }

  function DisablePlan(original: Policy, desired: Policy, s: Scope): seq<Call> {
    if MustDisable(original, desired, s) then [Call(s, Disable(true)), Call(s, Disable(false))] else []
  }

  /** The policy that must be observed before anything is enabled. */
  function Cleared(original: Policy, desired: Policy): Policy {
    var p := if MustDisable(original, desired, User) then Set(original, User, Disabled) else original;
    if MustDisable(original, desired, System) then Set(p, System, Disabled) else p
  }

  function EnablePlan(cleared: Policy, desired: Policy, s: Scope): seq<Call> {
    if Get(desired, s) != Disabled && Get(cleared, s) != Get(desired, s)
    then [Call(s, Enable(Get(desired, s) == Runtime))] else []
  }

  function DisableAll(original: Policy, desired: Policy): seq<Call> {
    DisablePlan(original, desired, User) + DisablePlan(original, desired, System)
  }

  function EnableAll(original: Policy, desired: Policy): seq<Call> {
    EnablePlan(Cleared(original, desired), desired, User) + EnablePlan(Cleared(original, desired), desired, System)
  }

  /** From `before` on, no step of `history` has both modes enabled unless the start had. */
  ghost predicate NeverBoth(start: Machine, history: seq<Machine>, before: nat) {
    forall i | before <= i < |history| :: BothModes(history[i]) ==> BothModes(start)
  }

  /** Every new request to enable met a machine whose other mode has no layer. `found` has one machine for
      each new request. */
  ghost predicate EnablesAlone(log: seq<Call>, found: seq<Machine>, log': seq<Call>, found': seq<Machine>) {
    && log <= log' && found <= found' && |log'| - |log| == |found'| - |found|
    && forall i | |log| <= i < |log'| && log'[i].change.Enable? ::
         !AnyLayer(LayersOf(found'[i - |log| + |found|], Other(log'[i].scope)))
  }

  lemma EnablesAloneTwice(log: seq<Call>, found: seq<Machine>, log': seq<Call>, found': seq<Machine>, log'': seq<Call>, found'': seq<Machine>)
    requires EnablesAlone(log, found, log', found') && EnablesAlone(log', found', log'', found'')
    ensures EnablesAlone(log, found, log'', found'')
  {
    hide AnyLayer, LayersOf, Other;
    forall i | |log| <= i < |log''| && log''[i].change.Enable?
      ensures !AnyLayer(LayersOf(found''[i - |log| + |found|], Other(log''[i].scope)))
    {
      if i < |log'| {
        assert log''[i] == log'[i] && found''[i - |log| + |found|] == found'[i - |log| + |found|];
      } else {
        assert i - |log'| + |found'| == i - |log| + |found|;
      }
    }
  }

  lemma EnablesNone(log: seq<Call>, found: seq<Machine>)
    ensures EnablesAlone(log, found, log, found)
  {
  }

  /** Clears both layers of one mode, if it has to change. */
  method DisableMode(backend: Backend, original: Policy, desired: Policy, s: Scope) returns (ok: bool)
    modifies backend
    ensures ok ==> backend.log == old(backend.log) + DisablePlan(original, desired, s)
    ensures old(backend.log) <= backend.log <= old(backend.log) + DisablePlan(original, desired, s)
    ensures Kept(old(backend.machine), old(backend.history), backend.machine, backend.history)
    ensures EnablesAlone(old(backend.log), old(backend.found), backend.log, backend.found)
    ensures Reliable(backend, old(backend.requests), backend.requests) ==>
              ok && backend.machine == if MustDisable(original, desired, s) then Cut(old(backend.machine), s) else old(backend.machine)
    ensures backend.requests >= old(backend.requests)
  {
    if !MustDisable(original, desired, s) {
      return true;
    }
    ghost var start := backend.requests;
    ok := backend.Request(s, Disable(true));
    if Reliable(backend, start, backend.requests) {
      ReliableAt(backend, start, backend.requests, start);
    }
    if !ok {
      return;
    }
    ok := backend.Request(s, Disable(false));
    if Reliable(backend, start, backend.requests) {
      ReliableAt(backend, start, backend.requests, start);
      ReliableAt(backend, start, backend.requests, start + 1);
    }
  }

  /** Every request from `from` to `to` is applied and acknowledged. */
  ghost predicate Reliable(backend: Backend, from: nat, to: nat) {
    forall i {:trigger backend.fates(i)} | from <= i < to :: backend.fates(i) == Fate(true, true)
  }

  function Cut(m: Machine, s: Scope): Machine {
    if s.User? then m.(user := Layers(false, false)) else m.(system := Layers(false, false))
  }

  function LayersOf(m: Machine, s: Scope): Layers {
    if s.User? then m.user else m.system
  }

  function Followed(m: Machine, plan: seq<Call>): Machine
    decreases |plan|
  {
    if plan == [] then m else Followed(Applied(m, plan[0]), plan[1..])
  }

  /** Enables one mode, if it has to change; the other mode has no layer then. */
  method EnableMode(backend: Backend, cleared: Policy, desired: Policy, s: Scope) returns (ok: bool)
    requires EnablePlan(cleared, desired, s) != [] ==> !AnyLayer(LayersOf(backend.machine, Other(s)))
    modifies backend
    ensures ok ==> backend.log == old(backend.log) + EnablePlan(cleared, desired, s)
    ensures old(backend.log) <= backend.log <= old(backend.log) + EnablePlan(cleared, desired, s)
    ensures Kept(old(backend.machine), old(backend.history), backend.machine, backend.history)
    ensures EnablesAlone(old(backend.log), old(backend.found), backend.log, backend.found)
    ensures EnablePlan(cleared, desired, s) == [] ==> ok && backend.machine == old(backend.machine)
    ensures Reliable(backend, old(backend.requests), backend.requests) ==>
              ok && backend.machine == Followed(old(backend.machine), EnablePlan(cleared, desired, s))
    ensures backend.requests >= old(backend.requests)
  {
    if Get(desired, s) == Disabled || Get(cleared, s) == Get(desired, s) {
      return true;
    }
    ghost var start := backend.requests;
    ok := backend.Request(s, Enable(Get(desired, s) == Runtime));
    if Reliable(backend, start, backend.requests) {
      ReliableAt(backend, start, backend.requests, start);
      assert [Call(s, Enable(Get(desired, s) == Runtime))][1..] == [];
    }
  }

  lemma ReliableAt(backend: Backend, from: nat, to: nat, i: nat)
    requires Reliable(backend, from, to) && from <= i < to
    ensures backend.fates(i).applied && backend.fates(i).acknowledged
  {
  }

  lemma ReliablePart(backend: Backend, from: nat, to: nat, a: nat, b: nat)
    requires Reliable(backend, from, to) && from <= a <= b <= to
    ensures Reliable(backend, a, b)
  {
  }

  /** The history only grows, and no step of it enables a second mode. */
  ghost predicate Kept(m: Machine, history: seq<Machine>, m': Machine, history': seq<Machine>) {
    history <= history' && NeverBoth(m, history', |history|) && (BothModes(m') ==> BothModes(m))
  }

  lemma KeptTransitive(m: Machine, h: seq<Machine>, m': Machine, h': seq<Machine>, m'': Machine, h'': seq<Machine>)
    requires Kept(m, h, m', h') && Kept(m', h', m'', h'')
    ensures Kept(m, h, m'', h'')
  {
    forall i | |h| <= i < |h''| ensures BothModes(h''[i]) ==> BothModes(m) {
      if i < |h'| { assert h''[i] == h'[i]; }
    }
  }

  /** Clears every mode that has to change. */
  method DisableModes(backend: Backend, original: Policy, desired: Policy) returns (ok: bool)
    requires original == Observed(backend.machine)
    modifies backend
    ensures old(backend.log) <= backend.log <= old(backend.log) + DisableAll(original, desired)
    ensures ok ==> backend.log == old(backend.log) + DisableAll(original, desired)
    ensures Kept(old(backend.machine), old(backend.history), backend.machine, backend.history)
    ensures EnablesAlone(old(backend.log), old(backend.found), backend.log, backend.found)
    ensures backend.requests >= old(backend.requests)
    ensures Reliable(backend, old(backend.requests), backend.requests) ==> ok && Observed(backend.machine) == Cleared(original, desired)
  {
    hide Kept, Reliable, MustDisable, Applied, EnablesAlone;
    ghost var start, m0, h0 := backend.requests, backend.machine, backend.history;
    ghost var log0, found0 := backend.log, backend.found;
    ClearedIsObserved(m0, desired);
    ok := DisableMode(backend, original, desired, User);
    ghost var middle, m1, h1 := backend.requests, backend.machine, backend.history;
    if !ok {
      return;
    }
    ghost var log1, found1 := backend.log, backend.found;
    ok := DisableMode(backend, original, desired, System);
    EnablesAloneTwice(log0, found0, log1, found1, backend.log, backend.found);
    KeptTransitive(m0, h0, m1, h1, backend.machine, backend.history);
    if Reliable(backend, start, backend.requests) {
      ReliablePart(backend, start, backend.requests, start, middle);
      ReliablePart(backend, start, backend.requests, middle, backend.requests);
    }
  }

  /** Changes the startup selection. */
  method Run(backend: Backend, desired: Policy) returns (ok: bool)
    modifies backend
    // An invalid selection sends nothing.
    ensures !ValidPolicy(desired) ==> !ok && backend.log == old(backend.log) && backend.machine == old(backend.machine)
    // The commands sent are the plan, up to the first one that was not acknowledged; none is repeated.
    ensures old(backend.log) <= backend.log <= old(backend.log) + FullPlan(Observed(old(backend.machine)), desired)
    ensures ok ==> backend.log == old(backend.log) + FullPlan(Observed(old(backend.machine)), desired)
    // Whatever the start was, an enable request only ever met a machine whose other mode has no layer.
    ensures EnablesAlone(old(backend.log), old(backend.found), backend.log, backend.found)
    // No step has both modes enabled unless the start had.
    ensures Kept(old(backend.machine), old(backend.history), backend.machine, backend.history)
    // Success means the selection was observed, and only one mode has any layer.
    ensures ok ==> Observed(backend.machine) == desired && !BothModes(backend.machine)
    // A reliable backend reaches every valid selection from every state.
    ensures ValidPolicy(desired) && Reliable(backend, old(backend.requests), backend.requests) ==> ok
    ensures backend.requests >= old(backend.requests)
  {
    hide Kept, Reliable, MustDisable, DisableAll, EnableAll, FullPlan, EnablesAlone;
    EnablesNone(backend.log, backend.found);
    ghost var found0 := backend.found;
    ghost var start, m0, h0, log0 := backend.requests, backend.machine, backend.history, backend.log;
    KeptNothing(m0, h0);
    PlanSplits(log0, log0, Observed(m0), desired);
    if !ValidPolicy(desired) {
      return false;
    }
    var original := backend.Inspect();
    ghost var asked := backend.requests;
    if original.None? {
      NotReliable(backend, start, asked, start);
      return false;
    }
    ok := DisableModes(backend, original.value, desired);
    ghost var m1, h1 := backend.machine, backend.history;
    PlanSplits(log0, backend.log, original.value, desired);
    if Reliable(backend, start, backend.requests) {
      ReliablePart(backend, start, backend.requests, asked, backend.requests);
    }
    if !ok {
      return;
    }
    var cleared := Cleared(original.value, desired);
    ghost var checked := backend.requests;
    var seen := backend.Inspect();
    if Reliable(backend, start, backend.requests) {
      ReliablePart(backend, start, backend.requests, asked, checked);
      ReliableAt(backend, start, backend.requests, checked);
    }
    if seen != Some(cleared) {
      return false;
    }
    ghost var enabling := backend.requests;
    ghost var log1, found1 := backend.log, backend.found;
    ok := EnableModes(backend, original.value, desired);
    EnablesAloneTwice(log0, found0, log1, found1, backend.log, backend.found);
    KeptTransitive(m0, h0, m1, h1, backend.machine, backend.history);
    if Reliable(backend, start, backend.requests) {
      ReliablePart(backend, start, backend.requests, enabling, backend.requests);
    }
  }

  function FullPlan(original: Policy, desired: Policy): seq<Call> {
    DisableAll(original, desired) + EnableAll(original, desired)
  }

  lemma PlanSplits(log0: seq<Call>, log: seq<Call>, original: Policy, desired: Policy)
    requires log0 <= log <= log0 + DisableAll(original, desired)
    ensures log0 + DisableAll(original, desired) + EnableAll(original, desired) == log0 + FullPlan(original, desired)
    ensures log <= log0 + FullPlan(original, desired)
  {
  }

  lemma KeptNothing(m: Machine, history: seq<Machine>)
    ensures Kept(m, history, m, history)
  {
  }

  lemma NotReliable(backend: Backend, from: nat, to: nat, i: nat)
    requires from <= i < to && !backend.fates(i).acknowledged
    ensures !Reliable(backend, from, to)
  {
  }

  /** Disabling reliably leaves exactly the policy that is then asked for. */
  lemma ClearedIsObserved(m: Machine, desired: Policy)
    ensures var original := Observed(m);
            var m1 := if MustDisable(original, desired, User) then Cut(m, User) else m;
            var m2 := if MustDisable(original, desired, System) then Cut(m1, System) else m1;
            Observed(m2) == Cleared(original, desired)
  {
  }

  lemma FollowedOne(m: Machine, call: Call)
    ensures Followed(m, [call]) == Applied(m, call)
  {
    assert [call][1..] == [];
  }

  lemma ReachesDesired(m: Machine, original: Policy, desired: Policy)
    requires ValidPolicy(desired) && Observed(m) == Cleared(original, desired)
    ensures var cleared := Cleared(original, desired);
            var m1 := Followed(m, EnablePlan(cleared, desired, User));
            Observed(Followed(m1, EnablePlan(cleared, desired, System))) == desired
  {
    FollowedOne(m, Call(User, Enable(desired.user == Runtime)));
    FollowedOne(m, Call(System, Enable(desired.system == Runtime)));
  }

  method EnableModes(backend: Backend, original: Policy, desired: Policy) returns (ok: bool)
    requires ValidPolicy(desired) && Observed(backend.machine) == Cleared(original, desired)
    modifies backend
    ensures old(backend.log) <= backend.log <= old(backend.log) + EnableAll(original, desired)
    ensures ok ==> backend.log == old(backend.log) + EnableAll(original, desired)
    ensures EnablesAlone(old(backend.log), old(backend.found), backend.log, backend.found)
    ensures Kept(old(backend.machine), old(backend.history), backend.machine, backend.history)
    ensures ok ==> Observed(backend.machine) == desired && !BothModes(backend.machine)
    ensures Reliable(backend, old(backend.requests), backend.requests) ==> ok
    ensures backend.requests >= old(backend.requests)
  {
    var cleared := Cleared(original, desired);
    ghost var start, m0, h0 := backend.requests, backend.machine, backend.history;
    ReachesDesired(m0, original, desired);
    OnlyOneEnabled(original, desired);
    OtherIsClear(m0, original, desired);
    hide Kept, Reliable, Cleared, EnablePlan, Applied, EnablesAlone;
    ghost var log0, found0 := backend.log, backend.found;
    ok := EnableMode(backend, cleared, desired, User);
    if !ok {
      return;
    }
    ghost var middle, m1, h1 := backend.requests, backend.machine, backend.history;
    ghost var log1, found1 := backend.log, backend.found;
    ok := EnableMode(backend, cleared, desired, System);
    EnablesAloneTwice(log0, found0, log1, found1, backend.log, backend.found);
    KeptTransitive(m0, h0, m1, h1, backend.machine, backend.history);
    ghost var asked := backend.requests;
    if Reliable(backend, start, asked) {
      ReliablePart(backend, start, asked, start, middle);
      ReliablePart(backend, start, asked, middle, asked);
    }
    if !ok {
      return;
    }
    var seen := backend.Inspect();
    ok := seen == Some(desired);
    if Reliable(backend, start, backend.requests) {
      ReliablePart(backend, start, backend.requests, start, asked);
      ReliablePart(backend, start, backend.requests, start, middle);
      ReliablePart(backend, start, backend.requests, middle, asked);
      ReliableAt(backend, start, backend.requests, asked);
    }
    ShownIsOne(backend.machine);
  }

  lemma OnlyOneEnabled(original: Policy, desired: Policy)
    requires ValidPolicy(desired)
    ensures EnablePlan(Cleared(original, desired), desired, User) == [] || EnablePlan(Cleared(original, desired), desired, System) == []
  {
  }

  lemma OtherIsClear(m: Machine, original: Policy, desired: Policy)
    requires ValidPolicy(desired) && Observed(m) == Cleared(original, desired)
    ensures forall s: Scope {:trigger EnablePlan(Cleared(original, desired), desired, s)} ::
              EnablePlan(Cleared(original, desired), desired, s) != [] ==> !AnyLayer(LayersOf(m, Other(s)))
  {
  }

  lemma ShownIsOne(m: Machine)
    ensures ValidPolicy(Observed(m)) <==> !BothModes(m)
  {
  }

  /** Nothing is sent exactly when the selection is already in effect, so running again after a
      success sends nothing. */
  lemma NothingToDo(m: Machine, desired: Policy)
    ensures FullPlan(Observed(m), desired) == [] <==> Observed(m) == desired
  {
  }

  /** Before any enable call of a plan, both layers of every mode that is on and has to change were
      disabled, so an enable call never meets an enabled other mode. */
  lemma EnablesFollowDisables(m: Machine, desired: Policy, k: nat)
    requires ValidPolicy(desired) && k < |FullPlan(Observed(m), desired)|
    requires FullPlan(Observed(m), desired)[k].change.Enable?
    ensures var plan := FullPlan(Observed(m), desired);
            k == |plan| - 1 && !AnyLayer(LayersOf(Followed(m, plan[..k]), Other(plan[k].scope)))
  {
    var original := Observed(m);
    var a, b := DisablePlan(original, desired, User), DisablePlan(original, desired, System);
    var plan := FullPlan(original, desired);
    assert plan == a + b + EnableAll(original, desired);
    OnlyOneEnabled(original, desired);
    assert k == |a| + |b|;
    assert plan[..k] == a + b;
    DisablesFollowed(m, desired);
  }

  /** Every sequence of selection changes, with any commands lost, refused or applied without an
      acknowledgement: unless both modes are enabled at the start, they never are. */
  method RunMany(backend: Backend, selections: seq<Policy>)
    requires !BothModes(backend.machine)
    modifies backend
    ensures !BothModes(backend.machine)
    ensures old(backend.history) <= backend.history
    ensures forall i | |old(backend.history)| <= i < |backend.history| :: !BothModes(backend.history[i])
  {
    for k := 0 to |selections|
      invariant !BothModes(backend.machine) && old(backend.history) <= backend.history
      invariant forall i | |old(backend.history)| <= i < |backend.history| :: !BothModes(backend.history[i])
    {
      ghost var before := backend.history;
      var _ := Run(backend, selections[k]);
      forall i | |old(backend.history)| <= i < |backend.history| ensures !BothModes(backend.history[i]) {
        if i < |before| { assert backend.history[i] == before[i]; }
      }
    }
  }

  lemma DisablesFollowed(m: Machine, desired: Policy)
    ensures Observed(Followed(m, DisableAll(Observed(m), desired))) == Cleared(Observed(m), desired)
    ensures forall s: Scope | Get(Cleared(Observed(m), desired), s) == Disabled ::
              !AnyLayer(LayersOf(Followed(m, DisableAll(Observed(m), desired)), s))
  {
    var original := Observed(m);
    var a, b := DisablePlan(original, desired, User), DisablePlan(original, desired, System);
    FollowedAppend(m, a, b);
    FollowedCut(m, User);
    FollowedCut(Followed(m, a), System);
    ClearedIsObserved(m, desired);
  }

  lemma {:induction false} FollowedAppend(m: Machine, a: seq<Call>, b: seq<Call>)
    ensures Followed(m, a + b) == Followed(Followed(m, a), b)
    decreases |a|
  {
    if a == [] {
      assert a + b == b;
    } else {
      assert (a + b)[1..] == a[1..] + b;
      FollowedAppend(Applied(m, a[0]), a[1..], b);
    }
  }

  lemma FollowedCut(m: Machine, s: Scope)
    ensures Followed(m, [Call(s, Disable(true)), Call(s, Disable(false))]) == Cut(m, s)
  {
    assert [Call(s, Disable(true)), Call(s, Disable(false))][1..] == [Call(s, Disable(false))];
    FollowedOne(Applied(m, Call(s, Disable(true))), Call(s, Disable(false)));
  }

  // The system mode alone, before the user's session exists.

  /** Restores the system mode. The user's mode is never touched, and nothing is enabled before the
      system mode was observed disabled. */
  method RunSystem(backend: Backend, desired: Enablement) returns (ok: bool)
    modifies backend
    ensures backend.machine.user == old(backend.machine.user)
    ensures ok ==> Show(backend.machine.system) == desired
    ensures Reliable(backend, old(backend.requests), backend.requests) ==> ok
    ensures Show(old(backend.machine.system)) == desired ==> backend.log == old(backend.log)
    ensures backend.requests >= old(backend.requests)
    ensures EnabledWhenClear(old(backend.log), backend.log, backend.found)
    ensures old(backend.log) <= backend.log <= old(backend.log) + SystemPlan(Show(old(backend.machine.system)), desired)
  {
    ghost var start := backend.requests;
    var original := backend.Inspect();
    if original.None? {
      NotReliable(backend, start, backend.requests, start);
      return false;
    }
    if original.value.system == desired {
      return true;
    }
    ok := DisableSystem(backend, original.value.system);
    if !ok {
      return;
    }
    ghost var asked := backend.requests;
    var seen := backend.Inspect();
    if Reliable(backend, start, backend.requests) {
      ReliableAt(backend, start, backend.requests, asked);
      ReliablePart(backend, start, backend.requests, start + 1, asked);
    }
    if seen.None? || seen.value.system != Disabled {
      return false;
    }
    ok := EnableSystem(backend, original.value.system, desired, start);
  }

  function SystemDisables(original: Enablement): seq<Call> {
    if original == Disabled then [] else [Call(System, Disable(true)), Call(System, Disable(false))]
  }

  function SystemPlan(original: Enablement, desired: Enablement): seq<Call> {
    if original == desired then []
    else SystemDisables(original) + if desired == Disabled then [] else [Call(System, Enable(desired == Runtime))]
  }

  /** A request to enable, which can only be the last one, found the system mode disabled. */
  ghost predicate EnabledWhenClear(log: seq<Call>, log': seq<Call>, found: seq<Machine>) {
    && (forall i | |log| <= i < |log'| && log'[i].change.Enable? :: i == |log'| - 1)
    && (|log'| > |log| && log'[|log'| - 1].change.Enable? ==>
          found != [] && Show(found[|found| - 1].system) == Disabled)
  }

  method DisableSystem(backend: Backend, original: Enablement) returns (ok: bool)
    requires original == Show(backend.machine.system)
    modifies backend
    ensures backend.machine.user == old(backend.machine.user) && backend.requests >= old(backend.requests)
    ensures old(backend.log) <= backend.log <= old(backend.log) + SystemDisables(original)
    ensures ok ==> backend.log == old(backend.log) + SystemDisables(original)
    ensures Reliable(backend, old(backend.requests), backend.requests) ==> ok && Show(backend.machine.system) == Disabled
  {
    ghost var start := backend.requests;
    if original == Disabled {
      return true;
    }
    ok := backend.Request(System, Disable(true));
    if Reliable(backend, start, backend.requests) {
      ReliableAt(backend, start, backend.requests, start);
    }
    if !ok {
      return;
    }
    ok := backend.Request(System, Disable(false));
    if Reliable(backend, start, backend.requests) {
      ReliableAt(backend, start, backend.requests, start);
      ReliableAt(backend, start, backend.requests, start + 1);
    }
  }

  method EnableSystem(backend: Backend, original: Enablement, desired: Enablement, ghost start: nat) returns (ok: bool)
    requires Show(backend.machine.system) == Disabled && start <= backend.requests && original != desired
    modifies backend
    ensures backend.machine.user == old(backend.machine.user) && backend.requests >= old(backend.requests)
    ensures ok ==> Show(backend.machine.system) == desired
    ensures Reliable(backend, start, backend.requests) ==> ok
    ensures backend.log != old(backend.log) ==> backend.found != [] && Show(backend.found[|backend.found| - 1].system) == Disabled
    ensures old(backend.log) <= backend.log
            <= old(backend.log) + if desired == Disabled then [] else [Call(System, Enable(desired == Runtime))]
  {
    if desired != Disabled {
      ghost var asked := backend.requests;
      ok := backend.Request(System, Enable(desired == Runtime));
      if Reliable(backend, start, backend.requests) {
        ReliableAt(backend, start, backend.requests, asked);
      }
      if !ok {
        return;
      }
      ghost var last := backend.requests;
      var seen := backend.Inspect();
      if Reliable(backend, start, backend.requests) {
        ReliableAt(backend, start, backend.requests, asked);
        ReliableAt(backend, start, backend.requests, last);
      }
      ok := seen.Some? && seen.value.system == desired;
    } else {
      ghost var last := backend.requests;
      var seen := backend.Inspect();
      if Reliable(backend, start, backend.requests) {
        ReliableAt(backend, start, backend.requests, last);
      }
      ok := seen.Some? && seen.value.system == desired;
    }
  }

  // Restoring a recorded selection after a boot.

  /** The recorded selection with its runtime-only part expired, when the machine has booted since.
      A runtime-only selection of an unknown boot cannot be restored. */
  function RestoreForBoot(p: Policy, original: Option<string>, current: string): Option<Policy> {
    if !ValidPolicy(p) then None
    else if p.user != Runtime && p.system != Runtime then Some(p)
    else
      match original
      case None => None
      case Some(boot) => Some(Policy(Expire(p.user, boot, current), Expire(p.system, boot, current)))
  }

  function Expire(e: Enablement, boot: string, current: string): Enablement {
    if boot != current && e == Runtime then Disabled else e
  }

  /** A boot drops the runtime layers. */
  function Booted(m: Machine): Machine {
    Machine(m.user.(runtime := false), m.system.(runtime := false))
  }

  /** Restoring after a boot asks for exactly what the same machine shows after that boot; without a
      boot it asks for what was recorded. */
  lemma RestoreMatchesBoot(m: Machine, boot: string, current: string)
    requires ValidPolicy(Observed(m))
    ensures RestoreForBoot(Observed(m), Some(boot), current) == Some(Observed(if boot == current then m else Booted(m)))
    ensures RestoreForBoot(Observed(m), None, current) == Some(Observed(m))
            <==> !(Observed(m).user.Runtime? || Observed(m).system.Runtime?)
  {
  }
}
