/** The journal barrier between the coordinator of a switch and its publication helper: two processes
    and a packet channel, over every interleaving, with either side stopping at any step. */
module Barrier {
  import opened Names

  datatype Kind = Publish | Restore | ResumeRestore | Recover

  datatype Action = Action(kind: Kind, config: string)

  type Backup = string

  const BACKUP_PREFIX := ".lianli-state-backup-"

  /** The accepted backup identifiers. */
  predicate ValidBackup(name: string) {
    && BACKUP_PREFIX <= name && 0 < |name| - |BACKUP_PREFIX| <= 32
    && forall i | |BACKUP_PREFIX| <= i < |name| :: IsAlphanumeric(name[i])
  }

  predicate ValidAnswer(backup: Option<Backup>) {
    backup.Some? ==> ValidBackup(backup.value)
  }

  predicate NeedsBackup(action: Action) {
    !action.kind.Recover?
  }

  datatype Message =
    | OperationLock
    | HardwareLock
    | Request(uid: nat, action: Action)
    | Ready(backup: Option<Backup>)
    | Proceed
    | Done(backup: Option<Backup>)

  datatype Packet = Packet(message: Message, descriptor: bool)

  /** Where the coordinator is. `Recording` is the durable record of the backup in its journal. */
  datatype Coordinator =
    | Sending(sent: nat)
    | AwaitReady
    | Recording(backup: Option<Backup>)
    | Authorizing(backup: Option<Backup>)
    | AwaitDone(backup: Option<Backup>)
    | Agreed(completed: Option<Backup>)
    | Succeeded(result: Option<Backup>)
    | Failed

  datatype Helper =
    | Receiving(received: nat)
    | Preparing(action: Action)
    | Announcing(action: Action, transaction: Option<Backup>)
    | AwaitProceed(action: Action, transaction: Option<Backup>)
    | Mutating(action: Action, transaction: Option<Backup>)
    | Confirming(completed: Option<Backup>)
    | Exited(success: bool)

  /** `journal` is what the coordinator durably recorded, `prepared` the transaction the helper opened,
      and `mutated` whether settings were touched. */
  datatype State = State(
    uid: nat,
    action: Action,
    coordinator: Coordinator,
    helper: Helper,
    toHelper: seq<Packet>,
    toCoordinator: seq<Packet>,
    journal: Option<Option<Backup>>,
    prepared: Option<Option<Backup>>,
    mutated: bool,
    completed: bool)

  function Initial(uid: nat, action: Action): State {
    State(uid, action, Sending(0), Receiving(0), [], [], None, None, false, false)
  }

  /** What the next packet of the coordinator is. */
  function Outgoing(s: State, sent: nat): Packet {
    if sent == 0 then Packet(OperationLock, true)
    else if sent == 1 then Packet(HardwareLock, true)
    else Packet(Request(s.uid, s.action), true)
  }

  /** What one step of a process meets: an error or interruption, or the values that storage, the
      transaction and the operating system return. */
  datatype Luck = Luck(fails: bool, recorded: bool, backup: Option<Backup>, uid: nat, held: bool)

  function Fail(s: State): State {
    s.(coordinator := Failed)
  }

  function Exit(s: State): State {
    s.(helper := Exited(false))
  }

  function CoordinatorStep(s: State, luck: Luck): State {
    match s.coordinator
    case Sending(sent) =>
      if luck.fails then Fail(s)
      else s.(toHelper := s.toHelper + [Outgoing(s, sent)], coordinator := if sent >= 2 then AwaitReady else Sending(sent + 1))
    case AwaitReady =>
      if luck.fails then Fail(s)
      else if s.toCoordinator == [] then s
      else
        var packet := s.toCoordinator[0];
        var rest := s.(toCoordinator := s.toCoordinator[1..]);
        if packet.message.Ready? && !packet.descriptor && packet.message.backup.Some? == NeedsBackup(s.action)
           && ValidAnswer(packet.message.backup)
        then rest.(coordinator := Recording(packet.message.backup)) else Fail(rest)
    case Recording(backup) =>
      // A record that fails may or may not have reached the journal.
      var written := if luck.recorded || !luck.fails then s.(journal := Some(backup)) else s;
      if luck.fails then Fail(written) else written.(coordinator := Authorizing(backup))
    case Authorizing(backup) =>
      if luck.fails then Fail(s)
      else s.(toHelper := s.toHelper + [Packet(Proceed, false)], coordinator := AwaitDone(backup))
    case AwaitDone(backup) =>
      if luck.fails then Fail(s)
      else if s.toCoordinator == [] then s
      else
        var packet := s.toCoordinator[0];
        var rest := s.(toCoordinator := s.toCoordinator[1..]);
        if packet.message.Done? && !packet.descriptor && ValidAnswer(packet.message.backup)
           && (backup.Some? ==> packet.message.backup == backup)
        then rest.(coordinator := Agreed(packet.message.backup)) else Fail(rest)
    case Agreed(completed) =>
      // The helper is joined: its exit decides.
      if luck.fails || s.helper == Exited(false) then Fail(s)
      else if s.helper == Exited(true) then s.(coordinator := Succeeded(completed))
      else s
    case Succeeded(_) => s
    case Failed => s
  }

  /** What publication or recovery returns; nothing says that it is the announced backup. */
  function Returned(transaction: Option<Backup>, luck: Luck): Option<Backup> {
    if transaction.Some? && luck.backup.None? then transaction else luck.backup
  }

  function HelperStep(s: State, luck: Luck): State {
    match s.helper
    case Receiving(received) =>
      if luck.fails then Exit(s)
      else if s.toHelper == [] then s
      else
        var packet := s.toHelper[0];
        var rest := s.(toHelper := s.toHelper[1..]);
        if !packet.descriptor then Exit(rest)
        else if received == 0 then if packet.message.OperationLock? then rest.(helper := Receiving(1)) else Exit(rest)
        else if received == 1 then
          if packet.message.HardwareLock? && luck.held then rest.(helper := Receiving(2)) else Exit(rest)
        else if packet.message.Request? && packet.message.uid == luck.uid && luck.held
        then rest.(helper := Preparing(packet.message.action)) else Exit(rest)
    case Preparing(action) =>
      if luck.fails then Exit(s)
      else
        var transaction := if NeedsBackup(action) then Some(if luck.backup.Some? then luck.backup.value else "") else None;
        s.(helper := Announcing(action, transaction), prepared := Some(transaction))
    case Announcing(action, transaction) =>
      if luck.fails then Exit(s)
      else s.(toCoordinator := s.toCoordinator + [Packet(Ready(transaction), false)], helper := AwaitProceed(action, transaction))
    case AwaitProceed(action, transaction) =>
      if luck.fails then Exit(s)
      else if s.toHelper == [] then s
      else
        var packet := s.toHelper[0];
        var rest := s.(toHelper := s.toHelper[1..]);
        if packet.message.Proceed? && !packet.descriptor && luck.held
        then rest.(helper := Mutating(action, transaction)) else Exit(rest)
    case Mutating(action, transaction) =>
      // Publication may stop half way: settings count as touched from here on.
      var touched := s.(mutated := true);
      if luck.fails then Exit(touched)
      else if !luck.held then Exit(touched.(completed := true))
      else touched.(completed := true, helper := Confirming(Returned(transaction, luck)))
    case Confirming(completed) =>
      if luck.fails then Exit(s)
      else s.(toCoordinator := s.toCoordinator + [Packet(Done(completed), false)], helper := Exited(true))
    case Exited(_) => s
  }

  datatype Turn = CoordinatorTurn(luck: Luck) | HelperTurn(luck: Luck)

  function Step(s: State, turn: Turn): State {
    match turn
    case CoordinatorTurn(luck) => CoordinatorStep(s, luck)
    case HelperTurn(luck) => HelperStep(s, luck)
  }

  function Run(s: State, turns: seq<Turn>): State
    decreases |turns|
  {
    if turns == [] then s else Run(Step(s, turns[0]), turns[1..])
  }

  // What each side accepts.

  /** A backup identifier is the prefix with 1 to 32 letters and digits. */
  lemma BackupNames(name: string, suffix: string)
    ensures ValidBackup(".lianli-state-backup-" + suffix) <==> 1 <= |suffix| <= 32 && forall i | 0 <= i < |suffix| :: IsAlphanumeric(suffix[i])
    ensures ValidBackup(name) ==> ".lianli-state-backup-" <= name
  {
    var prefix := ".lianli-state-backup-";
    var whole := prefix + suffix;
    hide IsAlphanumeric;
    assert |prefix| == 21 && forall i | 0 <= i < |suffix| :: whole[21 + i] == suffix[i];
    assert forall i | 21 <= i < |whole| :: whole[i] == suffix[i - 21];
  }

  /** The coordinator goes on exactly with the answer it waits for: a ready packet without descriptor whose
      backup is valid and there unless this is a recovery, and a final packet without descriptor whose
      backup is valid and the authorized one, if there was one. Any other packet ends it. */
  lemma AcceptedAnswers(s: State, luck: Luck)
    requires s.toCoordinator != [] && !luck.fails
    ensures s.coordinator.AwaitReady? ==>
              var packet, next := s.toCoordinator[0], CoordinatorStep(s, luck).coordinator;
              if exists backup: Option<Backup> :: packet == Packet(Ready(backup), false)
                   && (backup.None? <==> s.action.kind.Recover?) && (backup.Some? ==> ValidBackup(backup.value))
              then next == Recording(packet.message.backup) else next == Failed
    ensures s.coordinator.AwaitDone? ==>
              var packet, next := s.toCoordinator[0], CoordinatorStep(s, luck).coordinator;
              if exists backup: Option<Backup> :: packet == Packet(Done(backup), false)
                   && (backup.Some? ==> ValidBackup(backup.value)) && (s.coordinator.backup.Some? ==> backup == s.coordinator.backup)
              then next == Agreed(packet.message.backup) else next == Failed
  {
  }

  /** The helper goes on exactly with the two locks, which it verifies, with a request of its own account,
      each with a descriptor, and with an authorization without one while it still inherits the locks.
      Anything else ends it, without success. */
  lemma AcceptedRequests(s: State, luck: Luck)
    requires s.toHelper != [] && !luck.fails && (s.helper.Receiving? || s.helper.AwaitProceed?)
    ensures var packet, next := s.toHelper[0], HelperStep(s, luck).helper;
            match s.helper
            case Receiving(0) => next == (if packet == Packet(OperationLock, true) then Receiving(1) else Exited(false))
            case Receiving(1) => next == (if packet == Packet(HardwareLock, true) && luck.held then Receiving(2) else Exited(false))
            case Receiving(_) =>
              if exists action: Action :: packet == Packet(Request(luck.uid, action), true) && luck.held
              then next == Preparing(packet.message.action) else next == Exited(false)
            case AwaitProceed(action, transaction) =>
              next == if packet == Packet(Proceed, false) && luck.held then Mutating(action, transaction) else Exited(false)
            case _ => true
  {
  }

  /** A helper that meets an error, or lost the locks when it is done, does not report success. */
  lemma FailuresExit(s: State, luck: Luck)
    requires !s.helper.Exited? && (luck.fails || (s.helper.Mutating? && !luck.held))
    ensures HelperStep(s, luck).helper == Exited(false) && HelperStep(s, luck).toCoordinator == s.toCoordinator
  {
  }

  // The invariant.

  ghost predicate HelperOk(s: State) {
    && (s.helper.Preparing? ==> s.prepared.None? && s.helper.action == s.action)
    && (s.helper.Receiving? ==> s.prepared.None?)
    && ((s.helper.Announcing? || s.helper.AwaitProceed? || s.helper.Mutating?) ==>
          s.helper.action == s.action && s.prepared == Some(s.helper.transaction))
    && (s.prepared.Some? ==> s.prepared.value.Some? == NeedsBackup(s.action))
    && (s.helper.Confirming? ==> s.mutated && s.completed)
    && (s.helper == Exited(true) ==> s.mutated && s.completed)
  }

  /** Packets to the helper that are not an authorization carry the request of this coordinator. */
  ghost predicate OutgoingOk(s: State) {
    && (forall p | p in s.toHelper :: p.message.Request? ==> p.message.action == s.action)
    && (forall p | p in s.toHelper :: p.message.Proceed? ==> Recorded(s))
    && (forall p | p in s.toHelper :: !p.message.Ready? && !p.message.Done?)
  }

  /** Packets to the coordinator announce the helper's own transaction, and completion follows it. */
  ghost predicate IncomingOk(s: State) {
    && (forall p | p in s.toCoordinator :: p.message.Ready? ==> s.prepared == Some(p.message.backup))
    && (forall p | p in s.toCoordinator :: p.message.Done? ==> s.mutated && s.completed)
  }

  /** The journal holds exactly the backup the helper prepared. */
  predicate Recorded(s: State) {
    s.prepared.Some? && s.journal == s.prepared
  }

  ghost predicate CoordinatorOk(s: State) {
    && (s.coordinator.Recording? ==> s.prepared == Some(s.coordinator.backup))
    && (s.coordinator.Authorizing? ==> Recorded(s) && s.journal == Some(s.coordinator.backup))
    && (s.coordinator.AwaitDone? ==> Recorded(s) && s.journal == Some(s.coordinator.backup))
    && (s.coordinator.Agreed? ==> Recorded(s) && s.mutated && s.completed && (s.journal.value.Some? ==> s.coordinator.completed == s.journal.value))
    && (s.coordinator.Succeeded? ==>
          Recorded(s) && s.mutated && s.completed && s.helper == Exited(true)
          && (s.journal.value.Some? ==> s.coordinator.result == s.journal.value))
    && (s.journal.Some? ==> Recorded(s))
  }

  ghost predicate Inv(s: State) {
    && HelperOk(s) && OutgoingOk(s) && IncomingOk(s) && CoordinatorOk(s)
    && (s.helper.Mutating? ==> Recorded(s))
    && (s.mutated ==> Recorded(s))
  }

  lemma Popped<T>(q: seq<T>)
    requires q != []
    ensures q[0] in q && forall x | x in q[1..] :: x in q
  {
  }

  lemma SendKeeps(s: State, luck: Luck)
    requires Inv(s) && s.coordinator.Sending?
    ensures Inv(CoordinatorStep(s, luck))
  {
  }

  lemma ReadyKeeps(s: State, luck: Luck)
    requires Inv(s) && s.coordinator.AwaitReady?
    ensures Inv(CoordinatorStep(s, luck))
  {
    if s.toCoordinator != [] { Popped(s.toCoordinator); }
  }

  lemma RecordKeeps(s: State, luck: Luck)
    requires Inv(s) && s.coordinator.Recording?
    ensures Inv(CoordinatorStep(s, luck))
  {
  }

  lemma AuthorizeKeeps(s: State, luck: Luck)
    requires Inv(s) && s.coordinator.Authorizing?
    ensures Inv(CoordinatorStep(s, luck))
  {
  }

  lemma DoneKeeps(s: State, luck: Luck)
    requires Inv(s) && s.coordinator.AwaitDone?
    ensures Inv(CoordinatorStep(s, luck))
  {
    if s.toCoordinator != [] { Popped(s.toCoordinator); }
  }

  lemma JoinKeeps(s: State, luck: Luck)
    requires Inv(s) && (s.coordinator.Agreed? || s.coordinator.Succeeded? || s.coordinator.Failed?)
    ensures Inv(CoordinatorStep(s, luck))
  {
  }

  lemma ReceiveKeeps(s: State, luck: Luck)
    requires Inv(s) && s.helper.Receiving?
    ensures Inv(HelperStep(s, luck))
  {
    if s.toHelper != [] { Popped(s.toHelper); }
  }

  lemma PrepareKeeps(s: State, luck: Luck)
    requires Inv(s) && s.helper.Preparing?
    ensures Inv(HelperStep(s, luck))
  {
  }

  lemma AnnounceKeeps(s: State, luck: Luck)
    requires Inv(s) && s.helper.Announcing?
    ensures Inv(HelperStep(s, luck))
  {
  }

  lemma ProceedKeeps(s: State, luck: Luck)
    requires Inv(s) && s.helper.AwaitProceed?
    ensures Inv(HelperStep(s, luck))
  {
    if s.toHelper != [] { Popped(s.toHelper); }
  }

  lemma MutateKeeps(s: State, luck: Luck)
    requires Inv(s) && s.helper.Mutating?
    ensures Inv(HelperStep(s, luck))
  {
  }

  lemma ConfirmKeeps(s: State, luck: Luck)
    requires Inv(s) && (s.helper.Confirming? || s.helper.Exited?)
    ensures Inv(HelperStep(s, luck))
  {
  }

  lemma CoordinatorKeeps(s: State, luck: Luck)
    requires Inv(s)
    ensures Inv(CoordinatorStep(s, luck))
  {
    hide *;
    match s.coordinator
    case Sending(_) => SendKeeps(s, luck);
    case AwaitReady => ReadyKeeps(s, luck);
    case Recording(_) => RecordKeeps(s, luck);
    case Authorizing(_) => AuthorizeKeeps(s, luck);
    case AwaitDone(_) => DoneKeeps(s, luck);
    case _ => JoinKeeps(s, luck);
  }

  lemma HelperKeeps(s: State, luck: Luck)
    requires Inv(s)
    ensures Inv(HelperStep(s, luck))
  {
    hide *;
    match s.helper
    case Receiving(_) => ReceiveKeeps(s, luck);
    case Preparing(_) => PrepareKeeps(s, luck);
    case Announcing(_, _) => AnnounceKeeps(s, luck);
    case AwaitProceed(_, _) => ProceedKeeps(s, luck);
    case Mutating(_, _) => MutateKeeps(s, luck);
    case _ => ConfirmKeeps(s, luck);
  }

  lemma {:induction false} RunKeeps(s: State, turns: seq<Turn>)
    requires Inv(s)
    ensures Inv(Run(s, turns))
    decreases |turns|
  {
    hide Inv, Step;
    if turns != [] {
      StepKeeps(s, turns[0]);
      RunKeeps(Step(s, turns[0]), turns[1..]);
    }
  }

  lemma StepKeeps(s: State, turn: Turn)
    requires Inv(s)
    ensures Inv(Step(s, turn))
  {
    hide Inv;
    match turn
    case CoordinatorTurn(luck) => CoordinatorKeeps(s, luck);
    case HelperTurn(luck) => HelperKeeps(s, luck);
  }

  /** In every interleaving, settings are touched only after the coordinator durably recorded the very
      backup the helper prepared; and the coordinator succeeds only after the helper finished, with
      that backup on every action except recovery. */
  lemma BarrierHolds(uid: nat, action: Action, turns: seq<Turn>)
    ensures var s := Run(Initial(uid, action), turns);
            && (s.mutated ==> s.prepared.Some? && s.journal == s.prepared && (s.prepared.value.Some? <==> !action.kind.Recover?))
            && (s.helper == Exited(true) ==> s.mutated && s.completed)
            && (s.coordinator.Succeeded? ==> s.completed && s.helper == Exited(true) && s.journal == s.prepared)
            && (s.coordinator.Succeeded? && !action.kind.Recover? ==> s.journal == Some(s.coordinator.result) && s.coordinator.result.Some?)
  {
    RunKeeps(Initial(uid, action), turns);
    ActionFixed(Initial(uid, action), turns);
  }

  lemma {:induction false} ActionFixed(s: State, turns: seq<Turn>)
    ensures Run(s, turns).action == s.action
    decreases |turns|
  {
    if turns != [] {
      ActionFixed(Step(s, turns[0]), turns[1..]);
    }
  }

  lemma {:induction false} RunSnoc(s: State, turns: seq<Turn>, t: Turn)
    ensures Run(s, turns + [t]) == Step(Run(s, turns), t)
    decreases |turns|
  {
    hide Step;
    if turns == [] {
      assert ([] + [t])[1..] == [];
    } else {
      assert (turns + [t])[1..] == turns[1..] + [t];
      RunSnoc(Step(s, turns[0]), turns[1..], t);
    }
  }

  ghost predicate Reaches(s: State, s': State) {
    exists turns: seq<Turn> :: Run(s, turns) == s'
  }

  lemma ReachesStep(s: State, s': State, t: Turn)
    requires Reaches(s, s')
    ensures Reaches(s, Step(s', t))
  {
    hide Step;
    var turns: seq<Turn> :| Run(s, turns) == s';
    RunSnoc(s, turns, t);
  }

  lemma ReachesItself(s: State)
    ensures Reaches(s, s)
  {
    assert Run(s, []) == s;
  }

  /** The reservations and the request, as far as the barrier. */
  lemma ReachesBarrier(uid: nat, action: Action, backup: Backup)
    requires !action.kind.Recover? && ValidBackup(backup)
    ensures Reaches(Initial(uid, action),
                    State(uid, action, Authorizing(Some(backup)), AwaitProceed(action, Some(backup)), [], [],
                          Some(Some(backup)), Some(Some(backup)), false, false))
  {
    var s := Initial(uid, action);
    var good := Luck(false, true, Some(backup), uid, true);
    var c, h := CoordinatorTurn(good), HelperTurn(good);
    ReachesItself(s);
    hide Reaches;
    ReachesStep(s, s, c);
    var s1 := Step(s, c);
    ReachesStep(s, s1, h);
    var s2 := Step(s1, h);
    ReachesStep(s, s2, c);
    var s3 := Step(s2, c);
    ReachesStep(s, s3, h);
    var s4 := Step(s3, h);
    ReachesStep(s, s4, c);
    var s5 := Step(s4, c);
    ReachesStep(s, s5, h);
    var s6 := Step(s5, h);
    assert s6 == s.(coordinator := AwaitReady, helper := Preparing(action));
    ReachesStep(s, s6, h);
    var s7 := Step(s6, h);
    ReachesStep(s, s7, h);
    var s8 := Step(s7, h);
    ReachesStep(s, s8, c);
    var s9 := Step(s8, c);
    ReachesStep(s, s9, c);
    assert Step(s9, c) == State(uid, action, Authorizing(Some(backup)), AwaitProceed(action, Some(backup)), [], [],
                                Some(Some(backup)), Some(Some(backup)), false, false);
  }

  /** The protocol can succeed, for every account and action, with every valid backup. */
  lemma SuccessIsReachable(uid: nat, action: Action, backup: Backup)
    requires !action.kind.Recover? && ValidBackup(backup)
    ensures exists turns: seq<Turn> :: Run(Initial(uid, action), turns).coordinator == Succeeded(Some(backup))
  {
    var s := Initial(uid, action);
    var b := State(uid, action, Authorizing(Some(backup)), AwaitProceed(action, Some(backup)), [], [],
                   Some(Some(backup)), Some(Some(backup)), false, false);
    var good := Luck(false, true, Some(backup), uid, true);
    var c, h := CoordinatorTurn(good), HelperTurn(good);
    ReachesBarrier(uid, action, backup);
    ReachesStep(s, b, c);
    var s1 := Step(b, c);
    ReachesStep(s, s1, h);
    var s2 := Step(s1, h);
    ReachesStep(s, s2, h);
    var s3 := Step(s2, h);
    ReachesStep(s, s3, h);
    var s4 := Step(s3, h);
    ReachesStep(s, s4, c);
    var s5 := Step(s4, c);
    ReachesStep(s, s5, c);
    var s6 := Step(s5, c);
    assert s6.coordinator == Succeeded(Some(backup));
    var turns: seq<Turn> :| Run(s, turns) == s6;
  }

  /** A helper that returns another backup than it announced is refused, although it touched the settings. */
  lemma ChangedBackupIsRefused(uid: nat, action: Action, backup: Backup, other: Backup)
    requires !action.kind.Recover? && ValidBackup(backup) && ValidBackup(other) && other != backup
    ensures exists turns: seq<Turn> :: var s := Run(Initial(uid, action), turns);
              s.coordinator == Failed && s.helper == Exited(true) && s.mutated && s.journal == Some(Some(backup))
  {
    var s := Initial(uid, action);
    var b := State(uid, action, Authorizing(Some(backup)), AwaitProceed(action, Some(backup)), [], [],
                   Some(Some(backup)), Some(Some(backup)), false, false);
    var changed := Luck(false, true, Some(other), uid, true);
    var c, h := CoordinatorTurn(changed), HelperTurn(changed);
    ReachesBarrier(uid, action, backup);
    ReachesStep(s, b, c);
    var s1 := Step(b, c);
    ReachesStep(s, s1, h);
    var s2 := Step(s1, h);
    ReachesStep(s, s2, h);
    var s3 := Step(s2, h);
    ReachesStep(s, s3, h);
    var s4 := Step(s3, h);
    ReachesStep(s, s4, c);
    var s5 := Step(s4, c);
    var turns: seq<Turn> :| Run(s, turns) == s5;
  }

  /** A recovery succeeds without a backup of its own, with whatever backup it put back. */
  lemma RecoveryIsReachable(uid: nat, config: string, restored: Option<Backup>)
    requires ValidAnswer(restored)
    ensures exists turns: seq<Turn> :: Run(Initial(uid, Action(Recover, config)), turns).coordinator == Succeeded(restored)
  {
    var action := Action(Recover, config);
    var s := Initial(uid, action);
    var good := Luck(false, true, restored, uid, true);
    var c, h := CoordinatorTurn(good), HelperTurn(good);
    ReachesRecovery(uid, config, restored);
    var b := State(uid, action, Authorizing(None), AwaitProceed(action, None), [], [], Some(None), Some(None), false, false);
    ReachesStep(s, b, c);
    var s1 := Step(b, c);
    ReachesStep(s, s1, h);
    var s2 := Step(s1, h);
    ReachesStep(s, s2, h);
    var s3 := Step(s2, h);
    ReachesStep(s, s3, h);
    var s4 := Step(s3, h);
    ReachesStep(s, s4, c);
    var s5 := Step(s4, c);
    ReachesStep(s, s5, c);
    var s6 := Step(s5, c);
    assert s6.coordinator == Succeeded(restored);
    var turns: seq<Turn> :| Run(s, turns) == s6;
  }

  lemma ReachesRecovery(uid: nat, config: string, restored: Option<Backup>)
    ensures var action := Action(Recover, config);
            Reaches(Initial(uid, action),
                    State(uid, action, Authorizing(None), AwaitProceed(action, None), [], [], Some(None), Some(None), false, false))
  {
    var action := Action(Recover, config);
    var s := Initial(uid, action);
    var good := Luck(false, true, restored, uid, true);
    var c, h := CoordinatorTurn(good), HelperTurn(good);
    ReachesItself(s);
    hide Reaches;
    ReachesStep(s, s, c);
    var s1 := Step(s, c);
    ReachesStep(s, s1, h);
    var s2 := Step(s1, h);
    ReachesStep(s, s2, c);
    var s3 := Step(s2, c);
    ReachesStep(s, s3, h);
    var s4 := Step(s3, h);
    ReachesStep(s, s4, c);
    var s5 := Step(s4, c);
    ReachesStep(s, s5, h);
    var s6 := Step(s5, h);
    assert s6 == s.(coordinator := AwaitReady, helper := Preparing(action));
    ReachesStep(s, s6, h);
    var s7 := Step(s6, h);
    ReachesStep(s, s7, h);
    var s8 := Step(s7, h);
    ReachesStep(s, s8, c);
    var s9 := Step(s8, c);
    ReachesStep(s, s9, c);
    assert Step(s9, c) == State(uid, action, Authorizing(None), AwaitProceed(action, None), [], [], Some(None), Some(None), false, false);
  }
}
