/** The host's service selection and its startup gate, over every run of the operations that change
    them. */
module Gate {
  import opened Modes
  import opened Names

  datatype Selection = Selection(scope: Scope, uid: nat)

  /** The stored record; a record with an operation is a closed gate. */
  datatype Record = Record(version: nat, selection: Option<Selection>, operation: Option<string>)

  type Stored = Option<Record>

  /** A nonzero identifier of 32 hexadecimal digits. */
  predicate ValidOperation(id: string) {
    && |id| == 32 && (forall i | 0 <= i < |id| :: IsHexDigit(id[i]))
    && exists i :: 0 <= i < |id| && id[i] != '0'
  }

  predicate ValidRecord(r: Record) {
    && (r.selection.Some? ==> r.selection.value.uid != 0)
    && ((r.version == 1 && r.operation.None? && r.selection.Some?)
        || (r.version == 2 && r.operation.Some? && ValidOperation(r.operation.value)))
  }

  predicate ValidStored(s: Stored) {
    s.Some? ==> ValidRecord(s.value)
  }

  function Operation(s: Stored): Option<string> {
    if s.Some? then s.value.operation else None
  }

  function Chosen(s: Stored): Option<Selection> {
    if s.Some? then s.value.selection else None
  }

  /** Whether a daemon may start in a mode and account. */
  predicate Allows(s: Stored, scope: Scope, uid: nat) {
    s.Some? ==> s.value.operation.None? && (s.value.selection.Some? ==> s.value.selection.value == Selection(scope, uid))
  }

  /** What publishing a selection stores: one record, or none. */
  function Published(selection: Option<Selection>): Stored {
    if selection.Some? then Some(Record(1, selection, None)) else None
  }

  /** The record of a closed gate, unless another operation closed it. */
  function Paused(previous: Stored, id: string): Option<Record> {
    if ValidOperation(id) && (Operation(previous).None? || Operation(previous) == Some(id))
    then Some(Record(2, Chosen(previous), Some(id))) else None
  }

  /** A gate may be opened by its own operation; one that is open already must show the selection. */
  predicate MayResume(current: Stored, id: string, selection: Option<Selection>) {
    ValidOperation(id) && if Operation(current).Some? then Operation(current) == Some(id) else Chosen(current) == selection
  }

  /** What happens around a publication: whether the locks verify, whether the new record is in place,
      and whether that is confirmed. */
  datatype Luck = Luck(verified: bool, written: bool, confirmed: bool)

  /** The directory with the stored record. */
  class Store {
    var record: Stored

    ghost predicate Valid()
      reads this
    {
      ValidStored(record)
    }

    constructor ()
      ensures Valid() && record == None
    {
      record := None;
    }

    /** An atomic replacement that may be interrupted before it, or after it and before its
        confirmation. */
    method Put(next: Stored, luck: Luck) returns (ok: bool)
      requires Valid()
      modifies this
      ensures Valid()
      ensures record == if ValidStored(next) && luck.written then next else old(record)
      ensures ok <==> ValidStored(next) && luck.written && luck.confirmed
    {
      if !(next.Some? ==> ValidRecord(next.value)) || !luck.written {
        return false;
      }
      record := next;
      ok := luck.confirmed;
    }

    /** Replaces the selection; refused while the gate is closed. */
    method Replace(selection: Option<Selection>, luck: Luck) returns (ok: bool)
      requires Valid()
      modifies this
      ensures Valid() && record == After(old(record), Replace_(selection, luck))
      ensures ok <==> Admits(old(record), Replace_(selection, luck)) && luck.written && luck.confirmed
      ensures ok ==> record == Published(selection) && Chosen(record) == selection && Operation(old(record)).None?
      ensures !ok ==> record == old(record) || record == Published(selection)
      ensures Operation(old(record)).Some? ==> !ok && record == old(record)
    {
      if !luck.verified || (selection.Some? && selection.value.uid == 0) || Operation(record).Some? {
        return false;
      }
      ok := Put(Published(selection), luck);
    }

    /** Closes the gate for an operation. */
    method Pause(id: string, luck: Luck) returns (ok: bool)
      requires Valid()
      modifies this
      ensures Valid() && record == After(old(record), Pause_(id, luck))
      ensures ok <==> Admits(old(record), Pause_(id, luck)) && luck.written && luck.confirmed
      ensures ok ==> Operation(record) == Some(id) && Chosen(record) == Chosen(old(record))
    {
      if !luck.verified {
        return false;
      }
      var next := Paused(record, id);
      if next.None? {
        return false;
      }
      ok := Put(next, luck);
    }

    /** Opens the gate with a selection. */
    method Resume(id: string, selection: Option<Selection>, luck: Luck) returns (ok: bool)
      requires Valid()
      modifies this
      ensures Valid() && record == After(old(record), Resume_(id, selection, luck))
      ensures ok <==> Admits(old(record), Resume_(id, selection, luck)) && luck.written && luck.confirmed
      ensures ok ==> record == Published(selection) && Operation(record).None? && Chosen(record) == selection
      ensures !ok ==> record == old(record) || record == Published(selection)
    {
      if !luck.verified || !MayResume(record, id, selection) {
        return false;
      }
      ok := Put(Published(selection), luck);
    }

    /** Opens the gate for a system daemon that is still running. `meanwhile` is what the store holds
        after the first verification of that daemon, whoever wrote it. */
    method ResumeLive(id: string, selection: Selection, first: bool, meanwhile: Stored, second: bool, luck: Luck) returns (ok: bool)
      requires Valid() && ValidStored(meanwhile)
      modifies this
      ensures Valid()
      // Nothing is published unless the record survived the verification unchanged.
      ensures record == LiveAfter(old(record), id, selection, first, meanwhile, luck)
      ensures record != meanwhile && record != old(record) ==>
                meanwhile == old(record) && Operation(old(record)) == Some(id) && record == Published(Some(selection))
      ensures ok <==> && selection.scope.System? && selection.uid != 0 && MayResume(old(record), id, Some(selection))
                      && first && luck.verified && meanwhile == old(record) && second
                      && (Operation(old(record)).Some? ==> luck.written && luck.confirmed)
      ensures ok ==> Operation(record).None? && Chosen(record) == Some(selection)
    {
      if !selection.scope.System? || selection.uid == 0 || !MayResume(record, id, Some(selection)) {
        return false;
      }
      var previous := record;
      record := meanwhile;
      if !first || record != previous || !luck.verified {
        return false;
      }
      if Operation(previous).Some? {
        var published := Put(Published(Some(selection)), luck);
        if !published {
          return false;
        }
      }
      ok := second;
    }
  }

  // Runs.

  /** A live resume overlaps the requests made while its source is verified. */
  datatype Request =
    | Replace_(selection: Option<Selection>, luck: Luck)
    | Pause_(id: string, luck: Luck)
    | Resume_(id: string, selection: Option<Selection>, luck: Luck)
    | ResumeLive_(id: string, source: Selection, verified: bool, between: seq<Request>, luck: Luck)

  /** Whether a request is acted upon. */
  predicate Admits(s: Stored, r: Request)
    requires !r.ResumeLive_?
  {
    match r
    case Replace_(selection, luck) => luck.verified && (selection.Some? ==> selection.value.uid != 0) && Operation(s).None?
    case Pause_(id, luck) => luck.verified && Paused(s, id).Some? && ValidStored(Paused(s, id))
    case Resume_(id, selection, luck) =>
      luck.verified && MayResume(s, id, selection) && (selection.Some? ==> selection.value.uid != 0)
  }

  function Kept(s: Stored, next: Stored, luck: Luck): Stored {
    if ValidStored(next) && luck.written then next else s
  }

  /** What a live resume leaves, when the store holds `meanwhile` after the first verification. */
  function LiveAfter(s: Stored, id: string, selection: Selection, first: bool, meanwhile: Stored, luck: Luck): Stored {
    if !selection.scope.System? || selection.uid == 0 || !MayResume(s, id, Some(selection)) then s
    else if first && luck.verified && meanwhile == s && Operation(s).Some? then Kept(s, Published(Some(selection)), luck)
    else meanwhile
  }

  /** The record a request leaves. */
  function After(s: Stored, r: Request): Stored
    decreases r
  {
    match r
    case Replace_(selection, luck) => if Admits(s, r) then Kept(s, Published(selection), luck) else s
    case Pause_(id, luck) => if Admits(s, r) then Kept(s, Paused(s, id), luck) else s
    case Resume_(id, selection, luck) => if Admits(s, r) then Kept(s, Published(selection), luck) else s
    case ResumeLive_(id, source, verified, between, luck) => LiveAfter(s, id, source, verified, Run(s, between), luck)
  }

  function Run(s: Stored, requests: seq<Request>): Stored
    decreases requests
  {
    if requests == [] then s else Run(After(s, requests[0]), requests[1..])
  }

  /** A request by which an operation opens its gate. */
  predicate Opens(r: Request, id: string) {
    (r.Resume_? && r.id == id) || (r.ResumeLive_? && r.id == id)
  }

  /** The identifiers of operations are the hexadecimal notations of nonzero 128-bit numbers. */
  lemma OperationsAreNumbers(id: string)
    ensures ValidOperation(id) <==> |id| == 32 && HexNumber(id).Some? && HexNumber(id).value > 0
  {
    HexDigitsDenote(id);
    hide IsHexDigit;
  }

  /** Who may launch after a selection was published, by replacing or by opening the gate: the selected
      account in the selected mode and nobody else, or everybody when there is none. */
  lemma SelectionLaunches(s: Stored, r: Request, scope: Scope, uid: nat)
    requires ValidStored(s) && (r.Replace_? || r.Resume_?) && Admits(s, r) && r.luck.written
    ensures Allows(After(s, r), scope, uid) <==> (r.selection.Some? ==> r.selection.value.scope == scope && r.selection.value.uid == uid)
    ensures Allows(After(s, r), scope, 0) ==> r.selection.None?
  {
  }

  /** At most one mode and account may launch, unless nothing is selected. */
  lemma OneLauncher(s: Stored, scope: Scope, uid: nat, scope': Scope, uid': nat)
    requires ValidStored(s) && Allows(s, scope, uid) && Allows(s, scope', uid')
    ensures s == None || (scope == scope' && uid == uid' && s == Some(Record(1, Some(Selection(scope, uid)), None)))
  {
  }

  /** Which requests are acted upon, by the record alone: a replacement exactly while no operation holds
      the gate; a pause exactly while none or the same one does; a resume exactly for the operation that
      holds it or, while it is open, for the selection that is already there. */
  lemma AdmittedExactly(s: Stored, id: string, selection: Option<Selection>, luck: Luck)
    requires ValidStored(s) && luck.verified && ValidOperation(id) && (selection.Some? ==> selection.value.uid > 0)
    ensures Admits(s, Replace_(selection, luck)) <==> s.None? || s.value.operation.None?
    ensures Admits(s, Pause_(id, luck)) <==> s.None? || s.value.operation.None? || s.value.operation == Some(id)
    ensures Admits(s, Resume_(id, selection, luck)) <==>
              if s.None? then selection.None?
              else if s.value.operation.None? then s.value.selection == selection
              else s.value.operation.value == id
  {
    assert s.Some? ==> ValidStored(Some(Record(2, s.value.selection, Some(id))));
  }

  /** Nothing is acted upon without the locks, for the administrator's account, or under an identifier that
      is none. */
  lemma NeverAdmitted(s: Stored, id: string, selection: Option<Selection>, luck: Luck)
    ensures !luck.verified ==> !Admits(s, Replace_(selection, luck)) && !Admits(s, Pause_(id, luck)) && !Admits(s, Resume_(id, selection, luck))
    ensures selection.Some? && selection.value.uid == 0 ==> !Admits(s, Replace_(selection, luck)) && !Admits(s, Resume_(id, selection, luck))
    ensures !ValidOperation(id) ==> !Admits(s, Pause_(id, luck)) && !Admits(s, Resume_(id, selection, luck))
  {
  }

  /** A live resume opens the gate of its operation, and only of that, when both its source and the locks
      verify and nobody touched the record meanwhile. */
  lemma LiveOpens(s: Stored, id: string, source: Selection, verified: bool, between: seq<Request>, luck: Luck)
    requires ValidStored(s) && s.Some? && s.value.operation.Some? && luck.written
    ensures After(s, ResumeLive_(id, source, verified, between, luck)) ==
            if source.scope == System && source.uid > 0 && s.value.operation.value == id && verified && luck.verified && Run(s, between) == s
            then Some(Record(1, Some(source), None))
            else if source.scope == System && source.uid > 0 && s.value.operation.value == id then Run(s, between)
            else s
  {
    assert ValidOperation(s.value.operation.value);
  }

  /** While an operation holds the gate nobody may start a daemon, and only that operation changes the
      record: it can close the gate again, which changes nothing, or open it with a selection. */
  lemma ClosedGate(s: Stored, id: string, r: Request)
    requires ValidStored(s) && Operation(s) == Some(id)
    ensures forall scope: Scope, uid: nat :: !Allows(s, scope, uid)
    ensures After(s, r) != s ==> Opens(r, id) && (r.Resume_? || r.ResumeLive_?) && r.id == id
    ensures r.Resume_? && After(s, r) != s ==> After(s, r) == Published(r.selection)
    ensures r.ResumeLive_? && After(s, r) != s ==> After(s, r) == Published(Some(r.source)) || After(s, r) == Run(s, r.between)
  {
    assert s.value.version == 2 && ValidOperation(id);
  }

  /** Every stored record is valid, whatever was requested. */
  lemma {:induction false} RunKeepsValid(s: Stored, requests: seq<Request>)
    requires ValidStored(s)
    ensures ValidStored(Run(s, requests))
    decreases requests
  {
    if requests != [] {
      AfterKeepsValid(s, requests[0]);
      RunKeepsValid(After(s, requests[0]), requests[1..]);
    }
  }

  lemma {:induction false} AfterKeepsValid(s: Stored, r: Request)
    requires ValidStored(s)
    ensures ValidStored(After(s, r))
    decreases r
  {
    if r.ResumeLive_? {
      RunKeepsValid(s, r.between);
    }
  }

  /** A closed gate survives every run of requests of other operations, live ones included, and of
      pauses of its own, with the selection it was closed over. */
  lemma {:induction false} GateSurvives(s: Stored, id: string, requests: seq<Request>)
    requires ValidStored(s) && Operation(s) == Some(id)
    requires forall r | r in requests :: !Opens(r, id)
    ensures Run(s, requests) == s
    decreases |requests|
  {
    if requests != [] {
      ClosedGate(s, id, requests[0]);
      GateSurvives(s, id, requests[1..]);
    }
  }

  /** Closing the gate keeps the selection underneath, so that opening it with that selection restores
      the record exactly, after any run in between that does not open it. */
  lemma PauseThenResume(s: Stored, id: string, pause: Luck, between: seq<Request>, resume: Luck)
    requires ValidStored(s) && Operation(s).None? && ValidOperation(id)
    requires pause.verified && pause.written && resume.verified && resume.written
    requires forall r | r in between :: !Opens(r, id)
    ensures var closed := After(s, Pause_(id, pause));
            && Operation(closed) == Some(id) && Chosen(closed) == Chosen(s)
            && Run(closed, between) == closed
            && After(Run(closed, between), Resume_(id, Chosen(s), resume)) == s
  {
    var closed := After(s, Pause_(id, pause));
    assert ValidStored(Some(Record(2, Chosen(s), Some(id))));
    GateSurvives(closed, id, between);
    assert ValidStored(Published(Chosen(s)));
  }

  /** An interrupted resume that is retried with the same selection ends in the same record as one that
      was not interrupted, wherever it was interrupted and however often it is repeated. */
  lemma {:induction false} ResumeConverges(s: Stored, id: string, selection: Option<Selection>, tries: seq<Luck>, last: Luck)
    requires ValidStored(s) && MayResume(s, id, selection) && last.verified && last.written
    requires selection.Some? ==> selection.value.uid != 0
    ensures var requests := seq(|tries|, i requires 0 <= i < |tries| => Resume_(id, selection, tries[i]));
            After(Run(s, requests), Resume_(id, selection, last)) == Published(selection)
    decreases |tries|
  {
    var requests := seq(|tries|, i requires 0 <= i < |tries| => Resume_(id, selection, tries[i]));
    if tries != [] {
      var s' := After(s, requests[0]);
      assert s' == s || s' == Published(selection);
      assert MayResume(s', id, selection) && ValidStored(s');
      ResumeConverges(s', id, selection, tries[1..], last);
      assert requests[1..] == seq(|tries[1..]|, i requires 0 <= i < |tries[1..]| => Resume_(id, selection, tries[1..][i]));
    }
  }
}
