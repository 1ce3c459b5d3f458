/** Validating media with a decoder whose results are cached, while the files may change. */
module DecoderCache {
  import opened Names
  import opened Staging
  import opened Storage

  datatype Kind = File | Image | Video | Gif | Font

  datatype Dependency = Dependency(owner: string, path: string, kind: Kind)

  type Key = (string, Kind)

  datatype Decoded = Decoded(identity: Identity, error: Option<string>)

  datatype Issue = Issue(owner: string, path: string, error: string)

  datatype Report = Report(checked: nat, failed: nat, issues: seq<Issue>)

  /** What was asked of an open file, which is known by the moment it was opened: its identity, or what the
      decoder says about it. */
  datatype Event = Asked(path: string, file: nat, seen: Identity) | Ran(path: string, kind: Kind, file: nat, error: Option<string>)

  const MAX_ISSUES: nat := 32
  const MAX_ERROR: nat := 512

  const CHANGED := "Destination media changed during decoding"
  const UNOPENED := "Opening destination media"

  /** At most 512 characters of an error are kept. */
  function Cut(error: string): (r: string)
    ensures r <= error && |r| <= 512 && (r == error || |r| == 512)
  {
    if |error| <= MAX_ERROR then error else error[..MAX_ERROR]
  }

  function CutError(error: Option<string>): Option<string> {
    if error.Some? then Some(Cut(error.value)) else None
  }

  /** The files as time passes: whether a path opens at a moment, what an open file's identity is at
      a later moment, and what the decoder says about an open file. Every question takes a moment,
      and nothing relates one moment to the next. */
  class Media {
    const opens: (nat, string) -> bool
    const held: (nat, nat, string) -> Identity
    const decoder: (nat, nat, string, Kind) -> Option<string>
    var now: nat
    ghost var events: seq<Event>
    ghost var runs: seq<Key>

    constructor (opens: (nat, string) -> bool, held: (nat, nat, string) -> Identity,
                 decoder: (nat, nat, string, Kind) -> Option<string>)
      ensures this.opens == opens && this.held == held && this.decoder == decoder
      ensures now == 0 && events == [] && runs == []
    {
      this.opens, this.held, this.decoder, now, events, runs := opens, held, decoder, 0, [], [];
    }

    method Open(path: string) returns (file: Option<nat>)
      modifies `now
      ensures now == old(now) + 1 && file == if opens(old(now), path) then Some(old(now)) else None
    {
      file := if opens(now, path) then Some(now) else None;
      now := now + 1;
    }

    method Ask(path: string, file: nat) returns (identity: Identity)
      modifies `now, `events
      ensures now == old(now) + 1 && identity == held(file, old(now), path)
      ensures events == old(events) + [Asked(path, file, identity)]
    {
      identity := held(file, now, path);
      events := events + [Asked(path, file, identity)];
      now := now + 1;
    }

    method Decode(path: string, kind: Kind, file: nat) returns (error: Option<string>)
      modifies `now, `events, `runs
      ensures now == old(now) + 1 && error == CutError(decoder(file, old(now), path, kind))
      ensures events == old(events) + [Ran(path, kind, file, error)] && runs == old(runs) + [(path, kind)]
    {
      error := CutError(decoder(file, now, path, kind));
      events := events + [Ran(path, kind, file, error)];
      runs := runs + [(path, kind)];
      now := now + 1;
    }
  }

  /** An open file showed the identity, and then the decoder ran on that very file. */
  ghost predicate RanOn(events: seq<Event>, key: Key, decoded: Decoded, i: nat) {
    && i + 1 < |events| && events[i].Asked? && events[i].path == key.0 && events[i].seen == decoded.identity
    && events[i + 1] == Ran(key.0, key.1, events[i].file, decoded.error)
  }

  ghost predicate Decodes(events: seq<Event>, key: Key, decoded: Decoded) {
    exists i: nat :: RanOn(events, key, decoded, i)
  }

  /** Every cached result came from a run of the decoder on a file with the cached identity. */
  ghost predicate Backed(events: seq<Event>, cache: map<Key, Decoded>) {
    forall key | key in cache :: Decodes(events, key, cache[key])
  }

  lemma DecodesStill(events: seq<Event>, more: seq<Event>, key: Key, decoded: Decoded)
    requires Decodes(events, key, decoded) && events <= more
    ensures Decodes(more, key, decoded)
  {
    var i: nat :| RanOn(events, key, decoded, i);
    assert more[i] == events[i] && more[i + 1] == events[i + 1];
    assert RanOn(more, key, decoded, i);
  }

  lemma BackedGrows(events: seq<Event>, more: seq<Event>, cache: map<Key, Decoded>)
    requires Backed(events, cache) && events <= more
    ensures Backed(more, cache)
  {
    hide Decodes;
    forall key | key in cache ensures Decodes(more, key, cache[key]) {
      DecodesStill(events, more, key, cache[key]);
    }
  }

  lemma BackedAdds(events: seq<Event>, cache: map<Key, Decoded>, key: Key, decoded: Decoded, file: nat)
    requires Backed(events, cache) && events != [] && events[|events| - 1] == Asked(key.0, file, decoded.identity)
    ensures Backed(events + [Ran(key.0, key.1, file, decoded.error)], cache[key := decoded])
  {
    var more := events + [Ran(key.0, key.1, file, decoded.error)];
    BackedGrows(events, more, cache);
    assert RanOn(more, key, decoded, |events| - 1);
  }

  /** Every key of a dependency before `k` has a successful cached result. */
  ghost predicate AllGood(deps: seq<Dependency>, k: nat, cache: map<Key, Decoded>) {
    k <= |deps| && forall i | 0 <= i < k :: GoodAt(deps[i], cache)
  }

  function KeyOf(d: Dependency): Key {
    (d.path, d.kind)
  }

  ghost predicate GoodAt(d: Dependency, cache: map<Key, Decoded>) {
    KeyOf(d) in cache && cache[KeyOf(d)].error.None?
  }

  /** Files that do not change, and a decoder that always says the same about them. */
  ghost predicate Steady(opens: (nat, string) -> bool, held: (nat, nat, string) -> Identity,
                         decoder: (nat, nat, string, Kind) -> Option<string>) {
    && (forall t: nat, p: string :: opens(t, p) == opens(0, p))
    && (forall f: nat, t: nat, p: string :: held(f, t, p) == held(0, 0, p))
    && (forall f: nat, t: nat, p: string, k: Kind :: decoder(f, t, p, k) == decoder(0, 0, p, k))
  }

  /** The outcome for a dependency without any cache. */
  function Judged(media: Media, d: Dependency): Option<string> {
    if media.opens(0, d.path) then CutError(media.decoder(0, 0, d.path, d.kind)) else Some(UNOPENED)
  }

  /** In steady files the cache holds what the decoder says. */
  ghost predicate SteadyCache(media: Media, cache: map<Key, Decoded>) {
    forall key | key in cache ::
      && media.opens(0, key.0)
      && cache[key] == Decoded(media.held(0, 0, key.0), CutError(media.decoder(0, 0, key.0, key.1)))
  }

  /** What one dependency adds to the cache, and to the runs of the decoder, in steady files. */
  ghost predicate SteadyStep(media: Media, d: Dependency, cache: map<Key, Decoded>, cache': map<Key, Decoded>, runs: seq<Key>, runs': seq<Key>) {
    && SteadyCache(media, cache')
    && if KeyOf(d) in cache || !media.opens(0, d.path) then cache' == cache && runs' == runs
       else cache'.Keys == cache.Keys + {KeyOf(d)} && runs' == runs + [KeyOf(d)]
  }

  // Why a dependency ended as it did.

  /** The file was the same when it was opened, after the decoder, and when its path was opened again. */
  predicate Unmoved(path: string, identity: Identity, seen: seq<Event>) {
    && |seen| >= 3 && seen[0].Asked? && seen[0] == seen[|seen| - 2] == Asked(path, seen[0].file, identity)
    && SeenAgain(path, seen[0].file, seen[|seen| - 1]) && seen[|seen| - 1].seen == identity
  }

  /** The path was opened again, later. */
  predicate SeenAgain(path: string, file: nat, e: Event) {
    e.Asked? && e.path == path && e.file > file
  }

  /** The file was another one when it was last asked: the open one, or the one at its path. */
  predicate Moved(path: string, identity: Identity, seen: seq<Event>) {
    && |seen| >= 2 && seen[0].Asked? && seen[0] == Asked(path, seen[0].file, identity)
    && var last := seen[|seen| - 1];
    && last.Asked? && last.path == path && last.seen != identity
    && (last.file == seen[0].file || (|seen| >= 3 && seen[|seen| - 2] == seen[0] && SeenAgain(path, seen[0].file, last)))
  }

  predicate Explains(d: Dependency, decoded: Decoded, seen: seq<Event>, error: Option<string>) {
    || (error == Some(CHANGED) && Moved(d.path, decoded.identity, seen))
    || (error == decoded.error && Unmoved(d.path, decoded.identity, seen))
  }

  ghost predicate NotOpen(opens: (nat, string) -> bool, path: string, from: nat, to: nat) {
    exists t: nat :: from <= t < to && !opens(t, path)
  }

  ghost predicate ExplainedBy(d: Dependency, since: nat, events: seq<Event>, error: Option<string>, decoded: Decoded, a: nat, b: nat) {
    && since <= a <= b <= |events| && Decodes(events, KeyOf(d), decoded)
    && Explains(d, decoded, events[a..b], error)
  }

  /** A dependency succeeds or fails as the decoder said about the very file that was opened for it, unless
      the path did not open, or the file changed meanwhile. The looks at the file are not before `since`;
      the decoder may have run earlier, on the same identity. */
  ghost predicate Accounted(opens: (nat, string) -> bool, d: Dependency, from: nat, to: nat, since: nat, events: seq<Event>, error: Option<string>) {
    || (error == Some(UNOPENED) && NotOpen(opens, d.path, from, to))
    || exists decoded: Decoded, a: nat, b: nat :: ExplainedBy(d, since, events, error, decoded, a, b)
  }

  lemma AccountedUnopened(opens: (nat, string) -> bool, d: Dependency, from: nat, to: nat, since: nat, events: seq<Event>, t: nat)
    requires from <= t < to && !opens(t, d.path)
    ensures Accounted(opens, d, from, to, since, events, Some(UNOPENED))
  {
  }

  lemma AccountedBacked(opens: (nat, string) -> bool, d: Dependency, from: nat, to: nat, before: seq<Event>, events: seq<Event>,
                        cache: map<Key, Decoded>, error: Option<string>)
    requires Backed(events, cache) && KeyOf(d) in cache && before <= events
    requires Explains(d, cache[KeyOf(d)], events[|before|..], error)
    ensures Accounted(opens, d, from, to, |before|, events, error)
  {
    hide Explains, Decodes;
    assert events[|before|..|events|] == events[|before|..];
    assert ExplainedBy(d, |before|, events, error, cache[KeyOf(d)], |before|, |events|);
  }

  /** One dependency: reuse the result for the same identity, or decode; then the file must still be
      what it was, through the open file and through the path. */
  method CheckOne(media: Media, d: Dependency, cache: map<Key, Decoded>) returns (cache': map<Key, Decoded>, error: Option<string>)
    requires Backed(media.events, cache)
    modifies media
    ensures Backed(media.events, cache') && old(media.events) <= media.events && media.now <= old(media.now) + 6
    ensures media.now >= old(media.now)
    ensures error.None? ==> GoodAt(d, cache')
    ensures Accounted(media.opens, d, old(media.now), media.now, |old(media.events)|, media.events, error)
    ensures forall key | key in cache && key != KeyOf(d) :: key in cache' && cache'[key] == cache[key]
    ensures cache.Keys <= cache'.Keys <= cache.Keys + {KeyOf(d)}
    ensures Steady(media.opens, media.held, media.decoder) && SteadyCache(media, cache) ==>
              error == Judged(media, d) && SteadyStep(media, d, cache, cache', old(media.runs), media.runs)
  {
    hide Backed, Accounted, Rechecked;
    cache' := cache;
    ghost var from, events0 := media.now, media.events;
    var file := media.Open(d.path);
    if file.None? {
      AccountedUnopened(media.opens, d, from, media.now, |events0|, media.events, from);
      return cache', Some(UNOPENED);
    }
    var before := media.Ask(d.path, file.value);
    BackedGrows(old(media.events), media.events, cache);
    cache', error := Result(media, d, file.value, before, cache);
    ghost var middle, events := media.now, media.events;
    var moved := Recheck(media, d.path, file.value, before);
    BackedGrows(events, media.events, cache');
    RecheckedExplains(media.opens, d, file.value, from, middle, media.now, events0, events, media.events, cache', error, moved);
    error := if moved.Some? then moved else error;
  }

  /** After the decoder: the open file and the path must both still show the identity from before. */
  method Recheck(media: Media, path: string, file: nat, before: Identity) returns (moved: Option<string>)
    requires file < media.now
    modifies media
    ensures media.runs == old(media.runs) && old(media.now) <= media.now <= old(media.now) + 3
    ensures old(media.events) <= media.events
    ensures Rechecked(media.opens, path, file, before, old(media.now), media.now, old(media.events), media.events, moved)
    ensures Steady(media.opens, media.held, media.decoder) && before == media.held(0, 0, path) && media.opens(0, path) ==> moved.None?
  {
    var after := media.Ask(path, file);
    if after != before {
      return Some(CHANGED);
    }
    var again := media.Open(path);
    if again.None? {
      return Some(UNOPENED);
    }
    var current := media.Ask(path, again.value);
    return if current != before then Some(CHANGED) else None;
  }

  /** The second look: at the open file, and then at what its path opens now. */
  ghost predicate Rechecked(opens: (nat, string) -> bool, path: string, file: nat, before: Identity, from: nat, to: nat,
                            events: seq<Event>, events': seq<Event>, moved: Option<string>)
  {
    match moved
    case None => exists again: nat :: again >= from && events' == events + [Asked(path, file, before), Asked(path, again, before)]
    case Some(error) =>
      || (error == UNOPENED && NotOpen(opens, path, from, to))
      || (error == CHANGED && exists now: Identity :: now != before && events' == events + [Asked(path, file, now)])
      || (error == CHANGED && exists again: nat, now: Identity ::
            again >= from && now != before && events' == events + [Asked(path, file, before), Asked(path, again, now)])
  }

  /** Whatever the second look says explains the outcome. */
  lemma RecheckedExplains(opens: (nat, string) -> bool, d: Dependency, file: nat, from: nat, middle: nat, to: nat, events0: seq<Event>,
                          events: seq<Event>, events': seq<Event>, cache: map<Key, Decoded>, error: Option<string>, moved: Option<string>)
    requires Backed(events', cache) && KeyOf(d) in cache && cache[KeyOf(d)].error == error && file < middle && from <= middle
    requires events0 + [Asked(d.path, file, cache[KeyOf(d)].identity)] <= events <= events'
    requires Rechecked(opens, d.path, file, cache[KeyOf(d)].identity, middle, to, events, events', moved)
    ensures Accounted(opens, d, from, to, |events0|, events', if moved.Some? then moved else error)
  {
    hide Backed, Accounted;
    if moved.Some? && NotOpen(opens, d.path, middle, to) && moved.value == UNOPENED {
      var t: nat :| middle <= t < to && !opens(t, d.path);
      AccountedUnopened(opens, d, from, to, |events0|, events', t);
    } else {
      assert events'[|events0|..][0] == Asked(d.path, file, cache[KeyOf(d)].identity);
      AccountedBacked(opens, d, from, to, events0, events', cache, if moved.Some? then moved else error);
    }
  }

  method Result(media: Media, d: Dependency, file: nat, before: Identity, cache: map<Key, Decoded>)
    returns (cache': map<Key, Decoded>, error: Option<string>)
    requires Backed(media.events, cache)
    requires media.events != [] && media.events[|media.events| - 1] == Asked(d.path, file, before)
    modifies media
    ensures Backed(media.events, cache') && old(media.events) <= media.events && media.now <= old(media.now) + 1
    ensures media.now >= old(media.now)
    ensures media.events == old(media.events) || media.events == old(media.events) + [Ran(d.path, d.kind, file, error)]
    ensures KeyOf(d) in cache' && cache'[KeyOf(d)] == Decoded(before, error)
    ensures forall key | key in cache && key != KeyOf(d) :: key in cache' && cache'[key] == cache[key]
    ensures cache.Keys <= cache'.Keys <= cache.Keys + {KeyOf(d)}
    ensures Steady(media.opens, media.held, media.decoder) && SteadyCache(media, cache)
            && before == media.held(0, 0, d.path) && media.opens(0, d.path) ==>
              error == Judged(media, d) && SteadyStep(media, d, cache, cache', old(media.runs), media.runs)
  {
    hide Backed;
    if KeyOf(d) in cache && cache[KeyOf(d)].identity == before {
      return cache, cache[KeyOf(d)].error;
    }
    error := media.Decode(d.path, d.kind, file);
    BackedAdds(old(media.events), cache, KeyOf(d), Decoded(before, error), file);
    cache' := cache[KeyOf(d) := Decoded(before, error)];
  }

  // The report.

  function FirstIssues(deps: seq<Dependency>, outcomes: seq<Option<string>>): (issues: seq<Issue>)
    requires |outcomes| <= |deps|
    ensures |issues| <= MAX_ISSUES
  {
    if outcomes == [] then []
    else
      var k := |outcomes| - 1;
      var before := FirstIssues(deps, outcomes[..k]);
      if outcomes[k].Some? && |before| < MAX_ISSUES then before + [Issue(deps[k].owner, deps[k].path, Cut(outcomes[k].value))] else before
  }

  function Failures(outcomes: seq<Option<string>>): nat {
    if outcomes == [] then 0
    else Failures(outcomes[..|outcomes| - 1]) + if outcomes[|outcomes| - 1].Some? then 1 else 0
  }

  /** The report of the outcomes of all dependencies, in order. */
  function ReportOf(deps: seq<Dependency>, outcomes: seq<Option<string>>): Report
    requires |outcomes| <= |deps|
  {
    Report(|outcomes|, Failures(outcomes), FirstIssues(deps, outcomes))
  }

  lemma {:induction false} NoFailures(outcomes: seq<Option<string>>)
    ensures Failures(outcomes) == 0 <==> forall i | 0 <= i < |outcomes| :: outcomes[i].None?
  {
    if outcomes != [] {
      NoFailures(outcomes[..|outcomes| - 1]);
    }
  }

  /** The issue tells the failure of dependency `i`. */
  ghost predicate Tells(deps: seq<Dependency>, outcomes: seq<Option<string>>, i: nat, issue: Issue)
  {
    i < |outcomes| <= |deps| && outcomes[i].Some? && issue == Issue(deps[i].owner, deps[i].path, Cut(outcomes[i].value))
  }

  /** The issue at place `j` tells the failure that has `j` failures before it. */
  ghost predicate Told(deps: seq<Dependency>, outcomes: seq<Option<string>>, j: nat, issue: Issue) {
    exists i: nat :: Tells(deps, outcomes, i, issue) && Failures(outcomes[..i]) == j
  }

  /** The first 32 failures are reported in order, and nothing else. */
  lemma {:induction false} IssuesAreFailures(deps: seq<Dependency>, outcomes: seq<Option<string>>)
    requires |outcomes| <= |deps|
    ensures |FirstIssues(deps, outcomes)| == if Failures(outcomes) <= 32 then Failures(outcomes) else 32
    ensures forall j | 0 <= j < |FirstIssues(deps, outcomes)| :: Told(deps, outcomes, j, FirstIssues(deps, outcomes)[j])
  {
    if outcomes != [] {
      var k := |outcomes| - 1;
      var front := outcomes[..k];
      IssuesAreFailures(deps, front);
      var issues := FirstIssues(deps, outcomes);
      forall j | 0 <= j < |issues| ensures Told(deps, outcomes, j, issues[j]) {
        if j < |FirstIssues(deps, front)| {
          var i: nat :| Tells(deps, front, i, issues[j]) && Failures(front[..i]) == j;
          assert front[..i] == outcomes[..i];
          assert Tells(deps, outcomes, i, issues[j]);
        } else {
          assert Tells(deps, outcomes, k, issues[j]);
        }
      }
    }
  }

  lemma OutcomeAdded(deps: seq<Dependency>, outcomes: seq<Option<string>>, error: Option<string>)
    requires |outcomes| < |deps|
    ensures var r, r' := ReportOf(deps, outcomes), ReportOf(deps, outcomes + [error]);
            var d := deps[|outcomes|];
            r' == Report(r.checked + 1, if error.Some? then r.failed + 1 else r.failed,
                         if error.Some? && |r.issues| < MAX_ISSUES then r.issues + [Issue(d.owner, d.path, Cut(error.value))] else r.issues)
  {
    assert (outcomes + [error])[..|outcomes|] == outcomes;
  }

  /** All successes so far mean that every key so far is cached with success, and only those. */
  ghost predicate Covered(deps: seq<Dependency>, outcomes: seq<Option<string>>, cache: map<Key, Decoded>) {
    && |outcomes| <= |deps|
    && ((forall i | 0 <= i < |outcomes| :: outcomes[i].None?) ==> AllGood(deps, |outcomes|, cache))
  }

  lemma CoveredStep(deps: seq<Dependency>, outcomes: seq<Option<string>>, cache: map<Key, Decoded>, cache': map<Key, Decoded>, error: Option<string>)
    requires Covered(deps, outcomes, cache) && |outcomes| < |deps|
    requires error.None? ==> GoodAt(deps[|outcomes|], cache')
    requires forall key | key in cache && key != KeyOf(deps[|outcomes|]) :: key in cache' && cache'[key] == cache[key]
    ensures Covered(deps, outcomes + [error], cache')
  {
    var k := |outcomes|;
    var next := outcomes + [error];
    if forall i | 0 <= i < k + 1 :: next[i].None? {
      forall i | 0 <= i < k ensures outcomes[i].None? {
        assert next[i] == outcomes[i];
      }
      assert next[k] == error;
      forall i | 0 <= i < k + 1 ensures GoodAt(deps[i], cache') {
        if i < k { assert GoodAt(deps[i], cache); }
      }
    }
  }

  /** Steady files: outcomes without a cache, and one run of the decoder for each key that opens. */
  ghost predicate SteadyRun(media: Media, deps: seq<Dependency>, outcomes: seq<Option<string>>, cache: map<Key, Decoded>, before: seq<Key>, runs: seq<Key>) {
    && |outcomes| <= |deps| && SteadyCache(media, cache)
    && (forall i | 0 <= i < |outcomes| :: outcomes[i] == Judged(media, deps[i]))
    && before <= runs && OnceEach(runs[|before|..], cache.Keys)
    && cache.Keys == Opened(media, deps, |outcomes|)
  }

  ghost predicate OnceEach(runs: seq<Key>, keys: set<Key>) {
    && (forall i, j | 0 <= i < j < |runs| :: runs[i] != runs[j])
    && (forall key :: key in runs <==> key in keys)
  }

  ghost function Opened(media: Media, deps: seq<Dependency>, k: nat): set<Key>
    requires k <= |deps|
  {
    set i | 0 <= i < k && media.opens(0, deps[i].path) :: KeyOf(deps[i])
  }

  lemma OpenedNext(media: Media, deps: seq<Dependency>, k: nat)
    requires k < |deps|
    ensures Opened(media, deps, k + 1) == Opened(media, deps, k) + if media.opens(0, deps[k].path) then {KeyOf(deps[k])} else {}
  {
  }

  lemma OnceMore(runs: seq<Key>, keys: set<Key>, key: Key)
    requires OnceEach(runs, keys) && key !in keys
    ensures OnceEach(runs + [key], keys + {key})
  {
    assert key !in runs;
    forall other ensures other in runs + [key] <==> other in keys + {key} {
    }
  }

  lemma OutcomesJudged(media: Media, deps: seq<Dependency>, outcomes: seq<Option<string>>, error: Option<string>)
    requires |outcomes| < |deps| && forall i | 0 <= i < |outcomes| :: outcomes[i] == Judged(media, deps[i])
    requires error == Judged(media, deps[|outcomes|])
    ensures forall i | 0 <= i < |outcomes + [error]| :: (outcomes + [error])[i] == Judged(media, deps[i])
  {
    hide Judged;
  }

  /** What one more dependency makes of the decoder's runs. */
  lemma RunsAdvance(media: Media, d: Dependency, keys: set<Key>, cache: map<Key, Decoded>, cache': map<Key, Decoded>,
                    before: seq<Key>, runs: seq<Key>, runs': seq<Key>)
    requires before <= runs && OnceEach(runs[|before|..], cache.Keys) && cache.Keys == keys
    requires SteadyStep(media, d, cache, cache', runs, runs')
    ensures before <= runs' && OnceEach(runs'[|before|..], cache'.Keys)
    ensures cache'.Keys == cache.Keys || cache'.Keys == cache.Keys + {KeyOf(d)}
    ensures cache'.Keys == cache.Keys <==> KeyOf(d) in cache || !media.opens(0, d.path)
  {
    if KeyOf(d) !in cache && media.opens(0, d.path) {
      OnceMore(runs[|before|..], cache.Keys, KeyOf(d));
      assert runs'[|before|..] == runs[|before|..] + [KeyOf(d)];
    }
    hide OnceEach, SteadyCache;
  }

  lemma SteadyAdvances(media: Media, deps: seq<Dependency>, outcomes: seq<Option<string>>, cache: map<Key, Decoded>,
                       cache': map<Key, Decoded>, before: seq<Key>, runs: seq<Key>, runs': seq<Key>, error: Option<string>)
    requires SteadyRun(media, deps, outcomes, cache, before, runs) && |outcomes| < |deps|
    requires error == Judged(media, deps[|outcomes|]) && SteadyStep(media, deps[|outcomes|], cache, cache', runs, runs')
    ensures SteadyRun(media, deps, outcomes + [error], cache', before, runs')
  {
    hide Judged, OnceEach, SteadyCache, Opened;
    var d := deps[|outcomes|];
    assert SteadyCache(media, cache');
    OutcomesJudged(media, deps, outcomes, error);
    RunsAdvance(media, d, Opened(media, deps, |outcomes|), cache, cache', before, runs, runs');
    OpenedNext(media, deps, |outcomes|);
    hide SteadyStep;
    assert cache'.Keys == Opened(media, deps, |outcomes| + 1);
  }

  /** A file that was opened at its path not before `since` showed the identity. */
  ghost predicate AskedAnew(path: string, identity: Identity, since: nat, asks: seq<Event>) {
    exists file: nat :: file >= since && Asked(path, file, identity) in asks
  }

  ghost predicate ValidatedAs(d: Dependency, identity: Identity, events: seq<Event>, since: nat, asks: seq<Event>) {
    Decodes(events, KeyOf(d), Decoded(identity, None)) && AskedAnew(d.path, identity, since, asks)
  }

  /** The decoder succeeded on a file with some identity, and the path, opened again afterwards, showed
      that identity. */
  ghost predicate Validated(d: Dependency, events: seq<Event>, since: nat, asks: seq<Event>) {
    exists identity: Identity :: ValidatedAs(d, identity, events, since, asks)
  }

  /** A moment: the time, and how much has been asked and decoded by then. */
  datatype Mark = Mark(now: nat, seen: nat)

  ghost predicate Between(opens: (nat, string) -> bool, d: Dependency, m: Mark, m': Mark, events: seq<Event>, error: Option<string>) {
    m.now <= m'.now && m.seen <= m'.seen <= |events| && Accounted(opens, d, m.now, m'.now, m.seen, events[..m'.seen], error)
  }

  /** Each outcome is accounted for by what was seen between its own two marks. */
  ghost predicate AllAccounted(opens: (nat, string) -> bool, deps: seq<Dependency>, outcomes: seq<Option<string>>, marks: seq<Mark>, events: seq<Event>) {
    && |outcomes| <= |deps| && |marks| == |outcomes| + 1
    && forall i | 0 <= i < |outcomes| :: Between(opens, deps[i], marks[i], marks[i + 1], events, outcomes[i])
  }

  lemma NoneAccounted(opens: (nat, string) -> bool, deps: seq<Dependency>, now: nat, events: seq<Event>)
    ensures AllAccounted(opens, deps, [], [Mark(now, |events|)], events)
  {
  }

  lemma StillAccounted(opens: (nat, string) -> bool, deps: seq<Dependency>, outcomes: seq<Option<string>>, marks: seq<Mark>,
                       events: seq<Event>, events': seq<Event>)
    requires AllAccounted(opens, deps, outcomes, marks, events) && events <= events'
    ensures AllAccounted(opens, deps, outcomes, marks, events')
  {
    hide Accounted;
    forall i | 0 <= i < |outcomes| ensures Between(opens, deps[i], marks[i], marks[i + 1], events', outcomes[i]) {
      assert Between(opens, deps[i], marks[i], marks[i + 1], events, outcomes[i]);
      assert events'[..marks[i + 1].seen] == events[..marks[i + 1].seen];
    }
  }

  lemma OneMoreAccounted(opens: (nat, string) -> bool, deps: seq<Dependency>, outcomes: seq<Option<string>>, error: Option<string>,
                         marks: seq<Mark>, m: Mark, events: seq<Event>, events': seq<Event>)
    requires AllAccounted(opens, deps, outcomes, marks, events) && events <= events' && |outcomes| < |deps|
    requires marks[|outcomes|].seen == |events| && marks[|outcomes|].now <= m.now && m.seen == |events'|
    requires Accounted(opens, deps[|outcomes|], marks[|outcomes|].now, m.now, |events|, events', error)
    ensures AllAccounted(opens, deps, outcomes + [error], marks + [m], events')
  {
    StillAccounted(opens, deps, outcomes, marks, events, events');
    assert events'[..m.seen] == events';
    hide Accounted;
    forall i | 0 <= i < |outcomes| + 1
      ensures Between(opens, deps[i], (marks + [m])[i], (marks + [m])[i + 1], events', (outcomes + [error])[i])
    {
      if i < |outcomes| {
        assert Between(opens, deps[i], marks[i], marks[i + 1], events', outcomes[i]);
      }
    }
  }

  /** Checks every dependency, and at the end that every decoded file is still the one that was
      decoded. */
  method CheckWith(media: Media, deps: seq<Dependency>, deadline: nat)
    returns (r: Option<Report>, ghost outcomes: seq<Option<string>>, ghost marks: seq<Mark>, ghost last: nat)
    modifies media
    ensures old(media.events) <= media.events
    // The report counts every dependency and every failure.
    ensures r.Some? ==> |outcomes| == |deps| <= MAX_REFERENCES && r.value == ReportOf(deps, outcomes)
    // Each outcome is what the decoder said about the file that was opened for it, unless the path did not
    // open or the file changed meanwhile; its own looks at the file lie between its own two marks.
    ensures r.Some? ==> AllAccounted(media.opens, deps, outcomes, marks, media.events) && marks[0] == Mark(old(media.now), |old(media.events)|)
    // A clean report: after the last run of the decoder, each path still shows the identity on which
    // its decoder succeeded.
    ensures r.Some? ==> last <= |media.events| && forall e | e in media.events[last..] :: e.Asked?
    ensures r.Some? && r.value.failed == 0 ==>
              forall i | 0 <= i < |deps| :: Validated(deps[i], media.events[..last], marks[|deps|].now, media.events[last..])
    // In steady files the outcomes are those without a cache, and each key is decoded once.
    ensures r.Some? && Steady(media.opens, media.held, media.decoder) ==>
              && (forall i | 0 <= i < |deps| :: outcomes[i] == Judged(media, deps[i]))
              && old(media.runs) <= media.runs && OnceEach(media.runs[|old(media.runs)|..], Opened(media, deps, |deps|))
    // They are always reported in time, unless there are too many.
    ensures Steady(media.opens, media.held, media.decoder) && |deps| <= MAX_REFERENCES && deadline > old(media.now) + 8 * |deps| ==> r.Some?
  {
    hide Backed, Covered, SteadyRun, SteadyStep, SteadyCache, ReportOf, OnceEach, Opened, Steady, Validated, AllAccounted, Accounted;
    outcomes, last := [], 0;
    marks := [Mark(media.now, |media.events|)];
    NoneAccounted(media.opens, deps, media.now, media.events);
    if |deps| > MAX_REFERENCES {
      return None, outcomes, marks, last;
    }
    var cache: map<Key, Decoded> := map[];
    var report := Report(0, 0, []);
    Started(media, deps);
    for k := 0 to |deps|
      invariant |outcomes| == k && report == ReportOf(deps, outcomes) && old(media.events) <= media.events
      invariant Backed(media.events, cache) && Covered(deps, outcomes, cache)
      invariant old(media.now) <= media.now <= old(media.now) + 6 * k && |cache.Keys| <= k
      invariant AllAccounted(media.opens, deps, outcomes, marks, media.events)
      invariant |marks| == k + 1 && marks[k] == Mark(media.now, |media.events|) && marks[0] == Mark(old(media.now), |old(media.events)|)
      invariant Steady(media.opens, media.held, media.decoder) ==>
                  SteadyRun(media, deps, outcomes, cache, old(media.runs), media.runs)
    {
      if media.now >= deadline {
        return None, outcomes, marks, last;
      }
      ghost var runs, events := media.runs, media.events;
      if Steady(media.opens, media.held, media.decoder) {
        SteadyHolds(media, deps, outcomes, cache, old(media.runs), media.runs);
      }
      var cache', error := CheckOne(media, deps[k], cache);
      CoveredStep(deps, outcomes, cache, cache', error);
      OneMoreAccounted(media.opens, deps, outcomes, error, marks, Mark(media.now, |media.events|), events, media.events);
      NoMoreThan(cache.Keys, cache'.Keys, KeyOf(deps[k]));
      OutcomeAdded(deps, outcomes, error);
      if Steady(media.opens, media.held, media.decoder) {
        SteadyAdvances(media, deps, outcomes, cache, cache', old(media.runs), runs, media.runs, error);
      }
      report := Report(report.checked + 1, if error.Some? then report.failed + 1 else report.failed,
                       if error.Some? && |report.issues| < MAX_ISSUES
                       then report.issues + [Issue(deps[k].owner, deps[k].path, Cut(error.value))] else report.issues);
      outcomes, marks := outcomes + [error], marks + [Mark(media.now, |media.events|)];
      cache := cache';
    }
    last := |media.events|;
    ghost var before := media.events;
    if Steady(media.opens, media.held, media.decoder) {
      SteadyHolds(media, deps, outcomes, cache, old(media.runs), media.runs);
    }
    var ok := FinalPass(media, cache, deadline);
    if !ok {
      return None, outcomes, marks, last;
    }
    r := Some(report);
    assert media.events[..last] == before;
    StillAccounted(media.opens, deps, outcomes, marks, before, media.events);
    if report.failed == 0 {
      CleanReport(deps, outcomes, cache, before, marks[|deps|].now, media.events[last..]);
    }
    if Steady(media.opens, media.held, media.decoder) {
      SteadyEnds(media, deps, outcomes, cache, old(media.runs), media.runs);
    }
  }

  lemma NoMoreThan(keys: set<Key>, keys': set<Key>, key: Key)
    requires keys' <= keys + {key}
    ensures |keys'| <= |keys| + 1
  {
    assert |keys + {key}| <= |keys| + 1;
    var more := (keys + {key}) - keys';
    assert keys + {key} == keys' + more;
    assert |keys' + more| == |keys'| + |more|;
  }

  lemma Started(media: Media, deps: seq<Dependency>)
    ensures ReportOf(deps, []) == Report(0, 0, []) && Covered(deps, [], map[])
    ensures Backed(media.events, map[]) && SteadyRun(media, deps, [], map[], media.runs, media.runs)
  {
  }

  lemma SteadyHolds(media: Media, deps: seq<Dependency>, outcomes: seq<Option<string>>, cache: map<Key, Decoded>, before: seq<Key>, runs: seq<Key>)
    requires SteadyRun(media, deps, outcomes, cache, before, runs)
    ensures SteadyCache(media, cache)
  {
  }

  lemma SteadyEnds(media: Media, deps: seq<Dependency>, outcomes: seq<Option<string>>, cache: map<Key, Decoded>, before: seq<Key>, runs: seq<Key>)
    requires SteadyRun(media, deps, outcomes, cache, before, runs) && |outcomes| == |deps|
    ensures forall i | 0 <= i < |deps| :: outcomes[i] == Judged(media, deps[i])
    ensures before <= runs && OnceEach(runs[|before|..], Opened(media, deps, |deps|))
  {
  }

  /** The identity of every cached key was asked again. */
  ghost predicate Confirmed(cache: map<Key, Decoded>, done: set<Key>, since: nat, asks: seq<Event>) {
    && done <= cache.Keys && (forall e | e in asks :: e.Asked?)
    && forall key | key in done :: AskedAnew(key.0, cache[key].identity, since, asks)
  }

  method FinalPass(media: Media, cache: map<Key, Decoded>, deadline: nat) returns (ok: bool)
    modifies media
    ensures old(media.events) <= media.events && media.runs == old(media.runs) && old(media.now) <= media.now
    ensures Steady(media.opens, media.held, media.decoder) && SteadyCache(media, cache) && deadline > old(media.now) + 2 * |cache.Keys| ==> ok
    ensures ok ==> Confirmed(cache, cache.Keys, old(media.now), media.events[|old(media.events)|..])
  {
    hide Steady, SteadyCache, Confirmed;
    var remaining := cache.Keys;
    NoneConfirmed(cache, media.now, media.events[|old(media.events)|..]);
    while remaining != {}
      invariant remaining <= cache.Keys && old(media.events) <= media.events && media.runs == old(media.runs)
      invariant Confirmed(cache, cache.Keys - remaining, old(media.now), media.events[|old(media.events)|..])
      invariant old(media.now) <= media.now <= old(media.now) + 2 * (|cache.Keys| - |remaining|)
      decreases remaining
    {
      var key :| key in remaining;
      Fewer(remaining, key);
      if Steady(media.opens, media.held, media.decoder) && SteadyCache(media, cache) {
        StillThere(media, cache, key);
      }
      if media.now >= deadline {
        return false;
      }
      var file := media.Open(key.0);
      if file.None? {
        return false;
      }
      ghost var asks := media.events[|old(media.events)|..];
      var identity := media.Ask(key.0, file.value);
      if identity != cache[key].identity {
        return false;
      }
      ConfirmOne(cache, remaining, old(media.now), asks, key, file.value);
      assert media.events[|old(media.events)|..] == asks + [Asked(key.0, file.value, identity)];
      remaining := remaining - {key};
    }
    assert cache.Keys - remaining == cache.Keys;
    ok := true;
  }

  lemma NoneConfirmed(cache: map<Key, Decoded>, since: nat, asks: seq<Event>)
    requires asks == []
    ensures Confirmed(cache, cache.Keys - cache.Keys, since, asks)
  {
  }

  lemma StillThere(media: Media, cache: map<Key, Decoded>, key: Key)
    requires Steady(media.opens, media.held, media.decoder) && SteadyCache(media, cache) && key in cache
    ensures forall t: nat :: media.opens(t, key.0)
    ensures forall f: nat, t: nat :: media.held(f, t, key.0) == cache[key].identity
  {
  }

  lemma Fewer(remaining: set<Key>, key: Key)
    requires key in remaining
    ensures |remaining - {key}| == |remaining| - 1
  {
  }

  lemma ConfirmOne(cache: map<Key, Decoded>, remaining: set<Key>, since: nat, asks: seq<Event>, key: Key, file: nat)
    requires Confirmed(cache, cache.Keys - remaining, since, asks) && key in remaining && remaining <= cache.Keys && file >= since
    ensures Confirmed(cache, cache.Keys - (remaining - {key}), since, asks + [Asked(key.0, file, cache[key].identity)])
  {
    var more := asks + [Asked(key.0, file, cache[key].identity)];
    forall k | k in cache.Keys - (remaining - {key}) ensures AskedAnew(k.0, cache[k].identity, since, more) {
      if k != key {
        assert k in cache.Keys - remaining;
        var f: nat :| f >= since && Asked(k.0, f, cache[k].identity) in asks;
        assert Asked(k.0, f, cache[k].identity) in more;
      } else {
        assert more[|asks|] == Asked(key.0, file, cache[key].identity);
      }
    }
  }

  lemma CleanReport(deps: seq<Dependency>, outcomes: seq<Option<string>>, cache: map<Key, Decoded>, events: seq<Event>, since: nat, asks: seq<Event>)
    requires |outcomes| == |deps| && ReportOf(deps, outcomes).failed == 0
    requires Covered(deps, outcomes, cache) && Backed(events, cache) && Confirmed(cache, cache.Keys, since, asks)
    ensures forall i | 0 <= i < |deps| :: Validated(deps[i], events, since, asks)
  {
    hide Decodes, AskedAnew;
    NoFailures(outcomes);
    forall i | 0 <= i < |deps| ensures Validated(deps[i], events, since, asks) {
      assert GoodAt(deps[i], cache);
      assert ValidatedAs(deps[i], cache[KeyOf(deps[i])].identity, events, since, asks);
    }
  }
}
