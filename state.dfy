/** The versioned key/value store of pkg/communication/state.go. Values are
    strings (what the RPC layer stores), time is an explicit `now`, the lock is
    left out, and of `Watch` only the initial emission and the per-tick version
    test are modelled. */
module StateStores {
  import opened Wrappers

  datatype StateEntry = StateEntry(value: string, version: int, updatedAt: int)

  /** The zero `StateEntry` Go returns for a missing key. */
  const ZeroEntry := StateEntry("", 0, 0)

  /** One call of `Set`. */
  datatype Write = Write(key: string, value: string, at: int)

  /** The map after `Set` performs `w`. */
  function Put(states: map<string, StateEntry>, w: Write): map<string, StateEntry>
  {
    states[w.key := StateEntry(w.value, if w.key in states then states[w.key].version + 1 else 1, w.at)]
  }

  /** The map after a history of writes, starting from `states`. */
  function ApplyAll(states: map<string, StateEntry>, ws: seq<Write>): map<string, StateEntry>
    decreases |ws|
  {
    if ws == [] then states else Put(ApplyAll(states, ws[..|ws| - 1]), ws[|ws| - 1])
  }

  /** How many writes of a history went to `key`. */
  function WritesTo(ws: seq<Write>, key: string): nat
    decreases |ws|
  {
    if ws == [] then 0 else WritesTo(ws[..|ws| - 1], key) + (if ws[|ws| - 1].key == key then 1 else 0)
  }

  /** The value of the last write to `key` in a history that has one. */
  function LastValue(ws: seq<Write>, key: string): string
    requires WritesTo(ws, key) > 0
    decreases |ws|
  {
    if ws[|ws| - 1].key == key then ws[|ws| - 1].value else LastValue(ws[..|ws| - 1], key)
  }

  /** Starting from an empty store, a key is present exactly when it has been
      written, its version is the number of writes to it, and its value is the
      last one written. */
  lemma {:induction false} VersionCountsWrites(ws: seq<Write>, key: string)
    ensures key in ApplyAll(map[], ws) <==> WritesTo(ws, key) > 0
    ensures key in ApplyAll(map[], ws) ==>
      ApplyAll(map[], ws)[key].version == WritesTo(ws, key)
      && ApplyAll(map[], ws)[key].value == LastValue(ws, key)
    decreases |ws|
  {
    if ws != [] {
      VersionCountsWrites(ws[..|ws| - 1], key);
    }
  }

  /** A write to one key leaves every other key's entry as it was. */
  lemma PutLeavesOtherKeys(states: map<string, StateEntry>, w: Write, k: string)
    requires k != w.key
    ensures k in Put(states, w) <==> k in states
    ensures k in states ==> Put(states, w)[k] == states[k]
  {
  }

  class StateStore {
    var states: map<string, StateEntry>
    /** Every `Set` performed so far, in order. */
    ghost var log: seq<Write>

    ghost predicate Valid()
      reads this
    {
      states == ApplyAll(map[], log)
    }

    /** `NewStateStore`. */
    constructor ()
      ensures states == map[] && log == [] && Valid()
    {
      states := map[];
      log := [];
    }

    /** `Set(key, value)` at time `now`. */
    method Set(key: string, value: string, now: int)
      requires Valid()
      modifies this
      ensures Valid() && log == old(log) + [Write(key, value, now)]
      ensures states == old(states)[key := StateEntry(value, if key in old(states) then old(states)[key].version + 1 else 1, now)]
      ensures states[key].version == WritesTo(log, key)
    {
      ghost var w := Write(key, value, now);
      var version := 1;
      if key in states {
        version := states[key].version + 1;
      }
      states := states[key := StateEntry(value, version, now)];
      log := log + [w];
      assert log[..|log| - 1] == old(log);
      VersionCountsWrites(log, key);
    }

    /** `Get(key)`: the entry and whether it exists (the zero entry if not). */
    method Get(key: string) returns (entry: StateEntry, found: bool)
      ensures found <==> key in states
      ensures found ==> entry == states[key]
      ensures !found ==> entry == ZeroEntry
    {
      found := key in states;
      entry := if found then states[key] else ZeroEntry;
    }

    /** One tick of the `Watch` goroutine: read the key and emit its entry if its
        version is newer than the last one emitted. */
    method WatchTick(key: string, lastVersion: int) returns (emitted: Option<StateEntry>, newLast: int)
      ensures emitted.Some? <==> key in states && states[key].version > lastVersion
      ensures emitted.Some? ==> emitted.value == states[key] && newLast == states[key].version
      ensures emitted.None? ==> newLast == lastVersion
      ensures (emitted, newLast) == WatchPoll(lastVersion, Observation(if key in states then states[key] else ZeroEntry, key in states))
    {
      var entry, present := Get(key);
      if present && entry.version > lastVersion {
        return Some(entry), entry.version;
      }
      return None, lastVersion;
    }
  }

  /** What `Get` returned at one watch tick. */
  datatype Observation = Observation(entry: StateEntry, found: bool)

  /** The version test of one watch tick. */
  function WatchPoll(lastVersion: int, o: Observation): (Option<StateEntry>, int)
  {
    if o.found && o.entry.version > lastVersion then (Some(o.entry), o.entry.version) else (None, lastVersion)
  }

  /** The entries emitted by a run of ticks, starting from `lastVersion`. */
  function WatchPolls(lastVersion: int, ticks: seq<Observation>): seq<StateEntry>
    decreases |ticks|
  {
    if ticks == [] then []
    else
      var (e, last) := WatchPoll(lastVersion, ticks[0]);
      (if e.Some? then [e.value] else []) + WatchPolls(last, ticks[1..])
  }

  ghost predicate StrictlyIncreasing(es: seq<StateEntry>)
  {
    forall i, j :: 0 <= i < j < |es| ==> es[i].version < es[j].version
  }

  /** The ticks emit entries in strictly increasing version order, each newer
      than the version they started from: a version is never emitted twice. */
  lemma {:induction false} WatchPollsIncreasing(lastVersion: int, ticks: seq<Observation>)
    ensures StrictlyIncreasing(WatchPolls(lastVersion, ticks))
    ensures forall i :: 0 <= i < |WatchPolls(lastVersion, ticks)| ==> WatchPolls(lastVersion, ticks)[i].version > lastVersion
    decreases |ticks|
  {
    if ticks != [] {
      var (e, last) := WatchPoll(lastVersion, ticks[0]);
      WatchPollsIncreasing(last, ticks[1..]);
    }
  }

  /** `Watch` as written: the current entry at once, then the ticks starting
      from version -1. */
  function WatchAsWritten(initial: Observation, ticks: seq<Observation>): seq<StateEntry>
  {
    (if initial.found then [initial.entry] else []) + WatchPolls(-1, ticks)
  }

  /** `Watch` as its documentation describes it: the current entry at once,
      then only entries whose version is newer than the one already sent. */
  function Watch(initial: Observation, ticks: seq<Observation>): seq<StateEntry>
  {
    (if initial.found then [initial.entry] else [])
      + WatchPolls(if initial.found then initial.entry.version else -1, ticks)
  }

  /** As written, an existing entry that does not change is delivered twice:
      once at once, and again at the first tick. */
  lemma WatchAsWrittenRepeatsInitial(e: StateEntry)
    requires e.version >= 1
    ensures WatchAsWritten(Observation(e, true), [Observation(e, true)]) == [e, e]
    ensures !StrictlyIncreasing(WatchAsWritten(Observation(e, true), [Observation(e, true)]))
  {
    var o := Observation(e, true);
    assert WatchPolls(-1, [o]) == [e] + WatchPolls(e.version, []);
    var s := WatchAsWritten(o, [o]);
    assert s == [e, e];
    assert s[0].version == s[1].version;
  }

  /** Starting the ticks from the version already sent, the whole stream is in
      strictly increasing version order. */
  lemma WatchIncreasing(initial: Observation, ticks: seq<Observation>)
    ensures StrictlyIncreasing(Watch(initial, ticks))
  {
    var start := if initial.found then initial.entry.version else -1;
    WatchPollsIncreasing(start, ticks);
    var head: seq<StateEntry> := if initial.found then [initial.entry] else [];
    var rest := WatchPolls(start, ticks);
    assert Watch(initial, ticks) == head + rest;
    forall i, j | 0 <= i < j < |head + rest|
      ensures (head + rest)[i].version < (head + rest)[j].version
    {
      if i < |head| {
        assert (head + rest)[j] == rest[j - |head|];
      }
    }
  }
}
