/**
 * QueryStateTracker: a process-wide table from a normalised query key (the key's
 * JSON text) to the history of states observed for it. A state is recorded only when
 * it differs from the last one recorded, so a history lists transitions, not polls.
 * States are values of a type S whose equality stands for equality of their JSON
 * serialisations. Clock readings are integer-millisecond parameters: each call reads the
 * clock twice, once for the new entry's stamp and once for its gap to the previous entry.
 */
module StateTracker {
  import opened JsonString

  /** One recorded state with its wall-clock stamp and the time since the previous entry. */
  datatype HistoryEntry<S> = HistoryEntry(state: S, timestamp: int, timeFromPrevious: int)

  /** One call of trackStateChange for a fixed key: the state passed, the stamp reading and the gap reading. */
  datatype Observation<S> = Observation(state: S, stamp: int, now: int)

  type History<S> = seq<HistoryEntry<S>>

  /** The key both trackStateChange and getStateHistory look up. */
  function NormalizeKey(queryKey: string): (key: string)
    ensures |key| >= 2 && key[0] == '"' && key[|key| - 1] == '"'
  {
    Quote(queryKey)
  }

  /** Different query keys never share a history. */
  lemma NormalizeKeyInjective(q: string, other: string)
    requires q != other
    ensures NormalizeKey(q) != NormalizeKey(other)
  {
    if NormalizeKey(q) == NormalizeKey(other) {
      QuoteInjective(q, other);
    }
  }

  /** No two consecutive entries hold equal states. */
  ghost predicate Transitions<S>(h: History<S>) {
    forall i :: 0 < i < |h| ==> h[i - 1].state != h[i].state
  }

  /** A stored history: non-empty, transitions only, the first entry with no gap. */
  ghost predicate WellFormed<S>(h: History<S>) {
    && |h| > 0
    && Transitions(h)
    && h[0].timeFromPrevious == 0
  }

  /** The history of a normalised key, or the empty sequence for an unknown key. */
  function HistoryOf<S>(table: map<string, History<S>>, key: string): (h: History<S>)
    ensures key in table ==> h == table[key]
    ensures key !in table ==> h == []
  {
    if key in table then table[key] else []
  }

  /**
   * One trackStateChange on one key's history. The new entry is stamped with `stamp`
   * (the ISO reading); its gap is `now` (the Date.now() reading) minus the previous stamp.
   */
  function Track<S(==)>(h: History<S>, s: S, stamp: int, now: int): (r: History<S>)
    ensures |r| == |h| + 1 <==> h == [] || h[|h| - 1].state != s
    ensures |r| != |h| + 1 ==> r == h
    ensures r[..|h|] == h
    ensures |r| > 0 && r[|r| - 1].state == s
    ensures |r| == |h| + 1 ==> r[|h|].timestamp == stamp &&
                               r[|h|].timeFromPrevious == (if h == [] then 0 else now - h[|h| - 1].timestamp)
  {
    if h == [] || h[|h| - 1].state != s then
      h + [HistoryEntry(s, stamp, if h == [] then 0 else now - h[|h| - 1].timestamp)]
    else
      h
  }

  /** Tracking keeps a history well formed, starting from the empty one. */
  lemma TrackWellFormed<S>(h: History<S>, s: S, stamp: int, now: int)
    requires h == [] || WellFormed(h)
    ensures WellFormed(Track(h, s, stamp, now))
  {
    var r := Track(h, s, stamp, now);
    if |r| == |h| + 1 {
      forall i | 0 < i < |r| ensures r[i - 1].state != r[i].state {
        if i < |h| { assert r[i - 1] == h[i - 1] && r[i] == h[i]; }
      }
    }
  }

  /** Passing an equal state again changes nothing: the second call is absorbed. */
  lemma TrackTwiceAddsOne<S>(h: History<S>, s: S, stamp1: int, now1: int, stamp2: int, now2: int)
    ensures Track(Track(h, s, stamp1, now1), s, stamp2, now2) == Track(h, s, stamp1, now1)
  {
  }

  /** The states of a history, oldest first. */
  function States<S>(h: History<S>): (r: seq<S>)
    ensures |r| == |h| && forall i :: 0 <= i < |h| ==> r[i] == h[i].state
  {
    if h == [] then [] else States(h[..|h| - 1]) + [h[|h| - 1].state]
  }

  /** Reference definition: a sequence with each run of equal neighbours cut to its first element. */
  function Compress<S(==)>(xs: seq<S>): (r: seq<S>)
    ensures |r| <= |xs| && (r == [] <==> xs == [])
    ensures xs != [] ==> r[0] == xs[0] && r[|r| - 1] == xs[|xs| - 1]
    ensures forall i :: 0 < i < |r| ==> r[i - 1] != r[i]
  {
    if |xs| <= 1 then xs
    else if xs[0] == xs[1] then Compress(xs[1..])
    else [xs[0]] + Compress(xs[1..])
  }

  /** Compress read from the other end: appending one value extends the result iff it differs from the last. */
  lemma {:induction false} CompressSnoc<S>(xs: seq<S>, x: S)
    ensures Compress(xs + [x]) ==
            if xs != [] && xs[|xs| - 1] == x then Compress(xs) else Compress(xs) + [x]
  {
    if |xs| == 0 {
    } else if |xs| == 1 {
      assert xs + [x] == [xs[0], x];
    } else {
      var ys := xs + [x];
      assert ys[0] == xs[0] && ys[1] == xs[1];
      assert ys[1..] == xs[1..] + [x];
      CompressSnoc(xs[1..], x);
      var tail := Compress(xs[1..]);
      if xs[0] != xs[1] {
        assert Compress(ys) == [xs[0]] + Compress(xs[1..] + [x]);
        assert Compress(xs) == [xs[0]] + tail;
        assert [xs[0]] + (tail + [x]) == ([xs[0]] + tail) + [x];
      }
    }
  }

  /** The states passed to a sequence of trackStateChange calls. */
  function ObservedStates<S>(obs: seq<Observation<S>>): (r: seq<S>)
    ensures |r| == |obs| && forall i :: 0 <= i < |obs| ==> r[i] == obs[i].state
  {
    seq(|obs|, i requires 0 <= i < |obs| => obs[i].state)
  }

  /** A sequence of trackStateChange calls on one key, in call order. */
  function TrackAll<S(==)>(h: History<S>, obs: seq<Observation<S>>): (r: History<S>)
  {
    if obs == [] then h
    else
      var last := obs[|obs| - 1];
      Track(TrackAll(h, obs[..|obs| - 1]), last.state, last.stamp, last.now)
  }

  /** The recorded history is exactly the observed states with repeated neighbours removed. */
  lemma {:induction false} TrackAllRecordsTransitions<S>(obs: seq<Observation<S>>)
    ensures States(TrackAll([], obs)) == Compress(ObservedStates(obs))
  {
    if obs != [] {
      var init := obs[..|obs| - 1];
      var last := obs[|obs| - 1];
      TrackAllRecordsTransitions(init);
      assert ObservedStates(obs) == ObservedStates(init) + [last.state];
      CompressSnoc(ObservedStates(init), last.state);
      var h := TrackAll([], init);
      var r := Track(h, last.state, last.stamp, last.now);
      if |r| == |h| + 1 {
        assert r == h + [r[|h|]];
        assert States(r) == States(h) + [last.state];
        if init != [] {
          assert States(h)[|h| - 1] == Compress(ObservedStates(init))[|h| - 1];
        }
      }
    }
  }

  /** Elapsed times are never negative when no call's gap reading precedes an earlier call's stamp reading. */
  lemma {:induction false} TrackAllGapsNonNegative<S>(obs: seq<Observation<S>>)
    requires forall i, j :: 0 <= i < j < |obs| ==> obs[i].stamp <= obs[j].now
    ensures var r := TrackAll([], obs);
            forall e :: e in r ==> e.timeFromPrevious >= 0 && exists i :: 0 <= i < |obs| && obs[i].stamp == e.timestamp
  {
    if obs != [] {
      var init := obs[..|obs| - 1];
      var last := obs[|obs| - 1];
      TrackAllGapsNonNegative(init);
      var h := TrackAll([], init);
      var r := Track(h, last.state, last.stamp, last.now);
      forall e | e in r
        ensures e.timeFromPrevious >= 0 && exists i :: 0 <= i < |obs| && obs[i].stamp == e.timestamp
      {
        if e in h {
          var i :| 0 <= i < |init| && init[i].stamp == e.timestamp;
          assert obs[i] == init[i];
        } else {
          assert e == r[|h|];
          if h != [] {
            assert h[|h| - 1] in h;
            var i :| 0 <= i < |init| && init[i].stamp == h[|h| - 1].timestamp;
            assert obs[i] == init[i];
          }
          assert obs[|obs| - 1] == last;
        }
      }
    }
  }

  /** Three pairwise-changing states in a row give three entries. */
  lemma ThreeChangesThreeEntries<S>(a: S, b: S, c: S, stamp1: int, now1: int, stamp2: int, now2: int, stamp3: int, now3: int)
    requires a != b && b != c
    ensures var r := Track(Track(Track([], a, stamp1, now1), b, stamp2, now2), c, stamp3, now3);
            |r| == 3 && r[0].timeFromPrevious == 0 &&
            r[1].timeFromPrevious == now2 - stamp1 && r[2].timeFromPrevious == now3 - stamp2
  {
  }

  class QueryStateTracker<S(==)> {
    var stateHistory: map<string, History<S>>

    /** Every stored history is well formed (in particular non-empty). */
    ghost predicate Valid()
      reads this
    {
      forall k :: k in stateHistory ==> WellFormed(stateHistory[k])
    }

    constructor ()
      ensures Valid() && stateHistory == map[]
    {
      stateHistory := map[];
    }

    /** trackStateChange: appends to the key's history only when the state differs from its last entry. */
    method TrackStateChange(queryKey: string, newState: S, stamp: int, now: int)
      requires Valid()
      modifies this
      ensures Valid()
      ensures var key := NormalizeKey(queryKey);
              stateHistory == old(stateHistory)[key := Track(HistoryOf(old(stateHistory), key), newState, stamp, now)]
    {
      var key := Quote(queryKey);
      if key !in stateHistory {
        stateHistory := stateHistory[key := []];
      }
      var history := stateHistory[key];
      if history == [] || history[|history| - 1].state != newState {
        var gap := if history == [] then 0 else now - history[|history| - 1].timestamp;
        stateHistory := stateHistory[key := history + [HistoryEntry(newState, stamp, gap)]];
      }
      TrackWellFormed(HistoryOf(old(stateHistory), key), newState, stamp, now);
    }

    /** getStateHistory: the history under the same normalisation; empty, and not inserted, for an unknown key. */
    method GetStateHistory(queryKey: string) returns (history: History<S>)
      ensures history == HistoryOf(stateHistory, NormalizeKey(queryKey))
      ensures NormalizeKey(queryKey) !in stateHistory ==> history == []
    {
      var key := Quote(queryKey);
      if key in stateHistory {
        history := stateHistory[key];
      } else {
        history := [];
      }
    }

    /** getAllHistory: every normalised key with its history. */
    method GetAllHistory() returns (all: map<string, History<S>>)
      ensures all.Keys == stateHistory.Keys
      ensures forall k :: k in all ==> all[k] == stateHistory[k]
    {
      all := stateHistory;
    }

    /** clearHistory: forgets every key. */
    method ClearHistory()
      modifies this
      ensures Valid() && stateHistory == map[]
    {
      stateHistory := map[];
    }
  }

  /** Tracking one query key leaves the history of every other query key untouched. */
  lemma TrackLeavesOtherKeys<S>(table: map<string, History<S>>, q: string, other: string, s: S, stamp: int, now: int)
    requires q != other
    ensures var key := NormalizeKey(q);
            var t := table[key := Track(HistoryOf(table, key), s, stamp, now)];
            HistoryOf(t, NormalizeKey(other)) == HistoryOf(table, NormalizeKey(other))
  {
    NormalizeKeyInjective(q, other);
  }

  /** After tracking s for q, the history getStateHistory(q) returns ends with s. */
  lemma TrackedStateIsLast<S>(table: map<string, History<S>>, q: string, s: S, stamp: int, now: int)
    ensures var key := NormalizeKey(q);
            var h := HistoryOf(table[key := Track(HistoryOf(table, key), s, stamp, now)], key);
            |h| > 0 && h[|h| - 1].state == s
  {
  }

  /** The static `instance` slot behind getInstance. */
  class TrackerRegistry<S(==)> {
    var instance: QueryStateTracker?<S>

    constructor ()
      ensures instance == null
    {
      instance := null;
    }

    /** getInstance: creates the tracker on first access only; afterwards returns the same object. */
    method GetInstance() returns (t: QueryStateTracker<S>)
      modifies this
      ensures old(instance) != null ==> t == old(instance)
      ensures old(instance) == null ==> fresh(t) && t.stateHistory == map[] && t.Valid()
      ensures instance == t
    {
      if instance == null {
        instance := new QueryStateTracker<S>();
      }
      t := instance;
    }
  }

  /** Two trackStateChange calls with an equal state add one entry, not two. */
  method TrackSameStateTwice<S(==)>(tracker: QueryStateTracker<S>, queryKey: string, s: S,
                                    stamp1: int, now1: int, stamp2: int, now2: int)
    requires tracker.Valid() && NormalizeKey(queryKey) !in tracker.stateHistory
    modifies tracker
    ensures tracker.Valid() && NormalizeKey(queryKey) in tracker.stateHistory
    ensures tracker.stateHistory[NormalizeKey(queryKey)] == [HistoryEntry(s, stamp1, 0)]
  {
    tracker.TrackStateChange(queryKey, s, stamp1, now1);
    tracker.TrackStateChange(queryKey, s, stamp2, now2);
  }
}
