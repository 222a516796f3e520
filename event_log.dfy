/** The event log: an append-only list of typed, timestamped entries whose
    append operation drops a candidate that repeats the type of the entry
    logged immediately before it, less than 1500 ms earlier. */
module EventLog {

  datatype EventType = Delight | Frustration | Surprise | Confusion | Interaction

  /** A logged entry. `elapsed` is the milliseconds since the session started
      (the source shows it as seconds with one decimal); `timestamp` is the
      wall-clock time in milliseconds at which it was logged. */
  datatype Event = Event(elapsed: int, timestamp: int, kind: EventType, detail: string)

  /** A candidate for the log: what a caller asks to have logged. */
  datatype Pending = Pending(kind: EventType, detail: string)

  /** The debounce window, in milliseconds. */
  const DebounceMs: int := 1500

  /** True when a candidate of `kind` at time `now` is dropped: the last
      entry has the same type and is less than DebounceMs old. */
  predicate Debounced(log: seq<Event>, kind: EventType, now: int): (b: bool)
    ensures log == [] ==> !b
    ensures b ==> |log| > 0 && log[|log| - 1].kind == kind
    ensures b ==> log[|log| - 1].timestamp > now - DebounceMs
  {
    |log| > 0 && log[|log| - 1].kind == kind && now - log[|log| - 1].timestamp < DebounceMs
  }

  /** The entry a candidate becomes when it is appended. */
  function Stamp(p: Pending, now: int, start: int): (e: Event)
    ensures Pending(e.kind, e.detail) == p
    ensures e.timestamp == now && e.timestamp - e.elapsed == start
  {
    Event(now - start, now, p.kind, p.detail)
  }

  /** The log after one logEvent call: unchanged when the candidate is
      debounced, otherwise grown by exactly that candidate stamped `now`. */
  function Logged(log: seq<Event>, p: Pending, now: int, start: int): (r: seq<Event>)
    ensures r == log <==> Debounced(log, p.kind, now)
    ensures r != log ==> r == log + [Stamp(p, now, start)]
  {
    if Debounced(log, p.kind, now) then log else log + [Stamp(p, now, start)]
  }

  /** The log after logging the candidates `ps` in order, all at time `now`. */
  function LogAll(log: seq<Event>, ps: seq<Pending>, now: int, start: int): (r: seq<Event>)
    ensures |log| <= |r| <= |log| + |ps|
    ensures r[..|log|] == log
    ensures forall i | |log| <= i < |r| :: r[i].timestamp == now && Pending(r[i].kind, r[i].detail) in ps
    decreases |ps|
  {
    if ps == [] then log
    else Logged(LogAll(log, ps[..|ps| - 1], now, start), ps[|ps| - 1], now, start)
  }

  lemma LogAllSnoc(log: seq<Event>, ps: seq<Pending>, p: Pending, now: int, start: int)
    ensures LogAll(log, ps + [p], now, start) == Logged(LogAll(log, ps, now, start), p, now, start)
  {
    assert (ps + [p])[..|ps|] == ps;
  }

  /** The log after the same candidates `ps` are offered once at each time of `nows`. */
  function Repeat(log: seq<Event>, ps: seq<Pending>, nows: seq<int>, start: int): (r: seq<Event>)
    ensures |log| <= |r| && r[..|log|] == log
    decreases |nows|
  {
    if nows == [] then log
    else LogAll(Repeat(log, ps, nows[..|nows| - 1], start), ps, nows[|nows| - 1], start)
  }

  /** The first candidate offered to an empty log is always appended. */
  lemma EmptyLogAppends(p: Pending, now: int, start: int)
    ensures Logged([], p, now, start) == [Stamp(p, now, start)]
  {
  }

  /** A candidate whose type differs from the last entry's is appended, however
      recent that entry is and whatever lies further back in the log. */
  lemma OtherTypeAppends(log: seq<Event>, p: Pending, now: int, start: int)
    requires |log| > 0 && log[|log| - 1].kind != p.kind
    ensures Logged(log, p, now, start) == log + [Stamp(p, now, start)]
  {
  }

  /** Two candidate types offered together: the second is always appended,
      and the first too unless the log already ended with it. */
  lemma {:induction false} PairTick(log: seq<Event>, p: Pending, q: Pending, now: int, start: int)
    requires p.kind != q.kind
    ensures var r := LogAll(log, [p, q], now, start);
      && (r == log + [Stamp(p, now, start), Stamp(q, now, start)] || r == log + [Stamp(q, now, start)])
      && ((|log| == 0 || log[|log| - 1].kind != p.kind) ==> r == log + [Stamp(p, now, start), Stamp(q, now, start)])
  {
    assert [p, q] == [p] + [q];
    assert [p] == [] + [p];
    LogAllSnoc(log, [], p, now, start);
    LogAllSnoc(log, [p], q, now, start);
  }

  /** Debounce compares only with the immediately preceding entry: when two
      candidate types fire on every tick, they alternate in the log and every
      tick after the first appends both, however close the ticks are. */
  lemma {:induction false} AlternationDefeatsDebounce(log: seq<Event>, p: Pending, q: Pending, nows: seq<int>, start: int)
    requires p.kind != q.kind
    requires |nows| > 0
    ensures var r := Repeat(log, [p, q], nows, start);
      && |r| >= |log| + 2 * |nows| - 1
      && r[|r| - 1] == Stamp(q, nows[|nows| - 1], start)
      && ((|log| == 0 || log[|log| - 1].kind != p.kind) ==> |r| == |log| + 2 * |nows|)
    decreases |nows|
  {
    var init := nows[..|nows| - 1];
    var now := nows[|nows| - 1];
    var before := Repeat(log, [p, q], init, start);
    if init == [] {
      PairTick(log, p, q, now, start);
    } else {
      AlternationDefeatsDebounce(log, p, q, init, start);
      PairTick(before, p, q, now, start);
    }
  }

  /** From index `from` on, every entry of `kind` and the entry after it are
      at least DebounceMs apart. */
  predicate SpacedFrom(r: seq<Event>, from: int, kind: EventType) {
    forall i | 0 <= i && from <= i + 1 < |r| && r[i].kind == kind ::
      r[i + 1].timestamp - r[i].timestamp >= DebounceMs
  }

  /** Candidates of one type offered at successive times: any two consecutive
      entries of that type among the new ones are at least DebounceMs apart. */
  lemma {:induction false} SameTypeSpacing(log: seq<Event>, p: Pending, nows: seq<int>, start: int)
    ensures SpacedFrom(Repeat(log, [p], nows, start), |log|, p.kind)
    decreases |nows|
  {
    if nows != [] {
      var before := Repeat(log, [p], nows[..|nows| - 1], start);
      var now := nows[|nows| - 1];
      SameTypeSpacing(log, p, nows[..|nows| - 1], start);
      assert [p] == [] + [p];
      LogAllSnoc(before, [], p, now, start);
      var r := Repeat(log, [p], nows, start);
      assert r == Logged(before, p, now, start);
      assert r[..|before|] == before;
      forall i | 0 <= i && |log| <= i + 1 < |r| && r[i].kind == p.kind
        ensures r[i + 1].timestamp - r[i].timestamp >= DebounceMs
      {
        if i + 1 < |before| {
          assert r[i] == before[i] && r[i + 1] == before[i + 1];
        } else {
          assert r != before && r == before + [Stamp(p, now, start)];
          assert r[i] == before[|before| - 1] && r[i + 1].timestamp == now;
          assert !Debounced(before, p.kind, now);
        }
      }
    }
  }
}
