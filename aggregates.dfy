/** The report's aggregate figures: how many logged entries have a given type. */
module Aggregates {
  import opened EventLog

  /** The entries of `kind`, in log order (the report's `filter`). */
  function Filter(log: seq<Event>, kind: EventType): (r: seq<Event>)
    ensures |r| <= |log|
    ensures forall i | 0 <= i < |r| :: r[i].kind == kind
    decreases |log|
  {
    if log == [] then []
    else Filter(log[..|log| - 1], kind) + (if log[|log| - 1].kind == kind then [log[|log| - 1]] else [])
  }

  /** The types of the entries, in log order. */
  function Kinds(log: seq<Event>): (r: seq<EventType>)
  {
    seq(|log|, i requires 0 <= i < |log| => log[i].kind)
  }

  /** A filter count is the multiplicity of that type among the entries' types. */
  lemma {:induction false} FilterCountsOccurrences(log: seq<Event>, kind: EventType)
    ensures |Filter(log, kind)| == multiset(Kinds(log))[kind]
    decreases |log|
  {
    if log != [] {
      var init := log[..|log| - 1];
      FilterCountsOccurrences(init, kind);
      assert Kinds(log) == Kinds(init) + [log[|log| - 1].kind];
    }
  }

  /** Entries of other types do not change the count of `kind`. */
  lemma {:induction false} FilterIgnoresOtherKinds(a: seq<Event>, b: seq<Event>, kind: EventType)
    requires forall i | 0 <= i < |b| :: b[i].kind != kind
    ensures Filter(a + b, kind) == Filter(a, kind)
    decreases |b|
  {
    if b != [] {
      var init := b[..|b| - 1];
      assert (a + b)[..|a + b| - 1] == a + init;
      assert (a + b)[|a + b| - 1] == b[|b| - 1];
      FilterIgnoresOtherKinds(a, init, kind);
    } else {
      assert a + b == a;
    }
  }

  /** One logEvent call raises the count of its own type by at most one and
      leaves every other count as it was. */
  lemma LoggedCount(log: seq<Event>, p: Pending, now: int, start: int, kind: EventType)
    ensures var r := Logged(log, p, now, start);
      && |Filter(log, kind)| <= |Filter(r, kind)| <= |Filter(log, kind)| + 1
      && (kind != p.kind ==> Filter(r, kind) == Filter(log, kind))
  {
    var r := Logged(log, p, now, start);
    if r != log {
      assert r[..|r| - 1] == log;
    }
  }

  /** Logging candidates none of which has type `kind` leaves its count as it was. */
  lemma LogAllKeepsOtherCounts(log: seq<Event>, ps: seq<Pending>, now: int, start: int, kind: EventType)
    requires forall p | p in ps :: p.kind != kind
    ensures Filter(LogAll(log, ps, now, start), kind) == Filter(log, kind)
  {
    var r := LogAll(log, ps, now, start);
    var added := r[|log|..];
    assert r == log + added;
    forall i | 0 <= i < |added| ensures added[i].kind != kind {
      assert added[i] == r[|log| + i];
      assert Pending(r[|log| + i].kind, r[|log| + i].detail) in ps;
    }
    FilterIgnoresOtherKinds(log, added, kind);
  }
}
