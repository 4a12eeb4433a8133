/** Timers (`scheduler.rs`): set, cancelled, and polled for those whose deadline has passed. */
module Scheduler {
  import opened Wrappers
  import opened Core

  /** The ids whose deadline has passed. */
  function Fired(timers: map<string, int>, now: int): set<string> {
    set id | id in timers && timers[id] <= now
  }

  /** The minimum over the deadlines; none when there are no timers. */
  ghost predicate IsNextDeadline(timers: map<string, int>, deadline: Option<int>) {
    match deadline
    case None => timers == map[]
    case Some(d) => (exists id :: id in timers && timers[id] == d) && forall id :: id in timers ==> d <= timers[id]
  }

  class Scheduler {
    var timers: map<string, int>

    constructor ()
      ensures timers == map[]
    {
      timers := map[];
    }

    method Set(id: string, duration: nat, now: int)
      modifies this
      ensures timers == old(timers)[id := now + duration]
    {
      var firesAt := now + duration;
      timers := timers[id := firesAt];
    }

    method Cancel(id: string)
      modifies this
      ensures timers == old(timers) - {id}
    {
      timers := timers - {id};
    }

    /** Timer events for the fired ids, each once, in no particular order; they are removed. */
    method Poll(now: int) returns (events: seq<Event>)
      modifies this
      ensures forall e :: e in events <==> e.Timer? && e.id in Fired(old(timers), now)
      ensures forall i, j :: 0 <= i < j < |events| ==> events[i] != events[j]
      ensures timers == old(timers) - Fired(old(timers), now)
    {
      events := [];
      var toRemove := [];
      var rest := timers.Keys;
      while rest != {}
        invariant rest <= timers.Keys
        invariant forall e :: e in events <==> e.Timer? && e.id in Fired(timers, now) - rest
        invariant forall id :: id in toRemove <==> id in Fired(timers, now) - rest
        invariant forall i, j :: 0 <= i < j < |events| ==> events[i] != events[j]
        invariant timers == old(timers)
        decreases rest
      {
        var id :| id in rest;
        rest := rest - {id};
        if timers[id] <= now {
          events := events + [Timer(id)];
          toRemove := toRemove + [id];
        }
      }
      for i := 0 to |toRemove|
        invariant forall id :: id in timers <==> id in old(timers) && id !in toRemove[..i]
        invariant forall id :: id in timers ==> timers[id] == old(timers)[id]
      {
        timers := timers - {toRemove[i]};
      }
      assert toRemove[..|toRemove|] == toRemove;
      assert forall id :: id in timers <==> id in old(timers) - Fired(old(timers), now);
    }

    /** The earliest deadline. */
    method NextDeadline() returns (deadline: Option<int>)
      ensures IsNextDeadline(timers, deadline)
    {
      deadline := None;
      var rest := timers.Keys;
      while rest != {}
        invariant rest <= timers.Keys
        invariant deadline.None? <==> rest == timers.Keys
        invariant deadline.Some? ==> exists id :: id in timers && timers[id] == deadline.value
        invariant deadline.Some? ==> forall id :: id in timers.Keys - rest ==> deadline.value <= timers[id]
        decreases rest
      {
        var id :| id in rest;
        rest := rest - {id};
        if deadline.None? || timers[id] < deadline.value {
          deadline := Some(timers[id]);
        }
      }
      assert rest == timers.Keys <==> timers == map[];
    }

    method HasTimers() returns (some: bool)
      ensures some <==> timers != map[]
    {
      some := timers != map[];
    }
  }

  // --------------------------------------------------------------- histories

  datatype Action = SetAt(id: string, duration: nat, now: int) | CancelId(id: string) | PollAt(now: int)

  function After(timers: map<string, int>, a: Action): map<string, int> {
    match a
    case SetAt(id, duration, now) => timers[id := now + duration]
    case CancelId(id) => timers - {id}
    case PollAt(now) => timers - Fired(timers, now)
  }

  /** The timers after a history. */
  function Timers(history: seq<Action>): map<string, int> {
    if history == [] then map[] else After(Timers(history[..|history| - 1]), history[|history| - 1])
  }

  /** The action leaves alone what `id` is set to fire at. */
  predicate Spares(a: Action, id: string, deadline: int) {
    match a
    case SetAt(other, _, _) => other != id
    case CancelId(other) => other != id
    case PollAt(now) => now < deadline
  }

  /** `id` was last set at position `k`, to fire at `deadline`, and since then was neither
      cancelled nor fired. */
  ghost predicate SetAndPending(history: seq<Action>, k: nat, id: string, deadline: int) {
    && k < |history|
    && history[k].SetAt? && history[k].id == id && deadline == history[k].now + history[k].duration
    && forall j :: k < j < |history| ==> Spares(history[j], id, deadline)
  }

  lemma {:induction false} TimersRemember(history: seq<Action>, id: string, deadline: int)
    ensures id in Timers(history) && Timers(history)[id] == deadline
       <==> exists k: nat :: SetAndPending(history, k, id, deadline)
    decreases |history|
  {
    if history != [] {
      var n := |history| - 1;
      var before := history[..n];
      TimersRemember(before, id, deadline);
      if history[n].SetAt? && history[n].id == id {
        if deadline == history[n].now + history[n].duration {
          assert SetAndPending(history, n, id, deadline);
        }
        forall k: nat | SetAndPending(history, k, id, deadline)
          ensures k == n
        {
          assert k < n ==> Spares(history[n], id, deadline);
        }
      } else {
        forall k: nat
          ensures SetAndPending(history, k, id, deadline)
             <==> SetAndPending(before, k, id, deadline) && Spares(history[n], id, deadline)
        {
          if SetAndPending(history, k, id, deadline) {
            assert k < n;
            assert forall j :: k < j < n ==> before[j] == history[j];
          }
          if SetAndPending(before, k, id, deadline) && Spares(history[n], id, deadline) {
            forall j | k < j < |history|
              ensures Spares(history[j], id, deadline)
            {
              assert j < n ==> before[j] == history[j];
            }
          }
        }
      }
    }
  }

  /** Main result: after any history, an id fires at a poll exactly when its latest setting was
      neither cancelled nor already fired and its deadline has passed. */
  lemma FiresExactlyWhenDue(history: seq<Action>, now: int, id: string)
    ensures id in Fired(Timers(history), now)
       <==> exists k: nat, deadline: int :: SetAndPending(history, k, id, deadline) && deadline <= now
  {
    if id in Timers(history) {
      TimersRemember(history, id, Timers(history)[id]);
    }
    forall k: nat, deadline: int | SetAndPending(history, k, id, deadline)
      ensures id in Timers(history) && Timers(history)[id] == deadline
    {
      TimersRemember(history, id, deadline);
    }
  }

  /** Polling early and again later fires the same ids, each once, as polling only later. */
  lemma EarlyPollLosesNothing(timers: map<string, int>, t1: int, t2: int)
    requires t1 <= t2
    ensures var rest := After(timers, PollAt(t1));
            && Fired(timers, t1) + Fired(rest, t2) == Fired(timers, t2)
            && Fired(timers, t1) !! Fired(rest, t2)
            && After(rest, PollAt(t2)) == After(timers, PollAt(t2))
  {
    assert After(After(timers, PollAt(t1)), PollAt(t2)) == After(timers, PollAt(t2));
  }

  /** A poll fires something exactly when the next deadline has come. */
  lemma PollIsDueAtDeadline(timers: map<string, int>, deadline: Option<int>, now: int)
    requires IsNextDeadline(timers, deadline)
    ensures Fired(timers, now) != {} <==> deadline.Some? && deadline.value <= now
  {
    if deadline.Some? && deadline.value <= now {
      var id :| id in timers && timers[id] == deadline.value;
      assert id in Fired(timers, now);
    }
    if Fired(timers, now) != {} {
      var id :| id in Fired(timers, now);
      assert id in timers;
    }
  }
}
