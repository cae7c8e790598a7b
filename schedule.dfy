/**
 * The deadline scheduler of the plant module: a list of scheduled events kept
 * sorted by execution time, with add, remove-by-id and one pass of the run loop
 * (confirm the head, pop it, execute it, reinsert it unless it is done).
 *
 * Times and durations are exact real numbers of seconds. The asyncio lock, the
 * wake-up signal and the task machinery are not modelled: one pass of the loop
 * is a sequential step whose inputs say whether the wait was interrupted and
 * whether the action raised.
 */
module Schedule {
  import opened Wrappers

  type EventId = nat
  type Time = real
  type Duration = real

  /** A scheduled event; `action` is whatever the event runs when it fires. */
  datatype Event<A> = Event(
    id: EventId,
    creationTime: Time,
    executionTime: Time,
    action: A,
    repeatInterval: Option<Duration>,
    executed: bool)

  /** A freshly created event: not executed yet. */
  function NewEvent<A>(id: EventId, now: Time, time: Time, action: A, repeat: Option<Duration>): Event<A>
  {
    Event(id, now, time, action, repeat, false)
  }

  /**
   * Whether firing re-arms the event. A missing interval and a zero interval
   * are both falsy in the source's `if self.repeat_interval:` test, so both
   * count as non-repeating; a negative interval is truthy.
   */
  predicate Repeats<A>(e: Event<A>) {
    e.repeatInterval.Some? && e.repeatInterval.value != 0.0
  }

  /** The ordering used by the list sort: strictly earlier execution time. */
  predicate Before<A>(a: Event<A>, b: Event<A>) {
    a.executionTime < b.executionTime
  }

  /**
   * The event after `execute()`. When the action raises, the exception leaves
   * `execute` before either field is touched.
   */
  function Execute<A>(e: Event<A>, raised: bool): (r: Event<A>)
    ensures r.id == e.id && r.action == e.action && r.creationTime == e.creationTime
    ensures r.repeatInterval == e.repeatInterval
    ensures raised ==> r == e
    ensures !raised && Repeats(e) ==>
              r.executionTime == e.executionTime + e.repeatInterval.value && r.executed == e.executed
    ensures !raised && !Repeats(e) ==> r.executionTime == e.executionTime && r.executed
  {
    if raised then e
    else if Repeats(e) then e.(executionTime := e.executionTime + e.repeatInterval.value)
    else e.(executed := true)
  }

  ghost predicate Sorted<A>(s: seq<Event<A>>) {
    forall i, j :: 0 <= i < j < |s| ==> s[i].executionTime <= s[j].executionTime
  }

  ghost predicate DistinctIds<A>(s: seq<Event<A>>) {
    forall i, j :: 0 <= i < j < |s| ==> s[i].id != s[j].id
  }

  /** No event in `s` carries `id`. */
  ghost predicate Absent<A>(s: seq<Event<A>>, id: EventId) {
    forall i :: 0 <= i < |s| ==> s[i].id != id
  }

  lemma SortedTail<A>(s: seq<Event<A>>)
    requires s != [] && Sorted(s)
    ensures Sorted(s[1..])
    ensures forall i :: 0 <= i < |s| ==> s[0].executionTime <= s[i].executionTime
  {
    forall i, j | 0 <= i < j < |s[1..]| ensures s[1..][i].executionTime <= s[1..][j].executionTime {
      assert s[1..][i] == s[i + 1] && s[1..][j] == s[j + 1];
    }
  }

  /** The head of a sorted list may stand before any sorted list drawn from its members. */
  lemma SortedCons<A>(s: seq<Event<A>>, rest: seq<Event<A>>)
    requires s != [] && Sorted(s) && Sorted(rest)
    requires forall x | x in rest :: x in s
    ensures Sorted([s[0]] + rest)
  {
    var r := [s[0]] + rest;
    forall i, j | 0 <= i < j < |r| ensures r[i].executionTime <= r[j].executionTime {
      assert r[j] == rest[j - 1];
      if i > 0 {
        assert r[i] == rest[i - 1];
      } else {
        assert rest[j - 1] in s;
        var k :| 0 <= k < |s| && s[k] == rest[j - 1];
      }
    }
  }

  /**
   * The list after `append(event)` followed by the stable `sort()`; on a sorted
   * list Python's sort only moves the appended event (see InsertIsStableSort).
   */
  function Insert<A>(s: seq<Event<A>>, e: Event<A>): seq<Event<A>>
  {
    if s == [] || Before(e, s[0]) then [e] + s
    else [s[0]] + Insert(s[1..], e)
  }

  /** Every event of `Insert(s, e)` is `e` or was already in `s`. */
  lemma {:induction false} InsertMembers<A>(s: seq<Event<A>>, e: Event<A>)
    ensures forall x | x in Insert(s, e) :: x in s || x == e
    ensures |Insert(s, e)| == |s| + 1
  {
    if s != [] && !Before(e, s[0]) {
      InsertMembers(s[1..], e);
      assert forall x | x in s[1..] :: x in s;
    }
  }

  /** Number of leading events whose time is not later than `t`. */
  function InsertionPoint<A>(s: seq<Event<A>>, t: Time): (k: nat)
    ensures k <= |s|
  {
    if s == [] || t < s[0].executionTime then 0 else 1 + InsertionPoint(s[1..], t)
  }

  /**
   * Insert is exactly the stable sort of `s + [e]`: the events not later than
   * `e` keep their order in front of it (so ties land before the new event),
   * the later ones keep their order behind it.
   */
  lemma {:induction false} InsertIsStableSort<A>(s: seq<Event<A>>, e: Event<A>)
    requires Sorted(s)
    ensures var k := InsertionPoint(s, e.executionTime);
            && Insert(s, e) == s[..k] + [e] + s[k..]
            && (forall i :: 0 <= i < k ==> s[i].executionTime <= e.executionTime)
            && (forall i :: k <= i < |s| ==> e.executionTime < s[i].executionTime)
  {
    InsertAtInsertionPoint(s, e);
    InsertionPointSplits(s, e.executionTime);
  }

  /** Insert puts the event right after the leading events not later than it. */
  lemma {:induction false} InsertAtInsertionPoint<A>(s: seq<Event<A>>, e: Event<A>)
    ensures var k := InsertionPoint(s, e.executionTime);
            Insert(s, e) == s[..k] + [e] + s[k..]
  {
    if s == [] {
    } else if Before(e, s[0]) {
      assert s[..0] == [] && s[0..] == s;
    } else {
      var tail := s[1..];
      InsertAtInsertionPoint(tail, e);
      var k' := InsertionPoint(tail, e.executionTime);
      assert [s[0]] + tail[..k'] == s[..k' + 1];
      assert tail[k'..] == s[k' + 1..];
    }
  }

  /** In a sorted list the insertion point separates the times not later than `t` from the later ones. */
  lemma {:induction false} InsertionPointSplits<A>(s: seq<Event<A>>, t: Time)
    requires Sorted(s)
    ensures var k := InsertionPoint(s, t);
            && (forall i :: 0 <= i < k ==> s[i].executionTime <= t)
            && (forall i :: k <= i < |s| ==> t < s[i].executionTime)
  {
    if s != [] {
      SortedTail(s);
      if t >= s[0].executionTime {
        var tail := s[1..];
        InsertionPointSplits(tail, t);
        var k' := InsertionPoint(tail, t);
        forall i | k' + 1 <= i < |s| ensures t < s[i].executionTime {
          assert tail[i - 1] == s[i];
        }
        forall i | 0 <= i < k' + 1 ensures s[i].executionTime <= t {
          if i > 0 { assert tail[i - 1] == s[i]; }
        }
      }
    }
  }

  /** Adding an event keeps the list sorted and adds exactly that event. */
  lemma InsertKeepsSortedPermutation<A>(s: seq<Event<A>>, e: Event<A>)
    requires Sorted(s)
    ensures Sorted(Insert(s, e))
    ensures multiset(Insert(s, e)) == multiset(s) + multiset{e}
  {
    InsertIsStableSort(s, e);
    SpliceSorted(s, e, InsertionPoint(s, e.executionTime));
    InsertPermutes(s, e);
  }

  /** Insert adds exactly the one event. */
  lemma InsertPermutes<A>(s: seq<Event<A>>, e: Event<A>)
    ensures multiset(Insert(s, e)) == multiset(s) + multiset{e}
  {
    InsertAtInsertionPoint(s, e);
    var k := InsertionPoint(s, e.executionTime);
    assert s == s[..k] + s[k..];
  }

  /** An event placed between the times not later than it and the later ones keeps a sorted list sorted. */
  lemma SpliceSorted<A>(s: seq<Event<A>>, e: Event<A>, k: nat)
    requires Sorted(s) && k <= |s|
    requires forall i :: 0 <= i < k ==> s[i].executionTime <= e.executionTime
    requires forall i :: k <= i < |s| ==> e.executionTime < s[i].executionTime
    ensures Sorted(s[..k] + [e] + s[k..])
  {
    var r := s[..k] + [e] + s[k..];
    forall i, j | 0 <= i < j < |r| ensures r[i].executionTime <= r[j].executionTime {
      if j < k {
        assert r[i] == s[i] && r[j] == s[j];
      } else if j == k {
        assert r[i] == s[i] && r[j] == e;
      } else if i < k {
        assert r[i] == s[i] && r[j] == s[j - 1];
      } else if i == k {
        assert r[i] == e && r[j] == s[j - 1];
      } else {
        assert r[i] == s[i - 1] && r[j] == s[j - 1];
      }
    }
  }

  /** `[event for event in self.events if event.id != event_id]` */
  function RemoveId<A>(s: seq<Event<A>>, id: EventId): (r: seq<Event<A>>)
    ensures Absent(r, id)
    ensures forall x | x in r :: x in s
    ensures forall x | x in s && x.id != id :: x in r
    ensures Sorted(s) ==> Sorted(r)
  {
    if s == [] then []
    else if s[0].id == id then
      assert forall x | x in s[1..] :: x in s;
      assert Sorted(s) ==> Sorted(s[1..]) by {
        if Sorted(s) { SortedTail(s); }
      }
      RemoveId(s[1..], id)
    else
      var rest := RemoveId(s[1..], id);
      assert forall x | x in s && x != s[0] :: x in s[1..];
      assert forall x | x in s[1..] :: x in s;
      assert Sorted(s) ==> Sorted([s[0]] + rest) by {
        if Sorted(s) {
          SortedTail(s);
          SortedCons(s, rest);
        }
      }
      [s[0]] + rest
  }

  /** Removing an id that no event carries leaves the list as it was. */
  lemma {:induction false} RemoveAbsentIdIsNoOp<A>(s: seq<Event<A>>, id: EventId)
    requires Absent(s, id)
    ensures RemoveId(s, id) == s
  {
    if s != [] {
      assert s[0].id != id;
      assert Absent(s[1..], id) by {
        forall i | 0 <= i < |s[1..]| ensures s[1..][i].id != id {
          assert s[1..][i] == s[i + 1];
        }
      }
      RemoveAbsentIdIsNoOp(s[1..], id);
      assert s == [s[0]] + s[1..];
    }
  }

  /** Removal filters each part of a list separately: the survivors keep their order. */
  lemma {:induction false} RemoveIdKeepsOrder<A>(a: seq<Event<A>>, b: seq<Event<A>>, id: EventId)
    ensures RemoveId(a + b, id) == RemoveId(a, id) + RemoveId(b, id)
  {
    if a == [] {
      assert a + b == b;
    } else {
      assert (a + b)[0] == a[0];
      assert (a + b)[1..] == a[1..] + b;
      RemoveIdKeepsOrder(a[1..], b, id);
    }
  }

  /** The event list after the head has been popped and fired, reinserted unless done. */
  function AfterFiring<A>(s: seq<Event<A>>, raised: bool): seq<Event<A>>
    requires s != []
  {
    var e := Execute(s[0], raised);
    if e.executed then s[1..] else Insert(s[1..], e)
  }

  /** How long the loop sleeps before the head is due: `max(0, execution_time - now)`. */
  function WaitTime<A>(e: Event<A>, now: Time): (w: Duration)
    ensures w >= 0.0
    ensures w == 0.0 <==> e.executionTime <= now
    ensures w > 0.0 ==> now + w == e.executionTime
  {
    if e.executionTime - now > 0.0 then e.executionTime - now else 0.0
  }

  /** No event goes back in time when it is re-armed. */
  ghost predicate NonNegativeIntervals<A>(s: seq<Event<A>>) {
    forall i :: 0 <= i < |s| && s[i].repeatInterval.Some? ==> s[i].repeatInterval.value >= 0.0
  }

  /** Firing keeps the list sorted and every event in it comes from the old list. */
  lemma AfterFiringContents<A>(s: seq<Event<A>>, raised: bool)
    requires s != [] && Sorted(s)
    ensures Sorted(AfterFiring(s, raised))
    ensures forall x | x in AfterFiring(s, raised) :: x in s[1..] || x == Execute(s[0], raised)
  {
    var e := Execute(s[0], raised);
    SortedTail(s);
    if !e.executed {
      InsertKeepsSortedPermutation(s[1..], e);
      var r := Insert(s[1..], e);
      forall x | x in r ensures x in s[1..] || x == e {
        assert x in multiset(r);
      }
    }
  }

  /**
   * Firing keeps the list sorted, and (when no interval is negative) the next
   * head is never earlier than the event just fired: without new insertions
   * events fire in non-decreasing time order.
   */
  lemma FiringKeepsOrder<A>(s: seq<Event<A>>, raised: bool)
    requires s != [] && Sorted(s) && NonNegativeIntervals(s)
    ensures Sorted(AfterFiring(s, raised)) && NonNegativeIntervals(AfterFiring(s, raised))
    ensures AfterFiring(s, raised) != [] ==> s[0].executionTime <= AfterFiring(s, raised)[0].executionTime
  {
    var e := Execute(s[0], raised);
    var r := AfterFiring(s, raised);
    AfterFiringContents(s, raised);
    SortedTail(s);
    forall i | 0 <= i < |r|
      ensures s[0].executionTime <= r[i].executionTime
      ensures r[i].repeatInterval.Some? ==> r[i].repeatInterval.value >= 0.0
    {
      assert r[i] in r;
      if r[i] != e {
        var j :| 0 <= j < |s[1..]| && s[1..][j] == r[i];
        assert s[j + 1] == r[i];
      }
    }
  }

  /** Times at which successive passes fire, with no event added in between. */
  function FiringTimes<A>(s: seq<Event<A>>, raised: seq<bool>): seq<Time>
    decreases |raised|
  {
    if s == [] || raised == [] then []
    else [s[0].executionTime] + FiringTimes(AfterFiring(s, raised[0]), raised[1..])
  }

  ghost predicate Ascending(t: seq<Time>) {
    forall i, j :: 0 <= i < j < |t| ==> t[i] <= t[j]
  }

  /** Events fire in non-decreasing execution-time order, none before the first head. */
  lemma {:induction false} FiringTimesAscend<A>(s: seq<Event<A>>, raised: seq<bool>)
    requires Sorted(s) && NonNegativeIntervals(s)
    ensures Ascending(FiringTimes(s, raised))
    ensures s != [] ==> forall x | x in FiringTimes(s, raised) :: s[0].executionTime <= x
    decreases |raised|
  {
    if s != [] && raised != [] {
      var s' := AfterFiring(s, raised[0]);
      FiringKeepsOrder(s, raised[0]);
      FiringTimesAscend(s', raised[1..]);
      var t := FiringTimes(s, raised);
      var t' := FiringTimes(s', raised[1..]);
      assert t == [s[0].executionTime] + t';
      assert s' == [] ==> t' == [];
      forall x | x in t' ensures s[0].executionTime <= x {
      }
      forall i, j | 0 <= i < j < |t| ensures t[i] <= t[j] {
        assert t[j] == t'[j - 1];
        assert t'[j - 1] in t';
        if i > 0 {
          assert t[i] == t'[i - 1];
          assert t'[i - 1] <= t'[j - 1];
        } else {
          assert t[i] == s[0].executionTime;
        }
      }
    }
  }

  /** The list after `n` passes in which no action raised. */
  function SuccessfulFirings<A>(s: seq<Event<A>>, n: nat): seq<Event<A>>
    decreases n
  {
    if n == 0 || s == [] then s else SuccessfulFirings(AfterFiring(s, false), n - 1)
  }

  /** A lone repeating event fires at t0, t0+I, t0+2I, ... */
  lemma {:induction false} RepeatingCadence<A>(e: Event<A>, n: nat)
    requires Repeats(e) && !e.executed
    ensures SuccessfulFirings([e], n) == [e.(executionTime := e.executionTime + (n as real) * e.repeatInterval.value)]
    decreases n
  {
    if n > 0 {
      var e1 := Execute(e, false);
      assert [e][1..] == [];
      assert AfterFiring([e], false) == [e1];
      RepeatingCadence(e1, n - 1);
      assert e1.executionTime + ((n - 1) as real) * e.repeatInterval.value
          == e.executionTime + (n as real) * e.repeatInterval.value;
    }
  }

  /** A non-repeating event that ran without raising is gone from the list. */
  lemma FiredOneShotIsDropped<A>(s: seq<Event<A>>)
    requires s != [] && DistinctIds(s) && !Repeats(s[0])
    ensures Absent(AfterFiring(s, false), s[0].id)
  {
    var r := AfterFiring(s, false);
    assert r == s[1..];
    forall i | 0 <= i < |r| ensures r[i].id != s[0].id {
      assert r[i] == s[i + 1];
    }
  }

  /** An event whose action raised is put back unchanged, with the same deadline. */
  lemma RaisingEventIsReinsertedUnchanged<A>(s: seq<Event<A>>)
    requires s != [] && Sorted(s) && !s[0].executed
    ensures AfterFiring(s, true) == Insert(s[1..], s[0])
    ensures multiset(AfterFiring(s, true)) == multiset(s)
  {
    SortedTail(s);
    InsertKeepsSortedPermutation(s[1..], s[0]);
    assert s == [s[0]] + s[1..];
  }

  /** Result of one pass of the run loop. */
  datatype StepResult<A> =
    | Idle                                   // empty list: wait for a wake-up
    | WokenEarly(wait: Duration)             // interrupted before the head was due
    | Skipped                                // the head changed before the pop
    | Fired(event: Event<A>, wait: Duration) // the head was popped and executed

  class Scheduler<A> {
    /** `self.events`, kept sorted by execution time. */
    var events: seq<Event<A>>

    ghost predicate Valid()
      reads this
    {
      Sorted(events)
    }

    constructor ()
      ensures Valid() && events == []
    {
      events := [];
    }

    /** `add_event`: append and stable sort. */
    method AddEvent(e: Event<A>)
      requires Valid()
      modifies this
      ensures Valid()
      ensures events == Insert(old(events), e)
      ensures multiset(events) == multiset(old(events)) + multiset{e}
      ensures var k := InsertionPoint(old(events), e.executionTime);
              && events == old(events)[..k] + [e] + old(events)[k..]
              && (forall i :: 0 <= i < k ==> old(events)[i].executionTime <= e.executionTime)
              && (forall i :: k <= i < |old(events)| ==> e.executionTime < old(events)[i].executionTime)
    {
      InsertIsStableSort(events, e);
      InsertKeepsSortedPermutation(events, e);
      events := Insert(events, e);
    }

    /** `remove_event`: drop every event carrying `id`. */
    method RemoveEvent(id: EventId)
      requires Valid()
      modifies this
      ensures Valid()
      ensures events == RemoveId(old(events), id)
      ensures Absent(old(events), id) ==> events == old(events)
    {
      if Absent(events, id) {
        RemoveAbsentIdIsNoOp(events, id);
      }
      events := RemoveId(events, id);
    }

    /** Reads the head under the lock: the earliest event, if any. */
    method Head() returns (next: Option<Event<A>>)
      requires Valid()
      ensures next.None? <==> events == []
      ensures events != [] ==> next == Some(events[0])
      ensures next.Some? ==> forall x | x in events :: next.value.executionTime <= x.executionTime
    {
      if events == [] {
        next := None;
      } else {
        next := Some(events[0]);
      }
    }

    /**
     * The confirm-pop-execute-reinsert part of the loop: pops only when the list
     * is non-empty and its head still carries the candidate id chosen before the
     * wait; executes it; reinserts it unless it is marked executed.
     */
    method FireIfHead(candidate: EventId, raised: bool) returns (fired: Option<Event<A>>)
      requires Valid()
      modifies this
      ensures Valid()
      ensures old(events) == [] || old(events)[0].id != candidate ==>
                fired.None? && events == old(events)
      ensures old(events) != [] && old(events)[0].id == candidate ==>
                && fired == Some(Execute(old(events)[0], raised))
                && events == AfterFiring(old(events), raised)
                && forall x | x in old(events) :: old(events)[0].executionTime <= x.executionTime
    {
      if events == [] || events[0].id != candidate {
        fired := None;
        return;
      }
      AfterFiringContents(events, raised);
      SortedTail(events);
      var event := events[0];
      events := events[1..];
      event := Execute(event, raised);
      if !event.executed {
        events := Insert(events, event);
      }
      fired := Some(event);
    }

    /**
     * One pass of `run` at time `now`. With an empty list the loop waits for a
     * wake-up. Otherwise it computes the wait for the head; if the wake-up
     * interrupts the wait (`woken`) nothing changes; else the head is fired.
     */
    method Step(now: Time, woken: bool, raised: bool) returns (r: StepResult<A>)
      requires Valid()
      modifies this
      ensures Valid()
      ensures old(events) == [] ==> r == Idle && events == old(events)
      ensures old(events) != [] && woken ==>
                r == WokenEarly(WaitTime(old(events)[0], now)) && events == old(events)
      ensures old(events) != [] && !woken ==>
                && r == Fired(Execute(old(events)[0], raised), WaitTime(old(events)[0], now))
                && events == AfterFiring(old(events), raised)
    {
      var next := Head();
      if next.None? {
        return Idle;
      }
      var wait := WaitTime(next.value, now);
      if woken {
        return WokenEarly(wait);
      }
      var fired := FireIfHead(next.value.id, raised);
      r := Fired(fired.value, wait);
    }
  }
}
