/**
 * LicenseManager's per-software seat accounting: one SeatCounter per software id,
 * created on first use with that call's maximum, incremented on allocate (rolled
 * back when the maximum is exceeded) and decremented on release.
 */
module Licenses {
  import opened JavaLang

  /** The outcome of one increment: whether it succeeded and the count it leaves. */
  datatype Bump = Bump(ok: bool, count: int)

  /**
   * increment() as intended: it succeeds exactly when the count is below the maximum,
   * and then raises the count by one; on failure the count is as before.
   */
  function IncrementIntended(cur: int, max: int): (r: Bump)
    ensures r.ok <==> cur < max
    ensures r.count == if r.ok then cur + 1 else cur
    ensures IsInt32(cur) && IsInt32(max) ==> IsInt32(r.count)
  {
    if cur + 1 > max then Bump(false, cur) else Bump(true, cur + 1)
  }

  /**
   * increment() as written: AtomicInteger.incrementAndGet wraps at Integer.MAX_VALUE,
   * the wrapped value is compared with the maximum, and a failure is rolled back with
   * decrementAndGet (which wraps back).
   */
  function IncrementAsWritten(cur: int, max: int): (r: Bump)
    requires IsInt32(cur) && IsInt32(max)
    ensures IsInt32(r.count)
  {
    var newnum := Wrap32(cur + 1);
    if newnum > max then Bump(false, Wrap32(newnum - 1)) else Bump(true, newnum)
  }

  /** Below Integer.MAX_VALUE the code as written behaves as intended. */
  lemma AsWrittenAgreesBelowIntMax(cur: int, max: int)
    requires IsInt32(cur) && IsInt32(max) && cur < INT_MAX
    ensures IncrementAsWritten(cur, max) == IncrementIntended(cur, max)
  {
  }

  /**
   * Counterexample: with the maximum at Integer.MAX_VALUE and the count already there,
   * the increment as written wraps to Integer.MIN_VALUE, which is not above the maximum,
   * so it succeeds and leaves a negative count; as intended it fails and keeps the count.
   */
  lemma AsWrittenOverflowsAtIntMax()
    ensures IncrementAsWritten(INT_MAX, INT_MAX) == Bump(true, INT_MIN)
    ensures IncrementIntended(INT_MAX, INT_MAX) == Bump(false, INT_MAX)
  {
    assert Wrap32(INT_MAX + 1) == INT_MIN;
  }

  class SeatCounter {
    /** curNumSeats: the seats in use. */
    var cur: int
    /** maxNumSeats. */
    const max: int

    ghost predicate Valid()
      reads this
    {
      IsInt32(cur) && IsInt32(max)
    }

    /** The count never goes above the maximum (or above zero, for a negative maximum). */
    predicate WithinMax()
      reads this
    {
      cur <= max || cur <= 0
    }

    constructor (maxnum: int)
      requires IsInt32(maxnum)
      ensures Valid() && WithinMax()
      ensures cur == 0 && max == maxnum
    {
      cur := 0;
      max := maxnum;
    }

    /**
     * increment(): raise the count, and undo it and report false when it went above the
     * maximum. The count is incremented without 32-bit wrap-around (see
     * IncrementAsWritten for the source's wrapping version).
     */
    method Increment() returns (ok: bool)
      requires Valid()
      modifies this
      ensures Valid()
      ensures Bump(ok, cur) == IncrementIntended(old(cur), max)
      ensures old(WithinMax()) ==> WithinMax()
    {
      var newnum := cur + 1;
      cur := newnum;
      if newnum > max {
        cur := cur - 1;
        return false;
      }
      return true;
    }

    /**
     * decrement(): lowers the count unconditionally, possibly below zero, and returns the
     * new count; like AtomicInteger it wraps at Integer.MIN_VALUE.
     */
    method Decrement() returns (r: int)
      requires Valid()
      modifies this
      ensures Valid()
      ensures r == cur && cur == Wrap32(old(cur) - 1)
      ensures old(cur) > INT_MIN ==> cur == old(cur) - 1
      ensures old(cur) > INT_MIN && old(WithinMax()) ==> WithinMax()
    {
      cur := Wrap32(cur - 1);
      r := cur;
    }
  }

  function OutOfSeatsMessage(id: string): string {
    "Maximum number of software licenses reached for software id \"" + id + "\""
  }

  class LicenseManager {
    var seats: map<string, SeatCounter>

    /** Every counter is well formed, and no two ids share a counter. */
    ghost predicate Valid()
      reads this, seats.Values
    {
      && (forall id :: id in seats ==> seats[id].Valid())
      && (forall a, b :: a in seats && b in seats && a != b ==> seats[a] != seats[b])
    }

    constructor ()
      ensures Valid() && seats == map[]
    {
      seats := map[];
    }

    function CounterOf(id: string): set<object>
      reads this
    {
      if id in seats then {seats[id]} else {}
    }

    /**
     * seats.computeIfAbsent(id, sid -> new SeatCounter(max)): the id's counter, created at
     * zero with this `max` only when the id has none yet.
     */
    method CounterFor(id: string, max: int) returns (counter: SeatCounter)
      requires Valid() && IsInt32(max)
      modifies this`seats
      ensures Valid()
      ensures seats == old(seats)[id := counter]
      ensures id in old(seats) ==> counter == old(seats[id])
      ensures id !in old(seats) ==> fresh(counter) && counter.max == max && counter.cur == 0
      ensures forall other :: other in seats && other != id ==> seats[other] != counter
    {
      if id in seats {
        counter := seats[id];
      } else {
        counter := new SeatCounter(max);
        seats := seats[id := counter];
      }
    }

    /**
     * allocate(id, max): the id's counter is created at zero with this `max` only on its
     * first use (later calls keep the first maximum); the allocation fails with
     * OutOfSeatsException exactly when the increment fails. No other counter changes.
     */
    method Allocate(id: string, max: int) returns (r: Outcome)
      requires Valid() && IsInt32(max)
      modifies this`seats, CounterOf(id)
      ensures Valid()
      ensures id in seats && seats == old(seats)[id := seats[id]]
      ensures id in old(seats) ==> seats[id] == old(seats[id])
      ensures id !in old(seats) ==> fresh(seats[id]) && seats[id].max == max
      ensures var before := if id in old(seats) then old(seats[id].cur) else 0;
              Bump(r.Pass?, seats[id].cur) == IncrementIntended(before, seats[id].max)
      ensures r.Fail? ==> r == Fail(OutOfSeatsMessage(id))
      ensures forall other :: other in old(seats) && other != id ==>
                seats[other] == old(seats[other]) && seats[other].cur == old(seats[other].cur)
    {
      var counter := CounterFor(id, max);
      ghost var before := counter.cur;
      assert before == if id in old(seats) then old(seats[id].cur) else 0;
      ghost var counters := seats;
      var ok := IncrementSeat(id);
      assert forall other :: other in old(seats) && other != id ==> counters[other] == old(seats[other]);
      if !ok {
        return Fail(OutOfSeatsMessage(id));
      }
      return Pass;
    }

    /** The increment of the id's counter inside allocate: only that counter changes. */
    method IncrementSeat(id: string) returns (ok: bool)
      requires Valid() && id in seats
      modifies seats[id]
      ensures Valid()
      ensures seats == old(seats)
      ensures Bump(ok, seats[id].cur) == IncrementIntended(old(seats[id].cur), seats[id].max)
      ensures forall other :: other in seats && other != id ==> seats[other].cur == old(seats[other].cur)
    {
      ok := seats[id].Increment();
    }

    /** releaseSeat(id): an id without a counter is ignored; otherwise only its counter is decremented. */
    method ReleaseSeat(id: string)
      requires Valid()
      modifies CounterOf(id)
      ensures Valid()
      ensures seats == old(seats)
      ensures id in seats ==> seats[id].cur == Wrap32(old(seats[id].cur) - 1)
      ensures forall other :: other in seats && other != id ==> seats[other].cur == old(seats[other].cur)
    {
      if id !in seats {
        return;
      }
      var counter := seats[id];
      var n := counter.Decrement();
    }
  }

  /** Three allocations against a maximum of two: the first two succeed, the third is refused. */
  method SeatScenario() {
    var licenses := new LicenseManager();
    var r1 := licenses.Allocate("sw-1", 2);
    var r2 := licenses.Allocate("sw-1", 2);
    var r3 := licenses.Allocate("sw-1", 5);
    assert r1 == Pass && r2 == Pass;
    assert r3 == Fail(OutOfSeatsMessage("sw-1"));
    assert licenses.seats["sw-1"].cur == 2;
    licenses.ReleaseSeat("sw-1");
    var r4 := licenses.Allocate("sw-1", 2);
    assert r4 == Pass;
  }
}
