/** The expiry sweep of the thread table: batches of deletes until one comes back short. */
module TtlSweep {
  import opened Json

  const BATCH_SIZE: nat := 100

  /** Expiry times by thread id; None never expires. */
  type Threads = map<string, Option<int>>

  function Expired(ts: Threads, now: int): set<string> {
    set id | id in ts && ts[id].Some? && ts[id].value < now
  }

  /** A statement with a LIMIT deletes as many expired threads as the limit allows, whichever it picks. */
  ghost predicate BatchOf(ts: Threads, now: int, limit: nat, gone: set<string>) {
    && gone <= Expired(ts, now)
    && |gone| == if |Expired(ts, now)| < limit then |Expired(ts, now)| else limit
  }

  /** A short batch leaves nothing expired. */
  lemma ShortBatchIsLast(ts: Threads, now: int, limit: nat, gone: set<string>)
    requires BatchOf(ts, now, limit, gone) && |gone| < limit
    ensures Expired(ts - gone, now) == {}
  {
    var all := Expired(ts, now);
    assert |all - gone| == |all| - |gone|;
    assert forall id | id in Expired(ts - gone, now) :: id in all - gone;
  }

  lemma Shrinks(ts: Threads, gone: set<string>)
    requires gone <= ts.Keys
    ensures |ts - gone| + |gone| == |ts|
  {
    assert (ts - gone).Keys == ts.Keys - gone;
    assert |ts.Keys - gone| == |ts.Keys| - |gone|;
  }

  /** What is left is unchanged, and what went had expired when its batch ran. */
  ghost predicate Swept(was: Threads, left: Threads, when: map<string, nat>, clock: nat -> int, batches: nat) {
    && (forall id | id in left :: id in was && left[id] == was[id])
    && (forall id | id in was && id !in left :: id in when && when[id] < batches && was[id].Some? && was[id].value < clock(when[id]))
  }

  lemma SweptMore(was: Threads, left: Threads, gone: set<string>, when: map<string, nat>, clock: nat -> int, batches: nat)
    requires Swept(was, left, when, clock, batches)
    requires forall id | id in gone :: id in left && left[id].Some? && left[id].value < clock(batches)
    ensures Swept(was, left - gone, when + map id | id in gone :: batches, clock, batches + 1)
  {
  }

  class ThreadTable {
    var threads: Threads

    /** One DELETE statement at time `now`, with the number of rows it affected. */
    method DeleteBatch(now: int, limit: nat) returns (n: nat, gone: set<string>)
      modifies this
      ensures BatchOf(old(threads), now, limit, gone) && n == |gone| <= limit
      ensures threads == old(threads) - gone
      ensures forall id | id in gone :: id in old(threads) && old(threads)[id].Some? && old(threads)[id].value < now
      ensures n < limit ==> forall id | id in threads :: threads[id].Some? ==> threads[id].value >= now
    {
      var left := Expired(threads, now);
      gone := {};
      while left != {} && |gone| < limit
        invariant gone + left == Expired(threads, now) && gone !! left
        invariant |gone| <= limit && threads == old(threads)
        decreases |left|
      {
        var id :| id in left;
        gone, left := gone + {id}, left - {id};
      }
      assert |Expired(threads, now)| == |gone| + |left|;
      n := |gone|;
      if n < limit {
        ShortBatchIsLast(threads, now, limit, gone);
      }
      threads := threads - gone;
    }

    /**
      One tick. The clock may move between statements. The sweep ends after at most one batch
      per hundred threads plus one; every thread it deleted had expired when its statement ran,
      threads that remain are unchanged, and none is expired as of the last statement.
    */
    method Sweep(clock: nat -> int) returns (batches: nat)
      modifies this
      ensures batches >= 1 && (batches - 1) * 100 + |threads| <= |old(threads)|
      ensures forall id | id in threads :: id in old(threads) && threads[id] == old(threads)[id]
      ensures forall id | id in old(threads) && id !in threads ::
                exists i | 0 <= i < batches :: old(threads)[id].Some? && old(threads)[id].value < clock(i)
      ensures forall id | id in threads :: threads[id].Some? ==> threads[id].value >= clock(batches - 1)
    {
      batches := 0;
      var short := false;
      ghost var when: map<string, nat>, size := map[], |threads|;
      while !short
        invariant short ==> batches >= 1 && forall id | id in threads :: threads[id].Some? ==> threads[id].value >= clock(batches - 1)
        invariant 100 * (if short then batches - 1 else batches) + size <= |old(threads)| && size == |threads|
        invariant Swept(old(threads), threads, when, clock, batches)
        decreases !short, size
      {
        ghost var before := threads;
        var n, gone := DeleteBatch(clock(batches), BATCH_SIZE);
        Shrinks(before, gone);
        SweptMore(old(threads), before, gone, when, clock, batches);
        when := when + map id | id in gone :: batches;
        short := n < BATCH_SIZE;
        size := size - n;
        batches := batches + 1;
      }
    }
  }
}
