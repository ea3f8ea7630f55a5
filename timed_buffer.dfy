/**
 * TimedBuffer: a TreeMap from timestamp to sample that, on every insert,
 * evicts from its oldest key forward every entry more than `bufferSeconds`
 * older than the timestamp just inserted.
 *
 * The TreeMap is represented by its entries in ascending key order; `Put`
 * and `Lookup` are `TreeMap.put` and `TreeMap.get` on that representation.
 */
module Buffer {
  import opened Wrappers

  /** One mapping of the TreeMap: a timestamp in seconds and its sample. */
  datatype Entry<T> = Entry(key: real, value: T)

  /** The keys of a TreeMap, in ascending order. */
  function Keys<T>(es: seq<Entry<T>>): seq<real>
  {
    seq(|es|, i requires 0 <= i < |es| => es[i].key)
  }

  /** `values()`: the samples in ascending timestamp order. */
  function Values<T>(es: seq<Entry<T>>): seq<T>
  {
    seq(|es|, i requires 0 <= i < |es| => es[i].value)
  }

  /** The TreeMap invariant: keys strictly increasing, hence unique. */
  ghost predicate Sorted<T>(es: seq<Entry<T>>)
  {
    forall i, j :: 0 <= i < j < |es| ==> es[i].key < es[j].key
  }

  /** `get(k)`: the sample stored at exactly key `k`, or null. */
  function Lookup<T>(es: seq<Entry<T>>, k: real): (r: Option<T>)
    ensures r.None? ==> forall i :: 0 <= i < |es| ==> es[i].key != k
  {
    if es == [] then None
    else if es[0].key == k then Some(es[0].value)
    else Lookup(es[1..], k)
  }

  /** `put(k, v)`: `k` now maps to `v`, replacing any sample stored there. */
  function Put<T>(es: seq<Entry<T>>, k: real, v: T): (r: seq<Entry<T>>)
    ensures |es| <= |r| <= |es| + 1
  {
    if es == [] || k < es[0].key then [Entry(k, v)] + es
    else if es[0].key == k then [Entry(k, v)] + es[1..]
    else [es[0]] + Put(es[1..], k, v)
  }

  /** Whether the entry at `key` lies outside the window ending at `newTime`. */
  predicate Stale(key: real, newTime: real, window: real)
  {
    newTime - key > window
  }

  /** `cleanup(newTime)`: remove the first entry while it is stale. */
  function DropStale<T>(es: seq<Entry<T>>, newTime: real, window: real): (r: seq<Entry<T>>)
    ensures |r| <= |es|
  {
    if es != [] && Stale(es[0].key, newTime, window) then DropStale(es[1..], newTime, window)
    else es
  }

  /** The entries after `update(value, timestamp)` with window `window`. */
  function AfterUpdate<T>(es: seq<Entry<T>>, value: Option<T>, timestamp: real, window: real): seq<Entry<T>>
  {
    if value.None? then es
    else DropStale(Put(es, timestamp, value.value), timestamp, window)
  }

  // ---------------------------------------------------------------- lemmas

  /** A key that no entry carries is absent. */
  lemma {:induction false} LookupMiss<T>(es: seq<Entry<T>>, k: real)
    requires forall i :: 0 <= i < |es| ==> es[i].key != k
    ensures Lookup(es, k) == None
  {
    if es != [] {
      LookupMiss(es[1..], k);
    }
  }

  /** In a sorted TreeMap, the entry carrying a key is the one `get` finds. */
  lemma {:induction false} LookupAt<T>(es: seq<Entry<T>>, i: nat)
    requires Sorted(es) && i < |es|
    ensures Lookup(es, es[i].key) == Some(es[i].value)
  {
    if i > 0 {
      LookupAt(es[1..], i - 1);
    }
  }

  /** Every key `put` leaves is above any bound both `k` and the old keys are above. */
  lemma {:induction false} PutAbove<T>(es: seq<Entry<T>>, k: real, v: T, lo: real)
    requires lo < k && forall i :: 0 <= i < |es| ==> lo < es[i].key
    ensures forall i :: 0 <= i < |Put(es, k, v)| ==> lo < Put(es, k, v)[i].key
  {
    if !(es == [] || k < es[0].key) && es[0].key != k {
      PutAbove(es[1..], k, v, lo);
    }
  }

  /** `put` keeps the keys strictly increasing. */
  lemma {:induction false} PutSorted<T>(es: seq<Entry<T>>, k: real, v: T)
    requires Sorted(es)
    ensures Sorted(Put(es, k, v))
  {
    if !(es == [] || k < es[0].key) && es[0].key != k {
      PutSorted(es[1..], k, v);
      PutAbove(es[1..], k, v, es[0].key);
    }
  }

  /** After `put(k, v)`, `k` maps to `v` and every other key to its old sample. */
  lemma {:induction false} PutLookup<T>(es: seq<Entry<T>>, k: real, v: T, k': real)
    ensures Lookup(Put(es, k, v), k') == if k' == k then Some(v) else Lookup(es, k')
  {
    if !(es == [] || k < es[0].key) && es[0].key != k {
      PutLookup(es[1..], k, v, k');
    }
  }

  /** `put` keeps the TreeMap sorted, stores `v` at `k` and leaves every other key alone. */
  lemma PutSpec<T>(es: seq<Entry<T>>, k: real, v: T)
    requires Sorted(es)
    ensures Sorted(Put(es, k, v))
    ensures Lookup(Put(es, k, v), k) == Some(v)
    ensures forall k' :: k' != k ==> Lookup(Put(es, k, v), k') == Lookup(es, k')
  {
    PutSorted(es, k, v);
    PutLookup(es, k, v, k);
    forall k' | k' != k
      ensures Lookup(Put(es, k, v), k') == Lookup(es, k')
    {
      PutLookup(es, k, v, k');
    }
  }

  /** `put` of the sample already stored at a key changes nothing. */
  lemma {:induction false} PutExisting<T>(es: seq<Entry<T>>, k: real, v: T)
    requires Sorted(es) && Lookup(es, k) == Some(v)
    ensures Put(es, k, v) == es
  {
    if es[0].key != k {
      if k < es[0].key {
        assert forall i :: 0 <= i < |es| ==> es[i].key != k;
        LookupMiss(es, k);
        assert false;
      }
      PutExisting(es[1..], k, v);
    }
  }

  /** `put` of a key below every stored key only prepends it. */
  lemma PutBelow<T>(es: seq<Entry<T>>, k: real, v: T)
    requires forall i :: 0 <= i < |es| ==> k < es[i].key
    ensures Put(es, k, v) == [Entry(k, v)] + es
  {
  }

  /**
   * `cleanup` removes a prefix of the ascending key order and nothing else:
   * every removed entry is stale, and the first entry it keeps is not.
   */
  lemma {:induction false} DropStalePrefix<T>(es: seq<Entry<T>>, newTime: real, window: real)
    ensures |DropStale(es, newTime, window)| <= |es|
    ensures DropStale(es, newTime, window) == es[|es| - |DropStale(es, newTime, window)|..]
    ensures forall j :: 0 <= j < |es| - |DropStale(es, newTime, window)| ==>
              Stale(es[j].key, newTime, window)
    ensures DropStale(es, newTime, window) != [] ==>
              !Stale(DropStale(es, newTime, window)[0].key, newTime, window)
  {
    if es != [] && Stale(es[0].key, newTime, window) {
      DropStalePrefix(es[1..], newTime, window);
    }
  }

  /**
   * On a sorted TreeMap, `cleanup` keeps it sorted and leaves exactly the
   * entries inside the window: afterwards every key `k` has
   * `newTime - k <= window`, and every in-window key keeps its sample.
   */
  lemma DropStaleWindow<T>(es: seq<Entry<T>>, newTime: real, window: real)
    requires Sorted(es)
    ensures Sorted(DropStale(es, newTime, window))
    ensures forall i :: 0 <= i < |DropStale(es, newTime, window)| ==>
              !Stale(DropStale(es, newTime, window)[i].key, newTime, window)
  {
    DropStalePrefix(es, newTime, window);
  }

  /** What `get(k)` answers after `cleanup(newTime)`. */
  lemma {:induction false} DropStaleLookup<T>(es: seq<Entry<T>>, newTime: real, window: real, k: real)
    requires Sorted(es)
    ensures Lookup(DropStale(es, newTime, window), k) ==
              if Stale(k, newTime, window) then None else Lookup(es, k)
  {
    if es != [] && Stale(es[0].key, newTime, window) {
      DropStaleLookup(es[1..], newTime, window, k);
    } else if Stale(k, newTime, window) {
      assert forall i :: 0 <= i < |es| ==> es[i].key != k by {
        forall i | 0 <= i < |es| ensures es[i].key != k {
          if i > 0 { assert es[0].key < es[i].key; }
        }
      }
      LookupMiss(es, k);
    }
  }

  /**
   * The complete contents after `update(Some(v), t)`: a key outside the
   * window ending at `t` is gone, `t` maps to `v` when it is inside the
   * window (that is, when `window >= 0`), and every other key keeps its sample.
   * The keys remain strictly increasing.
   */
  lemma UpdateContents<T>(es: seq<Entry<T>>, v: T, t: real, window: real, k: real)
    requires Sorted(es)
    ensures Sorted(AfterUpdate(es, Some(v), t, window))
    ensures Lookup(AfterUpdate(es, Some(v), t, window), k) ==
              if Stale(k, t, window) then None
              else if k == t then Some(v)
              else Lookup(es, k)
  {
    PutSpec(es, t, v);
    DropStaleWindow(Put(es, t, v), t, window);
    DropStaleLookup(Put(es, t, v), t, window, k);
  }

  /**
   * The window invariant: after `update(Some(v), t)` every retained key `k`
   * satisfies `t - k <= window`.
   */
  lemma UpdateWindow<T>(es: seq<Entry<T>>, v: T, t: real, window: real)
    requires Sorted(es)
    ensures forall i :: 0 <= i < |AfterUpdate(es, Some(v), t, window)| ==>
              t - AfterUpdate(es, Some(v), t, window)[i].key <= window
  {
    PutSpec(es, t, v);
    DropStaleWindow(Put(es, t, v), t, window);
  }

  /** With a non-negative window the just-inserted key survives its own cleanup. */
  lemma UpdateKeepsInserted<T>(es: seq<Entry<T>>, v: T, t: real, window: real)
    requires Sorted(es) && window >= 0.0
    ensures Lookup(AfterUpdate(es, Some(v), t, window), t) == Some(v)
    ensures AfterUpdate(es, Some(v), t, window) != []
  {
    UpdateContents(es, v, t, window, t);
  }

  /**
   * Re-inserting the same sample at the same timestamp leaves the contents
   * as they were after the first insert, whatever the window.
   */
  lemma UpdateIdempotent<T>(es: seq<Entry<T>>, v: T, t: real, window: real)
    requires Sorted(es)
    ensures AfterUpdate(AfterUpdate(es, Some(v), t, window), Some(v), t, window)
         == AfterUpdate(es, Some(v), t, window)
  {
    var once := AfterUpdate(es, Some(v), t, window);
    UpdateContents(es, v, t, window, t);
    UpdateWindow(es, v, t, window);
    if window >= 0.0 {
      PutExisting(once, t, v);
      assert DropStale(once, t, window) == once;
    } else {
      assert forall i :: 0 <= i < |once| ==> t < once[i].key;
      PutBelow(once, t, v);
      assert DropStale([Entry(t, v)] + once, t, window) == DropStale(once, t, window);
      assert DropStale(once, t, window) == once;
    }
  }

  lemma KeysCons<T>(e: Entry<T>, es: seq<Entry<T>>)
    ensures Keys([e] + es) == [e.key] + Keys(es)
  {
  }

  /** Inserting under equal key sequences yields equal key sequences. */
  lemma {:induction false} PutSameKeys<A, B>(xs: seq<Entry<A>>, ys: seq<Entry<B>>, k: real, a: A, b: B)
    requires Keys(xs) == Keys(ys)
    ensures Keys(Put(xs, k, a)) == Keys(Put(ys, k, b))
  {
    assert |xs| == |Keys(xs)| == |ys|;
    if xs != [] {
      assert xs[0].key == Keys(xs)[0] == ys[0].key;
      assert Keys(xs[1..]) == Keys(xs)[1..];
      assert Keys(ys[1..]) == Keys(ys)[1..];
      if k < xs[0].key {
        KeysCons(Entry(k, a), xs);
        KeysCons(Entry(k, b), ys);
      } else if xs[0].key == k {
        KeysCons(Entry(k, a), xs[1..]);
        KeysCons(Entry(k, b), ys[1..]);
      } else {
        PutSameKeys(xs[1..], ys[1..], k, a, b);
        KeysCons(xs[0], Put(xs[1..], k, a));
        KeysCons(ys[0], Put(ys[1..], k, b));
      }
    }
  }

  /** Eviction depends on the keys alone. */
  lemma {:induction false} DropStaleSameKeys<A, B>(xs: seq<Entry<A>>, ys: seq<Entry<B>>, newTime: real, window: real)
    requires Keys(xs) == Keys(ys)
    ensures Keys(DropStale(xs, newTime, window)) == Keys(DropStale(ys, newTime, window))
  {
    assert |xs| == |Keys(xs)| == |ys|;
    if xs != [] {
      assert xs[0].key == Keys(xs)[0] == ys[0].key;
      assert Keys(xs[1..]) == Keys(xs)[1..];
      assert Keys(ys[1..]) == Keys(ys)[1..];
      DropStaleSameKeys(xs[1..], ys[1..], newTime, window);
    }
  }

  /**
   * Two buffers fed in lockstep (same timestamps, same window) keep
   * identical key sets, whatever samples they hold.
   */
  lemma UpdateSameKeys<A, B>(xs: seq<Entry<A>>, ys: seq<Entry<B>>, a: A, b: B, t: real, window: real)
    requires Keys(xs) == Keys(ys)
    ensures Keys(AfterUpdate(xs, Some(a), t, window)) == Keys(AfterUpdate(ys, Some(b), t, window))
  {
    PutSameKeys(xs, ys, t, a, b);
    DropStaleSameKeys(Put(xs, t, a), Put(ys, t, b), t, window);
  }

  // ---------------------------------------------------------------- the class

  class TimedBuffer<T> {
    /** The TreeMap this class extends, in ascending key order. */
    var entries: seq<Entry<T>>
    var bufferSeconds: real

    ghost predicate Valid()
      reads this
    {
      Sorted(entries)
    }

    /** The default window is 3 seconds. */
    constructor ()
      ensures Valid() && entries == [] && bufferSeconds == 3.0
    {
      entries := [];
      bufferSeconds := 3.0;
    }

    constructor WithWindow(bufferSeconds: real)
      ensures Valid() && entries == [] && this.bufferSeconds == bufferSeconds
    {
      entries := [];
      this.bufferSeconds := bufferSeconds;
    }

    /** Changes the window only; nothing is evicted before the next `Update`. */
    method SetBufferSeconds(bufferSeconds: real)
      modifies this`bufferSeconds
      ensures this.bufferSeconds == bufferSeconds && entries == old(entries)
    {
      this.bufferSeconds := bufferSeconds;
    }

    /** `lastKey()`: the newest timestamp held. */
    function LastKey(): (k: real)
      requires Valid() && entries != []
      reads this
      ensures k in Keys(entries)
      ensures forall i :: 0 <= i < |entries| ==> entries[i].key <= k
    {
      assert Keys(entries)[|entries| - 1] == entries[|entries| - 1].key;
      entries[|entries| - 1].key
    }

    method Cleanup(newTime: real)
      requires Valid()
      modifies this`entries
      ensures Valid()
      ensures entries == DropStale(old(entries), newTime, bufferSeconds)
    {
      DropStaleWindow(entries, newTime, bufferSeconds);
      while entries != []
        invariant DropStale(entries, newTime, bufferSeconds) == DropStale(old(entries), newTime, bufferSeconds)
        decreases |entries|
      {
        var first := entries[0].key;
        if newTime - first > bufferSeconds {
          entries := entries[1..];
        } else {
          return;
        }
      }
    }

    /**
     * `update(value, timestamp)`: a null value changes nothing and returns
     * null; otherwise the value is put at `timestamp`, stale entries are
     * evicted relative to `timestamp`, and the sample previously stored at
     * exactly `timestamp` (or null) is returned.
     */
    method Update(value: Option<T>, timestamp: real) returns (previous: Option<T>)
      requires Valid()
      modifies this`entries
      ensures Valid()
      ensures entries == AfterUpdate(old(entries), value, timestamp, bufferSeconds)
      ensures previous == if value.None? then None else Lookup(old(entries), timestamp)
      ensures value.Some? ==> forall i :: 0 <= i < |entries| ==> timestamp - entries[i].key <= bufferSeconds
      ensures value.Some? && bufferSeconds >= 0.0 ==> Lookup(entries, timestamp) == value
    {
      if value.None? {
        return None;
      }
      previous := Lookup(entries, timestamp);
      PutSpec(entries, timestamp, value.value);
      ghost var before := entries;
      entries := Put(entries, timestamp, value.value);
      Cleanup(timestamp);
      UpdateWindow(before, value.value, timestamp, bufferSeconds);
      UpdateContents(before, value.value, timestamp, bufferSeconds, timestamp);
    }
  }
}
