/**
 * `cache_generator(iterator, cache)` (fmrest/utils.py:74-91): a generator
 * that passes on every value of `iterator`, appending it to `cache[0]` before
 * yielding it, and sets `cache[1] = True` once `iterator` is exhausted.
 *
 * The wrapped iterator is modelled by the finite sequence of values it will
 * produce and the number already pulled; the generator by the `Next` pull
 * (Python's `next(gen)`), with `None` standing for `StopIteration`.
 */
module CacheGenerator {
  import opened Wrappers

  /** The two-slot `cache` list, shared with whoever created it: slot 0 the cached values, slot 1 the completion flag. */
  class Cache<T> {
    var values: seq<T>
    var complete: bool

    constructor (values: seq<T>, complete: bool)
      ensures this.values == values && this.complete == complete
    {
      this.values := values;
      this.complete := complete;
    }
  }

  /** A `cache_generator(iterator, cache)` generator object. */
  class CachingGenerator<T> {
    /** Every value the wrapped iterator produces, in order. */
    const source: seq<T>
    /** How many values have been pulled from the wrapped iterator. */
    var pulled: nat
    /** The generator body has returned: every further pull stops at once. */
    var finished: bool
    const cache: Cache<T>
    /** `cache[0]` and `cache[1]` when the generator was created. */
    ghost const initialValues: seq<T>
    ghost const initialComplete: bool

    /** The values yielded so far. */
    ghost function Yielded(): seq<T>
      reads this
      requires pulled <= |source|
    {
      source[..pulled]
    }

    /**
     * `cache[0]` is what it held at the start followed by exactly the values
     * yielded so far; `cache[1]` is left alone until the iterator is
     * exhausted, and is true from then on.
     */
    ghost predicate Valid()
      reads this, cache
    {
      && pulled <= |source|
      && cache.values == initialValues + Yielded()
      && (finished ==> pulled == |source| && cache.complete)
      && (!finished ==> cache.complete == initialComplete)
    }

    /** Calling `cache_generator(iterator, cache)`: the body does not run until the first pull. */
    constructor (source: seq<T>, cache: Cache<T>)
      ensures Valid()
      ensures this.source == source && this.cache == cache
      ensures pulled == 0 && !finished
      ensures initialValues == cache.values && initialComplete == cache.complete
    {
      this.source := source;
      this.cache := cache;
      pulled := 0;
      finished := false;
      initialValues := cache.values;
      initialComplete := cache.complete;
    }

    /**
     * One `next()` on the generator. While the iterator has values, the next
     * one is appended to `cache[0]` and returned; the pull that finds the
     * iterator exhausted sets `cache[1]` and returns `None`; every pull after
     * that returns `None` and changes nothing.
     */
    method Next() returns (r: Option<T>)
      requires Valid()
      modifies this, cache
      ensures Valid()
      ensures old(finished) ==> r == None && unchanged(this, cache)
      ensures !old(finished) && old(pulled) < |source| ==>
        && r == Some(source[old(pulled)])
        && pulled == old(pulled) + 1 && !finished
        && cache.values == old(cache.values) + [source[old(pulled)]]
        && cache.complete == old(cache.complete)
      ensures !old(finished) && old(pulled) == |source| ==>
        && r == None && finished && pulled == old(pulled)
        && cache.values == old(cache.values) && cache.complete
    {
      if finished {
        return None;
      }
      if pulled < |source| {
        var val := source[pulled];
        cache.values := cache.values + [val];
        pulled := pulled + 1;
        assert source[..pulled] == source[..pulled - 1] + [val];
        return Some(val);
      }
      cache.complete := true;
      finished := true;
      return None;
    }

    /**
     * Pulls until the generator stops (`list(gen)`): the result is the rest
     * of the iterator's values in order; afterwards `cache[0]` is its initial
     * contents followed by every value and `cache[1]` is set.
     */
    method Drain() returns (out: seq<T>)
      requires Valid()
      modifies this, cache
      ensures Valid() && finished
      ensures out == old(source[pulled..])
      ensures cache.values == initialValues + source && cache.complete
    {
      out := [];
      var r := Next();
      while r.Some?
        invariant Valid()
        invariant old(pulled) <= pulled
        invariant out + (if r.Some? then [r.value] else []) == source[old(pulled)..pulled]
        invariant r.None? ==> finished
        decreases |source| - pulled, r.Some?
      {
        out := out + [r.value];
        r := Next();
      }
      assert source[..|source|] == source;
    }

    /**
     * Pulls at most `k` times, stopping at the first `None` (a consumer that
     * breaks off early): it yields the next `k` values, or all that remain,
     * and `cache[1]` is set only if a pull found the iterator exhausted.
     */
    method Take(k: nat) returns (out: seq<T>)
      requires Valid()
      modifies this, cache
      ensures Valid()
      ensures old(finished) ==> out == [] && unchanged(this, cache)
      ensures !old(finished) ==>
        && out == source[old(pulled)..if old(pulled) + k <= |source| then old(pulled) + k else |source|]
        && (finished <==> old(pulled) + k > |source|)
      ensures cache.values == old(cache.values) + out
    {
      out := [];
      var i := 0;
      while i < k
        invariant 0 <= i <= k && Valid()
        invariant old(finished) ==> out == [] && unchanged(this, cache)
        invariant !old(finished) && !finished ==> pulled == old(pulled) + i && out == source[old(pulled)..pulled]
        invariant !old(finished) && finished ==> old(pulled) + i > |source| && out == source[old(pulled)..]
        invariant cache.values == old(cache.values) + out
      {
        var r := Next();
        if r.None? {
          return;
        }
        out := out + [r.value];
        i := i + 1;
      }
    }
  }

  /**
   * A fresh cache `[[], False]` wrapped around an iterator over `source` and
   * drained twice: the first pass yields every value, after which `cache[0]`
   * equals the values in order and `cache[1]` is set; the second pass yields
   * nothing and leaves the cache as it was. An empty `source` still sets the flag.
   */
  method DrainTwice<T>(source: seq<T>) returns (first: seq<T>, second: seq<T>, values: seq<T>, complete: bool)
    ensures first == source && second == []
    ensures values == source && complete
  {
    var cache := new Cache<T>([], false);
    var gen := new CachingGenerator<T>(source, cache);
    first := gen.Drain();
    second := gen.Drain();
    values, complete := cache.values, cache.complete;
  }

  /**
   * A fresh cache wrapped around `source` and pulled `k` times, at most
   * once per value: `cache[0]` holds exactly the first `k` values and
   * `cache[1]` is still false, even when `k` reaches the last value, since
   * only the pull after the last value sets it.
   */
  method PullPrefix<T>(source: seq<T>, k: nat) returns (out: seq<T>, values: seq<T>, complete: bool)
    requires k <= |source|
    ensures out == source[..k] && values == source[..k]
    ensures !complete
  {
    var cache := new Cache<T>([], false);
    var gen := new CachingGenerator<T>(source, cache);
    out := gen.Take(k);
    values, complete := cache.values, cache.complete;
  }
}
