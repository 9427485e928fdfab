/** The access checker: reviews are remembered for a while. */
module AccessCache {
  datatype ResourceAttributes = ResourceAttributes(verb: string, group: string, resource: string)

  /** A remembered review. */
  datatype Entry = Entry(created: int, allowed: bool)

  /** How creating a review ends: with a verdict and a creation time, or with an error. */
  datatype Review = Reviewed(allowed: bool, created: int) | Failed

  /** Errors are treated as not allowed, and remembered from now on. */
  function Remembered(r: Review, now: int): Entry
  {
    match r
    case Reviewed(allowed, created) => Entry(created, allowed)
    case Failed => Entry(now, false)
  }

  /** The remembered value is recent enough. */
  predicate Fresh(cache: map<ResourceAttributes, Entry>, ttl: int, key: ResourceAttributes, now: int)
  {
    key in cache && cache[key].created + ttl > now
  }

  datatype Call = Call(key: ResourceAttributes, now: int, review: Review)

  predicate Asks(cache: map<ResourceAttributes, Entry>, ttl: int, call: Call)
  {
    !Fresh(cache, ttl, call.key, call.now)
  }

  function Answer(cache: map<ResourceAttributes, Entry>, ttl: int, call: Call): bool
  {
    if Asks(cache, ttl, call) then Remembered(call.review, call.now).allowed else cache[call.key].allowed
  }

  function After(cache: map<ResourceAttributes, Entry>, ttl: int, call: Call): map<ResourceAttributes, Entry>
  {
    if Asks(cache, ttl, call) then cache[call.key := Remembered(call.review, call.now)] else cache
  }

  class AccessChecker {
    const verb: string
    const ttl: int
    var cache: map<ResourceAttributes, Entry>

    constructor (verb: string, ttl: int)
      ensures this.verb == verb && this.ttl == ttl && cache == map[]
    {
      this.verb, this.ttl, this.cache := verb, ttl, map[];
    }

    /** A checker for another verb starts with an empty cache of its own. */
    method WithVerb(verb: string) returns (ac: AccessChecker)
      ensures fresh(ac) && ac.verb == verb && ac.ttl == ttl && ac.cache == map[]
    {
      ac := new AccessChecker(verb, ttl);
    }

    /** `review` is what a review created now would yield. */
    method CanI(group: string, resource: string, now: int, review: Review) returns (allowed: bool)
      modifies this`cache
      ensures var call := Call(ResourceAttributes(verb, group, resource), now, review);
        && cache == After(old(cache), ttl, call)
        && allowed == Answer(old(cache), ttl, call)
    {
      var key := ResourceAttributes(verb, group, resource);
      if key in cache {
        if cache[key].created + ttl > now {
          return cache[key].allowed;
        }
        cache := cache - {key};
      }
      var ssar := Remembered(review, now);
      cache := cache[key := ssar];
      allowed := ssar.allowed;
    }
  }

  /* ---- call histories ---- */

  /** The cache after a history of calls to a new checker. */
  function CacheAfter(ttl: int, calls: seq<Call>): map<ResourceAttributes, Entry>
  {
    if calls == [] then map[]
    else After(CacheAfter(ttl, calls[..|calls| - 1]), ttl, calls[|calls| - 1])
  }

  function AnswerTo(ttl: int, calls: seq<Call>, i: nat): bool
    requires i < |calls|
  {
    Answer(CacheAfter(ttl, calls[..i]), ttl, calls[i])
  }

  /** The `i`-th call creates a review. */
  predicate Asked(ttl: int, calls: seq<Call>, i: nat)
    requires i < |calls|
  {
    Asks(CacheAfter(ttl, calls[..i]), ttl, calls[i])
  }

  /** The verdict of a review, a failed one counting as a denial. */
  function Verdict(r: Review): bool
  {
    r.Reviewed? && r.allowed
  }

  /** Time does not run backwards, and a review bears the time at which it is made. */
  ghost predicate Timely(calls: seq<Call>)
  {
    && (forall i, k :: 0 <= i < k < |calls| ==> calls[i].now <= calls[k].now)
    && (forall i :: 0 <= i < |calls| && calls[i].review.Reviewed? ==> calls[i].review.created == calls[i].now)
  }

  /** The call whose review the cache holds for a key: the last one that asked. */
  ghost predicate Latest(ttl: int, calls: seq<Call>, key: ResourceAttributes, i: nat)
  {
    && i < |calls| && calls[i].key == key && Asked(ttl, calls, i)
    && forall k :: i < k < |calls| && calls[k].key == key ==> !Asked(ttl, calls, k)
  }

  lemma PrefixAsked(ttl: int, calls: seq<Call>, n: nat, i: nat)
    requires i < n <= |calls|
    ensures Asked(ttl, calls[..n], i) <==> Asked(ttl, calls, i)
  {
    assert calls[..n][..i] == calls[..i];
  }

  /** The cache holds, for each key ever asked about, exactly the latest review. */
  lemma {:induction false} CacheHoldsLatest(ttl: int, calls: seq<Call>, key: ResourceAttributes)
    ensures key !in CacheAfter(ttl, calls) ==> forall i :: 0 <= i < |calls| ==> calls[i].key != key
    ensures key in CacheAfter(ttl, calls) ==>
              exists i: nat ::
                Latest(ttl, calls, key, i) && CacheAfter(ttl, calls)[key] == Remembered(calls[i].review, calls[i].now)
    decreases |calls|
  {
    if calls != [] {
      var n := |calls| - 1;
      var before := calls[..n];
      var last := calls[n];
      CacheHoldsLatest(ttl, before, key);
      if last.key == key && Asked(ttl, calls, n) {
        assert Latest(ttl, calls, key, n);
      } else if key in CacheAfter(ttl, before) {
        var i: nat :| Latest(ttl, before, key, i)
                      && CacheAfter(ttl, before)[key] == Remembered(before[i].review, before[i].now);
        PrefixAsked(ttl, calls, n, i);
        forall k | i < k < |calls| && calls[k].key == key
          ensures !Asked(ttl, calls, k)
        {
          if k < n {
            PrefixAsked(ttl, calls, n, k);
            assert before[k] == calls[k];
          }
        }
        assert Latest(ttl, calls, key, i);
      }
    }
  }

  /** Each answer is the verdict of a review of the same key, made by this call or strictly less than ttl ago. */
  lemma AnswersAreRecent(ttl: int, calls: seq<Call>, i: nat)
    requires Timely(calls) && i < |calls|
    ensures exists k: nat ::
      && k <= i && calls[k].key == calls[i].key && Asked(ttl, calls, k)
      && AnswerTo(ttl, calls, i) == Verdict(calls[k].review)
      && (k == i || calls[i].now < calls[k].now + ttl)
  {
    if Asked(ttl, calls, i) {
      assert AnswerTo(ttl, calls, i) == Verdict(calls[i].review);
    } else {
      var before := calls[..i];
      CacheHoldsLatest(ttl, before, calls[i].key);
      var k: nat :| Latest(ttl, before, calls[i].key, k)
        && CacheAfter(ttl, before)[calls[i].key] == Remembered(before[k].review, before[k].now);
      PrefixAsked(ttl, calls, i, k);
      assert before[k] == calls[k];
    }
  }

  /** Two reviews of one key are at least ttl apart. */
  lemma ReviewsAreApart(ttl: int, calls: seq<Call>, i: nat, k: nat)
    requires Timely(calls) && i < k < |calls| && calls[i].key == calls[k].key
    requires Asked(ttl, calls, i) && Asked(ttl, calls, k)
    ensures calls[k].now >= calls[i].now + ttl
  {
    var before := calls[..k];
    CacheHoldsLatest(ttl, before, calls[k].key);
    assert before[i] == calls[i];
    var l: nat :| Latest(ttl, before, calls[k].key, l)
      && CacheAfter(ttl, before)[calls[k].key] == Remembered(before[l].review, before[l].now);
    PrefixAsked(ttl, calls, k, i);
    assert l >= i;
    assert before[l] == calls[l];
    assert l == i || calls[i].now <= calls[l].now;
  }
}
