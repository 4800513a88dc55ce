/**
 * The state shared by every call: the GET response cache, the table of
 * requests in flight and the loading indicator with its counter; and the
 * steps of a call that read and change it.
 */
module Dispatch {
  import opened Wrappers
  import opened JsValues
  import opened Errors
  import opened Urls
  import opened Requests
  import opened Responses
  import opened Loader

  /** The promise a call hands back, told apart by the number of the fetch that created it. */
  datatype Handle = Handle(id: nat)

  /**
   * An attempt under way: the prepared request, its resolved target, its
   * de-duplication key, its cache key (set only for a GET that takes part
   * in caching), the attempt number and the attempt's own handle.
   */
  datatype Pending = Pending(
    req: Request,
    target: string,
    key: string,
    cacheKey: Option<string>,
    attempt: nat,
    handle: Handle)

  /** What `ajax` returns synchronously. */
  datatype Dispatched =
    | Threw(message: string)
    | FromCache(value: Value)
    | Joined(handle: Handle)
    | Issued(pending: Pending)

  /** After one attempt settles: the next attempt was launched, or the call is over. */
  datatype Step = Retry(next: Pending) | Done(outcome: Settlement)

  /** The de-duplication key `METHOD::resolvedURL`. */
  function DedupeKey(verb: string, target: string): (k: string)
  {
    verb + "::" + target
  }

  /** The cache key is set only for a GET whose `cache` option is not `false`. */
  function CacheKeyFor(q: Request, target: string): (k: Option<string>)
  {
    if q.verb == "GET" && q.useCache then Some(target) else None
  }

  /** A successful attempt stores its body when the method is GET and a cache key was set. */
  predicate WritesCache(p: Pending)
  {
    p.req.verb == "GET" && p.cacheKey.Some?
  }

  /** A GET that takes part in caching finds a truthy entry under its target. */
  predicate CacheHit(q: Request, target: string, cache: map<string, Value>)
  {
    q.verb == "GET" && q.useCache && target in cache && Truthy(cache[target])
  }

  /**
   * What `ajax` hands back synchronously, given the cache, the in-flight
   * table and the number the next handle takes: a missing URL throws; a
   * cache hit is answered with the cached body; an identical call in
   * flight lends its handle; anything else starts attempt 0.
   */
  function Decision(options: Option<Options>, config: Config, origin: string,
                    cache: map<string, Value>, inflight: map<string, Handle>, next: nat): (d: Dispatched)
    ensures d.Threw? <==> Prepared(options, config).Failure?
    ensures d.Threw? ==> d.message == UrlRequired
    ensures !d.Threw? ==>
      var q := Prepared(options, config).value;
      var target := ResolveURL(origin, q.url);
      var key := DedupeKey(q.verb, target);
      && (d.FromCache? <==> CacheHit(q, target, cache))
      && (d.FromCache? ==> d.value == cache[target] && Truthy(d.value))
      && (d.Joined? <==> !CacheHit(q, target, cache) && key in inflight)
      && (d.Joined? ==> d.handle == inflight[key])
      && (d.Issued? ==> d.pending == Pending(q, target, key, CacheKeyFor(q, target), 0, Handle(next)))
  {
    match Prepared(options, config)
    case Failure(msg) => Threw(msg)
    case Success(q) =>
      var target := ResolveURL(origin, q.url);
      var key := DedupeKey(q.verb, target);
      if CacheHit(q, target, cache) then FromCache(cache[target])
      else if key in inflight then Joined(inflight[key])
      else Issued(Pending(q, target, key, CacheKeyFor(q, target), 0, Handle(next)))
  }

  class Dispatcher {
    /** Response bodies of successful GETs, by resolved URL. */
    var cache: map<string, Value>
    /** The handle of the latest attempt of each call in flight, by de-duplication key. */
    var inflight: map<string, Handle>
    /** The number of loader-participating attempts not yet finished. */
    var active: int
    /** Whether the loading indicator is displayed. */
    var visible: bool
    /** The number of network calls issued so far; the next handle takes this number. */
    var fetches: nat

    ghost predicate Valid()
      reads this
    {
      && active >= 0
      && (visible <==> active > 0)
      && (forall k :: k in inflight ==> inflight[k].id < fetches)
    }

    constructor ()
      ensures Valid()
      ensures cache == map[] && inflight == map[] && active == 0 && !visible && fetches == 0
    {
      cache := map[];
      inflight := map[];
      active := 0;
      visible := false;
      fetches := 0;
    }

    /** showLoader: count one more active request and display the indicator. */
    method ShowLoader()
      requires Valid()
      modifies this`active, this`visible
      ensures Valid()
      ensures active == old(active) + 1 && visible
    {
      active := active + 1;
      visible := true;
    }

    /** hideLoader: count one fewer; at zero or below, reset the count to zero and hide the indicator. */
    method HideLoader()
      requires Valid()
      modifies this`active, this`visible
      ensures Valid()
      ensures active == AfterHide(old(active))
      ensures old(active) - 1 <= 0 ==> !visible
      ensures old(active) - 1 > 0 ==> visible == old(visible)
    {
      active := active - 1;
      if active <= 0 {
        visible := false;
        active := 0;
      }
    }

    /**
     * The synchronous part of makeFetch for attempt number `attempt`: show
     * the loader when the call uses it, start the network call and register
     * the new handle under the de-duplication key, replacing any earlier one.
     */
    method Launch(req: Request, target: string, key: string, cacheKey: Option<string>, attempt: nat)
      returns (p: Pending)
      requires Valid()
      modifies this`active, this`visible, this`inflight, this`fetches
      ensures Valid()
      ensures p == Pending(req, target, key, cacheKey, attempt, Handle(old(fetches)))
      ensures p.handle !in old(inflight).Values
      ensures inflight == old(inflight)[key := p.handle]
      ensures fetches == old(fetches) + 1
      ensures active == if req.useLoader then old(active) + 1 else old(active)
      ensures visible == (req.useLoader || old(visible))
    {
      if req.useLoader {
        ShowLoader();
      }
      p := Pending(req, target, key, cacheKey, attempt, Handle(fetches));
      fetches := fetches + 1;
      inflight := inflight[key := p.handle];
    }

    /**
     * The synchronous part of `ajax`: read the options (a missing URL
     * throws before anything is touched), answer a GET from a truthy cache
     * entry, hand back the handle of an identical call in flight, or else
     * launch attempt 0.
     */
    method Dispatch(options: Option<Options>, config: Config, origin: string) returns (d: Dispatched)
      requires Valid()
      modifies this
      ensures Valid()
      ensures d == Decision(options, config, origin, old(cache), old(inflight), old(fetches))
      ensures !d.Issued? ==> unchanged(this)
      ensures d.Issued? ==>
        && cache == old(cache)
        && inflight == old(inflight)[d.pending.key := d.pending.handle]
        && fetches == old(fetches) + 1
        && active == (if d.pending.req.useLoader then old(active) + 1 else old(active))
        && visible == (d.pending.req.useLoader || old(visible))
    {
      var r := Prepare(options, config);
      if r.Failure? {
        return Threw(r.error);
      }
      var q := r.value;
      var cacheKey: Option<string> := None;
      if q.verb == "GET" && q.useCache {
        cacheKey := Some(ResolveURL(origin, q.url));
        if cacheKey.value in cache && Truthy(cache[cacheKey.value]) {
          return FromCache(cache[cacheKey.value]);
        }
      }
      var key := DedupeKey(q.verb, ResolveURL(origin, q.url));
      if key in inflight {
        return Joined(inflight[key]);
      }
      var p := Launch(q, ResolveURL(origin, q.url), key, cacheKey, 0);
      return Issued(p);
    }

    /**
     * The `finally` handlers of attempts `p.attempt` down to 0, which run
     * once the last attempt has settled: each hides the loader when the call
     * uses it and deletes the de-duplication key.
     */
    method Unwind(p: Pending)
      requires Valid()
      modifies this`active, this`visible, this`inflight
      ensures Valid()
      ensures inflight == old(inflight) - {p.key}
      ensures active == if p.req.useLoader then AfterHides(old(active), p.attempt + 1) else old(active)
      ensures !p.req.useLoader ==> visible == old(visible)
    {
      var i := 0;
      while i <= p.attempt
        invariant 0 <= i <= p.attempt + 1
        invariant Valid()
        invariant inflight == if i == 0 then old(inflight) else old(inflight) - {p.key}
        invariant active == if p.req.useLoader then AfterHides(old(active), i) else old(active)
        invariant !p.req.useLoader ==> visible == old(visible)
      {
        if p.req.useLoader {
          HideLoader();
        }
        inflight := inflight - {p.key};
        i := i + 1;
      }
    }

    /**
     * Attempt `p` settles with `outcome`. A success stores a GET body in
     * the cache; a failure with budget left launches the next attempt (the
     * retry delay elapses in between); any other failure is normalised.
     * When the call is over, the `finally` handlers of all its attempts run.
     */
    method Settle(p: Pending, outcome: Attempt) returns (s: Step)
      requires Valid()
      modifies this
      ensures Valid()
      ensures match Classify(outcome)
        case Success(v) =>
          && s == Done(Resolved(v))
          && cache == (if WritesCache(p) then old(cache)[p.cacheKey.value := v] else old(cache))
        case Failure(e) =>
          && cache == old(cache)
          && (p.attempt < p.req.retries ==>
                s == Retry(p.(attempt := p.attempt + 1, handle := Handle(old(fetches)))))
          && (p.attempt >= p.req.retries ==> s == Done(Rejected(Normalize(e))))
      ensures s.Retry? ==>
        && inflight == old(inflight)[p.key := s.next.handle]
        && fetches == old(fetches) + 1
        && active == (if p.req.useLoader then old(active) + 1 else old(active))
      ensures s.Done? ==>
        && inflight == old(inflight) - {p.key}
        && fetches == old(fetches)
        && active == (if p.req.useLoader then AfterHides(old(active), p.attempt + 1) else old(active))
    {
      match Classify(outcome)
      case Success(v) =>
        if WritesCache(p) {
          cache := cache[p.cacheKey.value := v];
        }
        Unwind(p);
        s := Done(Resolved(v));
      case Failure(e) =>
        var normalized := Normalize(e);
        if p.attempt < p.req.retries {
          var next := Launch(p.req, p.target, p.key, p.cacheKey, p.attempt + 1);
          s := Retry(next);
        } else {
          Unwind(p);
          s := Done(Rejected(normalized));
        }
    }

    /**
     * The attempts of a call from `p` on, each settling with the outcome
     * `transport` gives for its number, until one ends the call. The result
     * is the one the attempt chain `Conclude` describes; the key leaves the
     * in-flight table and every attempt's loader increment is undone.
     */
    method Run(p: Pending, transport: nat -> Attempt) returns (s: Settlement)
      requires Valid()
      modifies this
      ensures Valid()
      ensures var c := Conclude(transport, p.req.retries, p.attempt);
        && s == c.settlement
        && inflight == old(inflight) - {p.key}
        && fetches == old(fetches) + (c.last - p.attempt)
        && active == (if p.req.useLoader then AfterHides(old(active) + (c.last - p.attempt), c.last + 1)
                      else old(active))
        && (p.req.useLoader && old(active) > p.attempt ==> active == old(active) - p.attempt - 1)
        && cache == (if s.Resolved? && WritesCache(p) then old(cache)[p.cacheKey.value := s.value]
                     else old(cache))
    {
      var cur := p;
      while true
        invariant Valid()
        invariant cur == p.(attempt := cur.attempt, handle := cur.handle)
        invariant p.attempt <= cur.attempt
        invariant Conclude(transport, p.req.retries, cur.attempt) == Conclude(transport, p.req.retries, p.attempt)
        invariant cache == old(cache)
        invariant fetches == old(fetches) + (cur.attempt - p.attempt)
        invariant inflight == if cur.attempt == p.attempt then old(inflight) else old(inflight)[p.key := cur.handle]
        invariant active == if p.req.useLoader then old(active) + (cur.attempt - p.attempt) else old(active)
        decreases if cur.attempt < p.req.retries then p.req.retries - cur.attempt else 0
      {
        var step := Settle(cur, transport(cur.attempt));
        if step.Done? {
          assert old(inflight)[p.key := cur.handle] - {p.key} == old(inflight) - {p.key};
          if p.req.useLoader && old(active) > p.attempt {
            HidesUndoShows(old(active) - p.attempt - 1, cur.attempt + 1);
          }
          return step.outcome;
        }
        cur := step.next;
      }
    }

    /**
     * A call of `ajax` that runs to its end with no other call in between.
     * When it was issued, it settles as `Conclude` says after
     * max(retries, 0) + 1 attempts at most, and leaves the in-flight table,
     * the counter and the indicator as it found them.
     */
    method Ajax(options: Option<Options>, config: Config, origin: string, transport: nat -> Attempt)
      returns (d: Dispatched, s: Option<Settlement>)
      requires Valid()
      modifies this
      ensures Valid()
      ensures d == Decision(options, config, origin, old(cache), old(inflight), old(fetches))
      ensures !d.Issued? ==> s.None? && unchanged(this)
      ensures d.Issued? ==>
        var p := d.pending;
        var c := Conclude(transport, p.req.retries, 0);
        && s == Some(c.settlement)
        && inflight == old(inflight)
        && fetches == old(fetches) + c.last + 1
        && active == old(active) && visible == old(visible)
        && cache == (if c.settlement.Resolved? && p.req.verb == "GET" && p.req.useCache
                     then old(cache)[p.target := c.settlement.value] else old(cache))
    {
      d := Dispatch(options, config, origin);
      s := None;
      if d.Issued? {
        var settled := Run(d.pending, transport);
        s := Some(settled);
        assert old(inflight)[d.pending.key := d.pending.handle] - {d.pending.key} == old(inflight);
      }
    }
  }

  /**
   * Two identical calls issued before the first settles share one network
   * call: the second gets the first one's handle.
   */
  method SameCallTwice(options: Options, config: Config, origin: string)
    returns (first: Dispatched, second: Dispatched, calls: nat)
    requires Prepared(Some(options), config).Success?
    ensures first.Issued? && second == Joined(first.pending.handle)
    ensures calls == 1
  {
    var d := new Dispatcher();
    first := d.Dispatch(Some(options), config, origin);
    second := d.Dispatch(Some(options), config, origin);
    calls := d.fetches;
  }

  /**
   * A cached GET that resolved with a truthy body is answered from the
   * cache by the next identical call, with no further network call; a
   * falsy body (an empty text, a 0) or a rejection leaves the next call to
   * go to the network again.
   */
  method SameGetAfterSettling(options: Options, config: Config, origin: string, transport: nat -> Attempt)
    returns (first: Option<Settlement>, second: Dispatched, callsBefore: nat, callsAfter: nat)
    requires Prepared(Some(options), config).Success?
    requires Prepared(Some(options), config).value.verb == "GET"
    requires Prepared(Some(options), config).value.useCache
    ensures first.Some?
    ensures first.value.Resolved? && Truthy(first.value.value) ==>
      second == FromCache(first.value.value) && callsAfter == callsBefore
    ensures !(first.value.Resolved? && Truthy(first.value.value)) ==>
      second.Issued? && callsAfter == callsBefore + 1
  {
    var d := new Dispatcher();
    var issued;
    issued, first := d.Ajax(Some(options), config, origin, transport);
    callsBefore := d.fetches;
    second := d.Dispatch(Some(options), config, origin);
    callsAfter := d.fetches;
  }

  /**
   * Two calls started before either settles, each with its own attempts:
   * once both are over the counter is back to zero and the indicator hidden.
   */
  method OverlappingCalls(a: Options, b: Options, config: Config, origin: string,
                          ta: nat -> Attempt, tb: nat -> Attempt)
    returns (count: int, shown: bool)
    ensures count == 0 && !shown
  {
    var d := new Dispatcher();
    var da := d.Dispatch(Some(a), config, origin);
    var db := d.Dispatch(Some(b), config, origin);
    if da.Issued? {
      var sa := d.Run(da.pending, ta);
    }
    if db.Issued? {
      var sb := d.Run(db.pending, tb);
    }
    count, shown := d.active, d.visible;
  }
}
