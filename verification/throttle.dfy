/** The per-user rate limiter that every update passes through. Time stamps
    are seconds as reals. */
module Throttle {
  import opened Wrappers

  /** What the limiter remembers about one user. */
  datatype Record = Record(last: real, count: int, windowStart: real)

  /** The record a user gets on first sight. */
  const FreshRecord: Record := Record(0.0, 0, 0.0)

  /** Minimum gap between requests, requests per window, window length. */
  datatype Limits = Limits(rateLimit: real, maxRequests: int, window: int)

  const DefaultLimits: Limits := Limits(0.5, 30, 60)

  type Cache = map<int, Record>

  /** An incoming update: a message (whose sender may be missing), a
      callback press, or anything else. */
  datatype Event = MessageEvent(sender: Option<int>) | CallbackEvent(from: int) | OtherEvent

  function UserIdOf(e: Event): (r: Option<int>)
    ensures r.Some? <==> (e.MessageEvent? && e.sender.Some?) || e.CallbackEvent?
    ensures e.CallbackEvent? ==> r == Some(e.from)
    ensures e.MessageEvent? ==> r == e.sender
  {
    match e
    case MessageEvent(s) => s
    case CallbackEvent(u) => Some(u)
    case OtherEvent => None
  }

  datatype Verdict = Pass | TooFast | MaxRequests

  /** One request against one user's record. The window is restarted before
      the count is checked, so a request refused for the count still leaves
      the restarted window behind. */
  function Step(rec: Record, limits: Limits, now: real): (r: (Record, Verdict))
    ensures r.1 == TooFast <==> now - rec.last < limits.rateLimit
    ensures r.1 == TooFast ==> r.0 == rec
    ensures r.1 != TooFast && now - rec.windowStart > limits.window as real ==>
      r.0.windowStart == now && r.1 == (if 0 >= limits.maxRequests then MaxRequests else Pass)
    ensures r.1 != TooFast && now - rec.windowStart <= limits.window as real ==>
      r.0.windowStart == rec.windowStart && r.1 == (if rec.count >= limits.maxRequests then MaxRequests else Pass)
    ensures r.1 == Pass ==> r.0.last == now && r.0.count <= limits.maxRequests
    ensures r.1 == Pass ==>
      r.0.count == (if now - rec.windowStart > limits.window as real then 1 else rec.count + 1)
    ensures r.1 == MaxRequests ==> r.0.count >= limits.maxRequests
    ensures r.1 == MaxRequests ==>
      r.0 == (if now - rec.windowStart > limits.window as real then rec.(windowStart := now, count := 0) else rec)
  {
    if now - rec.last < limits.rateLimit then (rec, TooFast)
    else
      var current := if now - rec.windowStart > limits.window as real then rec.(windowStart := now, count := 0) else rec;
      if current.count >= limits.maxRequests then (current, MaxRequests)
      else (current.(last := now, count := current.count + 1), Pass)
  }

  /** The reply a refused callback gets; refused messages are ignored. */
  datatype Reply = NoReply | Toast(text: string) | Alert(text: string)

  function OnThrottled(e: Event, reason: Verdict): (r: Reply)
    requires reason != Pass
    ensures r != NoReply <==> e.CallbackEvent?
    ensures r.Alert? <==> e.CallbackEvent? && reason == MaxRequests
  {
    if !e.CallbackEvent? then NoReply
    else match reason
      case TooFast => Toast("Подожди немного...")
      case MaxRequests => Alert("Слишком много запросов. Попробуй позже.")
  }

  /** No user's count ever exceeds the per-window maximum. */
  ghost predicate CountsBounded(cache: Cache, limits: Limits) {
    forall u :: u in cache ==> 0 <= cache[u].count <= limits.maxRequests
  }

  /** One call of the middleware: events without a user pass untouched; a
      user not seen before gets a fresh record even when refused. */
  function Call(cache: Cache, limits: Limits, e: Event, now: real): (r: (Cache, Verdict))
    ensures UserIdOf(e).None? ==> r == (cache, Pass)
    ensures UserIdOf(e).Some? ==>
      var u := UserIdOf(e).value;
      var rec := if u in cache then cache[u] else FreshRecord;
      r == (cache[u := Step(rec, limits, now).0], Step(rec, limits, now).1)
    ensures forall v :: v in cache && Some(v) != UserIdOf(e) ==> v in r.0 && r.0[v] == cache[v]
    ensures r.0.Keys == cache.Keys + (if UserIdOf(e).Some? then {UserIdOf(e).value} else {})
    ensures limits.maxRequests >= 0 && CountsBounded(cache, limits) ==> CountsBounded(r.0, limits)
  {
    match UserIdOf(e)
    case None => (cache, Pass)
    case Some(u) =>
      var rec := if u in cache then cache[u] else FreshRecord;
      var (next, verdict) := Step(rec, limits, now);
      (cache[u := next], verdict)
  }

  /** A run of requests by one user, counting those let through. */
  function Run(rec: Record, limits: Limits, times: seq<real>): (r: (Record, nat))
    ensures r.1 <= |times|
    decreases |times|
  {
    if |times| == 0 then (rec, 0)
    else
      var (next, verdict) := Step(rec, limits, times[0]);
      var (last, passed) := Run(next, limits, times[1..]);
      (last, passed + (if verdict == Pass then 1 else 0))
  }

  /** Within one window at most `maxRequests` requests pass, counting those
      already in it. */
  lemma {:induction false} AtMostMaxPerWindow(rec: Record, limits: Limits, times: seq<real>)
    requires 0 <= rec.count <= limits.maxRequests
    requires forall k :: 0 <= k < |times| ==> times[k] - rec.windowStart <= limits.window as real
    ensures Run(rec, limits, times).1 <= limits.maxRequests - rec.count
    ensures Run(rec, limits, times).0.windowStart == rec.windowStart
    decreases |times|
  {
    if |times| > 0 {
      var (next, verdict) := Step(rec, limits, times[0]);
      assert next.windowStart == rec.windowStart;
      assert forall k :: 0 <= k < |times[1..]| ==> times[1..][k] == times[k + 1];
      AtMostMaxPerWindow(next, limits, times[1..]);
      assert next.count == rec.count + (if verdict == Pass then 1 else 0);
    }
  }

  /** Requests that pass are at least `rateLimit` apart. */
  lemma PassesAreSpaced(rec: Record, limits: Limits, t1: real, t2: real)
    requires Step(rec, limits, t1).1 == Pass
    requires Step(Step(rec, limits, t1).0, limits, t2).1 != TooFast
    ensures t2 - t1 >= limits.rateLimit
  {
  }
}
