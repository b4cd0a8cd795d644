/**
 * The worker's admission control: an in-memory map from the caller's address
 * to the number of requests admitted in the current window, consulted before
 * the domain check runs. The window timer is the explicit `Expire` step.
 */
module Worker {

  import opened Wrappers
  import opened JsString
  import DomainCheck

  /** At most this many admitted requests per key and window. */
  const LIMIT: nat := 3

  const RateLimitMessage := "Failed to check domain please wait 30 minutes"

  type Counts = map<string, nat>

  datatype Outcome = Admitted | Rejected

  /** A request from a derived key, or the window timer of a key firing. */
  datatype Event = Request(key: string) | TimerFired(key: string)

  /**
   * `headers.get("CF-Connecting-IP") || "unknown"`: the header value, with an
   * absent or (falsy) empty header falling back to the shared "unknown" bucket.
   */
  function SourceKey(header: Option<string>): (key: string)
    ensures key != ""
    ensures key == "unknown" || (header.Some? && key == header.value)
    ensures header.Some? && header.value != "" ==> key == header.value
  {
    if header.Some? && header.value != "" then header.value else "unknown"
  }

  /** The count of a key, 0 when it has no entry. */
  function CountOf(m: Counts, key: string): nat
  {
    if key in m then m[key] else 0
  }

  /** No entry has been admitted more than `LIMIT` times. */
  predicate Bounded(m: Counts)
  {
    forall k :: k in m ==> m[k] <= LIMIT
  }

  /**
   * One pass through the middleware for `key`: create a zero entry when there
   * is none, reject when the count has reached the limit, else increment.
   */
  function Transition(m: Counts, key: string): (res: (Outcome, Counts))
    ensures res.0 == Admitted <==> CountOf(m, key) < LIMIT
    ensures res.0 == Admitted ==> res.1 == m[key := CountOf(m, key) + 1]
    ensures res.0 == Rejected ==> res.1 == m
  {
    var created := if key in m then m else m[key := 0];
    if created[key] >= LIMIT then (Rejected, created)
    else (Admitted, created[key := created[key] + 1])
  }

  /** The window timer of `key` fires: its entry is deleted. */
  function Expired(m: Counts, key: string): (m': Counts)
    ensures key !in m'
    ensures forall k :: k != key ==> (k in m' <==> k in m)
    ensures forall k :: k in m' ==> m'[k] == m[k]
  {
    m - {key}
  }

  // ---------------------------------------------------------------------
  // One request, one timer event
  // ---------------------------------------------------------------------

  /** A request for a key with no entry is admitted and leaves count 1. */
  lemma FirstRequestAdmitted(m: Counts, key: string)
    requires key !in m
    ensures Transition(m, key) == (Admitted, m[key := 1])
  {
  }

  /** Admission adds exactly one to that key and keeps every count within the limit. */
  lemma TransitionPreservesBounded(m: Counts, key: string)
    requires Bounded(m)
    ensures Bounded(Transition(m, key).1)
    ensures Transition(m, key).0 == Admitted ==> CountOf(Transition(m, key).1, key) == CountOf(m, key) + 1
  {
  }

  /** A request never touches another key's entry. */
  lemma TransitionFrame(m: Counts, key: string, other: string)
    requires other != key
    ensures var m' := Transition(m, key).1; (other in m' <==> other in m) && CountOf(m', other) == CountOf(m, other)
  {
  }

  /** After expiry the next request for that key is admitted with count 1. */
  lemma ExpiryResets(m: Counts, key: string)
    ensures Transition(Expired(m, key), key) == (Admitted, Expired(m, key)[key := 1])
    ensures CountOf(Transition(Expired(m, key), key).1, key) == 1
  {
  }

  // ---------------------------------------------------------------------
  // Traces
  // ---------------------------------------------------------------------

  function Step(m: Counts, e: Event): Counts
  {
    match e
    case Request(k) => Transition(m, k).1
    case TimerFired(k) => Expired(m, k)
  }

  /** The map after a sequence of events. */
  function Final(m: Counts, es: seq<Event>): Counts
    decreases |es|
  {
    if es == [] then m else Final(Step(m, es[0]), es[1..])
  }

  /** How many of the requests for `key` in `es` are admitted. */
  function Admissions(m: Counts, es: seq<Event>, key: string): nat
    decreases |es|
  {
    if es == [] then 0
    else
      (if es[0] == Request(key) && Transition(m, key).0 == Admitted then 1 else 0)
      + Admissions(Step(m, es[0]), es[1..], key)
  }

  /** No timer of `key` fires during `es`: one window. */
  predicate NoExpiry(es: seq<Event>, key: string)
  {
    forall i :: 0 <= i < |es| ==> es[i] != TimerFired(key)
  }

  /** `n` requests for the same key in a row. */
  function Requests(key: string, n: nat): (es: seq<Event>)
    ensures |es| == n && forall i :: 0 <= i < n ==> es[i] == Request(key)
  {
    seq(n, _ => Request(key))
  }

  lemma StepPreservesBounded(m: Counts, e: Event)
    requires Bounded(m)
    ensures Bounded(Step(m, e))
  {
    if e.Request? { TransitionPreservesBounded(m, e.key); }
  }

  /**
   * Within one window a key's count grows by exactly its admissions, so it is
   * admitted at most `LIMIT` times, less what it had already used.
   */
  lemma {:induction false} AtMostLimitPerWindow(m: Counts, es: seq<Event>, key: string)
    requires Bounded(m)
    requires NoExpiry(es, key)
    ensures CountOf(Final(m, es), key) == CountOf(m, key) + Admissions(m, es, key)
    ensures Admissions(m, es, key) <= LIMIT - CountOf(m, key)
    ensures Bounded(Final(m, es))
    decreases |es|
  {
    if es != [] {
      var m1 := Step(m, es[0]);
      StepPreservesBounded(m, es[0]);
      match es[0] {
        case Request(k) =>
          if k != key { TransitionFrame(m, k, key); }
          else { TransitionPreservesBounded(m, key); }
        case TimerFired(k) =>
          assert k != key by { assert es[0] != TimerFired(key); }
      }
      assert NoExpiry(es[1..], key) by {
        forall i | 0 <= i < |es[1..]| ensures es[1..][i] != TimerFired(key) { assert es[1..][i] == es[i + 1]; }
      }
      AtMostLimitPerWindow(m1, es[1..], key);
    }
  }

  /**
   * `n` requests in a row for one key admit exactly as many as its remaining
   * quota allows; from a fresh key that is `min(n, LIMIT)`.
   */
  lemma {:induction false} RequestsAdmitted(m: Counts, key: string, n: nat)
    requires Bounded(m)
    ensures Admissions(m, Requests(key, n), key) == if n <= LIMIT - CountOf(m, key) then n else LIMIT - CountOf(m, key)
    decreases n
  {
    if n > 0 {
      var es := Requests(key, n);
      assert es[0] == Request(key);
      assert es[1..] == Requests(key, n - 1);
      TransitionPreservesBounded(m, key);
      RequestsAdmitted(Step(m, es[0]), key, n - 1);
    }
  }

  /** From a fresh key, three requests are admitted and the fourth is rejected. */
  lemma FourthRequestRejected(m: Counts, key: string)
    requires Bounded(m)
    requires key !in m
    ensures Admissions(m, Requests(key, LIMIT), key) == LIMIT
    ensures Transition(Final(m, Requests(key, LIMIT)), key) == (Rejected, Final(m, Requests(key, LIMIT)))
  {
    RequestsAdmitted(m, key, LIMIT);
    AtMostLimitPerWindow(m, Requests(key, LIMIT), key);
  }

  // ---------------------------------------------------------------------
  // The route: middleware, then handler
  // ---------------------------------------------------------------------

  /**
   * `POST /api/check-domain`: the rate limiter runs first, and only an admitted
   * request reaches the domain check.
   */
  function Serve(m: Counts, header: Option<string>, domain: JsValue, resolve: DomainCheck.Resolver)
    : (res: (DomainCheck.HttpResponse, Counts))
    ensures var key := SourceKey(header);
            Transition(m, key).0 == Rejected ==>
              res == (DomainCheck.HttpResponse(429, DomainCheck.ErrorBody(RateLimitMessage)), m)
    ensures var key := SourceKey(header);
            Transition(m, key).0 == Admitted ==>
              res == (DomainCheck.CheckDomain(resolve, domain), m[key := CountOf(m, key) + 1])
  {
    var (outcome, m') := Transition(m, SourceKey(header));
    if outcome == Rejected then
      (DomainCheck.HttpResponse(429, DomainCheck.ErrorBody(RateLimitMessage)), m')
    else
      (DomainCheck.CheckDomain(resolve, domain), m')
  }

  /**
   * Quota is consumed before the domain is validated: an admitted request with an
   * invalid domain is answered with 400 and still counts.
   */
  lemma InvalidDomainStillCounts(m: Counts, header: Option<string>, domain: JsValue, resolve: DomainCheck.Resolver)
    requires CountOf(m, SourceKey(header)) < LIMIT
    requires !DomainCheck.ValidDomain(domain)
    ensures Serve(m, header, domain, resolve).0 == DomainCheck.HttpResponse(400, DomainCheck.ErrorBody("Invalid domain"))
    ensures CountOf(Serve(m, header, domain, resolve).1, SourceKey(header)) == CountOf(m, SourceKey(header)) + 1
  {
  }

  // ---------------------------------------------------------------------
  // The process-wide map, updated in place
  // ---------------------------------------------------------------------

  class RateLimiter {

    /** `ipRequestCounts`: the count of each key that has an entry. */
    var counts: Counts

    ghost predicate Valid()
      reads this
    {
      Bounded(counts)
    }

    constructor ()
      ensures Valid() && counts == map[]
    {
      counts := map[];
    }

    /** `rateLimitMiddleware` up to `next()`. */
    method Admit(header: Option<string>) returns (outcome: Outcome)
      requires Valid()
      modifies this
      ensures Valid()
      ensures (outcome, counts) == Transition(old(counts), SourceKey(header))
    {
      var key := SourceKey(header);
      if key !in counts {
        counts := counts[key := 0];
      }
      if counts[key] >= LIMIT {
        return Rejected;
      }
      counts := counts[key := counts[key] + 1];
      outcome := Admitted;
      TransitionPreservesBounded(old(counts), key);
    }

    /** The entry's window timer fires. */
    method Expire(key: string)
      requires Valid()
      modifies this
      ensures Valid()
      ensures counts == Expired(old(counts), key)
    {
      counts := counts - {key};
    }

    /** A whole request to the check-domain route. */
    method HandleCheckDomain(header: Option<string>, domain: JsValue, resolve: DomainCheck.Resolver)
      returns (resp: DomainCheck.HttpResponse)
      requires Valid()
      modifies this
      ensures Valid()
      ensures (resp, counts) == Serve(old(counts), header, domain, resolve)
    {
      var outcome := Admit(header);
      if outcome == Rejected {
        resp := DomainCheck.HttpResponse(429, DomainCheck.ErrorBody(RateLimitMessage));
      } else {
        resp := DomainCheck.CheckDomain(resolve, domain);
      }
    }
  }
}
