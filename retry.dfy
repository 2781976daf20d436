/** The retry loop shared by `fetch_data` and `fetch_product_details`:
    `for attempt in range(1, max_retries + 1)`, one `requests.get` per
    attempt, a linearly scaled sleep after every transient failure but the
    last, and `None` once the attempts are used up.

    The network is a script: the outcome of every `requests.get` the scraper
    makes, in order, shared by page and detail requests. A script that has
    run out stands for a network that only times out. The random backoff
    and the clock are not modelled; each sleep is recorded with the attempt
    number that scales it. */
module Retry {
  import opened Json

  /** What one `requests.get` + `raise_for_status` + `.json()` comes to:
      a decoded body, an HTTPError or Timeout (the two exceptions the loop
      catches), or any other exception. */
  datatype Attempt = Success(body: Json) | Transient | Failure

  datatype Request = Page(number: int) | Detail(itemId: Json)

  /** What the scraper does to the outside world, in order. */
  datatype Event = Requested(req: Request) | Slept(multiplier: nat)

  function AttemptAt(script: seq<Attempt>, i: nat): Attempt {
    if i < |script| then script[i] else Transient
  }

  /** The script after `k` requests. */
  function Drop(script: seq<Attempt>, k: nat): (rest: seq<Attempt>)
    ensures |rest| == if k <= |script| then |script| - k else 0
    ensures forall i :: AttemptAt(rest, i) == AttemptAt(script, k + i)
  {
    if k <= |script| then script[k..] else []
  }

  /** How a run of the loop ends and how many requests it made. */
  datatype Run = Run(result: Py<Option<Json>>, attempts: nat)

  /** The loop entered at attempt `n`, with `script` holding the outcomes
      from that attempt on. */
  function RetryFrom(script: seq<Attempt>, maxRetries: int, n: nat): (run: Run)
    requires 1 <= n
    ensures n <= maxRetries ==> 1 <= run.attempts <= maxRetries - n + 1
    ensures n > maxRetries ==> run == Run(Ok(None), 0)
    // a run that ends otherwise than with `None` ended on a scripted outcome
    ensures run.result != Ok(None) ==> 1 <= run.attempts <= |script|
    ensures run.result.Raise? ==> run.result.exc == RequestError
    decreases maxRetries - n
  {
    if n > maxRetries then Run(Ok(None), 0)
    else
      match AttemptAt(script, 0)
      case Success(body) => Run(Ok(Some(body)), 1)
      case Failure => Run(Raise(RequestError), 1)
      case Transient =>
        if n < maxRetries then
          var later := RetryFrom(Drop(script, 1), maxRetries, n + 1);
          Run(later.result, later.attempts + 1)
        else Run(Ok(None), 1)
  }

  /** The whole loop: `range(1, max_retries + 1)` is empty when
      `max_retries < 1`, and the function then falls off its end. */
  function Retry(script: seq<Attempt>, maxRetries: int): (run: Run)
    ensures maxRetries < 1 ==> run == Run(Ok(None), 0)
    ensures maxRetries >= 1 ==> 1 <= run.attempts <= maxRetries
    ensures run.result != Ok(None) ==> 1 <= run.attempts <= |script|
    ensures run.result.Raise? ==> run.result.exc == RequestError
  {
    RetryFrom(script, maxRetries, 1)
  }

  /** What the loop does before attempt `n`: each earlier attempt's request,
      followed by the sleep it caused. */
  function BeforeAttempt(req: Request, n: nat): seq<Event> {
    if n <= 1 then [] else BeforeAttempt(req, n - 1) + [Requested(req), Slept(n - 1)]
  }

  /** The events of a run that made `attempts` requests. */
  function RetryTrace(req: Request, attempts: nat): seq<Event> {
    if attempts == 0 then [] else BeforeAttempt(req, attempts) + [Requested(req)]
  }

  /** The request made with each attempt, and the sleep multipliers, in
      order. */
  function Requests(trace: seq<Event>): seq<Request> {
    if trace == [] then []
    else (if trace[0].Requested? then [trace[0].req] else []) + Requests(trace[1..])
  }

  function Sleeps(trace: seq<Event>): seq<nat> {
    if trace == [] then []
    else (if trace[0].Slept? then [trace[0].multiplier] else []) + Sleeps(trace[1..])
  }

  /** `[lo, lo + 1, ..., hi - 1]`. */
  function Range(lo: nat, hi: nat): (r: seq<nat>)
    ensures |r| == if lo <= hi then hi - lo else 0
    ensures forall i :: 0 <= i < |r| ==> r[i] == lo + i
    decreases hi - lo
  {
    if lo >= hi then [] else [lo] + Range(lo + 1, hi)
  }

  /** The loop itself: the request is made, its outcome taken from the
      script, and the events recorded. */
  method FetchWithRetry(maxRetries: int, script: seq<Attempt>, req: Request)
    returns (result: Py<Option<Json>>, rest: seq<Attempt>, trace: seq<Event>)
    ensures var run := Retry(script, maxRetries);
      && result == run.result
      && rest == Drop(script, run.attempts)
      && trace == RetryTrace(req, run.attempts)
  {
    rest := script;
    trace := [];
    var attempt := 1;
    while attempt <= maxRetries
      invariant 1 <= attempt
      invariant maxRetries >= 1 ==> attempt <= maxRetries
      invariant rest == Drop(script, attempt - 1)
      invariant trace == BeforeAttempt(req, attempt)
      invariant var run := RetryFrom(rest, maxRetries, attempt);
        Retry(script, maxRetries) == Run(run.result, run.attempts + attempt - 1)
      decreases maxRetries - attempt
    {
      var outcome := AttemptAt(rest, 0);
      rest := Drop(rest, 1);
      trace := trace + [Requested(req)];
      match outcome {
        case Success(body) =>
          return Ok(Some(body)), rest, trace;
        case Failure =>
          return Raise(RequestError), rest, trace;
        case Transient =>
          if attempt < maxRetries {
            trace := trace + [Slept(attempt)];
          } else {
            return Ok(None), rest, trace;
          }
      }
      attempt := attempt + 1;
    }
    result := Ok(None);
  }

  /** The backoff `random.uniform(10, 20) * attempt`, given the draw. */
  function Backoff(draw: real, attempt: nat): (seconds: real)
    requires 10.0 <= draw <= 20.0
    ensures 10.0 * attempt as real <= seconds <= 20.0 * attempt as real
  {
    draw * attempt as real
  }

  /** How a run ends, read off the outcome of its last request: every
      earlier request failed transiently; a body is returned, any other
      error propagates, and a transient failure ends the loop with `None`
      only on the last permitted attempt. */
  lemma {:induction false} RetryFromOutcome(script: seq<Attempt>, maxRetries: int, n: nat)
    requires 1 <= n <= maxRetries
    ensures var run := RetryFrom(script, maxRetries, n);
      var last := AttemptAt(script, run.attempts - 1);
      && (forall i :: 0 <= i < run.attempts - 1 ==> AttemptAt(script, i) == Transient)
      && (last.Success? ==> run.result == Ok(Some(last.body)))
      && (last.Failure? ==> run.result == Raise(RequestError))
      && (last.Transient? ==> run.result == Ok(None) && run.attempts == maxRetries - n + 1)
    decreases maxRetries - n
  {
    if AttemptAt(script, 0).Transient? && n < maxRetries {
      var rest := Drop(script, 1);
      RetryFromOutcome(rest, maxRetries, n + 1);
      var later := RetryFrom(rest, maxRetries, n + 1);
      forall i | 0 <= i < later.attempts
        ensures AttemptAt(script, i) == Transient
      {
        if i > 0 {
          assert AttemptAt(script, i) == AttemptAt(rest, i - 1);
        }
      }
      assert AttemptAt(script, later.attempts) == AttemptAt(rest, later.attempts - 1);
    }
  }

  lemma RetryOutcome(script: seq<Attempt>, maxRetries: int)
    requires 1 <= maxRetries
    ensures var run := Retry(script, maxRetries);
      var last := AttemptAt(script, run.attempts - 1);
      && (forall i :: 0 <= i < run.attempts - 1 ==> AttemptAt(script, i) == Transient)
      && (last.Success? ==> run.result == Ok(Some(last.body)))
      && (last.Failure? ==> run.result == Raise(RequestError))
      && (last.Transient? ==> run.result == Ok(None) && run.attempts == maxRetries)
  {
    RetryFromOutcome(script, maxRetries, 1);
  }

  /** The loop stops at the first outcome that is not a transient failure,
      when it comes within `max_retries` attempts. */
  lemma FirstDecisive(script: seq<Attempt>, maxRetries: int, k: nat)
    requires 1 <= k <= maxRetries
    requires forall i :: 0 <= i < k - 1 ==> AttemptAt(script, i) == Transient
    requires !AttemptAt(script, k - 1).Transient?
    ensures Retry(script, maxRetries).attempts == k
    ensures AttemptAt(script, k - 1).Success? ==>
              Retry(script, maxRetries).result == Ok(Some(AttemptAt(script, k - 1).body))
    ensures AttemptAt(script, k - 1).Failure? ==> Retry(script, maxRetries).result == Raise(RequestError)
  {
    RetryOutcome(script, maxRetries);
  }

  /** With nothing but transient failures the loop makes `max_retries`
      requests and gives up with `None`. */
  lemma AllTransient(script: seq<Attempt>, maxRetries: int)
    requires 1 <= maxRetries
    requires forall i :: 0 <= i < maxRetries ==> AttemptAt(script, i) == Transient
    ensures Retry(script, maxRetries) == Run(Ok(None), maxRetries)
  {
    RetryOutcome(script, maxRetries);
    var run := Retry(script, maxRetries);
    assert AttemptAt(script, run.attempts - 1) == Transient;
  }

  /** The loop gives up with `None` exactly when its first `max_retries`
      outcomes are all transient failures. */
  lemma RetryNone(script: seq<Attempt>, maxRetries: int)
    ensures Retry(script, maxRetries).result == Ok(None)
            <==> forall i :: 0 <= i < maxRetries ==> AttemptAt(script, i) == Transient
  {
    if maxRetries >= 1 {
      RetryOutcome(script, maxRetries);
      if forall i :: 0 <= i < maxRetries ==> AttemptAt(script, i) == Transient {
        AllTransient(script, maxRetries);
      }
    }
  }

  lemma {:induction false} RequestsAppend(a: seq<Event>, b: seq<Event>)
    ensures Requests(a + b) == Requests(a) + Requests(b)
  {
    if a == [] {
      assert a + b == b;
    } else {
      var first := if a[0].Requested? then [a[0].req] else [];
      assert (a + b)[0] == a[0] && (a + b)[1..] == a[1..] + b;
      assert Requests(a + b) == first + Requests(a[1..] + b);
      RequestsAppend(a[1..], b);
      assert Requests(a) == first + Requests(a[1..]);
    }
  }

  lemma {:induction false} SleepsAppend(a: seq<Event>, b: seq<Event>)
    ensures Sleeps(a + b) == Sleeps(a) + Sleeps(b)
  {
    if a == [] {
      assert a + b == b;
    } else {
      var first := if a[0].Slept? then [a[0].multiplier] else [];
      assert (a + b)[0] == a[0] && (a + b)[1..] == a[1..] + b;
      assert Sleeps(a + b) == first + Sleeps(a[1..] + b);
      SleepsAppend(a[1..], b);
      assert Sleeps(a) == first + Sleeps(a[1..]);
    }
  }

  lemma {:induction false} BeforeAttemptShape(req: Request, n: nat)
    requires 1 <= n
    ensures Requests(BeforeAttempt(req, n)) == seq(n - 1, _ => req)
    ensures Sleeps(BeforeAttempt(req, n)) == Range(1, n)
  {
    if n > 1 {
      BeforeAttemptShape(req, n - 1);
      var pair := [Requested(req), Slept(n - 1)];
      RequestsAppend(BeforeAttempt(req, n - 1), pair);
      SleepsAppend(BeforeAttempt(req, n - 1), pair);
      var sleep := [Slept(n - 1)];
      assert sleep[1..] == [];
      assert Requests(sleep) == [] && Sleeps(sleep) == [n - 1];
      assert pair[1..] == sleep;
      assert Requests(pair) == [req];
      assert Sleeps(pair) == [n - 1];
    }
  }

  /** A run of `k` attempts requests the same URL `k` times and sleeps
      between consecutive attempts with multipliers 1, 2, ..., k - 1: no
      sleep follows the last attempt. */
  lemma RetryTraceShape(req: Request, k: nat)
    ensures Requests(RetryTrace(req, k)) == seq(k, _ => req)
    ensures Sleeps(RetryTrace(req, k)) == Range(1, k)
  {
    if k > 0 {
      BeforeAttemptShape(req, k);
      RequestsAppend(BeforeAttempt(req, k), [Requested(req)]);
      SleepsAppend(BeforeAttempt(req, k), [Requested(req)]);
      assert Requests([Requested(req)]) == [req];
      assert Sleeps([Requested(req)]) == [];
    }
  }
}
