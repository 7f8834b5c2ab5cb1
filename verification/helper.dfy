/** The cached, retrying price fetcher of yfinance_helper.py.

    The upstream download call, the clock, the random number generator and
    the cache directory are all explicit: the upstream is an oracle indexed by
    the number of requests made so far, the clock advances only by the
    sleeps the fetcher takes, random.random() is a stream of draws in [0, 1),
    and the cache directory is a map from file name to content and
    modification time. */
module YFinance {
  import opened Wrappers
  import opened Text
  import opened Prices

  /** Age below which a cache file is fresh: 24 hours, in seconds. */
  const CacheTtlSeconds: real := 86400.0
  const SecondsPerDay: real := 86400.0
  /** Retry budget the helper's own callers use (the default of max_retries). */
  const DefaultMaxRetries: int := 3
  /** Default look-around of get_stock_price_on_date, in days. */
  const DefaultDaysBuffer: int := 5

  // ---------------------------------------------------------------------
  // The outside world

  /** A file of the cache directory: its unpickled content (None when it
      cannot be read back) and its modification time in seconds. */
  datatype CacheFile = CacheFile(data: Option<Series>, mtime: real)

  /** What one single-ticker download returns: a (possibly empty) frame, or
      the message of the exception it raised. */
  datatype Reply = Rows(rows: Series) | Raised(message: string)

  /** What one multi-ticker download returns: a frame, seen as a whole
      (`rows`, empty when the frame is) and grouped by ticker (`columns`), or
      the message of the exception it raised. */
  datatype BulkReply = Frame(rows: Series, columns: map<string, Series>) | BulkRaised(message: string)

  /** Request number `n` of the session, for one ticker or for several. */
  datatype Request = Request(ticker: string, start: int, end: int, n: nat)
  datatype BulkRequest = BulkRequest(tickers: seq<string>, start: int, end: int, n: nat)

  /** The upstream download function as a table of answers indexed by the
      request; a request the table does not list gets an empty frame. */
  datatype Upstream = Upstream(single: map<Request, Reply>, bulk: map<BulkRequest, BulkReply>)

  /** The keyword arguments the fetcher passes to the download function. */
  datatype KwName = StartArg | EndArg | ProgressArg | ThreadsArg | GroupByArg | ShowErrorsArg | SessionArg
  /** Their values: a date, a flag, a text, or the shared HTTP session. */
  datatype KwValue = Day(day: int) | Flag(flag: bool) | Label(text: string) | SessionObject
  type Kwargs = map<KwName, KwValue>

  /** One upstream request, as recorded in the ghost log. */
  datatype Call = Call(tickers: seq<string>, start: int, end: int, kwargs: Kwargs)

  /** One get_stock_data call of the ghost log: the ticker and the result. */
  datatype Fetch = Fetch(ticker: string, data: Option<Series>)

  /** Why the fetcher slept. */
  datatype Pause = Jitter | Backoff(attempt: nat) | ErrorWait | BatchWait(delay: real)

  /** A value of random.random(). */
  type Unit = r: real | 0.0 <= r < 1.0

  /** Outcome of inspecting the download function's signature. */
  datatype Probe = ProbeFailed | Probed(hasShowErrors: bool, hasSession: bool)

  // ---------------------------------------------------------------------
  // Capability flags and keyword arguments

  /** _check_yfinance_compatibility: the two capability flags. */
  function CompatibilityFlags(probe: Probe): (flags: (bool, bool))
    ensures probe.ProbeFailed? ==> flags == (false, false)
    ensures probe.Probed? ==> flags == (probe.hasShowErrors, probe.hasSession)
  {
    match probe
    case ProbeFailed => (false, false)
    case Probed(e, s) => (e, s)
  }

  /** The keyword arguments of a single-ticker download. */
  function SingleBase(start: int, end: int): Kwargs {
    map[StartArg := Day(start), EndArg := Day(end),
        ProgressArg := Flag(false), ThreadsArg := Flag(false)]
  }

  /** The keyword arguments of a multi-ticker download. */
  function BulkBase(start: int, end: int): Kwargs {
    map[StartArg := Day(start), EndArg := Day(end), ProgressArg := Flag(false),
        ThreadsArg := Flag(true), GroupByArg := Label("ticker")]
  }

  /** The base arguments extended with the optional ones the capabilities
      allow; the base entries are kept unless an optional one replaces them. */
  function Adapt(base: Kwargs, showErrors: bool, withSession: bool): (kw: Kwargs)
    ensures kw.Keys == base.Keys + (if showErrors then {ShowErrorsArg} else {})
                                 + (if withSession then {SessionArg} else {})
    ensures showErrors ==> kw[ShowErrorsArg] == Flag(false)
    ensures withSession ==> kw[SessionArg] == SessionObject
    ensures forall k :: (k in base && !(showErrors && k == ShowErrorsArg) && !(withSession && k == SessionArg))
                          ==> kw[k] == base[k]
  {
    var withErrors := if showErrors then base[ShowErrorsArg := Flag(false)] else base;
    if withSession then withErrors[SessionArg := SessionObject] else withErrors
  }

  // ---------------------------------------------------------------------
  // The cache directory

  /** _get_cache_path: the file name `{ticker}_{start}_{end}.pkl`. */
  function CachePath(ticker: string, start: int, end: int): (p: string)
    ensures EndsWith(p, ".pkl")
  {
    var stem := ticker + "_" + DateText(start) + "_" + DateText(end);
    assert (stem + ".pkl")[|stem|..] == ".pkl";
    stem + ".pkl"
  }

  /** Distinct keys never share a cache file, even for tickers that contain
      underscores. */
  lemma {:induction false} CachePathInjective(t1: string, s1: int, e1: int, t2: string, s2: int, e2: int)
    requires CachePath(t1, s1, e1) == CachePath(t2, s2, e2)
    ensures t1 == t2 && s1 == s2 && e1 == e2
  {
    var x1 := t1 + "_" + DateText(s1) + "_" + DateText(e1);
    var x2 := t2 + "_" + DateText(s2) + "_" + DateText(e2);
    assert x1 == CachePath(t1, s1, e1)[..|x1|];
    assert x2 == CachePath(t2, s2, e2)[..|x2|];
    assert x1 == x2;
    JoinInjective(t1 + "_" + DateText(s1), DateText(e1), t2 + "_" + DateText(s2), DateText(e2), '_');
    JoinInjective(t1, DateText(s1), t2, DateText(s2), '_');
    DateTextInjective(s1, s2);
    DateTextInjective(e1, e2);
  }

  lemma {:induction false} NatTextInjective(m: nat, n: nat)
    requires NatText(m) == NatText(n)
    ensures m == n
    decreases m
  {
    if m >= 10 && n >= 10 {
      var a, b := NatText(m), NatText(n);
      assert a[..|a| - 1] == NatText(m / 10) && b[..|b| - 1] == NatText(n / 10);
      assert DigitChar(m % 10) == a[|a| - 1] == b[|b| - 1] == DigitChar(n % 10);
      NatTextInjective(m / 10, n / 10);
    }
  }

  lemma DateTextSign(d: int)
    ensures |DateText(d)| > 0 && (DateText(d)[0] == '-' <==> d < 0)
  {
    if d >= 0 {
      assert '0' <= NatText(d)[0];
    }
  }

  lemma DateTextInjective(d1: int, d2: int)
    requires DateText(d1) == DateText(d2)
    ensures d1 == d2
  {
    DateTextSign(d1);
    DateTextSign(d2);
    if d1 < 0 && d2 < 0 {
      assert NatText(-d1) == DateText(d1)[1..];
      NatTextInjective(-d1, -d2);
    } else if d1 >= 0 && d2 >= 0 {
      NatTextInjective(d1, d2);
    }
  }

  /** _load_from_cache: the series stored under the exact key, provided the
      file is readable and strictly younger than the time-to-live; every
      other case is a miss. */
  function Lookup(files: map<string, CacheFile>, now: real, ticker: string, start: int, end: int)
    : (r: Option<Series>)
    ensures r.Some? ==> CachePath(ticker, start, end) in files && files[CachePath(ticker, start, end)].data == r
    ensures CachePath(ticker, start, end) in files && now - files[CachePath(ticker, start, end)].mtime >= CacheTtlSeconds
            ==> r.None?
  {
    var path := CachePath(ticker, start, end);
    if path in files && now - files[path].mtime < CacheTtlSeconds then files[path].data else None
  }

  /** _save_to_cache: the file for the key is (over)written at time `now`. */
  function Store(files: map<string, CacheFile>, now: real, ticker: string, start: int, end: int, data: Series)
    : (s: map<string, CacheFile>)
    ensures CachePath(ticker, start, end) in s && s[CachePath(ticker, start, end)] == CacheFile(Some(data), now)
    ensures s - {CachePath(ticker, start, end)} == files - {CachePath(ticker, start, end)}
  {
    files[CachePath(ticker, start, end) := CacheFile(Some(data), now)]
  }

  /** A store followed at once by a lookup of the same key gives back the
      stored series. */
  lemma LookupAfterStore(files: map<string, CacheFile>, now: real, ticker: string, start: int, end: int, data: Series)
    ensures Lookup(Store(files, now, ticker, start, end, data), now, ticker, start, end) == Some(data)
  {
  }

  /** Storing one key never changes what a lookup of another key sees. */
  lemma LookupOtherKey(files: map<string, CacheFile>, now: real, at: real, ticker: string, start: int, end: int,
                       data: Series, other: string, oStart: int, oEnd: int)
    requires (other, oStart, oEnd) != (ticker, start, end)
    ensures Lookup(Store(files, at, ticker, start, end, data), now, other, oStart, oEnd)
         == Lookup(files, now, other, oStart, oEnd)
  {
    if CachePath(other, oStart, oEnd) == CachePath(ticker, start, end) {
      CachePathInjective(other, oStart, oEnd, ticker, start, end);
    }
  }

  /** The clock only moves forward, so a miss stays a miss until the file
      is written again. */
  lemma MissStaysMiss(files: map<string, CacheFile>, t0: real, t1: real, ticker: string, start: int, end: int)
    requires t0 <= t1 && Lookup(files, t0, ticker, start, end).None?
    ensures Lookup(files, t1, ticker, start, end).None?
  {
  }

  /** A hit needs a readable file under the exact key whose age is below the
      time-to-live; a file that has reached the time-to-live is a miss. */
  lemma LookupHitIsFresh(files: map<string, CacheFile>, now: real, ticker: string, start: int, end: int)
    ensures Lookup(files, now, ticker, start, end).Some? <==>
      var path := CachePath(ticker, start, end);
      path in files && files[path].data.Some? && now - files[path].mtime < CacheTtlSeconds
  {
  }

  /** clear_cache: drop the `.pkl` files modified strictly before `cutoff`. */
  function Purge(files: map<string, CacheFile>, cutoff: real): (kept: map<string, CacheFile>)
    ensures forall f :: f in kept <==> f in files && !(EndsWith(f, ".pkl") && files[f].mtime < cutoff)
    ensures forall f :: f in kept ==> kept[f] == files[f]
  {
    map f | f in files && !(EndsWith(f, ".pkl") && files[f].mtime < cutoff) :: files[f]
  }

  /** Clearing entries older than at least one day never removes a fresh
      entry, so every lookup sees the same cache as before. */
  lemma {:induction false} PurgeKeepsFreshEntries(files: map<string, CacheFile>, now: real, days: int,
                                                ticker: string, start: int, end: int)
    requires days >= 1
    ensures Lookup(Purge(files, now - days as real * SecondsPerDay), now, ticker, start, end)
         == Lookup(files, now, ticker, start, end)
  {
    var path := CachePath(ticker, start, end);
    var cutoff := now - days as real * SecondsPerDay;
    assert cutoff <= now - CacheTtlSeconds;
    if path in files && now - files[path].mtime < CacheTtlSeconds {
      assert files[path].mtime >= cutoff;
      assert path in Purge(files, cutoff);
    }
  }

  /** Every readable cache file holds a non-empty series. */
  ghost predicate NonEmptyEntries(files: map<string, CacheFile>) {
    forall f :: f in files && files[f].data.Some? ==> |files[f].data.value| > 0
  }

  // ---------------------------------------------------------------------
  // The retry loop, as a specification

  function Pow2(n: nat): (p: nat)
    ensures p >= 1
  {
    if n == 0 then 1 else 2 * Pow2(n - 1)
  }

  /** The error messages that are treated as rate limiting. */
  predicate RateLimited(message: string) {
    Contains(message, "Too Many Requests") || Contains(message, "Rate limited") || Contains(message, "429")
  }

  predicate Succeeded(r: Reply) {
    r.Rows? && |r.rows| > 0
  }

  /** The replies the upstream gives to `n` consecutive single-ticker
      requests, the first of them being request number `from`. */
  function Replies(up: Upstream, ticker: string, start: int, end: int, from: nat, n: int): (rs: seq<Reply>)
    ensures |rs| == if n > 0 then n else 0
  {
    if n <= 0 then [] else Replies(up, ticker, start, end, from, n - 1) + [SingleAnswer(up, ticker, start, end, from + n - 1)]
  }

  /** The upstream's answer to single-ticker request number `n`. */
  function SingleAnswer(up: Upstream, ticker: string, start: int, end: int, n: nat): Reply {
    var q := Request(ticker, start, end, n);
    if q in up.single then up.single[q] else Rows([])
  }

  /** Reply number `i` of the run answers request number `from + i`. */
  lemma RepliesAt(up: Upstream, ticker: string, start: int, end: int, from: nat, n: int, i: nat)
    requires i < n
    ensures Replies(up, ticker, start, end, from, n)[i] == SingleAnswer(up, ticker, start, end, from + i)
    decreases n
  {
    if i < n - 1 {
      RepliesAt(up, ticker, start, end, from, n - 1, i);
    }
  }

  /** The index of the first reply carrying a non-empty series. */
  function FirstSuccess(rs: seq<Reply>): (r: Option<nat>)
    ensures r.Some? ==> r.value < |rs| && Succeeded(rs[r.value])
  {
    if rs == [] then None
    else if Succeeded(rs[0]) then Some(0)
    else match FirstSuccess(rs[1..])
      case Some(i) => Some(i + 1)
      case None => None
  }

  /** FirstSuccess finds the first reply with a non-empty series, and finds
      none exactly when there is none. */
  lemma {:induction false} FirstSuccessSpec(rs: seq<Reply>)
    ensures var r := FirstSuccess(rs);
      && (r.Some? ==> r.value < |rs| && Succeeded(rs[r.value])
                      && forall j :: 0 <= j < r.value ==> !Succeeded(rs[j]))
      && (r.None? ==> forall j :: 0 <= j < |rs| ==> !Succeeded(rs[j]))
    decreases |rs|
  {
    if rs != [] && !Succeeded(rs[0]) {
      FirstSuccessSpec(rs[1..]);
    }
  }

  /** None of the first `n` replies carries a non-empty series. */
  predicate NoneSucceeded(rs: seq<Reply>, n: nat)
    requires n <= |rs|
  {
    n == 0 || (NoneSucceeded(rs, n - 1) && !Succeeded(rs[n - 1]))
  }

  /** A run whose first success is reply `i` uses `i + 1` attempts and
      returns that reply's series. */
  lemma FirstSuccessOutcome(rs: seq<Reply>, i: nat)
    requires i < |rs| && NoneSucceeded(rs, i) && Succeeded(rs[i])
    ensures AttemptsUsed(rs) == i + 1 && RetryResult(rs) == Some(rs[i].rows)
  {
    FirstSuccessAt(rs, i);
  }

  /** A run without success uses every attempt and returns nothing. */
  lemma NoSuccessOutcome(rs: seq<Reply>)
    requires NoneSucceeded(rs, |rs|)
    ensures AttemptsUsed(rs) == |rs| && RetryResult(rs) == None
  {
    NoneSucceededNoSuccess(rs);
  }

  lemma {:induction false} NoneSucceededAll(rs: seq<Reply>, n: nat)
    requires n <= |rs|
    ensures NoneSucceeded(rs, n) <==> forall j :: 0 <= j < n ==> !Succeeded(rs[j])
  {
    if n > 0 {
      NoneSucceededAll(rs, n - 1);
    }
  }

  /** A run of attempts yields data exactly when some reply carried a
      non-empty series, and what it yields is non-empty. */
  lemma RetryResultSpec(rs: seq<Reply>)
    ensures RetryResult(rs).Some? <==> exists i :: 0 <= i < |rs| && Succeeded(rs[i])
    ensures RetryResult(rs).Some? ==> |RetryResult(rs).value| > 0
  {
    FirstSuccessSpec(rs);
  }

  /** The first success comes right after a run of failures. */
  lemma FirstSuccessAt(rs: seq<Reply>, i: nat)
    requires i < |rs| && NoneSucceeded(rs, i) && Succeeded(rs[i])
    ensures FirstSuccess(rs) == Some(i)
  {
    NoneSucceededAll(rs, i);
    FirstSuccessSpec(rs);
  }

  lemma NoneSucceededNoSuccess(rs: seq<Reply>)
    requires NoneSucceeded(rs, |rs|)
    ensures FirstSuccess(rs) == None
  {
    NoneSucceededAll(rs, |rs|);
    FirstSuccessSpec(rs);
  }

  /** How many of the replies the loop consumes: up to and including the
      first success, or all of them. */
  function AttemptsUsed(rs: seq<Reply>): (n: nat)
    ensures n <= |rs|
    ensures rs != [] ==> n >= 1
  {
    match FirstSuccess(rs)
    case Some(i) => i + 1
    case None => |rs|
  }

  /** What get_stock_data returns on a cache miss. */
  function RetryResult(rs: seq<Reply>): (r: Option<Series>)
    ensures r.Some? ==> |r.value| > 0
  {
    match FirstSuccess(rs)
    case Some(i) => Some(rs[i].rows)
    case None => None
  }

  /** The sleeps of attempt number `attempt` (0-based): a random delay before
      every attempt but the first, then exponential backoff after a rate-limit
      error, or one second after another error unless it is the last attempt. */
  function StepPauses(attempt: nat, reply: Reply, maxRetries: int): seq<Pause> {
    (if attempt > 0 then [Jitter] else []) + ReplyPauses(attempt, reply, maxRetries)
  }

  /** The sleep that follows the reply to attempt number `attempt`. */
  function ReplyPauses(attempt: nat, reply: Reply, maxRetries: int): seq<Pause> {
    match reply
    case Rows(_) => []
    case Raised(message) =>
      if RateLimited(message) then [Backoff(attempt)]
      else if attempt < maxRetries - 1 then [ErrorWait]
      else []
  }

  /** The sleeps of the first `n` attempts of a run that received the
      replies `rs`. */
  function RetryPauses(rs: seq<Reply>, n: nat, maxRetries: int): seq<Pause>
    requires n <= |rs|
  {
    if n == 0 then [] else RetryPauses(rs, n - 1, maxRetries) + StepPauses(n - 1, rs[n - 1], maxRetries)
  }

  function CountJitter(ps: seq<Pause>): nat
    decreases |ps|
  {
    if ps == [] then 0 else CountJitter(ps[..|ps| - 1]) + (if ps[|ps| - 1] == Jitter then 1 else 0)
  }

  /** Number of inter-batch pauses. */
  function Waits(ps: seq<Pause>): nat
    decreases |ps|
  {
    if ps == [] then 0 else Waits(ps[..|ps| - 1]) + (if ps[|ps| - 1].BatchWait? then 1 else 0)
  }

  lemma {:induction false} WaitsAppend(a: seq<Pause>, b: seq<Pause>)
    ensures Waits(a + b) == Waits(a) + Waits(b)
    ensures CountJitter(a + b) == CountJitter(a) + CountJitter(b)
    decreases |b|
  {
    if b != [] {
      assert (a + b)[..|a + b| - 1] == a + b[..|b| - 1];
      WaitsAppend(a, b[..|b| - 1]);
    } else {
      assert a + b == a;
    }
  }

  /** Every attempt after the first is preceded by exactly one random delay. */
  lemma {:induction false} OneJitterPerRetry(rs: seq<Reply>, k: nat, maxRetries: int)
    requires k <= |rs|
    ensures CountJitter(RetryPauses(rs, k, maxRetries)) == if k == 0 then 0 else k - 1
  {
    if k > 0 {
      var n := k - 1;
      OneJitterPerRetry(rs, n, maxRetries);
      WaitsAppend(RetryPauses(rs, n, maxRetries), StepPauses(n, rs[n], maxRetries));
      WaitsAppend(if n > 0 then [Jitter] else [], ReplyPauses(n, rs[n], maxRetries));
      ReplyPausesNoJitter(n, rs[n], maxRetries);
      assert CountJitter(if n > 0 then [Jitter] else []) == (if n > 0 then 1 else 0) by {
        assert [Jitter][..0] == [];
      }
    }
  }

  /** The sleep after a reply is never a random delay. */
  lemma ReplyPausesNoJitter(attempt: nat, reply: Reply, maxRetries: int)
    ensures CountJitter(ReplyPauses(attempt, reply, maxRetries)) == 0
  {
    var tail := ReplyPauses(attempt, reply, maxRetries);
    assert tail == [] || tail == [Backoff(attempt)] || tail == [ErrorWait];
    assert [Backoff(attempt)][..0] == [] && [ErrorWait][..0] == [];
  }


  /** The retry loop backs off exponentially at attempt `a` exactly when the
      reply to that attempt was a rate-limit error. */
  lemma {:induction false} BackoffOnlyOnRateLimit(rs: seq<Reply>, k: nat, maxRetries: int, a: nat)
    requires k <= |rs|
    ensures Backoff(a) in RetryPauses(rs, k, maxRetries) <==> a < k && rs[a].Raised? && RateLimited(rs[a].message)
  {
    if k > 0 {
      var n := k - 1;
      BackoffOnlyOnRateLimit(rs, n, maxRetries, a);
      var step := StepPauses(n, rs[n], maxRetries);
      assert Backoff(a) in step <==> a == n && rs[n].Raised? && RateLimited(rs[n].message);
      assert Backoff(a) in RetryPauses(rs, k, maxRetries) <==> Backoff(a) in RetryPauses(rs, n, maxRetries) || Backoff(a) in step;
    }
  }

  /** The retry loop never takes an inter-batch pause. */
  lemma {:induction false} RetryHasNoBatchWait(rs: seq<Reply>, k: nat, maxRetries: int)
    requires k <= |rs|
    ensures Waits(RetryPauses(rs, k, maxRetries)) == 0
  {
    if k > 0 {
      var n := k - 1;
      RetryHasNoBatchWait(rs, n, maxRetries);
      WaitsAppend(RetryPauses(rs, n, maxRetries), StepPauses(n, rs[n], maxRetries));
      StepHasNoBatchWait(n, rs[n], maxRetries);
    }
  }

  lemma StepHasNoBatchWait(attempt: nat, reply: Reply, maxRetries: int)
    ensures Waits(StepPauses(attempt, reply, maxRetries)) == 0
  {
    var step := StepPauses(attempt, reply, maxRetries);
    assert forall i :: 0 <= i < |step| ==> !step[i].BatchWait?;
    NoBatchWaitCounts(step);
  }

  lemma {:induction false} NoBatchWaitCounts(ps: seq<Pause>)
    requires forall i :: 0 <= i < |ps| ==> !ps[i].BatchWait?
    ensures Waits(ps) == 0
    decreases |ps|
  {
    if ps != [] {
      NoBatchWaitCounts(ps[..|ps| - 1]);
    }
  }

  // ---------------------------------------------------------------------
  // The sleep log

  predicate Between(v: real, a: real, b: real) {
    (a <= v <= b) || (b <= v <= a)
  }

  /** random.uniform(lo, hi) for the draw `u` of random.random(). */
  function Lerp(lo: real, hi: real, u: real): real {
    lo + (hi - lo) * u
  }

  /** random.uniform's result lies between its two bounds, in either order. */
  lemma LerpBetween(lo: real, hi: real, u: real)
    requires 0.0 <= u <= 1.0
    ensures Between(Lerp(lo, hi, u), lo, hi)
  {
    var w := hi - lo;
    assert w * u + w * (1.0 - u) == w;
    if 0.0 <= w {
      assert 0.0 <= w * (1.0 - u);
      assert 0.0 <= w * u;
    } else {
      assert w * (1.0 - u) <= 0.0;
      assert w * u <= 0.0;
    }
  }

  /** How long a sleep for the given reason may last. */
  predicate SleepOk(reason: Pause, seconds: real, delayMin: real, delayMax: real) {
    match reason
    case Jitter => Between(seconds, delayMin, delayMax)
    case Backoff(a) => Pow2(a) as real + 1.0 <= seconds <= Pow2(a) as real + 3.0
    case ErrorWait => seconds == 1.0
    case BatchWait(d) => seconds == d
  }

  lemma AppendAssoc<T>(a: seq<T>, b: seq<T>, c: seq<T>)
    ensures a + b + c == a + (b + c)
  {
  }

  // ---------------------------------------------------------------------
  // Batching

  /** The consecutive slices `tickers[i:i+size]`. */
  function Batches(ts: seq<string>, size: nat): (bs: seq<seq<string>>)
    requires size > 0
    ensures (bs == []) == (ts == []) && |bs| <= |ts|
    decreases |ts|
  {
    if ts == [] then [] else if |ts| <= size then [ts] else [ts[..size]] + Batches(ts[size..], size)
  }

  function Flatten(bs: seq<seq<string>>): seq<string>
    decreases |bs|
  {
    if bs == [] then [] else bs[0] + Flatten(bs[1..])
  }

  /** The batches cover the input in order. */
  lemma {:induction false} BatchesCover(ts: seq<string>, size: nat)
    requires size > 0
    ensures Flatten(Batches(ts, size)) == ts
    decreases |ts|
  {
    if ts == [] {
    } else if |ts| <= size {
      assert Flatten([ts]) == ts + Flatten([]);
    } else {
      BatchesCover(ts[size..], size);
      assert Batches(ts, size)[1..] == Batches(ts[size..], size);
      assert ts == ts[..size] + ts[size..];
    }
  }

  /** Every batch holds between 1 and `size` tickers. */
  lemma {:induction false} BatchesBounded(ts: seq<string>, size: nat)
    requires size > 0
    ensures forall i :: 0 <= i < |Batches(ts, size)| ==> 0 < |Batches(ts, size)[i]| <= size
    decreases |ts|
  {
    if |ts| > size {
      BatchesBounded(ts[size..], size);
      var bs := Batches(ts, size);
      assert forall i :: 1 <= i < |bs| ==> bs[i] == Batches(ts[size..], size)[i - 1];
    }
  }

  /** There are ceil(n / size) batches: the last one is the only one that
      may be short. */
  lemma {:induction false} BatchesCount(ts: seq<string>, size: nat)
    requires size > 0
    ensures var k := |Batches(ts, size)|;
      (ts == [] <==> k == 0) && (k - 1) * size < |ts| <= k * size
    decreases |ts|
  {
    if |ts| > size {
      BatchesCount(ts[size..], size);
      var k := |Batches(ts[size..], size)|;
      assert (k + 1) * size == k * size + size;
      assert k * size == (k - 1) * size + size;
    }
  }

  function Min(a: int, b: int): int {
    if a <= b then a else b
  }

  /** Taking the next batch off the front of the remaining tickers. */
  lemma BatchesStep(ts: seq<string>, i: nat, size: nat, done: seq<seq<string>>)
    requires size > 0 && i < |ts|
    requires done + Batches(ts[i..], size) == Batches(ts, size)
    ensures (done + [ts[i..Min(i + size, |ts|)]]) + Batches(ts[Min(i + size, |ts|)..], size) == Batches(ts, size)
  {
    BatchesFront(ts, i, size);
    assert (done + [ts[i..Min(i + size, |ts|)]]) + Batches(ts[Min(i + size, |ts|)..], size)
        == done + ([ts[i..Min(i + size, |ts|)]] + Batches(ts[Min(i + size, |ts|)..], size));
  }

  lemma BatchesFront(ts: seq<string>, i: nat, size: nat)
    requires size > 0 && i < |ts|
    ensures Batches(ts[i..], size) == [ts[i..Min(i + size, |ts|)]] + Batches(ts[Min(i + size, |ts|)..], size)
  {
    var rest := ts[i..];
    if |rest| <= size {
      assert ts[Min(i + size, |ts|)..] == [];
      assert ts[i..Min(i + size, |ts|)] == rest;
    } else {
      assert rest[..size] == ts[i..i + size];
      assert rest[size..] == ts[i + size..];
    }
  }

  /** Results hold non-empty series only. */
  ghost predicate NonEmptyValues(results: map<string, Series>) {
    forall t :: t in results ==> |results[t]| > 0
  }

  /** The upstream's answer to multi-ticker request number `n`. */
  function BulkAnswer(up: Upstream, tickers: seq<string>, start: int, end: int, n: nat): BulkReply {
    var q := BulkRequest(tickers, start, end, n);
    if q in up.bulk then up.bulk[q] else Frame([], map[])
  }

  /** The cache pass of a bulk batch over its first `k` tickers: every hit
      is put into the results. */
  function CacheHits(results: map<string, Series>, files: map<string, CacheFile>, now: real,
                     batch: seq<string>, k: nat, start: int, end: int): map<string, Series>
    requires k <= |batch|
  {
    if k == 0 then results
    else
      var r := CacheHits(results, files, now, batch, k - 1, start, end);
      match Lookup(files, now, batch[k - 1], start, end)
      case Some(d) => r[batch[k - 1] := d]
      case None => r
  }

  /** The same pass: the misses, in batch order (`uncached_tickers`). */
  function Misses(files: map<string, CacheFile>, now: real, batch: seq<string>, k: nat, start: int, end: int)
    : seq<string>
    requires k <= |batch|
  {
    if k == 0 then []
    else Misses(files, now, batch, k - 1, start, end)
         + (if Lookup(files, now, batch[k - 1], start, end).None? then [batch[k - 1]] else [])
  }

  /** The multi-ticker branch over the first `k` uncached tickers: a ticker
      with a non-empty column is put into the results. */
  function FromColumns(results: map<string, Series>, ts: seq<string>, k: nat, columns: map<string, Series>)
    : map<string, Series>
    requires k <= |ts|
  {
    if k == 0 then results
    else
      var r := FromColumns(results, ts, k - 1, columns);
      var t := ts[k - 1];
      if t in columns && |columns[t]| > 0 then r[t := columns[t]] else r
  }

  /** The results a run of get_stock_data calls leaves: every series
      returned is put in under its ticker. */
  function Collect(results: map<string, Series>, fs: seq<Fetch>): map<string, Series>
    decreases |fs|
  {
    if fs == [] then results
    else
      var r := Collect(results, fs[..|fs| - 1]);
      var f := fs[|fs| - 1];
      if f.data.Some? then r[f.ticker := f.data.value] else r
  }

  function Tickers(fs: seq<Fetch>): (ts: seq<string>)
    ensures |ts| == |fs|
    decreases |fs|
  {
    if fs == [] then [] else Tickers(fs[..|fs| - 1]) + [fs[|fs| - 1].ticker]
  }

  /** The cache pass puts exactly the batch's hits into the results, with
      the cached series. */
  lemma {:induction false} CacheHitsSpec(results: map<string, Series>, files: map<string, CacheFile>, now: real,
                                         batch: seq<string>, k: nat, start: int, end: int)
    requires k <= |batch|
    ensures var r := CacheHits(results, files, now, batch, k, start, end);
      && (forall t :: t in r <==> t in results || (t in batch[..k] && Lookup(files, now, t, start, end).Some?))
      && (forall t :: t in r ==>
            r[t] == if t in batch[..k] && Lookup(files, now, t, start, end).Some?
                    then Lookup(files, now, t, start, end).value else results[t])
  {
    if k > 0 {
      CacheHitsSpec(results, files, now, batch, k - 1, start, end);
      var t0 := batch[k - 1];
      assert batch[..k] == batch[..k - 1] + [t0];
      var r0 := CacheHits(results, files, now, batch, k - 1, start, end);
      var r := CacheHits(results, files, now, batch, k, start, end);
      var hit := Lookup(files, now, t0, start, end);
      assert r == if hit.Some? then r0[t0 := hit.value] else r0;
      forall t
        ensures t in r <==> t in results || (t in batch[..k] && Lookup(files, now, t, start, end).Some?)
      {
        assert t in batch[..k] <==> t in batch[..k - 1] || t == t0;
      }
    }
  }

  /** One ticker of the cache pass: a hit goes into the results, a miss
      onto the misses. */
  lemma SplitStep(results: map<string, Series>, files: map<string, CacheFile>, now: real,
                  batch: seq<string>, j: nat, start: int, end: int)
    requires j < |batch|
    ensures var hit := Lookup(files, now, batch[j], start, end);
      && CacheHits(results, files, now, batch, j + 1, start, end)
         == (if hit.Some? then CacheHits(results, files, now, batch, j, start, end)[batch[j] := hit.value]
             else CacheHits(results, files, now, batch, j, start, end))
      && Misses(files, now, batch, j + 1, start, end)
         == Misses(files, now, batch, j, start, end) + (if hit.None? then [batch[j]] else [])
  {
  }

  lemma NonEmptyValuesUpdate(results: map<string, Series>, t: string, hit: Option<Series>)
    requires NonEmptyValues(results) && (hit.Some? ==> |hit.value| > 0)
    ensures NonEmptyValues(if hit.Some? then results[t := hit.value] else results)
  {
  }

  /** A readable cache file never yields an empty series. */
  lemma LookupNonEmpty(files: map<string, CacheFile>, now: real, ticker: string, start: int, end: int)
    requires NonEmptyEntries(files)
    ensures var hit := Lookup(files, now, ticker, start, end);
      hit.Some? ==> |hit.value| > 0
  {
    var path := CachePath(ticker, start, end);
    if path in files && files[path].data.Some? {
      assert |files[path].data.value| > 0;
    }
  }

  /** Cached tickers are never requested upstream: the misses are exactly
      the batch's tickers without a fresh cache entry. */
  lemma {:induction false} MissesSpec(files: map<string, CacheFile>, now: real, batch: seq<string>, k: nat,
                                      start: int, end: int)
    requires k <= |batch|
    ensures forall t :: t in Misses(files, now, batch, k, start, end) <==>
      t in batch[..k] && Lookup(files, now, t, start, end).None?
  {
    if k > 0 {
      MissesSpec(files, now, batch, k - 1, start, end);
      assert batch[..k] == batch[..k - 1] + [batch[k - 1]];
    }
  }

  /** The multi-ticker branch keeps a ticker exactly when it was asked for
      and has a non-empty column. */
  lemma {:induction false} FromColumnsSpec(results: map<string, Series>, ts: seq<string>, k: nat,
                                           columns: map<string, Series>)
    requires k <= |ts|
    ensures var r := FromColumns(results, ts, k, columns);
      && (forall t :: t in r <==> t in results || (t in ts[..k] && t in columns && |columns[t]| > 0))
      && (forall t :: t in r ==> r[t] == if t in ts[..k] && t in columns && |columns[t]| > 0
                                         then columns[t] else results[t])
  {
    if k > 0 {
      FromColumnsSpec(results, ts, k - 1, columns);
      var t0 := ts[k - 1];
      assert ts[..k] == ts[..k - 1] + [t0];
      var r0 := FromColumns(results, ts, k - 1, columns);
      assert FromColumns(results, ts, k, columns)
          == if t0 in columns && |columns[t0]| > 0 then r0[t0 := columns[t0]] else r0;
    }
  }

  /** The fallback only adds the tickers it fetched. */
  lemma {:induction false} CollectKeys(results: map<string, Series>, fs: seq<Fetch>)
    ensures forall t :: t in Collect(results, fs) ==> t in results || t in Tickers(fs)
    decreases |fs|
  {
    if fs != [] {
      var init := fs[..|fs| - 1];
      CollectKeys(results, init);
      assert Tickers(fs) == Tickers(init) + [fs[|fs| - 1].ticker];
    }
  }

  /** The cache files of the tickers `ts` for one window. */
  function Paths(ts: seq<string>, start: int, end: int): set<string> {
    set t | t in ts :: CachePath(t, start, end)
  }

  /** Every series in the results is the one its ticker's cache file
      holds for the window. */
  ghost predicate CachedIn(files: map<string, CacheFile>, results: map<string, Series>, start: int, end: int) {
    forall t :: t in results ==>
      CachePath(t, start, end) in files && files[CachePath(t, start, end)].data == Some(results[t])
  }

  /** Two steps that each touch only their own files touch only the
      union of them. */
  lemma FrameWiden(a: map<string, CacheFile>, b: map<string, CacheFile>, c: map<string, CacheFile>,
                   s: set<string>, q: set<string>, s2: set<string>)
    requires b - s == a - s && c - q == b - q && s <= s2 && q <= s2
    ensures c - s2 == a - s2
  {
    forall k | k !in s2
      ensures (k in c <==> k in a) && (k in c ==> c[k] == a[k])
    {
      assert k !in s && k !in q;
      assert (k in c <==> k in c - q) && (k in b <==> k in b - q);
      assert (k in b <==> k in b - s) && (k in a <==> k in a - s);
    }
  }

  /** One fetch keeps the results consistent with the cache: a series it
      returns is the one its file now holds, and every other file it left
      alone. */
  lemma CachedInUpdate(files0: map<string, CacheFile>, files: map<string, CacheFile>, results: map<string, Series>,
                       ticker: string, data: Option<Series>, start: int, end: int)
    requires CachedIn(files0, results, start, end)
    requires files - {CachePath(ticker, start, end)} == files0 - {CachePath(ticker, start, end)}
    requires data.None? ==> files == files0
    requires data.Some? ==> CachePath(ticker, start, end) in files
                            && files[CachePath(ticker, start, end)].data == data
    ensures CachedIn(files, if data.Some? then results[ticker := data.value] else results, start, end)
  {
    if data.Some? {
      var p := CachePath(ticker, start, end);
      forall t | t in results && t != ticker
        ensures CachePath(t, start, end) in files && files[CachePath(t, start, end)].data == Some(results[t])
      {
        if CachePath(t, start, end) == p {
          CachePathInjective(t, start, end, ticker, start, end);
        }
        assert CachePath(t, start, end) in files0 - {p};
      }
    }
  }

  /** A cache hit is the series its file holds, so the cache pass keeps
      the results consistent with the cache. */
  lemma {:induction false} CacheHitsCached(results: map<string, Series>, files: map<string, CacheFile>, now: real,
                                           batch: seq<string>, k: nat, start: int, end: int)
    requires k <= |batch| && CachedIn(files, results, start, end)
    ensures CachedIn(files, CacheHits(results, files, now, batch, k, start, end), start, end)
  {
    if k > 0 {
      CacheHitsCached(results, files, now, batch, k - 1, start, end);
      var r0 := CacheHits(results, files, now, batch, k - 1, start, end);
      var t := batch[k - 1];
      var hit := Lookup(files, now, t, start, end);
      assert CacheHits(results, files, now, batch, k, start, end)
          == if hit.Some? then r0[t := hit.value] else r0;
      if hit.Some? {
        var r := r0[t := hit.value];
        forall u | u in r
          ensures CachePath(u, start, end) in files && files[CachePath(u, start, end)].data == Some(r[u])
        {
          if u != t {
            assert u in r0;
          }
        }
      }
    }
  }

  /** A batch's files and the files before it are among the files up to
      its end. */
  lemma PathsSplit(ts: seq<string>, i: nat, next: nat, start: int, end: int)
    requires i <= next <= |ts|
    ensures Paths(ts[..i], start, end) <= Paths(ts[..next], start, end)
    ensures Paths(ts[i..next], start, end) <= Paths(ts[..next], start, end)
  {
    assert ts[..next] == ts[..i] + ts[i..next];
  }

  /** A sub-list of tickers has a subset of the files. */
  lemma PathsSub(a: seq<string>, b: seq<string>, start: int, end: int)
    requires forall t :: t in a ==> t in b
    ensures Paths(a, start, end) <= Paths(b, start, end)
  {
  }

  /** One more ticker's file joins the fetched prefix's files. */
  lemma PathsStep(ts: seq<string>, j: nat, start: int, end: int)
    requires j < |ts|
    ensures Paths(ts[..j], start, end) <= Paths(ts[..j + 1], start, end)
    ensures CachePath(ts[j], start, end) in Paths(ts[..j + 1], start, end)
  {
    assert ts[..j + 1] == ts[..j] + [ts[j]];
  }

  lemma {:induction false} CollectAppend(results: map<string, Series>, a: seq<Fetch>, b: seq<Fetch>)
    ensures Collect(results, a + b) == Collect(Collect(results, a), b)
    decreases |b|
  {
    if b == [] {
      assert a + b == a;
    } else {
      assert (a + b)[..|a + b| - 1] == a + b[..|b| - 1];
      CollectAppend(results, a, b[..|b| - 1]);
    }
  }

  /** One more batch of per-ticker fetches extends both the collected
      results and the fetched prefix of the tickers. */
  lemma BatchFetched(tickers: seq<string>, i: nat, next: nat, got: seq<Fetch>, g: seq<Fetch>,
                     results: map<string, Series>, r: map<string, Series>)
    requires i <= next <= |tickers|
    requires results == Collect(map[], got) && Tickers(got) == tickers[..i]
    requires r == Collect(results, g) && Tickers(g) == tickers[i..next]
    ensures r == Collect(map[], got + g) && Tickers(got + g) == tickers[..next]
  {
    CollectAppend(map[], got, g);
    TickersAppend(got, g);
    assert tickers[..next] == tickers[..i] + tickers[i..next];
  }

  /** One more per-ticker fetch extends the fetched prefix and the
      collected results. */
  lemma FetchedOne(results: map<string, Series>, got: seq<Fetch>, f: Fetch, ts: seq<string>, j: nat)
    requires j < |ts| && Tickers(got) == ts[..j] && f.ticker == ts[j]
    ensures Tickers(got + [f]) == ts[..j + 1]
    ensures Collect(results, got + [f])
         == if f.data.Some? then Collect(results, got)[f.ticker := f.data.value] else Collect(results, got)
  {
    assert (got + [f])[..|got|] == got;
    assert ts[..j + 1] == ts[..j] + [ts[j]];
  }

  lemma PrefixTrans<T>(a: seq<T>, b: seq<T>, c: seq<T>)
    requires |b| >= |a| && b[..|a|] == a && |c| >= |b| && c[..|b|] == b
    ensures |c| >= |a| && c[..|a|] == a
  {
    assert c[..|a|] == c[..|b|][..|a|];
  }

  lemma {:induction false} TickersAppend(a: seq<Fetch>, b: seq<Fetch>)
    ensures Tickers(a + b) == Tickers(a) + Tickers(b)
    decreases |b|
  {
    if b == [] {
      assert a + b == a;
    } else {
      assert (a + b)[..|a + b| - 1] == a + b[..|b| - 1];
      TickersAppend(a, b[..|b| - 1]);
    }
  }

  /** The cache writes of the multi-ticker branch over the first `k`
      uncached tickers. */
  function StoreColumns(files: map<string, CacheFile>, now: real, ts: seq<string>, k: nat,
                        columns: map<string, Series>, start: int, end: int): map<string, CacheFile>
    requires k <= |ts|
  {
    if k == 0 then files
    else
      var f := StoreColumns(files, now, ts, k - 1, columns, start, end);
      var t := ts[k - 1];
      if t in columns && |columns[t]| > 0 then Store(f, now, t, start, end, columns[t]) else f
  }

  /** clear_cache part way through the listing: the files still `pending`
      are kept, the others only when they are not expired `.pkl` files. */
  function PurgeExcept(files: map<string, CacheFile>, cutoff: real, pending: set<string>): map<string, CacheFile> {
    map f | f in files && (f in pending || !(EndsWith(f, ".pkl") && files[f].mtime < cutoff)) :: files[f]
  }

  /** Before any file is decided nothing is gone; once all are, the stale
      pickles are. */
  lemma PurgeExceptEnds(files: map<string, CacheFile>, cutoff: real)
    ensures PurgeExcept(files, cutoff, files.Keys) == files
    ensures PurgeExcept(files, cutoff, {}) == Purge(files, cutoff)
  {
  }

  /** Deciding one more pending file: it goes exactly when it is a stale
      pickle, and every other entry stays as it was. */
  lemma PurgeExceptStep(files: map<string, CacheFile>, cutoff: real, pending: set<string>, f: string)
    requires f in pending && pending <= files.Keys
    ensures var cur := PurgeExcept(files, cutoff, pending);
      && f in cur && cur[f] == files[f]
      && PurgeExcept(files, cutoff, pending - {f})
         == if EndsWith(f, ".pkl") && files[f].mtime < cutoff then cur - {f} else cur
  {
  }

  /** Removing a present file leaves one file fewer. */
  lemma RemoveOne(files: map<string, CacheFile>, f: string)
    requires f in files
    ensures |files - {f}| == |files| - 1
  {
    assert (files - {f}).Keys == files.Keys - {f};
    assert files.Keys == (files.Keys - {f}) + {f};
  }

  /** What one bulk batch adds to the results: the cache hits, then, when
      some tickers missed, what the bulk call delivered for them. */
  function BulkOutcome(hits: map<string, Series>, uncached: seq<string>, reply: BulkReply)
    : (r: map<string, Series>)
    requires reply.Frame?
    ensures forall t :: t in hits ==> t in r
    ensures forall t :: t in r ==> t in hits || t in uncached
  {
    if |reply.rows| == 0 then hits
    else if |uncached| == 1 then hits[uncached[0] := reply.rows]
    else
      FromColumnsSpec(hits, uncached, |uncached|, reply.columns);
      assert uncached[..|uncached|] == uncached;
      FromColumns(hits, uncached, |uncached|, reply.columns)
  }

  /** The cache directory after a frame for the misses came back: untouched
      when the frame is empty, the whole frame under a single miss's key,
      and otherwise every miss's non-empty column under its own key. */
  function FrameFiles(files: map<string, CacheFile>, now: real, misses: seq<string>, start: int, end: int,
                      reply: BulkReply): map<string, CacheFile>
    requires reply.Frame?
  {
    if |reply.rows| == 0 then files
    else if |misses| == 1 then Store(files, now, misses[0], start, end, reply.rows)
    else StoreColumns(files, now, misses, |misses|, reply.columns, start, end)
  }

  /** The column writes of the multi-ticker branch touch only the
      uncached tickers' files, and each kept column is the one its file
      now holds. */
  lemma {:induction false} ColumnsCached(files: map<string, CacheFile>, now: real, ts: seq<string>, k: nat,
                                         columns: map<string, Series>, hits: map<string, Series>,
                                         start: int, end: int)
    requires k <= |ts|
    ensures var f := StoreColumns(files, now, ts, k, columns, start, end);
      && f - Paths(ts[..k], start, end) == files - Paths(ts[..k], start, end)
      && (CachedIn(files, hits, start, end) ==> CachedIn(f, FromColumns(hits, ts, k, columns), start, end))
  {
    if k > 0 {
      ColumnsCached(files, now, ts, k - 1, columns, hits, start, end);
      var f0 := StoreColumns(files, now, ts, k - 1, columns, start, end);
      var f := StoreColumns(files, now, ts, k, columns, start, end);
      var r0 := FromColumns(hits, ts, k - 1, columns);
      var t := ts[k - 1];
      var kept := if t in columns && |columns[t]| > 0 then Some(columns[t]) else None;
      assert f == if kept.Some? then Store(f0, now, t, start, end, kept.value) else f0;
      if CachedIn(files, hits, start, end) {
        CachedInUpdate(f0, f, r0, t, kept, start, end);
      }
      PathsStep(ts, k - 1, start, end);
      FrameWiden(files, f0, f, Paths(ts[..k - 1], start, end), {CachePath(t, start, end)}, Paths(ts[..k], start, end));
    }
  }

  /** What a frame for the misses writes touches only the misses' files,
      and every series the batch keeps is the one its file holds. */
  lemma FrameCached(files: map<string, CacheFile>, now: real, misses: seq<string>, start: int, end: int,
                    reply: BulkReply, hits: map<string, Series>)
    requires reply.Frame? && misses != []
    ensures var f := FrameFiles(files, now, misses, start, end, reply);
      && f - Paths(misses, start, end) == files - Paths(misses, start, end)
      && (CachedIn(files, hits, start, end) ==> CachedIn(f, BulkOutcome(hits, misses, reply), start, end))
  {
    if |reply.rows| > 0 {
      if |misses| == 1 {
        var f := Store(files, now, misses[0], start, end, reply.rows);
        if CachedIn(files, hits, start, end) {
          CachedInUpdate(files, f, hits, misses[0], Some(reply.rows), start, end);
        }
        PathsStep(misses, 0, start, end);
        assert misses[..1] == misses;
        FrameWiden(files, files, f, {}, {CachePath(misses[0], start, end)}, Paths(misses, start, end));
      } else {
        ColumnsCached(files, now, misses, |misses|, reply.columns, hits, start, end);
        assert misses[..|misses|] == misses;
      }
    }
  }

  /** Number of inter-batch pauses: one after every batch but the last. */
  function PauseCount(ts: seq<string>, size: nat): nat
    requires size > 0
  {
    if ts == [] then 0 else |Batches(ts, size)| - 1
  }

  // ---------------------------------------------------------------------
  // Price on a date

  function Abs(x: int): nat {
    if x < 0 then -x else x
  }

  /** The target of get_stock_price_on_date: its date, and whether it
      carries a time of day past midnight (a `datetime.now()` or a parsed
      timestamp with a time part). */
  datatype Moment = Moment(day: int, afterMidnight: bool)

  /** `(row date - target).days`: a timedelta's day count is floored, so a
      target past midnight moves every difference down by one day. */
  function DayDiff(b: Bar, target: Moment): int {
    b.day - target.day - (if target.afterMidnight then 1 else 0)
  }

  function Dist(b: Bar, target: Moment): nat {
    Abs(DayDiff(b, target))
  }

  /** The first row dated exactly `target`, if any. */
  function FirstExact(s: Series, target: int): (r: Option<nat>)
    ensures r.Some? ==> r.value < |s| && s[r.value].day == target
                        && forall j :: 0 <= j < r.value ==> s[j].day != target
    ensures r.None? ==> forall j :: 0 <= j < |s| ==> s[j].day != target
  {
    if s == [] then None
    else if s[0].day == target then Some(0)
    else match FirstExact(s[1..], target)
      case Some(i) => Some(i + 1)
      case None => None
  }

  /** idxmin of the day distance: the first row among the nearest ones. */
  function Nearest(s: Series, target: Moment): (r: nat)
    requires |s| > 0
    ensures r < |s|
    ensures forall j :: 0 <= j < |s| ==> Dist(s[r], target) <= Dist(s[j], target)
    ensures forall j :: 0 <= j < r ==> Dist(s[j], target) > Dist(s[r], target)
    decreases |s|
  {
    if |s| == 1 then 0
    else
      var k := Nearest(s[..|s| - 1], target);
      if Dist(s[|s| - 1], target) < Dist(s[k], target) then |s| - 1 else k
  }

  /** The row get_stock_price_on_date reads: an exact match of the date
      first, the nearest row otherwise. */
  function PickRow(s: Series, target: Moment): (r: nat)
    requires |s| > 0
    ensures r < |s|
    ensures (exists j :: 0 <= j < |s| && s[j].day == target.day) ==> s[r].day == target.day
    ensures FirstExact(s, target.day).Some? ==> r == FirstExact(s, target.day).value
  {
    match FirstExact(s, target.day)
    case Some(i) => i
    case None => Nearest(s, target)
  }

  /** For a midnight target the exact-match branch only ever agrees with
      the nearest-row branch: the row picked is the first row at minimal
      distance. Without a row on the target's date it is so for any target. */
  lemma PickRowIsFirstNearest(s: Series, target: Moment)
    requires |s| > 0
    ensures !target.afterMidnight ==> PickRow(s, target) == Nearest(s, target)
    ensures (forall j :: 0 <= j < |s| ==> s[j].day != target.day) ==> PickRow(s, target) == Nearest(s, target)
  {
    var k := Nearest(s, target);
    match FirstExact(s, target.day)
    case Some(i) =>
      if !target.afterMidnight {
        assert Dist(s[k], target) <= Dist(s[i], target) == 0;
      }
    case None =>
  }

  /** A target past midnight is nearer, in floored days, to the row after
      it than to the row before: between a Friday and a Monday row, a
      Saturday-morning target reads Monday's close, and the same Saturday
      at midnight reads Friday's. */
  lemma LateTargetLeansForward()
    ensures PriceOnDate(Some([Bar(4, 10.0), Bar(7, 20.0)]), Moment(5, true)) == Some(20.0)
    ensures PriceOnDate(Some([Bar(4, 10.0), Bar(7, 20.0)]), Moment(5, false)) == Some(10.0)
  {
  }

  /** The closing price get_stock_price_on_date returns for a window. */
  function PriceOnDate(data: Option<Series>, target: Moment): (p: Option<real>)
    ensures p.Some? <==> data.Some? && |data.value| > 0
    ensures p.Some? ==> exists j :: 0 <= j < |data.value| && p.value == data.value[j].close
  {
    if data.Some? && |data.value| > 0 then Some(data.value[PickRow(data.value, target)].close) else None
  }

  function Repeat(c: Call, n: nat): (r: seq<Call>)
    ensures |r| == n
  {
    if n == 0 then [] else Repeat(c, n - 1) + [c]
  }

  // ---------------------------------------------------------------------
  // The fetcher

  class YFinanceHelper {
    const delayMin: real
    const delayMax: real
    /** `self.session`: _setup_session always installs one. */
    const hasSession: bool
    const supportsShowErrors: bool
    const supportsSession: bool
    const upstream: Upstream
    /** The successive values of random.random(). */
    const draw: nat -> Unit

    var files: map<string, CacheFile>
    var now: real
    var drawn: nat
    var requestCount: nat
    ghost var calls: seq<Call>
    /** Why the helper slept, in order. */
    ghost var pauses: seq<Pause>
    /** Every get_stock_data call, in order. */
    ghost var fetches: seq<Fetch>

    /** The request counter counts the logged requests and every readable
        cache file holds a non-empty series. */
    ghost predicate Valid()
      reads this
    {
      && |calls| == requestCount
      && 0.0 <= delayMin && 0.0 <= delayMax
      && NonEmptyEntries(files)
    }

    constructor (existing: map<string, CacheFile>, clock: real, probe: Probe, upstream: Upstream,
                 draw: nat -> Unit, delayMin: real := 0.5, delayMax: real := 2.0)
      requires 0.0 <= delayMin && 0.0 <= delayMax
      requires NonEmptyEntries(existing)
      ensures Valid()
      ensures files == existing && now == clock && calls == [] && pauses == [] && fetches == []
      ensures this.delayMin == delayMin && this.delayMax == delayMax && hasSession
      ensures (supportsShowErrors, supportsSession) == CompatibilityFlags(probe)
      ensures this.upstream == upstream && this.draw == draw
    {
      this.delayMin := delayMin;
      this.delayMax := delayMax;
      this.hasSession := true;
      var flags := CompatibilityFlags(probe);
      this.supportsShowErrors := flags.0;
      this.supportsSession := flags.1;
      this.upstream := upstream;
      this.draw := draw;
      files := existing;
      now := clock;
      drawn := 0;
      requestCount := 0;
      calls := [];
      pauses := [];
      fetches := [];
    }

    /** _get_download_kwargs: a copy of the base arguments with the optional
        ones the capabilities allow. */
    method DownloadKwargs(base: Kwargs) returns (kw: Kwargs)
      ensures kw == Adapt(base, supportsShowErrors, supportsSession && hasSession)
    {
      kw := base;
      if supportsShowErrors {
        kw := kw[ShowErrorsArg := Flag(false)];
      }
      if supportsSession && hasSession {
        kw := kw[SessionArg := SessionObject];
      }
    }

    function LoadFromCache(ticker: string, start: int, end: int): Option<Series>
      reads this
    {
      Lookup(files, now, ticker, start, end)
    }

    method SaveToCache(ticker: string, start: int, end: int, data: Series)
      requires Valid() && |data| > 0
      modifies this`files
      ensures Valid()
      ensures files == Store(old(files), now, ticker, start, end, data)
    {
      files := files[CachePath(ticker, start, end) := CacheFile(Some(data), now)];
    }

    /** random.uniform(lo, hi). */
    method Uniform(lo: real, hi: real) returns (v: real)
      requires Valid()
      modifies this`drawn
      ensures Valid()
      ensures drawn == old(drawn) + 1
      ensures v == Lerp(lo, hi, draw(old(drawn))) && Between(v, lo, hi)
    {
      var u := draw(drawn);
      v := lo + (hi - lo) * u;
      LerpBetween(lo, hi, u);
      drawn := drawn + 1;
    }

    /** time.sleep(seconds), logged with its reason; the duration must be
        what the reason allows. */
    method PauseFor(reason: Pause, seconds: real)
      requires SleepOk(reason, seconds, delayMin, delayMax)
      modifies this`now, this`pauses
      ensures pauses == old(pauses) + [reason] && now == old(now) + seconds
    {
      pauses := pauses + [reason];
      now := now + seconds;
    }

    /** _random_delay. */
    method RandomDelay()
      requires Valid()
      modifies this`now, this`pauses, this`drawn
      ensures Valid()
      ensures pauses == old(pauses) + [Jitter] && old(now) <= now
      ensures drawn == old(drawn) + 1
      ensures now == old(now) + Lerp(delayMin, delayMax, draw(old(drawn)))
      ensures Between(now - old(now), delayMin, delayMax)
      ensures Waits(pauses) == Waits(old(pauses)) && CountJitter(pauses) == CountJitter(old(pauses)) + 1
    {
      var d := Uniform(delayMin, delayMax);
      PauseFor(Jitter, d);
      WaitsAppend(old(pauses), [Jitter]);
      assert [Jitter][..0] == [];
    }

    /** The call a single-ticker download makes. */
    function SingleCall(ticker: string, start: int, end: int): Call {
      Call([ticker], start, end, Adapt(SingleBase(start, end), supportsShowErrors, supportsSession && hasSession))
    }

    /** One pass of get_stock_data's retry loop: the random delay before a
        retry, one download, caching a non-empty result, and the sleep an
        error calls for; `stop` is the `break` after a plain error on the
        last attempt. */

    method Attempt(ticker: string, start: int, end: int, attempt: nat, maxRetries: int)
      returns (reply: Reply, stop: bool)
      requires Valid()
      modifies this`files, this`now, this`pauses, this`drawn, this`calls, this`requestCount
      ensures Valid() && old(now) <= now
      ensures reply == SingleAnswer(upstream, ticker, start, end, old(requestCount))
      ensures requestCount == old(requestCount) + 1
      ensures calls == old(calls) + [SingleCall(ticker, start, end)]
      ensures pauses == old(pauses) + StepPauses(attempt, reply, maxRetries)
      ensures Succeeded(reply) ==> files == Store(old(files), now, ticker, start, end, reply.rows)
      ensures !Succeeded(reply) ==> files == old(files)
      ensures stop <==> reply.Raised? && !RateLimited(reply.message) && attempt >= maxRetries - 1
    {
      if attempt > 0 {
        RandomDelay();
      }
      var kwargs := DownloadKwargs(SingleBase(start, end));
      reply := SingleAnswer(upstream, ticker, start, end, requestCount);
      calls := calls + [Call([ticker], start, end, kwargs)];
      requestCount := requestCount + 1;
      stop := HandleReply(ticker, start, end, attempt, maxRetries, reply);
      AppendAssoc(old(pauses), if attempt > 0 then [Jitter] else [], ReplyPauses(attempt, reply, maxRetries));
    }

    /** What one attempt does with the upstream's reply: cache a non-empty
        series, back off after a rate-limit error, wait a second after any
        other error unless it was the last attempt, and on that one stop. */
    method HandleReply(ticker: string, start: int, end: int, attempt: nat, maxRetries: int, reply: Reply)
      returns (stop: bool)
      requires Valid()
      modifies this`files, this`now, this`pauses, this`drawn
      ensures Valid() && old(now) <= now
      ensures pauses == old(pauses) + ReplyPauses(attempt, reply, maxRetries)
      ensures Succeeded(reply) ==> files == Store(old(files), now, ticker, start, end, reply.rows)
      ensures !Succeeded(reply) ==> files == old(files)
      ensures stop <==> reply.Raised? && !RateLimited(reply.message) && attempt >= maxRetries - 1
      ensures reply.Raised? && RateLimited(reply.message) ==>
        Pow2(attempt) as real + 1.0 <= now - old(now) <= Pow2(attempt) as real + 3.0
      ensures reply.Raised? && !RateLimited(reply.message) && attempt < maxRetries - 1 ==> now == old(now) + 1.0
      ensures reply.Rows? || stop ==> now == old(now)
    {
      stop := false;
      match reply {
        case Rows(rows) =>
          if |rows| > 0 {
            SaveToCache(ticker, start, end, rows);
          }
        case Raised(message) =>
          if RateLimited(message) {
            var wait := Uniform(1.0, 3.0);
            PauseFor(Backoff(attempt), Pow2(attempt) as real + wait);
          } else if attempt < maxRetries - 1 {
            PauseFor(ErrorWait, 1.0);
          } else {
            stop := true;
          }
      }
    }

    /** One pass of the retry loop, checked against the replies the
        upstream gives from request `k0` on. */
    method RetryAttempt(ticker: string, start: int, end: int, maxRetries: int, attempt: nat,
                        ghost replies: seq<Reply>, ghost k0: nat, ghost calls0: seq<Call>, ghost pauses0: seq<Pause>)
      returns (reply: Reply, stop: bool)
      requires Valid() && attempt < maxRetries
      requires replies == Replies(upstream, ticker, start, end, k0, maxRetries) && requestCount == k0 + attempt
      requires calls == calls0 + Repeat(SingleCall(ticker, start, end), attempt)
      requires pauses == pauses0 + RetryPauses(replies, attempt, maxRetries)
      requires NoneSucceeded(replies, attempt)
      modifies this`files, this`now, this`pauses, this`drawn, this`calls, this`requestCount
      ensures Valid() && old(now) <= now && requestCount == k0 + attempt + 1
      ensures reply == replies[attempt]
      ensures Succeeded(reply) ==>
        AttemptsUsed(replies) == attempt + 1 && RetryResult(replies) == Some(reply.rows)
        && LoadFromCache(ticker, start, end) == Some(reply.rows)
      ensures !Succeeded(reply) ==> NoneSucceeded(replies, attempt + 1)
      ensures stop ==> AttemptsUsed(replies) == attempt + 1 && RetryResult(replies) == None
      ensures calls == calls0 + Repeat(SingleCall(ticker, start, end), attempt + 1)
      ensures pauses == pauses0 + RetryPauses(replies, attempt + 1, maxRetries)
      ensures Succeeded(reply) ==> files == Store(old(files), now, ticker, start, end, reply.rows)
      ensures !Succeeded(reply) ==> files == old(files)
      ensures stop <==> reply.Raised? && !RateLimited(reply.message) && attempt >= maxRetries - 1
    {
      reply, stop := Attempt(ticker, start, end, attempt, maxRetries);
      RepliesAt(upstream, ticker, start, end, k0, maxRetries, attempt);
      AppendAssoc(pauses0, RetryPauses(replies, attempt, maxRetries), StepPauses(attempt, reply, maxRetries));
      AppendAssoc(calls0, Repeat(SingleCall(ticker, start, end), attempt), [SingleCall(ticker, start, end)]);
      if Succeeded(reply) {
        FirstSuccessOutcome(replies, attempt);
        LookupAfterStore(old(files), now, ticker, start, end, reply.rows);
      } else if stop {
        NoSuccessOutcome(replies);
      }
    }

    /** The retry loop of get_stock_data, entered on a cache miss. */
    method DownloadWithRetries(ticker: string, start: int, end: int, maxRetries: int) returns (data: Option<Series>)
      requires Valid()
      modifies this`files, this`now, this`pauses, this`drawn, this`calls, this`requestCount
      ensures Valid() && old(now) <= now
      ensures data.Some? ==> |data.value| > 0 && LoadFromCache(ticker, start, end) == data
      ensures var replies := Replies(upstream, ticker, start, end, old(requestCount), maxRetries);
        var used := AttemptsUsed(replies);
        && data == RetryResult(replies)
        && calls == old(calls) + Repeat(SingleCall(ticker, start, end), used)
        && pauses == old(pauses) + RetryPauses(replies, used, maxRetries)
        && (data.Some? ==> files == Store(old(files), now, ticker, start, end, data.value))
        && (data.None? ==> files == old(files))
    {
      ghost var replies := Replies(upstream, ticker, start, end, requestCount, maxRetries);
      ghost var call := SingleCall(ticker, start, end);
      ghost var k0 := requestCount;
      var attempt := 0;
      while attempt < maxRetries
        invariant 0 <= attempt <= |replies|
        invariant Valid() && files == old(files) && old(now) <= now
        invariant requestCount == k0 + attempt
        invariant calls == old(calls) + Repeat(call, attempt)
        invariant NoneSucceeded(replies, attempt)
        invariant pauses == old(pauses) + RetryPauses(replies, attempt, maxRetries)
      {
        var reply, stop := RetryAttempt(ticker, start, end, maxRetries, attempt, replies, k0, old(calls), old(pauses));
        if Succeeded(reply) {
          return Some(reply.rows);
        }
        if stop {
          // `break` on the last attempt: straight to the final `return None`
          return None;
        }
        attempt := attempt + 1;
      }
      NoSuccessOutcome(replies);
      return None;
    }

    /** get_stock_data: the cached series when there is a fresh one;
        otherwise up to `maxRetries` single-ticker downloads, returning and
        caching the first non-empty series. */
    method GetStockData(ticker: string, start: int, end: int, maxRetries: int := DefaultMaxRetries) returns (data: Option<Series>)
      requires Valid()
      modifies this`files, this`now, this`pauses, this`drawn, this`calls, this`requestCount, this`fetches
      ensures Valid() && old(now) <= now
      ensures fetches == old(fetches) + [Fetch(ticker, data)]
      ensures data.Some? ==> |data.value| > 0 && LoadFromCache(ticker, start, end) == data
      ensures data.None? ==> LoadFromCache(ticker, start, end).None? && files == old(files)
      ensures Waits(pauses) == Waits(old(pauses))
      ensures CountJitter(pauses) >= CountJitter(old(pauses))
      ensures old(LoadFromCache(ticker, start, end)).Some? ==>
        data == old(LoadFromCache(ticker, start, end)) && calls == old(calls)
        && files == old(files) && pauses == old(pauses) && now == old(now)
      ensures old(LoadFromCache(ticker, start, end)).None? ==>
        var replies := Replies(upstream, ticker, start, end, old(requestCount), maxRetries);
        var used := AttemptsUsed(replies);
        && data == RetryResult(replies)
        && calls == old(calls) + Repeat(SingleCall(ticker, start, end), used)
        && pauses == old(pauses) + RetryPauses(replies, used, maxRetries)
        && (data.Some? ==> files == Store(old(files), now, ticker, start, end, data.value))
        && (data.None? ==> files == old(files))
    {
      var cached := LoadFromCache(ticker, start, end);
      if cached.Some? {
        data := cached;
      } else {
        ghost var replies := Replies(upstream, ticker, start, end, requestCount, maxRetries);
        ghost var before := pauses;
        data := DownloadWithRetries(ticker, start, end, maxRetries);
        WaitsAppend(before, RetryPauses(replies, AttemptsUsed(replies), maxRetries));
        RetryHasNoBatchWait(replies, AttemptsUsed(replies), maxRetries);
        if data.None? {
          MissStaysMiss(files, old(now), now, ticker, start, end);
        }
      }
      fetches := fetches + [Fetch(ticker, data)];
    }

    /** get_stock_price_on_date: the close get_stock_data's series has on
        the target day, or at the nearest day, over the window of
        `daysBuffer` days on either side. */
    method GetStockPriceOnDate(ticker: string, target: Moment, daysBuffer: int := DefaultDaysBuffer) returns (price: Option<real>)
      requires Valid()
      modifies this`files, this`now, this`pauses, this`drawn, this`calls, this`requestCount, this`fetches
      ensures Valid()
      ensures |fetches| == |old(fetches)| + 1 && fetches[..|old(fetches)|] == old(fetches)
      ensures fetches[|old(fetches)|].ticker == ticker
      ensures price == PriceOnDate(fetches[|old(fetches)|].data, target)
      ensures price == PriceOnDate(LoadFromCache(ticker, target.day - daysBuffer, target.day + daysBuffer), target)
      ensures old(now) <= now && Waits(pauses) == Waits(old(pauses))
      ensures var lo, hi := target.day - daysBuffer, target.day + daysBuffer;
        old(LoadFromCache(ticker, lo, hi)).Some? ==>
          fetches[|old(fetches)|].data == old(LoadFromCache(ticker, lo, hi)) && calls == old(calls)
          && files == old(files) && pauses == old(pauses) && now == old(now)
      ensures var lo, hi := target.day - daysBuffer, target.day + daysBuffer;
        var replies := Replies(upstream, ticker, lo, hi, old(requestCount), DefaultMaxRetries);
        old(LoadFromCache(ticker, lo, hi)).None? ==>
          && fetches[|old(fetches)|].data == RetryResult(replies)
          && (RetryResult(replies).Some? ==> files == Store(old(files), now, ticker, lo, hi, RetryResult(replies).value))
          && (RetryResult(replies).None? ==> files == old(files))
      ensures var lo, hi := target.day - daysBuffer, target.day + daysBuffer;
        var replies := Replies(upstream, ticker, lo, hi, old(requestCount), DefaultMaxRetries);
        old(LoadFromCache(ticker, lo, hi)).None? ==>
          calls == old(calls) + Repeat(SingleCall(ticker, lo, hi), AttemptsUsed(replies))
      ensures var lo, hi := target.day - daysBuffer, target.day + daysBuffer;
        var replies := Replies(upstream, ticker, lo, hi, old(requestCount), DefaultMaxRetries);
        old(LoadFromCache(ticker, lo, hi)).None? ==>
          pauses == old(pauses) + RetryPauses(replies, AttemptsUsed(replies), DefaultMaxRetries)
    {
      var lo, hi := target.day - daysBuffer, target.day + daysBuffer;
      ghost var hit := LoadFromCache(ticker, lo, hi);
      ghost var replies := Replies(upstream, ticker, lo, hi, requestCount, DefaultMaxRetries);
      var data := GetStockData(ticker, lo, hi);
      assert fetches[|old(fetches)|] == Fetch(ticker, data);
      assert LoadFromCache(ticker, lo, hi) == data;
      if hit.None? {
        assert data == RetryResult(replies);
        assert calls == old(calls) + Repeat(SingleCall(ticker, lo, hi), AttemptsUsed(replies));
        assert pauses == old(pauses) + RetryPauses(replies, AttemptsUsed(replies), DefaultMaxRetries);
      }
      price := PriceOnDate(data, target);
    }

    /** The cache pass of a bulk batch: hits go into the results, misses
        into `uncached_tickers`, both in batch order. */
    method SplitByCache(batch: seq<string>, start: int, end: int, results: map<string, Series>)
      returns (r: map<string, Series>, uncached: seq<string>)
      requires Valid() && NonEmptyValues(results)
      ensures NonEmptyValues(r)
      ensures r == CacheHits(results, files, now, batch, |batch|, start, end)
      ensures uncached == Misses(files, now, batch, |batch|, start, end)
    {
      r := results;
      uncached := [];
      var j := 0;
      while j < |batch|
        invariant j <= |batch| && NonEmptyValues(r)
        invariant r == CacheHits(results, files, now, batch, j, start, end)
        invariant uncached == Misses(files, now, batch, j, start, end)
      {
        r, uncached := SplitOne(batch, j, start, end, results, r, uncached);
        j := j + 1;
      }
    }

    /** One ticker of the cache pass: a hit goes into the results, a miss
        onto `uncached_tickers`. */
    method SplitOne(batch: seq<string>, j: nat, start: int, end: int, results: map<string, Series>,
                    r0: map<string, Series>, uncached0: seq<string>)
      returns (r: map<string, Series>, uncached: seq<string>)
      requires Valid() && j < |batch| && NonEmptyValues(r0)
      requires r0 == CacheHits(results, files, now, batch, j, start, end)
      requires uncached0 == Misses(files, now, batch, j, start, end)
      ensures NonEmptyValues(r)
      ensures r == CacheHits(results, files, now, batch, j + 1, start, end)
      ensures uncached == Misses(files, now, batch, j + 1, start, end)
    {
      var cached := LoadFromCache(batch[j], start, end);
      SplitStep(results, files, now, batch, j, start, end);
      LookupNonEmpty(files, now, batch[j], start, end);
      NonEmptyValuesUpdate(r0, batch[j], cached);
      r := if cached.Some? then r0[batch[j] := cached.value] else r0;
      uncached := uncached0 + (if cached.None? then [batch[j]] else []);
    }

    /** The multi-ticker branch: every uncached ticker with a non-empty
        column is put into the results and cached. */
    method SaveColumns(uncached: seq<string>, start: int, end: int, columns: map<string, Series>,
                       results: map<string, Series>) returns (r: map<string, Series>)
      requires Valid() && NonEmptyValues(results)
      modifies this`files
      ensures Valid() && NonEmptyValues(r)
      ensures r == FromColumns(results, uncached, |uncached|, columns)
      ensures files == StoreColumns(old(files), now, uncached, |uncached|, columns, start, end)
    {
      r := results;
      var j := 0;
      while j < |uncached|
        invariant j <= |uncached| && Valid() && NonEmptyValues(r)
        invariant r == FromColumns(results, uncached, j, columns)
        invariant files == StoreColumns(old(files), now, uncached, j, columns, start, end)
      {
        var t := uncached[j];
        if t in columns {
          var tickerData := columns[t];
          if |tickerData| > 0 {
            r := r[t := tickerData];
            SaveToCache(t, start, end, tickerData);
          }
        }
        j := j + 1;
      }
    }

    /** One pass of the per-ticker loop below: get_stock_data with the
        default retry budget, the series kept when there is one, then a
        random delay. */
    method FetchOne(ticker: string, start: int, end: int, results: map<string, Series>)
      returns (r: map<string, Series>, ghost f: Fetch)
      requires Valid() && NonEmptyValues(results)
      modifies this`files, this`now, this`pauses, this`drawn, this`calls, this`requestCount, this`fetches
      ensures Valid() && NonEmptyValues(r)
      ensures fetches == old(fetches) + [f] && f.ticker == ticker
      ensures |calls| >= |old(calls)| && calls[..|old(calls)|] == old(calls)
      ensures f.data.Some? ==> r == results[ticker := f.data.value]
      ensures f.data.None? ==> r == results
      ensures Waits(pauses) == Waits(old(pauses))
      ensures |pauses| > |old(pauses)| && pauses[|pauses| - 1] == Jitter
      ensures CountJitter(pauses) >= CountJitter(old(pauses)) + 1
      ensures old(LoadFromCache(ticker, start, end)).Some? ==>
        f.data == old(LoadFromCache(ticker, start, end)) && calls == old(calls) && files == old(files)
      ensures old(LoadFromCache(ticker, start, end)).None? ==>
        var replies := Replies(upstream, ticker, start, end, old(requestCount), DefaultMaxRetries);
        f.data == RetryResult(replies)
        && calls == old(calls) + Repeat(SingleCall(ticker, start, end), AttemptsUsed(replies))
      ensures files - {CachePath(ticker, start, end)} == old(files) - {CachePath(ticker, start, end)}
      ensures f.data.None? ==> files == old(files)
      ensures f.data.Some? ==> CachePath(ticker, start, end) in files
                               && files[CachePath(ticker, start, end)].data == f.data
      ensures CachedIn(old(files), results, start, end) ==> CachedIn(files, r, start, end)
    {
      r, f := FetchKeep(ticker, start, end, results);
      RandomDelay();
    }

    /** The get_stock_data half of a pass: the series goes into the results
        and is the one its cache file holds. */
    method FetchKeep(ticker: string, start: int, end: int, results: map<string, Series>)
      returns (r: map<string, Series>, ghost f: Fetch)
      requires Valid() && NonEmptyValues(results)
      modifies this`files, this`now, this`pauses, this`drawn, this`calls, this`requestCount, this`fetches
      ensures Valid() && NonEmptyValues(r)
      ensures fetches == old(fetches) + [f] && f.ticker == ticker
      ensures |calls| >= |old(calls)| && calls[..|old(calls)|] == old(calls)
      ensures f.data.Some? ==> r == results[ticker := f.data.value]
      ensures f.data.None? ==> r == results
      ensures Waits(pauses) == Waits(old(pauses)) && |pauses| >= |old(pauses)|
      ensures CountJitter(pauses) >= CountJitter(old(pauses))
      ensures old(LoadFromCache(ticker, start, end)).Some? ==>
        f.data == old(LoadFromCache(ticker, start, end)) && calls == old(calls) && files == old(files)
      ensures old(LoadFromCache(ticker, start, end)).None? ==>
        var replies := Replies(upstream, ticker, start, end, old(requestCount), DefaultMaxRetries);
        f.data == RetryResult(replies)
        && calls == old(calls) + Repeat(SingleCall(ticker, start, end), AttemptsUsed(replies))
      ensures files - {CachePath(ticker, start, end)} == old(files) - {CachePath(ticker, start, end)}
      ensures f.data.None? ==> files == old(files)
      ensures f.data.Some? ==> CachePath(ticker, start, end) in files
                               && files[CachePath(ticker, start, end)].data == f.data
      ensures CachedIn(old(files), results, start, end) ==> CachedIn(files, r, start, end)
    {
      var data := GetStockData(ticker, start, end);
      f := Fetch(ticker, data);
      NonEmptyValuesUpdate(results, ticker, data);
      r := if data.Some? then results[ticker := data.value] else results;
      if CachedIn(old(files), results, start, end) {
        CachedInUpdate(old(files), files, results, ticker, data, start, end);
      }
    }

    /** The per-ticker loop of _batch_download_individual, which is also the
        fallback of a bulk batch whose download raised: get_stock_data for
        every ticker, keeping what it returns, then a random delay. */
    method FetchEach(ts: seq<string>, start: int, end: int, results: map<string, Series>)
      returns (r: map<string, Series>, ghost got: seq<Fetch>)
      requires Valid() && NonEmptyValues(results)
      modifies this`files, this`now, this`pauses, this`drawn, this`calls, this`requestCount, this`fetches
      ensures Valid() && NonEmptyValues(r)
      ensures fetches == old(fetches) + got && Tickers(got) == ts
      ensures r == Collect(results, got)
      ensures |calls| >= |old(calls)| && calls[..|old(calls)|] == old(calls)
      ensures Waits(pauses) == Waits(old(pauses))
      ensures CountJitter(pauses) >= CountJitter(old(pauses)) + |ts|
      ensures files - Paths(ts, start, end) == old(files) - Paths(ts, start, end)
      ensures CachedIn(old(files), results, start, end) ==> CachedIn(files, r, start, end)
    {
      r := results;
      got := [];
      var j := 0;
      while j < |ts|
        invariant j <= |ts| && Valid() && NonEmptyValues(r)
        invariant fetches == old(fetches) + got && Tickers(got) == ts[..j]
        invariant |calls| >= |old(calls)| && calls[..|old(calls)|] == old(calls)
        invariant r == Collect(results, got)
        invariant Waits(pauses) == Waits(old(pauses))
        invariant CountJitter(pauses) >= CountJitter(old(pauses)) + j
        invariant files - Paths(ts[..j], start, end) == old(files) - Paths(ts[..j], start, end)
        invariant CachedIn(old(files), results, start, end) ==> CachedIn(files, r, start, end)
      {
        ghost var f;
        r, f := FetchStep(ts, j, start, end, results, r, got, old(files), old(calls), old(pauses));
        got := got + [f];
        j := j + 1;
      }
      assert ts[..j] == ts;
    }

    /** Pass `j` of the per-ticker loop, from the loop's state before it
        (`files0`, `calls0`, `pauses0`) to the state after it. */
    method FetchStep(ts: seq<string>, j: nat, start: int, end: int, results: map<string, Series>,
                     r0: map<string, Series>, ghost got: seq<Fetch>, ghost files0: map<string, CacheFile>,
                     ghost calls0: seq<Call>, ghost pauses0: seq<Pause>)
      returns (r: map<string, Series>, ghost f: Fetch)
      requires Valid() && j < |ts| && NonEmptyValues(r0)
      requires Tickers(got) == ts[..j] && r0 == Collect(results, got)
      requires |calls| >= |calls0| && calls[..|calls0|] == calls0
      requires Waits(pauses) == Waits(pauses0) && CountJitter(pauses) >= CountJitter(pauses0) + j
      requires files - Paths(ts[..j], start, end) == files0 - Paths(ts[..j], start, end)
      requires CachedIn(files0, results, start, end) ==> CachedIn(files, r0, start, end)
      modifies this`files, this`now, this`pauses, this`drawn, this`calls, this`requestCount, this`fetches
      ensures Valid() && NonEmptyValues(r)
      ensures fetches == old(fetches) + [f]
      ensures Tickers(got + [f]) == ts[..j + 1] && r == Collect(results, got + [f])
      ensures |calls| >= |calls0| && calls[..|calls0|] == calls0
      ensures Waits(pauses) == Waits(pauses0) && CountJitter(pauses) >= CountJitter(pauses0) + j + 1
      ensures files - Paths(ts[..j + 1], start, end) == files0 - Paths(ts[..j + 1], start, end)
      ensures CachedIn(files0, results, start, end) ==> CachedIn(files, r, start, end)
    {
      r, f := FetchOne(ts[j], start, end, r0);
      FetchedOne(results, got, f, ts, j);
      PrefixTrans(calls0, old(calls), calls);
      PathsStep(ts, j, start, end);
      FrameWiden(files0, old(files), files, Paths(ts[..j], start, end), {CachePath(ts[j], start, end)},
                 Paths(ts[..j + 1], start, end));
    }

    /** The call a multi-ticker download makes. */
    function BulkCall(tickers: seq<string>, start: int, end: int): Call {
      Call(tickers, start, end, Adapt(BulkBase(start, end), supportsShowErrors, supportsSession && hasSession))
    }

    /** One batch of _batch_download_bulk: the cache pass, then one
        multi-ticker download for the misses; a non-empty frame is split by
        ticker (or taken whole for a single miss), an empty one is dropped,
        and an exception falls back to get_stock_data per miss. */
    method BulkBatch(batch: seq<string>, start: int, end: int, results: map<string, Series>)
      returns (r: map<string, Series>, ghost uncached: seq<string>, ghost got: seq<Fetch>)
      requires Valid() && NonEmptyValues(results)
      modifies this`files, this`now, this`pauses, this`drawn, this`calls, this`requestCount, this`fetches
      ensures Valid() && NonEmptyValues(r)
      ensures forall t :: t in r ==> t in results || t in batch
      ensures uncached == Misses(old(files), old(now), batch, |batch|, start, end)
      ensures fetches == old(fetches) + got
      ensures Waits(pauses) == Waits(old(pauses))
      ensures var hits := CacheHits(results, old(files), old(now), batch, |batch|, start, end);
        var reply := BulkAnswer(upstream, uncached, start, end, old(requestCount));
        && (uncached == [] ==> r == hits && got == [] && calls == old(calls) && files == old(files)
                               && pauses == old(pauses) && now == old(now))
        && (uncached != [] ==> |calls| > |old(calls)| && calls[|old(calls)|] == BulkCall(uncached, start, end))
        && (uncached != [] && reply.Frame? ==>
              r == BulkOutcome(hits, uncached, reply) && got == [] && calls == old(calls) + [BulkCall(uncached, start, end)]
              && files == FrameFiles(old(files), old(now), uncached, start, end, reply)
              && pauses == old(pauses) && now == old(now))
        && (uncached != [] && reply.BulkRaised? ==> Tickers(got) == uncached && r == Collect(hits, got))
      ensures files - Paths(batch, start, end) == old(files) - Paths(batch, start, end)
      ensures CachedIn(old(files), results, start, end) ==> CachedIn(files, r, start, end)
    {
      var misses;
      r, misses := SplitByCache(batch, start, end, results);
      uncached := misses;
      got := [];
      CacheHitsSpec(results, files, now, batch, |batch|, start, end);
      MissesSpec(files, now, batch, |batch|, start, end);
      assert forall t :: t in misses ==> t in batch;
      assert batch[..|batch|] == batch;
      if CachedIn(files, results, start, end) {
        CacheHitsCached(results, files, now, batch, |batch|, start, end);
      }
      if misses == [] {
        return;
      }
      r, got := DownloadMisses(misses, start, end, r);
      PathsSub(misses, batch, start, end);
      FrameWiden(old(files), old(files), files, {}, Paths(misses, start, end), Paths(batch, start, end));
    }

    /** The download half of one bulk batch: a single yf.download call for
        the tickers the cache could not serve, with the per-ticker fallback
        when that call raises. */
    method DownloadMisses(misses: seq<string>, start: int, end: int, hits: map<string, Series>)
      returns (r: map<string, Series>, ghost got: seq<Fetch>)
      requires Valid() && NonEmptyValues(hits) && misses != []
      modifies this`files, this`now, this`pauses, this`drawn, this`calls, this`requestCount, this`fetches
      ensures Valid() && NonEmptyValues(r)
      ensures forall t :: t in r ==> t in hits || t in misses
      ensures fetches == old(fetches) + got
      ensures Waits(pauses) == Waits(old(pauses))
      ensures |calls| > |old(calls)| && calls[|old(calls)|] == BulkCall(misses, start, end)
      ensures var reply := BulkAnswer(upstream, misses, start, end, old(requestCount));
        && (reply.Frame? ==>
              r == BulkOutcome(hits, misses, reply) && got == [] && calls == old(calls) + [BulkCall(misses, start, end)]
              && files == FrameFiles(old(files), old(now), misses, start, end, reply)
              && pauses == old(pauses) && now == old(now))
        && (reply.BulkRaised? ==> Tickers(got) == misses && r == Collect(hits, got))
      ensures files - Paths(misses, start, end) == old(files) - Paths(misses, start, end)
      ensures CachedIn(old(files), hits, start, end) ==> CachedIn(files, r, start, end)
    {
      r := hits;
      got := [];
      var kwargs := DownloadKwargs(BulkBase(start, end));
      var reply := BulkAnswer(upstream, misses, start, end, requestCount);
      calls := calls + [Call(misses, start, end, kwargs)];
      requestCount := requestCount + 1;
      ghost var c := calls;
      if reply.Frame? {
        r := KeepFrame(misses, start, end, reply, r);
        FrameCached(old(files), now, misses, start, end, reply, hits);
      } else {
        r, got := FetchEach(misses, start, end, r);
        CollectKeys(hits, got);
        assert calls[..|c|] == c;
      }
    }

    /** What the bulk path keeps from a frame that came back: nothing when
        it is empty, the whole frame for a single ticker, and otherwise each
        ticker's non-empty column, each one also written to the cache. */
    method KeepFrame(misses: seq<string>, start: int, end: int, reply: BulkReply, hits: map<string, Series>)
      returns (r: map<string, Series>)
      requires Valid() && NonEmptyValues(hits) && misses != [] && reply.Frame?
      modifies this`files
      ensures Valid() && NonEmptyValues(r)
      ensures forall t :: t in r ==> t in hits || t in misses
      ensures r == BulkOutcome(hits, misses, reply)
      ensures files == FrameFiles(old(files), now, misses, start, end, reply)
    {
      r := hits;
      if |reply.rows| > 0 {
        if |misses| == 1 {
          r := r[misses[0] := reply.rows];
          SaveToCache(misses[0], start, end, reply.rows);
        } else {
          r := SaveColumns(misses, start, end, reply.columns, r);
          FromColumnsSpec(hits, misses, |misses|, reply.columns);
          assert misses[..|misses|] == misses;
        }
      }
    }

    /** The pause after a batch: `delay` seconds unless it was the last. */
    method PauseAfterBatch(more: bool, delay: real)
      requires delay >= 0.0
      modifies this`now, this`pauses
      ensures more ==> pauses == old(pauses) + [BatchWait(delay)] && now == old(now) + delay
      ensures !more ==> pauses == old(pauses) && now == old(now)
      ensures Waits(pauses) == Waits(old(pauses)) + (if more then 1 else 0)
    {
      if more {
        ghost var p := pauses;
        PauseFor(BatchWait(delay), delay);
        WaitsAppend(p, [BatchWait(delay)]);
        assert [BatchWait(delay)][..0] == [];
      }
    }

    /** One round of _batch_download_bulk: the batch `tickers[i..next]`,
        then the pause when tickers remain. */
    method BulkRound(tickers: seq<string>, i: nat, next: nat, start: int, end: int, delay: real,
                     results: map<string, Series>)
      returns (r: map<string, Series>, ghost uncached: seq<string>, ghost got: seq<Fetch>)
      requires Valid() && NonEmptyValues(results) && i <= next <= |tickers| && delay >= 0.0
      requires forall t :: t in results ==> t in tickers
      modifies this`files, this`now, this`pauses, this`drawn, this`calls, this`requestCount, this`fetches
      ensures Valid() && NonEmptyValues(r)
      ensures forall t :: t in r ==> t in tickers
      ensures Waits(pauses) == Waits(old(pauses)) + (if next < |tickers| then 1 else 0)
      ensures var batch := tickers[i..next];
        uncached == Misses(old(files), old(now), batch, |batch|, start, end)
      ensures fetches == old(fetches) + got
      ensures var batch := tickers[i..next];
        var hits := CacheHits(results, old(files), old(now), batch, |batch|, start, end);
        var reply := BulkAnswer(upstream, uncached, start, end, old(requestCount));
        && (uncached == [] ==> r == hits && got == [])
        && (uncached != [] && reply.Frame? ==> r == BulkOutcome(hits, uncached, reply) && got == [])
        && (uncached != [] && reply.BulkRaised? ==> Tickers(got) == uncached && r == Collect(hits, got))
      ensures files - Paths(tickers[i..next], start, end) == old(files) - Paths(tickers[i..next], start, end)
      ensures CachedIn(old(files), results, start, end) ==> CachedIn(files, r, start, end)
    {
      var batch := tickers[i..next];
      r, uncached, got := BulkBatch(batch, start, end, results);
      assert forall t :: t in batch ==> t in tickers;
      PauseAfterBatch(next < |tickers|, delay);
    }

    /** One round of _batch_download_individual: get_stock_data for each
        ticker of `tickers[i..next]`, then the pause when tickers remain. */
    method IndividualRound(tickers: seq<string>, i: nat, next: nat, start: int, end: int, delay: real,
                           results: map<string, Series>, ghost got: seq<Fetch>)
      returns (r: map<string, Series>, ghost g: seq<Fetch>)
      requires Valid() && NonEmptyValues(results) && i <= next <= |tickers| && delay >= 0.0
      requires results == Collect(map[], got) && Tickers(got) == tickers[..i]
      modifies this`files, this`now, this`pauses, this`drawn, this`calls, this`requestCount, this`fetches
      ensures Valid() && NonEmptyValues(r)
      ensures fetches == old(fetches) + g
      ensures r == Collect(map[], got + g) && Tickers(got + g) == tickers[..next]
      ensures Waits(pauses) == Waits(old(pauses)) + (if next < |tickers| then 1 else 0)
      ensures files - Paths(tickers[i..next], start, end) == old(files) - Paths(tickers[i..next], start, end)
      ensures CachedIn(old(files), results, start, end) ==> CachedIn(files, r, start, end)
    {
      r, g := FetchEach(tickers[i..next], start, end, results);
      BatchFetched(tickers, i, next, got, g, results, r);
      PauseAfterBatch(next < |tickers|, delay);
    }

    /** _batch_download_bulk: the tickers in consecutive batches of
        `batchSize`, with a pause of `delay` seconds after every batch but the
        last. */
    method BatchDownloadBulk(tickers: seq<string>, start: int, end: int, batchSize: nat, delay: real)
      returns (results: map<string, Series>, ghost batches: seq<seq<string>>)
      requires Valid() && batchSize > 0 && delay >= 0.0
      modifies this`files, this`now, this`pauses, this`drawn, this`calls, this`requestCount, this`fetches
      ensures Valid() && NonEmptyValues(results)
      ensures forall t :: t in results ==> t in tickers
      ensures batches == Batches(tickers, batchSize)
      ensures Waits(pauses) == Waits(old(pauses)) + PauseCount(tickers, batchSize)
      ensures files - Paths(tickers, start, end) == old(files) - Paths(tickers, start, end)
      ensures CachedIn(files, results, start, end)
    {
      results := map[];
      batches := [];
      var i := 0;
      while i < |tickers|
        invariant i <= |tickers| && Valid() && NonEmptyValues(results)
        invariant forall t :: t in results ==> t in tickers
        invariant batches + Batches(tickers[i..], batchSize) == Batches(tickers, batchSize)
        invariant Waits(pauses) == Waits(old(pauses)) + |batches| - (if |batches| > 0 && i == |tickers| then 1 else 0)
        invariant i < |tickers| || batches != [] || tickers == []
        invariant files - Paths(tickers[..i], start, end) == old(files) - Paths(tickers[..i], start, end)
        invariant CachedIn(files, results, start, end)
      {
        var next := Min(i + batchSize, |tickers|);
        BatchesStep(tickers, i, batchSize, batches);
        batches := batches + [tickers[i..next]];
        ghost var uncached, g;
        ghost var fs := files;
        results, uncached, g := BulkRound(tickers, i, next, start, end, delay, results);
        PathsSplit(tickers, i, next, start, end);
        FrameWiden(old(files), fs, files, Paths(tickers[..i], start, end), Paths(tickers[i..next], start, end),
                   Paths(tickers[..next], start, end));
        i := next;
      }
      assert tickers[i..] == [];
      assert tickers[..i] == tickers;
    }

    /** _batch_download_individual: get_stock_data for every ticker, in
        batches of `batchSize` with a pause of `delay` seconds after every
        batch but the last. */
    method BatchDownloadIndividual(tickers: seq<string>, start: int, end: int, batchSize: nat, delay: real)
      returns (results: map<string, Series>, ghost batches: seq<seq<string>>, ghost got: seq<Fetch>)
      requires Valid() && batchSize > 0 && delay >= 0.0
      modifies this`files, this`now, this`pauses, this`drawn, this`calls, this`requestCount, this`fetches
      ensures Valid() && NonEmptyValues(results)
      ensures fetches == old(fetches) + got && Tickers(got) == tickers
      ensures results == Collect(map[], got)
      ensures batches == Batches(tickers, batchSize)
      ensures Waits(pauses) == Waits(old(pauses)) + PauseCount(tickers, batchSize)
      ensures files - Paths(tickers, start, end) == old(files) - Paths(tickers, start, end)
      ensures CachedIn(files, results, start, end)
    {
      results := map[];
      batches := [];
      got := [];
      var i := 0;
      while i < |tickers|
        invariant i <= |tickers| && Valid() && NonEmptyValues(results)
        invariant fetches == old(fetches) + got && Tickers(got) == tickers[..i]
        invariant results == Collect(map[], got)
        invariant batches + Batches(tickers[i..], batchSize) == Batches(tickers, batchSize)
        invariant Waits(pauses) == Waits(old(pauses)) + |batches| - (if |batches| > 0 && i == |tickers| then 1 else 0)
        invariant i < |tickers| || batches != [] || tickers == []
        invariant files - Paths(tickers[..i], start, end) == old(files) - Paths(tickers[..i], start, end)
        invariant CachedIn(files, results, start, end)
      {
        var next := Min(i + batchSize, |tickers|);
        ghost var g;
        ghost var fs := files;
        results, g := IndividualRound(tickers, i, next, start, end, delay, results, got);
        PathsSplit(tickers, i, next, start, end);
        FrameWiden(old(files), fs, files, Paths(tickers[..i], start, end), Paths(tickers[i..next], start, end),
                   Paths(tickers[..next], start, end));
        assert fetches == old(fetches) + (got + g);
        got := got + g;
        BatchesStep(tickers, i, batchSize, batches);
        batches := batches + [tickers[i..next]];
        i := next;
      }
      assert tickers[i..] == [];
      assert tickers[..i] == tickers;
    }

    /** batch_get_stock_data: the bulk or the per-ticker strategy. */
    method BatchGetStockData(tickers: seq<string>, start: int, end: int,
                              batchSize: nat := 10, delay: real := 3.0, useBulk: bool := true)
      returns (results: map<string, Series>)
      requires Valid() && batchSize > 0 && delay >= 0.0
      modifies this`files, this`now, this`pauses, this`drawn, this`calls, this`requestCount, this`fetches
      ensures Valid() && NonEmptyValues(results)
      ensures forall t :: t in results ==> t in tickers
      ensures Waits(pauses) == Waits(old(pauses)) + PauseCount(tickers, batchSize)
      ensures files - Paths(tickers, start, end) == old(files) - Paths(tickers, start, end)
      ensures CachedIn(files, results, start, end)
    {
      ghost var batches;
      if useBulk {
        results, batches := BatchDownloadBulk(tickers, start, end, batchSize, delay);
      } else {
        ghost var got;
        results, batches, got := BatchDownloadIndividual(tickers, start, end, batchSize, delay);
        CollectKeys(map[], got);
      }
    }

    /** clear_cache: every `.pkl` file modified before `olderThanDays` days
        ago is removed; the result is how many were. */
    method ClearCache(olderThanDays: int := 7) returns (removed: nat)
      requires Valid()
      modifies this`files
      ensures Valid()
      ensures files == Purge(old(files), now - olderThanDays as real * SecondsPerDay)
      ensures removed == |old(files)| - |files|
    {
      var cutoff := now - olderThanDays as real * SecondsPerDay;
      removed := 0;
      var pending := files.Keys;
      PurgeExceptEnds(files, cutoff);
      while pending != {}
        invariant pending <= old(files).Keys
        invariant files == PurgeExcept(old(files), cutoff, pending)
        invariant removed + |files| == |old(files)|
        invariant Valid()
        decreases |pending|
      {
        var f :| f in pending;
        PurgeExceptStep(old(files), cutoff, pending, f);
        if EndsWith(f, ".pkl") && files[f].mtime < cutoff {
          RemoveOne(files, f);
          files := files - {f};
          removed := removed + 1;
        }
        pending := pending - {f};
      }
    }
  }
}
