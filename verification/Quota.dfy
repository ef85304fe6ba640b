// Fixed-window quotas over Redis counters: requests per minute and tokens per day
// (llm_gateway/quota.py), and requests per minute per principal (api_gateway/rate_limit.py).
//
// The services keep counters that expire. `Ask` says what they answer in terms of the calls made so
// far, with no counter and no expiry; the methods are proved to answer exactly that.
module Quota {
  import opened Common

  // Times are microseconds since the epoch.
  const SECOND: nat := 1_000_000
  const MINUTE_SPAN: nat := 60 * SECOND
  const DAY_SPAN: nat := 86_400 * SECOND

  function Minute(t: nat): nat { t / MINUTE_SPAN }

  function Day(t: nat): nat { t / DAY_SPAN }

  function MinuteEnd(m: nat): nat { (m + 1) * MINUTE_SPAN }

  function DayEnd(d: nat): nat { (d + 1) * DAY_SPAN }

  lemma SpanOf(t: nat)
    ensures Minute(t) * MINUTE_SPAN <= t < MinuteEnd(Minute(t)) <= t + 60 * SECOND
    ensures Day(t) * DAY_SPAN <= t < DayEnd(Day(t)) <= t + 86_400 * SECOND
  {}

  // ----- Redis -----

  datatype Key = Rpm(who: string, minute: nat) | Tokens(who: string, day: nat) | Rate(who: string, minute: nat)

  datatype Counter = Counter(value: int, deadline: nat)

  class Redis {
    var counters: map<Key, Counter>

    constructor ()
      ensures counters == map[]
    {
      counters := map[];
    }

    // GET; an expired counter is gone.
    function Get(key: Key, now: nat): int
      reads this
    {
      if key in counters && now < counters[key].deadline then counters[key].value else 0
    }

    // The INCRBY and EXPIRE pipeline.
    method Incr(key: Key, amount: int, ttl: nat, now: nat) returns (n: int)
      modifies this
      ensures n == old(Get(key, now)) + amount
      ensures counters == old(counters)[key := Counter(n, now + ttl * SECOND)]
    {
      n := Get(key, now) + amount;
      counters := counters[key := Counter(n, now + ttl * SECOND)];
    }
  }

  // ----- What the services promise, in terms of the calls made so far -----

  datatype Call = Request(who: string) | Charge(who: string, prompt: int, completion: int)

  datatype Timed = Timed(at: nat, call: Call)

  datatype Limits = Limits(perMinute: int, perDay: int)

  datatype QuotaState = QuotaState(rpmCount: int, rpmLimit: int, tokensToday: int, tokensLimit: int)

  datatype Answer = Admitted(state: QuotaState) | TooManyRequests | BudgetSpent

  function Max(a: int, b: int): int { if a >= b then a else b }

  // Requests made in a minute, admitted or not.
  function Requests(past: seq<Timed>, who: string, minute: nat): nat {
    if past == [] then 0
    else
      var last := past[|past| - 1];
      Requests(past[..|past| - 1], who, minute)
      + if last.call == Request(who) && Minute(last.at) == minute then 1 else 0
  }

  // Tokens charged on a day.
  function Charged(past: seq<Timed>, who: string, day: nat): nat {
    if past == [] then 0
    else
      var last := past[|past| - 1];
      Charged(past[..|past| - 1], who, day)
      + if last.call.Charge? && last.call.who == who && Day(last.at) == day then
          Max(0, last.call.prompt + last.call.completion)
        else 0
  }

  // Without a daily limit nothing is recorded.
  function Recorded(l: Limits, past: seq<Timed>, who: string, day: nat): nat {
    if l.perDay <= 0 then 0 else Charged(past, who, day)
  }

  function Ask(l: Limits, past: seq<Timed>, at: nat, who: string): Answer {
    var ordinal := Requests(past, who, Minute(at)) + 1;
    var spent := Recorded(l, past, who, Day(at));
    if l.perMinute <= 0 then Admitted(QuotaState(0, l.perMinute, 0, l.perDay))
    else if ordinal > l.perMinute then TooManyRequests
    else if l.perDay > 0 && spent >= l.perDay then BudgetSpent
    else Admitted(QuotaState(ordinal, l.perMinute, spent, l.perDay))
  }

  lemma CountsSnoc(past: seq<Timed>, c: Timed, who: string, window: nat)
    ensures Requests(past + [c], who, window)
         == Requests(past, who, window) + if c.call == Request(who) && Minute(c.at) == window then 1 else 0
    ensures Charged(past + [c], who, window)
         == Charged(past, who, window)
            + if c.call.Charge? && c.call.who == who && Day(c.at) == window then
                Max(0, c.call.prompt + c.call.completion)
              else 0
  {
    assert (past + [c])[..|past|] == past;
  }

  // ----- The services -----

  // A counter stands for n until a time: absent when n is 0, else n and alive that long.
  predicate Tracks(counters: map<Key, Counter>, key: Key, n: nat, until: nat) {
    if n == 0 then key !in counters
    else key in counters && counters[key].value == n && until <= counters[key].deadline
  }

  ghost predicate RequestsFit(past: seq<Timed>, counters: map<Key, Counter>) {
    forall who, m: nat :: Tracks(counters, Rpm(who, m), Requests(past, who, m), MinuteEnd(m))
  }

  ghost predicate TokensFit(l: Limits, past: seq<Timed>, counters: map<Key, Counter>) {
    forall who, d: nat :: Tracks(counters, Tokens(who, d), Recorded(l, past, who, d), DayEnd(d))
  }

  ghost predicate RatesFit(past: seq<Timed>, counters: map<Key, Counter>) {
    forall who, m: nat :: Tracks(counters, Rate(who, m), Requests(past, who, m), MinuteEnd(m))
  }

  // One more request, counted in its minute under a 70 second expiry.
  lemma RequestCounted(past: seq<Timed>, counters: map<Key, Counter>, who: string, now: nat, n: int, rate: bool)
    requires if rate then RatesFit(past, counters) else RequestsFit(past, counters)
    requires n == Requests(past, who, Minute(now)) + 1
    ensures
      var past1 := past + [Timed(now, Request(who))];
      var c := Counter(n, now + 70 * SECOND);
      if rate then RatesFit(past1, counters[Rate(who, Minute(now)) := c])
      else RequestsFit(past1, counters[Rpm(who, Minute(now)) := c])
  {
    SpanOf(now);
    hide Minute, Requests, MinuteEnd;
    forall w, m {
      CountsSnoc(past, Timed(now, Request(who)), w, m);
    }
  }

  // A call that leaves the token counters alone.
  lemma NothingRecorded(l: Limits, past: seq<Timed>, counters: map<Key, Counter>, counters1: map<Key, Counter>,
                        c: Timed)
    requires TokensFit(l, past, counters)
    requires c.call.Charge? && l.perDay > 0 ==> c.call.prompt + c.call.completion <= 0
    requires forall key: Key :: key.Tokens? ==>
      (key in counters1 <==> key in counters) && (key in counters ==> counters1[key] == counters[key])
    ensures TokensFit(l, past + [c], counters1)
  {
    hide Day, Charged, DayEnd;
    forall w, d {
      CountsSnoc(past, c, w, d);
    }
  }

  lemma NothingCounted(past: seq<Timed>, counters: map<Key, Counter>, counters1: map<Key, Counter>, c: Timed)
    requires RequestsFit(past, counters) && c.call.Charge?
    requires forall key: Key :: key.Rpm? ==>
      (key in counters1 <==> key in counters) && (key in counters ==> counters1[key] == counters[key])
    ensures RequestsFit(past + [c], counters1)
  {
    hide Minute, Requests, MinuteEnd;
    forall w, d {
      CountsSnoc(past, c, w, d);
    }
  }

  lemma TokensCounted(l: Limits, past: seq<Timed>, counters: map<Key, Counter>, c: Timed, n: int)
    requires TokensFit(l, past, counters) && l.perDay > 0
    requires c.call.Charge? && c.call.prompt + c.call.completion > 0
    requires n == Recorded(l, past, c.call.who, Day(c.at)) + c.call.prompt + c.call.completion
    ensures TokensFit(l, past + [c], counters[Tokens(c.call.who, Day(c.at)) := Counter(n, c.at + 90_000 * SECOND)])
    ensures n == Recorded(l, past + [c], c.call.who, Day(c.at))
  {
    SpanOf(c.at);
    hide Day, Charged, DayEnd;
    forall w, d {
      CountsSnoc(past, c, w, d);
    }
  }

  class QuotaService {
    const redis: Redis
    const limits: Limits
    ghost var past: seq<Timed>

    ghost predicate Valid()
      reads this, redis
    {
      && (limits.perMinute > 0 ==> RequestsFit(past, redis.counters))
      && TokensFit(limits, past, redis.counters)
    }

    constructor (redis: Redis, limits: Limits)
      requires redis.counters == map[]
      ensures Valid() && this.redis == redis && this.limits == limits && past == []
    {
      this.redis := redis;
      this.limits := limits;
      past := [];
    }

    // No counter expires while its minute or day is current: reading it gives the exact count.
    lemma ReadsAreCounts(who: string, now: nat)
      requires Valid()
      ensures limits.perMinute > 0 ==> redis.Get(Rpm(who, Minute(now)), now) == Requests(past, who, Minute(now))
      ensures redis.Get(Tokens(who, Day(now)), now) == Recorded(limits, past, who, Day(now))
    {
      SpanOf(now);
      hide Requests, Recorded, Minute, Day, MinuteEnd, DayEnd;
      assert limits.perMinute > 0 ==>
        Tracks(redis.counters, Rpm(who, Minute(now)), Requests(past, who, Minute(now)), MinuteEnd(Minute(now)));
      assert Tracks(redis.counters, Tokens(who, Day(now)), Recorded(limits, past, who, Day(now)), DayEnd(Day(now)));
    }

    method CheckAndReserveRequest(workspace: Option<string>, now: nat) returns (r: Answer)
      requires Valid()
      modifies this, redis
      ensures Valid()
      ensures past == if workspace.Some? then old(past) + [Timed(now, Request(workspace.value))] else old(past)
      ensures r == match workspace
                   case None => Admitted(QuotaState(0, limits.perMinute, 0, limits.perDay))
                   case Some(who) => Ask(limits, old(past), now, who)
    {
      if workspace == None {
        return Admitted(QuotaState(0, limits.perMinute, 0, limits.perDay));
      }
      var who := workspace.value;
      ReadsAreCounts(who, now);
      hide Minute, Day, Requests, Charged, Recorded, RequestsFit, TokensFit;
      ghost var was, counters := past, redis.counters;
      past := past + [Timed(now, Request(who))];
      if limits.perMinute <= 0 {
        NothingRecorded(limits, was, counters, counters, Timed(now, Request(who)));
        return Admitted(QuotaState(0, limits.perMinute, 0, limits.perDay));
      }
      var rpm := redis.Incr(Rpm(who, Minute(now)), 1, 70, now);
      var cur := redis.Get(Tokens(who, Day(now)), now);
      RequestCounted(was, counters, who, now, rpm, false);
      NothingRecorded(limits, was, counters, redis.counters, Timed(now, Request(who)));
      if rpm > limits.perMinute {
        return TooManyRequests;
      }
      if limits.perDay > 0 && cur >= limits.perDay {
        return BudgetSpent;
      }
      return Admitted(QuotaState(rpm, limits.perMinute, cur, limits.perDay));
    }

    method AddTokens(workspace: Option<string>, prompt: int, completion: int, now: nat) returns (n: int)
      requires Valid()
      modifies this, redis
      ensures Valid()
      ensures past == if workspace.Some? then old(past) + [Timed(now, Charge(workspace.value, prompt, completion))]
                      else old(past)
      ensures n == if workspace.Some? && prompt + completion > 0 then
                     Recorded(limits, past, workspace.value, Day(now))
                   else 0
    {
      if workspace == None {
        return 0;
      }
      var who := workspace.value;
      ghost var was, counters := past, redis.counters;
      ghost var call := Timed(now, Charge(who, prompt, completion));
      ReadsAreCounts(who, now);
      past := past + [call];
      if limits.perDay <= 0 || Max(0, prompt + completion) == 0 {
        NothingRecorded(limits, was, counters, counters, call);
        if limits.perMinute > 0 {
          NothingCounted(was, counters, counters, call);
        }
        return 0;
      }
      hide Minute, Day, Requests, Charged, Recorded, RequestsFit, TokensFit;
      n := redis.Incr(Tokens(who, Day(now)), Max(0, prompt + completion), 90_000, now);
      TokensCounted(limits, was, counters, call, n);
      if limits.perMinute > 0 {
        NothingCounted(was, counters, redis.counters, call);
      }
    }
  }

  // What the middleware does with a request: pass it on, with or without a remaining count, or refuse it.
  datatype Reply = Passed(remaining: Option<int>) | RetryAfter(seconds: int)

  lemma NextMinute(now: nat)
    ensures Minute(now + (60 - now / SECOND % 60) * SECOND) == Minute(now) + 1
  {}

  class RateLimiter {
    const redis: Option<Redis>
    const limit: int
    ghost var past: seq<Timed>

    ghost predicate Valid()
      reads this, if redis.Some? then {redis.value} else {}
    {
      redis.Some? ==> RatesFit(past, redis.value.counters)
    }

    constructor (redis: Option<Redis>, limit: int)
      requires redis.Some? ==> redis.value.counters == map[]
      ensures Valid() && this.redis == redis && this.limit == limit && past == []
    {
      this.redis := redis;
      this.limit := limit;
      past := [];
    }

    // `exempt` is a path that is never limited; when Redis is not `reachable` the request passes.
    method Dispatch(who: string, exempt: bool, reachable: bool, now: nat) returns (r: Reply)
      requires Valid()
      modifies this, if redis.Some? then {redis.value} else {}
      ensures Valid()
      ensures
        var counted := !exempt && redis.Some? && limit > 0 && reachable;
        && past == (if counted then old(past) + [Timed(now, Request(who))] else old(past))
        && (r.RetryAfter? <==> counted && Ask(Limits(limit, 0), old(past), now, who) == TooManyRequests)
        && (r.RetryAfter? ==> 1 <= r.seconds <= 60 && Minute(now + r.seconds * SECOND) == Minute(now) + 1)
        && (r.Passed? ==> r.remaining == if counted then Some(limit - Requests(past, who, Minute(now))) else None)
    {
      if exempt || redis.None? || limit <= 0 || !reachable {
        return Passed(None);
      }
      SpanOf(now);
      var seconds := 60 - now / SECOND % 60;
      NextMinute(now);
      hide Minute, Requests, MinuteEnd;
      ghost var was, counters := past, redis.value.counters;
      assert Tracks(counters, Rate(who, Minute(now)), Requests(past, who, Minute(now)), MinuteEnd(Minute(now)));
      var count := redis.value.Incr(Rate(who, Minute(now)), 1, 70, now);
      RequestCounted(was, counters, who, now, count, true);
      CountsSnoc(was, Timed(now, Request(who)), who, Minute(now));
      past := past + [Timed(now, Request(who))];
      if count > limit {
        return RetryAfter(seconds);
      }
      return Passed(Some(Max(0, limit - count)));
    }
  }

  // ----- Theorems over every run -----

  // Requests of `who` admitted at times from lo up to hi, in a run of calls.
  function Admissions(l: Limits, run: seq<Timed>, who: string, lo: nat, hi: nat): nat {
    if run == [] then 0
    else
      var last := run[|run| - 1];
      var before := run[..|run| - 1];
      Admissions(l, before, who, lo, hi)
      + if last.call == Request(who) && lo <= last.at < hi && Ask(l, before, last.at, who).Admitted? then 1 else 0
  }

  // A minute admits at most the limit; with no daily budget, exactly the first `perMinute` requests.
  lemma {:induction false} MinuteBound(l: Limits, run: seq<Timed>, who: string, m: nat)
    requires l.perMinute > 0
    ensures
      var n := Admissions(l, run, who, m * MINUTE_SPAN, (m + 1) * MINUTE_SPAN);
      var asked := Requests(run, who, m);
      && n <= l.perMinute && n <= asked
      && (l.perDay <= 0 ==> n == if asked <= l.perMinute then asked else l.perMinute)
  {
    if run != [] {
      MinuteBound(l, run[..|run| - 1], who, m);
      SpanOf(run[|run| - 1].at);
    }
  }

  // Which requests are admitted under a request limit: those that fewer than `perMinute` others of the
  // minute came before, on a day whose charges so far are below the daily limit, if there is one. The
  // request limit is looked at first, and the answer tells both counts.
  lemma AdmittedIff(l: Limits, past: seq<Timed>, at: nat, who: string)
    requires l.perMinute > 0
    ensures
      var answer, asked, spent := Ask(l, past, at, who), Requests(past, who, Minute(at)), Charged(past, who, Day(at));
      && (answer.Admitted? <==> asked < l.perMinute && (l.perDay <= 0 || spent < l.perDay))
      && (answer == TooManyRequests <==> asked >= l.perMinute)
      && (answer.Admitted? ==>
            answer.state == QuotaState(asked + 1, l.perMinute, if l.perDay <= 0 then 0 else spent, l.perDay))
  {
  }

  lemma MinuteOfDay(t: nat, m: nat)
    requires Minute(t) == m
    ensures Day(t) == Day(m * MINUTE_SPAN)
  {
    SpanOf(t);
    SpanOf(m * MINUTE_SPAN);
    assert m == t / (60 * SECOND) && t / (1440 * (60 * SECOND)) == t / (60 * SECOND) / 1440;
    assert m * MINUTE_SPAN / MINUTE_SPAN == m;
    assert m * MINUTE_SPAN / (1440 * MINUTE_SPAN) == m * MINUTE_SPAN / MINUTE_SPAN / 1440;
  }

  // As long as the budget of its day lasts, a minute admits exactly the first `perMinute` requests.
  lemma {:induction false} MinuteIsExact(l: Limits, run: seq<Timed>, who: string, m: nat)
    requires l.perMinute > 0 && (l.perDay <= 0 || Charged(run, who, Day(m * MINUTE_SPAN)) < l.perDay)
    ensures
      var asked := Requests(run, who, m);
      Admissions(l, run, who, m * MINUTE_SPAN, (m + 1) * MINUTE_SPAN)
        == if asked <= l.perMinute then asked else l.perMinute
  {
    if run != [] {
      var last, before := run[|run| - 1], run[..|run| - 1];
      MinuteIsExact(l, before, who, m);
      SpanOf(last.at);
      if Minute(last.at) == m {
        MinuteOfDay(last.at, m);
      }
      AdmittedIff(l, before, last.at, who);
      hide Ask, Minute, Day;
      MinuteEdges(last.at, m);
    }
  }

  lemma MinuteEdges(t: nat, m: nat)
    ensures m * MINUTE_SPAN <= t < (m + 1) * MINUTE_SPAN <==> Minute(t) == m
  {
  }

  // A budget once spent stays spent for the day.
  lemma {:induction false} SpentStaysSpent(l: Limits, run: seq<Timed>, k: nat, who: string, day: nat)
    requires k <= |run|
    ensures Recorded(l, run[..k], who, day) <= Recorded(l, run, who, day)
  {
    if k < |run| {
      SpentStaysSpent(l, run[..|run| - 1], k, who, day);
      assert run[..|run| - 1][..k] == run[..k];
    } else {
      assert run[..k] == run;
    }
  }

  lemma {:induction false} AdmissionsSplit(l: Limits, run: seq<Timed>, who: string, lo: nat, mid: nat, hi: nat)
    requires lo <= mid <= hi
    ensures Admissions(l, run, who, lo, hi) == Admissions(l, run, who, lo, mid) + Admissions(l, run, who, mid, hi)
  {
    if run != [] {
      hide Ask;
      AdmissionsSplit(l, run[..|run| - 1], who, lo, mid, hi);
    }
  }

  lemma {:induction false} AdmissionsGrow(l: Limits, run: seq<Timed>, who: string, lo: nat, hi: nat, lo1: nat, hi1: nat)
    requires lo1 <= lo && hi <= hi1
    ensures Admissions(l, run, who, lo, hi) <= Admissions(l, run, who, lo1, hi1)
  {
    if run != [] {
      hide Ask;
      AdmissionsGrow(l, run[..|run| - 1], who, lo, hi, lo1, hi1);
    }
  }

  // Any sixty seconds, aligned or not, admit at most twice the limit.
  lemma WindowBound(l: Limits, run: seq<Timed>, who: string, from: nat)
    requires l.perMinute > 0
    ensures Admissions(l, run, who, from, from + MINUTE_SPAN) <= 2 * l.perMinute
  {
    var m := Minute(from);
    var edge := (m + 1) * MINUTE_SPAN;
    SpanOf(from);
    AdmissionsSplit(l, run, who, from, edge, from + MINUTE_SPAN);
    AdmissionsGrow(l, run, who, from, edge, m * MINUTE_SPAN, edge);
    AdmissionsGrow(l, run, who, edge, from + MINUTE_SPAN, edge, (m + 2) * MINUTE_SPAN);
    MinuteBound(l, run, who, m);
    MinuteBound(l, run, who, m + 1);
  }

  lemma OutcomeSnoc(l: Limits, run: seq<Timed>, c: Timed, who: string, lo: nat, hi: nat)
    ensures
      var admitted := c.call == Request(who) && Ask(l, run, c.at, who).Admitted?;
      && Admissions(l, run + [c], who, lo, hi)
         == Admissions(l, run, who, lo, hi) + (if admitted && lo <= c.at < hi then 1 else 0)
      && InFlight(l, run + [c], who)
         == InFlight(l, run, who) + (if admitted then 1 else 0) - (if c.call.Charge? && c.call.who == who then 1 else 0)
  {
    assert (run + [c])[..|run|] == run;
  }

  // The factor two is reached: a burst at the end of a minute and another at the start of the next.
  function Burst(before: seq<Timed>, who: string, at: nat, n: nat): seq<Timed> {
    if n == 0 then before else Burst(before, who, at, n - 1) + [Timed(at, Request(who))]
  }

  lemma {:induction false} BurstAdmits(l: Limits, before: seq<Timed>, who: string, at: nat, n: nat, lo: nat, hi: nat)
    requires n <= l.perMinute && l.perDay <= 0 && Requests(before, who, Minute(at)) == 0 && lo <= at < hi
    ensures Requests(Burst(before, who, at, n), who, Minute(at)) == n
    ensures Admissions(l, Burst(before, who, at, n), who, lo, hi) == Admissions(l, before, who, lo, hi) + n
  {
    hide Minute, Requests, Admissions;
    if n > 0 {
      var call := Timed(at, Request(who));
      BurstAdmits(l, before, who, at, n - 1, lo, hi);
      CountsSnoc(Burst(before, who, at, n - 1), call, who, Minute(at));
      OutcomeSnoc(l, Burst(before, who, at, n - 1), call, who, lo, hi);
    }
  }

  lemma {:induction false} BurstElsewhere(before: seq<Timed>, who: string, at: nat, n: nat, m: nat)
    requires Minute(at) != m
    ensures Requests(Burst(before, who, at, n), who, m) == Requests(before, who, m)
  {
    hide Minute, Requests;
    if n > 0 {
      BurstElsewhere(before, who, at, n - 1, m);
      CountsSnoc(Burst(before, who, at, n - 1), Timed(at, Request(who)), who, m);
    }
  }

  lemma TwiceIsReached(l: Limits, who: string)
    requires l.perMinute > 0 && l.perDay <= 0
    ensures
      var run := Burst(Burst([], who, MINUTE_SPAN - 1, l.perMinute), who, MINUTE_SPAN, l.perMinute);
      Admissions(l, run, who, MINUTE_SPAN - 1, 2 * MINUTE_SPAN - 1) == 2 * l.perMinute
  {
    hide Burst;
    var n := l.perMinute;
    BurstAdmits(l, [], who, MINUTE_SPAN - 1, n, MINUTE_SPAN - 1, 2 * MINUTE_SPAN - 1);
    BurstElsewhere([], who, MINUTE_SPAN - 1, n, 1);
    BurstAdmits(l, Burst([], who, MINUTE_SPAN - 1, n), who, MINUTE_SPAN, n, MINUTE_SPAN - 1, 2 * MINUTE_SPAN - 1);
  }

  // Admitted requests that have not reported their tokens yet. One that fails reports none,
  // which stands here as a charge of 0.
  function InFlight(l: Limits, run: seq<Timed>, who: string): int {
    if run == [] then 0
    else
      var last := run[|run| - 1];
      var before := run[..|run| - 1];
      InFlight(l, before, who)
      + (if last.call == Request(who) && Ask(l, before, last.at, who).Admitted? then 1 else 0)
      - (if last.call.Charge? && last.call.who == who then 1 else 0)
  }

  // Time moves forward; at most m requests are ever in flight, and each uses at most t tokens.
  predicate Disciplined(l: Limits, run: seq<Timed>, who: string, m: nat, t: nat) {
    run != [] ==>
      var last := run[|run| - 1];
      var before := run[..|run| - 1];
      && Disciplined(l, before, who, m, t)
      && (before != [] ==> before[|before| - 1].at <= last.at)
      && 0 <= InFlight(l, run, who) <= m
      && (last.call.Charge? && last.call.who == who ==> last.call.prompt + last.call.completion <= t)
  }

  lemma {:induction false} NothingLater(l: Limits, run: seq<Timed>, who: string, m: nat, t: nat, day: nat)
    requires Disciplined(l, run, who, m, t) && (run != [] ==> Day(run[|run| - 1].at) < day)
    ensures Charged(run, who, day) == 0
  {
    hide InFlight;
    if run != [] {
      var before := run[..|run| - 1];
      if before != [] {
        assert Day(before[|before| - 1].at) <= Day(run[|run| - 1].at);
      }
      NothingLater(l, before, who, m, t, day);
    }
  }

  // A request in flight can still charge t, to its own day or a later one: the total of a day and
  // what is in flight stay under the budget and m more charges.
  lemma {:induction false} RoomForFlight(l: Limits, run: seq<Timed>, who: string, m: nat, t: nat, day: nat)
    requires l.perMinute > 0 && l.perDay > 0 && Disciplined(l, run, who, m, t)
    ensures Charged(run, who, day) < l.perDay + m * t
    ensures (run == [] || Day(run[|run| - 1].at) <= day) ==>
      Charged(run, who, day) + InFlight(l, run, who) * t < l.perDay + m * t
  {
    if run != [] {
      hide Minute, Requests;
      var last := run[|run| - 1];
      var before := run[..|run| - 1];
      RoomForFlight(l, before, who, m, t, day);
      if Day(last.at) < day {
        NothingLater(l, run, who, m, t, day);
      }
      if before != [] {
        assert Day(before[|before| - 1].at) <= Day(last.at);
      }
      Scaled(InFlight(l, run, who), m, t);
      Scaled(0, InFlight(l, run, who), t);
      assert (InFlight(l, before, who) - 1) * t == InFlight(l, before, who) * t - t;
    }
  }

  lemma Scaled(a: int, b: int, t: nat)
    requires a <= b
    ensures a * t <= b * t
  {}

  // The daily budget is overrun by less than what m requests can use.
  lemma OvershootIsBounded(l: Limits, run: seq<Timed>, who: string, m: nat, t: nat, day: nat)
    requires l.perMinute > 0 && l.perDay > 0 && Disciplined(l, run, who, m, t)
    ensures Recorded(l, run, who, day) < l.perDay + m * t
  {
    RoomForFlight(l, run, who, m, t, day);
  }

  // Without a request limit the daily budget is not enforced either, however small: requests one at
  // a time spend any amount.
  function Spree(who: string, t: nat, n: nat): seq<Timed> {
    if n == 0 then [] else Spree(who, t, n - 1) + [Timed(0, Request(who))] + [Timed(0, Charge(who, t, 0))]
  }

  lemma {:induction false} BudgetNeedsRequestLimit(l: Limits, who: string, t: nat, n: nat)
    requires l.perMinute <= 0 < l.perDay
    ensures Disciplined(l, Spree(who, t, n), who, 1, t) && InFlight(l, Spree(who, t, n), who) == 0
    ensures n > 0 ==> Spree(who, t, n)[|Spree(who, t, n)| - 1].at == 0
    ensures Recorded(l, Spree(who, t, n), who, 0) == n * t
  {
    if n > 0 {
      var before := Spree(who, t, n - 1);
      var ask, pay := Timed(0, Request(who)), Timed(0, Charge(who, t, 0));
      BudgetNeedsRequestLimit(l, who, t, n - 1);
      assert (before + [ask])[..|before|] == before && (before + [ask] + [pay])[..|before| + 1] == before + [ask];
      hide Spree, InFlight, Charged, Requests;
      OutcomeSnoc(l, before, ask, who, 0, 0);
      OutcomeSnoc(l, before + [ask], pay, who, 0, 0);
      CountsSnoc(before, ask, who, 0);
      CountsSnoc(before + [ask], pay, who, 0);
      assert n * t == (n - 1) * t + t;
    }
  }

  lemma {:induction false} LooserDiscipline(l: Limits, run: seq<Timed>, who: string, m: nat, m1: nat, t: nat)
    requires Disciplined(l, run, who, m, t) && m <= m1
    ensures Disciplined(l, run, who, m1, t)
  {
    if run != [] {
      hide InFlight;
      LooserDiscipline(l, run[..|run| - 1], who, m, m1, t);
    }
  }

  // With a daily limit, the bound on the overrun holds of all disciplined runs exactly when there is a
  // request limit as well.
  lemma OvershootIsBoundedIff(l: Limits, who: string, m: nat, t: nat)
    requires l.perDay > 0 && m >= 1 && t >= 1
    ensures (forall run, day :: Disciplined(l, run, who, m, t) ==> Recorded(l, run, who, day) < l.perDay + m * t)
       <==> l.perMinute > 0
  {
    if l.perMinute > 0 {
      forall run, day | Disciplined(l, run, who, m, t) ensures Recorded(l, run, who, day) < l.perDay + m * t {
        OvershootIsBounded(l, run, who, m, t, day);
      }
    } else {
      var n := l.perDay + m;
      var run := Spree(who, t, n);
      BudgetNeedsRequestLimit(l, who, t, n);
      LooserDiscipline(l, run, who, 1, m, t);
      Distribute(l.perDay, m, t);
      assert Disciplined(l, run, who, m, t) && Recorded(l, run, who, 0) >= l.perDay + m * t;
    }
  }

  lemma Distribute(a: nat, m: nat, t: nat)
    requires t >= 1
    ensures (a + m) * t >= a + m * t
  {
    assert (a + m) * t == a * t + m * t;
    Scaled(1, t, a);
    assert a * t == t * a;
  }
}
