/** In-process token buckets. Instants are integer nanoseconds; token counts are real numbers. */
module RateLimit {
  import opened Options
  import opened Clock
  import opened Numbers

  const SWEEP: int := 5 * MINUTE
  const IDLE: int := 15 * MINUTE

  datatype Rule = Rule(burst: int, per: int)

  datatype Bucket = Bucket(tokens: real, last: int)

  datatype Answer = Answer(ok: bool, wait: int)

  datatype Call = Call(key: string, rule: Rule, now: int)

  datatype State = State(buckets: map<string, Bucket>, lastGC: int)

  predicate Limits(rule: Rule) {
    rule.burst > 0 && rule.per > 0
  }

  function Seconds(d: int): real {
    d as real / SECOND as real
  }

  /** Tokens per second. */
  function Rate(rule: Rule): real
    requires Limits(rule)
  {
    rule.burst as real / Seconds(rule.per)
  }

  function Refilled(b: Bucket, rule: Rule, now: int): real
    requires Limits(rule)
  {
    var t := b.tokens + Seconds(now - b.last) * Rate(rule);
    if t > rule.burst as real then rule.burst as real else t
  }

  function Fresh(rule: Rule, now: int): Bucket {
    Bucket(rule.burst as real, now)
  }

  /** A bucket's reply to one request, and what is left in it. */
  function Draw(b: Bucket, rule: Rule, now: int): (Bucket, Answer)
    requires Limits(rule)
  {
    var t := Refilled(b, rule, now);
    if t >= 1.0 then (Bucket(t - 1.0, now), Answer(true, 0))
    else (Bucket(t, now), Answer(false, ((1.0 - t) / Rate(rule) * SECOND as real).Floor))
  }

  function Collected(s: State, now: int): State {
    if now - s.lastGC < SWEEP then s
    else State(map k | k in s.buckets && !(now - s.buckets[k].last > IDLE) :: s.buckets[k], now)
  }

  function BucketFor(s: State, key: string, rule: Rule, now: int): Bucket {
    if key in s.buckets then s.buckets[key] else Fresh(rule, now)
  }

  function Allowed(s: State, c: Call): (State, Answer) {
    if !Limits(c.rule) then (s, Answer(true, 0))
    else
      var s1 := Collected(s, c.now);
      var (b, a) := Draw(BucketFor(s1, c.key, c.rule, c.now), c.rule, c.now);
      (s1.(buckets := s1.buckets[c.key := b]), a)
  }

  class Limiter {
    var buckets: map<string, Bucket>
    var lastGC: int

    constructor (now: int)
      ensures Current() == State(map[], now)
    {
      buckets, lastGC := map[], now;
    }

    ghost function Current(): State
      reads this
    {
      State(buckets, lastGC)
    }

    method Collect(now: int)
      modifies this
      ensures Current() == Collected(old(Current()), now)
    {
      if now - lastGC < SWEEP {
        return;
      }
      var todo := buckets.Keys;
      while todo != {}
        modifies this`buckets
        invariant todo <= old(buckets).Keys
        invariant buckets == map k | k in old(buckets) && (k in todo || !(now - old(buckets)[k].last > IDLE)) :: old(buckets)[k]
        decreases todo
      {
        var k :| k in todo;
        if now - buckets[k].last > IDLE {
          buckets := buckets - {k};
        }
        todo := todo - {k};
      }
      lastGC := now;
    }

    method Allow(key: string, rule: Rule, now: int) returns (ok: bool, wait: int)
      modifies this
      ensures Current() == Allowed(old(Current()), Call(key, rule, now)).0
      ensures Answer(ok, wait) == Allowed(old(Current()), Call(key, rule, now)).1
    {
      if rule.burst <= 0 || rule.per <= 0 {
        return true, 0;
      }
      Collect(now);
      if key !in buckets {
        buckets := buckets[key := Bucket(rule.burst as real, now)];
      }
      var b := buckets[key];
      var refillRate := Rate(rule);
      ghost var refilled := Refilled(b, rule, now);
      b := b.(tokens := b.tokens + Seconds(now - b.last) * refillRate);
      if b.tokens > rule.burst as real {
        b := b.(tokens := rule.burst as real);
      }
      b := b.(last := now);
      assert b.tokens == refilled;
      hide Rate, Refilled, Collected;
      if b.tokens >= 1.0 {
        b := b.(tokens := b.tokens - 1.0);
        buckets := buckets[key := b];
        return true, 0;
      }
      buckets := buckets[key := b];
      var need := (1.0 - b.tokens) / refillRate;
      return false, (need * SECOND as real).Floor;
    }
  }

  // ------------------------------------------------------------------- runs

  /** The replies `key` receives along a run of calls for any keys. */
  function Replies(s: State, calls: seq<Call>, key: string): seq<Answer>
    decreases |calls|
  {
    if calls == [] then []
    else
      var step := Allowed(s, calls[0]);
      (if calls[0].key == key then [step.1] else []) + Replies(step.0, calls[1..], key)
  }

  function After(s: State, calls: seq<Call>): State
    decreases |calls|
  {
    if calls == [] then s else After(Allowed(s, calls[0]).0, calls[1..])
  }

  /** One request against a bucket that is never thrown away. */
  function DrawLone(b: Option<Bucket>, c: Call): (Option<Bucket>, Answer) {
    if !Limits(c.rule) then (b, Answer(true, 0))
    else
      var step := Draw(if b.None? then Fresh(c.rule, c.now) else b.value, c.rule, c.now);
      (Some(step.0), step.1)
  }

  /** The same replies from a lone bucket that sees nothing but `key`'s own calls. */
  function LoneReplies(b: Option<Bucket>, calls: seq<Call>, key: string): seq<Answer>
    decreases |calls|
  {
    if calls == [] then []
    else if calls[0].key != key then LoneReplies(b, calls[1..], key)
    else
      var step := DrawLone(b, calls[0]);
      [step.1] + LoneReplies(step.0, calls[1..], key)
  }

  function Granted(replies: seq<Answer>): nat {
    if replies == [] then 0 else (if replies[0].ok then 1 else 0) + Granted(replies[1..])
  }

  ghost predicate Ordered(from: int, calls: seq<Call>)
    decreases |calls|
  {
    calls != [] ==> from <= calls[0].now && Ordered(calls[0].now, calls[1..])
  }

  /** Idle time that makes a bucket full again for every rule `key` is called with. */
  ghost predicate Patient(calls: seq<Call>, key: string) {
    forall i :: 0 <= i < |calls| && calls[i].key == key && Limits(calls[i].rule) ==> calls[i].rule.per <= IDLE + 1
  }

  ghost predicate OneRule(calls: seq<Call>, key: string, rule: Rule) {
    forall i :: 0 <= i < |calls| && calls[i].key == key ==> calls[i].rule == rule
  }

  ghost predicate Until(calls: seq<Call>, till: int) {
    forall i :: 0 <= i < |calls| ==> calls[i].now <= till
  }

  // ---------------------------------------------------------------- refilling

  lemma RateFacts(rule: Rule, dt: int)
    requires Limits(rule) && dt >= 0
    ensures Rate(rule) > 0.0
    ensures Seconds(dt) * Rate(rule) >= 0.0
    ensures Seconds(dt) * Rate(rule) == dt as real * rule.burst as real / rule.per as real
    ensures dt >= rule.per ==> Seconds(dt) * Rate(rule) >= rule.burst as real
    ensures dt < rule.per ==> Seconds(dt) * Rate(rule) < rule.burst as real
  {
    var b, p, d, n := rule.burst as real, rule.per as real, dt as real, SECOND as real;
    RateArithmetic(b, p, d, n);
  }

  lemma RateArithmetic(b: real, p: real, d: real, n: real)
    requires b > 0.0 && p > 0.0 && d >= 0.0 && n > 0.0
    ensures p / n > 0.0 && b / (p / n) > 0.0
    ensures (d / n) * (b / (p / n)) == d * b / p
    ensures 0.0 <= d * b / p
    ensures d >= p ==> d * b / p >= b
    ensures d < p ==> d * b / p < b
  {
    var r := b / (p / n);
    assert r * (p / n) == b;
    assert r * p == b * n by { assert r * (p / n) * n == r * p; }
    assert (d / n) * r * n == d * r by { assert (d / n) * n == d; }
    assert d * r * p == d * b * n;
    var x, y := (d / n) * r, d * b / p;
    assert y * p == d * b;
    assert x * n == d * r;
    assert x * n * p == y * p * n;
    assert (x - y) * (n * p) == 0.0;
  }

  /** A bucket left alone for a whole window is full, like a new one. */
  lemma IdleIsFresh(b: Bucket, rule: Rule, now: int)
    requires Limits(rule) && b.tokens >= 0.0 && now - b.last >= rule.per
    ensures Draw(b, rule, now) == Draw(Fresh(rule, now), rule, now)
  {
    RateFacts(rule, now - b.last);
    RateFacts(rule, 0);
    assert Refilled(b, rule, now) == rule.burst as real == Refilled(Fresh(rule, now), rule, now);
  }

  lemma DrawKeeps(b: Bucket, rule: Rule, now: int)
    requires Limits(rule) && b.tokens >= 0.0 && b.last <= now
    ensures Draw(b, rule, now).0.tokens >= 0.0 && Draw(b, rule, now).0.last == now
  {
    RateFacts(rule, now - b.last);
  }

  // ------------------------------------------------- collection is invisible

  /** The limiter's bucket for `key` and a lone one may differ only once the lone one has filled up. */
  ghost predicate Agrees(s: State, b: Option<Bucket>, key: string, now: int) {
    && (b.Some? ==> b.value.tokens >= 0.0 && b.value.last <= now)
    && (key in s.buckets ==> b == Some(s.buckets[key]))
    && (key !in s.buckets && b.Some? ==> now - b.value.last > IDLE)
  }

  lemma CollectionAgrees(s: State, b: Option<Bucket>, key: string, prior: int, now: int)
    requires Agrees(s, b, key, prior) && prior <= now
    ensures Agrees(Collected(s, now), b, key, now)
  {
  }

  lemma OtherAgrees(s: State, b: Option<Bucket>, key: string, prior: int, c: Call)
    requires Agrees(s, b, key, prior) && prior <= c.now && c.key != key
    ensures Agrees(Allowed(s, c).0, b, key, c.now)
  {
    CollectionAgrees(s, b, key, prior, c.now);
    hide Collected, Draw;
  }

  lemma OwnAgrees(s: State, b: Option<Bucket>, prior: int, c: Call)
    requires Agrees(s, b, c.key, prior) && prior <= c.now
    requires Limits(c.rule) ==> c.rule.per <= IDLE + 1
    ensures Allowed(s, c).1 == DrawLone(b, c).1
    ensures Agrees(Allowed(s, c).0, DrawLone(b, c).0, c.key, c.now)
  {
    if Limits(c.rule) {
      CollectionAgrees(s, b, c.key, prior, c.now);
      var s1 := Collected(s, c.now);
      var mine, lone := BucketFor(s1, c.key, c.rule, c.now), if b.None? then Fresh(c.rule, c.now) else b.value;
      if c.key !in s1.buckets && b.Some? {
        IdleIsFresh(b.value, c.rule, c.now);
      }
      DrawKeeps(lone, c.rule, c.now);
      hide Collected, Draw;
      assert Draw(mine, c.rule, c.now) == Draw(lone, c.rule, c.now);
    }
  }

  lemma {:induction false} RepliesAgree(s: State, b: Option<Bucket>, prior: int, calls: seq<Call>, key: string)
    requires Agrees(s, b, key, prior) && Ordered(prior, calls) && Patient(calls, key)
    ensures Replies(s, calls, key) == LoneReplies(b, calls, key)
    decreases |calls|
  {
    if calls != [] {
      var c := calls[0];
      if c.key == key {
        OwnAgrees(s, b, prior, c);
        hide Allowed, DrawLone, Agrees;
        RepliesAgree(Allowed(s, c).0, DrawLone(b, c).0, c.now, calls[1..], key);
      } else {
        OtherAgrees(s, b, key, prior, c);
        hide Allowed, Agrees;
        RepliesAgree(Allowed(s, c).0, b, c.now, calls[1..], key);
      }
    }
  }

  /** Neither other keys nor garbage collection can be told from the replies a key receives. */
  lemma KeysAreIsolated(start: int, calls: seq<Call>, key: string)
    requires Ordered(start, calls) && Patient(calls, key)
    ensures Replies(State(map[], start), calls, key) == LoneReplies(None, calls, key)
  {
    RepliesAgree(State(map[], start), None, start, calls, key);
  }

  // ------------------------------------------------------------ window bound

  /** No bucket is dated later than `now` or overdrawn. */
  ghost predicate Sound(s: State, now: int) {
    forall k :: k in s.buckets ==> s.buckets[k].tokens >= 0.0 && s.buckets[k].last <= now
  }

  lemma SoundStep(s: State, prior: int, c: Call)
    requires Sound(s, prior) && prior <= c.now
    ensures Sound(Allowed(s, c).0, c.now)
  {
    if Limits(c.rule) {
      var s1 := Collected(s, c.now);
      assert Sound(s1, c.now);
      var b := BucketFor(s1, c.key, c.rule, c.now);
      DrawKeeps(b, c.rule, c.now);
      hide Collected, Draw;
      assert Sound(s1.(buckets := s1.buckets[c.key := Draw(b, c.rule, c.now).0]), c.now);
    }
  }

  lemma {:induction false} RunIsSound(s: State, prior: int, calls: seq<Call>, now: int)
    requires Sound(s, prior) && Ordered(prior, calls) && prior <= now && Until(calls, now)
    ensures Sound(After(s, calls), now)
    decreases |calls|
  {
    if calls != [] {
      SoundStep(s, prior, calls[0]);
      hide Allowed, Sound;
      RunIsSound(Allowed(s, calls[0]).0, calls[0].now, calls[1..], now);
    }
  }

  /** Tokens earned in `d` nanoseconds. */
  function Credit(rule: Rule, d: int): real
    requires Limits(rule)
  {
    Seconds(d) * Rate(rule)
  }

  function Level(b: Option<Bucket>, rule: Rule, now: int): real
    requires Limits(rule)
  {
    if b.None? then rule.burst as real else Refilled(b.value, rule, now)
  }

  ghost predicate NotOverdrawn(b: Option<Bucket>, now: int) {
    b.Some? ==> b.value.tokens >= 0.0 && b.value.last <= now
  }

  lemma LevelIsPositive(b: Option<Bucket>, rule: Rule, now: int)
    requires Limits(rule) && NotOverdrawn(b, now)
    ensures 0.0 <= Level(b, rule, now) <= rule.burst as real
  {
    if b.Some? {
      RateFacts(rule, now - b.value.last);
    }
  }

  lemma LevelGrows(b: Option<Bucket>, rule: Rule, from: int, to: int)
    requires Limits(rule) && from <= to
    ensures Level(b, rule, to) <= Level(b, rule, from) + Credit(rule, to - from)
  {
    RateFacts(rule, to - from);
    if b.Some? {
      var r := Rate(rule);
      assert Seconds(to - b.value.last) == Seconds(from - b.value.last) + Seconds(to - from);
      assert Seconds(to - b.value.last) * r == Seconds(from - b.value.last) * r + Seconds(to - from) * r;
    }
  }

  /** Every grant is paid for by one token. */
  lemma DrawPays(b: Option<Bucket>, c: Call)
    requires Limits(c.rule)
    ensures Level(DrawLone(b, c).0, c.rule, c.now) + (if DrawLone(b, c).1.ok then 1.0 else 0.0) <= Level(b, c.rule, c.now)
  {
    var b0 := if b.None? then Fresh(c.rule, c.now) else b.value;
    var (b1, a) := Draw(b0, c.rule, c.now);
    ZeroElapsed(b1, c.rule);
    ZeroElapsed(b0.(last := c.now), c.rule);
  }

  lemma ZeroElapsed(b: Bucket, rule: Rule)
    requires Limits(rule)
    ensures Refilled(b, rule, b.last) == if b.tokens > rule.burst as real then rule.burst as real else b.tokens
  {
    assert Seconds(0) * Rate(rule) == 0.0;
  }

  lemma Elapse(b: Option<Bucket>, rule: Rule, from: int, now: int, till: int)
    requires Limits(rule) && from <= now
    ensures Level(b, rule, now) + Credit(rule, till - now) <= Level(b, rule, from) + Credit(rule, till - from)
  {
    LevelGrows(b, rule, from, now);
    var r := Rate(rule);
    assert Seconds(till - from) == Seconds(till - now) + Seconds(now - from);
    assert Seconds(till - from) * r == Seconds(till - now) * r + Seconds(now - from) * r;
  }

  lemma DrawLoneKeeps(b: Option<Bucket>, c: Call)
    requires Limits(c.rule) && NotOverdrawn(b, c.now)
    ensures NotOverdrawn(DrawLone(b, c).0, c.now)
  {
    DrawKeeps(if b.None? then Fresh(c.rule, c.now) else b.value, c.rule, c.now);
  }

  lemma {:induction false} LoneWindow(b: Option<Bucket>, calls: seq<Call>, key: string, rule: Rule, from: int, till: int)
    requires Limits(rule) && from <= till && NotOverdrawn(b, from)
    requires Ordered(from, calls) && Until(calls, till) && OneRule(calls, key, rule)
    ensures Granted(LoneReplies(b, calls, key)) as real <= Level(b, rule, from) + Credit(rule, till - from)
    decreases |calls|
  {
    if calls == [] {
      RateFacts(rule, till - from);
      LevelIsPositive(b, rule, from);
    } else {
      var c := calls[0];
      assert Until(calls[1..], till) && OneRule(calls[1..], key, rule);
      assert c.now <= till && (c.key == key ==> c.rule == rule);
      Elapse(b, rule, from, c.now, till);
      hide Level, Credit, DrawLone, OneRule, Until, NotOverdrawn;
      if c.key != key {
        LoneWindow(b, calls[1..], key, rule, c.now, till);
      } else {
        DrawLoneKeeps(b, c);
        LoneWindow(DrawLone(b, c).0, calls[1..], key, rule, c.now, till);
        DrawPays(b, c);
        GrantedHead(DrawLone(b, c).1, LoneReplies(DrawLone(b, c).0, calls[1..], key));
      }
    }
  }

  lemma GrantedHead(a: Answer, rest: seq<Answer>)
    ensures Granted([a] + rest) == (if a.ok then 1 else 0) + Granted(rest)
  {
    assert ([a] + rest)[1..] == rest;
  }

  lemma {:induction false} GrantedAdds(a: seq<Answer>, b: seq<Answer>)
    ensures Granted(a + b) == Granted(a) + Granted(b)
  {
    if a == [] {
      assert a + b == b;
    } else {
      GrantedAdds(a[1..], b);
      assert (a + b)[1..] == a[1..] + b;
    }
  }

  /** In any window of length `span` at most burst + burst * span / per requests are granted. */
  ghost predicate BoundedBy(rule: Rule, per: int) {
    forall start: int, past: seq<Call>, window: seq<Call>, key: string, from: int, span: nat
      {:trigger Windowed(start, past, window, key, rule, from, span)} ::
      Windowed(start, past, window, key, rule, from, span) ==>
        (Granted(Replies(After(State(map[], start), past), window, key)) - rule.burst) * per <= rule.burst * span
  }

  /** The bound that a rule states. */
  ghost predicate Bounded(rule: Rule) {
    BoundedBy(rule, rule.per)
  }

  ghost predicate Windowed(start: int, past: seq<Call>, window: seq<Call>, key: string, rule: Rule, from: int, span: nat) {
    && Ordered(start, past) && start <= from && Until(past, from)
    && Ordered(from, window) && Until(window, from + span) && OneRule(window, key, rule)
  }

  lemma RealBound(n: nat, rule: Rule, span: nat)
    requires Limits(rule) && n as real <= rule.burst as real + Credit(rule, span)
    ensures (n - rule.burst) * rule.per <= rule.burst * span
  {
    RateFacts(rule, span);
    var x := span as real * rule.burst as real / rule.per as real;
    assert x * rule.per as real == (rule.burst * span) as real;
    assert (n - rule.burst) as real <= x;
    assert (n - rule.burst) as real * rule.per as real <= x * rule.per as real;
  }

  /** The rule that idle buckets obey in effect: one dropped for being idle comes back full. */
  function Effective(rule: Rule): Rule {
    rule.(per := Min(rule.per, IDLE + 1))
  }

  lemma FasterRefill(b: Bucket, rule: Rule, now: int)
    requires Limits(rule) && b.last <= now
    ensures Limits(Effective(rule)) && Refilled(b, rule, now) <= Refilled(b, Effective(rule), now)
  {
    var dt, quick := now - b.last, Effective(rule);
    RateFacts(rule, dt);
    RateFacts(quick, dt);
    Quotients(dt as real * rule.burst as real, rule.per as real, quick.per as real);
    hide Rate, Seconds, Effective;
  }

  lemma Quotients(a: real, p: real, q: real)
    requires a >= 0.0 && 0.0 < q <= p
    ensures a / p <= a / q
  {
    var x, y := a / p, a / q;
    assert x * p == a == y * q;
    Scaled(y, x, q);
    assert x * (p - q) >= 0.0;
    assert x * q == x * p - x * (p - q);
  }

  function Kept(s: State, key: string): Option<Bucket> {
    if key in s.buckets then Some(s.buckets[key]) else None
  }

  /** Dropping a bucket gives away nothing the effective rule would not have refilled. */
  lemma CollectionPays(s: State, key: string, rule: Rule, now: int)
    requires Limits(rule) && Sound(s, now)
    ensures Level(Kept(Collected(s, now), key), Effective(rule), now) <= Level(Kept(s, key), Effective(rule), now)
  {
    if key in s.buckets && key !in Collected(s, now).buckets {
      RateFacts(Effective(rule), now - s.buckets[key].last);
    }
  }

  /** Every grant is paid for by one token of the effective rule. */
  lemma GrantPays(b: Option<Bucket>, c: Call)
    requires Limits(c.rule) && NotOverdrawn(b, c.now)
    ensures var d := Draw(if b.None? then Fresh(c.rule, c.now) else b.value, c.rule, c.now);
      Level(Some(d.0), Effective(c.rule), c.now) + (if d.1.ok then 1.0 else 0.0) <= Level(b, Effective(c.rule), c.now)
  {
    var b0 := if b.None? then Fresh(c.rule, c.now) else b.value;
    var d := Draw(b0, c.rule, c.now);
    FasterRefill(b0, c.rule, c.now);
    ZeroElapsed(d.0, Effective(c.rule));
    ZeroElapsed(b0.(last := c.now), c.rule);
    ZeroElapsed(b0.(last := c.now), Effective(c.rule));
    hide Rate, Seconds;
  }

  lemma StepPays(s: State, c: Call, key: string, rule: Rule)
    requires Limits(rule) && Sound(s, c.now) && (c.key == key ==> c.rule == rule)
    ensures Level(Kept(Allowed(s, c).0, key), Effective(rule), c.now) + (if c.key == key && Allowed(s, c).1.ok then 1.0 else 0.0)
         <= Level(Kept(s, key), Effective(rule), c.now)
  {
    CollectionPays(s, key, rule, c.now);
    var s1 := Collected(s, c.now);
    if c.key == key {
      assert Sound(s1, c.now);
      GrantPays(Kept(s1, key), c);
    }
    hide Collected, Draw, Level, Effective;
  }

  lemma {:induction false} StateWindow(s: State, calls: seq<Call>, key: string, rule: Rule, from: int, till: int)
    requires Limits(rule) && from <= till && Sound(s, from)
    requires Ordered(from, calls) && Until(calls, till) && OneRule(calls, key, rule)
    ensures Granted(Replies(s, calls, key)) as real <= Level(Kept(s, key), Effective(rule), from) + Credit(Effective(rule), till - from)
    decreases |calls|
  {
    if calls == [] {
      RateFacts(Effective(rule), till - from);
      LevelIsPositive(Kept(s, key), Effective(rule), from);
    } else {
      var c := calls[0];
      var s' := Allowed(s, c).0;
      assert Until(calls[1..], till) && OneRule(calls[1..], key, rule) && c.now <= till && (c.key == key ==> c.rule == rule);
      SoundLater(s, from, c.now);
      Elapse(Kept(s, key), Effective(rule), from, c.now, till);
      SoundStep(s, from, c);
      StepPays(s, c, key, rule);
      GrantedHead(Allowed(s, c).1, Replies(s', calls[1..], key));
      hide Level, Credit, Allowed, OneRule, Until, Sound, Effective;
      StateWindow(s', calls[1..], key, rule, c.now, till);
      assert [] + Replies(s', calls[1..], key) == Replies(s', calls[1..], key);
    }
  }

  lemma SoundLater(s: State, now: int, later: int)
    requires Sound(s, now) && now <= later
    ensures Sound(s, later)
  {
  }

  lemma SoundBucket(s: State, key: string, now: int)
    requires Sound(s, now)
    ensures NotOverdrawn(Kept(s, key), now)
  {
  }

  /** In any window of any run at most burst + burst * span / min(per, fifteen minutes) requests are granted. */
  lemma WindowBound(start: int, past: seq<Call>, window: seq<Call>, key: string, rule: Rule, from: int, span: nat)
    requires Limits(rule) && Windowed(start, past, window, key, rule, from, span)
    ensures (Granted(Replies(After(State(map[], start), past), window, key)) - rule.burst) * Effective(rule).per <= rule.burst * span
  {
    hide Sound, After, Granted, Replies, Ordered, Until, OneRule, NotOverdrawn, Level, Credit;
    var s := After(State(map[], start), past);
    NothingIsSound(start);
    RunIsSound(State(map[], start), start, past, from);
    StateWindow(s, window, key, rule, from, from + span);
    SoundBucket(s, key, from);
    LevelIsPositive(Kept(s, key), Effective(rule), from);
    RealBound(Granted(Replies(s, window, key)), Effective(rule), span);
  }

  lemma NothingIsSound(now: int)
    ensures Sound(State(map[], now), now)
  {
  }

  // ------------------------------------------------- the rules that are too long

  function Volley(c: Call, n: nat): seq<Call> {
    seq(n, _ => c)
  }

  function Tokens(s: State, c: Call): real
    requires Limits(c.rule)
  {
    Refilled(BucketFor(Collected(s, c.now), c.key, c.rule, c.now), c.rule, c.now)
  }

  /** A bucket holding n tokens grants n simultaneous requests. */
  lemma {:induction false} VolleyGranted(s: State, c: Call, n: nat)
    requires Limits(c.rule) && Tokens(s, c) >= n as real
    ensures Granted(Replies(s, Volley(c, n), c.key)) == n
    ensures n > 0 ==> c.key in After(s, Volley(c, n)).buckets && After(s, Volley(c, n)).buckets[c.key].last == c.now
    ensures c.now - s.lastGC < SWEEP ==> After(s, Volley(c, n)).lastGC == s.lastGC
    decreases n
  {
    if n > 0 {
      assert Volley(c, n)[0] == c && Volley(c, n)[1..] == Volley(c, n - 1);
      var s' := Allowed(s, c).0;
      VolleyStep(s, c);
      hide Allowed, Tokens, Collected;
      VolleyGranted(s', c, n - 1);
      GrantedHead(Allowed(s, c).1, Replies(s', Volley(c, n - 1), c.key));
      if n == 1 {
        assert Volley(c, 0) == [];
      }
    }
  }

  lemma VolleyStep(s: State, c: Call)
    requires Limits(c.rule) && Tokens(s, c) >= 1.0
    ensures Allowed(s, c).1.ok && Tokens(Allowed(s, c).0, c) >= Tokens(s, c) - 1.0
    ensures c.key in Allowed(s, c).0.buckets && Allowed(s, c).0.buckets[c.key].last == c.now
    ensures c.now - s.lastGC < SWEEP ==> Allowed(s, c).0.lastGC == s.lastGC
  {
    var s' := Allowed(s, c).0;
    var b := s'.buckets[c.key];
    assert b.last == c.now && b.tokens == Tokens(s, c) - 1.0;
    ZeroElapsed(b, c.rule);
    assert Collected(s', c.now).buckets[c.key] == b;
  }

  /** Empties the bucket, and again after `gap`. */
  function Doubled(rule: Rule, key: string, gap: int): seq<Call>
    requires Limits(rule)
  {
    Volley(Call(key, rule, 0), rule.burst) + Volley(Call(key, rule, gap), rule.burst)
  }

  lemma {:induction false} RepliesJoin(s: State, a: seq<Call>, b: seq<Call>, key: string)
    ensures Replies(s, a + b, key) == Replies(s, a, key) + Replies(After(s, a), b, key)
    decreases |a|
  {
    if a == [] {
      assert a + b == b;
    } else {
      assert (a + b)[1..] == a[1..] + b;
      hide Allowed;
      RepliesJoin(Allowed(s, a[0]).0, a[1..], b, key);
    }
  }

  lemma FreshTokens(s: State, c: Call)
    requires Limits(c.rule) && c.key !in Collected(s, c.now).buckets
    ensures Tokens(s, c) == c.rule.burst as real
  {
    ZeroElapsed(Fresh(c.rule, c.now), c.rule);
  }

  /** A bucket is full again once it has been idle for the effective period, dropped or not. */
  lemma FullAgain(s: State, c: Call)
    requires Limits(c.rule) && Sound(s, 0) && c.now >= Effective(c.rule).per && s.lastGC == 0
    requires c.key in s.buckets ==> s.buckets[c.key].last == 0
    ensures Tokens(s, c) == c.rule.burst as real
  {
    if c.key in Collected(s, c.now).buckets {
      var b := s.buckets[c.key];
      IdleIsFresh(b, c.rule, c.now);
      RateFacts(c.rule, c.now - b.last);
    } else {
      FreshTokens(s, c);
    }
  }

  lemma DoubledGranted(rule: Rule, key: string, gap: int)
    requires Limits(rule) && gap >= Effective(rule).per
    ensures Granted(Replies(State(map[], 0), Doubled(rule, key, gap), key)) == 2 * rule.burst
  {
    var s0 := State(map[], 0);
    var c1, c2 := Call(key, rule, 0), Call(key, rule, gap);
    var v1, v2 := Volley(c1, rule.burst), Volley(c2, rule.burst);
    FreshTokens(s0, c1);
    VolleyGranted(s0, c1, rule.burst);
    var s1 := After(s0, v1);
    NothingIsSound(0);
    VolleyOrdered(0, c1, rule.burst, []);
    assert v1 + [] == v1;
    RunIsSound(s0, 0, v1, 0);
    FullAgain(s1, c2);
    VolleyGranted(s1, c2, rule.burst);
    RepliesJoin(s0, v1, v2, key);
    GrantedAdds(Replies(s0, v1, key), Replies(s1, v2, key));
  }

  lemma {:induction false} VolleyOrdered(from: int, c: Call, n: nat, rest: seq<Call>)
    requires from <= c.now && Ordered(c.now, rest)
    ensures Ordered(from, Volley(c, n) + rest)
    decreases n
  {
    if n == 0 {
      assert Volley(c, n) + rest == rest;
    } else {
      VolleyOrdered(c.now, c, n - 1, rest);
      assert (Volley(c, n) + rest)[1..] == Volley(c, n - 1) + rest;
    }
  }

  lemma DoubledWindow(rule: Rule, key: string, gap: nat)
    requires Limits(rule)
    ensures Windowed(0, [], Doubled(rule, key, gap), key, rule, 0, gap)
  {
    var c1, c2 := Call(key, rule, 0), Call(key, rule, gap);
    var v2 := Volley(c2, rule.burst);
    assert v2 + [] == v2;
    VolleyOrdered(0, c2, rule.burst, []);
    VolleyOrdered(0, c1, rule.burst, v2);
  }

  /** A smaller period asks for less. */
  lemma Looser(granted: int, burst: int, per: int, q: int, span: nat)
    requires burst > 0 && 0 < q <= per && (granted - burst) * per <= burst * span
    ensures (granted - burst) * q <= burst * span
  {
    var x := granted - burst;
    if x > 0 {
      assert x * per - x * q == x * (per - q);
      assert x * (per - q) >= 0;
    } else {
      assert x * q <= 0 <= burst * span;
    }
  }

  /**
   * Every rule keeps some rate in every window of every run, and which one is exact: a burst per period `q` holds if
   * and only if `q` is at most the rule's own period and at most the time after which an idle bucket is dropped.
   */
  lemma WindowBoundExactly(rule: Rule, q: int)
    requires Limits(rule) && q > 0
    ensures BoundedBy(rule, q) <==> q <= rule.per && q <= IDLE + 1
  {
    var per := Effective(rule).per;
    if q <= per {
      forall start: int, past: seq<Call>, window: seq<Call>, key: string, from: int, span: nat
        | Windowed(start, past, window, key, rule, from, span)
        ensures (Granted(Replies(After(State(map[], start), past), window, key)) - rule.burst) * q <= rule.burst * span
      {
        WindowBound(start, past, window, key, rule, from, span);
        Looser(Granted(Replies(After(State(map[], start), past), window, key)), rule.burst, per, q, span);
      }
    } else {
      DoubledWindow(rule, "", per);
      DoubledGranted(rule, "", per);
      hide Windowed, Replies, Granted, Doubled;
      assert After(State(map[], 0), []) == State(map[], 0);
      assert BoundedBy(rule, q) ==> (2 * rule.burst - rule.burst) * q <= rule.burst * per;
      Larger(rule.burst, q, per);
    }
  }

  lemma Larger(burst: int, q: int, per: int)
    requires burst > 0 && q > per
    ensures burst * q > burst * per
  {
  }

  /** Throwing idle buckets away never changes a reply to a key that is always called with `rule`. */
  ghost predicate CollectionInvisible(rule: Rule) {
    forall start: int, calls: seq<Call>, key: string {:trigger CallsUnder(start, calls, key, rule)} ::
      CallsUnder(start, calls, key, rule) ==> Replies(State(map[], start), calls, key) == LoneReplies(None, calls, key)
  }

  ghost predicate CallsUnder(start: int, calls: seq<Call>, key: string, rule: Rule) {
    Ordered(start, calls) && OneRule(calls, key, rule)
  }

  lemma CollectionInvisibleExactly(rule: Rule)
    requires Limits(rule)
    ensures CollectionInvisible(rule) <==> rule.per <= IDLE + 1
  {
    if rule.per <= IDLE + 1 {
      forall start: int, calls: seq<Call>, key: string | CallsUnder(start, calls, key, rule)
        ensures Replies(State(map[], start), calls, key) == LoneReplies(None, calls, key)
      {
        KeysAreIsolated(start, calls, key);
      }
    } else {
      var calls := Doubled(rule, "", IDLE + 1);
      DoubledWindow(rule, "", IDLE + 1);
      DoubledGranted(rule, "", IDLE + 1);
      LoneWindow(None, calls, "", rule, 0, IDLE + 1);
      RateFacts(rule, IDLE + 1);
      assert Granted(LoneReplies(None, calls, "")) < 2 * rule.burst;
      assert CallsUnder(0, calls, "", rule);
    }
  }

  // ------------------------------------------------------------- Retry-After

  /** The delay in seconds that `limit` puts into a refusal. */
  function RetryAfter(wait: int): int
    requires wait >= 0
  {
    wait / SECOND + 1
  }

  /** The wait of a refusal is exact to the nanosecond. */
  lemma WaitIsExact(b: Bucket, rule: Rule, now: int, later: int)
    requires Limits(rule) && b.tokens >= 0.0 && b.last <= now <= later
    requires !Draw(b, rule, now).1.ok
    ensures Draw(b, rule, now).1.wait >= 0
    ensures later - now > Draw(b, rule, now).1.wait ==> Draw(Draw(b, rule, now).0, rule, later).1.ok
    ensures later - now < Draw(b, rule, now).1.wait ==> !Draw(Draw(b, rule, now).0, rule, later).1.ok
  {
    var r, t := Rate(rule), Refilled(b, rule, now);
    RateFacts(rule, now - b.last);
    RateFacts(rule, later - now);
    var need := (1.0 - t) / r;
    var ns := SECOND as real;
    assert 0.0 <= t < 1.0;
    NeedArithmetic(t, r, ns, later - now);
    assert Seconds(later - now) == (later - now) as real / ns;
  }

  lemma NeedArithmetic(t: real, r: real, ns: real, d: int)
    requires 0.0 <= t < 1.0 && r > 0.0 && ns > 0.0 && d >= 0
    ensures ((1.0 - t) / r * ns).Floor >= 0
    ensures d > ((1.0 - t) / r * ns).Floor ==> t + d as real / ns * r >= 1.0
    ensures d < ((1.0 - t) / r * ns).Floor ==> t + d as real / ns * r < 1.0
  {
    var need := (1.0 - t) / r;
    assert need * r == 1.0 - t;
    Scaled(need, 0.0, r);
    Scaled(need, 0.0, ns);
    var x := d as real / ns;
    assert x * ns == d as real;
    Scaled(x, need, ns);
    Scaled(x, need, r);
  }

  ghost predicate Foreign(calls: seq<Call>, key: string) {
    forall i :: 0 <= i < |calls| ==> calls[i].key != key
  }

  lemma AgreesLater(s: State, b: Option<Bucket>, key: string, prior: int, now: int)
    requires Agrees(s, b, key, prior) && prior <= now
    ensures Agrees(s, b, key, now)
  {
  }

  /** Other keys' requests leave a bucket as it is or drop it for having been idle. */
  lemma {:induction false} ForeignRun(s: State, prior: int, calls: seq<Call>, till: int, key: string, b: Option<Bucket>)
    requires Agrees(s, b, key, prior) && Ordered(prior, calls + [Call(key, Rule(1, 1), till)]) && Foreign(calls, key)
    ensures Agrees(After(s, calls), b, key, till)
    decreases |calls|
  {
    var last := Call(key, Rule(1, 1), till);
    if calls == [] {
      assert calls + [last] == [last];
      AgreesLater(s, b, key, prior, till);
    } else {
      assert (calls + [last])[1..] == calls[1..] + [last];
      OtherAgrees(s, b, key, prior, calls[0]);
      hide Allowed, Agrees;
      ForeignRun(Allowed(s, calls[0]).0, calls[0].now, calls[1..], till, key, b);
    }
  }

  lemma {:induction false} OrderedBy(from: int, calls: seq<Call>, last: Call, same: Call)
    requires Ordered(from, calls + [last]) && same.now == last.now
    ensures Ordered(from, calls + [same]) && from <= last.now
    decreases |calls|
  {
    if calls == [] {
      assert calls + [last] == [last] && calls + [same] == [same];
    } else {
      assert (calls + [last])[1..] == calls[1..] + [last];
      assert (calls + [same])[1..] == calls[1..] + [same];
      OrderedBy(calls[0].now, calls[1..], last, same);
    }
  }

  /**
   * Whatever other keys do in the meantime, a client that waits the seconds it was told to is served:
   * its next request under the same rule, with none of its own in between, is never refused.
   */
  lemma RetryAfterSuffices(s: State, refused: Call, others: seq<Call>, next: Call)
    requires Sound(s, refused.now) && Limits(refused.rule) && !Allowed(s, refused).1.ok
    requires Foreign(others, refused.key) && Ordered(refused.now, others + [next])
    requires next.key == refused.key && next.rule == refused.rule
    ensures Allowed(s, refused).1.wait >= 0
    ensures next.now >= refused.now + RetryAfter(Allowed(s, refused).1.wait) * SECOND
      ==> Allowed(After(Allowed(s, refused).0, others), next).1.ok
  {
    var key, rule, now := refused.key, refused.rule, refused.now;
    OrderedBy(now, others, next, Call(key, Rule(1, 1), next.now));
    var b := BucketFor(Collected(s, now), key, rule, now);
    WaitIsExact(b, rule, now, next.now);
    DrawKeeps(b, rule, now);
    var b' := Draw(b, rule, now).0;
    var s1 := Allowed(s, refused).0;
    assert Agrees(s1, Some(b'), key, now);
    hide Sound;
    ForeignRun(s1, now, others, next.now, key, Some(b'));
    if next.now >= now + RetryAfter(Allowed(s, refused).1.wait) * SECOND {
      ServedLater(After(s1, others), b', next);
    }
  }

  /** A bucket that would serve a request does so even if it has been dropped. */
  lemma ServedLater(s: State, b: Bucket, c: Call)
    requires Limits(c.rule) && Agrees(s, Some(b), c.key, c.now)
    requires Draw(b, c.rule, c.now).1.ok
    ensures Allowed(s, c).1.ok
  {
    CollectionAgrees(s, Some(b), c.key, c.now, c.now);
    if c.key !in Collected(s, c.now).buckets {
      FreshTokens(s, c);
    }
  }

  // ---------------------------------------------------------- the rules in use

  const LOGIN_POLL := Rule(30, MINUTE)
  const LOGIN_START := Rule(10, 10 * MINUTE)
  const UPLOAD := Rule(20, HOUR)
  const POST := Rule(30, HOUR)
  const STATUS := Rule(120, MINUTE)
  const REPLY := Rule(60, 10 * MINUTE)
  const REACTION := Rule(120, 10 * MINUTE)
  const READ := Rule(600, MINUTE)
  const MUTATION := Rule(120, MINUTE)
  const MEDIA := Rule(600, MINUTE)
  const REPORT := Rule(10, HOUR)

  /** Eight rules of the table keep their rate in every window; the three hourly ones keep it per fifteen minutes instead. */
  lemma RuleTable(rule: Rule)
    requires rule in {LOGIN_POLL, LOGIN_START, UPLOAD, POST, STATUS, REPLY, REACTION, READ, MUTATION, MEDIA, REPORT}
    ensures Bounded(rule) <==> rule !in {UPLOAD, POST, REPORT}
    ensures CollectionInvisible(rule) <==> rule !in {UPLOAD, POST, REPORT}
    ensures rule in {UPLOAD, POST, REPORT} ==> BoundedBy(rule, IDLE + 1) && !BoundedBy(rule, IDLE + 2)
  {
    WindowBoundExactly(rule, rule.per);
    WindowBoundExactly(rule, IDLE + 1);
    WindowBoundExactly(rule, IDLE + 2);
    CollectionInvisibleExactly(rule);
    hide BoundedBy, CollectionInvisible;
  }
}
