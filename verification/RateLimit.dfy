/** The token bucket the Redis script evaluates, in exact arithmetic. */
module RateLimit {
  import opened Results

  datatype Limit = Limit(rate: real, capacity: real)

  predicate Sane(lim: Limit) { lim.rate > 0.0 && lim.capacity >= 0.0 }

  datatype Bucket = Bucket(tokens: real, ts: real)

  const REQUESTED := 1.0

  function Max(a: real, b: real): real { if a < b then b else a }

  function Min(a: real, b: real): real { if a < b then a else b }

  /** Tokens on hand at `now`; a client never seen has a full bucket. */
  function Refilled(lim: Limit, b: Option<Bucket>, now: real): real {
    match b
    case None => lim.capacity
    case Some(k) => Min(lim.capacity, k.tokens + Max(0.0, now - k.ts) * lim.rate)
  }

  predicate Admits(lim: Limit, b: Option<Bucket>, now: real) { Refilled(lim, b, now) >= REQUESTED }

  function Spent(lim: Limit, b: Option<Bucket>, now: real): Bucket {
    var tokens := Refilled(lim, b, now);
    Bucket(if tokens >= REQUESTED then tokens - REQUESTED else tokens, now)
  }

  /**
   The ledger of one evaluation, exactly: what is granted and what is left add up to what was there and what has come
   back, and a token is granted whenever there is a whole one.
   */
  lemma ExactLedger(lim: Limit, b: Option<Bucket>, now: real)
    ensures var all := if b.None? then lim.capacity
                       else b.value.tokens + lim.rate * if now > b.value.ts then now - b.value.ts else 0.0;
            var onHand := if all < lim.capacity then all else lim.capacity;
            && (Admits(lim, b, now) <==> onHand >= 1.0)
            && (if Admits(lim, b, now) then 1.0 else 0.0) + Spent(lim, b, now).tokens == onHand
            && Spent(lim, b, now).ts == now
  {
  }

  // --- Runs of one client against a key that is kept, for any timestamps ---

  /** The bucket after the first n requests, kept for ever. */
  function After(lim: Limit, times: seq<real>, n: nat): Option<Bucket>
    requires n <= |times|
  {
    if n == 0 then None else Some(Spent(lim, After(lim, times, n - 1), times[n - 1]))
  }

  predicate Allowed(lim: Limit, times: seq<real>, k: nat)
    requires k < |times|
  {
    Admits(lim, After(lim, times, k), times[k])
  }

  lemma {:induction false} TokensInRange(lim: Limit, times: seq<real>, n: nat)
    requires Sane(lim) && 0 < n <= |times|
    ensures 0.0 <= After(lim, times, n).value.tokens <= lim.capacity && After(lim, times, n).value.ts == times[n - 1]
  {
    if n > 1 {
      TokensInRange(lim, times, n - 1);
      var b := After(lim, times, n - 1).value;
      assert Max(0.0, times[n - 1] - b.ts) * lim.rate >= 0.0;
    }
  }

  function Answers(lim: Limit, times: seq<real>): (r: seq<bool>)
    ensures |r| == |times|
  {
    seq(|times|, k requires 0 <= k < |times| => Allowed(lim, times, k))
  }

  function Count(answers: seq<bool>, first: nat, last: nat): nat
    requires first <= last <= |answers|
    decreases last
  {
    if first == last then 0 else Count(answers, first, last - 1) + if answers[last - 1] then 1 else 0
  }

  /** The time the client's clock moved forwards between requests `first` and `last`; moves backwards count nothing. */
  function Forwards(times: seq<real>, first: nat, last: nat): real
    requires first <= last < |times|
    decreases last
  {
    if first == last then 0.0 else Forwards(times, first, last - 1) + Max(0.0, times[last] - times[last - 1])
  }

  lemma Distribute(rate: real, a: real, b: real)
    ensures rate * (a + b) == rate * a + rate * b
  {
  }

  /** One request takes what it is granted out of what was there and what came back since. */
  lemma RequestSpends(lim: Limit, b: Bucket, now: real)
    requires Sane(lim)
    ensures (if Admits(lim, Some(b), now) then 1.0 else 0.0) + Spent(lim, Some(b), now).tokens
            <= b.tokens + lim.rate * Max(0.0, now - b.ts)
  {
  }

  function Granted(allowed: bool): real { if allowed then 1.0 else 0.0 }

  lemma NextRequestSpends(lim: Limit, times: seq<real>, k: nat)
    requires Sane(lim) && 0 < k < |times|
    ensures Granted(Allowed(lim, times, k)) + After(lim, times, k + 1).value.tokens
            <= After(lim, times, k).value.tokens + lim.rate * Max(0.0, times[k] - times[k - 1])
  {
    TokensInRange(lim, times, k);
    RequestSpends(lim, After(lim, times, k).value, times[k]);
  }

  function Total(s: seq<real>): real { if s == [] then 0.0 else Total(s[..|s| - 1]) + s[|s| - 1] }

  /** What is granted and left after each request is paid for by what was left and gained before it. */
  lemma {:induction false} Ledger(full: real, granted: seq<real>, left: seq<real>, gained: seq<real>)
    requires 0 < |granted| == |left| == |gained| && gained[0] == 0.0
    requires granted[0] + left[0] <= full
    requires forall k | 0 < k < |granted| :: granted[k] + left[k] <= left[k - 1] + gained[k]
    ensures Total(granted) + left[|left| - 1] <= full + Total(gained)
  {
    var n := |granted| - 1;
    if n == 0 {
      assert granted[..0] == [] && gained[..0] == [];
    } else {
      Ledger(full, granted[..n], left[..n], gained[..n]);
    }
  }

  function GrantedIn(answers: seq<bool>, first: nat, last: nat): (r: seq<real>)
    requires first <= last <= |answers|
    ensures |r| == last - first
  {
    seq(last - first, i requires 0 <= i < last - first => Granted(answers[first + i]))
  }

  function LeftIn(lim: Limit, times: seq<real>, first: nat, last: nat): (r: seq<real>)
    requires first <= last <= |times|
    ensures |r| == last - first
  {
    seq(last - first, i requires 0 <= i < last - first => After(lim, times, first + i + 1).value.tokens)
  }

  function GainedIn(lim: Limit, times: seq<real>, first: nat, last: nat): (r: seq<real>)
    requires first <= last <= |times|
    ensures |r| == last - first
  {
    seq(last - first, i requires 0 <= i < last - first =>
      if i == 0 then 0.0 else lim.rate * Max(0.0, times[first + i] - times[first + i - 1]))
  }

  lemma {:induction false} CountIsTotal(answers: seq<bool>, first: nat, last: nat)
    requires first <= last <= |answers|
    ensures Count(answers, first, last) as real == Total(GrantedIn(answers, first, last))
    decreases last
  {
    if first < last {
      CountIsTotal(answers, first, last - 1);
      var all := GrantedIn(answers, first, last);
      assert all[..last - 1 - first] == GrantedIn(answers, first, last - 1);
      assert all[last - 1 - first] == Granted(answers[last - 1]);
    }
  }

  lemma {:induction false} GainIsRefill(lim: Limit, times: seq<real>, first: nat, last: nat)
    requires first < last <= |times|
    ensures Total(GainedIn(lim, times, first, last)) == lim.rate * Forwards(times, first, last - 1)
    decreases last
  {
    var gained := GainedIn(lim, times, first, last);
    if last == first + 1 {
      assert gained == [0.0] && gained[..0] == [];
      assert Forwards(times, first, first) == 0.0;
    } else {
      GainIsRefill(lim, times, first, last - 1);
      assert gained[..last - 1 - first] == GainedIn(lim, times, first, last - 1);
      Distribute(lim.rate, Forwards(times, first, last - 2), Max(0.0, times[last - 1] - times[last - 2]));
    }
  }

  lemma LedgerStarts(lim: Limit, times: seq<real>, first: nat, last: nat)
    requires Sane(lim) && first < last <= |times|
    ensures GrantedIn(Answers(lim, times), first, last)[0] + LeftIn(lim, times, first, last)[0] <= lim.capacity
  {
    var b := After(lim, times, first);
    assert Refilled(lim, b, times[first]) <= lim.capacity;
    assert Granted(Admits(lim, b, times[first])) + Spent(lim, b, times[first]).tokens == Refilled(lim, b, times[first]);
    assert GrantedIn(Answers(lim, times), first, last)[0] == Granted(Admits(lim, b, times[first]));
    assert LeftIn(lim, times, first, last)[0] == After(lim, times, first + 1).value.tokens;
  }

  lemma LedgerGoesOn(lim: Limit, times: seq<real>, first: nat, last: nat, k: nat)
    requires Sane(lim) && first < last <= |times| && 0 < k < last - first
    ensures GrantedIn(Answers(lim, times), first, last)[k] + LeftIn(lim, times, first, last)[k]
            <= LeftIn(lim, times, first, last)[k - 1] + GainedIn(lim, times, first, last)[k]
  {
    NextRequestSpends(lim, times, first + k);
  }

  lemma KeptAllowedAreBounded(lim: Limit, times: seq<real>, first: nat, last: nat)
    requires Sane(lim) && first < last <= |times|
    ensures Count(Answers(lim, times), first, last) as real <= lim.capacity + lim.rate * Forwards(times, first, last - 1)
  {
    var granted, left, gained := GrantedIn(Answers(lim, times), first, last), LeftIn(lim, times, first, last), GainedIn(lim, times, first, last);
    LedgerStarts(lim, times, first, last);
    forall k: nat | 0 < k < last - first ensures granted[k] + left[k] <= left[k - 1] + gained[k] {
      LedgerGoesOn(lim, times, first, last, k);
    }
    Ledger(lim.capacity, granted, left, gained);
    CountIsTotal(Answers(lim, times), first, last);
    GainIsRefill(lim, times, first, last);
    LastLeft(lim, times, first, last);
  }

  lemma LastLeft(lim: Limit, times: seq<real>, first: nat, last: nat)
    requires Sane(lim) && first < last <= |times|
    ensures LeftIn(lim, times, first, last)[last - first - 1] >= 0.0
  {
    TokensInRange(lim, times, last);
  }

  predicate Nondecreasing(times: seq<real>) {
    forall i, j | 0 <= i < j < |times| :: times[i] <= times[j]
  }

  lemma {:induction false} ForwardsTelescopes(times: seq<real>, first: nat, last: nat)
    requires Nondecreasing(times) && first <= last < |times|
    ensures Forwards(times, first, last) == times[last] - times[first]
    decreases last
  {
    if first < last { ForwardsTelescopes(times, first, last - 1); }
  }

  /** Requests allowed among the first n with a timestamp in [t1, t2]. */
  function CountWithin(answers: seq<bool>, times: seq<real>, n: nat, t1: real, t2: real): nat
    requires n <= |answers| == |times|
  {
    if n == 0 then 0
    else CountWithin(answers, times, n - 1, t1, t2) + if t1 <= times[n - 1] <= t2 && answers[n - 1] then 1 else 0
  }

  /** The window's requests are one stretch, so they are counted by Count. */
  lemma {:induction false} WindowIsAStretch(answers: seq<bool>, times: seq<real>, n: nat, t1: real, t2: real)
    returns (first: nat, last: nat)
    requires Nondecreasing(times) && n <= |answers| == |times|
    ensures first <= last <= n && CountWithin(answers, times, n, t1, t2) == Count(answers, first, last)
    ensures first < last ==> t1 <= times[first] && times[last - 1] <= t2
    ensures first < last < n ==> times[n - 1] > t2
    ensures first == last && n > 0 ==> times[n - 1] < t1 || times[n - 1] > t2
  {
    if n == 0 {
      first, last := 0, 0;
    } else {
      first, last := WindowIsAStretch(answers, times, n - 1, t1, t2);
      if t1 <= times[n - 1] <= t2 {
        if first == last { first, last := n - 1, n - 1; }
        last := n;
      }
    }
  }

  lemma Weaken(count: real, lim: Limit, narrow: real, wide: real)
    requires Sane(lim) && narrow <= wide && count <= lim.capacity + lim.rate * narrow
    ensures count <= lim.capacity + lim.rate * wide
  {
    assert lim.rate * narrow <= lim.rate * wide;
  }

  lemma StretchBound(lim: Limit, times: seq<real>, first: nat, last: nat, width: real)
    requires Sane(lim) && Nondecreasing(times) && first <= last <= |times| && width >= 0.0
    requires first < last ==> times[last - 1] - times[first] <= width
    ensures Count(Answers(lim, times), first, last) as real <= lim.capacity + lim.rate * width
  {
    if first == last {
      Weaken(0.0, lim, 0.0, width);
    } else {
      KeptAllowedAreBounded(lim, times, first, last);
      ForwardsTelescopes(times, first, last - 1);
      Weaken(Count(Answers(lim, times), first, last) as real, lim, Forwards(times, first, last - 1), width);
    }
  }

  // --- Expiry, on the store's own clock ---

  function Ceil(x: real): int { -((-x).Floor) }

  function Lifetime(lim: Limit): real
    requires lim.rate > 0.0
  {
    (Ceil(lim.capacity / lim.rate) + 1) as real
  }

  lemma LifetimeFills(lim: Limit)
    requires Sane(lim)
    ensures Lifetime(lim) - 1.0 >= lim.capacity / lim.rate >= 0.0
    ensures Lifetime(lim) - 2.0 < lim.capacity / lim.rate && Lifetime(lim).Floor as real == Lifetime(lim)
  {
  }

  /** Request k carries the stamp times[k] and reaches the store at served[k]; only the store's clock never steps back. */
  predicate Served(times: seq<real>, served: seq<real>) { |served| == |times| && Nondecreasing(served) }

  /** Each request renews the key, so the store has dropped it exactly if the one before was a lifetime ago; it never comes back. */
  predicate Dropped(lim: Limit, served: seq<real>, k: nat)
    requires Sane(lim) && k < |served|
  {
    k > 0 && served[k] >= served[k - 1] + Lifetime(lim)
  }

  /** The bucket the store holds after the first n requests. */
  function Stored(lim: Limit, times: seq<real>, served: seq<real>, n: nat): Option<Bucket>
    requires Sane(lim) && Served(times, served) && n <= |times|
    decreases n, 0
  {
    if n == 0 then None else Some(Spent(lim, Found(lim, times, served, n - 1), times[n - 1]))
  }

  /** What request k finds. */
  function Found(lim: Limit, times: seq<real>, served: seq<real>, k: nat): Option<Bucket>
    requires Sane(lim) && Served(times, served) && k < |times|
    decreases k, 1
  {
    if Dropped(lim, served, k) then None else Stored(lim, times, served, k)
  }

  function StoreAnswers(lim: Limit, times: seq<real>, served: seq<real>): (r: seq<bool>)
    requires Sane(lim) && Served(times, served)
    ensures |r| == |times|
  {
    seq(|times|, k requires 0 <= k < |times| => Admits(lim, Found(lim, times, served, k), times[k]))
  }

  predicate InStepAt(lim: Limit, times: seq<real>, served: seq<real>, k: nat)
    requires Sane(lim) && Served(times, served) && k < |times|
  {
    Dropped(lim, served, k) ==> Refilled(lim, After(lim, times, k), times[k]) == lim.capacity
  }

  /** Wherever the store has dropped the key, a bucket kept would have been full at the request's own stamp. */
  ghost predicate InStep(lim: Limit, times: seq<real>, served: seq<real>, n: nat)
    requires Sane(lim) && Served(times, served) && n <= |times|
  {
    forall k | 0 <= k < n :: InStepAt(lim, times, served, k)
  }

  predicate RequestAsIfKept(lim: Limit, times: seq<real>, served: seq<real>, k: nat)
    requires Sane(lim) && Served(times, served) && k < |times|
  {
    && Admits(lim, Found(lim, times, served, k), times[k]) == Allowed(lim, times, k)
    && Stored(lim, times, served, k + 1) == After(lim, times, k + 1)
  }

  /** The first n requests are answered, and leave the bucket, as if the key were kept for ever. */
  ghost predicate AsIfKept(lim: Limit, times: seq<real>, served: seq<real>, n: nat)
    requires Sane(lim) && Served(times, served) && n <= |times|
  {
    forall k | 0 <= k < n :: RequestAsIfKept(lim, times, served, k)
  }

  /** A full bucket and a missing one are served alike, and nothing else is served like a missing one. */
  lemma FullIsLikeMissing(lim: Limit, b: Option<Bucket>, now: real)
    requires Sane(lim)
    ensures Refilled(lim, b, now) == lim.capacity <==>
              Admits(lim, b, now) == Admits(lim, None, now) && Spent(lim, b, now) == Spent(lim, None, now)
  {
    var tokens := Refilled(lim, b, now);
    assert Refilled(lim, None, now) == lim.capacity;
    assert tokens >= REQUESTED ==> Spent(lim, b, now).tokens == tokens - REQUESTED;
    assert tokens < REQUESTED ==> Spent(lim, b, now).tokens == tokens;
  }

  lemma StoredAsKept(lim: Limit, times: seq<real>, served: seq<real>, n: nat)
    requires Sane(lim) && Served(times, served) && n <= |times| && AsIfKept(lim, times, served, n)
    ensures Stored(lim, times, served, n) == After(lim, times, n)
  {
    hide Spent, Admits;
    if n > 0 { assert RequestAsIfKept(lim, times, served, n - 1); }
  }

  lemma OneMoreRequest(lim: Limit, times: seq<real>, served: seq<real>, k: nat)
    requires Sane(lim) && Served(times, served) && k < |times| && Stored(lim, times, served, k) == After(lim, times, k)
    ensures RequestAsIfKept(lim, times, served, k) <==> InStepAt(lim, times, served, k)
  {
    hide Refilled, Dropped, Admits, Spent;
    FullIsLikeMissing(lim, After(lim, times, k), times[k]);
  }

  /** Expiry is invisible exactly as long as the stamps are in step with it. */
  lemma {:induction false} ExpiryIsInvisibleIff(lim: Limit, times: seq<real>, served: seq<real>, n: nat)
    requires Sane(lim) && Served(times, served) && n <= |times|
    ensures AsIfKept(lim, times, served, n) <==> InStep(lim, times, served, n)
  {
    hide RequestAsIfKept, InStepAt, Stored, After;
    if n > 0 {
      var k := n - 1;
      ExpiryIsInvisibleIff(lim, times, served, k);
      assert AsIfKept(lim, times, served, n) <==> AsIfKept(lim, times, served, k) && RequestAsIfKept(lim, times, served, k);
      assert InStep(lim, times, served, n) <==> InStep(lim, times, served, k) && InStepAt(lim, times, served, k);
      if AsIfKept(lim, times, served, k) {
        StoredAsKept(lim, times, served, k);
        OneMoreRequest(lim, times, served, k);
      }
    }
  }

  /** Stamps that fall behind the store's clock by at most a second per idle gap are in step with it. */
  lemma KeepingPaceIsInStep(lim: Limit, times: seq<real>, served: seq<real>)
    requires Sane(lim) && Served(times, served)
    requires forall k | 0 < k < |times| :: times[k] - times[k - 1] >= served[k] - served[k - 1] - 1.0
    ensures InStep(lim, times, served, |times|)
  {
    forall k | 0 <= k < |times| ensures InStepAt(lim, times, served, k) {
      if Dropped(lim, served, k) {
        TokensInRange(lim, times, k);
        LifetimeFills(lim);
        IdleLongEnough(lim, After(lim, times, k).value, times[k]);
      }
    }
  }

  lemma IdleLongEnough(lim: Limit, b: Bucket, now: real)
    requires Sane(lim) && b.tokens >= 0.0 && now - b.ts >= lim.capacity / lim.rate >= 0.0
    ensures Refilled(lim, Some(b), now) == lim.capacity
  {
    var full := lim.capacity / lim.rate;
    assert (now - b.ts) * lim.rate >= full * lim.rate == lim.capacity;
  }

  lemma AnswersAsKept(lim: Limit, times: seq<real>, served: seq<real>)
    requires Sane(lim) && Served(times, served) && InStep(lim, times, served, |times|)
    ensures StoreAnswers(lim, times, served) == Answers(lim, times)
  {
    hide Admits, Found, InStep, Allowed;
    ExpiryIsInvisibleIff(lim, times, served, |times|);
    forall k | 0 <= k < |times| ensures StoreAnswers(lim, times, served)[k] == Answers(lim, times)[k] {
      assert RequestAsIfKept(lim, times, served, k);
    }
  }

  // --- Exactly which requests are granted ---

  function OnHand(lim: Limit, times: seq<real>, k: nat): real
    requires k < |times|
  {
    Refilled(lim, After(lim, times, k), times[k])
  }

  /** What the clock's moving on brings back. */
  function Gain(lim: Limit, span: real): real { lim.rate * span }

  /** A full bucket and the refill of a span. */
  function Bound(lim: Limit, span: real): real { lim.capacity + Gain(lim, span) }

  lemma BoundAdds(lim: Limit, a: real, b: real)
    ensures Bound(lim, a + b) == Bound(lim, a) + Gain(lim, b) && Bound(lim, 0.0) == lim.capacity
  {
    Distribute(lim.rate, a, b);
  }

  /** What request k finds: what request k - 1 left, and the refill up to the capacity. */
  lemma LeftOver(lim: Limit, times: seq<real>, k: nat)
    requires 0 < k < |times|
    ensures var all := OnHand(lim, times, k - 1) - Granted(Allowed(lim, times, k - 1)) + Gain(lim, Max(0.0, times[k] - times[k - 1]));
            OnHand(lim, times, k) == if all < lim.capacity then all else lim.capacity
  {
    hide Admits, Spent, Refilled;
    var b := After(lim, times, k - 1);
    LeftOverOf(lim, b, times[k - 1], times[k]);
    assert After(lim, times, k) == Some(Spent(lim, b, times[k - 1]));
  }

  lemma LeftOverOf(lim: Limit, b: Option<Bucket>, before: real, now: real)
    ensures var all := Refilled(lim, b, before) - Granted(Admits(lim, b, before)) + Gain(lim, Max(0.0, now - before));
            Refilled(lim, Some(Spent(lim, b, before)), now) == if all < lim.capacity then all else lim.capacity
  {
  }

  /** Since the bucket was last full, what is on hand is the capacity and the refill less what was granted. */
  lemma {:induction false} SinceLastFull(lim: Limit, times: seq<real>, k: nat) returns (first: nat)
    requires k < |times|
    ensures first <= k
    ensures OnHand(lim, times, k) == Bound(lim, Forwards(times, first, k)) - Count(Answers(lim, times), first, k) as real
  {
    hide OnHand, Bound, Gain, Allowed;
    BoundAdds(lim, 0.0, 0.0);
    first := k;
    if k == 0 {
      FullAtFirst(lim, times);
    } else {
      LeftOver(lim, times, k);
      if OnHand(lim, times, k) != lim.capacity {
        first := SinceLastFull(lim, times, k - 1);
        BoundAdds(lim, Forwards(times, first, k - 1), Max(0.0, times[k] - times[k - 1]));
      }
    }
  }

  lemma FullAtFirst(lim: Limit, times: seq<real>)
    requires times != []
    ensures OnHand(lim, times, 0) == lim.capacity
  {
  }

  /** Request k on top of what was granted since `first` stays within a full bucket and its refill. */
  predicate Fits(lim: Limit, times: seq<real>, answers: seq<bool>, first: nat, k: nat)
    requires first <= k < |times| == |answers|
  {
    Count(answers, first, k) as real + 1.0 <= Bound(lim, Forwards(times, first, k))
  }

  ghost predicate WithinBudget(lim: Limit, times: seq<real>, answers: seq<bool>, k: nat)
    requires k < |times| == |answers|
  {
    forall first | 0 <= first <= k :: Fits(lim, times, answers, first, k)
  }

  lemma KeptAllowedIff(lim: Limit, times: seq<real>, k: nat)
    requires Sane(lim) && k < |times|
    ensures Allowed(lim, times, k) <==> WithinBudget(lim, times, Answers(lim, times), k)
  {
    if Allowed(lim, times, k) {
      forall first | 0 <= first <= k
        ensures Fits(lim, times, Answers(lim, times), first, k)
      {
        OneMoreFits(lim, times, first, k);
      }
    } else {
      hide Bound, Forwards, Count, After;
      var first := SinceLastFull(lim, times, k);
      assert OnHand(lim, times, k) < 1.0;
      assert !Fits(lim, times, Answers(lim, times), first, k);
    }
  }

  lemma OneMoreFits(lim: Limit, times: seq<real>, first: nat, k: nat)
    requires Sane(lim) && first <= k < |times| && Allowed(lim, times, k)
    ensures Count(Answers(lim, times), first, k) as real + 1.0 <= Bound(lim, Forwards(times, first, k))
  {
    hide Forwards, Allowed;
    KeptAllowedAreBounded(lim, times, first, k + 1);
    assert Count(Answers(lim, times), first, k + 1) == Count(Answers(lim, times), first, k) + 1;
  }

  /**
   For stamps in any order that are in step with expiry: a request is granted exactly if no stretch of requests up to
   it would be granted more than a full bucket and the refill of the stamps' forward moves. Never less, never more.
   */
  lemma GrantedIff(lim: Limit, times: seq<real>, served: seq<real>, k: nat)
    requires Sane(lim) && Served(times, served) && InStep(lim, times, served, |times|) && k < |times|
    ensures StoreAnswers(lim, times, served)[k] <==> WithinBudget(lim, times, StoreAnswers(lim, times, served), k)
  {
    hide InStep, StoreAnswers, WithinBudget;
    AnswersAsKept(lim, times, served);
    KeptAllowedIff(lim, times, k);
  }

  /** Since `first` the client has been granted all that a full bucket and the time passed allow, but for less than one. */
  predicate UsedUp(lim: Limit, times: seq<real>, answers: seq<bool>, first: nat, k: nat)
    requires first <= k < |times| == |answers|
  {
    Count(answers, first, k) as real + 1.0 > Bound(lim, times[k] - times[first])
  }

  lemma FitsOrUsedUp(lim: Limit, times: seq<real>, answers: seq<bool>, first: nat, k: nat)
    requires Nondecreasing(times) && first <= k < |times| == |answers|
    ensures Fits(lim, times, answers, first, k) <==> !UsedUp(lim, times, answers, first, k)
  {
    hide Bound;
    ForwardsTelescopes(times, first, k);
  }

  /** On one nondecreasing clock a request is refused exactly if some stretch ending there has used up its time. */
  lemma RefusedIffUsedUp(lim: Limit, times: seq<real>, k: nat)
    requires Sane(lim) && Nondecreasing(times) && k < |times|
    ensures !StoreAnswers(lim, times, times)[k] <==>
              exists first | 0 <= first <= k :: UsedUp(lim, times, StoreAnswers(lim, times, times), first, k)
  {
    hide InStep, StoreAnswers, Fits, UsedUp;
    KeepingPaceIsInStep(lim, times, times);
    GrantedIff(lim, times, times, k);
    forall first | 0 <= first <= k
      ensures Fits(lim, times, StoreAnswers(lim, times, times), first, k) <==> !UsedUp(lim, times, StoreAnswers(lim, times, times), first, k)
    {
      FitsOrUsedUp(lim, times, StoreAnswers(lim, times, times), first, k);
    }
  }

  lemma {:induction false} CountAtMost(answers: seq<bool>, first: nat, last: nat)
    requires first <= last <= |answers|
    ensures Count(answers, first, last) <= last - first
    decreases last
  {
    if first < last { CountAtMost(answers, first, last - 1); }
  }

  lemma {:induction false} SpacingAddsUp(lim: Limit, times: seq<real>, first: nat, k: nat)
    requires first <= k < |times| && forall j | 0 < j < |times| :: Gain(lim, times[j] - times[j - 1]) >= 1.0
    ensures Bound(lim, times[k] - times[first]) >= lim.capacity + (k - first) as real
    decreases k
  {
    hide Gain;
    BoundAdds(lim, 0.0, 0.0);
    if first < k {
      SpacingAddsUp(lim, times, first, k - 1);
      BoundAdds(lim, times[k - 1] - times[first], times[k] - times[k - 1]);
      assert times[k] - times[first] == (times[k - 1] - times[first]) + (times[k] - times[k - 1]);
    }
  }

  /** A client that leaves at least the time of one token between its requests is always served. */
  lemma SpacedRequestsAreServed(lim: Limit, times: seq<real>, k: nat)
    requires Sane(lim) && lim.capacity >= 1.0 && k < |times|
    requires forall j | 0 < j < |times| :: Gain(lim, times[j] - times[j - 1]) >= 1.0
    requires Nondecreasing(times)
    ensures StoreAnswers(lim, times, times)[k]
  {
    hide StoreAnswers, Bound, Gain;
    RefusedIffUsedUp(lim, times, k);
    forall first | 0 <= first <= k ensures !UsedUp(lim, times, StoreAnswers(lim, times, times), first, k) {
      CountAtMost(StoreAnswers(lim, times, times), first, k);
      SpacingAddsUp(lim, times, first, k);
    }
  }

  function Without(times: seq<real>, k: nat): (r: seq<real>)
    requires k < |times|
    ensures |r| == |times| - 1
    ensures forall j | 0 <= j < |r| :: r[j] == if j < k then times[j] else times[j + 1]
  {
    times[..k] + times[k + 1..]
  }

  lemma {:induction false} SameUpTo(lim: Limit, times: seq<real>, other: seq<real>, n: nat)
    requires n <= |times| && n <= |other| && forall j | 0 <= j < n :: times[j] == other[j]
    ensures After(lim, times, n) == After(lim, other, n)
  {
    if n > 0 { SameUpTo(lim, times, other, n - 1); }
  }

  /** A refusal only moves the stamp: nothing that comes back later is lost. */
  lemma RefusalKeepsRefill(lim: Limit, b: Option<Bucket>, now: real, later: real)
    requires Sane(lim) && !Admits(lim, b, now) && now <= later && (b.Some? ==> b.value.ts <= now)
    ensures Refilled(lim, Some(Spent(lim, b, now)), later) == Refilled(lim, b, later)
  {
    if b.Some? {
      Distribute(lim.rate, now - b.value.ts, later - now);
    }
  }

  lemma {:induction false} SameOnHand(lim: Limit, times: seq<real>, k: nat, j: nat)
    requires Sane(lim) && Nondecreasing(times) && k < j < |times| && !Allowed(lim, times, k)
    ensures OnHand(lim, times, j) == OnHand(lim, Without(times, k), j - 1)
    decreases j
  {
    var other := Without(times, k);
    if j == k + 1 {
      SameUpTo(lim, times, other, k);
      if k > 0 { TokensInRange(lim, times, k); }
      RefusalKeepsRefill(lim, After(lim, times, k), times[k], times[j]);
    } else {
      SameOnHand(lim, times, k, j - 1);
    }
  }

  /** On one nondecreasing clock a refused request changes no later answer: they are as if it had not been made. */
  lemma RefusalsLeaveNoTrace(lim: Limit, times: seq<real>, k: nat, j: nat)
    requires Sane(lim) && Nondecreasing(times) && k < j < |times| && !StoreAnswers(lim, times, times)[k]
    ensures Nondecreasing(Without(times, k))
    ensures StoreAnswers(lim, times, times)[j] == StoreAnswers(lim, Without(times, k), Without(times, k))[j - 1]
  {
    hide StoreAnswers, InStep;
    var other := Without(times, k);
    KeepingPaceIsInStep(lim, times, times);
    KeepingPaceIsInStep(lim, other, other);
    AnswersAsKept(lim, times, times);
    AnswersAsKept(lim, other, other);
    SameOnHand(lim, times, k, j);
  }

  // --- What the limiter grants ---

  /**
   For stamps in any order that are in step with expiry: what any stretch of requests is granted is at most a full
   bucket plus the refill of the stamps' forward moves.
   */
  lemma AllowedAreBounded(lim: Limit, times: seq<real>, served: seq<real>, first: nat, last: nat)
    requires Sane(lim) && Served(times, served) && InStep(lim, times, served, |times|) && first < last <= |times|
    ensures Count(StoreAnswers(lim, times, served), first, last) as real
            <= lim.capacity + lim.rate * Forwards(times, first, last - 1)
  {
    hide InStep, StoreAnswers, Answers;
    AnswersAsKept(lim, times, served);
    KeptAllowedAreBounded(lim, times, first, last);
  }

  /** The rate limit: on one nondecreasing clock no window of a given width admits more than the burst plus its refill. */
  lemma WindowBound(lim: Limit, times: seq<real>, start: real, width: real)
    requires Sane(lim) && Nondecreasing(times) && width >= 0.0
    ensures CountWithin(StoreAnswers(lim, times, times), times, |times|, start, start + width) as real
            <= lim.capacity + lim.rate * width
  {
    hide InStep, StoreAnswers, Answers;
    KeepingPaceIsInStep(lim, times, times);
    AnswersAsKept(lim, times, times);
    var answers := Answers(lim, times);
    var first, last := WindowIsAStretch(answers, times, |times|, start, start + width);
    StretchBound(lim, times, first, last, width);
  }

  lemma Inverse(delta: real)
    requires delta > 0.0
    ensures 1.0 / delta > 0.0 && delta * (1.0 / delta) == 1.0
  {
  }

  /** Two grants on one stamp: the second request's earlier stamp lets the third refill what was refilled before. */
  lemma GrantedTwice(lim: Limit, stamp: real, delta: real)
    requires delta > 0.0 && lim == Limit(1.0 / delta, 1.0)
    ensures var times := [stamp, stamp - delta, stamp]; Allowed(lim, times, 0) && Allowed(lim, times, 2)
  {
    var times := [stamp, stamp - delta, stamp];
    Inverse(delta);
    assert After(lim, times, 1) == Some(Bucket(0.0, stamp));
    assert After(lim, times, 2) == Some(Bucket(0.0, stamp - delta));
    assert Max(0.0, stamp - (stamp - delta)) == delta;
    assert Refilled(lim, Some(Bucket(0.0, stamp - delta)), stamp) == 1.0;
  }

  /** Stamps that step back break the bound, however small the step: some limit grants two where a window of no width allows one. */
  lemma SteppingBackRefillsTwice(stamp: real, delta: real, at: real) returns (lim: Limit)
    requires delta > 0.0
    ensures Sane(lim) && lim.capacity == 1.0
    ensures var times, served := [stamp, stamp - delta, stamp], [at, at, at];
            CountWithin(StoreAnswers(lim, times, served), times, 3, stamp, stamp) == 2
  {
    Inverse(delta);
    lim := Limit(1.0 / delta, 1.0);
    var times, served := [stamp, stamp - delta, stamp], [at, at, at];
    LifetimeFills(lim);
    GrantedTwice(lim, stamp, delta);
    assert forall k | 0 <= k < 3 :: InStepAt(lim, times, served, k);
    AnswersAsKept(lim, times, served);
    TwoInWindow(StoreAnswers(lim, times, served), stamp, delta);
  }

  lemma TwoInWindow(answers: seq<bool>, stamp: real, delta: real)
    requires |answers| == 3 && answers[0] && answers[2] && delta > 0.0
    ensures CountWithin(answers, [stamp, stamp - delta, stamp], 3, stamp, stamp) == 2
  {
    var times := [stamp, stamp - delta, stamp];
    assert CountWithin(answers, times, 1, stamp, stamp) == 1;
    assert CountWithin(answers, times, 2, stamp, stamp) == 1;
  }

  /** A key with its expiry on the store's clock. */
  datatype Key = Key(bucket: Bucket, until: real)

  class RedisRateLimiter {
    const limit: Limit
    var keys: map<nat, Key>
    /** The store's clock when it last served a request. */
    var clock: real

    constructor (limit: Limit, clock: real)
      requires Sane(limit)
      ensures this.limit == limit && keys == map[] && this.clock == clock
    {
      this.limit, keys, this.clock := limit, map[], clock;
    }

    /** The bucket a request of this client finds at `at`. */
    function BucketOf(client: nat, at: real): Option<Bucket>
      reads this
    {
      if client in keys && at < keys[client].until then Some(keys[client].bucket) else None
    }

    /** One evaluation of the script for one client, stamped `now` by the caller and served at `at`. */
    method Allow(client: nat, now: real, at: real) returns (allowed: bool, remaining: int)
      requires Sane(limit) && at >= clock
      modifies `keys, `clock
      ensures var was := old(BucketOf(client, at));
              && allowed == Admits(limit, was, now)
              && keys == old(keys)[client := Key(Spent(limit, was, now), at + Lifetime(limit))]
              && remaining == Spent(limit, was, now).tokens.Floor
      ensures var was := old(BucketOf(client, at));
              var all := if was.None? then limit.capacity
                         else was.value.tokens + limit.rate * if now > was.value.ts then now - was.value.ts else 0.0;
              var onHand := if all < limit.capacity then all else limit.capacity;
              var left := if onHand >= 1.0 then onHand - 1.0 else onHand;
              && (allowed <==> onHand >= 1.0) && remaining == left.Floor
              && client in keys && keys[client].bucket == Bucket(left, now)
      ensures clock == at
    {
      ghost var was := BucketOf(client, at);
      var tokens, ts := limit.capacity, now;
      if client in keys && at < keys[client].until {
        tokens, ts := keys[client].bucket.tokens, keys[client].bucket.ts;
      }
      var elapsed := Max(0.0, now - ts);
      tokens := Min(limit.capacity, tokens + elapsed * limit.rate);
      assert tokens == Refilled(limit, was, now);
      allowed := false;
      if tokens >= REQUESTED {
        tokens := tokens - REQUESTED;
        allowed := true;
      }
      assert Bucket(tokens, now) == Spent(limit, was, now);
      keys := keys[client := Key(Bucket(tokens, now), at + Lifetime(limit))];
      clock := at;
      remaining := tokens.Floor;
    }
  }
}
