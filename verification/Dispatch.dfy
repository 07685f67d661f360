/** The dispatch loop of infrasrv: calls to controllersrv with exponential back-off. */
module Dispatch {

  /** How one call ends for its caller. */
  datatype CallOutcome = Replies(success: bool) | Raises(error: string)

  datatype Verdict = Replied(success: bool) | Exhausted(lastError: string, retries: nat)

  datatype Event = Called(attempt: nat) | Hooked(attempt: nat, hook: nat) | Slept(seconds: nat)

  function Pow(m: nat, e: nat): nat {
    if e == 0 then 1 else m * Pow(m, e - 1)
  }

  /** All registered retry hooks, in order. */
  function Hooks(attempt: nat, hooks: nat): seq<Event> {
    seq(hooks, k requires 0 <= k => Hooked(attempt, k))
  }

  /** What happens for the first `n` attempts when each of them is followed by another one. */
  function Rounds(n: nat, delay: nat, multiplier: nat, hooks: nat): seq<Event> {
    if n == 0 then []
    else Rounds(n - 1, delay, multiplier, hooks) + [Called(n)] + Hooks(n, hooks) + [Slept(delay * Pow(multiplier, n - 1))]
  }

  /** What happens when, by position: attempt `k` is a call, then each hook once and in order, then the
      pause. */
  lemma {:induction false} RoundAt(n: nat, delay: nat, multiplier: nat, hooks: nat, k: nat)
    requires 1 <= k <= n
    ensures |Rounds(n, delay, multiplier, hooks)| == n * (hooks + 2)
    ensures 0 <= (k - 1) * (hooks + 2) && k * (hooks + 2) <= n * (hooks + 2)
    ensures var trace, at := Rounds(n, delay, multiplier, hooks), (k - 1) * (hooks + 2);
      && at + hooks + 1 < |trace|
      && trace[at] == Called(k)
      && (forall j | 0 <= j < hooks :: trace[at + 1 + j] == Hooked(k, j))
      && trace[at + hooks + 1] == Slept(delay * Pow(multiplier, k - 1))
    decreases n
  {
    var before := Rounds(n - 1, delay, multiplier, hooks);
    RoundsLength(n - 1, delay, multiplier, hooks);
    assert n * (hooks + 2) == (n - 1) * (hooks + 2) + (hooks + 2);
    if k < n {
      RoundAt(n - 1, delay, multiplier, hooks, k);
      assert before <= Rounds(n, delay, multiplier, hooks);
    }
  }

  lemma {:induction false} RoundsLength(n: nat, delay: nat, multiplier: nat, hooks: nat)
    ensures |Rounds(n, delay, multiplier, hooks)| == n * (hooks + 2)
  {
    if n > 0 {
      RoundsLength(n - 1, delay, multiplier, hooks);
      assert n * (hooks + 2) == (n - 1) * (hooks + 2) + (hooks + 2);
    }
  }

  /** The attempts made: up to the first reply, `max` at most. */
  function CallsMade(outcomes: seq<CallOutcome>, max: nat): (n: nat)
    requires max <= |outcomes|
    ensures n <= max && (max > 0 ==> n > 0)
    ensures forall i | 0 <= i < n - 1 :: outcomes[i].Raises?
    ensures 0 < n < max ==> outcomes[n - 1].Replies?
  {
    if max == 0 then 0
    else if outcomes[0].Replies? then 1
    else if max == 1 then 1
    else 1 + CallsMade(outcomes[1..], max - 1)
  }

  function TotalSleep(trace: seq<Event>): nat {
    if trace == [] then 0
    else TotalSleep(trace[..|trace| - 1]) + if trace[|trace| - 1].Slept? then trace[|trace| - 1].seconds else 0
  }

  lemma {:induction false} SleepOfHooks(trace: seq<Event>, attempt: nat, hooks: nat)
    ensures TotalSleep(trace + Hooks(attempt, hooks)) == TotalSleep(trace)
    decreases hooks
  {
    if hooks == 0 {
      assert trace + Hooks(attempt, hooks) == trace;
    } else {
      var all := trace + Hooks(attempt, hooks);
      assert all[..|all| - 1] == trace + Hooks(attempt, hooks - 1);
      SleepOfHooks(trace, attempt, hooks - 1);
    }
  }

  lemma SleepOfRound(n: nat, delay: nat, multiplier: nat, hooks: nat)
    requires n > 0
    ensures TotalSleep(Rounds(n, delay, multiplier, hooks)) ==
            TotalSleep(Rounds(n - 1, delay, multiplier, hooks)) + delay * Pow(multiplier, n - 1)
  {
    var before := Rounds(n - 1, delay, multiplier, hooks);
    var called := before + [Called(n)];
    assert called[..|called| - 1] == before;
    SleepOfHooks(called, n, hooks);
    var all := Rounds(n, delay, multiplier, hooks);
    assert all[..|all| - 1] == called + Hooks(n, hooks);
  }

  /** 1 + m + ... + m^(n-1). */
  function Geometric(m: nat, n: nat): nat {
    if n == 0 then 0 else Geometric(m, n - 1) + Pow(m, n - 1)
  }

  /** The pauses add up to a geometric sum, whatever the multiplier. */
  lemma {:induction false} SleepIsGeometric(n: nat, delay: nat, multiplier: nat, hooks: nat)
    ensures TotalSleep(Rounds(n, delay, multiplier, hooks)) == delay * Geometric(multiplier, n)
  {
    if n > 0 {
      SleepIsGeometric(n - 1, delay, multiplier, hooks);
      SleepOfRound(n, delay, multiplier, hooks);
      TimesSum(delay, Geometric(multiplier, n - 1), Pow(multiplier, n - 1));
    }
  }

  /** The sum in closed form; with multiplier one it is the number of pauses. */
  lemma {:induction false} GeometricClosed(m: nat, n: nat)
    ensures m == 1 ==> Geometric(m, n) == n && Pow(m, n) == 1
    ensures Geometric(m, n) * (m - 1) == Pow(m, n) - 1
  {
    if n > 0 {
      GeometricClosed(m, n - 1);
      GeometricStep(Geometric(m, n - 1), m, Pow(m, n - 1));
    }
  }

  lemma TimesSum(d: int, x: int, y: int)
    ensures d * (x + y) == d * x + d * y
  {
  }

  lemma GeometricStep(g: int, m: int, q: int)
    requires g * (m - 1) == q - 1
    ensures (g + q) * (m - 1) == m * q - 1
  {
    TimesSum(m - 1, g, q);
    TimesSum(q, m, -1);
  }

  /** With the shipped settings three failing calls pause fifteen seconds in all. */
  lemma ShippedSettingsSleep(hooks: nat)
    ensures TotalSleep(Rounds(2, 5, 2, hooks)) == 15
  {
    SleepIsGeometric(2, 5, 2, hooks);
    assert Geometric(2, 2) == 3 by { assert Geometric(2, 1) == 1 && Pow(2, 1) == 2; }
  }

  /** When every call raises, the pauses between `max` calls add up to the sum of `max - 1` terms. */
  lemma ExhaustedSleep(max: nat, delay: nat, multiplier: nat, hooks: nat)
    requires max > 0
    ensures TotalSleep(Rounds(max - 1, delay, multiplier, hooks) + [Called(max)]) == delay * Geometric(multiplier, max - 1)
  {
    var all := Rounds(max - 1, delay, multiplier, hooks) + [Called(max)];
    assert all[..|all| - 1] == Rounds(max - 1, delay, multiplier, hooks);
    SleepIsGeometric(max - 1, delay, multiplier, hooks);
  }

  method CallWithRetry(outcomes: seq<CallOutcome>, max: nat, delay: nat, multiplier: nat, hooks: nat)
    returns (verdict: Verdict, trace: seq<Event>)
    requires max <= |outcomes|
    ensures var n := CallsMade(outcomes, max);
            && (n == 0 ==> trace == [] && verdict == Exhausted("None", 0))
            && (n > 0 ==> trace == Rounds(n - 1, delay, multiplier, hooks) + [Called(n)])
            && (n > 0 && outcomes[n - 1].Replies? ==> verdict == Replied(outcomes[n - 1].success))
            && (n > 0 && outcomes[n - 1].Raises? ==> n == max && verdict == Exhausted(outcomes[n - 1].error, max))
  {
    var lastError := "None";
    var pause := delay;
    trace := [];
    var attempt := 1;
    while attempt <= max
      invariant 1 <= attempt <= max + 1
      invariant forall i | 0 <= i < attempt - 1 :: outcomes[i].Raises?
      invariant attempt <= max ==> trace == Rounds(attempt - 1, delay, multiplier, hooks) && pause == delay * Pow(multiplier, attempt - 1)
      invariant attempt == max + 1 && max > 0 ==>
                  trace == Rounds(max - 1, delay, multiplier, hooks) + [Called(max)] && lastError == outcomes[max - 1].error
      invariant max == 0 ==> trace == [] && lastError == "None"
    {
      trace := trace + [Called(attempt)];
      if outcomes[attempt - 1].Replies? {
        FirstReply(outcomes, max, attempt);
        return Replied(outcomes[attempt - 1].success), trace;
      }
      lastError := outcomes[attempt - 1].error;
      if attempt < max {
        var k := 0;
        while k < hooks
          invariant 0 <= k <= hooks
          invariant trace == Rounds(attempt - 1, delay, multiplier, hooks) + [Called(attempt)] + Hooks(attempt, k)
        {
          trace := trace + [Hooked(attempt, k)];
          k := k + 1;
        }
        trace := trace + [Slept(pause)];
        pause := pause * multiplier;
        assert pause == delay * Pow(multiplier, attempt) by {
          assert Pow(multiplier, attempt) == multiplier * Pow(multiplier, attempt - 1);
          assert delay * Pow(multiplier, attempt - 1) * multiplier == delay * (multiplier * Pow(multiplier, attempt - 1));
        }
      }
      attempt := attempt + 1;
    }
    if max > 0 {
      FirstReply(outcomes, max, max);
    }
    verdict := Exhausted(lastError, max);
  }

  lemma {:induction false} FirstReply(outcomes: seq<CallOutcome>, max: nat, n: nat)
    requires 1 <= n <= max <= |outcomes|
    requires forall i | 0 <= i < n - 1 :: outcomes[i].Raises?
    requires outcomes[n - 1].Replies? || n == max
    ensures CallsMade(outcomes, max) == n
    decreases n
  {
    if n > 1 {
      assert outcomes[1..][n - 2] == outcomes[n - 1];
      FirstReply(outcomes[1..], max - 1, n - 1);
    }
  }
}
