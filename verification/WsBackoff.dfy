/** The reconnect delay of frontend/src/lib/ws.svelte.ts, over the reals. */
module WsBackoff {

  function Power(attempt: nat): (p: real)
    ensures p >= 1.0
  {
    if attempt == 0 then 1.0 else 1.6 * Power(attempt - 1)
  }

  function Base(attempt: nat): real {
    var d := 1000.0 * Power(attempt);
    if d <= 30000.0 then d else 30000.0
  }

  /** `random` is Math.random(). */
  function Delay(attempt: nat, random: real): real {
    Base(attempt) * (1.0 - 0.25 + random * (2.0 * 0.25))
  }

  lemma {:induction false} PowerGrows(m: nat, n: nat)
    requires m <= n
    ensures Power(m) <= Power(n)
    decreases n
  {
    if m < n {
      PowerGrows(m, n - 1);
    }
  }

  /** The base never shrinks with the attempt and is the 30 s cap exactly from attempt 8. */
  lemma {:induction false} BaseReachesCap(m: nat, n: nat)
    requires m <= n
    ensures Base(m) <= Base(n)
    ensures Base(n) == 30000.0 <==> n >= 8
  {
    PowerGrows(m, n);
    assert Power(1) == 1.6 && Power(2) == 2.56;
    assert Power(3) == 4.096 && Power(4) == 6.5536;
    assert Power(5) == 10.48576 && Power(6) == 16.777216;
    assert Power(7) == 26.8435456 && Power(8) == 42.94967296;
    if n >= 8 {
      PowerGrows(8, n);
    } else {
      PowerGrows(n, 7);
    }
  }

  /** Jitter keeps the delay within a quarter of the base. */
  lemma {:induction false} DelayWithinQuarter(attempt: nat, random: real)
    requires 0.0 <= random < 1.0
    ensures 0.75 * Base(attempt) <= Delay(attempt, random) < 1.25 * Base(attempt)
    ensures random == 0.5 ==> Delay(attempt, random) == Base(attempt)
  {
    var base, factor := Base(attempt), 0.75 + random * 0.5;
    assert base >= 1000.0;
    assert Delay(attempt, random) == base * factor;
    assert base * 0.75 <= base * factor;
    assert base * (1.25 - factor) > 0.0;
  }
}
