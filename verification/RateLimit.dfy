// The adaptive rate limiter (internal/ratelimit/bucket.go): back-off on throttling, restore
// after a shared cooldown. Token timing is not modelled, only the rate. Each call is one step
// here; RateAccess takes the calls apart into their atomic accesses.
module RateLimit {
  import opened Chunks

  const MIN_ADAPTIVE_BPS := 64 * 1024
  const ADAPTIVE_COOLDOWN := 30_000_000_000

  // A parsed rate: off, unreadable, or bytes per second.
  datatype Spec = Off | Unreadable | Rate(bps: int)

  // limited: a token bucket is installed. cooldown: 0, or the time until which no restore happens.
  datatype Limiter = Limiter(limited: bool, bytes: int, configured: int, cooldown: int)

  datatype Call = BackOff(now: int) | ThrottleOK(now: int) | SetRate(spec: Spec)

  function Unlimited(): Limiter
  {
    Limiter(false, 0, 0, 0)
  }

  function WithBytes(l: Limiter, bps: int): Limiter
  {
    l.(limited := true, bytes := bps)
  }

  function BackedOff(l: Limiter, now: int): (Limiter, bool)
  {
    var half := Max(l.bytes / 2, MIN_ADAPTIVE_BPS);
    if l.bytes <= 0 || half == l.bytes then (l, false)
    else (WithBytes(l, half).(cooldown := now + ADAPTIVE_COOLDOWN), true)
  }

  function Reset(l: Limiter): Limiter
  {
    if l.configured > 0 && l.bytes != l.configured then WithBytes(l, l.configured) else l
  }

  predicate Expired(l: Limiter, now: int)
  {
    l.cooldown != 0 && now >= l.cooldown
  }

  function Restored(l: Limiter, now: int): Limiter
  {
    if Expired(l, now) then Reset(l.(cooldown := 0)) else l
  }

  function WithRate(l: Limiter, spec: Spec): (Limiter, bool)
  {
    match spec
    case Off => (l.(limited := false, bytes := 0, cooldown := 0), true)
    case Unreadable => (l, false)
    case Rate(bps) =>
      if bps <= 0 then (l.(limited := false, bytes := 0, cooldown := 0), true)
      else if bps > INT64_MAX then (l, false)
      else (Limiter(true, bps, bps, 0), true)
  }

  function Apply(l: Limiter, call: Call): Limiter
  {
    match call
    case BackOff(now) => BackedOff(l, now).0
    case ThrottleOK(now) => Restored(l, now)
    case SetRate(spec) => WithRate(l, spec).0
  }

  // ----- the limiter as an object -----

  class Bucket {
    var limited: bool
    var bytes: int
    var configured: int
    var cooldownUntil: int

    function View(): Limiter
      reads this
    {
      Limiter(limited, bytes, configured, cooldownUntil)
    }

    constructor ()
      ensures View() == Unlimited()
    {
      limited, bytes, configured, cooldownUntil := false, 0, 0, 0;
    }

    method SetBytes(bps: int)
      modifies this
      ensures View() == WithBytes(old(View()), bps)
    {
      bytes := bps;
      limited := true;
    }

    method BackOffSignal(now: int) returns (halved: bool)
      modifies this
      ensures (View(), halved) == BackedOff(old(View()), now)
    {
      var cur := bytes;
      if cur <= 0 {
        return false;
      }
      var half := cur / 2;
      if half < MIN_ADAPTIVE_BPS {
        half := MIN_ADAPTIVE_BPS;
      }
      if half == cur {
        return false;
      }
      SetBytes(half);
      cooldownUntil := now + ADAPTIVE_COOLDOWN;
      halved := true;
    }

    method ResetRate()
      modifies this
      ensures View() == Reset(old(View()))
    {
      if configured > 0 && bytes != configured {
        SetBytes(configured);
      }
    }

    method ThrottleOK(now: int)
      modifies this
      ensures View() == Restored(old(View()), now)
    {
      var until := cooldownUntil;
      if until == 0 || now < until {
        return;
      }
      cooldownUntil := 0;
      ResetRate();
    }

    method SetRate(spec: Spec) returns (ok: bool)
      modifies this
      ensures (View(), ok) == WithRate(old(View()), spec)
    {
      if spec.Off? {
        limited, bytes, cooldownUntil := false, 0, 0;
        return true;
      }
      if spec.Unreadable? {
        return false;
      }
      if spec.bps <= 0 {
        limited, bytes, cooldownUntil := false, 0, 0;
        return true;
      }
      if spec.bps > INT64_MAX {
        return false;
      }
      bytes, configured, cooldownUntil, limited := spec.bps, spec.bps, 0, true;
      ok := true;
    }
  }

  // ----- the rate over calls that do not overlap -----

  function After(l: Limiter, calls: seq<Call>): Limiter
    decreases |calls|
  {
    if calls == [] then l else Apply(After(l, calls[..|calls| - 1]), calls[|calls| - 1])
  }

  // No configured cap is below the adaptive minimum.
  ghost predicate CapsAtLeast(calls: seq<Call>, floor: int)
  {
    forall i :: 0 <= i < |calls| && calls[i].SetRate? && calls[i].spec.Rate? && calls[i].spec.bps > 0 ==>
        calls[i].spec.bps >= floor
  }

  ghost predicate Tame(l: Limiter)
  {
    && (l.limited <==> l.bytes > 0) && (!l.limited ==> l.bytes == 0 && l.cooldown == 0)
    && (l.limited ==> MIN_ADAPTIVE_BPS <= l.bytes <= l.configured)
  }

  // While limited, the rate stays between the minimum and the configured cap.
  lemma {:induction false} RateStaysBetween(calls: seq<Call>)
    requires CapsAtLeast(calls, MIN_ADAPTIVE_BPS)
    ensures Tame(After(Unlimited(), calls))
  {
    if calls != [] {
      var n := |calls| - 1;
      RateStaysBetween(calls[..n]);
      assert calls[n].SetRate? && calls[n].spec.Rate? && calls[n].spec.bps > 0 ==>
          calls[n].spec.bps >= MIN_ADAPTIVE_BPS;
    }
  }

  // The rate rises only when the user sets it, or when a chunk succeeds after the cooldown,
  // and then it is the configured one.
  lemma RisesOnly(l: Limiter, call: Call)
    requires Tame(l) && Apply(l, call).bytes > l.bytes
    ensures call.SetRate? || (call.ThrottleOK? && Expired(l, call.now) && Apply(l, call).bytes == l.configured)
  {
  }

  // A success just after a back-off, of any task, cannot undo it.
  lemma {:induction false} CooldownHolds(l: Limiter, calls: seq<Call>, since: int)
    requires l.bytes > 0 && l.bytes >= MIN_ADAPTIVE_BPS && l.cooldown >= since + ADAPTIVE_COOLDOWN && since >= 0
    requires forall i :: 0 <= i < |calls| ==>
               !calls[i].SetRate? && since <= calls[i].now
               && (calls[i].ThrottleOK? ==> calls[i].now < since + ADAPTIVE_COOLDOWN)
    ensures var m := After(l, calls);
            MIN_ADAPTIVE_BPS <= m.bytes <= l.bytes && m.cooldown >= since + ADAPTIVE_COOLDOWN
  {
    if calls != [] {
      CooldownHolds(l, calls[..|calls| - 1], since);
    }
  }

  // A success undoes a back-off exactly from thirty seconds after it on, and then at once.
  lemma RestoredExactly(l: Limiter, since: int, now: int)
    requires since >= 0 && l.limited && l.configured > 0 && BackedOff(l, since).1
    requires BackedOff(l, since).0.bytes != l.configured
    ensures var m := BackedOff(l, since).0;
            && (Restored(m, now).bytes == l.configured <==> now >= since + 30_000_000_000)
            && (now < since + 30_000_000_000 ==> Restored(m, now) == m)
            && (now >= since + 30_000_000_000 ==> Restored(m, now) == Limiter(true, l.configured, l.configured, 0))
  {
  }

  // A rate that cannot be read, or is beyond 64 bits, changes nothing; zero or less is off.
  lemma SetRateExactly(l: Limiter, spec: Spec)
    ensures var (m, ok) := WithRate(l, spec);
            && (ok <==> spec.Off? || (spec.Rate? && spec.bps <= 9223372036854775807))
            && (!ok ==> m == l)
            && (ok && (spec.Off? || spec.bps <= 0) ==> m == Limiter(false, 0, l.configured, 0))
            && (ok && spec.Rate? && spec.bps > 0 ==> m == Limiter(true, spec.bps, spec.bps, 0))
  {
  }

  // ----- repeated back-offs -----

  function Pow2(k: nat): (p: int)
    ensures p >= 1
  {
    if k == 0 then 1 else 2 * Pow2(k - 1)
  }

  lemma HalvedAgain(x: int, p: int)
    requires x >= 0 && p >= 1
    ensures x / p / 2 == x / (2 * p)
  {
    var q, r := x / p, x % p;
    assert x == q * p + r;
    var h, b := q / 2, q % 2;
    assert q == 2 * h + b && q * p == h * (2 * p) + b * p;
    assert b == 0 || b == 1;
    assert b * p == 0 || b * p == p;
    Divides(x, 2 * p, h, b * p + r);
  }

  lemma Divides(x: int, d: int, q: int, r: int)
    requires d >= 1 && x == q * d + r && 0 <= r < d
    ensures x / d == q
  {
    var e := x / d;
    assert x == e * d + x % d;
    assert (e - q) * d == e * d - q * d && (q - e) * d == q * d - e * d;
    Factor(e - q, d);
    Factor(q - e, d);
  }

  lemma Factor(x: int, d: int)
    requires d >= 1
    ensures x >= 1 ==> x * d >= d
  {
  }

  function Times(l: Limiter, nows: seq<int>): Limiter
    decreases |nows|
  {
    if nows == [] then l else BackedOff(Times(l, nows[..|nows| - 1]), nows[|nows| - 1]).0
  }

  // k back-offs from the cap leave cap / 2^k, but never less than the minimum.
  lemma {:induction false} HalvesToTheFloor(cap: int, nows: seq<int>)
    requires MIN_ADAPTIVE_BPS <= cap <= INT64_MAX
    ensures var l := Times(WithRate(Unlimited(), Rate(cap)).0, nows);
            l.bytes == Max(65536, cap / Pow2(|nows|)) && l.configured == cap && l.limited
  {
    if nows != [] {
      var k := |nows| - 1;
      HalvesToTheFloor(cap, nows[..k]);
      HalvedAgain(cap, Pow2(k));
    }
  }

  // Below the minimum a back-off does the opposite: it raises the rate above the cap.
  lemma BackOffRaisesExactly(l: Limiter, now: int)
    ensures BackedOff(l, now).0.bytes > l.bytes <==> 0 < l.bytes < 65536
  {
  }
}
