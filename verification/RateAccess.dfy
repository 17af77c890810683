// The limiter's calls one atomic access at a time (internal/ratelimit/bucket.go): any number of
// back-offs, successes and rate changes in flight together.
module RateAccess {
  import opened Chunks
  import L = RateLimit

  // limits: the rate of every token bucket built so far. bucket: the installed one, or -1.
  datatype Memory = Memory(bucket: int, limits: seq<int>, bytes: int, configured: int, cooldown: int)

  datatype Call = BackOff | ThrottleOK | SwitchOff | NewRate(bps: int)

  // The next access of a call, with the values it has read.
  datatype Thread =
    | BackOffLoad
    | CooldownLoad
    | CooldownSwap(until: int)
    | ConfiguredLoad
    | BytesLoad(cfg: int)
    | Store(bps: int, backOff: bool)
    | BucketLoad(bps: int, backOff: bool)
    | Install(bps: int, cur: int, backOff: bool)
    | CooldownStore
    | OffBucket
    | OffBytes
    | OffCooldown
    | RateBytes(bps: int)
    | RateConfigured(bps: int)
    | RateCooldown(bps: int)
    | RateBucketLoad(bps: int)
    | RateInstall(bps: int, cur: int)
    | Done

  datatype System = System(mem: Memory, threads: seq<Thread>)

  datatype Event = Begin(call: Call) | Move(i: nat, now: nat)

  function First(call: Call): Thread
  {
    match call
    case BackOff => BackOffLoad
    case ThrottleOK => CooldownLoad
    case SwitchOff => OffBucket
    case NewRate(bps) => RateBytes(bps)
  }

  // A token bucket of this rate: a new one if none was seen, else the one that was seen.
  function Installed(m: Memory, bps: int, cur: int): Memory
  {
    if cur < 0 then m.(limits := m.limits + [bps], bucket := |m.limits|)
    else if cur < |m.limits| then m.(limits := m.limits[cur := bps])
    else m
  }

  function Halved(bytes: int): int
  {
    Max(bytes / 2, L.MIN_ADAPTIVE_BPS)
  }

  function Access(m: Memory, t: Thread, now: nat): (Memory, Thread)
  {
    match t
    case BackOffLoad =>
      (m, if m.bytes <= 0 || Halved(m.bytes) == m.bytes then Done else Store(Halved(m.bytes), true))
    case CooldownLoad =>
      (m, if m.cooldown == 0 || now < m.cooldown then Done else CooldownSwap(m.cooldown))
    case CooldownSwap(until) =>
      if m.cooldown == until then (m.(cooldown := 0), ConfiguredLoad) else (m, Done)
    case ConfiguredLoad => (m, if m.configured > 0 then BytesLoad(m.configured) else Done)
    case BytesLoad(cfg) => (m, if m.bytes != cfg then Store(cfg, false) else Done)
    case Store(bps, b) => (m.(bytes := bps), BucketLoad(bps, b))
    case BucketLoad(bps, b) => (m, Install(bps, m.bucket, b))
    case Install(bps, cur, b) => (Installed(m, bps, cur), if b then CooldownStore else Done)
    case CooldownStore => (m.(cooldown := now + L.ADAPTIVE_COOLDOWN), Done)
    case OffBucket => (m.(bucket := -1), OffBytes)
    case OffBytes => (m.(bytes := 0), OffCooldown)
    case OffCooldown => (m.(cooldown := 0), Done)
    case RateBytes(bps) => (m.(bytes := bps), RateConfigured(bps))
    case RateConfigured(bps) => (m.(configured := bps), RateCooldown(bps))
    case RateCooldown(bps) => (m.(cooldown := 0), RateBucketLoad(bps))
    case RateBucketLoad(bps) => (m, RateInstall(bps, m.bucket))
    case RateInstall(bps, cur) => (Installed(m, bps, cur), Done)
    case Done => (m, Done)
  }

  function Do(s: System, e: Event): System
  {
    match e
    case Begin(call) => s.(threads := s.threads + [First(call)])
    case Move(i, now) =>
      if i < |s.threads| then
        var (m, t) := Access(s.mem, s.threads[i], now);
        System(m, s.threads[i := t])
      else s
  }

  function After(s: System, evs: seq<Event>): System
    decreases |evs|
  {
    if evs == [] then s else After(Do(s, evs[0]), evs[1..])
  }

  // No limit at first: neither a bucket nor a call.
  function Unlimited(): System
  {
    System(Memory(-1, [], 0, 0, 0), [])
  }

  ghost predicate NoSet(evs: seq<Event>)
  {
    forall i :: 0 <= i < |evs| && evs[i].Begin? ==> evs[i].call.BackOff? || evs[i].call.ThrottleOK?
  }

  predicate Setting(t: Thread)
  {
    t.OffBucket? || t.OffBytes? || t.OffCooldown? || t.RateBytes? || t.RateConfigured? || t.RateCooldown?
    || t.RateBucketLoad? || t.RateInstall?
  }

  ghost predicate NoneSetting(s: System)
  {
    forall i :: 0 <= i < |s.threads| ==> !Setting(s.threads[i])
  }

  lemma {:induction false} AfterAppend(s: System, a: seq<Event>, b: seq<Event>)
    ensures After(s, a + b) == After(After(s, a), b)
    decreases |a|
  {
    if a == [] {
      assert a + b == b;
    } else {
      assert (a + b)[0] == a[0] && (a + b)[1..] == a[1..] + b;
      AfterAppend(Do(s, a[0]), a[1..], b);
    }
  }

  // ----- a call that nothing interrupts is the whole call -----

  function Rank(t: Thread): nat
  {
    match t
    case BackOffLoad => 5
    case CooldownLoad => 7
    case CooldownSwap(_) => 6
    case ConfiguredLoad => 5
    case BytesLoad(_) => 4
    case Store(_, b) => if b then 4 else 3
    case BucketLoad(_, b) => if b then 3 else 2
    case Install(_, _, b) => if b then 2 else 1
    case CooldownStore => 1
    case OffBucket => 3
    case OffBytes => 2
    case OffCooldown => 1
    case RateBytes(_) => 5
    case RateConfigured(_) => 4
    case RateCooldown(_) => 3
    case RateBucketLoad(_) => 2
    case RateInstall(_, _) => 1
    case Done => 0
  }

  lemma RankFalls(m: Memory, t: Thread, now: nat)
    requires !t.Done?
    ensures Rank(Access(m, t, now).1) < Rank(t)
  {
  }

  // The accesses of one call with nothing in between, and the memory they leave.
  function Rest(m: Memory, t: Thread, now: nat): Memory
    decreases Rank(t)
  {
    if t.Done? then m
    else
      RankFalls(m, t, now);
      var (n, u) := Access(m, t, now);
      Rest(n, u, now)
  }

  function Moves(i: nat, now: nat, k: nat): seq<Event>
  {
    seq(k, _ => Move(i, now))
  }

  function Whole(s: System, call: Call, now: nat): seq<Event>
  {
    [Begin(call)] + Moves(|s.threads|, now, 7)
  }

  lemma {:induction false} MovesRun(s: System, i: nat, now: nat, k: nat)
    requires i < |s.threads| && Rank(s.threads[i]) <= k
    ensures After(s, Moves(i, now, k)) == System(Rest(s.mem, s.threads[i], now), s.threads[i := Done])
    decreases k
  {
    var evs := Moves(i, now, k);
    if k == 0 {
      assert s.threads[i := Done] == s.threads;
    } else {
      assert evs[1..] == Moves(i, now, k - 1);
      if !s.threads[i].Done? {
        RankFalls(s.mem, s.threads[i], now);
      }
      var t := Do(s, evs[0]);
      MovesRun(t, i, now, k - 1);
      assert t.threads[i := Done] == s.threads[i := Done];
    }
  }

  lemma RankBound(call: Call)
    ensures Rank(First(call)) <= 7
  {
  }

  lemma WholeRuns(s: System, call: Call, now: nat)
    ensures After(s, Whole(s, call, now)) == System(Rest(s.mem, First(call), now), s.threads + [Done])
  {
    var evs := Whole(s, call, now);
    var t := Do(s, Begin(call));
    assert evs[1..] == Moves(|s.threads|, now, 7);
    RankBound(call);
    MovesRun(t, |s.threads|, now, 7);
    assert t.threads[|s.threads| := Done] == s.threads + [Done];
  }

  function View(m: Memory): L.Limiter
  {
    L.Limiter(m.bucket >= 0, m.bytes, m.configured, m.cooldown)
  }

  function AsCall(call: Call, now: nat): L.Call
  {
    match call
    case BackOff => L.BackOff(now)
    case ThrottleOK => L.ThrottleOK(now)
    case SwitchOff => L.SetRate(L.Off)
    case NewRate(bps) => L.SetRate(L.Rate(bps))
  }

  predicate Readable(call: Call)
  {
    call.NewRate? ==> 0 < call.bps <= INT64_MAX
  }

  // The installed bucket runs at the recorded rate.
  predicate Coherent(m: Memory)
  {
    m.bucket < |m.limits| && (m.bucket >= 0 ==> m.limits[m.bucket] == m.bytes)
  }

  lemma StoreRest(m: Memory, bps: int, b: bool, now: nat)
    requires Coherent(m)
    ensures var r := Rest(m, Store(bps, b), now);
            && View(r) == L.WithBytes(View(m), bps).(cooldown := if b then now + L.ADAPTIVE_COOLDOWN else m.cooldown)
            && Coherent(r)
  {
    var m1 := m.(bytes := bps);
    var m2 := Installed(m1, bps, m.bucket);
    assert Rest(m, Store(bps, b), now) == Rest(m1, BucketLoad(bps, b), now);
    assert Rest(m1, BucketLoad(bps, b), now) == Rest(m1, Install(bps, m.bucket, b), now);
    if b {
      assert Rest(m1, Install(bps, m.bucket, b), now) == Rest(m2, CooldownStore, now);
      assert Rest(m2, CooldownStore, now) == Rest(m2.(cooldown := now + L.ADAPTIVE_COOLDOWN), Done, now);
    } else {
      assert Rest(m1, Install(bps, m.bucket, b), now) == Rest(m2, Done, now);
    }
  }

  lemma RestoreRest(m: Memory, now: nat)
    requires Coherent(m)
    ensures View(Rest(m, ConfiguredLoad, now)) == L.Reset(View(m)) && Coherent(Rest(m, ConfiguredLoad, now))
  {
    if m.configured > 0 {
      assert Rest(m, ConfiguredLoad, now) == Rest(m, BytesLoad(m.configured), now);
      if m.bytes != m.configured {
        assert Rest(m, BytesLoad(m.configured), now) == Rest(m, Store(m.configured, false), now);
        StoreRest(m, m.configured, false, now);
      }
    }
  }

  lemma OffRest(m: Memory, now: nat)
    ensures Rest(m, OffBucket, now) == m.(bucket := -1, bytes := 0, cooldown := 0)
  {
    var m1 := m.(bucket := -1);
    var m2 := m1.(bytes := 0);
    assert Rest(m, OffBucket, now) == Rest(m1, OffBytes, now);
    assert Rest(m1, OffBytes, now) == Rest(m2, OffCooldown, now);
    assert Rest(m2, OffCooldown, now) == Rest(m2.(cooldown := 0), Done, now);
  }

  lemma RateRest(m: Memory, bps: int, now: nat)
    ensures Rest(m, RateBytes(bps), now)
            == Installed(m.(bytes := bps, configured := bps, cooldown := 0), bps, m.bucket)
  {
    var m1 := m.(bytes := bps);
    var m2 := m1.(configured := bps);
    var m3 := m2.(cooldown := 0);
    assert Rest(m, RateBytes(bps), now) == Rest(m1, RateConfigured(bps), now);
    assert Rest(m1, RateConfigured(bps), now) == Rest(m2, RateCooldown(bps), now);
    assert Rest(m2, RateCooldown(bps), now) == Rest(m3, RateBucketLoad(bps), now);
    assert Rest(m3, RateBucketLoad(bps), now) == Rest(m3, RateInstall(bps, m.bucket), now);
    assert Rest(m3, RateInstall(bps, m.bucket), now) == Rest(Installed(m3, bps, m.bucket), Done, now);
  }

  // Alone, the accesses of a call have the effect of the call.
  lemma AloneIsWhole(m: Memory, call: Call, now: nat)
    requires Coherent(m) && Readable(call)
    ensures View(Rest(m, First(call), now)) == L.Apply(View(m), AsCall(call, now))
    ensures Coherent(Rest(m, First(call), now))
  {
    match call
    case BackOff =>
      if m.bytes > 0 && Halved(m.bytes) != m.bytes {
        assert Rest(m, BackOffLoad, now) == Rest(m, Store(Halved(m.bytes), true), now);
        StoreRest(m, Halved(m.bytes), true, now);
      }
    case ThrottleOK =>
      if m.cooldown != 0 && now >= m.cooldown {
        var n := m.(cooldown := 0);
        assert Rest(m, CooldownLoad, now) == Rest(m, CooldownSwap(m.cooldown), now);
        assert Rest(m, CooldownSwap(m.cooldown), now) == Rest(n, ConfiguredLoad, now);
        RestoreRest(n, now);
      }
    case SwitchOff => OffRest(m, now);
    case NewRate(bps) => RateRest(m, bps, now);
  }

  // ----- a switch-off -----

  // A restore would change nothing.
  predicate Calm(m: Memory)
  {
    m.configured <= 0 || m.bytes == m.configured
  }

  // The call in flight cannot bring a limit back.
  predicate Harmless(m: Memory, t: Thread)
  {
    match t
    case BackOffLoad => true
    case CooldownLoad => true
    case CooldownSwap(until) => Calm(m) || until != 0
    case ConfiguredLoad => Calm(m)
    case BytesLoad(cfg) => m.bytes == cfg
    case Install(_, cur, b) => cur >= 0 && (b ==> Calm(m))
    case CooldownStore => Calm(m)
    case Done => true
    case _ => false
  }

  ghost predicate Off(s: System)
  {
    && s.mem.bucket < 0
    && (s.mem.bytes <= 0 || s.mem.bytes == L.MIN_ADAPTIVE_BPS)
    && (Calm(s.mem) || s.mem.cooldown == 0)
    && forall i :: 0 <= i < |s.threads| ==> Harmless(s.mem, s.threads[i])
  }

  ghost predicate StaysOff(s: System)
  {
    forall evs: seq<Event> :: NoSet(evs) ==> After(s, evs).mem.bucket < 0
  }

  lemma OffAccess(m: Memory, t: Thread, now: nat)
    requires m.bucket < 0 && (m.bytes <= 0 || m.bytes == L.MIN_ADAPTIVE_BPS) && (Calm(m) || m.cooldown == 0)
    requires Harmless(m, t)
    ensures var (n, u) := Access(m, t, now);
            && n.bucket == m.bucket && n.bytes == m.bytes && n.configured == m.configured
            && (Calm(n) || n.cooldown == 0) && Harmless(n, u)
  {
  }

  lemma HarmlessFrame(m: Memory, n: Memory, t: Thread)
    requires n.bytes == m.bytes && n.configured == m.configured
    ensures Harmless(n, t) == Harmless(m, t)
  {
  }

  lemma OffStep(s: System, e: Event)
    requires Off(s) && NoSet([e])
    ensures Off(Do(s, e))
  {
    assert [e][0] == e;
    if e.Move? && e.i < |s.threads| {
      OffAccess(s.mem, s.threads[e.i], e.now);
      var t := Do(s, e);
      forall i | 0 <= i < |t.threads|
        ensures Harmless(t.mem, t.threads[i])
      {
        if i != e.i {
          HarmlessFrame(s.mem, t.mem, s.threads[i]);
        }
      }
    }
  }

  lemma {:induction false} OffStays(s: System, evs: seq<Event>)
    requires Off(s) && NoSet(evs)
    ensures After(s, evs).mem.bucket < 0
    decreases |evs|
  {
    if evs != [] {
      assert NoSet([evs[0]]);
      OffStep(s, evs[0]);
      OffStays(Do(s, evs[0]), evs[1..]);
    }
  }

  // The call has nothing left to decide: it will install a bucket.
  predicate Bound(m: Memory, t: Thread)
  {
    match t
    case ConfiguredLoad => !Calm(m)
    case BytesLoad(cfg) => m.bytes != cfg
    case Store(_, _) => true
    case BucketLoad(_, _) => true
    case Install(_, cur, _) => cur < 0
    case _ => false
  }

  lemma BoundAccess(m: Memory, t: Thread, now: nat)
    requires m.bucket < 0 && Bound(m, t)
    ensures var (n, u) := Access(m, t, now); n.bucket >= 0 || (n.bucket < 0 && Bound(n, u))
  {
  }

  lemma Cons(s: System, e: Event, evs: seq<Event>)
    requires NoSet([e]) && NoSet(evs)
    ensures NoSet([e] + evs) && After(s, [e] + evs) == After(Do(s, e), evs)
  {
    var all := [e] + evs;
    assert all[0] == e && all[1..] == evs && [e][0] == e;
    forall i | 0 <= i < |all| && all[i].Begin?
      ensures all[i].call.BackOff? || all[i].call.ThrottleOK?
    {
      assert i > 0 ==> all[i] == evs[i - 1];
    }
  }

  lemma {:induction false} GoesOn(s: System, i: nat) returns (evs: seq<Event>)
    requires s.mem.bucket < 0 && i < |s.threads| && Bound(s.mem, s.threads[i])
    ensures NoSet(evs) && After(s, evs).mem.bucket >= 0
    decreases Rank(s.threads[i])
  {
    var e := Move(i, 0);
    RankFalls(s.mem, s.threads[i], 0);
    BoundAccess(s.mem, s.threads[i], 0);
    var t := Do(s, e);
    evs := [];
    if t.mem.bucket < 0 {
      evs := GoesOn(t, i);
    }
    Cons(s, e, evs);
    evs := [e] + evs;
  }

  // A cooldown left behind lets the next success restore the limit.
  lemma RestoreReturns(s: System) returns (evs: seq<Event>)
    requires s.mem.bucket < 0 && !Calm(s.mem) && s.mem.cooldown != 0
    ensures NoSet(evs) && After(s, evs).mem.bucket >= 0
  {
    var n, e := |s.threads|, Move(|s.threads|, Max(s.mem.cooldown, 0));
    var s1 := Do(s, Begin(ThrottleOK));
    var s2 := Do(s1, e);
    var s3 := Do(s2, e);
    assert s1.threads[n] == CooldownLoad;
    assert s2.threads[n] == CooldownSwap(s.mem.cooldown);
    assert s3.threads[n] == ConfiguredLoad;
    evs := GoesOn(s3, n);
    Cons(s2, e, evs);
    Cons(s1, e, [e] + evs);
    Cons(s, Begin(ThrottleOK), [e] + ([e] + evs));
    evs := [Begin(ThrottleOK)] + ([e] + ([e] + evs));
  }

  lemma BackOffReturns(s: System) returns (evs: seq<Event>)
    requires s.mem.bucket < 0 && s.mem.bytes > 0 && s.mem.bytes != L.MIN_ADAPTIVE_BPS
    ensures NoSet(evs) && After(s, evs).mem.bucket >= 0
  {
    var n, e := |s.threads|, Move(|s.threads|, 0);
    var s1 := Do(s, Begin(BackOff));
    assert s1.threads[n] == BackOffLoad;
    var s2 := Do(s1, e);
    assert s2.threads[n].Store?;
    evs := GoesOn(s2, n);
    Cons(s1, e, evs);
    Cons(s, Begin(BackOff), [e] + evs);
    evs := [Begin(BackOff)] + ([e] + evs);
  }

  // A back-off whose bucket is already detached still leaves its cooldown.
  lemma {:induction false} LeavesCooldown(s: System, i: nat) returns (evs: seq<Event>)
    requires s.mem.bucket < 0 && !Calm(s.mem) && i < |s.threads|
    requires s.threads[i].CooldownStore? || (s.threads[i].Install? && s.threads[i].backOff && s.threads[i].cur >= 0)
    ensures NoSet(evs) && After(s, evs).mem.bucket >= 0
    decreases Rank(s.threads[i])
  {
    var e := Move(i, 0);
    var t := Do(s, e);
    if s.threads[i].CooldownStore? {
      evs := RestoreReturns(t);
    } else {
      evs := LeavesCooldown(t, i);
    }
    Cons(s, e, evs);
    evs := [e] + evs;
  }

  lemma HarmDone(s: System, i: nat) returns (evs: seq<Event>)
    requires s.mem.bucket < 0 && (Calm(s.mem) || s.mem.cooldown == 0)
    requires i < |s.threads| && !Setting(s.threads[i]) && !Harmless(s.mem, s.threads[i])
    ensures NoSet(evs) && After(s, evs).mem.bucket >= 0
  {
    var t := s.threads[i];
    if Bound(s.mem, t) {
      evs := GoesOn(s, i);
    } else if t.CooldownSwap? {
      evs := GoesOn(Do(s, Move(i, 0)), i);
      Cons(s, Move(i, 0), evs);
      evs := [Move(i, 0)] + evs;
    } else {
      evs := LeavesCooldown(s, i);
    }
  }

  lemma NotOffReturns(s: System) returns (evs: seq<Event>)
    requires NoneSetting(s) && !Off(s)
    ensures NoSet(evs) && After(s, evs).mem.bucket >= 0
  {
    evs := [];
    if s.mem.bucket >= 0 {
    } else if s.mem.bytes > 0 && s.mem.bytes != L.MIN_ADAPTIVE_BPS {
      evs := BackOffReturns(s);
    } else if !Calm(s.mem) && s.mem.cooldown != 0 {
      evs := RestoreReturns(s);
    } else {
      var i :| 0 <= i < |s.threads| && !Harmless(s.mem, s.threads[i]);
      evs := HarmDone(s, i);
    }
  }

  // In any state with no rate change under way: no limit comes back exactly when Off holds.
  lemma StaysOffExactly(s: System)
    requires NoneSetting(s)
    ensures StaysOff(s) <==> Off(s)
  {
    if Off(s) {
      forall evs: seq<Event> | NoSet(evs)
        ensures After(s, evs).mem.bucket < 0
      {
        OffStays(s, evs);
      }
    } else {
      var evs := NotOffReturns(s);
      assert NoSet(evs) && After(s, evs).mem.bucket >= 0;
    }
  }

  // A restore past its swap, or a back-off past its load that will store. A bucket either
  // already looked up is detached: only the cooldown of the back-off still matters.
  predicate Undoes(configured: int, t: Thread)
  {
    match t
    case ConfiguredLoad => configured > 0
    case BytesLoad(cfg) => cfg != 0
    case Store(_, _) => true
    case BucketLoad(_, _) => true
    case Install(_, cur, b) => cur < 0 || (b && configured > 0)
    case CooldownStore => configured > 0
    case _ => false
  }

  // What a restore holds was read from a positive rate or a set cooldown; a bucket that was
  // looked up exists.
  predicate Sane(m: Memory, t: Thread)
  {
    match t
    case CooldownSwap(until) => until != 0
    case BytesLoad(cfg) => cfg > 0
    case Store(bps, _) => bps > 0
    case BucketLoad(bps, _) => bps > 0
    case Install(bps, cur, _) => bps > 0 && cur < |m.limits|
    case RateBytes(bps) => bps > 0
    case RateConfigured(bps) => bps > 0
    case RateCooldown(bps) => bps > 0
    case RateBucketLoad(bps) => bps > 0
    case RateInstall(bps, cur) => bps > 0 && cur < |m.limits|
    case _ => true
  }

  ghost predicate AllSane(s: System)
  {
    s.mem.bucket < |s.mem.limits| && forall i :: 0 <= i < |s.threads| ==> Sane(s.mem, s.threads[i])
  }

  ghost predicate AllReadable(evs: seq<Event>)
  {
    forall i :: 0 <= i < |evs| && evs[i].Begin? ==> Readable(evs[i].call)
  }

  lemma SaneAccess(m: Memory, t: Thread, now: nat)
    requires m.bucket < |m.limits| && Sane(m, t)
    ensures var (n, u) := Access(m, t, now);
            n.bucket < |n.limits| && |m.limits| <= |n.limits| && Sane(n, u)
  {
  }

  lemma SaneStep(s: System, e: Event)
    requires AllSane(s) && AllReadable([e])
    ensures AllSane(Do(s, e))
  {
    assert [e][0] == e;
    if e.Move? && e.i < |s.threads| {
      SaneAccess(s.mem, s.threads[e.i], e.now);
    }
  }

  lemma {:induction false} SaneAlways(s: System, evs: seq<Event>)
    requires AllSane(s) && AllReadable(evs)
    ensures AllSane(After(s, evs))
    decreases |evs|
  {
    if evs != [] {
      assert AllReadable([evs[0]]);
      SaneStep(s, evs[0]);
      SaneAlways(Do(s, evs[0]), evs[1..]);
    }
  }

  lemma UndoesIsHarm(m: Memory, n: Memory, t: Thread)
    requires n.bytes == 0 && n.configured == m.configured && Sane(m, t) && !Setting(t)
    ensures Harmless(n, t) <==> !Undoes(m.configured, t)
  {
  }

  lemma OffAfter(s: System, t: System)
    requires NoneSetting(s) && AllSane(s) && t.threads == s.threads + [Done]
    requires t.mem == s.mem.(bucket := -1, bytes := 0, cooldown := 0)
    ensures NoneSetting(t)
    ensures Off(t) <==> forall i :: 0 <= i < |s.threads| ==> !Undoes(s.mem.configured, s.threads[i])
  {
    forall i | 0 <= i < |s.threads|
      ensures Harmless(t.mem, s.threads[i]) <==> !Undoes(s.mem.configured, s.threads[i])
    {
      UndoesIsHarm(s.mem, t.mem, s.threads[i]);
    }
    assert forall i :: 0 <= i < |s.threads| ==> t.threads[i] == s.threads[i];
    assert t.threads[|s.threads|] == Done;
  }

  // A switch-off whose three stores follow each other survives every later call exactly when
  // no restore past its swap and no back-off past its load is in flight.
  lemma SwitchOffSurvivesExactly(s: System, now: nat)
    requires NoneSetting(s) && AllSane(s)
    ensures StaysOff(After(s, Whole(s, SwitchOff, now)))
            <==> forall i :: 0 <= i < |s.threads| ==> !Undoes(s.mem.configured, s.threads[i])
  {
    WholeRuns(s, SwitchOff, now);
    OffRest(s.mem, now);
    var t := After(s, Whole(s, SwitchOff, now));
    OffAfter(s, t);
    StaysOffExactly(t);
  }

  // ----- a cap -----

  predicate Within(v: int, cap: int)
  {
    Min(L.MIN_ADAPTIVE_BPS, cap) <= v <= cap
  }

  // A bucket is installed and its rate lies within the cap.
  predicate Held(m: Memory, cap: int)
  {
    0 <= m.bucket < |m.limits| && Within(m.limits[m.bucket], cap)
  }

  ghost predicate StaysHeld(s: System, cap: int)
  {
    forall evs: seq<Event> :: NoSet(evs) ==> Held(After(s, evs).mem, cap)
  }

  // A rate in flight lies within the cap, or goes to a bucket no longer installed.
  predicate Fits(m: Memory, t: Thread, cap: int)
  {
    match t
    case BytesLoad(cfg) => Within(cfg, cap)
    case Store(bps, _) => Within(bps, cap)
    case BucketLoad(bps, _) => Within(bps, cap)
    case Install(bps, cur, _) => Within(bps, cap) || (cur >= 0 && cur != m.bucket)
    case _ => true
  }

  ghost predicate Fit(s: System, cap: int)
  {
    Held(s.mem, cap) && s.mem.bytes / 2 <= cap && forall i :: 0 <= i < |s.threads| ==> Fits(s.mem, s.threads[i], cap)
  }

  // What the shared fields must satisfy while a cap holds.
  predicate Ruled(m: Memory, cap: int)
  {
    cap >= L.MIN_ADAPTIVE_BPS && m.configured == cap && Held(m, cap) && m.bytes / 2 <= cap
  }

  lemma FitAccess(m: Memory, t: Thread, now: nat, cap: int)
    requires Ruled(m, cap) && Sane(m, t) && !Setting(t) && Fits(m, t, cap)
    ensures var (n, u) := Access(m, t, now);
            && Ruled(n, cap) && Fits(n, u, cap) && !Setting(u)
            && (n.bucket == m.bucket || n.bucket == |m.limits|)
  {
  }

  lemma FitStep(s: System, e: Event, cap: int)
    requires Ruled(s.mem, cap) && Fit(s, cap) && AllSane(s) && NoneSetting(s) && NoSet([e])
    ensures Ruled(Do(s, e).mem, cap) && Fit(Do(s, e), cap) && AllSane(Do(s, e)) && NoneSetting(Do(s, e))
  {
    assert [e][0] == e;
    SaneStep(s, e);
    if e.Move? && e.i < |s.threads| {
      FitAccess(s.mem, s.threads[e.i], e.now, cap);
      var t := Do(s, e);
      forall i | 0 <= i < |t.threads|
        ensures Fits(t.mem, t.threads[i], cap)
      {
        if i != e.i {
          assert Sane(s.mem, s.threads[i]);
        }
      }
    }
  }

  lemma {:induction false} FitStays(s: System, evs: seq<Event>, cap: int)
    requires Ruled(s.mem, cap) && Fit(s, cap) && AllSane(s) && NoneSetting(s) && NoSet(evs)
    ensures Held(After(s, evs).mem, cap)
    decreases |evs|
  {
    if evs != [] {
      assert NoSet([evs[0]]);
      FitStep(s, evs[0], cap);
      FitStays(Do(s, evs[0]), evs[1..], cap);
    }
  }

  // The call will put this rate into the installed bucket.
  predicate Brings(m: Memory, t: Thread, v: int)
  {
    match t
    case BytesLoad(cfg) => cfg == v && m.bytes != v
    case Store(bps, _) => bps == v
    case BucketLoad(bps, _) => bps == v
    case Install(bps, cur, _) => bps == v && (cur < 0 || cur == m.bucket)
    case _ => false
  }

  lemma {:induction false} BringsIt(s: System, i: nat, v: int, cap: int) returns (evs: seq<Event>)
    requires 0 <= s.mem.bucket < |s.mem.limits| && !Within(v, cap) && i < |s.threads|
    requires Brings(s.mem, s.threads[i], v)
    ensures NoSet(evs) && !Held(After(s, evs).mem, cap)
    decreases Rank(s.threads[i])
  {
    var e := Move(i, 0);
    RankFalls(s.mem, s.threads[i], 0);
    var t := Do(s, e);
    evs := [];
    if s.threads[i].Install? {
      assert t.mem.limits[t.mem.bucket] == v;
    } else {
      evs := BringsIt(t, i, v, cap);
    }
    Cons(s, e, evs);
    evs := [e] + evs;
  }

  // A back-off begun now stores half the recorded rate, or the minimum.
  lemma HalfStored(s: System)
    requires s.mem.bytes > 0 && Halved(s.mem.bytes) != s.mem.bytes
    ensures var e := Move(|s.threads|, 0);
            After(s, [Begin(BackOff), e]) == System(s.mem, s.threads + [Store(Halved(s.mem.bytes), true)])
  {
    var e := Move(|s.threads|, 0);
    var evs := [Begin(BackOff), e];
    var s1 := Do(s, Begin(BackOff));
    var s2 := Do(s1, e);
    assert evs[1..] == [e] && [e][1..] == [];
    assert After(s1, [e]) == After(s2, []);
    assert s2.threads == s.threads + [Store(Halved(s.mem.bytes), true)];
  }

  lemma HalfBrought(s: System, cap: int) returns (evs: seq<Event>)
    requires 0 <= s.mem.bucket < |s.mem.limits| && s.mem.bytes > 0
    requires Halved(s.mem.bytes) != s.mem.bytes && !Within(Halved(s.mem.bytes), cap)
    ensures NoSet(evs) && !Held(After(s, evs).mem, cap)
  {
    HalfStored(s);
    var e := Move(|s.threads|, 0);
    var s1 := Do(s, Begin(BackOff));
    evs := BringsIt(After(s, [Begin(BackOff), e]), |s.threads|, Halved(s.mem.bytes), cap);
    assert After(s, [Begin(BackOff), e]) == Do(s1, e) by {
      assert [Begin(BackOff), e][1..] == [e] && [e][1..] == [];
    }
    Cons(s1, e, evs);
    Cons(s, Begin(BackOff), [e] + evs);
    evs := [Begin(BackOff)] + ([e] + evs);
  }

  // A restore that would skip its store, because the rate is already the one it read, does
  // not skip it once a back-off has come in between.
  lemma UnskippedRestore(s: System, i: nat, cap: int) returns (evs: seq<Event>)
    requires 0 <= s.mem.bucket < |s.mem.limits| && i < |s.threads| && s.threads[i] == BytesLoad(s.mem.bytes)
    requires s.mem.bytes > 0 && !Within(s.mem.bytes, cap) && Halved(s.mem.bytes) != s.mem.bytes
    ensures NoSet(evs) && !Held(After(s, evs).mem, cap)
  {
    HalfStored(s);
    var n, v := |s.threads|, s.mem.bytes;
    var e := Move(n, 0);
    var s1 := Do(s, Begin(BackOff));
    var s2 := Do(s1, e);
    assert After(s, [Begin(BackOff), e]) == s2 by {
      assert [Begin(BackOff), e][1..] == [e] && [e][1..] == [];
    }
    var s3 := Do(s2, e);
    assert s3.mem == s.mem.(bytes := Halved(v)) && s3.threads[i] == BytesLoad(v);
    evs := BringsIt(s3, i, v, cap);
    Cons(s2, e, evs);
    Cons(s1, e, [e] + evs);
    Cons(s, Begin(BackOff), [e] + ([e] + evs));
    evs := [Begin(BackOff)] + ([e] + ([e] + evs));
  }

  lemma NotFitBreaks(s: System, cap: int) returns (evs: seq<Event>)
    requires AllSane(s) && cap >= L.MIN_ADAPTIVE_BPS && !Fit(s, cap)
    ensures NoSet(evs) && !Held(After(s, evs).mem, cap)
  {
    evs := [];
    if !Held(s.mem, cap) {
    } else if s.mem.bytes / 2 > cap {
      evs := HalfBrought(s, cap);
    } else {
      var i :| 0 <= i < |s.threads| && !Fits(s.mem, s.threads[i], cap);
      var t := s.threads[i];
      assert Sane(s.mem, t);
      if t.BytesLoad? && t.cfg == s.mem.bytes {
        evs := UnskippedRestore(s, i, cap);
      } else {
        evs := BringsIt(s, i, if t.BytesLoad? then t.cfg else t.bps, cap);
      }
    }
  }

  // With the cap recorded and no rate change under way: the installed rate stays between the
  // minimum and the cap, whatever is called from now on, exactly when Fit holds.
  lemma StaysHeldExactly(s: System, cap: int)
    requires AllSane(s) && NoneSetting(s) && s.mem.configured == cap >= L.MIN_ADAPTIVE_BPS
    ensures StaysHeld(s, cap) <==> Fit(s, cap)
  {
    if Fit(s, cap) {
      forall evs: seq<Event> | NoSet(evs)
        ensures Held(After(s, evs).mem, cap)
      {
        FitStays(s, evs, cap);
      }
    } else {
      var evs := NotFitBreaks(s, cap);
      assert NoSet(evs) && !Held(After(s, evs).mem, cap);
    }
  }

  lemma CapSet(s: System, cap: int, now: nat)
    requires AllSane(s) && cap > 0
    ensures var t := After(s, Whole(s, NewRate(cap), now));
            && t.threads == s.threads + [Done] && t.mem.bytes == cap == t.mem.configured
            && AllSane(t) && 0 <= t.mem.bucket && t.mem.limits[t.mem.bucket] == cap
            && t.mem.bucket == if s.mem.bucket < 0 then |s.mem.limits| else s.mem.bucket
  {
    WholeRuns(s, NewRate(cap), now);
    RateRest(s.mem, cap, now);
    var t := After(s, Whole(s, NewRate(cap), now));
    forall i | 0 <= i < |t.threads|
      ensures Sane(t.mem, t.threads[i])
    {
      if i < |s.threads| {
        assert Sane(s.mem, s.threads[i]);
      }
    }
  }

  // A cap set by a call whose accesses follow each other is honoured by every interleaving
  // from then on exactly when it is not below the minimum and every rate still in flight is
  // within it, or bound for a detached bucket.
  lemma CapHonouredExactly(s: System, cap: int, now: nat)
    requires AllSane(s) && NoneSetting(s) && 0 < cap <= INT64_MAX
    ensures StaysHeld(After(s, Whole(s, NewRate(cap), now)), cap)
            <==> cap >= 65536 && forall i :: 0 <= i < |s.threads| ==> Fits(s.mem, s.threads[i], cap)
  {
    CapSet(s, cap, now);
    var t := After(s, Whole(s, NewRate(cap), now));
    if cap < L.MIN_ADAPTIVE_BPS {
      var evs := HalfBrought(t, cap);
      assert NoSet(evs) && !Held(After(t, evs).mem, cap);
    } else {
      StaysHeldExactly(t, cap);
      forall i | 0 <= i < |s.threads|
        ensures t.threads[i] == s.threads[i] && Fits(t.mem, t.threads[i], cap) == Fits(s.mem, s.threads[i], cap)
      {
        assert Sane(s.mem, s.threads[i]);
      }
      assert Fits(t.mem, Done, cap);
      assert forall i :: 0 <= i < |t.threads| ==> i == |s.threads| || t.threads[i] == s.threads[i];
    }
  }

  // ----- every interleaving of everything -----

  predicate Ranged(v: int, lo: int, hi: int)
  {
    Min(L.MIN_ADAPTIVE_BPS, lo) <= v <= Max(L.MIN_ADAPTIVE_BPS, hi)
  }

  // The rate a call carries.
  predicate Carries(t: Thread, lo: int, hi: int)
  {
    match t
    case BytesLoad(cfg) => Ranged(cfg, lo, hi)
    case Store(bps, _) => Ranged(bps, lo, hi)
    case BucketLoad(bps, _) => Ranged(bps, lo, hi)
    case Install(bps, _, _) => Ranged(bps, lo, hi)
    case RateBytes(bps) => Ranged(bps, lo, hi)
    case RateConfigured(bps) => Ranged(bps, lo, hi)
    case RateCooldown(bps) => Ranged(bps, lo, hi)
    case RateBucketLoad(bps) => Ranged(bps, lo, hi)
    case RateInstall(bps, _) => Ranged(bps, lo, hi)
    case _ => true
  }

  ghost predicate MemRanged(m: Memory, lo: int, hi: int)
  {
    && (m.bytes == 0 || Ranged(m.bytes, lo, hi)) && (m.configured == 0 || Ranged(m.configured, lo, hi))
    && forall k :: 0 <= k < |m.limits| ==> Ranged(m.limits[k], lo, hi)
  }

  ghost predicate AllRanged(s: System, lo: int, hi: int)
  {
    MemRanged(s.mem, lo, hi) && forall i :: 0 <= i < |s.threads| ==> Carries(s.threads[i], lo, hi)
  }

  ghost predicate RatesIn(evs: seq<Event>, lo: int, hi: int)
  {
    forall i :: 0 <= i < |evs| && evs[i].Begin? && evs[i].call.NewRate? ==> lo <= evs[i].call.bps <= hi
  }

  lemma RangedAccess(m: Memory, t: Thread, now: nat, lo: int, hi: int)
    requires 0 < lo <= hi && MemRanged(m, lo, hi) && Carries(t, lo, hi)
    ensures var (n, u) := Access(m, t, now); MemRanged(n, lo, hi) && Carries(u, lo, hi)
  {
  }

  lemma {:induction false} RangedOn(s: System, evs: seq<Event>, lo: int, hi: int)
    requires 0 < lo <= hi && AllRanged(s, lo, hi) && RatesIn(evs, lo, hi)
    ensures AllRanged(After(s, evs), lo, hi)
    decreases |evs|
  {
    if evs != [] {
      var e := evs[0];
      if e.Move? && e.i < |s.threads| {
        RangedAccess(s.mem, s.threads[e.i], e.now, lo, hi);
      }
      RangedOn(Do(s, e), evs[1..], lo, hi);
    }
  }

  // Whatever overlaps with whatever: an installed rate never leaves the span of the rates
  // ever set and the adaptive minimum.
  lemma RatesStayInSpan(evs: seq<Event>, lo: int, hi: int)
    requires 0 < lo <= hi && RatesIn(evs, lo, hi) && AllReadable(evs)
    ensures var m := After(Unlimited(), evs).mem;
            m.bucket >= 0 ==> m.bucket < |m.limits|
                              && Min(L.MIN_ADAPTIVE_BPS, lo) <= m.limits[m.bucket] <= Max(L.MIN_ADAPTIVE_BPS, hi)
  {
    RangedOn(Unlimited(), evs, lo, hi);
    SaneAlways(Unlimited(), evs);
  }

  // ----- the races, from a fresh limiter -----

  function Started(cap: int): seq<Event>
  {
    Whole(Unlimited(), NewRate(cap), 0)
  }

  lemma StartedState(cap: int)
    requires cap > 0
    ensures After(Unlimited(), Started(cap)) == System(Memory(0, [cap], cap, cap, 0), [Done])
  {
    WholeRuns(Unlimited(), NewRate(cap), 0);
    RateRest(Unlimited().mem, cap, 0);
  }

  // A back-off that has read the rate and stored nothing yet.
  function HalfWay(cap: int): seq<Event>
  {
    Started(cap) + [Begin(BackOff), Move(1, 0)]
  }

  lemma HalfWayState(cap: int)
    requires cap > 0 && Halved(cap) != cap
    ensures After(Unlimited(), HalfWay(cap))
            == System(Memory(0, [cap], cap, cap, 0), [Done, Store(Halved(cap), true)])
  {
    StartedState(cap);
    AfterAppend(Unlimited(), Started(cap), [Begin(BackOff), Move(1, 0)]);
    HalfStored(System(Memory(0, [cap], cap, cap, 0), [Done]));
  }

  // A restore that has read the configured rate and stored nothing yet.
  function Restoring(cap: int): seq<Event>
  {
    HalfWay(cap) + Moves(1, 0, 4) + [Begin(ThrottleOK)] + Moves(2, L.ADAPTIVE_COOLDOWN, 3)
  }

  lemma BackedOffState(cap: int)
    requires cap > 0 && Halved(cap) != cap
    ensures After(Unlimited(), HalfWay(cap) + Moves(1, 0, 4))
            == System(Memory(0, [Halved(cap)], Halved(cap), cap, L.ADAPTIVE_COOLDOWN), [Done, Done])
  {
    var m, half := Memory(0, [cap], cap, cap, 0), Halved(cap);
    var s := System(m, [Done, Store(half, true)]);
    HalfWayState(cap);
    AfterAppend(Unlimited(), HalfWay(cap), Moves(1, 0, 4));
    MovesRun(s, 1, 0, 4);
    var m1 := m.(bytes := half);
    var m2 := m1.(limits := [half]);
    assert [cap][0 := half] == [half];
    assert Rest(m, Store(half, true), 0) == Rest(m1, BucketLoad(half, true), 0);
    assert Rest(m1, BucketLoad(half, true), 0) == Rest(m1, Install(half, 0, true), 0);
    assert Rest(m1, Install(half, 0, true), 0) == Rest(m2, CooldownStore, 0);
    assert Rest(m2, CooldownStore, 0) == Rest(m2.(cooldown := L.ADAPTIVE_COOLDOWN), Done, 0);
  }

  lemma RestoringState(cap: int)
    requires cap > 0 && Halved(cap) != cap
    ensures After(Unlimited(), Restoring(cap))
            == System(Memory(0, [Halved(cap)], Halved(cap), cap, 0), [Done, Done, BytesLoad(cap)])
  {
    BackedOffState(cap);
    var now: nat := L.ADAPTIVE_COOLDOWN;
    var m := Memory(0, [Halved(cap)], Halved(cap), cap, now);
    var s := System(m, [Done, Done]);
    var e := Move(2, now);
    var tail := [Begin(ThrottleOK)] + Moves(2, now, 3);
    assert Restoring(cap) == (HalfWay(cap) + Moves(1, 0, 4)) + tail;
    AfterAppend(Unlimited(), HalfWay(cap) + Moves(1, 0, 4), tail);
    assert tail == [Begin(ThrottleOK), e, e, e];
    var s1 := System(m, [Done, Done, CooldownLoad]);
    var s2 := System(m, [Done, Done, CooldownSwap(now)]);
    var s3 := System(m.(cooldown := 0), [Done, Done, ConfiguredLoad]);
    var s4 := System(m.(cooldown := 0), [Done, Done, BytesLoad(cap)]);
    assert Do(s, Begin(ThrottleOK)) == s1 && Do(s1, e) == s2 && Do(s2, e) == s3 && Do(s3, e) == s4;
    assert tail[1..] == [e, e, e] && [e, e, e][1..] == [e, e] && [e, e][1..] == [e] && [e][1..] == [];
    assert After(s3, [e]) == s4 && After(s2, [e, e]) == s4 && After(s1, [e, e, e]) == s4;
  }

  lemma ReadableParts(cap: int)
    requires 0 < cap <= INT64_MAX
    ensures AllReadable(HalfWay(cap)) && AllReadable(Restoring(cap))
  {
    var h, r := HalfWay(cap), Restoring(cap);
    assert forall i :: 0 <= i < |h| && h[i].Begin? ==> i == 0 || i == 8;
    assert forall i :: 0 <= i < |r| && r[i].Begin? ==> i == 0 || i == 8 || i == 14;
    assert h[0] == Begin(NewRate(cap)) && r[0] == Begin(NewRate(cap));
  }

  // From a fresh limiter and for every cap but the minimum: a switch-off that finds a back-off
  // past its load, or a restore past its swap, is undone.
  lemma SwitchOffUndone(cap: int, now: nat)
    requires 0 < cap <= INT64_MAX && cap != L.MIN_ADAPTIVE_BPS
    ensures var s := After(Unlimited(), HalfWay(cap));
            AllReadable(HalfWay(cap)) && NoneSetting(s) && !StaysOff(After(s, Whole(s, SwitchOff, now)))
    ensures var s := After(Unlimited(), Restoring(cap));
            AllReadable(Restoring(cap)) && NoneSetting(s) && !StaysOff(After(s, Whole(s, SwitchOff, now)))
  {
    ReadableParts(cap);
    HalfWayState(cap);
    RestoringState(cap);
    var h, r := After(Unlimited(), HalfWay(cap)), After(Unlimited(), Restoring(cap));
    SwitchOffSurvivesExactly(h, now);
    SwitchOffSurvivesExactly(r, now);
    assert Undoes(cap, h.threads[1]) && Undoes(cap, r.threads[2]);
  }

  // And a restore that has read the old cap carries it past a newly lowered one.
  lemma LoweredCapOverrun(cap: int, lower: int, now: nat)
    requires L.MIN_ADAPTIVE_BPS <= lower < cap <= INT64_MAX
    ensures var s := After(Unlimited(), Restoring(cap));
            AllReadable(Restoring(cap)) && NoneSetting(s) && !StaysHeld(After(s, Whole(s, NewRate(lower), now)), lower)
  {
    ReadableParts(cap);
    RestoringState(cap);
    var r := After(Unlimited(), Restoring(cap));
    CapHonouredExactly(r, lower, now);
    assert !Fits(r.mem, r.threads[2], lower);
  }
}
