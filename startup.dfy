/**
 * Process start-up arithmetic: the virtual-thread scheduler settings derived
 * from the configured parallelism and published as system properties, and
 * the thread factory that names the Netty event-loop threads.
 */
module Startup {
  import opened Text

  const INT32_MIN: int := -0x8000_0000
  const INT32_MAX: int := 0x7FFF_FFFF

  /** Java's `int`. */
  type int32 = x: int | INT32_MIN <= x <= INT32_MAX

  /** The parallelism the server configures for the virtual-thread scheduler. */
  const LOOM_SCHEDULER_PARALLELISM: int32 := 1

  // ---------------------------------------------------------------------------
  // setupDefaultScheduler

  /** Java's `p / 2` on an int: the quotient rounded toward zero. */
  function JavaHalf(p: int32): (h: int32)
    ensures p >= 0 ==> 0 <= p - 2 * h <= 1
    ensures p < 0 ==> -1 <= p - 2 * h <= 0
  {
    if p >= 0 then p / 2 else -((-(p as int)) / 2)
  }

  /** Integer.max. */
  function Max(a: int32, b: int32): (m: int32)
    ensures m >= a && m >= b
    ensures m == a || m == b
  {
    if a >= b then a else b
  }

  datatype SchedulerSettings = SchedulerSettings(parallelism: int32, maxPoolSize: int32, minRunnable: int32)

  /** The values setupDefaultScheduler derives from the parallelism. */
  function DeriveSchedulerSettings(parallelism: int32): (s: SchedulerSettings)
    ensures s.parallelism == parallelism
    ensures s.maxPoolSize >= parallelism && s.maxPoolSize >= 256
    ensures s.maxPoolSize == parallelism || s.maxPoolSize == 256
    ensures s.maxPoolSize == 256 <==> parallelism <= 256
    ensures s.minRunnable >= 1
    ensures parallelism >= 1 ==> s.minRunnable <= parallelism
    ensures parallelism >= 2 ==> 2 * s.minRunnable <= parallelism <= 2 * s.minRunnable + 1
    ensures parallelism <= 3 ==> s.minRunnable == 1
  {
    SchedulerSettings(parallelism, Max(parallelism, 256), Max(JavaHalf(parallelism), 1))
  }

  const PARALLELISM_PROPERTY := "jdk.virtualThreadScheduler.parallelism"
  const MAX_POOL_SIZE_PROPERTY := "jdk.virtualThreadScheduler.maxPoolSize"
  const MIN_RUNNABLE_PROPERTY := "jdk.virtualThreadScheduler.minRunnable"

  /**
   * setupDefaultScheduler as an update of the system-property map: the three
   * scheduler properties hold the decimal renderings of the derived values,
   * and every other property is left as it was.
   */
  function SetupDefaultScheduler(props: map<string, string>, parallelism: int32): (r: map<string, string>)
    ensures r.Keys == props.Keys + {PARALLELISM_PROPERTY, MAX_POOL_SIZE_PROPERTY, MIN_RUNNABLE_PROPERTY}
    ensures forall k :: k in props && k !in {PARALLELISM_PROPERTY, MAX_POOL_SIZE_PROPERTY, MIN_RUNNABLE_PROPERTY} ==> r[k] == props[k]
    ensures r[PARALLELISM_PROPERTY] == IntToDecimal(parallelism)
    ensures r[MAX_POOL_SIZE_PROPERTY] == IntToDecimal(DeriveSchedulerSettings(parallelism).maxPoolSize)
    ensures r[MIN_RUNNABLE_PROPERTY] == IntToDecimal(DeriveSchedulerSettings(parallelism).minRunnable)
    ensures ParseInt(r[PARALLELISM_PROPERTY]) == Some(parallelism)
    ensures ParseInt(r[MAX_POOL_SIZE_PROPERTY]) == Some(DeriveSchedulerSettings(parallelism).maxPoolSize as int)
    ensures ParseInt(r[MIN_RUNNABLE_PROPERTY]) == Some(DeriveSchedulerSettings(parallelism).minRunnable as int)
  {
    var s := DeriveSchedulerSettings(parallelism);
    IntDecimalRoundTrip(s.parallelism);
    IntDecimalRoundTrip(s.maxPoolSize);
    IntDecimalRoundTrip(s.minRunnable);
    props[PARALLELISM_PROPERTY := IntToDecimal(s.parallelism)]
         [MAX_POOL_SIZE_PROPERTY := IntToDecimal(s.maxPoolSize)]
         [MIN_RUNNABLE_PROPERTY := IntToDecimal(s.minRunnable)]
  }

  /** With the configured parallelism of 1 the scheduler gets 256 and 1. */
  lemma ConfiguredScheduler(props: map<string, string>)
    ensures DeriveSchedulerSettings(LOOM_SCHEDULER_PARALLELISM) == SchedulerSettings(1, 256, 1)
    ensures SetupDefaultScheduler(props, LOOM_SCHEDULER_PARALLELISM)[PARALLELISM_PROPERTY] == "1"
    ensures SetupDefaultScheduler(props, LOOM_SCHEDULER_PARALLELISM)[MAX_POOL_SIZE_PROPERTY] == "256"
    ensures SetupDefaultScheduler(props, LOOM_SCHEDULER_PARALLELISM)[MIN_RUNNABLE_PROPERTY] == "1"
  {
    assert DigitChar(1) == '1' && DigitChar(2) == '2' && DigitChar(5) == '5' && DigitChar(6) == '6';
    assert NatToDecimal(2) == "2";
    assert NatToDecimal(25) == NatToDecimal(2) + "5" == "25";
    assert NatToDecimal(256) == NatToDecimal(25) + "6" == "256";
  }

  // ---------------------------------------------------------------------------
  // The event-loop ThreadFactory

  /** AtomicInteger arithmetic: the k-th value of a counter started at 0, wrapping at 2^31. */
  function Wrap32(k: int): (v: int32)
    ensures (k - v) % 0x1_0000_0000 == 0
  {
    assert k - ((k - INT32_MIN) % 0x1_0000_0000 + INT32_MIN) == ((k - INT32_MIN) / 0x1_0000_0000) * 0x1_0000_0000;
    (k - INT32_MIN) % 0x1_0000_0000 + INT32_MIN
  }

  /** Euclidean division by 2^32 has a unique quotient and remainder. */
  lemma {:induction false} ModTurn(x: int, q: int, r: int)
    requires x == q * 0x1_0000_0000 + r && 0 <= r < 0x1_0000_0000
    ensures x % 0x1_0000_0000 == r
  {
    var q' := x / 0x1_0000_0000;
    var r' := x % 0x1_0000_0000;
    assert (q - q') * 0x1_0000_0000 == r' - r;
  }

  lemma Wrap32Succ(k: int)
    ensures Wrap32(k + 1) == if Wrap32(k) == INT32_MAX then INT32_MIN else Wrap32(k) + 1
  {
    var m := (k - INT32_MIN) % 0x1_0000_0000;
    var q := (k - INT32_MIN) / 0x1_0000_0000;
    assert k - INT32_MIN == q * 0x1_0000_0000 + m;
    if m == 0x1_0000_0000 - 1 {
      ModTurn(k + 1 - INT32_MIN, q + 1, 0);
    } else {
      ModTurn(k + 1 - INT32_MIN, q, m + 1);
    }
  }

  /** Within one full turn of the counter, Wrap32 reinterprets the count as a signed 32-bit value. */
  lemma Wrap32InRange(k: int)
    requires 0 <= k < 0x1_0000_0000
    ensures Wrap32(k) == if k <= INT32_MAX then k else k - 0x1_0000_0000
  {
    if k <= INT32_MAX {
      assert 0 <= k - INT32_MIN < 0x1_0000_0000;
    } else {
      assert k - INT32_MIN == 0x1_0000_0000 + (k - INT32_MIN - 0x1_0000_0000);
    }
  }

  const THREAD_NAME_PREFIX := "Netty event-loop-"

  /** The name of the k-th thread (counting from 0) the factory creates. */
  function EventLoopThreadName(k: nat): (name: string)
    ensures |name| > |THREAD_NAME_PREFIX| && name[..|THREAD_NAME_PREFIX|] == THREAD_NAME_PREFIX
  {
    THREAD_NAME_PREFIX + IntToDecimal(Wrap32(k))
  }

  /** What follows the prefix reads back as the counter value the thread was named after. */
  lemma EventLoopThreadNameReadsBack(k: nat)
    ensures ParseInt(EventLoopThreadName(k)[|THREAD_NAME_PREFIX|..]) == Some(Wrap32(k) as int)
  {
    var suffix := IntToDecimal(Wrap32(k));
    IntDecimalRoundTrip(Wrap32(k));
    assert EventLoopThreadName(k)[|THREAD_NAME_PREFIX|..] == suffix;
  }

  datatype NettyThread<R> = NettyThread(name: string, target: R)

  /** The anonymous ThreadFactory of createNettyEventLoopGroup and its `threadId` counter. */
  class EventLoopThreadFactory {
    var threadId: int32
    /** Names handed out so far, oldest first. */
    ghost var names: seq<string>

    ghost predicate Valid()
      reads this
    {
      && threadId == Wrap32(|names|)
      && forall k :: 0 <= k < |names| ==> names[k] == EventLoopThreadName(k)
    }

    constructor ()
      ensures Valid() && names == [] && threadId == 0
    {
      threadId := 0;
      names := [];
    }

    /** newThread: names the thread after the counter's current value, then advances the counter by one. */
    method NewThread<R>(r: R) returns (t: NettyThread<R>)
      requires Valid()
      modifies this
      ensures Valid()
      ensures t.name == EventLoopThreadName(|old(names)|) && t.target == r
      ensures names == old(names) + [t.name]
      ensures threadId == if old(threadId) == INT32_MAX then INT32_MIN else old(threadId) + 1
    {
      ghost var n := |names|;
      Wrap32Succ(n);
      var id := threadId;
      threadId := if threadId == INT32_MAX then INT32_MIN else threadId + 1;
      t := NettyThread(THREAD_NAME_PREFIX + IntToDecimal(id), r);
      NamesExtended(names, t.name);
      names := names + [t.name];
    }
  }

  /** Appending the name of the next index keeps every name at its index. */
  lemma NamesExtended(names: seq<string>, next: string)
    requires forall k :: 0 <= k < |names| ==> names[k] == EventLoopThreadName(k)
    requires next == EventLoopThreadName(|names|)
    ensures forall k :: 0 <= k < |names| + 1 ==> (names + [next])[k] == EventLoopThreadName(k)
  {
  }

  /** Until the counter overflows, the k-th thread is named after k itself. */
  lemma EventLoopThreadNameIsIndex(k: nat)
    requires k <= INT32_MAX
    ensures EventLoopThreadName(k) == THREAD_NAME_PREFIX + NatToDecimal(k)
  {
    Wrap32InRange(k);
  }

  lemma FirstEventLoopThreadName()
    ensures EventLoopThreadName(0) == "Netty event-loop-0"
  {
    Wrap32InRange(0);
    assert DigitChar(0) == '0';
  }

  /** Any 2^32 consecutive threads of one factory have pairwise distinct names. */
  lemma EventLoopThreadNamesDistinct(i: nat, j: nat)
    requires i < j < 0x1_0000_0000
    ensures EventLoopThreadName(i) != EventLoopThreadName(j)
  {
    if EventLoopThreadName(i) == EventLoopThreadName(j) {
      var p := |THREAD_NAME_PREFIX|;
      assert EventLoopThreadName(i)[p..] == IntToDecimal(Wrap32(i));
      assert EventLoopThreadName(j)[p..] == IntToDecimal(Wrap32(j));
      IntToDecimalInjective(Wrap32(i), Wrap32(j));
      Wrap32InRange(i);
      Wrap32InRange(j);
      assert false;
    }
  }

  /** The counter wraps: the 2^32-th thread reuses the first thread's name. */
  lemma EventLoopThreadNamesRepeatAfterWrap()
    ensures EventLoopThreadName(0x1_0000_0000) == EventLoopThreadName(0)
  {
  }

  /** The names a factory has handed out are pairwise distinct until its counter comes round again. */
  lemma IssuedNamesDistinct(f: EventLoopThreadFactory)
    requires f.Valid() && |f.names| <= 0x1_0000_0000
    ensures forall i, j :: 0 <= i < j < |f.names| ==> f.names[i] != f.names[j]
  {
    forall i, j | 0 <= i < j < |f.names|
      ensures f.names[i] != f.names[j]
    {
      EventLoopThreadNamesDistinct(i, j);
    }
  }
}
