/**
 * The sampling and calibration engine: it drives a scale adaptor to collect
 * raw samples (a fixed count, or as many as fit a time budget), aggregates
 * them, maps the aggregate to a mass through the linear calibration
 * (raw - offset) / ref_unit, and re-zeroes (tares) the offset.
 *
 * Each collector is specified by a function giving the exact sequence of
 * adaptor calls it makes (BlockingRun, TimedRun); the methods are proved to
 * make exactly those calls and to store exactly the successful samples, and
 * lemmas state what those runs are.
 */
module Scale {
  import opened Adaptor
  import Mass

  // ---- configuration ----

  datatype StrategyType = Samples | Time

  datatype ReadType = Median | Average

  function StrategyCode(s: StrategyType): (c: nat)
    ensures c < 2
  {
    match s
    case Samples => 0
    case Time => 1
  }

  function ReadCode(r: ReadType): (c: nat)
    ensures c < 2
  {
    match r
    case Median => 0
    case Average => 1
  }

  /** The strategy scale_read selects for an encoded value: anything but the time strategy's code falls to the fixed count. */
  function StrategyOf(c: int): (s: StrategyType)
    ensures s == Time <==> c == 1
  {
    if c == 1 then Time else Samples
  }

  /** The aggregation scale_read selects for an encoded value: anything but the average's code falls to the median. */
  function ReadOf(c: int): (r: ReadType)
    ensures r == Average <==> c == 1
  {
    if c == 1 then Average else Median
  }

  /** The encodings are 0 for the fixed count and the median, 1 for the time box and the average, and decode back. */
  lemma EnumEncodings(s: StrategyType, r: ReadType)
    ensures StrategyCode(Samples) == 0 && StrategyCode(Time) == 1
    ensures ReadCode(Median) == 0 && ReadCode(Average) == 1
    ensures StrategyOf(StrategyCode(s)) == s && ReadOf(ReadCode(r)) == r
  {
  }

  /**
   * Sampling options: strategy, aggregation, sample count, timeout in
   * microseconds, and the caller's sample buffer with the capacity the
   * collectors may use.
   */
  datatype Options = Options(
    strat: StrategyType,
    read: ReadType,
    samples: nat,
    timeout: uint32,
    buffer: array?<int32>,
    bufflen: nat)

  /** The defaults: fixed count of 3, median, one second; no buffer (the caller must supply one). */
  const DefaultOptions: Options := Options(Samples, Median, 3, 1000000, null, 0)

  function GetDefaultOptions(): (opt: Options)
    ensures opt.strat == Samples && opt.read == Median
    ensures opt.samples == 3 && opt.timeout == 1000000
    ensures opt.buffer == null && opt.bufflen == 0
  {
    DefaultOptions
  }

  /**
   * What scale_read demands of its options: a buffer holding at least
   * bufflen samples, room for the fixed count, and a non-empty capacity for
   * the time box.
   */
  predicate Usable(opt: Options)
    ensures Usable(opt) ==>
              && opt.buffer != null
              && (opt.strat == Samples ==> opt.samples <= opt.buffer.Length)
              && (opt.strat == Time ==> 0 < opt.bufflen <= opt.buffer.Length)
  {
    && opt.buffer != null
    && opt.bufflen <= opt.buffer.Length
    && (opt.strat == Samples ==> opt.samples <= opt.bufflen)
    && (opt.strat == Time ==> opt.bufflen > 0)
  }

  // ---- what the collectors do ----

  /**
   * The platform clock, seen from the timed collector: the microseconds
   * elapsed since its deadline was set, at its j-th check of the deadline.
   */
  type Clock = nat -> nat

  /** The values of the successful calls, in call order. */
  function Successes(calls: seq<Call>): (vs: seq<int32>)
    ensures |vs| <= |calls|
  {
    if calls == [] then []
    else (if calls[0].result.Some? then [calls[0].result.value] else []) + Successes(calls[1..])
  }

  lemma {:induction false} SuccessesAppend(calls: seq<Call>, c: Call)
    ensures Successes(calls + [c]) == Successes(calls) + (if c.result.Some? then [c.result.value] else [])
  {
    if calls != [] {
      assert (calls + [c])[1..] == calls[1..] + [c];
      SuccessesAppend(calls[1..], c);
    }
  }

  lemma AppendCall(log: seq<Call>, done: seq<Call>, c: Call)
    ensures (log + done) + [c] == log + (done + [c])
  {
  }

  /**
   * In a run where every call but the last succeeded, the samples are the
   * answers of all calls but a failed last one, in call order.
   */
  lemma {:induction false} SuccessesOfRun(calls: seq<Call>)
    requires forall p :: 0 <= p < |calls| - 1 ==> calls[p].result.Some?
    ensures |Successes(calls)| ==
              if |calls| > 0 && calls[|calls| - 1].result.None? then |calls| - 1 else |calls|
    ensures forall p :: 0 <= p < |Successes(calls)| ==> Some(Successes(calls)[p]) == calls[p].result
  {
    if calls != [] {
      var rest := calls[1..];
      forall p | 0 <= p < |rest| - 1
        ensures rest[p].result.Some?
      {
        assert rest[p] == calls[p + 1];
      }
      SuccessesOfRun(rest);
      if |calls| > 1 {
        assert calls[|calls| - 1] == rest[|rest| - 1];
        assert calls[0].result.Some?;
        var s := Successes(calls);
        assert s == [calls[0].result.value] + Successes(rest);
        forall p | 0 < p < |s|
          ensures Some(s[p]) == calls[p].result
        {
          assert s[p] == Successes(rest)[p - 1];
          assert calls[p] == rest[p - 1];
        }
      }
    }
  }

  /**
   * The calls the fixed-count collector makes for n remaining slots, the
   * first of them being the adaptor's k-th call: one blocking read per slot,
   * stopping right after the first failure.
   */
  function BlockingRun(sensor: Sensor, k: nat, n: nat): (calls: seq<Call>)
    ensures |calls| <= n
    decreases n
  {
    if n == 0 then []
    else
      var c := Outcome(sensor, k, Blocking);
      [c] + (if c.result.Some? then BlockingRun(sensor, k + 1, n - 1) else [])
  }

  /** Microseconds left before the deadline at the j-th check. */
  function TimeLeft(timeout: uint32, clock: Clock, j: nat): (d: int)
    ensures d <= timeout as int
  {
    timeout as int - clock(j)
  }

  /** The timeout handed to the read made at the j-th check: the time left, when some is. */
  function Budget(timeout: uint32, clock: Clock, j: nat): (t: uint32)
    ensures 0 < TimeLeft(timeout, clock, j) ==> 0 < t <= timeout && t as int == TimeLeft(timeout, clock, j)
  {
    if 0 < TimeLeft(timeout, clock, j) then TimeLeft(timeout, clock, j) as uint32 else 0
  }

  /** c is the k-th call on the adaptor, made at the j-th check with time left and reading within all of it. */
  predicate TimedCallAt(c: Call, sensor: Sensor, k: nat, timeout: uint32, clock: Clock, j: nat)
  {
    0 < TimeLeft(timeout, clock, j) && c == Outcome(sensor, k, Timed(Budget(timeout, clock, j)))
  }

  /**
   * The calls the timed collector makes once j samples are stored, base
   * being the number of calls the adaptor had served when collection began:
   * stop when arrlen samples are stored or no time is left, otherwise read
   * within the time left and go on only if that read succeeded.
   */
  function TimedRun(sensor: Sensor, base: nat, clock: Clock, timeout: uint32, arrlen: nat, j: nat): (calls: seq<Call>)
    requires j <= arrlen
    ensures |calls| <= arrlen - j
    decreases arrlen - j
  {
    if j == arrlen then []
    else
      if TimeLeft(timeout, clock, j) <= 0 then []
      else
        var c := Outcome(sensor, base + j, Timed(Budget(timeout, clock, j)));
        [c] + (if c.result.Some? then TimedRun(sensor, base, clock, timeout, arrlen, j + 1) else [])
  }

  /**
   * One step of the fixed-count collector, after i of its len slots: the
   * rest of the run is slot i's call, followed by the remainder only if that
   * call succeeded.
   */
  lemma BlockingRunStep(sensor: Sensor, k: nat, len: nat, i: nat, done: seq<Call>)
    requires i < len
    ensures var c := Outcome(sensor, k + i, Blocking);
      done + BlockingRun(sensor, k + i, len - i) ==
        if c.result.Some? then (done + [c]) + BlockingRun(sensor, k + (i + 1), len - (i + 1)) else done + [c]
  {
    var c := Outcome(sensor, k + i, Blocking);
    assert k + i + 1 == k + (i + 1) && len - i - 1 == len - (i + 1);
    if c.result.Some? {
      var rest := BlockingRun(sensor, k + (i + 1), len - (i + 1));
      assert done + ([c] + rest) == (done + [c]) + rest;
    }
  }

  /**
   * One step of the timed collector, after j of its arrlen slots: nothing
   * more when no time is left, otherwise the read within the time left,
   * followed by the remainder only if that read succeeded.
   */
  lemma TimedRunStep(sensor: Sensor, base: nat, clock: Clock, timeout: uint32, arrlen: nat, j: nat, done: seq<Call>)
    requires j < arrlen
    ensures TimeLeft(timeout, clock, j) <= 0 ==> done + TimedRun(sensor, base, clock, timeout, arrlen, j) == done
    ensures 0 < TimeLeft(timeout, clock, j) ==>
      var c := Outcome(sensor, base + j, Timed(Budget(timeout, clock, j)));
      done + TimedRun(sensor, base, clock, timeout, arrlen, j) ==
        if c.result.Some? then (done + [c]) + TimedRun(sensor, base, clock, timeout, arrlen, j + 1) else done + [c]
  {
    if 0 < TimeLeft(timeout, clock, j) {
      var c := Outcome(sensor, base + j, Timed(Budget(timeout, clock, j)));
      if c.result.Some? {
        var rest := TimedRun(sensor, base, clock, timeout, arrlen, j + 1);
        assert done + ([c] + rest) == (done + [c]) + rest;
      }
    } else {
      assert done + [] == done;
    }
  }

  /**
   * The fixed-count collector's loop as a function: having made the calls in
   * done for slots 0..i, the calls it will have made when it stops.
   */
  function BlockingLoop(sensor: Sensor, k: nat, len: nat, i: nat, done: seq<Call>): seq<Call>
    requires i <= len
    decreases len - i
  {
    if i == len then done
    else
      var c := Outcome(sensor, k + i, Blocking);
      if c.result.Some? then BlockingLoop(sensor, k, len, i + 1, done + [c]) else done + [c]
  }

  /** The loop makes, after the calls already made, exactly the run of the remaining slots. */
  lemma {:induction false} BlockingLoopRun(sensor: Sensor, k: nat, len: nat, i: nat, done: seq<Call>)
    requires i <= len
    ensures BlockingLoop(sensor, k, len, i, done) == done + BlockingRun(sensor, k + i, len - i)
    decreases len - i
  {
    if i < len {
      var c := Outcome(sensor, k + i, Blocking);
      BlockingRunStep(sensor, k, len, i, done);
      if c.result.Some? {
        BlockingLoopRun(sensor, k, len, i + 1, done + [c]);
      }
    } else {
      assert done + [] == done;
    }
  }

  /**
   * The timed collector's loop as a function: having made the calls in done
   * and stored j samples, the calls it will have made when it stops.
   */
  function TimedLoop(sensor: Sensor, base: nat, clock: Clock, timeout: uint32, arrlen: nat, j: nat, done: seq<Call>): seq<Call>
    requires j <= arrlen
    decreases arrlen - j
  {
    if j == arrlen || TimeLeft(timeout, clock, j) <= 0 then done
    else
      var c := Outcome(sensor, base + j, Timed(Budget(timeout, clock, j)));
      if c.result.Some? then TimedLoop(sensor, base, clock, timeout, arrlen, j + 1, done + [c]) else done + [c]
  }

  /** The loop makes, after the calls already made, exactly the run of the remaining slots. */
  lemma {:induction false} TimedLoopRun(sensor: Sensor, base: nat, clock: Clock, timeout: uint32, arrlen: nat, j: nat, done: seq<Call>)
    requires j <= arrlen
    ensures TimedLoop(sensor, base, clock, timeout, arrlen, j, done) == done + TimedRun(sensor, base, clock, timeout, arrlen, j)
    decreases arrlen - j
  {
    if j < arrlen {
      TimedRunStep(sensor, base, clock, timeout, arrlen, j, done);
      if 0 < TimeLeft(timeout, clock, j) {
        var c := Outcome(sensor, base + j, Timed(Budget(timeout, clock, j)));
        if c.result.Some? {
          TimedLoopRun(sensor, base, clock, timeout, arrlen, j + 1, done + [c]);
        }
      }
    } else {
      assert done + [] == done;
    }
  }

  /**
   * A fixed-count run: call p is a blocking read answered by the sensor's
   * (k+p)-th outcome; every call but the last succeeded; and the run stops
   * short of n only because its last call failed.
   */
  lemma {:induction false} BlockingRunShape(sensor: Sensor, k: nat, n: nat)
    ensures var calls := BlockingRun(sensor, k, n);
      && (forall p :: 0 <= p < |calls| ==> calls[p] == Outcome(sensor, k + p, Blocking))
      && (forall p :: 0 <= p < |calls| - 1 ==> calls[p].result.Some?)
      && (|calls| < n ==> |calls| > 0 && calls[|calls| - 1].result.None?)
    decreases n
  {
    if n > 0 && sensor(k, Blocking).Some? {
      BlockingRunShape(sensor, k + 1, n - 1);
      var calls := BlockingRun(sensor, k, n);
      var rest := BlockingRun(sensor, k + 1, n - 1);
      assert calls == [Outcome(sensor, k, Blocking)] + rest;
      forall p | 0 < p < |calls|
        ensures calls[p] == Outcome(sensor, k + p, Blocking)
      {
        assert calls[p] == rest[p - 1];
        assert k + 1 + (p - 1) == k + p;
      }
      if 0 < |rest| {
        assert calls[|calls| - 1] == rest[|rest| - 1];
      }
    }
  }

  /**
   * The fixed-count collection succeeds exactly when the sensor answers each
   * of the n blocking reads, and then its samples are those answers in call
   * order.
   */
  lemma BlockingRunCollects(sensor: Sensor, k: nat, n: nat)
    ensures |Successes(BlockingRun(sensor, k, n))| == n <==>
              forall q :: k <= q < k + n ==> sensor(q, Blocking).Some?
    ensures var s := Successes(BlockingRun(sensor, k, n));
      |s| == n ==> forall p :: 0 <= p < n ==> Some(s[p]) == sensor(k + p, Blocking)
  {
    var calls := BlockingRun(sensor, k, n);
    BlockingRunShape(sensor, k, n);
    SuccessesOfRun(calls);
    if |calls| < n {
      assert calls[|calls| - 1] == Outcome(sensor, k + (|calls| - 1), Blocking);
    } else if forall q :: k <= q < k + n ==> sensor(q, Blocking).Some? {
      if 0 < n {
        assert calls[n - 1] == Outcome(sensor, k + (n - 1), Blocking);
      }
    } else {
      var q :| k <= q < k + n && sensor(q, Blocking).None?;
      assert calls[q - k] == Outcome(sensor, k + (q - k), Blocking);
    }
  }

  /**
   * The fixed-count collection makes no call after the first failed one:
   * when the (k+f)-th read is the first to fail it makes f+1 calls and keeps
   * the f answers before the failure.
   */
  lemma BlockingRunStopsAtFirstFailure(sensor: Sensor, k: nat, n: nat, f: nat)
    requires f < n
    requires forall q :: k <= q < k + f ==> sensor(q, Blocking).Some?
    requires sensor(k + f, Blocking).None?
    ensures |BlockingRun(sensor, k, n)| == f + 1
    ensures var s := Successes(BlockingRun(sensor, k, n));
      |s| == f && forall p :: 0 <= p < f ==> Some(s[p]) == sensor(k + p, Blocking)
  {
    var calls := BlockingRun(sensor, k, n);
    BlockingRunShape(sensor, k, n);
    SuccessesOfRun(calls);
    assert calls[f] == Outcome(sensor, k + f, Blocking);
  }

  /**
   * A sensor that answers exactly m blocking reads and then fails: a
   * fixed-count collection of n samples succeeds exactly when n <= m.
   */
  lemma FixedCountScript(sensor: Sensor, k: nat, n: nat, m: nat)
    requires forall q :: k <= q < k + m ==> sensor(q, Blocking).Some?
    requires sensor(k + m, Blocking).None?
    ensures |Successes(BlockingRun(sensor, k, n))| == n <==> n <= m
  {
    BlockingRunCollects(sensor, k, n);
  }

  /**
   * The calls of a timed run: call p is made at check j+p, with time left,
   * reads within all of it, and is answered by the sensor's (base+j+p)-th
   * outcome.
   */
  lemma {:induction false} TimedRunCalls(sensor: Sensor, base: nat, clock: Clock, timeout: uint32, arrlen: nat, j: nat)
    requires j <= arrlen
    ensures var calls := TimedRun(sensor, base, clock, timeout, arrlen, j);
      forall p :: 0 <= p < |calls| ==> TimedCallAt(calls[p], sensor, base + j + p, timeout, clock, j + p)
    decreases arrlen - j
  {
    var calls := TimedRun(sensor, base, clock, timeout, arrlen, j);
    if j < arrlen && TimeLeft(timeout, clock, j) > 0 {
      var c := Outcome(sensor, base + j, Timed(Budget(timeout, clock, j)));
      if c.result.Some? {
        TimedRunCalls(sensor, base, clock, timeout, arrlen, j + 1);
        var rest := TimedRun(sensor, base, clock, timeout, arrlen, j + 1);
        assert var calls' := TimedRun(sensor, base, clock, timeout, arrlen, j + 1);
          forall p :: 0 <= p < |calls'| ==> TimedCallAt(calls'[p], sensor, base + (j + 1) + p, timeout, clock, (j + 1) + p);
        assert calls == [c] + rest;
        forall p | 0 <= p < |calls|
          ensures TimedCallAt(calls[p], sensor, base + j + p, timeout, clock, j + p)
        {
          if p == 0 {
            assert TimedCallAt(c, sensor, base + j, timeout, clock, j);
            assert calls[p] == c && j + p == j && base + j + p == base + j;
          } else {
            assert TimedCallAt(rest[p - 1], sensor, base + (j + 1) + (p - 1), timeout, clock, j + 1 + (p - 1));
            assert calls[p] == rest[p - 1];
            assert j + 1 + (p - 1) == j + p && base + (j + 1) + (p - 1) == base + j + p;
          }
        }
      } else {
        assert calls == [c];
      }
    }
  }

  /**
   * How a timed run ends: every call but the last succeeded, and the run
   * stops before arrlen samples only because its last call failed or the
   * time ran out.
   */
  lemma {:induction false} TimedRunStops(sensor: Sensor, base: nat, clock: Clock, timeout: uint32, arrlen: nat, j: nat)
    requires j <= arrlen
    ensures var calls := TimedRun(sensor, base, clock, timeout, arrlen, j);
      && (forall p :: 0 <= p < |calls| - 1 ==> calls[p].result.Some?)
      && (|calls| < arrlen - j ==>
            (|calls| > 0 && calls[|calls| - 1].result.None?) || TimeLeft(timeout, clock, j + |calls|) <= 0)
    decreases arrlen - j
  {
    var calls := TimedRun(sensor, base, clock, timeout, arrlen, j);
    if j < arrlen && TimeLeft(timeout, clock, j) > 0 {
      var c := Outcome(sensor, base + j, Timed(Budget(timeout, clock, j)));
      if c.result.Some? {
        TimedRunStops(sensor, base, clock, timeout, arrlen, j + 1);
        var rest := TimedRun(sensor, base, clock, timeout, arrlen, j + 1);
        assert calls == [c] + rest;
        forall p | 0 <= p < |calls| - 1
          ensures calls[p].result.Some?
        {
          if 0 < p {
            assert calls[p] == rest[p - 1];
          }
        }
        assert j + 1 + |rest| == j + |calls|;
        if 0 < |rest| {
          assert calls[|calls| - 1] == rest[|rest| - 1];
        }
      } else {
        assert calls == [c];
      }
    }
  }

  /** The samples of a timed run are the answers of its reads, read p being made at check p with time left. */
  lemma TimedRunValues(sensor: Sensor, base: nat, clock: Clock, timeout: uint32, arrlen: nat)
    ensures var s := Successes(TimedRun(sensor, base, clock, timeout, arrlen, 0));
      forall p :: 0 <= p < |s| ==>
        0 < TimeLeft(timeout, clock, p) &&
        Some(s[p]) == sensor(base + p, Timed(Budget(timeout, clock, p)))
  {
    var calls := TimedRun(sensor, base, clock, timeout, arrlen, 0);
    TimedRunCalls(sensor, base, clock, timeout, arrlen, 0);
    TimedRunStops(sensor, base, clock, timeout, arrlen, 0);
    TimedValuesOf(calls, sensor, base, timeout, clock);
  }

  lemma TimedValuesOf(calls: seq<Call>, sensor: Sensor, base: nat, timeout: uint32, clock: Clock)
    requires forall p :: 0 <= p < |calls| ==> TimedCallAt(calls[p], sensor, base + 0 + p, timeout, clock, 0 + p)
    requires forall p :: 0 <= p < |calls| - 1 ==> calls[p].result.Some?
    ensures var s := Successes(calls);
      forall p :: 0 <= p < |s| ==>
        0 < TimeLeft(timeout, clock, p) &&
        Some(s[p]) == sensor(base + p, Timed(Budget(timeout, clock, p)))
  {
    SuccessesOfRun(calls);
    var s := Successes(calls);
    forall p | 0 <= p < |s|
      ensures 0 < TimeLeft(timeout, clock, p)
      ensures Some(s[p]) == sensor(base + p, Timed(Budget(timeout, clock, p)))
    {
      assert TimedCallAt(calls[p], sensor, base + 0 + p, timeout, clock, 0 + p);
    }
  }

  /** A timed run obtains some sample exactly when its first read was made (room and time were left) and succeeded. */
  lemma TimedRunFirst(sensor: Sensor, base: nat, clock: Clock, timeout: uint32, arrlen: nat)
    ensures |Successes(TimedRun(sensor, base, clock, timeout, arrlen, 0))| > 0 <==>
              0 < arrlen && 0 < TimeLeft(timeout, clock, 0) &&
              sensor(base, Timed(Budget(timeout, clock, 0))).Some?
  {
    var calls := TimedRun(sensor, base, clock, timeout, arrlen, 0);
    if 0 < arrlen && 0 < TimeLeft(timeout, clock, 0) {
      var c := Outcome(sensor, base + 0, Timed(Budget(timeout, clock, 0)));
      var rest := if c.result.Some? then TimedRun(sensor, base, clock, timeout, arrlen, 1) else [];
      assert calls == [c] + rest;
      assert calls[0] == c && calls[1..] == rest;
      if c.result.None? {
        assert Successes(calls) == Successes(rest);
      }
    }
  }

  /**
   * The timed collection stores at most arrlen samples, the answers of its
   * successful reads in call order, and it obtains any sample at all exactly
   * when its first read was made (room and time were left) and succeeded.
   */
  lemma TimedRunCollects(sensor: Sensor, base: nat, clock: Clock, timeout: uint32, arrlen: nat)
    ensures var s := Successes(TimedRun(sensor, base, clock, timeout, arrlen, 0));
      && |s| <= arrlen
      && (forall p :: 0 <= p < |s| ==>
            0 < TimeLeft(timeout, clock, p) &&
            Some(s[p]) == sensor(base + p, Timed(Budget(timeout, clock, p))))
      && (|s| > 0 <==>
            0 < arrlen && 0 < TimeLeft(timeout, clock, 0) &&
            sensor(base, Timed(Budget(timeout, clock, 0))).Some?)
  {
    TimedRunValues(sensor, base, clock, timeout, arrlen);
    TimedRunFirst(sensor, base, clock, timeout, arrlen);
  }

  /**
   * With time to spare and a sensor whose timed reads all succeed, the timed
   * collection fills all arrlen slots, one read per slot.
   */
  lemma TimedFillsBuffer(sensor: Sensor, base: nat, clock: Clock, timeout: uint32, arrlen: nat)
    requires forall j :: 0 <= j < arrlen ==> clock(j) < timeout as int
    requires forall k: nat, t: uint32 :: sensor(k, Timed(t)).Some?
    ensures |TimedRun(sensor, base, clock, timeout, arrlen, 0)| == arrlen
    ensures |Successes(TimedRun(sensor, base, clock, timeout, arrlen, 0))| == arrlen
  {
    var calls := TimedRun(sensor, base, clock, timeout, arrlen, 0);
    TimedRunCalls(sensor, base, clock, timeout, arrlen, 0);
    TimedRunStops(sensor, base, clock, timeout, arrlen, 0);
    SuccessesOfRun(calls);
  }

  /**
   * Partial success: with time to spare, a sensor that answers two timed
   * reads and fails the third leaves exactly two samples and three calls.
   */
  lemma TimedPartialSuccess(sensor: Sensor, base: nat, clock: Clock, timeout: uint32, arrlen: nat)
    requires arrlen >= 3
    requires forall j :: 0 <= j < 3 ==> clock(j) < timeout as int
    requires forall k: nat, t: uint32 :: sensor(k, Timed(t)) == if k < base + 2 then Some(0) else None
    ensures |TimedRun(sensor, base, clock, timeout, arrlen, 0)| == 3
    ensures |Successes(TimedRun(sensor, base, clock, timeout, arrlen, 0))| == 2
  {
    var r2 := TimedRun(sensor, base, clock, timeout, arrlen, 2);
    var c2 := Outcome(sensor, base + 2, Timed(Budget(timeout, clock, 2)));
    assert r2 == [c2];
    var r1 := TimedRun(sensor, base, clock, timeout, arrlen, 1);
    var c1 := Outcome(sensor, base + 1, Timed(Budget(timeout, clock, 1)));
    assert r1 == [c1] + r2;
    var r0 := TimedRun(sensor, base, clock, timeout, arrlen, 0);
    var c0 := Outcome(sensor, base + 0, Timed(Budget(timeout, clock, 0)));
    assert r0 == [c0] + r1;
    assert r0 == [c0, c1, c2];
    SuccessesAppend([c0, c1], c2);
    SuccessesAppend([c0], c1);
    assert Successes(r0) == [0, 0];
  }

  /** A timed collection whose first read fails obtains nothing, after one call. */
  lemma TimedFirstReadFails(sensor: Sensor, base: nat, clock: Clock, timeout: uint32, arrlen: nat)
    requires arrlen > 0 && clock(0) < timeout as int
    requires forall t: uint32 :: sensor(base, Timed(t)).None?
    ensures |TimedRun(sensor, base, clock, timeout, arrlen, 0)| == 1
    ensures Successes(TimedRun(sensor, base, clock, timeout, arrlen, 0)) == []
  {
  }

  /** The calls scale_read makes: the run of the configured strategy. */
  function ReadRun(opt: Options, sensor: Sensor, base: nat, clock: Clock): (calls: seq<Call>)
    ensures StrategyOf(StrategyCode(opt.strat)) == Time ==> |calls| <= opt.bufflen
    ensures StrategyOf(StrategyCode(opt.strat)) == Samples ==> |calls| <= opt.samples
  {
    match opt.strat
    case Time => TimedRun(sensor, base, clock, opt.timeout, opt.bufflen, 0)
    case Samples => BlockingRun(sensor, base, opt.samples)
  }

  /**
   * The samples scale_read aggregates, or None when collection failed: the
   * fixed count fails unless all samples arrived, the time box fails only
   * when no sample arrived.
   */
  function Collected(opt: Options, sensor: Sensor, base: nat, clock: Clock): (c: Option<seq<int32>>)
    ensures c.Some? && opt.strat == Samples ==> |c.value| == opt.samples
    ensures c.Some? && opt.strat == Time ==> 0 < |c.value| <= opt.bufflen
    ensures c.Some? ==> c.value == Successes(ReadRun(opt, sensor, base, clock))
  {
    var s := Successes(ReadRun(opt, sensor, base, clock));
    match opt.strat
    case Time => if |s| > 0 then Some(s) else None
    case Samples => if |s| == opt.samples then Some(s) else None
  }

  /**
   * A fixed count of zero makes no call and succeeds with no samples, so
   * scale_read goes on to aggregate an empty buffer.
   */
  lemma ZeroCountCollectsEmpty(opt: Options, sensor: Sensor, base: nat, clock: Clock)
    requires opt.strat == Samples && opt.samples == 0
    ensures ReadRun(opt, sensor, base, clock) == []
    ensures Collected(opt, sensor, base, clock) == Some([])
  {
  }

  // ---- aggregation and rounding ----

  /** A real within the range of raw samples, as a median or an average of them is. */
  type Raw = r: real | -2147483648.0 <= r <= 2147483647.0

  /** The median and average of the samples (their definitions are not part of this model). */
  datatype Aggregators = Aggregators(median: seq<int32> -> Raw, average: seq<int32> -> Raw)

  function Aggregate(util: Aggregators, read: ReadType, samples: seq<int32>): (r: Raw)
    ensures ReadOf(ReadCode(read)) == Average ==> r == util.average(samples)
    ensures ReadOf(ReadCode(read)) == Median ==> r == util.median(samples)
  {
    match read
    case Average => util.average(samples)
    case Median => util.median(samples)
  }

  /** C's round(): the nearest integer, halfway cases away from zero. */
  function Round(x: real): (n: int)
    ensures -0.5 <= n as real - x <= 0.5
    ensures x >= 0.0 ==> n as real - x > -0.5
    ensures x < 0.0 ==> n as real - x < 0.5
  {
    if x >= 0.0 then (x + 0.5).Floor else -((-x + 0.5).Floor)
  }

  /** (int32_t)round(x), in range for every raw-range x. */
  function RoundToInt32(x: Raw): (n: int32)
    ensures n as int == Round(x)
  {
    Round(x) as int32
  }

  // ---- the scale ----

  class Scale {
    var adaptor: ScaleAdaptor
    var unit: Mass.Unit
    var refUnit: int32
    var offset: int32

    constructor (adaptor: ScaleAdaptor, unit: Mass.Unit, refUnit: int32, offset: int32)
      requires refUnit != 0
      ensures this.adaptor == adaptor && this.unit == unit
      ensures this.refUnit == refUnit && this.offset == offset
    {
      this.adaptor := adaptor;
      this.unit := unit;
      this.refUnit := refUnit;
      this.offset := offset;
    }

    /**
     * The calibration transform (raw - offset) / ref_unit, refused when
     * ref_unit is zero; undoing it (times ref_unit, plus offset) gives raw back.
     */
    function Normalise(raw: real): (r: Option<real>)
      reads this
      ensures r.None? <==> refUnit == 0
      ensures r.Some? ==> r.value * (refUnit as real) + (offset as real) == raw
    {
      if refUnit == 0 then None
      else Some((raw - offset as real) / (refUnit as real))
    }

    /**
     * Fills arr[0..len) with len blocking reads, giving up at the first
     * failure (whose slot the adaptor may have overwritten).
     */
    method GetValuesSamples(arr: array<int32>, len: nat) returns (ok: bool)
      requires len <= arr.Length
      modifies arr, adaptor
      ensures adaptor.log == old(adaptor.log) + BlockingRun(adaptor.sensor, |old(adaptor.log)|, len)
      ensures ok <==> |Successes(BlockingRun(adaptor.sensor, |old(adaptor.log)|, len))| == len
      ensures var s := Successes(BlockingRun(adaptor.sensor, |old(adaptor.log)|, len));
        && arr[..|s|] == s
        && (ok ==> forall q :: len <= q < arr.Length ==> arr[q] == old(arr[q]))
        && (!ok ==> forall q :: |s| < q < arr.Length ==> arr[q] == old(arr[q]))
    {
      var ad := adaptor;
      ghost var k := |ad.log|;
      ghost var full := BlockingRun(ad.sensor, k, len);
      ghost var run := BlockingLoop(ad.sensor, k, len, 0, []);
      BlockingLoopRun(ad.sensor, k, len, 0, []);
      assert run == full by {
        assert [] + BlockingRun(ad.sensor, k + 0, len - 0) == full;
      }
      ghost var done: seq<Call> := [];
      var i := 0;
      ok := true;
      while i < len
        invariant i <= len && |done| == i && adaptor == ad
        invariant ad.log == old(ad.log) + done
        invariant run == BlockingLoop(ad.sensor, k, len, i, done)
        invariant Successes(done) == arr[..i]
        invariant forall q :: i <= q < arr.Length ==> arr[q] == old(arr[q])
      {
        ghost var stored := arr[..i];
        ghost var c := Outcome(ad.sensor, k + i, Blocking);
        assert |ad.log| == k + i;
        var got, v := ad.GetValue();
        assert ad.log == (old(ad.log) + done) + [c];
        arr[i] := v;
        assert arr[..i] == stored;
        AppendCall(old(ad.log), done, c);
        SuccessesAppend(done, c);
        done := done + [c];
        if !got {
          assert done == full;
          assert |Successes(full)| == i;
          return false;
        }
        assert arr[..i + 1] == stored + [v];
        i := i + 1;
      }
      assert done == full;
    }

    /**
     * Stores as many timed reads as fit in arr[0..arrlen) before the
     * deadline timeout microseconds away, stopping at the first failed read;
     * succeeds when at least one sample was stored.
     */
    method GetValuesTimeout(arr: array<int32>, arrlen: nat, timeout: uint32, clock: Clock) returns (ok: bool, len: nat)
      requires 0 < arrlen <= arr.Length
      modifies arr, adaptor
      ensures adaptor.log == old(adaptor.log) + TimedRun(adaptor.sensor, |old(adaptor.log)|, clock, timeout, arrlen, 0)
      ensures len <= arrlen
      ensures arr[..len] == Successes(TimedRun(adaptor.sensor, |old(adaptor.log)|, clock, timeout, arrlen, 0))
      ensures forall q :: len <= q < arr.Length ==> arr[q] == old(arr[q])
      ensures ok <==> len > 0
    {
      var ad := adaptor;
      ghost var base := |ad.log|;
      ghost var run := TimedLoop(ad.sensor, base, clock, timeout, arrlen, 0, []);
      ghost var done: seq<Call> := [];
      len := 0;
      while len < arrlen
        invariant len <= arrlen && |done| == len && adaptor == ad
        invariant ad.log == old(ad.log) + done
        invariant run == TimedLoop(ad.sensor, base, clock, timeout, arrlen, len, done)
        invariant Successes(done) == arr[..len]
        invariant forall q :: len <= q < arr.Length ==> arr[q] == old(arr[q])
        decreases arrlen - len
      {
        var diff := timeout as int - clock(len);
        if diff <= 0 {
          break;
        }
        ghost var c := Outcome(ad.sensor, base + len, Timed(diff as uint32));
        assert |ad.log| == base + len;
        var got, v := ad.GetValueTimeout(diff as uint32);
        assert ad.log == (old(ad.log) + done) + [c];
        AppendCall(old(ad.log), done, c);
        assert Budget(timeout, clock, len) == diff as uint32;
        SuccessesAppend(done, c);
        done := done + [c];
        if !got {
          break;
        }
        ghost var stored := arr[..len];
        len := len + 1;
        arr[len - 1] := v;
        assert arr[..len] == stored + [v];
      }
      assert run == done;
      TimedLoopRun(ad.sensor, base, clock, timeout, arrlen, 0, []);
      assert [] + TimedRun(ad.sensor, base, clock, timeout, arrlen, 0) == TimedRun(ad.sensor, base, clock, timeout, arrlen, 0);
      ok := len > 0;
    }

    /**
     * Collects samples with the configured strategy into the caller's buffer
     * and, if that succeeded, aggregates them; on failure val is left as it
     * was. The calibration is not touched.
     */
    method Read(prior: real, opt: Options, clock: Clock, util: Aggregators) returns (ok: bool, val: real)
      requires Usable(opt)
      modifies opt.buffer, adaptor
      ensures adaptor.log == old(adaptor.log) + ReadRun(opt, adaptor.sensor, |old(adaptor.log)|, clock)
      ensures var c := Collected(opt, adaptor.sensor, |old(adaptor.log)|, clock);
        && (ok <==> c.Some?)
        && (ok ==> val == Aggregate(util, opt.read, c.value))
        && (!ok ==> val == prior)
      ensures adaptor == old(adaptor) && unit == old(unit)
      ensures refUnit == old(refUnit) && offset == old(offset)
    {
      var len: nat;
      match opt.strat {
        case Time =>
          ok, len := GetValuesTimeout(opt.buffer, opt.bufflen, opt.timeout, clock);
        case Samples =>
          len := opt.samples;
          ok := GetValuesSamples(opt.buffer, len);
      }
      if !ok {
        return false, prior;
      }
      val := Aggregate(util, opt.read, opt.buffer[..len]);
    }

    /**
     * Tare: reads with ref_unit temporarily set to 1 and, on success, takes
     * the rounded reading as the new offset; ref_unit is restored either way.
     */
    method Zero(opt: Options, clock: Clock, util: Aggregators) returns (ok: bool)
      requires Usable(opt)
      modifies this, opt.buffer, adaptor
      ensures adaptor == old(adaptor) && unit == old(unit) && refUnit == old(refUnit)
      ensures adaptor.log == old(adaptor.log) + ReadRun(opt, adaptor.sensor, |old(adaptor.log)|, clock)
      ensures var c := Collected(opt, adaptor.sensor, |old(adaptor.log)|, clock);
        && (ok <==> c.Some?)
        && (ok ==> offset == RoundToInt32(Aggregate(util, opt.read, c.value)))
        && (!ok ==> offset == old(offset))
    {
      var refBackup := refUnit;
      refUnit := 1;
      var val;
      ok, val := Read(0.0, opt, clock, util);
      if ok {
        offset := RoundToInt32(val);
      }
      refUnit := refBackup;
    }

    /**
     * Reads, normalises and builds a mass in the scale's unit; on any failure
     * m is returned untouched.
     */
    method Weight(m: Mass.Quantity, opt: Options, clock: Clock, util: Aggregators) returns (ok: bool, m': Mass.Quantity)
      requires Usable(opt)
      modifies opt.buffer, adaptor
      ensures adaptor == old(adaptor) && unit == old(unit)
      ensures refUnit == old(refUnit) && offset == old(offset)
      ensures adaptor.log == old(adaptor.log) + ReadRun(opt, adaptor.sensor, |old(adaptor.log)|, clock)
      ensures var c := Collected(opt, adaptor.sensor, |old(adaptor.log)|, clock);
        && (ok <==> c.Some? && refUnit != 0)
        && (ok ==> m'.unit == unit &&
                   m'.ug == (Aggregate(util, opt.read, c.value) - offset as real) / (refUnit as real) * Mass.Ratio(unit))
        && (!ok ==> m' == m)
    {
      var val;
      ok, val := Read(0.0, opt, clock, util);
      if !ok {
        return false, m;
      }
      var n := Normalise(val);
      if n.None? {
        return false, m;
      }
      m' := Mass.Init(unit, n.value);
    }
  }

  /**
   * After a tare that read the aggregate v, normalising the same aggregate
   * gives at most half a raw unit's worth of mass (the rounding error), and
   * normalising the new offset itself gives exactly zero.
   */
  lemma TareCentresReading(sc: Scale, v: Raw)
    requires sc.refUnit != 0 && sc.offset == RoundToInt32(v)
    ensures sc.Normalise(v).Some?
    ensures -0.5 <= sc.Normalise(v).value * (sc.refUnit as real) <= 0.5
    ensures sc.Normalise(sc.offset as real) == Some(0.0)
  {
  }
}
