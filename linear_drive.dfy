/** DistanceLinearDrive: keeps a value in [0, 1] saying where a constrained
    object sits on a rail between two anchors, follows the hand's projection
    onto that rail while held, remembers the last few per-tick velocities in a
    five-slot ring buffer, and after release lets the value drift on with a
    damped velocity. */
module LinearDrive {
  import opened Unity

  /** numMappingChangeSamples: the length of the velocity ring buffer. */
  const NumMappingChangeSamples: nat := 5

  function Min(a: int, b: int): int { if a < b then a else b }

  // ---------------------------------------------------------------------------
  // Projection onto the rail (CalculateLinearMapping)
  // ---------------------------------------------------------------------------

  /** The fraction of the way from startPosition to endPosition at which the
      point's foot on the rail's line lies; not clamped. The source divides
      the dot product with the normalised direction by the length, which is
      the dot product with the direction over the squared length. A direction
      at most Vector3.kEpsilon long is normalised to zero, which gives 0; a
      rail of length zero would give 0 / 0, so it is excluded. */
  function CalculateLinearMapping(startPosition: Vec3, endPosition: Vec3, point: Vec3): (r: real)
    requires startPosition != endPosition
    ensures point == startPosition ==> r == 0.0
    ensures !IsLongRail(startPosition, endPosition) ==> r == 0.0
  {
    var direction := Sub(endPosition, startPosition);
    if SqrMagnitude(direction) > NormalizeEpsilon * NormalizeEpsilon then
      Dot(Sub(point, startPosition), direction) / SqrMagnitude(direction)
    else
      0.0
  }

  /** A rail long enough for Vector3.Normalize to keep its direction. */
  predicate IsLongRail(startPosition: Vec3, endPosition: Vec3)
  {
    SqrMagnitude(Sub(endPosition, startPosition)) > NormalizeEpsilon * NormalizeEpsilon
  }

  lemma DotScaleLeft(k: real, u: Vec3, v: Vec3)
    ensures Dot(Scale(k, u), v) == k * Dot(u, v)
  {
  }

  lemma DotAddLeft(u: Vec3, w: Vec3, v: Vec3)
    ensures Dot(Add(u, w), v) == Dot(u, v) + Dot(w, v)
  {
  }

  lemma DivCancel(p: real, s: real)
    requires s != 0.0
    ensures (p * s) / s == p
  {
  }

  /** The point that is the fraction p of the way along the rail (p not
      clamped) projects back to p. */
  lemma {:induction false} ProjectionOfRailPoint(startPosition: Vec3, endPosition: Vec3, p: real)
    requires startPosition != endPosition && IsLongRail(startPosition, endPosition)
    ensures CalculateLinearMapping(startPosition, endPosition,
              Add(startPosition, Scale(p, Sub(endPosition, startPosition)))) == p
  {
    var d := Sub(endPosition, startPosition);
    var q := Add(startPosition, Scale(p, d));
    assert Sub(q, startPosition) == Scale(p, d);
    DotScaleLeft(p, d, d);
    DivCancel(p, SqrMagnitude(d));
  }

  /** Round trip: for every fraction p in [0, 1], projecting the point that
      Vector3.Lerp places at p gives p back; in particular the start anchor
      projects to 0 and the end anchor to 1. */
  lemma ProjectionOfLerp(startPosition: Vec3, endPosition: Vec3, p: real)
    requires startPosition != endPosition && IsLongRail(startPosition, endPosition)
    requires 0.0 <= p <= 1.0
    ensures CalculateLinearMapping(startPosition, endPosition, LerpVec(startPosition, endPosition, p)) == p
  {
    ProjectionOfRailPoint(startPosition, endPosition, p);
  }

  lemma ProjectionOfAnchors(startPosition: Vec3, endPosition: Vec3)
    requires startPosition != endPosition && IsLongRail(startPosition, endPosition)
    ensures CalculateLinearMapping(startPosition, endPosition, startPosition) == 0.0
    ensures CalculateLinearMapping(startPosition, endPosition, endPosition) == 1.0
  {
    ProjectionOfLerp(startPosition, endPosition, 0.0);
    ProjectionOfLerp(startPosition, endPosition, 1.0);
    assert LerpVec(startPosition, endPosition, 0.0) == startPosition;
    assert LerpVec(startPosition, endPosition, 1.0) == endPosition;
  }

  /** Moving the point at right angles to the rail does not change its
      projection: only the component along the rail counts. */
  lemma ProjectionIgnoresPerpendicular(startPosition: Vec3, endPosition: Vec3, point: Vec3, offset: Vec3)
    requires startPosition != endPosition
    requires Dot(offset, Sub(endPosition, startPosition)) == 0.0
    ensures CalculateLinearMapping(startPosition, endPosition, Add(point, offset))
         == CalculateLinearMapping(startPosition, endPosition, point)
  {
    var d := Sub(endPosition, startPosition);
    assert Sub(Add(point, offset), startPosition) == Add(Sub(point, startPosition), offset);
    DotAddLeft(Sub(point, startPosition), offset, d);
  }

  // ---------------------------------------------------------------------------
  // The velocity samples
  // ---------------------------------------------------------------------------

  /** The velocity sample one held tick writes: the change of the value over
      the frame time. */
  function SampleVelocity(prevMapping: real, linearMappingValue: real, deltaTime: real): (r: real)
    requires deltaTime > 0.0
    ensures linearMappingValue == prevMapping ==> r == 0.0
    ensures linearMappingValue > prevMapping ==> r > 0.0
    ensures linearMappingValue < prevMapping ==> r < 0.0
  {
    (1.0 / deltaTime) * (linearMappingValue - prevMapping)
  }

  /** Sum of a sequence, added up from the front as the source's loop does. */
  function Sum(s: seq<real>): real
  {
    if |s| == 0 then 0.0 else Sum(s[..|s| - 1]) + s[|s| - 1]
  }

  /** Arithmetic mean; 0 for the empty sequence. */
  function Mean(s: seq<real>): real
  {
    if |s| == 0 then 0.0 else Sum(s) / (|s| as real)
  }

  /** The last min(|history|, 5) samples of the history. */
  function Window(history: seq<real>): (w: seq<real>)
    ensures |w| == Min(|history|, NumMappingChangeSamples)
    ensures history == history[..|history| - |w|] + w
  {
    history[|history| - Min(|history|, NumMappingChangeSamples)..]
  }

  /** The ring-buffer relation: each of the last five samples written since
      the history began sits in slot (its index mod 5). */
  ghost predicate RingHolds(slots: seq<real>, history: seq<real>)
  {
    |slots| == NumMappingChangeSamples &&
    forall i :: 0 <= i < |history| && |history| - NumMappingChangeSamples <= i ==>
      slots[i % NumMappingChangeSamples] == history[i]
  }

  lemma {:induction false} SumConcat(a: seq<real>, b: seq<real>)
    ensures Sum(a + b) == Sum(a) + Sum(b)
    decreases |b|
  {
    if |b| == 0 {
      assert a + b == a;
    } else {
      var b' := b[..|b| - 1];
      assert (a + b)[..|a + b| - 1] == a + b';
      SumConcat(a, b');
    }
  }

  lemma {:induction false} SumBounds(s: seq<real>, lo: real, hi: real)
    requires forall i :: 0 <= i < |s| ==> lo <= s[i] <= hi
    ensures (|s| as real) * lo <= Sum(s) <= (|s| as real) * hi
    decreases |s|
  {
    if |s| > 0 {
      SumBounds(s[..|s| - 1], lo, hi);
      CountStep(|s| - 1, lo);
      CountStep(|s| - 1, hi);
    }
  }

  lemma CountStep(n: nat, v: real)
    ensures (n as real) * v + v == ((n + 1) as real) * v
  {
  }

  lemma DivBounds(sum: real, n: real, lo: real, hi: real)
    requires n > 0.0 && n * lo <= sum <= n * hi
    ensures lo <= sum / n <= hi
  {
  }

  /** The mean of samples that all lie in [lo, hi] lies in [lo, hi]: the
      drift velocity set at release is never faster than the fastest sample
      the average is taken over. */
  lemma MeanBounds(s: seq<real>, lo: real, hi: real)
    requires |s| > 0
    requires forall i :: 0 <= i < |s| ==> lo <= s[i] <= hi
    ensures lo <= Mean(s) <= hi
  {
    SumBounds(s, lo, hi);
    DivBounds(Sum(s), |s| as real, lo, hi);
  }

  lemma ModBelow(i: int, n: int)
    requires 0 <= i < n < i + NumMappingChangeSamples
    ensures i % NumMappingChangeSamples != n % NumMappingChangeSamples
  {
  }

  /** Writing sample v into slot (count mod 5) extends the ring relation to
      the history with v appended. */
  lemma RingWrite(slots: seq<real>, history: seq<real>, v: real)
    requires RingHolds(slots, history)
    ensures RingHolds(slots[|history| % NumMappingChangeSamples := v], history + [v])
  {
    var n := |history|;
    var slots' := slots[n % NumMappingChangeSamples := v];
    var history' := history + [v];
    forall i | 0 <= i < |history'| && |history'| - NumMappingChangeSamples <= i
      ensures slots'[i % NumMappingChangeSamples] == history'[i]
    {
      if i < n {
        ModBelow(i, n);
      }
    }
  }

  lemma ModOfMultiple(k: int, j: int)
    requires 0 <= j < NumMappingChangeSamples
    ensures (NumMappingChangeSamples * k + j) % NumMappingChangeSamples == j
  {
  }

  /** Before the buffer wraps, the first slots are the history itself. */
  lemma RingShort(slots: seq<real>, history: seq<real>)
    requires RingHolds(slots, history) && |history| < NumMappingChangeSamples
    ensures slots[..|history|] == Window(history)
  {
    var n := |history|;
    forall j | 0 <= j < n ensures slots[j] == history[j] {
      assert j % NumMappingChangeSamples == j;
    }
  }

  /** Once the buffer has wrapped, the slots are the last five samples
      rotated by (count mod 5). */
  lemma RingRotated(slots: seq<real>, history: seq<real>)
    requires RingHolds(slots, history) && |history| >= NumMappingChangeSamples
    ensures var m := |history| % NumMappingChangeSamples;
            var w := Window(history);
            slots == w[NumMappingChangeSamples - m..] + w[..NumMappingChangeSamples - m]
  {
    var n := |history|;
    var N := NumMappingChangeSamples;
    var m := n % N;
    var q := n / N;
    assert n == N * q + m;
    var w := Window(history);
    var r := w[N - m..] + w[..N - m];
    forall j | 0 <= j < N ensures slots[j] == r[j] {
      if j < m {
        var i := n - m + j;
        ModOfMultiple(q, j);
        assert i % N == j;
        assert r[j] == history[i];
      } else {
        var i := n - m - N + j;
        ModOfMultiple(q - 1, j);
        assert i % N == j;
        assert r[j] == history[i];
      }
    }
  }

  /** The slots the source averages over hold exactly the last min(count, 5)
      samples, rotated when the buffer has wrapped, so they add up to the
      same as that window. */
  lemma RingSum(slots: seq<real>, history: seq<real>)
    requires RingHolds(slots, history)
    ensures Sum(slots[..Min(|history|, NumMappingChangeSamples)]) == Sum(Window(history))
  {
    var N := NumMappingChangeSamples;
    if |history| < N {
      RingShort(slots, history);
    } else {
      RingRotated(slots, history);
      var m := |history| % N;
      var w := Window(history);
      assert slots[..N] == slots;
      SumConcat(w[N - m..], w[..N - m]);
      SumConcat(w[..N - m], w[N - m..]);
      assert w[..N - m] + w[N - m..] == w;
    }
  }

  // ---------------------------------------------------------------------------
  // Momentum after release
  // ---------------------------------------------------------------------------

  /** The drift velocity after one momentum Update with the given damping
      rate and frame time (only applied while the velocity is not zero). */
  function DampedRate(rate: real, dampenRate: real, deltaTime: real): (r: real)
    ensures r == rate * (1.0 - Clamp01(dampenRate * deltaTime))
    ensures dampenRate * deltaTime <= 0.0 ==> r == rate
  {
    Lerp(rate, 0.0, dampenRate * deltaTime)
  }

  /** The drift velocity after a sequence of momentum Updates. */
  function DriftRate(rate: real, dampenRate: real, deltaTimes: seq<real>): real
    decreases |deltaTimes|
  {
    if |deltaTimes| == 0 || rate == 0.0 then rate
    else DriftRate(DampedRate(rate, dampenRate, deltaTimes[0]), dampenRate, deltaTimes[1..])
  }

  /** One damping step never speeds the drift up and never reverses it,
      because Mathf.Lerp clamps its parameter; a positive step strictly slows
      a drift that is not zero, and a step of at least 1 stops it. */
  lemma DampingStep(rate: real, dampenRate: real, deltaTime: real)
    ensures Abs(DampedRate(rate, dampenRate, deltaTime)) <= Abs(rate)
    ensures rate >= 0.0 ==> DampedRate(rate, dampenRate, deltaTime) >= 0.0
    ensures rate <= 0.0 ==> DampedRate(rate, dampenRate, deltaTime) <= 0.0
    ensures dampenRate * deltaTime >= 1.0 ==> DampedRate(rate, dampenRate, deltaTime) == 0.0
    ensures rate != 0.0 && dampenRate * deltaTime > 0.0 ==>
      Abs(DampedRate(rate, dampenRate, deltaTime)) < Abs(rate)
  {
    var c := Clamp01(dampenRate * deltaTime);
    var r := DampedRate(rate, dampenRate, deltaTime);
    assert r == rate * (1.0 - c);
    if rate != 0.0 && dampenRate * deltaTime > 0.0 {
      assert c > 0.0;
      if rate > 0.0 {
        StrictShrink(rate, c);
      } else {
        StrictShrink(-rate, c);
      }
    }
  }

  lemma StrictShrink(r: real, c: real)
    requires r > 0.0 && 0.0 < c <= 1.0
    ensures r * (1.0 - c) < r
  {
  }

  /** However many momentum Updates run, the drift velocity never grows and
      never changes sign. */
  lemma {:induction false} DriftNeverGrowsOrFlips(rate: real, dampenRate: real, deltaTimes: seq<real>)
    ensures Abs(DriftRate(rate, dampenRate, deltaTimes)) <= Abs(rate)
    ensures rate >= 0.0 ==> DriftRate(rate, dampenRate, deltaTimes) >= 0.0
    ensures rate <= 0.0 ==> DriftRate(rate, dampenRate, deltaTimes) <= 0.0
    decreases |deltaTimes|
  {
    if |deltaTimes| > 0 && rate != 0.0 {
      DampingStep(rate, dampenRate, deltaTimes[0]);
      DriftNeverGrowsOrFlips(DampedRate(rate, dampenRate, deltaTimes[0]), dampenRate, deltaTimes[1..]);
    }
  }

  // ---------------------------------------------------------------------------
  // The component
  // ---------------------------------------------------------------------------

  class DistanceLinearDrive {
    const startPosition: Vec3
    const endPosition: Vec3
    const repositionGameObject: bool
    const maintainMomemntum: bool
    const momemtumDampenRate: real
    /** The transform of the game object the drive sits on. */
    const transform: Transform
    /** mappingChangeSamples, allocated once in Awake. */
    const mappingChangeSamples: array<real>

    var linearMappingValue: real
    var initialMappingOffset: real
    var prevMapping: real
    var mappingChangeRate: real
    var sampleCount: nat

    /** The velocity samples written since the last OnAttachment (since Awake
        before the first one), oldest first. */
    ghost var samplesSinceAttach: seq<real>

    ghost predicate Valid()
      reads this, mappingChangeSamples
    {
      startPosition != endPosition &&
      mappingChangeSamples.Length == NumMappingChangeSamples &&
      sampleCount == |samplesSinceAttach| &&
      RingHolds(mappingChangeSamples[..], samplesSinceAttach)
    }

    /** The projection of a point onto this drive's rail. */
    function Mapping(point: Vec3): real
      requires startPosition != endPosition
    {
      CalculateLinearMapping(startPosition, endPosition, point)
    }

    /** Awake followed by Start: the sample buffer is allocated (zeroed), the
        offset is the inspector value, and with repositionGameObject the
        object's own position is fed through UpdateLinearMapping once. */
    constructor (startPosition: Vec3, endPosition: Vec3, linearMappingValue: real,
                 repositionGameObject: bool, maintainMomemntum: bool, momemtumDampenRate: real,
                 transform: Transform, deltaTime: real)
      requires startPosition != endPosition
      requires repositionGameObject ==> deltaTime > 0.0
      modifies transform
      ensures Valid() && fresh(mappingChangeSamples)
      ensures this.startPosition == startPosition && this.endPosition == endPosition
      ensures this.repositionGameObject == repositionGameObject
      ensures this.maintainMomemntum == maintainMomemntum
      ensures this.momemtumDampenRate == momemtumDampenRate
      ensures this.transform == transform
      ensures initialMappingOffset == linearMappingValue && mappingChangeRate == 0.0
      ensures !repositionGameObject ==>
        this.linearMappingValue == linearMappingValue && sampleCount == 0 &&
        prevMapping == 0.0 && transform.position == old(transform.position) &&
        mappingChangeSamples[..] == [0.0, 0.0, 0.0, 0.0, 0.0] && samplesSinceAttach == []
      ensures repositionGameObject ==>
        var sample := SampleVelocity(linearMappingValue, this.linearMappingValue, deltaTime);
        this.linearMappingValue
          == Clamp01(linearMappingValue + CalculateLinearMapping(startPosition, endPosition, old(transform.position))) &&
        prevMapping == linearMappingValue && sampleCount == 1 &&
        mappingChangeSamples[..] == [sample, 0.0, 0.0, 0.0, 0.0] && samplesSinceAttach == [sample] &&
        transform.position == LerpVec(startPosition, endPosition, this.linearMappingValue)
    {
      this.startPosition := startPosition;
      this.endPosition := endPosition;
      this.repositionGameObject := repositionGameObject;
      this.maintainMomemntum := maintainMomemntum;
      this.momemtumDampenRate := momemtumDampenRate;
      this.transform := transform;
      this.linearMappingValue := linearMappingValue;
      mappingChangeSamples := new real[NumMappingChangeSamples](_ => 0.0);
      prevMapping := 0.0;
      mappingChangeRate := 0.0;
      sampleCount := 0;
      initialMappingOffset := 0.0;
      samplesSinceAttach := [];
      new;
      assert mappingChangeSamples[..] == [0.0, 0.0, 0.0, 0.0, 0.0];
      initialMappingOffset := this.linearMappingValue;
      if repositionGameObject {
        UpdateLinearMapping(transform.position, deltaTime);
      }
    }

    /** OnAttachment: calibrate the offset so the value does not jump, and
        restart the sample count and the drift velocity. */
    method OnAttachment(handPosition: Vec3)
      requires Valid()
      modifies this
      ensures Valid()
      ensures initialMappingOffset == old(linearMappingValue) - Mapping(handPosition)
      ensures sampleCount == 0 && mappingChangeRate == 0.0 && samplesSinceAttach == []
      ensures linearMappingValue == old(linearMappingValue) && prevMapping == old(prevMapping)
    {
      initialMappingOffset := linearMappingValue - Mapping(handPosition);
      sampleCount := 0;
      mappingChangeRate := 0.0;
      samplesSinceAttach := [];
    }

    /** DistanceHandUpdate: one held tick with the hand at handPosition. */
    method DistanceHandUpdate(handPosition: Vec3, deltaTime: real)
      requires Valid() && deltaTime > 0.0
      modifies this, mappingChangeSamples, transform
      ensures Valid()
      ensures prevMapping == old(linearMappingValue)
      ensures linearMappingValue == Clamp01(initialMappingOffset + Mapping(handPosition))
      ensures 0.0 <= linearMappingValue <= 1.0
      ensures mappingChangeSamples[..]
           == old(mappingChangeSamples[..])[old(sampleCount) % NumMappingChangeSamples :=
                SampleVelocity(old(linearMappingValue), linearMappingValue, deltaTime)]
      ensures sampleCount == old(sampleCount) + 1
      ensures samplesSinceAttach
           == old(samplesSinceAttach) + [SampleVelocity(old(linearMappingValue), linearMappingValue, deltaTime)]
      ensures initialMappingOffset == old(initialMappingOffset) && mappingChangeRate == old(mappingChangeRate)
      ensures transform.position
           == if repositionGameObject then LerpVec(startPosition, endPosition, linearMappingValue)
              else old(transform.position)
      ensures repositionGameObject && IsLongRail(startPosition, endPosition) ==>
        Mapping(transform.position) == linearMappingValue
    {
      UpdateLinearMapping(handPosition, deltaTime);
    }

    /** OnDetachment: turn the recorded samples into the drift velocity. */
    method OnDetachment()
      requires Valid()
      modifies this
      ensures Valid()
      ensures mappingChangeRate == Mean(mappingChangeSamples[..Min(sampleCount, NumMappingChangeSamples)])
      ensures mappingChangeRate == Mean(Window(samplesSinceAttach))
      ensures linearMappingValue == old(linearMappingValue) && prevMapping == old(prevMapping)
      ensures initialMappingOffset == old(initialMappingOffset) && sampleCount == old(sampleCount)
      ensures samplesSinceAttach == old(samplesSinceAttach)
    {
      CalculateMappingChangeRate();
    }

    /** CalculateMappingChangeRate: the mean of the first min(sampleCount, 5)
        slots, which are the last min(sampleCount, 5) samples since
        attachment; 0 when there are none. */
    method CalculateMappingChangeRate()
      requires Valid()
      modifies this
      ensures Valid()
      ensures mappingChangeRate == Mean(mappingChangeSamples[..Min(sampleCount, NumMappingChangeSamples)])
      ensures mappingChangeRate == Mean(Window(samplesSinceAttach))
      ensures sampleCount == 0 ==> mappingChangeRate == 0.0
      ensures linearMappingValue == old(linearMappingValue) && prevMapping == old(prevMapping)
      ensures initialMappingOffset == old(initialMappingOffset) && sampleCount == old(sampleCount)
      ensures samplesSinceAttach == old(samplesSinceAttach)
    {
      mappingChangeRate := 0.0;
      var mappingSamplesCount := Min(sampleCount, mappingChangeSamples.Length);
      if mappingSamplesCount != 0 {
        for i := 0 to mappingSamplesCount
          modifies this`mappingChangeRate
          invariant mappingChangeRate == Sum(mappingChangeSamples[..i])
        {
          assert mappingChangeSamples[..i + 1] == mappingChangeSamples[..i] + [mappingChangeSamples[i]];
          mappingChangeRate := mappingChangeRate + mappingChangeSamples[i];
        }
        mappingChangeRate := mappingChangeRate / mappingSamplesCount as real;
      }
      assert mappingChangeSamples[..][..mappingSamplesCount] == mappingChangeSamples[..mappingSamplesCount];
      RingSum(mappingChangeSamples[..], samplesSinceAttach);
    }

    /** UpdateLinearMapping: the value follows the offset projection of the
        given point, clamped to [0, 1]; the velocity since the previous tick is
        written into slot (sampleCount mod 5), and the object is moved onto the
        rail when repositionGameObject is set. */
    method UpdateLinearMapping(point: Vec3, deltaTime: real)
      requires Valid() && deltaTime > 0.0
      modifies this, mappingChangeSamples, transform
      ensures Valid()
      ensures prevMapping == old(linearMappingValue)
      ensures linearMappingValue == Clamp01(initialMappingOffset + Mapping(point))
      ensures 0.0 <= linearMappingValue <= 1.0
      ensures mappingChangeSamples[..]
           == old(mappingChangeSamples[..])[old(sampleCount) % NumMappingChangeSamples :=
                SampleVelocity(old(linearMappingValue), linearMappingValue, deltaTime)]
      ensures sampleCount == old(sampleCount) + 1
      ensures samplesSinceAttach
           == old(samplesSinceAttach) + [SampleVelocity(old(linearMappingValue), linearMappingValue, deltaTime)]
      ensures initialMappingOffset == old(initialMappingOffset) && mappingChangeRate == old(mappingChangeRate)
      ensures transform.position
           == if repositionGameObject then LerpVec(startPosition, endPosition, linearMappingValue)
              else old(transform.position)
      ensures repositionGameObject && IsLongRail(startPosition, endPosition) ==>
        Mapping(transform.position) == linearMappingValue
    {
      prevMapping := linearMappingValue;
      linearMappingValue := Clamp01(initialMappingOffset + Mapping(point));

      var sample := SampleVelocity(prevMapping, linearMappingValue, deltaTime);
      RingWrite(mappingChangeSamples[..], samplesSinceAttach, sample);
      mappingChangeSamples[sampleCount % mappingChangeSamples.Length] := sample;
      samplesSinceAttach := samplesSinceAttach + [sample];
      sampleCount := sampleCount + 1;

      if repositionGameObject {
        MoveOntoRail();
      }
    }

    /** The repositioning both UpdateLinearMapping and Update end with: place
        the object at the point of the rail the value names. */
    method MoveOntoRail()
      requires startPosition != endPosition && 0.0 <= linearMappingValue <= 1.0
      modifies transform
      ensures transform.position == LerpVec(startPosition, endPosition, linearMappingValue)
      ensures IsLongRail(startPosition, endPosition) ==> Mapping(transform.position) == linearMappingValue
    {
      transform.position := LerpVec(startPosition, endPosition, linearMappingValue);
      if IsLongRail(startPosition, endPosition) {
        ProjectionOfLerp(startPosition, endPosition, linearMappingValue);
      }
    }

    /** Update, once per frame: while momentum is kept and the drift velocity
        is not zero, damp the velocity and advance the value by it, clamped. */
    method Update(deltaTime: real)
      requires Valid()
      modifies this, transform
      ensures Valid()
      ensures !(maintainMomemntum && old(mappingChangeRate) != 0.0) ==>
        mappingChangeRate == old(mappingChangeRate) && linearMappingValue == old(linearMappingValue) &&
        transform.position == old(transform.position)
      ensures maintainMomemntum && old(mappingChangeRate) != 0.0 ==>
        mappingChangeRate == DampedRate(old(mappingChangeRate), momemtumDampenRate, deltaTime) &&
        linearMappingValue == Clamp01(old(linearMappingValue) + mappingChangeRate * deltaTime) &&
        0.0 <= linearMappingValue <= 1.0 &&
        transform.position
          == (if repositionGameObject then LerpVec(startPosition, endPosition, linearMappingValue)
              else old(transform.position))
      ensures Abs(mappingChangeRate) <= Abs(old(mappingChangeRate))
      ensures old(mappingChangeRate) >= 0.0 ==> mappingChangeRate >= 0.0
      ensures old(mappingChangeRate) <= 0.0 ==> mappingChangeRate <= 0.0
      ensures prevMapping == old(prevMapping) && initialMappingOffset == old(initialMappingOffset)
      ensures sampleCount == old(sampleCount) && samplesSinceAttach == old(samplesSinceAttach)
    {
      if maintainMomemntum && mappingChangeRate != 0.0 {
        DampingStep(mappingChangeRate, momemtumDampenRate, deltaTime);
        mappingChangeRate := Lerp(mappingChangeRate, 0.0, momemtumDampenRate * deltaTime);
        linearMappingValue := Clamp01(linearMappingValue + (mappingChangeRate * deltaTime));

        if repositionGameObject {
          MoveOntoRail();
        }
      }
    }
  }

  /** No jump on grab: OnAttachment stores value - projection(hand) as the
      offset, so a held tick with the hand still where it was leaves a value
      in [0, 1] where it was and records a velocity of zero. */
  method AttachThenHoldStill(drive: DistanceLinearDrive, handPosition: Vec3, deltaTime: real)
    requires drive.Valid() && deltaTime > 0.0
    requires 0.0 <= drive.linearMappingValue <= 1.0
    modifies drive, drive.mappingChangeSamples, drive.transform
    ensures drive.Valid()
    ensures drive.linearMappingValue == old(drive.linearMappingValue)
    ensures drive.sampleCount == 1 && drive.samplesSinceAttach == [0.0]
    ensures drive.mappingChangeSamples[0] == 0.0
  {
    drive.OnAttachment(handPosition);
    drive.DistanceHandUpdate(handPosition, deltaTime);
    assert SampleVelocity(old(drive.linearMappingValue), old(drive.linearMappingValue), deltaTime) == 0.0;
  }
}
