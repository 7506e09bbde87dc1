/**
 * `analysePitches`: buckets a frequency-sorted spectrum by nearest note and,
 * per bucket, keeps the highest peak, its cents accuracy and an integral of
 * the intensity above a per-octave floor, with log2 frequency as the x axis.
 */
module NoteDecomposition {
  import opened Wrappers
  import opened MusicTheory
  import opened Decimal

  /** `FrequencyDataPoint`: one point of the spectrum. */
  datatype FrequencyDataPoint = FrequencyDataPoint(frequency: Frequency, intensity: real)

  /** A number or -Infinity, the initial value of a bucket's `max`. */
  datatype ExtendedReal = NegativeInfinity | Finite(value: real)

  /** One entry of `PitchAnalysis`. */
  datatype Bucket = Bucket(pitch: string, integral: real, accuracy: real, max: ExtendedReal)

  /**
   * `PitchAnalysis`: the dictionary from pitch keys to buckets, with its keys
   * in insertion order (keys such as "A4" are not array indices, so a
   * JavaScript object enumerates them in the order they were added).
   */
  datatype PitchAnalysis = PitchAnalysis(keys: seq<string>, buckets: map<string, Bucket>)

  // ---------------------------------------------------------------------------
  // What the two passes read from each point

  /**
   * A point together with what `frequencyToPitch` says about it: its log2
   * position (up to a constant), its intensity, its bucket key
   * `pitchToString(frequencyToPitch(f))`, its octave and its cents.
   */
  datatype Sample = Sample(x: real, intensity: real, key: string, octave: int, cents: real)

  function Annotate(point: FrequencyDataPoint): (s: Sample)
    ensures s.x == point.frequency.octavesAboveA0 && s.intensity == point.intensity
    ensures s.key == FrequencyToString(point.frequency) && s.octave == FrequencyToPitch(point.frequency).octave
    ensures s.cents == FrequencyToPitch(point.frequency).cents.value && -50.0 <= s.cents < 50.0
  {
    var pitch := FrequencyToPitch(point.frequency);
    Sample(point.frequency.octavesAboveA0, point.intensity, PitchToString(pitch, DefaultOptions), pitch.octave, pitch.cents.value)
  }

  function Annotated(data: seq<FrequencyDataPoint>): seq<Sample> {
    seq(|data|, i requires 0 <= i < |data| => Annotate(data[i]))
  }

  /** `intensity > max`, where every number exceeds -Infinity. */
  predicate Exceeds(intensity: real, max: ExtendedReal) {
    max.NegativeInfinity? || intensity > max.value
  }

  predicate Occurs(samples: seq<Sample>, key: string, n: nat)
    requires n <= |samples|
  {
    exists j | 0 <= j < n :: samples[j].key == key
  }

  predicate InOctave(samples: seq<Sample>, octave: int, n: nat)
    requires n <= |samples|
  {
    exists j | 0 <= j < n :: samples[j].octave == octave
  }

  // ---------------------------------------------------------------------------
  // First pass: the per-octave floor

  /**
   * One step of the first pass: `||= Infinity` restarts an absent floor and
   * also a floor of 0 (0 is falsy), and the minimum of Infinity and the
   * intensity is the intensity itself.
   */
  function FloorStep(floors: map<int, real>, octave: int, intensity: real): (next: map<int, real>)
    ensures next.Keys == floors.Keys + {octave}
    ensures forall o | o in floors && o != octave :: next[o] == floors[o]
    ensures octave !in floors || floors[octave] == 0.0 ==> next[octave] == intensity
    ensures octave in floors && floors[octave] != 0.0 ==>
      next[octave] <= intensity && next[octave] <= floors[octave]
      && (next[octave] == intensity || next[octave] == floors[octave])
  {
    if octave !in floors || floors[octave] == 0.0 then floors[octave := intensity]
    else floors[octave := if intensity < floors[octave] then intensity else floors[octave]]
  }

  /**
   * `minValueForOctave` after the first n points. It has an entry for
   * the octave of each of those points.
   */
  function Floors(samples: seq<Sample>, n: nat): (floors: map<int, real>)
    requires n <= |samples|
    ensures forall j | 0 <= j < n :: samples[j].octave in floors
  {
    if n == 0 then map[]
    else FloorStep(Floors(samples, n - 1), samples[n - 1].octave, samples[n - 1].intensity)
  }

  // ---------------------------------------------------------------------------
  // Second pass, key by key

  /**
   * The keys of the first n points in the order `analysis[key] ||= ...` adds
   * them: exactly the keys that occur.
   */
  function FirstKeys(samples: seq<Sample>, n: nat): (keys: seq<string>)
    requires n <= |samples|
    ensures forall key :: key in keys <==> Occurs(samples, key, n)
  {
    if n == 0 then []
    else
      var previous := FirstKeys(samples, n - 1);
      assert forall key :: Occurs(samples, key, n) <==> Occurs(samples, key, n - 1) || key == samples[n - 1].key;
      if samples[n - 1].key in previous then previous else previous + [samples[n - 1].key]
  }

  /** The index of the first of the first n points with the given key, or -1. */
  function FirstIndex(samples: seq<Sample>, key: string, n: nat): (i: int)
    requires n <= |samples|
    ensures -1 <= i < n
    ensures i == -1 <==> !Occurs(samples, key, n)
    ensures i >= 0 ==> samples[i].key == key && forall j | 0 <= j < i :: samples[j].key != key
  {
    if n == 0 then -1
    else
      var i := FirstIndex(samples, key, n - 1);
      if i >= 0 then i
      else if samples[n - 1].key == key then n - 1
      else -1
  }

  /**
   * The point whose intensity and cents the bucket for `key` holds after the
   * first n points, or -1 when no point has that key (`PeakIsFirstMaximum`
   * says which point it is).
   */
  function PeakIndex(samples: seq<Sample>, key: string, n: nat): (p: int)
    requires n <= |samples|
    ensures -1 <= p < n
    ensures p == -1 <==> !Occurs(samples, key, n)
  {
    if n == 0 then -1
    else
      var p := PeakIndex(samples, key, n - 1);
      if samples[n - 1].key == key && (p == -1 || samples[n - 1].intensity > samples[p].intensity) then n - 1
      else p
  }

  predicate FloorsCover(samples: seq<Sample>, floors: map<int, real>) {
    forall j | 0 <= j < |samples| :: samples[j].octave in floors
  }

  /**
   * What point i adds to its bucket's integral: (intensity - floor of its
   * octave) * (log2 of the next frequency - log2 of its own). The last point
   * has no next point and adds nothing.
   */
  function Contribution(samples: seq<Sample>, floors: map<int, real>, i: nat): (c: real)
    requires i < |samples| && FloorsCover(samples, floors)
    ensures i + 1 == |samples| ==> c == 0.0
    ensures floors[samples[i].octave] <= samples[i].intensity && (i + 1 < |samples| ==> samples[i].x <= samples[i + 1].x)
      ==> c >= 0.0
  {
    if i + 1 < |samples| then
      var height, width := samples[i].intensity - floors[samples[i].octave], samples[i + 1].x - samples[i].x;
      assert height >= 0.0 && width >= 0.0 ==> height * width >= 0.0;
      height * width
    else 0.0
  }

  /**
   * The integral of a key's bucket after the first n points: the sum of its
   * points' contributions, so 0 while the key has no point, as a new bucket
   * starts.
   */
  function Integral(samples: seq<Sample>, floors: map<int, real>, key: string, n: nat): (r: real)
    requires n <= |samples| && FloorsCover(samples, floors)
    ensures !Occurs(samples, key, n) ==> r == 0.0
  {
    if n == 0 then 0.0
    else if samples[n - 1].key == key then Integral(samples, floors, key, n - 1) + Contribution(samples, floors, n - 1)
    else Integral(samples, floors, key, n - 1)
  }

  /**
   * The bucket of a key after the first n points; before the key's first
   * point it is the bucket `||=` creates.
   */
  function ExpectedBucket(samples: seq<Sample>, floors: map<int, real>, key: string, n: nat): (b: Bucket)
    requires n <= |samples| && FloorsCover(samples, floors)
    ensures b.pitch == key && b.integral == Integral(samples, floors, key, n)
    ensures b.max.NegativeInfinity? <==> !Occurs(samples, key, n)
    ensures !Occurs(samples, key, n) ==> b.accuracy == 0.0
  {
    var p := PeakIndex(samples, key, n);
    if p < 0 then Bucket(key, 0.0, 0.0, NegativeInfinity)
    else Bucket(key, Integral(samples, floors, key, n), samples[p].cents, Finite(samples[p].intensity))
  }

  /**
   * The analysis of a whole spectrum: one bucket per key that occurs, keys in
   * order of first occurrence, each bucket as `ExpectedBucket` says.
   */
  function Analysis(samples: seq<Sample>): (analysis: PitchAnalysis)
    ensures forall key :: key in analysis.keys <==> Occurs(samples, key, |samples|)
    ensures forall key :: key in analysis.buckets <==> key in analysis.keys
  {
    var floors := Floors(samples, |samples|);
    var keys := FirstKeys(samples, |samples|);
    PitchAnalysis(keys, map key | key in keys :: ExpectedBucket(samples, floors, key, |samples|))
  }

  // ---------------------------------------------------------------------------
  // One point of the second pass

  /**
   * Point n updates its own key's bucket (the one `||=` created if it had
   * none): max and accuracy are replaced when its intensity exceeds the max,
   * then its contribution is added to the integral.
   */
  lemma OwnBucketStep(samples: seq<Sample>, floors: map<int, real>, n: nat, peaked: Bucket, after: Bucket)
    requires n < |samples| && FloorsCover(samples, floors)
    requires
      var point := samples[n];
      var before := ExpectedBucket(samples, floors, point.key, n);
      peaked == if Exceeds(point.intensity, before.max) then before.(max := Finite(point.intensity), accuracy := point.cents)
                else before
    requires after == if n + 1 < |samples| then peaked.(integral := peaked.integral + Contribution(samples, floors, n)) else peaked
    ensures after == ExpectedBucket(samples, floors, samples[n].key, n + 1)
  {
  }

  /** Point n leaves the bucket of every other key unchanged. */
  lemma OtherBucketsStep(samples: seq<Sample>, floors: map<int, real>, n: nat, key: string)
    requires n < |samples| && FloorsCover(samples, floors) && key != samples[n].key
    ensures ExpectedBucket(samples, floors, key, n + 1) == ExpectedBucket(samples, floors, key, n)
  {
  }

  /** The second pass's state after the first n points: keys and buckets as the specification says. */
  ghost predicate Tracked(samples: seq<Sample>, floors: map<int, real>, keys: seq<string>, buckets: map<string, Bucket>, n: nat)
    requires n <= |samples| && FloorsCover(samples, floors)
  {
    && keys == FirstKeys(samples, n)
    && (forall key :: key in buckets <==> key in keys)
    && forall key | key in buckets :: buckets[key] == ExpectedBucket(samples, floors, key, n)
  }

  /** Storing the right bucket for point n's key keeps the second pass's state in step. */
  lemma TrackedStep(samples: seq<Sample>, floors: map<int, real>, keys: seq<string>, buckets: map<string, Bucket>,
                    n: nat, keys': seq<string>, buckets': map<string, Bucket>)
    requires n < |samples| && FloorsCover(samples, floors)
    requires Tracked(samples, floors, keys, buckets, n)
    requires keys' == (if samples[n].key in buckets then keys else keys + [samples[n].key])
    requires buckets' == buckets[samples[n].key := ExpectedBucket(samples, floors, samples[n].key, n + 1)]
    ensures Tracked(samples, floors, keys', buckets', n + 1)
  {
    var key := samples[n].key;
    KeysStep(samples, keys, n, key in buckets, keys');
    forall other | other in buckets'
      ensures buckets'[other] == ExpectedBucket(samples, floors, other, n + 1)
    {
      if other != key {
        OtherBucketsStep(samples, floors, n, other);
      }
    }
  }

  /** Point n's key is appended exactly when it is new. */
  lemma KeysStep(samples: seq<Sample>, keys: seq<string>, n: nat, seen: bool, keys': seq<string>)
    requires n < |samples| && keys == FirstKeys(samples, n)
    requires seen <==> Occurs(samples, samples[n].key, n)
    requires keys' == if seen then keys else keys + [samples[n].key]
    ensures keys' == FirstKeys(samples, n + 1)
    ensures forall key :: key in keys' <==> key in keys || key == samples[n].key
  {
  }

  /** After the last point, the second pass's state is the analysis. */
  lemma TrackedAll(samples: seq<Sample>, keys: seq<string>, buckets: map<string, Bucket>)
    requires Tracked(samples, Floors(samples, |samples|), keys, buckets, |samples|)
    ensures PitchAnalysis(keys, buckets) == Analysis(samples)
  {
    var floors := Floors(samples, |samples|);
    var expected := map key | key in keys :: ExpectedBucket(samples, floors, key, |samples|);
    assert Analysis(samples).buckets == expected;
    SameEntries(buckets, expected);
  }

  /** Two maps with the same keys and the same value at each key are equal. */
  lemma SameEntries<K, V>(a: map<K, V>, b: map<K, V>)
    requires forall k :: k in a <==> k in b
    requires forall k | k in a :: a[k] == b[k]
    ensures a == b
  {
  }

  // ---------------------------------------------------------------------------
  // The method

  /**
   * `analysePitches`: labels every point with its pitch, builds the
   * per-octave floor in a first pass over the points and the buckets in a
   * second.
   */
  method AnalysePitches(data: seq<FrequencyDataPoint>) returns (analysis: PitchAnalysis)
    ensures analysis == Analysis(Annotated(data))
    ensures data == [] ==> analysis.keys == [] && analysis.buckets == map[]
  {
    var samples := Annotated(data);
    var minValueForOctave := FloorPass(samples);
    analysis := BucketPass(samples, minValueForOctave);
  }

  /** The first pass: `minValueForOctave`, one `FloorStep` per point. */
  method FloorPass(samples: seq<Sample>) returns (minValueForOctave: map<int, real>)
    ensures minValueForOctave == Floors(samples, |samples|)
  {
    minValueForOctave := map[];
    var i := 0;
    while i < |samples|
      invariant 0 <= i <= |samples|
      invariant minValueForOctave == Floors(samples, i)
    {
      minValueForOctave := FloorStep(minValueForOctave, samples[i].octave, samples[i].intensity);
      i := i + 1;
    }
  }

  /** The second pass: every point visits its key's bucket, in order. */
  method BucketPass(samples: seq<Sample>, minValueForOctave: map<int, real>) returns (analysis: PitchAnalysis)
    requires minValueForOctave == Floors(samples, |samples|)
    ensures analysis == Analysis(samples)
  {
    var keys: seq<string> := [];
    var buckets: map<string, Bucket> := map[];
    var i := 0;
    while i < |samples|
      invariant 0 <= i <= |samples|
      invariant Tracked(samples, minValueForOctave, keys, buckets, i)
    {
      var keys', buckets' := VisitPoint(samples, minValueForOctave, keys, buckets, i);
      TrackedStep(samples, minValueForOctave, keys, buckets, i, keys', buckets');
      keys, buckets, i := keys', buckets', i + 1;
    }
    TrackedAll(samples, keys, buckets);
    analysis := PitchAnalysis(keys, buckets);
  }

  /**
   * The second pass's callback for point i: `||=` creates the key's bucket on
   * first sight and appends the key; a strictly higher intensity replaces
   * max and accuracy; a point with a successor adds its contribution to the
   * integral. Only the bucket of point i's key changes.
   */
  method VisitPoint(samples: seq<Sample>, floors: map<int, real>, keys: seq<string>, buckets: map<string, Bucket>, i: nat)
    returns (keys': seq<string>, buckets': map<string, Bucket>)
    requires i < |samples| && FloorsCover(samples, floors)
    requires Tracked(samples, floors, keys, buckets, i)
    ensures keys' == if samples[i].key in buckets then keys else keys + [samples[i].key]
    ensures buckets' == buckets[samples[i].key := ExpectedBucket(samples, floors, samples[i].key, i + 1)]
  {
    var point := samples[i];
    var key := point.key;
    keys' := keys;
    var bucket := if key in buckets then buckets[key] else Bucket(key, 0.0, 0.0, NegativeInfinity);
    if key !in buckets {
      keys' := keys + [key];
    }
    assert bucket == ExpectedBucket(samples, floors, key, i);
    if Exceeds(point.intensity, bucket.max) {
      bucket := bucket.(max := Finite(point.intensity), accuracy := point.cents);
    }
    ghost var peaked := bucket;
    if i + 1 < |samples| {
      bucket := bucket.(integral := bucket.integral + Contribution(samples, floors, i));
    }
    OwnBucketStep(samples, floors, i, peaked, bucket);
    buckets' := buckets[key := bucket];
  }

  // ---------------------------------------------------------------------------
  // What a point's labels are

  /**
   * A point octave + h/12 + cents/1200 octaves above C0 (cents in [-50, 50),
   * a one-digit octave) is labelled with note h of `noteOrder` and that
   * octave, and keeps its cents.
   */
  lemma AnnotateNearest(point: FrequencyDataPoint, h: int, octave: int, cents: real)
    requires 0 <= h < 12 && -50.0 <= cents < 50.0 && 0 <= octave <= 9
    requires point.frequency.octavesAboveA0 + 0.75 == octave as real + h as real / 12.0 + cents / 1200.0
    ensures Annotate(point) == Sample(point.frequency.octavesAboveA0, point.intensity, NoteOrder[h] + [DigitChar(octave)], octave, cents)
  {
    NearestPitchAboveC0(point.frequency, h, octave, cents);
    DefaultLabel(FrequencyToPitch(point.frequency));
  }

  /** A point at a pitch's own frequency is labelled with that pitch. */
  lemma AnnotatePitch(h: int, octave: int, cents: real, intensity: real)
    requires 0 <= h < 12 && -50.0 <= cents < 50.0 && 0 <= octave <= 9
    ensures var f := PitchToFrequency(Pitch(NoteOrder[h], octave, Some(cents)));
      Annotate(FrequencyDataPoint(f, intensity)) == Sample(f.octavesAboveA0, intensity, NoteOrder[h] + [DigitChar(octave)], octave, cents)
  {
    var f := PitchToFrequency(Pitch(NoteOrder[h], octave, Some(cents)));
    PitchToFrequencyAboveC0(h, octave, cents);
    C0FromNotation();
    AnnotateNearest(FrequencyDataPoint(f, intensity), h, octave, cents);
  }

  // ---------------------------------------------------------------------------
  // The floor

  /** The floor has an entry for exactly the octaves of the first n points. */
  lemma {:induction false} FloorsDomain(samples: seq<Sample>, n: nat)
    requires n <= |samples|
    ensures forall octave :: octave in Floors(samples, n) <==> InOctave(samples, octave, n)
  {
    if n > 0 {
      FloorsDomain(samples, n - 1);
      assert forall octave :: InOctave(samples, octave, n) <==>
        InOctave(samples, octave, n - 1) || octave == samples[n - 1].octave;
    }
  }

  /** Every floor is the intensity of one of its octave's points. */
  lemma {:induction false} FloorAttained(samples: seq<Sample>, n: nat, octave: int)
    requires n <= |samples| && octave in Floors(samples, n)
    ensures exists j | 0 <= j < n :: samples[j].octave == octave && Floors(samples, n)[octave] == samples[j].intensity
  {
    var previous := Floors(samples, n - 1);
    if samples[n - 1].octave == octave && (octave !in previous || previous[octave] == 0.0 || samples[n - 1].intensity < previous[octave]) {
      assert samples[n - 1].octave == octave && Floors(samples, n)[octave] == samples[n - 1].intensity;
    } else {
      FloorAttained(samples, n - 1, octave);
    }
  }

  /**
   * When none of an octave's points has intensity 0 (so `||= Infinity`
   * never restarts its floor), the floor is at most each of their
   * intensities: with `FloorAttained`, it is their minimum.
   */
  lemma {:induction false} FloorIsMinimum(samples: seq<Sample>, n: nat, octave: int)
    requires n <= |samples|
    requires forall j | 0 <= j < n && samples[j].octave == octave :: samples[j].intensity != 0.0
    ensures forall j | 0 <= j < n && samples[j].octave == octave :: Floors(samples, n)[octave] <= samples[j].intensity
  {
    if n > 0 {
      FloorIsMinimum(samples, n - 1, octave);
      var previous := Floors(samples, n - 1);
      if octave in previous {
        FloorAttained(samples, n - 1, octave);
      } else {
        FloorsDomain(samples, n - 1);
      }
    }
  }

  /**
   * The restart in action: intensities 0 then 5 in one octave leave the
   * floor at 5, not at the minimum 0.
   */
  lemma ZeroFloorRestarts()
    ensures Floors([Sample(0.0, 0.0, "A0", 0, 0.0), Sample(0.1, 5.0, "A0", 0, 0.0)], 2) == map[0 := 5.0]
  {
    var samples := [Sample(0.0, 0.0, "A0", 0, 0.0), Sample(0.1, 5.0, "A0", 0, 0.0)];
    assert Floors(samples, 1) == map[0 := 0.0];
  }

  // ---------------------------------------------------------------------------
  // Keys and peaks

  /** An earlier key of `keys` first occurs at an earlier one of the first n points. */
  ghost predicate InFirstOccurrenceOrder(samples: seq<Sample>, keys: seq<string>, n: nat)
    requires n <= |samples|
  {
    forall p, q | 0 <= p < q < |keys| :: FirstOccursBefore(samples, keys[p], keys[q], n)
  }

  /** Key a occurs among the first n points, and before the first occurrence of key b. */
  ghost predicate FirstOccursBefore(samples: seq<Sample>, a: string, b: string, n: nat)
    requires n <= |samples|
  {
    0 <= FirstIndex(samples, a, n) < FirstIndex(samples, b, n)
  }

  /** The keys come in order of first occurrence, so in particular they are distinct. */
  lemma {:induction false} FirstKeysInOrder(samples: seq<Sample>, n: nat)
    requires n <= |samples|
    ensures InFirstOccurrenceOrder(samples, FirstKeys(samples, n), n)
    ensures forall p, q | 0 <= p < q < |FirstKeys(samples, n)| :: FirstKeys(samples, n)[p] != FirstKeys(samples, n)[q]
  {
    if n > 0 {
      FirstKeysInOrder(samples, n - 1);
      FirstKeysOrderStep(samples, n, FirstKeys(samples, n - 1), FirstKeys(samples, n));
    }
  }

  lemma FirstKeysOrderStep(samples: seq<Sample>, n: nat, previous: seq<string>, keys: seq<string>)
    requires 0 < n <= |samples|
    requires previous == FirstKeys(samples, n - 1) && InFirstOccurrenceOrder(samples, previous, n - 1)
    requires keys == if samples[n - 1].key in previous then previous else previous + [samples[n - 1].key]
    ensures InFirstOccurrenceOrder(samples, keys, n)
  {
    forall p, q | 0 <= p < q < |keys|
      ensures FirstOccursBefore(samples, keys[p], keys[q], n)
    {
      assert q == |previous| || FirstOccursBefore(samples, previous[p], previous[q], n - 1);
      assert keys[p] == previous[p] && keys[p] in previous;
      if q < |previous| {
        assert keys[q] == previous[q] && keys[q] in previous;
      } else {
        assert keys[q] == samples[n - 1].key && keys[q] !in previous;
      }
    }
  }

  /**
   * The bucket's peak point has the key, has the largest intensity among
   * the key's points, and is the first to reach it: every earlier point of
   * the key is strictly lower, since `>` lets no tie through.
   */
  lemma {:induction false} PeakIsFirstMaximum(samples: seq<Sample>, key: string, n: nat)
    requires n <= |samples| && Occurs(samples, key, n)
    ensures var p := PeakIndex(samples, key, n);
      && 0 <= p < n && samples[p].key == key
      && (forall j | 0 <= j < n && samples[j].key == key :: samples[j].intensity <= samples[p].intensity)
      && (forall j | 0 <= j < p && samples[j].key == key :: samples[j].intensity < samples[p].intensity)
  {
    var previous := PeakIndex(samples, key, n - 1);
    if previous >= 0 {
      PeakIsFirstMaximum(samples, key, n - 1);
    } else {
      assert forall j | 0 <= j < n - 1 :: samples[j].key != key;
    }
  }

  /**
   * What the analysis holds for a key: the key as `pitch`, the integral of
   * its points, and as `max` and `accuracy` the intensity and cents of the
   * first of its points with the largest intensity.
   */
  lemma BucketContents(samples: seq<Sample>, key: string)
    requires key in Analysis(samples).buckets
    ensures var bucket := Analysis(samples).buckets[key];
      var p := PeakIndex(samples, key, |samples|);
      && 0 <= p < |samples| && samples[p].key == key
      && bucket == Bucket(key, Integral(samples, Floors(samples, |samples|), key, |samples|), samples[p].cents, Finite(samples[p].intensity))
      && (forall j | 0 <= j < |samples| && samples[j].key == key :: samples[j].intensity <= samples[p].intensity)
      && (forall j | 0 <= j < p && samples[j].key == key :: samples[j].intensity < samples[p].intensity)
  {
    PeakIsFirstMaximum(samples, key, |samples|);
  }

  /** Points at the given notes and octaves, with the given cents and intensities. */
  function PointsAt(notes: seq<int>, octaves: seq<int>, cents: seq<real>, intensities: seq<real>): (data: seq<FrequencyDataPoint>)
    requires |notes| == |octaves| == |cents| == |intensities|
    requires forall i | 0 <= i < |notes| :: 0 <= notes[i] < 12
    ensures |data| == |notes|
  {
    seq(|notes|, i requires 0 <= i < |notes| =>
      FrequencyDataPoint(PitchToFrequency(Pitch(NoteOrder[notes[i]], octaves[i], Some(cents[i]))), intensities[i]))
  }

  /**
   * Points at the frequencies of given pitches are labelled with those
   * pitches, keep their cents, and lie octave + (note - 9)/12 + cents/1200
   * octaves above A0.
   */
  lemma AnnotatePitches(notes: seq<int>, octaves: seq<int>, cents: seq<real>, intensities: seq<real>)
    requires |notes| == |octaves| == |cents| == |intensities|
    requires forall i | 0 <= i < |notes| :: 0 <= notes[i] < 12 && 0 <= octaves[i] <= 9 && -50.0 <= cents[i] < 50.0
    ensures var samples := Annotated(PointsAt(notes, octaves, cents, intensities));
      forall i | 0 <= i < |notes| ::
        && samples[i].key == NoteOrder[notes[i]] + [DigitChar(octaves[i])] && samples[i].octave == octaves[i]
        && samples[i].cents == cents[i] && samples[i].intensity == intensities[i]
        && samples[i].x == octaves[i] as real + (notes[i] - 9) as real / 12.0 + cents[i] / 1200.0
  {
    var data := PointsAt(notes, octaves, cents, intensities);
    forall i | 0 <= i < |notes|
      ensures Annotated(data)[i].key == NoteOrder[notes[i]] + [DigitChar(octaves[i])]
      ensures Annotated(data)[i].octave == octaves[i] && Annotated(data)[i].cents == cents[i]
      ensures Annotated(data)[i].x == octaves[i] as real + (notes[i] - 9) as real / 12.0 + cents[i] / 1200.0
    {
      AnnotatePitch(notes[i], octaves[i], cents[i], intensities[i]);
      NoteIndexOfOrder(notes[i]);
    }
  }

  const TwoNoteNotes: seq<int> := [9, 9, 9, 9, 10, 10, 10]
  const TwoNoteCents: seq<real> := [-30.0, -10.0, 0.0, 10.0, -20.0, 0.0, 20.0]
  const TwoNoteIntensities: seq<real> := [80.0, 120.0, 100.0, 80.0, 60.0, 80.0, 60.0]

  /** Four points around A4 (note 9 of octave 4) and three around A#4 (note 10). */
  function TwoNotes(): seq<FrequencyDataPoint> {
    PointsAt(TwoNoteNotes, seq(7, _ => 4), TwoNoteCents, TwoNoteIntensities)
  }

  /** The notation the first test names its points with. */
  const TwoNoteNotation: seq<string> := ["A4-30", "A4-10", "A4", "A4+10", "A#4-20", "A#4", "A#4+20"]

  /** The points of `TwoNotes` are the frequencies `stringToFrequency` gives for the first test's notation. */
  lemma TwoNotesNamed()
    ensures forall i | 0 <= i < 7 :: StringToFrequency(TwoNoteNotation[i]) == Success(TwoNotes()[i].frequency)
  {
    forall i | 0 <= i < 7
      ensures StringToFrequency(TwoNoteNotation[i]) == Success(TwoNotes()[i].frequency)
    {
      TwoNoteNotationParses(i);
    }
  }

  /** What `stringToPitch` reads from the first test's notation: the pitch each point was made from. */
  lemma TwoNoteNotationParses(i: nat)
    requires i < 7
    ensures StringToPitch(TwoNoteNotation[i]) == Success(Pitch(NoteOrder[TwoNoteNotes[i]], 4, Some(TwoNoteCents[i])))
  {
    if i < 4 {
      FirstNoteNotationParses(i);
    } else {
      SecondNoteNotationParses(i);
    }
  }

  lemma FirstNoteNotationParses(i: nat)
    requires i < 4
    ensures StringToPitch(TwoNoteNotation[i]) == Success(Pitch(NoteOrder[TwoNoteNotes[i]], 4, Some(TwoNoteCents[i])))
  {
    assert NoteOrder[9] == "A";
    if i == 0 {
      SignedParsingExample("A4-30", "A", '4', '-', "30", -30);
    } else if i == 1 {
      SignedParsingExample("A4-10", "A", '4', '-', "10", -10);
    } else if i == 2 {
      ParseUnsignedNotation("A4", "A", '4');
    } else {
      SignedParsingExample("A4+10", "A", '4', '+', "10", 10);
    }
  }

  lemma SecondNoteNotationParses(i: nat)
    requires 4 <= i < 7
    ensures StringToPitch(TwoNoteNotation[i]) == Success(Pitch(NoteOrder[TwoNoteNotes[i]], 4, Some(TwoNoteCents[i])))
  {
    assert NoteOrder[10] == "A#";
    if i == 4 {
      SignedParsingExample("A#4-20", "A#", '4', '-', "20", -20);
    } else if i == 5 {
      ParseUnsignedNotation("A#4", "A#", '4');
    } else {
      SignedParsingExample("A#4+20", "A#", '4', '+', "20", 20);
    }
  }

  /** The samples of `TwoNotes`, as labelled, with their intensities and cents. */
  ghost predicate TwoNotesSamples(samples: seq<Sample>) {
    && |samples| == 7
    && (forall i | 0 <= i < 7 :: samples[i].key == (if i < 4 then "A4" else "A#4"))
    && (forall i | 0 <= i < 7 :: samples[i].intensity == TwoNoteIntensities[i])
    && (forall i | 0 <= i < 7 :: samples[i].cents == TwoNoteCents[i])
  }

  /** `TwoNotes` is labelled with the pitches it was made from. */
  lemma TwoNotesLabels()
    ensures TwoNotesSamples(Annotated(TwoNotes()))
  {
    assert NoteOrder[9] + [DigitChar(4)] == "A4" && NoteOrder[10] + [DigitChar(4)] == "A#4";
    assert forall i | 0 <= i < 7 :: TwoNoteNotes[i] == if i < 4 then 9 else 10;
    AnnotatePitches(TwoNoteNotes, seq(7, _ => 4), TwoNoteCents, TwoNoteIntensities);
  }

  /** Such samples give two buckets in that order, peaking at 120 (10 cents flat) and at 80 (in tune). */
  lemma PeaksOfTwoNotes(samples: seq<Sample>)
    requires TwoNotesSamples(samples)
    ensures TwoNotePeaks(Analysis(samples))
  {
    assert FirstKeys(samples, 1) == ["A4"];
    assert FirstKeys(samples, 2) == ["A4"];
    assert FirstKeys(samples, 3) == ["A4"];
    assert FirstKeys(samples, 4) == ["A4"];
    assert FirstKeys(samples, 5) == ["A4", "A#4"];
    assert FirstKeys(samples, 6) == ["A4", "A#4"];
    assert FirstKeys(samples, 7) == ["A4", "A#4"];
    assert PeakIndex(samples, "A4", 2) == 1;
    assert PeakIndex(samples, "A4", 4) == 1;
    assert PeakIndex(samples, "A4", 5) == 1;
    assert PeakIndex(samples, "A4", 6) == 1;
    assert PeakIndex(samples, "A4", 7) == 1;
    assert PeakIndex(samples, "A#4", 4) == -1;
    assert PeakIndex(samples, "A#4", 5) == 4;
    assert PeakIndex(samples, "A#4", 6) == 5;
    assert PeakIndex(samples, "A#4", 7) == 5;
  }

  /** The outcome the two-note example expects. */
  predicate TwoNotePeaks(analysis: PitchAnalysis) {
    && analysis.keys == ["A4", "A#4"]
    && "A4" in analysis.buckets && "A#4" in analysis.buckets
    && analysis.buckets["A4"].max == Finite(120.0) && analysis.buckets["A4"].accuracy == -10.0
    && analysis.buckets["A#4"].max == Finite(80.0) && analysis.buckets["A#4"].accuracy == 0.0
  }

  /**
   * Four points around A4 and three around A#4 give two buckets in that
   * order, peaking at 120 (10 cents flat) and at 80 (in tune).
   */
  lemma PeaksOfTwoNotesData()
    ensures TwoNotePeaks(Analysis(Annotated(TwoNotes())))
  {
    TwoNotesLabels();
    PeaksOfTwoNotes(Annotated(TwoNotes()));
  }

  const FourNoteNotes: seq<int> := [9, 9, 9, 9, 9, 10, 10, 10, 10, 10, 10, 10, 11, 11, 11, 11, 11, 0]
  const FourNoteOctaves: seq<int> := [4, 4, 4, 4, 4, 4, 4, 4, 4, 4, 4, 4, 4, 4, 4, 4, 4, 5]
  const FourNoteCents: seq<real> :=
    [-30.0, -10.0, 0.0, 10.0, 30.0, -49.0, -30.0, -10.0, 0.0, 10.0, 30.0, 49.0, -30.0, -10.0, 0.0, 10.0, 30.0, -49.0]
  const FourNoteIntensities: seq<real> :=
    [80.0, 120.0, 100.0, 80.0, 60.0, 20.0, 40.0, 60.0, 50.0, 40.0, 30.0, 20.0, 80.0, 120.0, 100.0, 80.0, 60.0, 20.0]

  /**
   * Five points around A4, seven around A#4, five around B4 shaped like
   * those of A4, and one just above the boundary between B4 and C5.
   */
  function FourNotes(): seq<FrequencyDataPoint> {
    PointsAt(FourNoteNotes, FourNoteOctaves, FourNoteCents, FourNoteIntensities)
  }

  /** The notation the second test names its points with. */
  const FourNoteNotation: seq<string> :=
    ["A4-30", "A4-10", "A4", "A4+10", "A4+30", "A#4-49", "A#4-30", "A#4-10", "A#4",
     "A#4+10", "A#4+30", "A#4+49", "B4-30", "B4-10", "B4", "B4+10", "B4+30", "C5-49"]

  /** The points of `FourNotes` are the frequencies `stringToFrequency` gives for the second test's notation. */
  lemma FourNotesNamed()
    ensures forall i | 0 <= i < 18 :: StringToFrequency(FourNoteNotation[i]) == Success(FourNotes()[i].frequency)
  {
    forall i | 0 <= i < 18
      ensures StringToFrequency(FourNoteNotation[i]) == Success(FourNotes()[i].frequency)
    {
      FourNoteNotationParses(i);
    }
  }

  /** What `stringToPitch` reads from the second test's notation: the pitch each point was made from. */
  lemma FourNoteNotationParses(i: nat)
    requires i < 18
    ensures StringToPitch(FourNoteNotation[i]) == Success(Pitch(NoteOrder[FourNoteNotes[i]], FourNoteOctaves[i], Some(FourNoteCents[i])))
  {
    if i < 3 {
      FourNotesParsedFrom0(i);
    } else if i < 6 {
      FourNotesParsedFrom3(i);
    } else if i < 9 {
      FourNotesParsedFrom6(i);
    } else if i < 12 {
      FourNotesParsedFrom9(i);
    } else if i < 15 {
      FourNotesParsedFrom12(i);
    } else {
      FourNotesParsedFrom15(i);
    }
  }

  /** Point i of the second test is written as a note, an octave digit, a sign and two digits. */
  lemma FourNoteSignedAt(i: nat, note: string, octave: char, sign: char, digits: string, cents: int)
    requires i < 18 && IsNoteName(note) && IsDigit(octave) && IsSign(sign) && |digits| == 2 && AllDigits(digits)
    requires FourNoteNotation[i] == note + [octave] + [sign] + digits
    requires cents == (if sign == '-' then -1 else 1) * (10 * DigitValue(digits[0]) + DigitValue(digits[1]))
    requires NoteOrder[FourNoteNotes[i]] == note && FourNoteOctaves[i] == DigitValue(octave) && FourNoteCents[i] == cents as real
    ensures StringToPitch(FourNoteNotation[i]) == Success(Pitch(NoteOrder[FourNoteNotes[i]], FourNoteOctaves[i], Some(FourNoteCents[i])))
  {
    SignedParsingExample(FourNoteNotation[i], note, octave, sign, digits, cents);
  }

  /** Point i of the second test is written as a note and an octave digit, with no cents. */
  lemma FourNoteUnsignedAt(i: nat, note: string, octave: char)
    requires i < 18 && IsNoteName(note) && IsDigit(octave)
    requires FourNoteNotation[i] == note + [octave]
    requires NoteOrder[FourNoteNotes[i]] == note && FourNoteOctaves[i] == DigitValue(octave) && FourNoteCents[i] == 0.0
    ensures StringToPitch(FourNoteNotation[i]) == Success(Pitch(NoteOrder[FourNoteNotes[i]], FourNoteOctaves[i], Some(FourNoteCents[i])))
  {
    ParseUnsignedNotation(FourNoteNotation[i], note, octave);
  }

  lemma FourNotesParsedFrom0(i: nat)
    requires i < 3
    ensures StringToPitch(FourNoteNotation[i]) == Success(Pitch(NoteOrder[FourNoteNotes[i]], FourNoteOctaves[i], Some(FourNoteCents[i])))
  {
    assert NoteOrder[9] == "A";
    if i == 0 {
      FourNoteSignedAt(i, "A", '4', '-', "30", -30);
    } else if i == 1 {
      FourNoteSignedAt(i, "A", '4', '-', "10", -10);
    } else {
      FourNoteUnsignedAt(i, "A", '4');
    }
  }

  lemma FourNotesParsedFrom3(i: nat)
    requires 3 <= i < 6
    ensures StringToPitch(FourNoteNotation[i]) == Success(Pitch(NoteOrder[FourNoteNotes[i]], FourNoteOctaves[i], Some(FourNoteCents[i])))
  {
    assert NoteOrder[9] == "A" && NoteOrder[10] == "A#";
    if i == 3 {
      FourNoteSignedAt(i, "A", '4', '+', "10", 10);
    } else if i == 4 {
      FourNoteSignedAt(i, "A", '4', '+', "30", 30);
    } else {
      FourNoteSignedAt(i, "A#", '4', '-', "49", -49);
    }
  }

  lemma FourNotesParsedFrom6(i: nat)
    requires 6 <= i < 9
    ensures StringToPitch(FourNoteNotation[i]) == Success(Pitch(NoteOrder[FourNoteNotes[i]], FourNoteOctaves[i], Some(FourNoteCents[i])))
  {
    assert NoteOrder[10] == "A#";
    if i == 6 {
      FourNoteSignedAt(i, "A#", '4', '-', "30", -30);
    } else if i == 7 {
      FourNoteSignedAt(i, "A#", '4', '-', "10", -10);
    } else {
      FourNoteUnsignedAt(i, "A#", '4');
    }
  }

  lemma FourNotesParsedFrom9(i: nat)
    requires 9 <= i < 12
    ensures StringToPitch(FourNoteNotation[i]) == Success(Pitch(NoteOrder[FourNoteNotes[i]], FourNoteOctaves[i], Some(FourNoteCents[i])))
  {
    assert NoteOrder[10] == "A#";
    if i == 9 {
      FourNoteSignedAt(i, "A#", '4', '+', "10", 10);
    } else if i == 10 {
      FourNoteSignedAt(i, "A#", '4', '+', "30", 30);
    } else {
      FourNoteSignedAt(i, "A#", '4', '+', "49", 49);
    }
  }

  lemma FourNotesParsedFrom12(i: nat)
    requires 12 <= i < 15
    ensures StringToPitch(FourNoteNotation[i]) == Success(Pitch(NoteOrder[FourNoteNotes[i]], FourNoteOctaves[i], Some(FourNoteCents[i])))
  {
    assert NoteOrder[11] == "B";
    if i == 12 {
      FourNoteSignedAt(i, "B", '4', '-', "30", -30);
    } else if i == 13 {
      FourNoteSignedAt(i, "B", '4', '-', "10", -10);
    } else {
      FourNoteUnsignedAt(i, "B", '4');
    }
  }

  lemma FourNotesParsedFrom15(i: nat)
    requires 15 <= i < 18
    ensures StringToPitch(FourNoteNotation[i]) == Success(Pitch(NoteOrder[FourNoteNotes[i]], FourNoteOctaves[i], Some(FourNoteCents[i])))
  {
    assert NoteOrder[0] == "C" && NoteOrder[11] == "B";
    if i == 15 {
      FourNoteSignedAt(i, "B", '4', '+', "10", 10);
    } else if i == 16 {
      FourNoteSignedAt(i, "B", '4', '+', "30", 30);
    } else {
      FourNoteSignedAt(i, "C", '5', '-', "49", -49);
    }
  }

  /** The samples of `FourNotes`, as labelled, with their positions and intensities. */
  ghost predicate FourNotesSamples(samples: seq<Sample>) {
    FourNotesKeyed(samples) && FourNotesPlaced(samples)
  }

  /** The keys of `FourNotes`: five A4, seven A#4, five B4 and one C5. */
  ghost predicate FourNotesKeyed(samples: seq<Sample>) {
    && |samples| == 18
    && (forall i | 0 <= i < 5 :: samples[i].key == "A4")
    && (forall i | 5 <= i < 12 :: samples[i].key == "A#4")
    && (forall i | 12 <= i < 17 :: samples[i].key == "B4")
    && samples[17].key == "C5"
  }

  /** The octaves, intensities and log-frequencies of `FourNotes`. */
  ghost predicate FourNotesPlaced(samples: seq<Sample>) {
    && |samples| == 18
    && (forall i | 0 <= i < 18 :: samples[i].octave == FourNoteOctaves[i])
    && (forall i | 0 <= i < 18 :: samples[i].intensity == FourNoteIntensities[i])
    && (forall i | 0 <= i < 18 ::
          samples[i].x == FourNoteOctaves[i] as real + (FourNoteNotes[i] - 9) as real / 12.0 + FourNoteCents[i] / 1200.0)
  }

  /** `FourNotes` keeps its octaves, intensities and log-frequencies when labelled. */
  lemma FourNotesPlacedLabels()
    ensures FourNotesPlaced(Annotated(FourNotes()))
  {
    AnnotatePitches(FourNoteNotes, FourNoteOctaves, FourNoteCents, FourNoteIntensities);
  }

  /** A run of points of `FourNotes` made from one note and octave all carry that pitch's label. */
  lemma FourNotesRun(start: nat, end: nat, h: int, octave: int, name: string)
    requires start < end <= 18 && 0 <= h < 12 && 0 <= octave <= 9 && NoteOrder[h] + [DigitChar(octave)] == name
    requires forall i | start <= i < end :: FourNoteNotes[i] == h && FourNoteOctaves[i] == octave
    ensures forall i | start <= i < end :: Annotated(FourNotes())[i].key == name
  {
    AnnotatePitches(FourNoteNotes, FourNoteOctaves, FourNoteCents, FourNoteIntensities);
  }

  /** `FourNotes` is labelled A4, A#4, B4 and C5 and keeps its octaves, intensities and log-frequencies. */
  lemma FourNotesLabels()
    ensures FourNotesSamples(Annotated(FourNotes()))
  {
    assert NoteOrder[9] + [DigitChar(4)] == "A4" && NoteOrder[10] + [DigitChar(4)] == "A#4";
    assert NoteOrder[11] + [DigitChar(4)] == "B4" && NoteOrder[0] + [DigitChar(5)] == "C5";
    FourNotesRun(0, 5, 9, 4, "A4");
    FourNotesRun(5, 12, 10, 4, "A#4");
    FourNotesRun(12, 17, 11, 4, "B4");
    FourNotesRun(17, 18, 0, 5, "C5");
    FourNotesPlacedLabels();
  }

  /** A run of points sharing a key already seen adds no key. */
  lemma {:induction false} RunAddsNoKey(samples: seq<Sample>, key: string, start: nat, end: nat)
    requires start < end <= |samples|
    requires forall k | start <= k < end :: samples[k].key == key
    ensures FirstKeys(samples, end) == FirstKeys(samples, start + 1)
  {
    if end > start + 1 {
      RunAddsNoKey(samples, key, start, end - 1);
      assert samples[start].key == key;
      assert Occurs(samples, key, start + 1);
    }
  }

  /** Such samples have the first three keys in order by point 13. */
  lemma FourNotesFirstKeys(samples: seq<Sample>)
    requires FourNotesSamples(samples)
    ensures FirstKeys(samples, 13) == ["A4", "A#4", "B4"]
  {
    assert samples[0].key == "A4" && samples[5].key == "A#4" && samples[12].key == "B4";
    RunAddsNoKey(samples, "A4", 0, 5);
    assert FirstKeys(samples, 6) == ["A4", "A#4"];
    RunAddsNoKey(samples, "A#4", 5, 12);
  }

  /** Such samples have the four keys in order. */
  lemma FourNotesKeys(samples: seq<Sample>)
    requires FourNotesSamples(samples)
    ensures FirstKeys(samples, 18) == ["A4", "A#4", "B4", "C5"]
  {
    FourNotesFirstKeys(samples);
    RunAddsNoKey(samples, "B4", 12, 17);
  }

  /** Element d of a shape. */
  lemma {:induction false} ShapeAt(samples: seq<Sample>, floors: map<int, real>, start: nat, len: nat, d: nat)
    requires start + len < |samples| && FloorsCover(samples, floors) && d < len
    ensures Shape(samples, floors, start, len)[d]
         == (samples[start + d].intensity, floors[samples[start + d].octave], samples[start + d + 1].x - samples[start + d].x)
  {
    if d < len - 1 {
      ShapeAt(samples, floors, start, len - 1, d);
    }
  }

  /** In such samples the points of A4 and of B4 have the same shape. */
  lemma FourNotesShapes(samples: seq<Sample>, floors: map<int, real>)
    requires FourNotesSamples(samples) && FloorsCover(samples, floors)
    ensures Shape(samples, floors, 0, 5) == Shape(samples, floors, 12, 5)
  {
    forall d | 0 <= d < 5
      ensures Shape(samples, floors, 0, 5)[d] == Shape(samples, floors, 12, 5)[d]
    {
      ShapeAt(samples, floors, 0, 5, d);
      ShapeAt(samples, floors, 12, 5, d);
    }
  }

  /** What the four-note example expects. */
  predicate FourNoteIntegrals(analysis: PitchAnalysis) {
    && analysis.keys == ["A4", "A#4", "B4", "C5"]
    && "A4" in analysis.buckets && "B4" in analysis.buckets
    && analysis.buckets["A4"].integral == analysis.buckets["B4"].integral
  }

  /** Such samples give four buckets in order, and equal integrals to A4 and B4. */
  lemma EqualIntegralsOfFourNotes(samples: seq<Sample>)
    requires FourNotesSamples(samples)
    ensures FourNoteIntegrals(Analysis(samples))
  {
    FourNotesKeys(samples);
    var floors := Floors(samples, 18);
    FourNotesShapes(samples, floors);
    assert forall j | 0 <= j < 18 :: samples[j].key == "A4" <==> 0 <= j < 5;
    assert forall j | 0 <= j < 18 :: samples[j].key == "B4" <==> 12 <= j < 17;
    EqualNotesEqualIntegrals(samples, floors, "A4", "B4", 0, 12, 5);
    BucketContents(samples, "A4");
    BucketContents(samples, "B4");
  }

  /** `FourNotes` gives four buckets in order, and equal integrals to A4 and B4. */
  lemma EqualIntegralsOfFourNotesData()
    ensures FourNoteIntegrals(Analysis(Annotated(FourNotes())))
  {
    FourNotesLabels();
    EqualIntegralsOfFourNotes(Annotated(FourNotes()));
  }

  // ---------------------------------------------------------------------------
  // The integral

  /** A spectrum of one point has one bucket, whose integral is 0: the last point has no successor. */
  lemma SinglePoint(sample: Sample)
    ensures Analysis([sample]) == PitchAnalysis([sample.key], map[sample.key := Bucket(sample.key, 0.0, sample.cents, Finite(sample.intensity))])
  {
    var samples := [sample];
    assert samples[0].key == sample.key;
    assert Occurs(samples, sample.key, 1);
    assert FirstKeys(samples, 1) == [sample.key];
    assert PeakIndex(samples, sample.key, 1) == 0;
    assert Integral(samples, Floors(samples, 1), sample.key, 1) == 0.0;
    var expected := map[sample.key := Bucket(sample.key, 0.0, sample.cents, Finite(sample.intensity))];
    SameEntries(Analysis(samples).buckets, expected);
  }

  /**
   * Integrals are never negative when no point lies below its octave's floor
   * and the frequencies ascend.
   */
  lemma {:induction false} IntegralNonNegative(samples: seq<Sample>, floors: map<int, real>, key: string, n: nat)
    requires n <= |samples| && FloorsCover(samples, floors)
    requires forall j | 0 <= j < |samples| :: floors[samples[j].octave] <= samples[j].intensity
    requires forall j | 0 <= j < |samples| - 1 :: samples[j].x <= samples[j + 1].x
    ensures Integral(samples, floors, key, n) >= 0.0
  {
    if n > 0 {
      IntegralNonNegative(samples, floors, key, n - 1);
      assert Contribution(samples, floors, n - 1) >= 0.0;
    }
  }

  /**
   * With positive intensities and ascending frequencies every bucket's
   * integral is at least 0: no floor restarts, so each floor is its
   * octave's minimum and no point lies below it.
   */
  lemma AnalysisIntegralsNonNegative(samples: seq<Sample>, key: string)
    requires forall j | 0 <= j < |samples| :: samples[j].intensity > 0.0
    requires forall j | 0 <= j < |samples| - 1 :: samples[j].x <= samples[j + 1].x
    requires key in Analysis(samples).buckets
    ensures Analysis(samples).buckets[key].integral >= 0.0
  {
    var floors := Floors(samples, |samples|);
    forall j | 0 <= j < |samples|
      ensures floors[samples[j].octave] <= samples[j].intensity
    {
      FloorIsMinimum(samples, |samples|, samples[j].octave);
    }
    IntegralNonNegative(samples, floors, key, |samples|);
  }

  /** The sum of the contributions of points start .. start + len - 1. */
  function BlockSum(samples: seq<Sample>, floors: map<int, real>, start: nat, len: nat): real
    requires start + len <= |samples| && FloorsCover(samples, floors)
  {
    if len == 0 then 0.0 else BlockSum(samples, floors, start, len - 1) + Contribution(samples, floors, start + len - 1)
  }

  /**
   * What the integral sees of points start .. start + len - 1, each followed
   * by a point: its intensity, its octave's floor and the log-frequency step
   * to the next point.
   */
  function Shape(samples: seq<Sample>, floors: map<int, real>, start: nat, len: nat): (shape: seq<(real, real, real)>)
    requires start + len < |samples| && FloorsCover(samples, floors)
    ensures |shape| == len
  {
    if len == 0 then []
    else
      var i := start + len - 1;
      Shape(samples, floors, start, len - 1) + [(samples[i].intensity, floors[samples[i].octave], samples[i + 1].x - samples[i].x)]
  }

  /**
   * A key whose points are exactly start .. start + len - 1 (as in a
   * frequency-sorted spectrum) has as integral the sum of their
   * contributions.
   */
  lemma {:induction false} IntegralOfBlock(samples: seq<Sample>, floors: map<int, real>, key: string, start: nat, len: nat, n: nat)
    requires start + len <= |samples| && n <= |samples| && FloorsCover(samples, floors)
    requires forall j | 0 <= j < |samples| :: samples[j].key == key <==> start <= j < start + len
    ensures Integral(samples, floors, key, n)
         == BlockSum(samples, floors, start, if n <= start then 0 else if n >= start + len then len else n - start)
  {
    if n > 0 {
      IntegralOfBlock(samples, floors, key, start, len, n - 1);
    }
  }

  /** Two blocks of the same shape have the same sum. */
  lemma {:induction false} EqualBlocks(samples: seq<Sample>, floors: map<int, real>, a: nat, b: nat, len: nat)
    requires a + len < |samples| && b + len < |samples| && FloorsCover(samples, floors)
    requires Shape(samples, floors, a, len) == Shape(samples, floors, b, len)
    ensures BlockSum(samples, floors, a, len) == BlockSum(samples, floors, b, len)
  {
    if len > 0 {
      var shapeA, shapeB := Shape(samples, floors, a, len), Shape(samples, floors, b, len);
      assert shapeA[..len - 1] == Shape(samples, floors, a, len - 1);
      assert shapeB[..len - 1] == Shape(samples, floors, b, len - 1);
      EqualBlocks(samples, floors, a, b, len - 1);
      assert shapeA[len - 1] == shapeB[len - 1];
    }
  }

  /**
   * Log-frequency translation invariance: two notes whose points have the
   * same intensities, floors and log-frequency steps (including the step
   * to the point after the last) get equal integrals.
   */
  lemma EqualNotesEqualIntegrals(samples: seq<Sample>, floors: map<int, real>, key1: string, key2: string, a: nat, b: nat, len: nat)
    requires a + len < |samples| && b + len < |samples| && FloorsCover(samples, floors)
    requires forall j | 0 <= j < |samples| :: samples[j].key == key1 <==> a <= j < a + len
    requires forall j | 0 <= j < |samples| :: samples[j].key == key2 <==> b <= j < b + len
    requires Shape(samples, floors, a, len) == Shape(samples, floors, b, len)
    ensures Integral(samples, floors, key1, |samples|) == Integral(samples, floors, key2, |samples|)
  {
    IntegralOfBlock(samples, floors, key1, a, len, |samples|);
    IntegralOfBlock(samples, floors, key2, b, len, |samples|);
    EqualBlocks(samples, floors, a, b, len);
  }
}
