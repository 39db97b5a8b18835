/** Melody scheduling and overlap-add mixing of human_music.py.

    `generate_music` builds a 40-step melody out of a 4-step motif, allocates a
    silent master buffer two seconds longer than the melody, and adds one
    fixed-length note buffer per non-rest step into it, step `i` starting half
    a second after step `i - 1`.  Sample values are abstracted: a `Voice`
    gives the value of sample `k` of the note for scale degree `d`, so what is
    modelled (and proved) is the index arithmetic, the in-bounds guarantee of
    the slice-add, rest skipping and additive accumulation. */
module HumanMusic {
  import opened Options

  /** Samples per second of every buffer. */
  const SampleRate: nat := 44100

  /** The scale-degree sentinel of a silent step. */
  const Rest: int := -1

  /** The 4-step cell of scale-degree offsets the melody repeats. */
  const Motif: seq<int> := [0, 1, 0, -1]

  /** How many times the motif is repeated. */
  const MotifRepeats: nat := 10

  /** Value of sample `k` of the note buffer for scale degree `d`; stands for
      the envelope-shaped harmonic sum, which is floating point. */
  type Voice = (int, nat) -> int

  /** The reason a slice-add cannot proceed: the slice, clipped to the
      buffer, is shorter than the note and the note cannot be broadcast. */
  datatype PlaceError = ShapeMismatch(sliceLength: nat, noteLength: nat)

  // ---------------------------------------------------------------------------
  // The step sequence

  /** `n` copies of `s`, one after the other (`np.array([s] * n).flatten()`). */
  function Repeat(s: seq<int>, n: nat): (r: seq<int>)
    ensures |r| == |s| * n
    ensures forall i :: 0 <= i < |r| ==> r[i] == s[i % |s|]
  {
    if n == 0 then []
    else
      var rest := Repeat(s, n - 1);
      assert |s| * n == |s| + |s| * (n - 1);
      assert forall i :: 0 <= i < |s| * n ==> (s + rest)[i] == s[i % |s|] by {
        forall i | 0 <= i < |s| * n
          ensures (s + rest)[i] == s[i % |s|]
        {
          if i >= |s| {
            ModShift(i - |s|, |s|);
          } else {
            DivModUnique(i, |s|, 0, i);
          }
        }
      }
      s + rest
  }

  /** Shifting by the modulus keeps the remainder. */
  lemma ModShift(j: nat, m: nat)
    requires m > 0
    ensures (j + m) % m == j % m
  {
    var q, r := j / m, j % m;
    assert j + m == (q + 1) * m + r;
    DivModUnique(j + m, m, q + 1, r);
  }

  /** Quotient and remainder are the only such pair. */
  lemma DivModUnique(x: int, m: nat, q: int, r: int)
    requires m > 0 && 0 <= r < m && x == q * m + r
    ensures q == x / m && r == x % m
  {
    var q', r' := x / m, x % m;
    var d := q - q';
    assert d * m == r' - r;
    if d >= 1 {
      MulMonotone(1, d, m);
    }
  }

  /** The melody: the motif flattened ten times over. */
  function Steps(): (r: seq<int>)
    ensures |r| == |Motif| * MotifRepeats == 40
    ensures forall i :: 0 <= i < |r| ==> r[i] == Motif[i % 4]
  {
    Repeat(Motif, MotifRepeats)
  }

  // ---------------------------------------------------------------------------
  // Buffer lengths and indices

  /** Length of every note buffer, `int(sample_rate * 1.5)`: the largest whole
      number of samples that fits in one and a half seconds. */
  function NoteLength(sr: nat): (r: nat)
    ensures 2 * r <= 3 * sr < 2 * r + 2
  {
    sr * 3 / 2
  }

  /** First master index of step `i`, `int(i * sample_rate * 0.5)`: the
      largest sample index not after `i` half-seconds. */
  function StartIndex(i: nat, sr: nat): (r: nat)
    ensures 2 * r <= i * sr < 2 * r + 2
  {
    i * sr / 2
  }

  /** Length of the master buffer for a melody of `steps` steps: two seconds
      more than one second per step, which leaves room for every step's note
      buffer, whatever the sample rate. */
  function MasterLength(steps: nat, sr: nat): (r: nat)
    ensures r >= 2 * sr
    ensures forall i :: 0 <= i < steps ==> StartIndex(i, sr) + NoteLength(sr) <= r
  {
    assert forall i :: 0 <= i < steps ==> StartIndex(i, sr) + NoteLength(sr) <= (steps + 2) * sr by {
      forall i | 0 <= i < steps
        ensures StartIndex(i, sr) + NoteLength(sr) <= (steps + 2) * sr
      {
        assert 2 * (StartIndex(i, sr) + NoteLength(sr)) <= (i + 3) * sr;
        MulMonotone(i + 3, 2 * (steps + 2), sr);
      }
    }
    MulMonotone(2, steps + 2, sr);
    (steps + 2) * sr
  }

  /** `n` samples of silence. */
  function Zeros(n: nat): (r: seq<int>)
    ensures |r| == n
    ensures forall k :: 0 <= k < n ==> r[k] == 0
  {
    seq(n, _ => 0)
  }

  /** The note buffer of `generate_sine`: one sample per point of a
      1.5-second time axis, whatever the scale degree. */
  function GenerateSine(sr: nat, degree: int, voice: Voice): (r: seq<int>)
    ensures |r| == NoteLength(sr)
    ensures forall k :: 0 <= k < |r| ==> r[k] == voice(degree, k)
  {
    seq(NoteLength(sr), k requires 0 <= k => voice(degree, k))
  }

  // ---------------------------------------------------------------------------
  // Overlap-add

  /** Elementwise sum of two buffers of equal length. */
  function AddPointwise(a: seq<int>, b: seq<int>): (r: seq<int>)
    requires |a| == |b|
    ensures |r| == |a|
    ensures forall i :: 0 <= i < |r| ==> r[i] == a[i] + b[i]
  {
    if |a| == 0 then []
    else [a[0] + b[0]] + AddPointwise(a[1..], b[1..])
  }

  /** Whether master index `k` lies in `[start, start + len)`. */
  predicate Covers(start: nat, len: nat, k: int)
  {
    start <= k < start + len
  }

  /** `buf[start:start + len(tone)] += tone` on a one-dimensional float array:
      the slice is clipped to the buffer; the add succeeds when the clipped
      slice is as long as `tone`, or when `tone` has at most one sample (it
      then broadcasts onto a slice that is empty); otherwise it raises. */
  function AddAt(buf: seq<int>, start: nat, tone: seq<int>): (r: Result<seq<int>, PlaceError>)
    ensures r.Success? <==> start + |tone| <= |buf| || |tone| <= 1
    ensures r.Success? ==> |r.value| == |buf|
    ensures r.Success? ==> forall k :: 0 <= k < |buf| ==>
      r.value[k] == buf[k] + (if Covers(start, |tone|, k) then tone[k - start] else 0)
  {
    if start + |tone| <= |buf| then
      Success(buf[..start] + AddPointwise(buf[start..start + |tone|], tone) + buf[start + |tone|..])
    else if |tone| <= 1 then
      Success(buf)
    else
      Failure(ShapeMismatch(if start < |buf| then |buf| - start else 0, |tone|))
  }

  /** What step `i` of `notes` adds at master index `k`: the matching sample
      of its note buffer when the step sounds and its range covers `k`, and
      nothing otherwise. */
  function Contribution(notes: seq<int>, i: nat, sr: nat, voice: Voice, k: int): int
    requires i < |notes|
  {
    if notes[i] != Rest && Covers(StartIndex(i, sr), NoteLength(sr), k)
    then voice(notes[i], k - StartIndex(i, sr))
    else 0
  }

  /** The sum of the contributions of steps `0 .. n - 1` at index `k`. */
  function Mixed(notes: seq<int>, n: nat, sr: nat, voice: Voice, k: int): int
    requires n <= |notes|
  {
    if n == 0 then 0
    else Mixed(notes, n - 1, sr, voice, k) + Contribution(notes, n - 1, sr, voice, k)
  }

  /** Every step's note buffer ends inside the master buffer, whatever the
      steps and the sample rate. */
  lemma PlacementInBounds(steps: nat, i: nat, sr: nat)
    requires i < steps
    ensures StartIndex(i, sr) + NoteLength(sr) <= MasterLength(steps, sr)
  {
  }

  lemma MulMonotone(a: nat, b: nat, c: nat)
    requires a <= b
    ensures a * c <= b * c
  {
  }

  /** One loop iteration of `generate_music`: a rest step is skipped, any
      other step adds its note buffer at its start index. */
  function PlaceStep(buf: seq<int>, notes: seq<int>, i: nat, sr: nat, voice: Voice): (r: Result<seq<int>, PlaceError>)
    requires i < |notes|
    ensures notes[i] == Rest ==> r == Success(buf)
    ensures |buf| == MasterLength(|notes|, sr) ==> r.Success?
    ensures r.Success? ==> |r.value| == |buf|
    ensures r.Success? ==> forall k :: 0 <= k < |buf| ==>
      r.value[k] == buf[k] + Contribution(notes, i, sr, voice, k)
  {
    if notes[i] == Rest then Success(buf)
    else
      PlacementInBounds(|notes|, i, sr);
      AddAt(buf, StartIndex(i, sr), GenerateSine(sr, notes[i], voice))
  }

  /** The master buffer after the first `n` iterations of the mixing loop:
      it keeps the master length, never raises, and each index holds the sum
      of the contributions of steps `0 .. n - 1`. */
  function Render(notes: seq<int>, n: nat, sr: nat, voice: Voice): (r: seq<int>)
    requires n <= |notes|
    ensures |r| == MasterLength(|notes|, sr)
    ensures forall k :: 0 <= k < |r| ==> r[k] == Mixed(notes, n, sr, voice, k)
  {
    if n == 0 then Zeros(MasterLength(|notes|, sr))
    else PlaceStep(Render(notes, n - 1, sr, voice), notes, n - 1, sr, voice).value
  }

  /** The mixing loop of `generate_music` over any step sequence: it computes
      the fold `Render` over all steps, so the master buffer is
      `(len(notes) + 2) * sr` samples long and each index holds the sum of the
      contributions of every sounding step whose range covers it. */
  method Compose(notes: seq<int>, sr: nat, voice: Voice) returns (samples: seq<int>)
    ensures samples == Render(notes, |notes|, sr, voice)
    ensures |samples| == MasterLength(|notes|, sr)
    ensures forall k :: 0 <= k < |samples| ==> samples[k] == Mixed(notes, |notes|, sr, voice, k)
  {
    samples := Zeros(MasterLength(|notes|, sr));
    var i := 0;
    while i < |notes|
      invariant 0 <= i <= |notes|
      invariant samples == Render(notes, i, sr, voice)
    {
      samples := PlaceStep(samples, notes, i, sr, voice).value;
      i := i + 1;
    }
  }

  /** `generate_music` up to (not including) its final normalisation: the
      40-step melody at 44100 samples per second mixes into 42 seconds of
      samples. */
  method GenerateMusic(voice: Voice) returns (samples: seq<int>)
    ensures |samples| == 42 * SampleRate == 1852200
    ensures forall k :: 0 <= k < |samples| ==> samples[k] == Mixed(Steps(), 40, SampleRate, voice, k)
  {
    samples := Compose(Steps(), SampleRate, voice);
  }

  // ---------------------------------------------------------------------------
  // Properties

  /** Note buffers are 66150 samples long, for every scale degree. */
  lemma NoteLengthIndependentOfDegree(d1: int, d2: int, voice: Voice)
    ensures |GenerateSine(SampleRate, d1, voice)| == |GenerateSine(SampleRate, d2, voice)| == 66150
  {
  }

  /** Step `i` starts at `22050 * i` and ends `66150` samples later. */
  lemma DefaultStepRange(i: nat)
    ensures StartIndex(i, SampleRate) == 22050 * i
    ensures StartIndex(i, SampleRate) + NoteLength(SampleRate) == 22050 * i + 66150
  {
  }

  /** Steps 3, 7, ..., 39 are rests, so the last sounding step is 38, whose
      note ends at 904050, well inside the 1852200-sample master buffer. */
  lemma LastSoundingStep()
    ensures Steps()[38] != Rest && Steps()[39] == Rest
    ensures forall i :: 0 <= i < 40 ==> (Steps()[i] == Rest <==> i % 4 == 3)
    ensures StartIndex(38, SampleRate) + NoteLength(SampleRate) == 904050
    ensures 904050 <= MasterLength(|Steps()|, SampleRate) == 1852200
  {
  }

  /** Mixing nothing but rests leaves the master buffer silent. */
  lemma {:induction false} RestsOnlyIsSilence(notes: seq<int>, n: nat, sr: nat, voice: Voice, k: int)
    requires n <= |notes|
    requires forall i :: 0 <= i < n ==> notes[i] == Rest
    ensures Mixed(notes, n, sr, voice, k) == 0
  {
    if n > 0 {
      RestsOnlyIsSilence(notes, n - 1, sr, voice, k);
    }
  }

  /** With no steps mixed, the loop yields the all-zero master buffer. */
  lemma NoStepsIsSilence(notes: seq<int>, sr: nat, voice: Voice)
    ensures Render(notes, 0, sr, voice) == Zeros(2 * sr + |notes| * sr)
  {
  }

  /** Indices outside every step's range receive nothing: the mix after `n`
      steps is zero at any negative index and at or after the end of step
      `n - 1`, the last one mixed. */
  lemma {:induction false} MixedZeroPastLastNote(notes: seq<int>, n: nat, sr: nat, voice: Voice, k: int)
    requires 0 < n <= |notes|
    requires k >= StartIndex(n - 1, sr) + NoteLength(sr) || k < 0
    ensures Mixed(notes, n, sr, voice, k) == 0
  {
    if n > 1 {
      assert StartIndex(n - 2, sr) <= StartIndex(n - 1, sr) by {
        MulMonotone(n - 2, n - 1, sr);
      }
      MixedZeroPastLastNote(notes, n - 1, sr, voice, k);
    }
  }

  /** The contributions of steps `j .. len(notes) - 1`, summed from the last
      step down. */
  function MixedDown(notes: seq<int>, j: nat, sr: nat, voice: Voice, k: int): int
    requires j <= |notes|
    decreases |notes| - j
  {
    if j == |notes| then 0
    else Contribution(notes, j, sr, voice, k) + MixedDown(notes, j + 1, sr, voice, k)
  }

  /** Summing from the front and summing from the back agree. */
  lemma {:induction false} MixedSplit(notes: seq<int>, n: nat, sr: nat, voice: Voice, k: int)
    requires n <= |notes|
    ensures Mixed(notes, n, sr, voice, k) + MixedDown(notes, n, sr, voice, k) == MixedDown(notes, 0, sr, voice, k)
  {
    if n > 0 {
      MixedSplit(notes, n - 1, sr, voice, k);
    }
  }

  /** The mixing loop run backwards: steps `len(notes) - 1` down to `j` are
      placed, last step first. */
  function RenderBackward(notes: seq<int>, j: nat, sr: nat, voice: Voice): (r: seq<int>)
    requires j <= |notes|
    ensures |r| == MasterLength(|notes|, sr)
    ensures forall k :: 0 <= k < |r| ==> r[k] == MixedDown(notes, j, sr, voice, k)
    decreases |notes| - j
  {
    if j == |notes| then Zeros(MasterLength(|notes|, sr))
    else PlaceStep(RenderBackward(notes, j + 1, sr, voice), notes, j, sr, voice).value
  }

  /** Placing the steps last-to-first yields the same master buffer as the
      loop's first-to-last order. */
  lemma ReverseOrderSameMix(notes: seq<int>, sr: nat, voice: Voice)
    ensures RenderBackward(notes, 0, sr, voice) == Render(notes, |notes|, sr, voice)
  {
    var b, f := RenderBackward(notes, 0, sr, voice), Render(notes, |notes|, sr, voice);
    forall k | 0 <= k < |b|
      ensures b[k] == f[k]
    {
      MixedSplit(notes, |notes|, sr, voice, k);
    }
  }

  /** Two slice-adds that both fit commute: the mix does not depend on the
      order in which notes are placed. */
  lemma PlacementsCommute(buf: seq<int>, s1: nat, t1: seq<int>, s2: nat, t2: seq<int>)
    requires s1 + |t1| <= |buf| && s2 + |t2| <= |buf|
    ensures AddAt(buf, s1, t1).Success? && AddAt(buf, s2, t2).Success?
    ensures AddAt(AddAt(buf, s1, t1).value, s2, t2) == AddAt(AddAt(buf, s2, t2).value, s1, t1)
  {
    var a, b := AddAt(buf, s1, t1).value, AddAt(buf, s2, t2).value;
    var ab, ba := AddAt(a, s2, t2), AddAt(b, s1, t1);
    assert ab.Success? && ba.Success?;
    assert |ab.value| == |ba.value| == |buf|;
    assert forall k :: 0 <= k < |buf| ==> ab.value[k] == ba.value[k];
    assert ab.value == ba.value;
  }

  /** A single note placed at index 0 of silence reproduces the note's own
      samples in the matching range and silence after it. */
  lemma SingleNoteIntoSilence(len: nat, tone: seq<int>)
    requires |tone| <= len
    ensures AddAt(Zeros(len), 0, tone).Success?
    ensures AddAt(Zeros(len), 0, tone).value == tone + Zeros(len - |tone|)
  {
    var r := AddAt(Zeros(len), 0, tone).value;
    assert forall k :: 0 <= k < len ==> r[k] == (tone + Zeros(len - |tone|))[k];
  }

  /** A slice-add that overruns the buffer with a note of two or more samples
      is the error numpy raises; it never silently truncates the note. */
  lemma OverrunRaises(buf: seq<int>, start: nat, tone: seq<int>)
    requires start + |tone| > |buf| && |tone| >= 2
    ensures AddAt(buf, start, tone).Failure?
  {
  }
}
