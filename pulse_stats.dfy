/**
 * The rolling-average window of the pulse-burst task (src/pulse_tasks.cpp):
 * a ring of AVG_WINDOW slots, a write cursor and a saturating count of
 * valid slots. The window's meaning is given by the history of valid bursts
 * recorded since the last reset; these lemmas show that the ring always
 * holds the most recent of them and that summing its first `validBursts`
 * slots sums exactly those bursts.
 */
module PulseStats {
  import opened Common
  import opened PulseTiming

  /** avgWindow: the number of bursts averaged. */
  const AVG_WINDOW: int := 10

  /**
   * One slot of the window: the five quantities the source keeps in five
   * parallel arrays (burstCounts, frequencies, firstPulsePeriods,
   * burstDurations, offPeriods), always written at the same index. Also
   * used for their running totals.
   */
  datatype Sample = Sample(
    pulseCount: int,
    frequencyKHz: real,
    firstPulsePeriodUs: int,
    burstDurationUs: int,
    offPeriodUs: int)

  /** A cleared slot, as `memset` leaves it. */
  const ZeroSample := Sample(0, 0.0, 0, 0, 0)

  /** The five quantities of a published result that enter the window. */
  function SampleOf(r: BurstResult): Sample {
    Sample(r.pulseCount, r.frequencyKHz, r.firstPulsePeriodUs, r.burstDurationUs, r.offPeriodUs)
  }

  function Add(a: Sample, b: Sample): Sample {
    Sample(a.pulseCount + b.pulseCount, a.frequencyKHz + b.frequencyKHz,
           a.firstPulsePeriodUs + b.firstPulsePeriodUs, a.burstDurationUs + b.burstDurationUs,
           a.offPeriodUs + b.offPeriodUs)
  }

  /** Field-wise totals of `s`, accumulated front to back as the averaging loop does. */
  function Sum(s: seq<Sample>): Sample
    decreases |s|
  {
    if s == [] then ZeroSample else Add(Sum(s[..|s| - 1]), s[|s| - 1])
  }

  /** The rolling means: each total divided by the number of bursts in the window. */
  datatype Averages = Averages(
    pulseCount: real,
    frequencyKHz: real,
    firstPulsePeriodUs: real,
    burstDurationUs: real,
    offPeriodUs: real)

  function Mean(total: Sample, n: int): Averages
    requires n > 0
  {
    var d := n as real;
    Averages(total.pulseCount as real / d, total.frequencyKHz / d,
             total.firstPulsePeriodUs as real / d, total.burstDurationUs as real / d,
             total.offPeriodUs as real / d)
  }

  /** The bursts the window should hold: the last AVG_WINDOW of the history, oldest first. */
  function Recent(history: seq<Sample>): (r: seq<Sample>)
    ensures |r| == Min(|history|, AVG_WINDOW)
  {
    history[|history| - Min(|history|, AVG_WINDOW)..]
  }

  /** `s` turned so that its last `k` elements come first. */
  function RotatedBy(s: seq<Sample>, k: int): seq<Sample>
    requires 0 <= k <= |s|
  {
    s[|s| - k..] + s[..|s| - k]
  }

  /**
   * The window invariant. `w` is the ring, `avgIndex` the next slot to
   * write, `validBursts` the number of valid slots, `history` the valid
   * bursts recorded since the last reset. Until the ring is full, the
   * cursor equals the count and the ring is Filling; once full, it is Full.
   */
  ghost predicate WindowHolds(w: seq<Sample>, avgIndex: int, validBursts: int, history: seq<Sample>) {
    || (0 <= validBursts < AVG_WINDOW && avgIndex == validBursts && Filling(w, validBursts, history))
    || (validBursts == AVG_WINDOW && Full(w, avgIndex, history))
  }

  /** A ring not yet full: its first `n` slots are the history in order and the rest are cleared. */
  ghost predicate Filling(w: seq<Sample>, n: int, history: seq<Sample>) {
    && |w| == AVG_WINDOW
    && 0 <= n < AVG_WINDOW
    && |history| == n
    && w[..n] == history
    && forall k :: n <= k < AVG_WINDOW ==> w[k] == ZeroSample
  }

  /** A full ring: the most recent AVG_WINDOW bursts, the newest just before the cursor `a`. */
  ghost predicate Full(w: seq<Sample>, a: int, history: seq<Sample>) {
    && 0 <= a < AVG_WINDOW
    && |history| >= AVG_WINDOW
    && w == RotatedBy(Recent(history), a)
  }

  /** The cleared window (after `memset` and zeroing the cursor and count) holds the empty history. */
  lemma ClearedWindow()
    ensures WindowHolds(seq(AVG_WINDOW, _ => ZeroSample), 0, 0, [])
  {
    assert Filling(seq(AVG_WINDOW, _ => ZeroSample), 0, []);
  }

  /**
   * Writing slot `avgIndex`, advancing the cursor modulo AVG_WINDOW and
   * incrementing the count up to AVG_WINDOW records one more burst: the new
   * ring holds the history extended by `x`. The ring always has
   * AVG_WINDOW slots, and the count is the history's length up to
   * AVG_WINDOW.
   */
  lemma InsertKeeps(w: seq<Sample>, avgIndex: int, validBursts: int, history: seq<Sample>, x: Sample)
    requires WindowHolds(w, avgIndex, validBursts, history)
    ensures |w| == AVG_WINDOW && 0 <= avgIndex < AVG_WINDOW && validBursts == Min(|history|, AVG_WINDOW)
    ensures WindowHolds(w[avgIndex := x], (avgIndex + 1) % AVG_WINDOW,
                        if validBursts < AVG_WINDOW then validBursts + 1 else validBursts,
                        history + [x])
  {
    if validBursts < AVG_WINDOW - 1 {
      InsertFilling(w, validBursts, history, x);
    } else if validBursts == AVG_WINDOW - 1 {
      FillingCompletes(w, history, x);
    } else {
      InsertFull(w, avgIndex, history, x);
    }
  }

  /** Insertion while the ring has room for more than this burst: it goes to slot `n`. */
  lemma InsertFilling(w: seq<Sample>, n: int, history: seq<Sample>, x: Sample)
    requires Filling(w, n, history) && n + 1 < AVG_WINDOW
    ensures Filling(w[n := x], n + 1, history + [x])
  {
    FilledPrefix(w, n, history, x);
    var w' := w[n := x];
    forall k | n + 1 <= k < AVG_WINDOW
      ensures w'[k] == ZeroSample
    {
      assert w'[k] == w[k];
    }
  }

  /** The burst that fills the last free slot makes the ring full, with the cursor back at 0. */
  lemma FillingCompletes(w: seq<Sample>, history: seq<Sample>, x: Sample)
    requires Filling(w, AVG_WINDOW - 1, history)
    ensures Full(w[AVG_WINDOW - 1 := x], 0, history + [x])
  {
    var h' := history + [x];
    var w' := w[AVG_WINDOW - 1 := x];
    FilledPrefix(w, AVG_WINDOW - 1, history, x);
    assert Recent(h') == h';
    assert w' == w'[..AVG_WINDOW];
    assert RotatedBy(h', 0) == h';
  }

  /** Writing the next burst just after the history's slots extends them by that burst. */
  lemma FilledPrefix(w: seq<Sample>, n: int, history: seq<Sample>, x: Sample)
    requires 0 <= n < |w| && w[..n] == history
    ensures w[n := x][..n + 1] == history + [x]
  {
    var w' := w[n := x];
    forall k | 0 <= k < n + 1
      ensures w'[..n + 1][k] == (history + [x])[k]
    {
      if k < n {
        assert w[..n][k] == history[k];
      }
    }
  }

  /** Insertion into a full ring: the oldest burst, at the cursor, is overwritten. */
  lemma InsertFull(w: seq<Sample>, avgIndex: int, history: seq<Sample>, x: Sample)
    requires Full(w, avgIndex, history)
    ensures Full(w[avgIndex := x], (avgIndex + 1) % AVG_WINDOW, history + [x])
  {
    var r := Recent(history);
    RecentAppend(history, x);
    if avgIndex < AVG_WINDOW - 1 {
      RotateOverwrite(r, x, avgIndex);
    } else {
      RingSlots(w, r, avgIndex);
      assert RotatedBy(r[1..] + [x], 0) == r[1..] + [x];
      assert w[avgIndex := x] == r[1..] + [x];
    }
  }

  /** Once the history fills the window, a new burst pushes the oldest one out of it. */
  lemma RecentAppend(history: seq<Sample>, x: Sample)
    requires |history| >= AVG_WINDOW
    ensures Recent(history + [x]) == Recent(history)[1..] + [x]
  {
    var h' := history + [x];
    assert Recent(history) == history[|history| - AVG_WINDOW..];
    assert Recent(h') == h'[|h'| - AVG_WINDOW..];
  }

  /** Overwriting the oldest slot `a` of a rotated ring gives the ring of the shifted window rotated by `a + 1`. */
  lemma RotateOverwrite(r: seq<Sample>, x: Sample, a: int)
    requires |r| == AVG_WINDOW && 0 <= a < AVG_WINDOW - 1
    ensures RotatedBy(r, a)[a := x] == RotatedBy(r[1..] + [x], a + 1)
  {
    var w := RotatedBy(r, a);
    var r' := r[1..] + [x];
    var target := RotatedBy(r', a + 1);
    RingSlots(w, r, a);
    forall k | 0 <= k < AVG_WINDOW
      ensures w[a := x][k] == target[k]
    {
      if k < a + 1 {
        assert target[k] == r'[AVG_WINDOW - a - 1 + k];
      } else {
        assert target[k] == r'[k - a - 1];
      }
    }
  }

  /** Slot by slot, a full ring rotated by `a`: below the cursor the newest bursts, from it the oldest. */
  lemma RingSlots(w: seq<Sample>, r: seq<Sample>, a: int)
    requires |r| == AVG_WINDOW && 0 <= a < AVG_WINDOW && w == RotatedBy(r, a)
    ensures forall k :: 0 <= k < a ==> w[k] == r[AVG_WINDOW - a + k]
    ensures forall k :: a <= k < AVG_WINDOW ==> w[k] == r[k - a]
  {
  }

  lemma AddZero(a: Sample)
    ensures Add(a, ZeroSample) == a && Add(ZeroSample, a) == a
  {
  }

  /** Totals of a concatenation are the totals of the parts added. */
  lemma {:induction false} SumConcat(a: seq<Sample>, b: seq<Sample>)
    ensures Sum(a + b) == Add(Sum(a), Sum(b))
    decreases |b|
  {
    if b == [] {
      assert a + b == a;
      AddZero(Sum(a));
    } else {
      var b' := b[..|b| - 1];
      assert (a + b)[..|a + b| - 1] == a + b';
      assert (a + b)[|a + b| - 1] == b[|b| - 1];
      SumConcat(a, b');
    }
  }

  /** Turning the ring does not change its totals. */
  lemma SumRotated(s: seq<Sample>, k: int)
    requires 0 <= k <= |s|
    ensures Sum(RotatedBy(s, k)) == Sum(s)
  {
    var tail, head := s[|s| - k..], s[..|s| - k];
    assert RotatedBy(s, k) == tail + head;
    assert head + tail == s;
    SumConcat(tail, head);
    SumConcat(head, tail);
    AddCommutes(Sum(tail), Sum(head));
  }

  lemma AddCommutes(a: Sample, b: Sample)
    ensures Add(a, b) == Add(b, a)
  {
  }

  /**
   * The averaging loop over slots 0..validBursts-1 sums exactly the most
   * recent min(n, AVG_WINDOW) bursts since the last reset, whatever the
   * ring's rotation.
   */
  lemma WindowSum(w: seq<Sample>, avgIndex: int, validBursts: int, history: seq<Sample>)
    requires WindowHolds(w, avgIndex, validBursts, history)
    ensures 0 <= validBursts <= |w|
    ensures Sum(w[..validBursts]) == Sum(Recent(history))
  {
    if validBursts < AVG_WINDOW {
      assert Recent(history) == history;
    } else {
      assert w[..validBursts] == w;
      SumRotated(Recent(history), avgIndex);
    }
  }
}
