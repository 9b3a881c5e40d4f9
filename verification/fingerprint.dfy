/**
  Peak picking and token generation: the part of create_fingerprint that
  runs after the decibel spectrogram exists.

  The spectrogram is an integer grid indexed [frequency bin][time frame];
  its median and the three duration-derived integers (int(duration * 50),
  int(duration / 10), int(duration * 1000)) are inputs.
*/
module Fingerprint {
  import opened Wrappers

  type Grid = seq<seq<int>>

  /** Energy margin above the median that a peak must exceed. */
  const Margin := 15
  /** Smallest accepted time delta between anchor and target. */
  const MinDelta := 1
  /** Anchor and target frequencies must differ by more than this. */
  const MinFreqGap := 4

  datatype Peak = Peak(freq: nat, time: nat, energy: int)

  /** (anchor frequency, target frequency, time delta, anchor time) */
  datatype Token = Token(anchorFreq: int, targetFreq: int, delta: int, anchorTime: int)

  /** The three integers create_fingerprint derives from the clip duration. */
  datatype DurationTerms = DurationTerms(times50: int, div10: int, times1000: int)

  // ---------------------------------------------------------------------
  // Budgets

  function MaxPeaks(times50: int): (r: nat)
    ensures 300 <= r <= 3000
    ensures 300 <= times50 <= 3000 ==> r == times50
  {
    Clamp(times50, 300, 3000)
  }

  function MaxDelta(div10: int): (r: nat)
    ensures 10 <= r <= 50
    ensures 10 <= div10 <= 50 ==> r == div10
  {
    Clamp(div10, 10, 50)
  }

  function MaxFingerprints(times1000: int): (r: nat)
    ensures 5000 <= r <= 20000
    ensures 5000 <= times1000 <= 20000 ==> r == times1000
  {
    Clamp(times1000, 5000, 20000)
  }

  // ---------------------------------------------------------------------
  // The grid and the local-maximum filter

  /** A numpy array: every frequency row has the same number of frames. */
  predicate Rectangular(g: Grid)
  {
    forall f :: 0 <= f < |g| ==> |g[f]| == |g[0]|
  }

  function Width(g: Grid): nat
  {
    if |g| == 0 then 0 else |g[0]|
  }

  predicate InGrid(g: Grid, f: int, t: int)
  {
    0 <= f < |g| && 0 <= t < |g[f]|
  }

  /**
    The 'reflect' boundary mode of scipy.ndimage (d c b a | a b c d | d c b a)
    for an index at most two cells beyond either edge of an axis of length n.
  */
  function Reflect(i: int, n: nat): (r: nat)
    requires 0 < n && -2 <= i < n + 2
    ensures r < n
  {
    if 0 <= i < n then i
    else if n == 1 then 0
    else if i < 0 then -i - 1
    else 2 * n - 1 - i
  }

  /**
    The footprint iterate_structure(generate_binary_structure(2, 1), 2):
    the cross of radius one dilated once, i.e. the Manhattan diamond of radius two.
  */
  const Footprint: seq<(int, int)> :=
    [(-2, 0), (-1, -1), (-1, 0), (-1, 1), (0, -2), (0, -1), (0, 0),
     (0, 1), (0, 2), (1, -1), (1, 0), (1, 1), (2, 0)]

  predicate SmallOffsets(offs: seq<(int, int)>)
  {
    forall k :: 0 <= k < |offs| ==> Abs(offs[k].0) <= 2 && Abs(offs[k].1) <= 2
  }

  /** The grid value the filter sees at offset d from (f, t), boundary reflected. */
  function ReflectedAt(g: Grid, f: nat, t: nat, d: (int, int)): int
    requires Rectangular(g) && InGrid(g, f, t)
    requires Abs(d.0) <= 2 && Abs(d.1) <= 2
  {
    g[Reflect(f + d.0, |g|)][Reflect(t + d.1, Width(g))]
  }

  /** Maximum of the reflected values over a non-empty list of offsets. */
  function WindowMax(g: Grid, f: nat, t: nat, offs: seq<(int, int)>): (r: int)
    requires Rectangular(g) && InGrid(g, f, t)
    requires |offs| > 0 && SmallOffsets(offs)
    ensures forall k :: 0 <= k < |offs| ==> ReflectedAt(g, f, t, offs[k]) <= r
    ensures exists k :: 0 <= k < |offs| && r == ReflectedAt(g, f, t, offs[k])
  {
    if |offs| == 1 then ReflectedAt(g, f, t, offs[0])
    else
      var rest := WindowMax(g, f, t, offs[1..]);
      var here := ReflectedAt(g, f, t, offs[0]);
      assert forall k :: 1 <= k < |offs| ==> offs[k] == offs[1..][k - 1];
      if here >= rest then here else rest
  }

  /** maximum_filter(S_db, footprint=neighborhood) at one cell: never below the cell itself. */
  function FilterMax(g: Grid, f: nat, t: nat): (r: int)
    requires Rectangular(g) && InGrid(g, f, t)
    ensures g[f][t] <= r
  {
    FootprintIsSmall();
    assert ReflectedAt(g, f, t, Footprint[6]) == g[f][t];
    WindowMax(g, f, t, Footprint)
  }

  /** local_max: the filter's maximum equals the cell itself. */
  predicate LocalMax(g: Grid, f: nat, t: nat)
    requires Rectangular(g) && InGrid(g, f, t)
  {
    FilterMax(g, f, t) == g[f][t]
  }

  /** peaks = local_max and S_db > median + 15. */
  predicate IsPeak(g: Grid, median: int, f: nat, t: nat)
    requires Rectangular(g) && InGrid(g, f, t)
  {
    LocalMax(g, f, t) && g[f][t] > median + Margin
  }

  /** Reference definition: no in-grid cell within Manhattan distance 2 is louder. */
  ghost predicate DominatesNeighbourhood(g: Grid, f: nat, t: nat)
    requires InGrid(g, f, t)
  {
    forall f2, t2 :: InGrid(g, f2, t2) && Abs(f2 - f) + Abs(t2 - t) <= 2 ==> g[f2][t2] <= g[f][t]
  }

  lemma FootprintIsDiamond(df: int, dt: int)
    ensures (df, dt) in Footprint <==> Abs(df) + Abs(dt) <= 2
  {
  }

  /** A reflected index never lands farther from the centre than the offset itself. */
  lemma ReflectStaysNear(x: nat, d: int, n: nat)
    requires x < n && Abs(d) <= 2
    ensures Abs(Reflect(x + d, n) - x) <= Abs(d)
  {
    // Mirroring about an edge (scipy's 'reflect' mode) swaps the overshoot for
    // an equal or shorter step back inside the grid.
  }

  lemma FootprintIsSmall()
    ensures SmallOffsets(Footprint) && WithinDiamond(Footprint)
    ensures Footprint[6] == (0, 0)
  {
  }

  /** Every in-grid cell of the diamond is seen, unreflected, by the filter. */
  lemma NeighbourBelowFilterMax(g: Grid, f: nat, t: nat, f2: int, t2: int)
    requires Rectangular(g) && InGrid(g, f, t) && InGrid(g, f2, t2)
    requires Abs(f2 - f) + Abs(t2 - t) <= 2
    ensures g[f2][t2] <= FilterMax(g, f, t)
  {
    FootprintIsSmall();
    FootprintIsDiamond(f2 - f, t2 - t);
    var k :| 0 <= k < |Footprint| && Footprint[k] == (f2 - f, t2 - t);
    assert |g[f2]| == Width(g);
    assert ReflectedAt(g, f, t, Footprint[k]) == g[f2][t2];
  }

  predicate WithinDiamond(offs: seq<(int, int)>)
  {
    forall k :: 0 <= k < |offs| ==> Abs(offs[k].0) + Abs(offs[k].1) <= 2
  }

  /** The cell the filter reads at offset d lies in the grid, no farther than d. */
  lemma ReflectedCellIsNear(g: Grid, f: nat, t: nat, d: (int, int))
    requires Rectangular(g) && InGrid(g, f, t)
    requires Abs(d.0) <= 2 && Abs(d.1) <= 2
    ensures var f2 := Reflect(f + d.0, |g|);
      var t2 := Reflect(t + d.1, Width(g));
      InGrid(g, f2, t2) && Abs(f2 - f) + Abs(t2 - t) <= Abs(d.0) + Abs(d.1) &&
      ReflectedAt(g, f, t, d) == g[f2][t2]
  {
    ReflectStaysNear(f, d.0, |g|);
    ReflectStaysNear(t, d.1, Width(g));
  }

  /** The window maximum is the value of some in-grid cell within distance 2. */
  lemma WindowMaxIsANeighbour(g: Grid, f: nat, t: nat, offs: seq<(int, int)>)
    requires Rectangular(g) && InGrid(g, f, t)
    requires |offs| > 0 && SmallOffsets(offs) && WithinDiamond(offs)
    ensures exists f2, t2 :: InGrid(g, f2, t2) && Abs(f2 - f) + Abs(t2 - t) <= 2 && WindowMax(g, f, t, offs) == g[f2][t2]
  {
    var k :| 0 <= k < |offs| && WindowMax(g, f, t, offs) == ReflectedAt(g, f, t, offs[k]);
    ReflectedCellIsNear(g, f, t, offs[k]);
  }

  /** The filter maximum is the value of some in-grid cell of the diamond. */
  lemma FilterMaxIsANeighbour(g: Grid, f: nat, t: nat)
    requires Rectangular(g) && InGrid(g, f, t)
    ensures exists f2, t2 :: InGrid(g, f2, t2) && Abs(f2 - f) + Abs(t2 - t) <= 2 && FilterMax(g, f, t) == g[f2][t2]
  {
    FootprintIsSmall();
    WindowMaxIsANeighbour(g, f, t, Footprint);
  }

  /**
    With the reflect boundary, the filter maximum of a cell is the maximum over
    the in-grid cells of its radius-2 diamond, so the local-maximum test holds
    exactly when no in-grid neighbour is louder (plateaus qualify).
  */
  lemma {:induction false} LocalMaxIffDominates(g: Grid, f: nat, t: nat)
    requires Rectangular(g) && InGrid(g, f, t)
    ensures LocalMax(g, f, t) <==> DominatesNeighbourhood(g, f, t)
  {
    NeighbourBelowFilterMax(g, f, t, f, t);
    if LocalMax(g, f, t) {
      forall f2, t2 | InGrid(g, f2, t2) && Abs(f2 - f) + Abs(t2 - t) <= 2
        ensures g[f2][t2] <= g[f][t]
      {
        NeighbourBelowFilterMax(g, f, t, f2, t2);
      }
    }
    if DominatesNeighbourhood(g, f, t) {
      FilterMaxIsANeighbour(g, f, t);
    }
  }

  // ---------------------------------------------------------------------
  // Candidate peaks: np.where(peaks), in row-major order

  /** A peak record that names a peak cell of the grid and carries its energy. */
  predicate IsPeakCell(g: Grid, median: int, p: Peak)
    requires Rectangular(g)
  {
    InGrid(g, p.freq, p.time) && p.energy == g[p.freq][p.time] && IsPeak(g, median, p.freq, p.time)
  }

  /** The boolean array `peaks`: local maximum and above the threshold, cell by cell. */
  function PeakMask(g: Grid, median: int): (mask: seq<seq<bool>>)
    requires Rectangular(g)
    ensures |mask| == |g|
    ensures forall f :: 0 <= f < |g| ==> |mask[f]| == |g[f]|
    ensures forall f, t :: 0 <= f < |g| && 0 <= t < |g[f]| ==> mask[f][t] == IsPeak(g, median, f, t)
  {
    seq(|g|, f requires 0 <= f < |g| => seq(|g[f]|, t requires 0 <= t < |g[f]| => IsPeak(g, median, f, t)))
  }

  predicate SameShape(mask: seq<seq<bool>>, g: Grid)
  {
    |mask| == |g| && forall f :: 0 <= f < |g| ==> |mask[f]| == |g[f]|
  }

  /** A peak record naming a set cell of the mask, with that cell's energy. */
  predicate MaskedCell(g: Grid, mask: seq<seq<bool>>, p: Peak)
    requires SameShape(mask, g)
  {
    p.freq < |g| && p.time < |g[p.freq]| && mask[p.freq][p.time] && p.energy == g[p.freq][p.time]
  }

  /** Row-major (frequency first, then time) strict order. */
  predicate Before(p: Peak, q: Peak)
  {
    p.freq < q.freq || (p.freq == q.freq && p.time < q.time)
  }

  predicate RowMajor(s: seq<Peak>)
  {
    forall i, j :: 0 <= i < j < |s| ==> Before(s[i], s[j])
  }

  /** Set cells of row f at frames t and later. */
  function RowPeaks(g: Grid, mask: seq<seq<bool>>, f: nat, t: nat): (r: seq<Peak>)
    requires SameShape(mask, g) && f < |g|
    ensures forall p :: p in r <==> (p.freq == f && t <= p.time && MaskedCell(g, mask, p))
    ensures RowMajor(r)
    decreases |g[f]| - t
  {
    if t >= |g[f]| then []
    else
      var rest := RowPeaks(g, mask, f, t + 1);
      if mask[f][t] then
        var p := Peak(f, t, g[f][t]);
        assert forall j :: 0 <= j < |rest| ==> rest[j] in rest;
        [p] + rest
      else rest
  }

  /** Set cells of rows f and later, row by row. */
  function GridPeaks(g: Grid, mask: seq<seq<bool>>, f: nat): (r: seq<Peak>)
    requires SameShape(mask, g) && f <= |g|
    ensures forall p :: p in r <==> (f <= p.freq && MaskedCell(g, mask, p))
    ensures RowMajor(r)
    decreases |g| - f
  {
    if f == |g| then []
    else
      var row := RowPeaks(g, mask, f, 0);
      var rest := GridPeaks(g, mask, f + 1);
      assert forall i :: 0 <= i < |row| ==> row[i] in row;
      assert forall j :: 0 <= j < |rest| ==> rest[j] in rest;
      row + rest
  }

  /** The coordinates np.where(peaks) yields, paired with their energies. */
  function Candidates(g: Grid, median: int): (r: seq<Peak>)
    requires Rectangular(g)
    ensures forall p :: p in r <==> IsPeakCell(g, median, p)
    ensures RowMajor(r)
  {
    var mask := PeakMask(g, median);
    var r := GridPeaks(g, mask, 0);
    assert forall p :: MaskedCell(g, mask, p) <==> IsPeakCell(g, median, p);
    r
  }

  // ---------------------------------------------------------------------
  // Peak cap: argsort(peak_values)[-max_peaks:]

  predicate SortedByEnergy(s: seq<Peak>)
  {
    forall i, j :: 0 <= i < j < |s| ==> s[i].energy <= s[j].energy
  }

  lemma SortedPrepend(x: Peak, s: seq<Peak>)
    requires SortedByEnergy(s)
    requires s == [] || x.energy <= s[0].energy
    ensures SortedByEnergy([x] + s)
  {
  }

  /** One insertion step: p goes in front of the first peak at least as loud. */
  function InsertByEnergy(p: Peak, s: seq<Peak>): (r: seq<Peak>)
    requires SortedByEnergy(s)
    ensures SortedByEnergy(r)
    ensures multiset(r) == multiset(s) + multiset{p}
    ensures |r| == |s| + 1 && (r[0] == p || (s != [] && r[0] == s[0]))
  {
    if s == [] || p.energy <= s[0].energy then
      SortedPrepend(p, s);
      [p] + s
    else
      var rest := InsertByEnergy(p, s[1..]);
      assert s == [s[0]] + s[1..];
      assert multiset(s) == multiset{s[0]} + multiset(s[1..]);
      assert |s| > 1 ==> s[0].energy <= s[1].energy;
      SortedPrepend(s[0], rest);
      assert multiset([s[0]] + rest) == multiset{s[0]} + multiset(rest);
      [s[0]] + rest
  }

  /** Ascending order of energy: the order argsort yields. */
  function SortByEnergy(s: seq<Peak>): (r: seq<Peak>)
    ensures SortedByEnergy(r)
    ensures multiset(r) == multiset(s)
  {
    if s == [] then []
    else
      assert s == [s[0]] + s[1..];
      InsertByEnergy(s[0], SortByEnergy(s[1..]))
  }

  lemma TopSliceDominates(s: seq<Peak>, cut: nat)
    requires SortedByEnergy(s) && cut <= |s|
    ensures multiset(s) == multiset(s[..cut]) + multiset(s[cut..])
    ensures forall p, q :: p in s[cut..] && q in s[..cut] ==> q.energy <= p.energy
  {
    assert s == s[..cut] + s[cut..];
    forall p, q | p in s[cut..] && q in s[..cut]
      ensures q.energy <= p.energy
    {
      var j :| 0 <= j < |s[cut..]| && s[cut..][j] == p;
      var i :| 0 <= i < |s[..cut]| && s[..cut][i] == q;
      assert s[i] == q && s[cut + j] == p;
    }
  }

  lemma SortedSuffix(s: seq<Peak>, cut: nat)
    requires SortedByEnergy(s) && cut <= |s|
    ensures SortedByEnergy(s[cut..])
  {
  }

  /**
    The last n of a sorted rearrangement: a sub-multiset of the input, and
    any input peak with fewer copies kept than given is no louder than a
    kept one.
  */
  lemma {:induction false} TopSliceKeepsLoudest(cands: seq<Peak>, s: seq<Peak>, cut: nat)
    requires SortedByEnergy(s) && multiset(s) == multiset(cands) && cut <= |s|
    ensures multiset(s[cut..]) <= multiset(cands)
    ensures forall p, q :: p in s[cut..] && q in cands && multiset(s[cut..])[q] < multiset(cands)[q] ==>
                           q.energy <= p.energy
  {
    TopSliceDominates(s, cut);
    forall p, q | p in s[cut..] && q in cands && multiset(s[cut..])[q] < multiset(cands)[q]
      ensures q.energy <= p.energy
    {
      assert multiset(s[..cut])[q] > 0;
      assert q in s[..cut];
    }
  }

  /**
    The peak cap: kept unchanged when within budget, otherwise the max_peaks
    loudest candidates in ascending energy order.
  */
  function CapPeaks(cands: seq<Peak>, maxPeaks: nat): (r: seq<Peak>)
    ensures |cands| <= maxPeaks ==> r == cands
    ensures |cands| > maxPeaks ==> |r| == maxPeaks && SortedByEnergy(r)
    ensures multiset(r) <= multiset(cands)
    ensures forall p, q :: p in r && q in cands && multiset(r)[q] < multiset(cands)[q] ==> q.energy <= p.energy
  {
    if |cands| <= maxPeaks then cands
    else
      var s := SortByEnergy(cands);
      var cut := |s| - maxPeaks;
      TopSliceKeepsLoudest(cands, s, cut);
      SortedSuffix(s, cut);
      s[cut..]
  }

  /** The peak list create_fingerprint pairs: candidates after the cap. */
  function SelectPeaks(g: Grid, median: int, times50: int): (r: seq<Peak>)
    requires Rectangular(g)
    ensures |r| <= MaxPeaks(times50)
  {
    CapPeaks(Candidates(g, median), MaxPeaks(times50))
  }

  /**
    Every selected peak lies in the grid, carries its cell's energy, is strictly
    louder than median + 15 and is not beaten by any in-grid cell within
    Manhattan distance 2; a capped list holds exactly max_peaks peaks.
  */
  lemma {:induction false} SelectedPeaksAreLoudLocalMaxima(g: Grid, median: int, times50: int)
    requires Rectangular(g)
    ensures forall p :: p in SelectPeaks(g, median, times50) ==>
      InGrid(g, p.freq, p.time) && p.energy == g[p.freq][p.time] &&
      p.energy > median + Margin && DominatesNeighbourhood(g, p.freq, p.time)
    ensures |SelectPeaks(g, median, times50)| == Min(|Candidates(g, median)|, MaxPeaks(times50))
  {
    var cands := Candidates(g, median);
    var r := SelectPeaks(g, median, times50);
    forall p | p in r
      ensures InGrid(g, p.freq, p.time) && p.energy == g[p.freq][p.time]
      ensures p.energy > median + Margin && DominatesNeighbourhood(g, p.freq, p.time)
    {
      assert p in multiset(r);
      assert p in cands;
      LocalMaxIffDominates(g, p.freq, p.time);
    }
  }

  // ---------------------------------------------------------------------
  // Pairing: for i, for j > i, keep (i, j) when the filters pass

  /** The two filters of the inner loop, for list positions i and j. */
  predicate Accept(peaks: seq<Peak>, maxDelta: int, i: nat, j: nat)
    requires i < |peaks| && j < |peaks|
  {
    var dt: int := peaks[j].time - peaks[i].time;
    MinDelta <= dt <= maxDelta && Abs(peaks[j].freq - peaks[i].freq) > MinFreqGap
  }

  /** Lexicographic order on index pairs: by anchor, then by target. */
  predicate LexBefore(a: (nat, nat), b: (nat, nat))
  {
    a.0 < b.0 || (a.0 == b.0 && a.1 < b.1)
  }

  predicate LexSorted(ps: seq<(nat, nat)>)
  {
    forall k1, k2 :: 0 <= k1 < k2 < |ps| ==> LexBefore(ps[k1], ps[k2])
  }

  /** Accepted pairs (i, j) with i < j < hi, in increasing j. */
  function AnchorPairs(peaks: seq<Peak>, maxDelta: int, i: nat, hi: nat): seq<(nat, nat)>
    requires i < |peaks| && hi <= |peaks|
    decreases hi
  {
    if hi <= i + 1 then []
    else
      var front := AnchorPairs(peaks, maxDelta, i, hi - 1);
      if Accept(peaks, maxDelta, i, hi - 1) then front + [(i, hi - 1)] else front
  }

  /** Accepted pairs whose anchor position is below n, ordered by anchor then target. */
  function PairsBefore(peaks: seq<Peak>, maxDelta: int, n: nat): seq<(nat, nat)>
    requires n <= |peaks|
  {
    if n == 0 then []
    else PairsBefore(peaks, maxDelta, n - 1) + AnchorPairs(peaks, maxDelta, n - 1, |peaks|)
  }

  /**
    The inner loop for anchor i up to (excluding) hi: its pairs have anchor i and
    accepted targets in (i, hi), each accepted target occurs, targets increase.
  */
  lemma {:induction false} AnchorPairsSpec(peaks: seq<Peak>, maxDelta: int, i: nat, hi: nat)
    requires i < |peaks| && hi <= |peaks|
    ensures var r := AnchorPairs(peaks, maxDelta, i, hi);
      (forall k :: 0 <= k < |r| ==> r[k].0 == i && i < r[k].1 < hi && Accept(peaks, maxDelta, i, r[k].1)) &&
      (forall j :: i < j < hi && Accept(peaks, maxDelta, i, j) ==> (i, j) in r) &&
      LexSorted(r)
    decreases hi
  {
    if hi > i + 1 {
      AnchorPairsSpec(peaks, maxDelta, i, hi - 1);
      var front := AnchorPairs(peaks, maxDelta, i, hi - 1);
      if Accept(peaks, maxDelta, i, hi - 1) {
        var r := front + [(i, hi - 1)];
        assert forall k :: 0 <= k < |front| ==> r[k] == front[k];
        assert r[|front|] == (i, hi - 1);
      }
    }
  }

  /**
    The outer loop up to (excluding) anchor n: every pair is accepted, has its
    anchor below n and its target after the anchor; every accepted pair with
    anchor below n occurs; pairs are ordered by anchor, then target.
  */
  lemma {:induction false} PairsBeforeSpec(peaks: seq<Peak>, maxDelta: int, n: nat)
    requires n <= |peaks|
    ensures var r := PairsBefore(peaks, maxDelta, n);
      (forall k :: 0 <= k < |r| ==> r[k].0 < n && r[k].0 < r[k].1 < |peaks| && Accept(peaks, maxDelta, r[k].0, r[k].1)) &&
      (forall i, j :: 0 <= i < n && i < j < |peaks| && Accept(peaks, maxDelta, i, j) ==> (i, j) in r) &&
      LexSorted(r)
  {
    if n > 0 {
      var front := PairsBefore(peaks, maxDelta, n - 1);
      var last := AnchorPairs(peaks, maxDelta, n - 1, |peaks|);
      PairsBeforeSpec(peaks, maxDelta, n - 1);
      AnchorPairsSpec(peaks, maxDelta, n - 1, |peaks|);
      LexSortedConcat(front, last, n - 1);
      var r := front + last;
      assert forall k :: 0 <= k < |front| ==> r[k] == front[k];
      assert forall k :: 0 <= k < |last| ==> r[|front| + k] == last[k];
    }
  }

  lemma LexSortedConcat(a: seq<(nat, nat)>, b: seq<(nat, nat)>, split: nat)
    requires LexSorted(a) && LexSorted(b)
    requires forall k :: 0 <= k < |a| ==> a[k].0 < split
    requires forall k :: 0 <= k < |b| ==> b[k].0 == split
    ensures LexSorted(a + b)
  {
  }

  /**
    Every accepted pair of list positions (anchor before target), each exactly
    once, ordered by anchor and then by target.
  */
  function AcceptedPairs(peaks: seq<Peak>, maxDelta: int): (r: seq<(nat, nat)>)
    ensures forall k :: 0 <= k < |r| ==> r[k].0 < r[k].1 < |peaks| && Accept(peaks, maxDelta, r[k].0, r[k].1)
    ensures forall i, j :: 0 <= i < j < |peaks| && Accept(peaks, maxDelta, i, j) ==> (i, j) in r
    ensures LexSorted(r)
  {
    PairsBeforeSpec(peaks, maxDelta, |peaks|);
    PairsBefore(peaks, maxDelta, |peaks|)
  }

  /** The token built from anchor position i and target position j. */
  function TokenAt(peaks: seq<Peak>, i: nat, j: nat): Token
    requires i < |peaks| && j < |peaks|
  {
    Token(peaks[i].freq, peaks[j].freq, peaks[j].time - peaks[i].time, peaks[i].time)
  }

  predicate PairsIn(ps: seq<(nat, nat)>, n: nat)
  {
    forall k :: 0 <= k < |ps| ==> ps[k].0 < n && ps[k].1 < n
  }

  function TokensOf(peaks: seq<Peak>, ps: seq<(nat, nat)>): (r: seq<Token>)
    requires PairsIn(ps, |peaks|)
    ensures |r| == |ps|
  {
    if ps == [] then []
    else TokensOf(peaks, ps[..|ps| - 1]) + [TokenAt(peaks, ps[|ps| - 1].0, ps[|ps| - 1].1)]
  }

  /** Tokens of anchor position i with targets i < j < hi, in increasing j. */
  function AnchorTokens(peaks: seq<Peak>, maxDelta: int, i: nat, hi: nat): seq<Token>
    requires i < |peaks| && hi <= |peaks|
    decreases hi
  {
    if hi <= i + 1 then []
    else
      var front := AnchorTokens(peaks, maxDelta, i, hi - 1);
      if Accept(peaks, maxDelta, i, hi - 1) then front + [TokenAt(peaks, i, hi - 1)] else front
  }

  /** Tokens of every anchor position below n. */
  function TokensBefore(peaks: seq<Peak>, maxDelta: int, n: nat): seq<Token>
    requires n <= |peaks|
  {
    if n == 0 then []
    else TokensBefore(peaks, maxDelta, n - 1) + AnchorTokens(peaks, maxDelta, n - 1, |peaks|)
  }

  /** The token list the pairing loops build, before the fingerprint cap. */
  function PairTokens(peaks: seq<Peak>, maxDelta: int): seq<Token>
  {
    TokensBefore(peaks, maxDelta, |peaks|)
  }

  lemma {:induction false} TokensOfAt(peaks: seq<Peak>, ps: seq<(nat, nat)>, k: nat)
    requires PairsIn(ps, |peaks|) && k < |ps|
    ensures TokensOf(peaks, ps)[k] == TokenAt(peaks, ps[k].0, ps[k].1)
  {
    if k < |ps| - 1 {
      TokensOfAt(peaks, ps[..|ps| - 1], k);
    }
  }

  lemma {:induction false} TokensOfConcat(peaks: seq<Peak>, ps: seq<(nat, nat)>, qs: seq<(nat, nat)>)
    requires PairsIn(ps, |peaks|) && PairsIn(qs, |peaks|)
    ensures PairsIn(ps + qs, |peaks|)
    ensures TokensOf(peaks, ps + qs) == TokensOf(peaks, ps) + TokensOf(peaks, qs)
    decreases |qs|
  {
    assert forall k :: 0 <= k < |ps + qs| ==> (ps + qs)[k] == if k < |ps| then ps[k] else qs[k - |ps|];
    if qs == [] {
      assert ps + qs == ps;
    } else {
      var front := qs[..|qs| - 1];
      assert PairsIn(front, |peaks|);
      TokensOfConcat(peaks, ps, front);
      assert (ps + qs)[..|ps + qs| - 1] == ps + front;
      assert TokensOf(peaks, qs) == TokensOf(peaks, front) + [TokenAt(peaks, qs[|qs| - 1].0, qs[|qs| - 1].1)];
    }
  }

  /** The loop's tokens for one anchor are exactly the tokens of its accepted pairs. */
  lemma {:induction false} AnchorTokensOfPairs(peaks: seq<Peak>, maxDelta: int, i: nat, hi: nat)
    requires i < |peaks| && hi <= |peaks|
    ensures PairsIn(AnchorPairs(peaks, maxDelta, i, hi), |peaks|)
    ensures AnchorTokens(peaks, maxDelta, i, hi) == TokensOf(peaks, AnchorPairs(peaks, maxDelta, i, hi))
    decreases hi
  {
    if hi > i + 1 {
      AnchorTokensOfPairs(peaks, maxDelta, i, hi - 1);
      var front := AnchorPairs(peaks, maxDelta, i, hi - 1);
      if Accept(peaks, maxDelta, i, hi - 1) {
        var ps := front + [(i, hi - 1)];
        assert ps[..|front|] == front && ps[|front|] == (i, hi - 1);
        assert PairsIn(ps, |peaks|) by {
          forall k | 0 <= k < |ps| ensures ps[k].0 < |peaks| && ps[k].1 < |peaks| {
            if k < |front| {
              assert ps[k] == front[k];
            }
          }
        }
        assert TokensOf(peaks, ps) == TokensOf(peaks, front) + [TokenAt(peaks, i, hi - 1)];
      }
    }
  }

  lemma {:induction false} TokensBeforeOfPairs(peaks: seq<Peak>, maxDelta: int, n: nat)
    requires n <= |peaks|
    ensures PairsIn(PairsBefore(peaks, maxDelta, n), |peaks|)
    ensures TokensBefore(peaks, maxDelta, n) == TokensOf(peaks, PairsBefore(peaks, maxDelta, n))
  {
    if n > 0 {
      TokensBeforeOfPairs(peaks, maxDelta, n - 1);
      AnchorTokensOfPairs(peaks, maxDelta, n - 1, |peaks|);
      TokensOfConcat(peaks, PairsBefore(peaks, maxDelta, n - 1), AnchorPairs(peaks, maxDelta, n - 1, |peaks|));
    }
  }

  /**
    Before sampling, the token list is the accepted pairs (each once, ordered
    by anchor then target) turned into tokens: token k is
    (freq[i], freq[j], time[j] - time[i], time[i]) for the k-th pair (i, j),
    and it passes both filters.
  */
  lemma {:induction false} PairTokensFromAcceptedPairs(peaks: seq<Peak>, maxDelta: int)
    ensures PairsIn(AcceptedPairs(peaks, maxDelta), |peaks|)
    ensures PairTokens(peaks, maxDelta) == TokensOf(peaks, AcceptedPairs(peaks, maxDelta))
    ensures var ps := AcceptedPairs(peaks, maxDelta);
      var ts := PairTokens(peaks, maxDelta);
      |ts| == |ps| &&
      forall k :: 0 <= k < |ts| ==>
        ts[k] == TokenAt(peaks, ps[k].0, ps[k].1) &&
        MinDelta <= ts[k].delta <= maxDelta && Abs(ts[k].targetFreq - ts[k].anchorFreq) > MinFreqGap
  {
    TokensBeforeOfPairs(peaks, maxDelta, |peaks|);
    var ps := AcceptedPairs(peaks, maxDelta);
    forall k | 0 <= k < |ps| ensures TokensOf(peaks, ps)[k] == TokenAt(peaks, ps[k].0, ps[k].1) {
      TokensOfAt(peaks, ps, k);
    }
  }

  /**
    The nested pairing loops: position i is paired with every later position j,
    in list order, and a token is appended when 1 <= dt <= max_delta and the
    frequency gap exceeds 4.
  */
  method GenerateTokens(peaks: seq<Peak>, maxDelta: int) returns (tokens: seq<Token>)
    ensures tokens == PairTokens(peaks, maxDelta)
  {
    tokens := [];
    var i := 0;
    while i < |peaks|
      invariant 0 <= i <= |peaks|
      invariant tokens == TokensBefore(peaks, maxDelta, i)
    {
      var freqAnchor: int := peaks[i].freq;
      var timeAnchor: int := peaks[i].time;
      var j := i + 1;
      while j < |peaks|
        invariant i + 1 <= j <= |peaks|
        invariant tokens == TokensBefore(peaks, maxDelta, i) + AnchorTokens(peaks, maxDelta, i, j)
      {
        var freqTarget: int := peaks[j].freq;
        var timeTarget: int := peaks[j].time;
        var timeDelta := timeTarget - timeAnchor;
        if MinDelta <= timeDelta <= maxDelta {
          var freqDelta := Abs(freqTarget - freqAnchor);
          if freqDelta > MinFreqGap {
            tokens := tokens + [Token(freqAnchor, freqTarget, timeDelta, timeAnchor)];
          }
        }
        j := j + 1;
      }
      i := i + 1;
    }
  }

  // ---------------------------------------------------------------------
  // Fingerprint cap: random.sample(tokens, max_fingerprints)

  /**
    Selection of k elements without replacement; the random source is the
    draw sequence, whose step-th value picks among the remaining elements.
  */
  function Sample<T(==)>(pool: seq<T>, k: nat, draw: nat -> nat, step: nat): (r: seq<T>)
    requires k <= |pool|
    ensures |r| == k
    ensures multiset(r) <= multiset(pool)
    decreases k
  {
    if k == 0 then []
    else
      var j := draw(step) % |pool|;
      var rest := pool[..j] + pool[j + 1..];
      assert pool == pool[..j] + [pool[j]] + pool[j + 1..];
      [pool[j]] + Sample(rest, k - 1, draw, step + 1)
  }

  /** Unchanged within budget; otherwise a max_fingerprints-element sample. */
  function CapTokens(tokens: seq<Token>, maxFingerprints: nat, draw: nat -> nat): (r: seq<Token>)
    ensures |r| == Min(|tokens|, maxFingerprints)
    ensures multiset(r) <= multiset(tokens)
    ensures |tokens| <= maxFingerprints ==> r == tokens
  {
    if |tokens| > maxFingerprints then Sample(tokens, maxFingerprints, draw, 0) else tokens
  }

  /** What create_fingerprint returns, as a function of its inputs. */
  function Fingerprints(g: Grid, median: int, d: DurationTerms, draw: nat -> nat): (r: seq<Token>)
    requires Rectangular(g)
    ensures |r| <= MaxFingerprints(d.times1000)
  {
    CapTokens(PairTokens(SelectPeaks(g, median, d.times50), MaxDelta(d.div10)),
              MaxFingerprints(d.times1000), draw)
  }

  /** create_fingerprint from the decibel grid onwards. */
  method CreateFingerprint(g: Grid, median: int, d: DurationTerms, draw: nat -> nat) returns (tokens: seq<Token>)
    requires Rectangular(g)
    ensures tokens == Fingerprints(g, median, d, draw)
  {
    var candidates := Candidates(g, median);
    var maxPeaks := MaxPeaks(d.times50);
    var peaks := CapPeaks(candidates, maxPeaks);
    var maxDelta := MaxDelta(d.div10);
    var all := GenerateTokens(peaks, maxDelta);
    var maxFingerprints := MaxFingerprints(d.times1000);
    tokens := CapTokens(all, maxFingerprints, draw);
  }

  /** Every generated token comes from peaks at positions i < j and passes both filters. */
  lemma GeneratedTokensWellFormed(peaks: seq<Peak>, maxDelta: int)
    ensures forall tk :: tk in PairTokens(peaks, maxDelta) ==>
      MinDelta <= tk.delta <= maxDelta &&
      Abs(tk.targetFreq - tk.anchorFreq) > MinFreqGap &&
      exists i, j :: 0 <= i < j < |peaks| && tk == TokenAt(peaks, i, j)
  {
    PairTokensFromAcceptedPairs(peaks, maxDelta);
    var ps := AcceptedPairs(peaks, maxDelta);
    var all := PairTokens(peaks, maxDelta);
    forall tk | tk in all
      ensures MinDelta <= tk.delta <= maxDelta && Abs(tk.targetFreq - tk.anchorFreq) > MinFreqGap
      ensures exists i, j :: 0 <= i < j < |peaks| && tk == TokenAt(peaks, i, j)
    {
      var k :| 0 <= k < |all| && all[k] == tk;
      assert ps[k] in ps;
    }
  }

  /**
    Every returned token is built from two selected peaks at list positions
    i < j (anchor i, target j), has 1 <= dt <= max_delta and a frequency gap
    above 4; the list holds min(#generated, max_fingerprints) tokens, drawn
    from the generated ones without replacement.
  */
  lemma {:induction false} FingerprintTokensWellFormed(g: Grid, median: int, d: DurationTerms, draw: nat -> nat)
    requires Rectangular(g)
    ensures var peaks := SelectPeaks(g, median, d.times50);
      forall tk :: tk in Fingerprints(g, median, d, draw) ==>
        MinDelta <= tk.delta <= MaxDelta(d.div10) &&
        Abs(tk.targetFreq - tk.anchorFreq) > MinFreqGap &&
        exists i, j :: 0 <= i < j < |peaks| && tk == TokenAt(peaks, i, j)
    ensures var all := PairTokens(SelectPeaks(g, median, d.times50), MaxDelta(d.div10));
      |Fingerprints(g, median, d, draw)| == Min(|all|, MaxFingerprints(d.times1000)) &&
      multiset(Fingerprints(g, median, d, draw)) <= multiset(all)
  {
    var peaks := SelectPeaks(g, median, d.times50);
    var md := MaxDelta(d.div10);
    var all := PairTokens(peaks, md);
    var r := Fingerprints(g, median, d, draw);
    assert r == CapTokens(all, MaxFingerprints(d.times1000), draw);
    GeneratedTokensWellFormed(peaks, md);
    forall tk | tk in r ensures tk in all {
      assert tk in multiset(r);
    }
  }
}
