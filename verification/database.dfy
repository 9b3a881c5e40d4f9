/**
  The fingerprint index: the songs and fingerprints tables held in memory,
  storing one row per token and grouping offset differences per song on
  lookup.
*/
module Database {
  import opened Wrappers
  import opened Fingerprint

  /** Hex digest of the string "fa|ft|dt"; md5 itself is left abstract. */
  type Digest = int
  type HashFn = (int, int, int) -> Digest

  /** A row of the fingerprints table. */
  datatype Row = Row(hash: Digest, songId: int, offset: int)

  /** A row of the songs table (its id is the map key). */
  datatype Song = Song(name: string, artist: string, duration: real)

  /** The hash of a token: only its (anchor frequency, target frequency, dt) triple. */
  function HashOf(h: HashFn, tk: Token): Digest
  {
    h(tk.anchorFreq, tk.targetFreq, tk.delta)
  }

  function RowOf(h: HashFn, songId: int, tk: Token): Row
  {
    Row(HashOf(h, tk), songId, tk.anchorTime)
  }

  /** The rows store_fingerprints inserts, in token order. */
  function RowsFor(h: HashFn, songId: int, tokens: seq<Token>): (r: seq<Row>)
    ensures |r| == |tokens|
    ensures forall i :: 0 <= i < |tokens| ==>
      r[i].hash == h(tokens[i].anchorFreq, tokens[i].targetFreq, tokens[i].delta) &&
      r[i].songId == songId && r[i].offset == tokens[i].anchorTime
  {
    if tokens == [] then []
    else RowsFor(h, songId, tokens[..|tokens| - 1]) + [RowOf(h, songId, tokens[|tokens| - 1])]
  }

  /**
    The digest ignores the song and the anchor time: a stored token and a
    sample token with the same (anchor frequency, target frequency, dt)
    triple always collide.
  */
  lemma EqualTriplesCollide(h: HashFn, songId: int, stored: Token, sample: Token)
    requires stored.anchorFreq == sample.anchorFreq && stored.targetFreq == sample.targetFreq
    requires stored.delta == sample.delta
    ensures RowOf(h, songId, stored).hash == ProbeOf(h, sample).hash
    ensures RowOf(h, songId, stored).offset == stored.anchorTime
  {
  }

  /** SELECT ... WHERE hash = ?: the rows carrying the digest, in table order. */
  function Lookup(rows: seq<Row>, digest: Digest): (res: seq<Row>)
    ensures |res| <= |rows|
  {
    if rows == [] then []
    else
      var last := rows[|rows| - 1];
      assert rows == rows[..|rows| - 1] + [last];
      Lookup(rows[..|rows| - 1], digest) + (if last.hash == digest then [last] else [])
  }

  /** Every row the lookup returns is a stored row carrying the digest. */
  lemma {:induction false} LookupSound(rows: seq<Row>, digest: Digest, r: Row)
    requires r in Lookup(rows, digest)
    ensures r in rows && r.hash == digest
  {
    var init := rows[..|rows| - 1];
    assert rows == init + [rows[|rows| - 1]];
    if r in Lookup(init, digest) {
      LookupSound(init, digest, r);
    }
  }

  /** The lookup misses no row carrying the digest: row i of the table is found at position j. */
  lemma {:induction false} LookupFinds(rows: seq<Row>, digest: Digest, i: nat) returns (j: nat)
    requires i < |rows| && rows[i].hash == digest
    ensures j < |Lookup(rows, digest)| && Lookup(rows, digest)[j] == rows[i]
  {
    var n := |rows| - 1;
    var init := rows[..n];
    assert rows == init + [rows[n]];
    if i == n {
      j := |Lookup(init, digest)|;
    } else {
      assert init[i] == rows[i];
      j := LookupFinds(init, digest, i);
    }
  }

  /** Each row carrying the digest comes back exactly as often as it is stored; no other row comes back. */
  lemma {:induction false} LookupCounts(rows: seq<Row>, digest: Digest, r: Row)
    ensures multiset(Lookup(rows, digest))[r] == (if r.hash == digest then multiset(rows)[r] else 0)
  {
    if rows != [] {
      var init := rows[..|rows| - 1];
      var last := rows[|rows| - 1];
      assert rows == init + [last];
      LookupCounts(init, digest, r);
    }
  }

  /**
    The lookup is the table filtered by digest: result k is table row idx[k],
    the indices strictly increase (table order), and every row index carrying
    the digest is among them.
  */
  lemma {:induction false} LookupOrder(rows: seq<Row>, digest: Digest) returns (idx: seq<nat>)
    ensures |idx| == |Lookup(rows, digest)|
    ensures forall k :: 0 <= k < |idx| ==> idx[k] < |rows| && Lookup(rows, digest)[k] == rows[idx[k]]
    ensures forall k1, k2 :: 0 <= k1 < k2 < |idx| ==> idx[k1] < idx[k2]
    ensures forall i :: 0 <= i < |rows| && rows[i].hash == digest ==> exists k :: 0 <= k < |idx| && idx[k] == i
  {
    if rows == [] {
      idx := [];
    } else {
      var n := |rows| - 1;
      var init := rows[..n];
      var pre := LookupOrder(init, digest);
      assert rows == init + [rows[n]];
      if rows[n].hash == digest {
        idx := pre + [n];
        assert idx[|pre|] == n;
      } else {
        idx := pre;
      }
      forall i | 0 <= i < n && rows[i].hash == digest ensures exists k :: 0 <= k < |idx| && idx[k] == i {
        assert init[i] == rows[i];
        var k :| 0 <= k < |pre| && pre[k] == i;
        assert idx[k] == i;
      }
    }
  }

  // ---------------------------------------------------------------------
  // The matches dictionary: song id -> list of offset differences, with the
  // order in which ids were first inserted.

  datatype Matches = Matches(order: seq<int>, offsets: map<int, seq<int>>)

  const NoMatches := Matches([], map[])

  /** Keys listed once each, in insertion order. */
  predicate WellFormed(m: Matches)
  {
    (forall i, j :: 0 <= i < j < |m.order| ==> m.order[i] != m.order[j]) &&
    (forall id :: id in m.offsets ==> id in m.order) &&
    (forall i :: 0 <= i < |m.order| ==> m.order[i] in m.offsets)
  }

  /** No key maps to an empty list. */
  predicate NoEmptyList(m: Matches)
  {
    forall id :: id in m.offsets ==> m.offsets[id] != []
  }

  /** The list stored under id, or [] when id is not a key. */
  function Hits(offsets: map<int, seq<int>>, id: int): seq<int>
  {
    if id in offsets then offsets[id] else []
  }

  /** if song_id not in matches: matches[song_id] = []; then append diff. */
  function AddHit(m: Matches, id: int, diff: int): Matches
  {
    var m1 := if id in m.offsets then m else Matches(m.order + [id], m.offsets[id := []]);
    Matches(m1.order, m1.offsets[id := m1.offsets[id] + [diff]])
  }

  /** The inner loop over the lookup results of one sample token. */
  function AddHits(m: Matches, results: seq<Row>, sampleOffset: int): Matches
  {
    if results == [] then m
    else
      var r := results[|results| - 1];
      AddHit(AddHits(m, results[..|results| - 1], sampleOffset), r.songId, r.offset - sampleOffset)
  }

  /** What a sample token is looked up with: (hash_str, sample_offset). */
  datatype Probe = Probe(hash: Digest, offset: int)

  function ProbeOf(h: HashFn, tk: Token): Probe
  {
    Probe(HashOf(h, tk), tk.anchorTime)
  }

  /** The probes of a sample, token by token. */
  function Probes(h: HashFn, sample: seq<Token>): (ps: seq<Probe>)
    ensures |ps| == |sample|
    ensures forall k :: 0 <= k < |sample| ==> ps[k] == ProbeOf(h, sample[k])
  {
    if sample == [] then [] else Probes(h, sample[..|sample| - 1]) + [ProbeOf(h, sample[|sample| - 1])]
  }

  /** What find_matches returns for the probes of the sample. */
  function Collect(rows: seq<Row>, ps: seq<Probe>): Matches
  {
    if ps == [] then NoMatches
    else
      var p := ps[|ps| - 1];
      AddHits(Collect(rows, ps[..|ps| - 1]), Lookup(rows, p.hash), p.offset)
  }

  // ---------------------------------------------------------------------
  // Reference definitions, per song.

  /** The differences one lookup result list contributes to song id. */
  function HitsFor(results: seq<Row>, id: int, sampleOffset: int): seq<int>
  {
    if results == [] then []
    else
      var r := results[|results| - 1];
      HitsFor(results[..|results| - 1], id, sampleOffset) + (if r.songId == id then [r.offset - sampleOffset] else [])
  }

  /** All differences song id collects over the probes, probe by probe. */
  function SongOffsets(rows: seq<Row>, ps: seq<Probe>, id: int): seq<int>
  {
    if ps == [] then []
    else
      var p := ps[|ps| - 1];
      SongOffsets(rows, ps[..|ps| - 1], id) + HitsFor(Lookup(rows, p.hash), id, p.offset)
  }

  /** Number of (probe, matching row) pairs. */
  function HitCount(rows: seq<Row>, ps: seq<Probe>): nat
  {
    if ps == [] then 0
    else HitCount(rows, ps[..|ps| - 1]) + |Lookup(rows, ps[|ps| - 1].hash)|
  }

  function SumLens(order: seq<int>, offsets: map<int, seq<int>>): nat
  {
    if order == [] then 0 else |Hits(offsets, order[0])| + SumLens(order[1..], offsets)
  }

  /** Number of offsets across all lists of the dictionary. */
  function Total(m: Matches): nat
  {
    SumLens(m.order, m.offsets)
  }

  // ---------------------------------------------------------------------
  // Lemmas about the dictionary

  lemma {:induction false} SumLensAppend(order: seq<int>, x: int, offsets: map<int, seq<int>>)
    ensures SumLens(order + [x], offsets) == SumLens(order, offsets) + |Hits(offsets, x)|
  {
    if order != [] {
      assert (order + [x])[1..] == order[1..] + [x];
      SumLensAppend(order[1..], x, offsets);
    }
  }

  lemma {:induction false} SumLensElsewhere(order: seq<int>, offsets: map<int, seq<int>>, x: int, s: seq<int>)
    requires x !in order
    ensures SumLens(order, offsets[x := s]) == SumLens(order, offsets)
  {
    if order != [] {
      assert order[0] != x;
      assert Hits(offsets[x := s], order[0]) == Hits(offsets, order[0]);
      SumLensElsewhere(order[1..], offsets, x, s);
    }
  }

  lemma {:induction false} SumLensUpdate(order: seq<int>, offsets: map<int, seq<int>>, x: int, s: seq<int>)
    requires x in order
    requires forall i, j :: 0 <= i < j < |order| ==> order[i] != order[j]
    ensures SumLens(order, offsets[x := s]) + |Hits(offsets, x)| == SumLens(order, offsets) + |s|
  {
    if order[0] == x {
      assert x !in order[1..] by {
        forall k | 0 <= k < |order[1..]| ensures order[1..][k] != x {
          assert order[1..][k] == order[k + 1];
        }
      }
      SumLensElsewhere(order[1..], offsets, x, s);
    } else {
      assert Hits(offsets[x := s], order[0]) == Hits(offsets, order[0]);
      SumLensUpdate(order[1..], offsets, x, s);
    }
  }

  /** One append keeps the keys listed once each and no list empty. */
  lemma AddHitKeepsShape(m: Matches, id: int, diff: int)
    requires WellFormed(m)
    ensures WellFormed(AddHit(m, id, diff))
    ensures NoEmptyList(m) ==> NoEmptyList(AddHit(m, id, diff))
  {
  }

  /** One append adds diff to the end of id's list and to no other list. */
  lemma AddHitHits(m: Matches, id: int, diff: int)
    ensures forall x :: Hits(AddHit(m, id, diff).offsets, x) == Hits(m.offsets, x) + (if x == id then [diff] else [])
  {
  }

  /** One append adds one offset in all. */
  lemma AddHitTotal(m: Matches, id: int, diff: int)
    requires WellFormed(m)
    ensures Total(AddHit(m, id, diff)) == Total(m) + 1
  {
    var r := AddHit(m, id, diff);
    if id in m.offsets {
      SumLensUpdate(m.order, m.offsets, id, m.offsets[id] + [diff]);
    } else {
      assert id !in m.order;
      assert [] + [diff] == [diff];
      assert r.offsets == m.offsets[id := [diff]];
      SumLensAppend(m.order, id, r.offsets);
      SumLensElsewhere(m.order, m.offsets, id, [diff]);
    }
  }

  lemma {:induction false} AddHitsKeepsShape(m: Matches, results: seq<Row>, sampleOffset: int)
    requires WellFormed(m)
    ensures WellFormed(AddHits(m, results, sampleOffset))
    ensures NoEmptyList(m) ==> NoEmptyList(AddHits(m, results, sampleOffset))
  {
    if results != [] {
      var init := results[..|results| - 1];
      var r := results[|results| - 1];
      AddHitsKeepsShape(m, init, sampleOffset);
      AddHitKeepsShape(AddHits(m, init, sampleOffset), r.songId, r.offset - sampleOffset);
    }
  }

  /** The inner loop: each result row appends its difference to its own song's list. */
  lemma {:induction false} AddHitsHits(m: Matches, results: seq<Row>, sampleOffset: int)
    ensures forall x ::
      Hits(AddHits(m, results, sampleOffset).offsets, x) == Hits(m.offsets, x) + HitsFor(results, x, sampleOffset)
  {
    if results != [] {
      var init := results[..|results| - 1];
      var r := results[|results| - 1];
      AddHitsHits(m, init, sampleOffset);
      AddHitHits(AddHits(m, init, sampleOffset), r.songId, r.offset - sampleOffset);
      forall x ensures Hits(AddHits(m, results, sampleOffset).offsets, x) == Hits(m.offsets, x) + HitsFor(results, x, sampleOffset) {
        assert Hits(m.offsets, x) + HitsFor(init, x, sampleOffset) + (if r.songId == x then [r.offset - sampleOffset] else [])
          == Hits(m.offsets, x) + (HitsFor(init, x, sampleOffset) + (if r.songId == x then [r.offset - sampleOffset] else []));
      }
    }
  }

  lemma {:induction false} AddHitsTotal(m: Matches, results: seq<Row>, sampleOffset: int)
    requires WellFormed(m)
    ensures Total(AddHits(m, results, sampleOffset)) == Total(m) + |results|
  {
    if results != [] {
      var init := results[..|results| - 1];
      var r := results[|results| - 1];
      AddHitsTotal(m, init, sampleOffset);
      AddHitsKeepsShape(m, init, sampleOffset);
      AddHitTotal(AddHits(m, init, sampleOffset), r.songId, r.offset - sampleOffset);
    }
  }

  /** find_matches builds a well-formed dictionary without empty lists. */
  lemma {:induction false} CollectShape(rows: seq<Row>, ps: seq<Probe>)
    ensures WellFormed(Collect(rows, ps)) && NoEmptyList(Collect(rows, ps))
  {
    if ps != [] {
      var init := ps[..|ps| - 1];
      var p := ps[|ps| - 1];
      CollectShape(rows, init);
      AddHitsKeepsShape(Collect(rows, init), Lookup(rows, p.hash), p.offset);
    }
  }

  /**
    find_matches: a well-formed dictionary without empty lists, whose list for
    each song is exactly that song's reference list, holding one offset per
    (probe, matching row) pair.
  */
  lemma {:induction false} CollectSpec(rows: seq<Row>, ps: seq<Probe>)
    ensures WellFormed(Collect(rows, ps)) && NoEmptyList(Collect(rows, ps))
    ensures forall id :: Hits(Collect(rows, ps).offsets, id) == SongOffsets(rows, ps, id)
    ensures Total(Collect(rows, ps)) == HitCount(rows, ps)
  {
    CollectShape(rows, ps);
    if ps != [] {
      var init := ps[..|ps| - 1];
      var p := ps[|ps| - 1];
      var before := Collect(rows, init);
      var results := Lookup(rows, p.hash);
      CollectSpec(rows, init);
      AddHitsHits(before, results, p.offset);
      AddHitsTotal(before, results, p.offset);
    }
  }

  lemma {:induction false} HitsForSound(results: seq<Row>, id: int, sampleOffset: int, x: int)
    requires x in HitsFor(results, id, sampleOffset)
    ensures exists r :: r in results && r.songId == id && x == r.offset - sampleOffset
  {
    var init := results[..|results| - 1];
    var last := results[|results| - 1];
    assert results == init + [last];
    if x in HitsFor(init, id, sampleOffset) {
      HitsForSound(init, id, sampleOffset, x);
    } else {
      assert last in results;
    }
  }

  /** Result i of a lookup, when it belongs to song id, puts its difference at position j of id's share. */
  lemma {:induction false} HitsForComplete(results: seq<Row>, id: int, sampleOffset: int, i: nat) returns (j: nat)
    requires i < |results| && results[i].songId == id
    ensures j < |HitsFor(results, id, sampleOffset)| &&
            HitsFor(results, id, sampleOffset)[j] == results[i].offset - sampleOffset
  {
    var n := |results| - 1;
    var init := results[..n];
    if i == n {
      j := |HitsFor(init, id, sampleOffset)|;
    } else {
      assert init[i] == results[i];
      j := HitsForComplete(init, id, sampleOffset, i);
    }
  }

  /** One more probe: the outer loop of find_matches, step by step. */
  lemma CollectStep(rows: seq<Row>, ps: seq<Probe>, i: nat)
    requires i < |ps|
    ensures Collect(rows, ps[..i + 1]) == AddHits(Collect(rows, ps[..i]), Lookup(rows, ps[i].hash), ps[i].offset)
  {
    assert ps[..i + 1][..i] == ps[..i];
  }

  /** One more result row: the inner loop of find_matches, step by step. */
  lemma AddHitsStep(m: Matches, results: seq<Row>, sampleOffset: int, j: nat)
    requires j < |results|
    ensures AddHits(m, results[..j + 1], sampleOffset) ==
      AddHit(AddHits(m, results[..j], sampleOffset), results[j].songId, results[j].offset - sampleOffset)
  {
    assert results[..j + 1][..j] == results[..j];
  }

  /** Every difference in song id's list comes from a probe and a row of that song with the probe's hash. */
  lemma {:induction false} SongOffsetsSound(rows: seq<Row>, ps: seq<Probe>, id: int, d: int)
    requires d in SongOffsets(rows, ps, id)
    ensures exists k, r :: 0 <= k < |ps| && r in rows && r.hash == ps[k].hash &&
                           r.songId == id && d == r.offset - ps[k].offset
  {
    var n := |ps| - 1;
    var init := ps[..n];
    var p := ps[n];
    if d in SongOffsets(rows, init, id) {
      SongOffsetsSound(rows, init, id, d);
      var k, r :| 0 <= k < |init| && r in rows && r.hash == init[k].hash &&
                  r.songId == id && d == r.offset - init[k].offset;
      assert init[k] == ps[k];
    } else {
      HitsForSound(Lookup(rows, p.hash), id, p.offset, d);
      var r :| r in Lookup(rows, p.hash) && r.songId == id && d == r.offset - p.offset;
      LookupSound(rows, p.hash, r);
    }
  }

  /** The last probe's lookup puts the difference of stored row i into id's list at position j. */
  lemma SongOffsetsLast(rows: seq<Row>, ps: seq<Probe>, id: int, i: nat) returns (j: nat)
    requires ps != [] && i < |rows| && rows[i].hash == ps[|ps| - 1].hash && rows[i].songId == id
    ensures j < |SongOffsets(rows, ps, id)| &&
            SongOffsets(rows, ps, id)[j] == rows[i].offset - ps[|ps| - 1].offset
  {
    var p := ps[|ps| - 1];
    var before := SongOffsets(rows, ps[..|ps| - 1], id);
    var l := LookupFinds(rows, p.hash, i);
    var t := HitsForComplete(Lookup(rows, p.hash), id, p.offset, l);
    j := |before| + t;
  }

  /**
    Probe k and stored row i of song id with the probe's hash put their
    difference at position j of id's list.
  */
  lemma {:induction false} SongOffsetsAt(rows: seq<Row>, ps: seq<Probe>, id: int, k: nat, i: nat) returns (j: nat)
    requires k < |ps| && i < |rows| && rows[i].hash == ps[k].hash && rows[i].songId == id
    ensures j < |SongOffsets(rows, ps, id)| &&
            SongOffsets(rows, ps, id)[j] == rows[i].offset - ps[k].offset
  {
    if k == |ps| - 1 {
      j := SongOffsetsLast(rows, ps, id, i);
    } else {
      var init := ps[..|ps| - 1];
      assert init[k] == ps[k];
      j := SongOffsetsAt(rows, init, id, k, i);
    }
  }

  /** A probe and a row of song id with the probe's hash put their difference into id's list. */
  lemma SongOffsetsComplete(rows: seq<Row>, ps: seq<Probe>, id: int, k: nat, r: Row)
    requires k < |ps| && r in rows && r.hash == ps[k].hash && r.songId == id
    ensures r.offset - ps[k].offset in SongOffsets(rows, ps, id)
  {
    var i :| 0 <= i < |rows| && rows[i] == r;
    var j := SongOffsetsAt(rows, ps, id, k, i);
  }

  /** A song id is a key of find_matches' result exactly when some probe hits one of its rows. */
  lemma MatchKeysAreSongsWithHits(rows: seq<Row>, ps: seq<Probe>, id: int)
    ensures id in Collect(rows, ps).offsets <==>
      exists k, r :: 0 <= k < |ps| && r in rows && r.hash == ps[k].hash && r.songId == id
  {
    var m := Collect(rows, ps);
    CollectSpec(rows, ps);
    assert Hits(m.offsets, id) == SongOffsets(rows, ps, id);
    if id in m.offsets {
      SongOffsetsSound(rows, ps, id, m.offsets[id][0]);
    } else if exists k, r :: 0 <= k < |ps| && r in rows && r.hash == ps[k].hash && r.songId == id {
      var k, r :| 0 <= k < |ps| && r in rows && r.hash == ps[k].hash && r.songId == id;
      SongOffsetsComplete(rows, ps, id, k, r);
    }
  }

  /** Every (probe, row with the probe's hash) pair puts db_offset - sample_offset into that row's song's list. */
  lemma HitIsRecorded(rows: seq<Row>, ps: seq<Probe>, k: nat, r: Row)
    requires k < |ps| && r in rows && r.hash == ps[k].hash
    ensures r.songId in Collect(rows, ps).offsets
    ensures r.offset - ps[k].offset in Collect(rows, ps).offsets[r.songId]
  {
    CollectSpec(rows, ps);
    SongOffsetsComplete(rows, ps, r.songId, k, r);
    assert Hits(Collect(rows, ps).offsets, r.songId) == SongOffsets(rows, ps, r.songId);
  }

  lemma {:induction false} EmptyTableHasNoHits(ps: seq<Probe>)
    ensures Collect([], ps) == NoMatches
  {
    if ps != [] {
      EmptyTableHasNoHits(ps[..|ps| - 1]);
    }
  }

  /** An empty token list or an empty table gives an empty dictionary. */
  lemma NoMatchesWithoutInput(rows: seq<Row>, ps: seq<Probe>)
    requires ps == [] || rows == []
    ensures Collect(rows, ps) == NoMatches
  {
  }

  /** Counting a difference in song id's list, probe by probe. */
  lemma SongOffsetsCountStep(rows: seq<Row>, ps: seq<Probe>, id: int, v: int)
    requires ps != []
    ensures var p := ps[|ps| - 1];
      multiset(SongOffsets(rows, ps, id))[v] ==
      multiset(SongOffsets(rows, ps[..|ps| - 1], id))[v] + multiset(HitsFor(Lookup(rows, p.hash), id, p.offset))[v]
  {
  }

  /** The last probe finds its own stored row, adding one more difference 0. */
  lemma LastProbeAlignsAtZero(rows: seq<Row>, ps: seq<Probe>, id: int)
    requires ps != [] && Row(ps[|ps| - 1].hash, id, ps[|ps| - 1].offset) in rows
    ensures multiset(SongOffsets(rows, ps, id))[0] >= multiset(SongOffsets(rows, ps[..|ps| - 1], id))[0] + 1
  {
    var p := ps[|ps| - 1];
    var i :| 0 <= i < |rows| && rows[i] == Row(p.hash, id, p.offset);
    var tail := HitsFor(Lookup(rows, p.hash), id, p.offset);
    var l := LookupFinds(rows, p.hash, i);
    var t := HitsForComplete(Lookup(rows, p.hash), id, p.offset, l);
    assert tail[t] == 0;
    assert 0 in multiset(tail);
    SongOffsetsCountStep(rows, ps, id, 0);
  }

  /**
    Probing with the sample's own rows: when every probe's row for song id
    is stored, each probe finds it, so the offset difference 0 occurs at
    least |ps| times in that song's list.
  */
  lemma {:induction false} StoredProbesAlignAtZero(rows: seq<Row>, ps: seq<Probe>, id: int)
    requires forall k :: 0 <= k < |ps| ==> Row(ps[k].hash, id, ps[k].offset) in rows
    ensures multiset(SongOffsets(rows, ps, id))[0] >= |ps|
  {
    if ps != [] {
      var init := ps[..|ps| - 1];
      forall k | 0 <= k < |init| ensures Row(init[k].hash, id, init[k].offset) in rows {
        assert init[k] == ps[k];
      }
      StoredProbesAlignAtZero(rows, init, id);
      LastProbeAlignsAtZero(rows, ps, id);
    }
  }

  /**
    Store, then query with the same tokens: when the table holds the rows
    store_fingerprints wrote for song id, find_matches lists id, and the
    difference 0 occurs in its list at least once per token.
  */
  lemma StoredSongAlignsAtZero(rows: seq<Row>, h: HashFn, id: int, tokens: seq<Token>)
    requires forall r :: r in RowsFor(h, id, tokens) ==> r in rows
    ensures multiset(Hits(Collect(rows, Probes(h, tokens)).offsets, id))[0] >= |tokens|
  {
    var ps := Probes(h, tokens);
    var stored := RowsFor(h, id, tokens);
    forall k | 0 <= k < |ps| ensures Row(ps[k].hash, id, ps[k].offset) in rows {
      assert stored[k] == Row(ps[k].hash, id, ps[k].offset);
      assert stored[k] in stored;
    }
    StoredProbesAlignAtZero(rows, ps, id);
    CollectSpec(rows, ps);
  }

  // ---------------------------------------------------------------------
  // The database object

  /** Answer of get_song_info: (name, artist) of the song, None when absent. */
  function SongInfo(songs: map<int, Song>, id: int): Option<(string, string)>
  {
    if id in songs then Some((songs[id].name, songs[id].artist)) else None
  }

  /** A song added under a fresh id is found with its name and artist; other ids are unaffected. */
  lemma AddedSongIsFound(songs: map<int, Song>, id: int, s: Song)
    ensures SongInfo(songs[id := s], id) == Some((s.name, s.artist))
    ensures forall other :: other != id ==> SongInfo(songs[id := s], other) == SongInfo(songs, other)
  {
  }

  /**
    The inner loop of find_matches over the rows one lookup returned: each
    row's song gets an empty list the first time it is seen, then the
    difference db_offset - sample_offset is appended to it.
  */
  method AppendResults(m: Matches, results: seq<Row>, sampleOffset: int) returns (matches: Matches)
    ensures matches == AddHits(m, results, sampleOffset)
  {
    matches := m;
    var j := 0;
    while j < |results|
      invariant 0 <= j <= |results|
      invariant matches == AddHits(m, results[..j], sampleOffset)
    {
      var songId := results[j].songId;
      var dbOffset := results[j].offset;
      if songId !in matches.offsets {
        matches := Matches(matches.order + [songId], matches.offsets[songId := []]);
      }
      matches := matches.(offsets := matches.offsets[songId := matches.offsets[songId] + [dbOffset - sampleOffset]]);
      AddHitsStep(m, results, sampleOffset, j);
      j := j + 1;
    }
    assert results[..j] == results;
  }

  class FingerprintDatabase {
    /** The digest function (md5 of "fa|ft|dt"). */
    const hash: HashFn
    /** The songs table, by id. */
    var songs: map<int, Song>
    /** Largest id handed out so far (the next one is lastId + 1). */
    var lastId: int
    /** The fingerprints table, in insertion order. */
    var fingerprints: seq<Row>

    ghost predicate Valid()
      reads this
    {
      0 <= lastId && (lastId > 0 ==> lastId in songs) &&
      forall id :: id in songs ==> 1 <= id <= lastId
    }

    /** Opens an empty database. */
    constructor (hash: HashFn)
      ensures Valid()
      ensures this.hash == hash && songs == map[] && lastId == 0 && fingerprints == []
    {
      this.hash := hash;
      songs := map[];
      lastId := 0;
      fingerprints := [];
    }

    /** add_song: inserts the song under a fresh id and returns that id. */
    method AddSong(name: string, artist: string, duration: real) returns (id: int)
      requires Valid()
      modifies this`songs, this`lastId
      ensures Valid()
      ensures id == old(lastId) + 1 && id !in old(songs) && lastId == id
      ensures songs == old(songs)[id := Song(name, artist, duration)]
    {
      id := lastId + 1;
      songs := songs[id := Song(name, artist, duration)];
      lastId := id;
    }

    /** store_fingerprints: appends one row per token; the existing rows stay as they were. */
    method StoreFingerprints(songId: int, tokens: seq<Token>)
      requires Valid()
      modifies this`fingerprints
      ensures Valid()
      ensures fingerprints == old(fingerprints) + RowsFor(hash, songId, tokens)
    {
      var data: seq<Row> := [];
      var i := 0;
      while i < |tokens|
        invariant 0 <= i <= |tokens|
        invariant data == RowsFor(hash, songId, tokens[..i])
      {
        var tk := tokens[i];
        var hashStr := hash(tk.anchorFreq, tk.targetFreq, tk.delta);
        data := data + [Row(hashStr, songId, tk.anchorTime)];
        assert tokens[..i + 1][..i] == tokens[..i];
        i := i + 1;
      }
      assert tokens[..i] == tokens;
      fingerprints := fingerprints + data;
    }

    /** find_matches: reads the table and groups offset differences per song. */
    method FindMatches(sample: seq<Token>) returns (matches: Matches)
      ensures matches == Collect(fingerprints, Probes(hash, sample))
      ensures WellFormed(matches) && NoEmptyList(matches)
    {
      ghost var ps := Probes(hash, sample);
      matches := NoMatches;
      var i := 0;
      while i < |sample|
        invariant 0 <= i <= |sample|
        invariant matches == Collect(fingerprints, ps[..i])
      {
        var tk := sample[i];
        var hashStr := hash(tk.anchorFreq, tk.targetFreq, tk.delta);
        assert ps[i] == Probe(hashStr, tk.anchorTime);
        var results := Lookup(fingerprints, hashStr);
        matches := AppendResults(matches, results, tk.anchorTime);
        CollectStep(fingerprints, ps, i);
        i := i + 1;
      }
      assert ps[..i] == ps;
      CollectShape(fingerprints, ps);
    }

    /** get_song_info: the stored (name, artist) of the id, None when there is no such song. */
    method GetSongInfo(songId: int) returns (info: Option<(string, string)>)
      ensures info.Some? <==> songId in songs
      ensures info.Some? ==> info.value == (songs[songId].name, songs[songId].artist)
    {
      if songId in songs {
        info := Some((songs[songId].name, songs[songId].artist));
      } else {
        info := None;
      }
    }
  }
}
