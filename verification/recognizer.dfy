/**
  Alignment voting: for every candidate song, the most common offset
  difference and how often it occurs; the song with the highest such count
  wins, and is reported only when that count reaches the threshold.
*/
module Recognizer {
  import opened Wrappers
  import opened Fingerprint
  import opened Database

  /** Smallest vote count accepted as a recognition. */
  const MinConfidence := 5

  /** How many times x occurs in the list (an entry of Counter(offsets)). */
  function Count(s: seq<int>, x: int): (c: nat)
    ensures c > 0 <==> x in s
  {
    multiset(s)[x]
  }

  // ---------------------------------------------------------------------
  // Counter(offsets).most_common(1)[0]

  /**
    Position of the most common value among the first n entries: the scan
    keeps the earlier position unless a later entry occurs strictly more
    often, so it settles on the first position whose value has the largest
    count. That value's first occurrence is the first of the Counter's
    keys with the largest count, which is the key most_common(1) returns.
  */
  function TopIndex(s: seq<int>, n: nat): (k: nat)
    requires 1 <= n <= |s|
    ensures k < n
  {
    if n == 1 then 0
    else
      var k := TopIndex(s, n - 1);
      if Count(s, s[n - 1]) > Count(s, s[k]) then n - 1 else k
  }

  /** (most common offset, its count); the list is never empty here. */
  function MostCommon(s: seq<int>): (int, nat)
    requires s != []
  {
    var k := TopIndex(s, |s|);
    (s[k], Count(s, s[k]))
  }

  /** The scan ends on the first position whose count is the largest among the first n. */
  lemma {:induction false} TopIndexIsFirstMaximum(s: seq<int>, n: nat)
    requires 1 <= n <= |s|
    ensures forall i :: 0 <= i < n ==> Count(s, s[i]) <= Count(s, s[TopIndex(s, n)])
    ensures forall i :: 0 <= i < TopIndex(s, n) ==> Count(s, s[i]) < Count(s, s[TopIndex(s, n)])
  {
    if n > 1 {
      TopIndexIsFirstMaximum(s, n - 1);
    }
  }

  /**
    most_common(1)[0]: an offset of the list, occurring as often as any
    value, and on a tie the one met first (no value with as many
    occurrences appears before its first occurrence).
  */
  lemma MostCommonSpec(s: seq<int>)
    requires s != []
    ensures MostCommon(s).0 in s
    ensures MostCommon(s).1 == Count(s, MostCommon(s).0) >= 1
    ensures forall x :: Count(s, x) <= MostCommon(s).1
    ensures forall i :: 0 <= i < |s| && Count(s, s[i]) == MostCommon(s).1 ==> MostCommon(s).0 in s[..i + 1]
  {
    var k := TopIndex(s, |s|);
    TopIndexIsFirstMaximum(s, |s|);
    assert s[k] in multiset(s);
    forall x ensures Count(s, x) <= MostCommon(s).1 {
      if x in multiset(s) {
        var i :| 0 <= i < |s| && s[i] == x;
      }
    }
    forall i | 0 <= i < |s| && Count(s, s[i]) == MostCommon(s).1 ensures s[k] in s[..i + 1] {
      assert s[..i + 1][k] == s[k];
    }
  }

  // ---------------------------------------------------------------------
  // The loop over matches.items()

  /** best_match = (song_id, count, most_common_offset). */
  datatype Best = Best(songId: int, count: nat, offset: int)

  /** The triple song id would propose from its own list. */
  function Candidate(m: Matches, id: int): Best
    requires id in m.offsets && m.offsets[id] != []
  {
    var top := MostCommon(m.offsets[id]);
    Best(id, top.1, top.0)
  }

  /** Position in the key order of the song leading after the first n keys. */
  function LeaderIn(m: Matches, n: nat): (k: nat)
    requires WellFormed(m) && NoEmptyList(m) && 1 <= n <= |m.order|
    ensures k < n
  {
    if n == 1 then 0
    else
      var k := LeaderIn(m, n - 1);
      if Candidate(m, m.order[n - 1]).count > Candidate(m, m.order[k]).count then n - 1 else k
  }

  /** best_match after the first n keys: None before any key. */
  function WinnerIn(m: Matches, n: nat): Option<Best>
    requires WellFormed(m) && NoEmptyList(m) && n <= |m.order|
  {
    if n == 0 then None else Some(Candidate(m, m.order[LeaderIn(m, n)]))
  }

  /** best_match after the whole loop. */
  function Winner(m: Matches): (best: Option<Best>)
    requires WellFormed(m) && NoEmptyList(m)
    ensures best.None? <==> m.order == []
  {
    WinnerIn(m, |m.order|)
  }

  /** highest_count: 0 while there is no best match yet. */
  function HighestOf(best: Option<Best>): nat
  {
    if best.None? then 0 else best.value.count
  }

  /** Every song's list is non-empty, so its top offset occurs at least once. */
  lemma CandidateCountPositive(m: Matches, id: int)
    requires id in m.offsets && m.offsets[id] != []
    ensures Candidate(m, id).count >= 1
  {
  }

  /** The leader's count is the largest among the first n keys, and no earlier key reaches it. */
  lemma {:induction false} LeaderIsFirstMaximum(m: Matches, n: nat)
    requires WellFormed(m) && NoEmptyList(m) && 1 <= n <= |m.order|
    ensures forall i :: 0 <= i < n ==>
      Candidate(m, m.order[i]).count <= Candidate(m, m.order[LeaderIn(m, n)]).count
    ensures forall i :: 0 <= i < LeaderIn(m, n) ==>
      Candidate(m, m.order[i]).count < Candidate(m, m.order[LeaderIn(m, n)]).count
  {
    if n > 1 {
      LeaderIsFirstMaximum(m, n - 1);
    }
  }

  /**
    The winner: none exactly when there are no matches; otherwise a song of
    the dictionary with its own top offset and count, whose count is the
    largest of all songs' top counts, and which comes first in the
    dictionary's order among the songs reaching that count.
  */
  lemma WinnerSpec(m: Matches)
    requires WellFormed(m) && NoEmptyList(m)
    ensures Winner(m).None? <==> m.offsets == map[]
    ensures Winner(m).Some? ==>
      var b := Winner(m).value;
      b.songId in m.offsets && b == Candidate(m, b.songId) &&
      (forall id :: id in m.offsets ==> Candidate(m, id).count <= b.count) &&
      (forall i :: 0 <= i < |m.order| && Candidate(m, m.order[i]).count == b.count ==> b.songId in m.order[..i + 1])
  {
    if m.order == [] {
      assert forall id :: id !in m.offsets;
    } else {
      var k := LeaderIn(m, |m.order|);
      assert m.order[0] in m.offsets;
      LeaderIsFirstMaximum(m, |m.order|);
      forall id | id in m.offsets ensures Candidate(m, id).count <= Candidate(m, m.order[k]).count {
        var i :| 0 <= i < |m.order| && m.order[i] == id;
      }
      forall i | 0 <= i < |m.order| && Candidate(m, m.order[i]).count == Candidate(m, m.order[k]).count
        ensures m.order[k] in m.order[..i + 1]
      {
        assert m.order[..i + 1][k] == m.order[k];
      }
    }
  }

  /**
    The loop of recognize_song over matches.items(): a song replaces the
    best match only when its count is strictly higher.
  */
  method BestMatch(m: Matches) returns (best: Option<Best>)
    requires WellFormed(m) && NoEmptyList(m)
    ensures best == Winner(m)
  {
    best := None;
    var highestCount := 0;
    var i := 0;
    while i < |m.order|
      invariant 0 <= i <= |m.order|
      invariant best == WinnerIn(m, i) && highestCount == HighestOf(best)
    {
      var songId := m.order[i];
      var offsets := m.offsets[songId];
      var top := MostCommon(offsets);
      var mostCommonOffset := top.0;
      var count := top.1;
      CandidateCountPositive(m, songId);
      if count > highestCount {
        highestCount := count;
        best := Some(Best(songId, count, mostCommonOffset));
      }
      i := i + 1;
    }
  }

  // ---------------------------------------------------------------------
  // The answer

  /**
    The dictionary recognize_song returns. UnknownSong stands for a winner
    whose id has no row in the songs table: the source indexes the None
    that get_song_info returns and fails there.
  */
  datatype Recognition =
    | NotRecognized
    | Recognized(name: string, artist: string, confidence: nat, offset: int)
    | UnknownSong

  /** What recognize_song answers for the dictionary find_matches built. */
  function Recognize(songs: map<int, Song>, m: Matches): (r: Recognition)
    requires WellFormed(m) && NoEmptyList(m)
    ensures r.Recognized? ==> r.confidence >= MinConfidence
  {
    match Winner(m)
    case None => NotRecognized
    case Some(b) =>
      if b.count >= MinConfidence then
        match SongInfo(songs, b.songId)
        case None => UnknownSong
        case Some(info) => Recognized(info.0, info.1, b.count, b.offset)
      else NotRecognized
  }

  /** Threshold: not recognized exactly when there is no winner or its count is below 5. */
  lemma ThresholdDecides(songs: map<int, Song>, m: Matches)
    requires WellFormed(m) && NoEmptyList(m)
    ensures Recognize(songs, m).NotRecognized? <==> Winner(m).None? || Winner(m).value.count < MinConfidence
    ensures Recognize(songs, m).Recognized? ==> Recognize(songs, m).confidence >= MinConfidence
  {
  }

  /**
    A recognition reports the winner's count and offset, with the name and
    artist get_song_info gives for the winner's id.
  */
  lemma RecognitionReportsWinner(songs: map<int, Song>, m: Matches)
    requires WellFormed(m) && NoEmptyList(m)
    requires Recognize(songs, m).Recognized?
    ensures var res := Recognize(songs, m);
      Winner(m).Some? &&
      res.confidence == Winner(m).value.count && res.offset == Winner(m).value.offset &&
      SongInfo(songs, Winner(m).value.songId) == Some((res.name, res.artist))
  {
  }

  /** With no matches at all the answer is "not recognized". */
  lemma EmptyMatchesNotRecognized(songs: map<int, Song>)
    ensures WellFormed(NoMatches) && NoEmptyList(NoMatches)
    ensures Recognize(songs, NoMatches) == NotRecognized
  {
  }

  /** An empty sample or an empty fingerprints table is answered with "not recognized", not an error. */
  lemma EmptyInputNotRecognized(songs: map<int, Song>, rows: seq<Row>, ps: seq<Probe>)
    requires ps == [] || rows == []
    ensures WellFormed(Collect(rows, ps)) && NoEmptyList(Collect(rows, ps))
    ensures Recognize(songs, Collect(rows, ps)) == NotRecognized
  {
  }

  /**
    Querying with the tokens of a stored song: when the table holds the
    rows store_fingerprints wrote for it, there are at least five tokens,
    and every stored row belongs to a song of the songs table, the answer
    is a recognition whose confidence is at least the number of tokens.
  */
  lemma StoredSongIsRecognized(songs: map<int, Song>, rows: seq<Row>, h: HashFn, id: int, tokens: seq<Token>)
    requires forall r :: r in RowsFor(h, id, tokens) ==> r in rows
    requires forall r :: r in rows ==> r.songId in songs
    requires |tokens| >= MinConfidence
    ensures WellFormed(Collect(rows, Probes(h, tokens))) && NoEmptyList(Collect(rows, Probes(h, tokens)))
    ensures Recognize(songs, Collect(rows, Probes(h, tokens))).Recognized?
    ensures Recognize(songs, Collect(rows, Probes(h, tokens))).confidence >= |tokens|
  {
    var ps := Probes(h, tokens);
    var m := Collect(rows, ps);
    CollectSpec(rows, ps);
    StoredSongAlignsAtZero(rows, h, id, tokens);
    assert id in m.offsets;
    MostCommonSpec(m.offsets[id]);
    assert Count(m.offsets[id], 0) >= |tokens|;
    WinnerSpec(m);
    var b := Winner(m).value;
    assert b.count >= |tokens|;
    MatchKeysAreSongsWithHits(rows, ps, b.songId);
    var k, r :| 0 <= k < |ps| && r in rows && r.hash == ps[k].hash && r.songId == b.songId;
  }

  class MusicRecognizer {
    /** The fingerprint index it answers from. */
    const db: FingerprintDatabase

    constructor (db: FingerprintDatabase)
      ensures this.db == db
    {
      this.db := db;
    }

    /**
      recognize_song: fingerprints the sample, collects the offset
      differences per song, picks the best-aligned song and applies the
      threshold.
    */
    method RecognizeSong(g: Grid, median: int, d: DurationTerms, draw: nat -> nat) returns (res: Recognition)
      requires Rectangular(g)
      ensures var m := Collect(db.fingerprints, Probes(db.hash, Fingerprints(g, median, d, draw)));
        WellFormed(m) && NoEmptyList(m)
      ensures res == Recognize(db.songs, Collect(db.fingerprints, Probes(db.hash, Fingerprints(g, median, d, draw))))
    {
      var sampleFingerprints := CreateFingerprint(g, median, d, draw);
      var matches := db.FindMatches(sampleFingerprints);
      var bestMatch := BestMatch(matches);
      if bestMatch.Some? && bestMatch.value.count >= MinConfidence {
        var songId := bestMatch.value.songId;
        var songInfo := db.GetSongInfo(songId);
        if songInfo.None? {
          res := UnknownSong;
        } else {
          res := Recognized(songInfo.value.0, songInfo.value.1, bestMatch.value.count, bestMatch.value.offset);
        }
      } else {
        res := NotRecognized;
      }
    }
  }
}
