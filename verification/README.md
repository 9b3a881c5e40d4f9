# Audio fingerprint matching, modelled in Dafny

This project models the matching engine of a small audio-recognition app. The
engine has three stages:

- **Fingerprinting** (`Fingerprint`, `fingerprint.dfy`). It starts from the
  decibel spectrogram, taken here as an integer grid indexed
  `[frequency bin][time frame]`.
  - A cell is a peak when it equals the maximum of scipy's `maximum_filter`
    over the radius-2 diamond footprint, with the `reflect` boundary, and is
    strictly louder than median + 15.
  - Peaks are listed in `np.where` row-major order.
  - Above `max_peaks` only the loudest are kept, in the ascending-energy
    order `argsort` leaves them in.
  - Every list position is paired with every later position. A token
    `(fa, ft, dt, ta)` is kept when `1 <= dt <= max_delta` and `|ft - fa| > 4`.
  - The token list is cut down to `max_fingerprints` by sampling without
    replacement.
- **The fingerprint index** (`Database`, `database.dfy`).
  - The `songs` and `fingerprints` tables are held in memory by the class
    `FingerprintDatabase`.
  - `store_fingerprints` appends one row `(H(fa, ft, dt), song_id, offset)`
    per token.
  - `find_matches` looks up every sample token's digest. It groups
    `db_offset - sample_offset` per song id in a dictionary that keeps
    insertion order (`Matches`).
- **Alignment voting** (`Recognizer`, `recognizer.dfy`).
  - For each song, `Counter(offsets).most_common(1)` gives the top offset
    and its count.
  - The loop over `matches.items()` keeps the first song with the strictly
    highest count.
  - The result is a recognition only when that count is at least 5.

Each method that works step by step (`GenerateTokens`, `CreateFingerprint`,
`StoreFingerprints`, `FindMatches`, `AppendResults`, `BestMatch`,
`RecognizeSong`) is proved equal to a specification function. The lemmas state
what the source promises about those functions:

- the filter test is a neighbourhood maximum;
- the peak cap keeps the loudest peaks;
- pairing is complete and in order;
- every token passes both filters;
- `find_matches` records exactly one difference per (sample token, matching
  row) pair, and its keys are exactly the songs with a hit;
- the most common offset is maximal and the first one met;
- the winner has the highest count and comes first among equals;
- the threshold is inclusive at 5;
- querying with at least five of a stored song's own tokens, every stored
  row's song being in the songs table, gives a recognition with confidence
  at least the number of tokens (not necessarily naming that song: another
  song with more aligned rows can win).

Two points of the code are worth spelling out:

- **Ties between songs.** The loop over `matches.items()` replaces the best
  match only on a strictly higher count (`>`), so among the songs with the
  highest count the one earliest in the dictionary's insertion order wins.
  That is the song whose first hit came earliest: the earliest sample token,
  then the earliest table row of that token's lookup. `WinnerSpec` states
  this rule.
- **Winner missing from the songs table.** The code indexes the `None` that
  `get_song_info` returns and fails there. The model returns
  `Recognition.UnknownSong` for this case.

## Model

| member | source | states |
|---|---|---|
| Wrappers.Clamp | fingerprint.py:39 | `min(hi, max(lo, x))` lies in `[lo, hi]`, and is `x` when `x` is in range, else the nearer bound |
| Fingerprint.MaxPeaks | fingerprint.py:39 | `max_peaks` always lies in [300, 3000], and equals `int(duration*50)` when that lies in range |
| Fingerprint.MaxDelta | fingerprint.py:55 | `max_delta` always lies in [10, 50], and equals `int(duration/10)` when that lies in range |
| Fingerprint.MaxFingerprints | fingerprint.py:80 | `max_fingerprints` always lies in [5000, 20000], and equals `int(duration*1000)` when that lies in range |
| Fingerprint.FootprintIsDiamond | fingerprint.py:21-22 | the footprint of `generate_binary_structure(2,1)` iterated twice holds exactly the offsets with `|df| + |dt| <= 2` |
| Fingerprint.FootprintIsSmall | fingerprint.py:21-22 | every footprint offset lies within distance 2 on each axis and in the diamond, and the centre offset (0, 0) is one of them |
| Fingerprint.Reflect | fingerprint.py:25 | scipy's `reflect` boundary maps an index up to two cells outside an axis back into the axis |
| Fingerprint.ReflectStaysNear | fingerprint.py:25 | a reflected neighbour is no farther from the cell than the offset it stands for |
| Fingerprint.ReflectedCellIsNear | fingerprint.py:25 | the value the filter reads at an offset is that of an in-grid cell at most that far away |
| Fingerprint.WindowMax | fingerprint.py:25 | the filter value is at least every footprint value and equals one of them |
| Fingerprint.FilterMax | fingerprint.py:25 | `maximum_filter(S_db, footprint=neighborhood)` at one cell is never below the cell itself, since the centre is in the footprint |
| Fingerprint.LocalMax | fingerprint.py:25 | no contract of its own: the test `maximum_filter(S_db) == S_db` at one cell; `LocalMaxIffDominates` proves what it means |
| Fingerprint.IsPeak | fingerprint.py:25-30 | no contract of its own: local maximum and strictly louder than median + 15; `PeakMask` and `Candidates` prove it is the `peaks` test |
| Fingerprint.WindowMaxIsANeighbour | fingerprint.py:25 | the maximum over any offsets inside the diamond is the value of an in-grid cell within Manhattan distance 2 |
| Fingerprint.NeighbourBelowFilterMax | fingerprint.py:25 | every in-grid cell within Manhattan distance 2 is at most the filter maximum |
| Fingerprint.FilterMaxIsANeighbour | fingerprint.py:25 | the filter maximum is the value of an in-grid cell within Manhattan distance 2 |
| Fingerprint.LocalMaxIffDominates | fingerprint.py:25 | `maximum_filter(S) == S` holds at a cell iff no in-grid cell within distance 2 is louder (plateaus qualify) |
| Fingerprint.PeakMask | fingerprint.py:25-30 | the `peaks` array has the grid's shape, and a cell is set iff it is a local maximum and louder than median + 15 |
| Fingerprint.RowPeaks | fingerprint.py:33-35 | the scan of one frequency row lists exactly that row's set cells from frame t on, in frame order |
| Fingerprint.GridPeaks | fingerprint.py:33-35 | the scan of the rows from f on lists exactly their set cells, in row-major order |
| Fingerprint.Candidates | fingerprint.py:29-35 | `np.where(peaks)` lists exactly the peak cells with their energies, in row-major order |
| Fingerprint.SortedPrepend | fingerprint.py:45 | a peak no louder than the head of an ascending list keeps it ascending |
| Fingerprint.InsertByEnergy | fingerprint.py:45 | insertion keeps the list ascending by energy and adds exactly the one peak |
| Fingerprint.SortByEnergy | fingerprint.py:45 | `argsort` order: ascending by energy and a permutation of the input |
| Fingerprint.TopSliceDominates | fingerprint.py:45 | in an ascending list, the last k split off the rest, and each of them is at least as loud as each dropped peak |
| Fingerprint.SortedSuffix | fingerprint.py:45-47 | the kept tail of an ascending list is still ascending |
| Fingerprint.TopSliceKeepsLoudest | fingerprint.py:45-47 | `[-max_peaks:]` of the sorted peaks is a sub-multiset of the candidates, and no dropped candidate is louder than any kept peak |
| Fingerprint.CapPeaks | fingerprint.py:42-47 | within budget the list is unchanged; over budget exactly `max_peaks` peaks remain, ascending by energy, drawn from the candidates, each at least as loud as every dropped one |
| Fingerprint.SelectPeaks | fingerprint.py:42-47 | the peak list that is paired holds at most `max_peaks` peaks; `SelectedPeaksAreLoudLocalMaxima` states what they are |
| Fingerprint.SelectedPeaksAreLoudLocalMaxima | fingerprint.py:20-47 | every paired peak is an in-grid cell carrying its energy, louder than median + 15 and not beaten within distance 2; there are `min(#candidates, max_peaks)` of them |
| Fingerprint.Accept | fingerprint.py:70-73 | no contract of its own: `1 <= time_delta <= max_delta` and `abs(freq_target - freq_anchor) > 4`; `AcceptedPairs` proves which pairs pass |
| Fingerprint.TokenAt | fingerprint.py:75 | no contract of its own: the token `(freq_anchor, freq_target, time_delta, time_anchor)` of positions i and j; `TokensOfAt` ties it to the k-th accepted pair |
| Fingerprint.PairTokens | fingerprint.py:57-76 | no contract of its own: the tokens the nested loops append; `PairTokensFromAcceptedPairs` and `GeneratedTokensWellFormed` prove what they are |
| Fingerprint.AnchorPairsSpec | fingerprint.py:63-73 | the inner loop for anchor i keeps exactly the later positions passing both filters, in increasing j |
| Fingerprint.PairsBeforeSpec | fingerprint.py:57-73 | after the first n anchors, exactly the accepted pairs with anchor below n are listed, ordered by i then j |
| Fingerprint.LexSortedConcat | fingerprint.py:57-63 | anchor i's pairs appended after those of earlier anchors keep the (i, j) order |
| Fingerprint.AcceptedPairs | fingerprint.py:57-76 | the accepted pairs are exactly the pairs i < j passing `1 <= dt <= max_delta` and the frequency gap > 4, each listed once, ordered by i then j |
| Fingerprint.TokensOfAt | fingerprint.py:75 | the k-th token is the one built from the k-th accepted pair |
| Fingerprint.TokensOfConcat | fingerprint.py:76 | appending tokens for more pairs extends the token list by their tokens |
| Fingerprint.AnchorTokensOfPairs | fingerprint.py:63-76 | anchor i's tokens are the tokens of its accepted pairs, in order |
| Fingerprint.TokensBeforeOfPairs | fingerprint.py:57-76 | the tokens after n anchors are those of the pairs accepted so far, in order |
| Fingerprint.PairTokensFromAcceptedPairs | fingerprint.py:57-76 | one token `(freq[i], freq[j], time[j]-time[i], time[i])` per accepted pair, in pair order, each with `1 <= dt <= max_delta` and `abs(ft - fa) > 4` |
| Fingerprint.GenerateTokens | fingerprint.py:51-76 | the nested loops append exactly the tokens of the accepted pairs, in (i, j) order |
| Fingerprint.Sample | fingerprint.py:82 | `random.sample` returns k elements drawn without replacement: a sub-multiset of the pool |
| Fingerprint.CapTokens | fingerprint.py:80-82 | the final list has `min(len(tokens), max_fingerprints)` tokens, is a sub-multiset of the generated ones, and is unchanged within budget |
| Fingerprint.Fingerprints | fingerprint.py:20-84 | `create_fingerprint` never returns more than `max_fingerprints` tokens; `FingerprintTokensWellFormed` states what each token is |
| Fingerprint.CreateFingerprint | fingerprint.py:20-84 | the method returns the peak test, peak cap, pairing and token cap composed |
| Fingerprint.GeneratedTokensWellFormed | fingerprint.py:57-76 | every generated token comes from positions i < j of the peak list and passes both filters |
| Fingerprint.FingerprintTokensWellFormed | fingerprint.py:20-84 | every returned token comes from two selected peaks i < j, has `1 <= dt <= max_delta` and a gap > 4; the list is a capped sub-multiset of all pair tokens |
| Database.RowsFor | database.py:44-52 | one row per token, in token order, carrying `H(fa, ft, dt)`, the song id and the anchor time |
| Database.HashOf | database.py:49-50 | no contract of its own: the md5 digest of the triple (fa, ft, dt); `EqualTriplesCollide` proves it depends on the triple only |
| Database.RowOf | database.py:49-52 | no contract of its own: the row `(hash_str, song_id, int(offset))` of one token; `RowsFor` states the rows of a token list |
| Database.EqualTriplesCollide | database.py:49-50 | a stored token and a sample token with the same `(fa, ft, dt)` get the same digest whatever their song or offset |
| Database.Lookup | database.py:66-67 | `SELECT ... WHERE hash = ?` never returns more rows than the table holds |
| Database.LookupCounts | database.py:66-67 | each row carrying the digest comes back exactly as many times as it is stored, and no other row comes back |
| Database.LookupOrder | database.py:66-67 | the result is the table filtered by digest: result k is table row `idx[k]`, the indices strictly increase, and every row index carrying the digest is among them |
| Database.LookupSound | database.py:66-67 | every returned row is a stored row carrying the digest |
| Database.LookupFinds | database.py:66-67 | every stored row carrying the digest is returned |
| Database.ProbeOf | database.py:60-63 | no contract of its own: the `(hash_str, sample_offset)` a sample token is looked up with; `EqualTriplesCollide` relates it to the stored row |
| Database.Probes | database.py:60-63 | one probe per sample token, in token order, the k-th built from the k-th token |
| Database.AddHit | database.py:70-78 | no contract of its own: insert an empty list on a new key, then append; `AddHitKeepsShape`, `AddHitHits` and `AddHitTotal` state its effect |
| Database.AddHits | database.py:69-78 | no contract of its own: the inner loop over one lookup's rows; `AddHitsKeepsShape`, `AddHitsHits` and `AddHitsTotal` state its effect |
| Database.Collect | database.py:58-80 | no contract of its own: the dictionary `find_matches` returns; `CollectShape`, `CollectSpec` and `MatchKeysAreSongsWithHits` state what it holds |
| Database.AddHitKeepsShape | database.py:70-78 | inserting then appending keeps each key listed once in insertion order, with no empty list |
| Database.AddHitHits | database.py:70-78 | one append adds the difference to the end of that song's list and changes no other list |
| Database.AddHitTotal | database.py:70-78 | one append adds exactly one offset in all |
| Database.SumLensAppend | database.py:70-71 | a key appended to the order adds the length of its list to the total |
| Database.SumLensElsewhere | database.py:70-78 | changing the list of a key that is not in the order leaves the total unchanged |
| Database.SumLensUpdate | database.py:78 | replacing the list of a key listed once changes the total by the difference in list lengths |
| Database.AddHitsKeepsShape | database.py:69-78 | the inner loop keeps the dictionary well formed, with no empty list |
| Database.AddHitsHits | database.py:69-78 | the inner loop appends, to each song's list, its rows' differences in result order |
| Database.AddHitsTotal | database.py:69-78 | the inner loop adds one offset per result row |
| Database.AddHitsStep | database.py:69-78 | one more result row is one more insert-then-append |
| Database.CollectStep | database.py:60-78 | one more sample token runs the inner loop over its lookup results |
| Database.CollectShape | database.py:58-80 | the dictionary lists each key once and maps no key to an empty list |
| Database.CollectSpec | database.py:58-80 | each song's list is its reference list of differences, and the offsets number one per (sample token, matching row) pair |
| Database.HitsForSound | database.py:69-78 | every difference in one lookup's share for a song comes from a result row of that song |
| Database.HitsForComplete | database.py:69-78 | every result row of a song puts its difference into that song's share |
| Database.SongOffsetsSound | database.py:60-78 | every difference in a song's list is `db_offset - sample_offset` of a sample token and a row of that song with its hash |
| Database.SongOffsetsLast | database.py:60-78 | the last sample token's matching rows put their differences into their songs' lists |
| Database.SongOffsetsAt | database.py:60-78 | for every sample token and every stored row of the song with the same hash, the difference is in the song's list, at a position the lemma returns |
| Database.SongOffsetsComplete | database.py:60-78 | for every sample token and stored row of the song with the same hash, the difference is in the song's list |
| Database.MatchKeysAreSongsWithHits | database.py:69-72 | a song id is a key exactly when some sample token hits one of its rows |
| Database.HitIsRecorded | database.py:60-78 | each (sample token, row with equal hash) pair puts `db_offset - sample_offset` under the row's song id |
| Database.EmptyTableHasNoHits | database.py:58-80 | with an empty table the dictionary is empty |
| Database.NoMatchesWithoutInput | database.py:58-80 | an empty token list or an empty table yields an empty dictionary |
| Database.SongOffsetsCountStep | database.py:60-78 | a difference's count in a song's list adds up token by token |
| Database.LastProbeAlignsAtZero | database.py:60-78 | a sample token whose own row is stored adds one more difference 0 |
| Database.StoredProbesAlignAtZero | database.py:60-78 | when every sample token's own row is stored, difference 0 occurs at least once per token |
| Database.StoredSongAlignsAtZero | database.py:44-80 | querying with the tokens a song was stored with gives that song at least one difference 0 per token |
| Database.SongInfo | database.py:82-84 | no contract of its own: (name, artist) of the id, None when absent; `AddedSongIsFound` and `GetSongInfo` state its behaviour |
| Database.AddedSongIsFound | database.py:38-42 | the added song is found under its id, and other ids are unaffected |
| Database.AppendResults | database.py:69-78 | the inner loop over the lookup results computes the inner-loop specification |
| Database.FingerprintDatabase.constructor | database.py:7-36 | a new database has empty tables |
| Database.FingerprintDatabase.AddSong | database.py:38-42 | the new id is one past the largest so far and was not in use, the song is stored under it, and the fingerprints are untouched |
| Database.FingerprintDatabase.StoreFingerprints | database.py:44-56 | the table becomes the old rows followed by one row per token; existing rows are unchanged, and the songs-table invariant is kept |
| Database.FingerprintDatabase.FindMatches | database.py:58-80 | the result is the specified dictionary for the current table and the sample, well formed with no empty list; the table is not modified |
| Database.FingerprintDatabase.GetSongInfo | database.py:82-84 | returns (name, artist) exactly when the id is in the songs table |
| Recognizer.Count | recognizer.py:34 | a `Counter` entry is positive exactly for the offsets in the list |
| Recognizer.TopIndex | recognizer.py:34-35 | the scan picks a position among the first n; `TopIndexIsFirstMaximum` proves it is the first maximum |
| Recognizer.MostCommon | recognizer.py:34-35 | no contract of its own: the offset at the top position and its count; `MostCommonSpec` proves it is `most_common(1)[0]` |
| Recognizer.TopIndexIsFirstMaximum | recognizer.py:34-35 | that position's count is the largest, and every earlier position's count is strictly smaller |
| Recognizer.MostCommonSpec | recognizer.py:34-35 | `most_common(1)[0]` is an offset of the list with count >= 1; no value occurs more often; on a tie it is the one met first |
| Recognizer.CandidateCountPositive | recognizer.py:34-37 | a song's top count is at least 1, so the first song always beats `highest_count = 0` |
| Recognizer.LeaderIn | recognizer.py:32-39 | the leader after n keys is one of the first n; `LeaderIsFirstMaximum` proves it is the first with the highest count |
| Recognizer.Candidate | recognizer.py:34-39 | no contract of its own: the `(song_id, count, most_common_offset)` triple a song proposes; `CandidateCountPositive` and `WinnerSpec` are stated on it |
| Recognizer.WinnerIn | recognizer.py:29-39 | no contract of its own: `best_match` after the first n keys, None before any; `BestMatch` keeps it as its loop invariant |
| Recognizer.HighestOf | recognizer.py:30-38 | no contract of its own: `highest_count`, 0 while there is no best match; `BestMatch` keeps it equal to the best match's count |
| Recognizer.Winner | recognizer.py:29-39 | `best_match` stays None exactly when the dictionary has no key; `WinnerSpec` states which key wins |
| Recognizer.LeaderIsFirstMaximum | recognizer.py:32-39 | the leader's count is the highest among the first n songs, and every earlier song's count is strictly lower |
| Recognizer.WinnerSpec | recognizer.py:29-39 | none iff matches is empty; otherwise a key with its own top offset and count, the highest count of all songs, and the first key in order to reach it |
| Recognizer.BestMatch | recognizer.py:29-39 | the loop with strict `>` ends with the specified winner |
| Recognizer.Recognize | recognizer.py:41-54 | a recognition always carries a confidence of at least 5; `ThresholdDecides` and `RecognitionReportsWinner` state the rest |
| Recognizer.ThresholdDecides | recognizer.py:41-54 | not recognized iff there is no winner or its count is below 5, so a count of 4 is rejected and 5 accepted |
| Recognizer.RecognitionReportsWinner | recognizer.py:41-48 | a recognition carries `get_song_info` of the winning id, and the winner's count and offset |
| Recognizer.EmptyMatchesNotRecognized | recognizer.py:29-30 | an empty matches map gives `{'recognized': False}` |
| Recognizer.EmptyInputNotRecognized | recognizer.py:24-54 | an empty sample or an empty table is answered with "not recognized", never an error |
| Recognizer.StoredSongIsRecognized | recognizer.py:24-48 | querying with at least 5 tokens a stored song was indexed with, when every row's song is in the songs table, is recognized with confidence at least the token count |
| Recognizer.MusicRecognizer.constructor | recognizer.py:7-8 | the recognizer answers from the given database |
| Recognizer.MusicRecognizer.RecognizeSong | recognizer.py:24-54 | the answer is the specified recognition of the sample's fingerprints against the current tables |

## Left out

- Waveform loading, the STFT and the decibel conversion (fingerprint.py:8-18) are floating-point DSP done by librosa. The model starts from an integer grid.
- The median of the decibel grid is a parameter, not computed (`numpy.median` of a float array).
- `int(duration * 50)`, `int(duration / 10)` and `int(duration * 1000)` are integer parameters (`DurationTerms`). The float duration and its truncation are not modelled.
- Fingerprint.SortByEnergy: `argsort` is not stable, so equal-energy peaks may come out in any order. The model uses one ascending order (a stable insertion sort). The properties proved about the cap (size, sub-multiset, loudest kept) hold for every tie order; the exact order of equal-energy peaks does not.
- Fingerprint.Sample: the random generator is the parameter `draw`. Only the size and the sub-multiset property are claimed, not the distribution of `random.sample`.
- md5 of `"fa|ft|dt"` is an abstract function `HashFn` of the triple, returning the number the hex digest spells. No property of the digest is assumed, and distinct triples may collide.
- SQLite persistence, connections, cursors and commits are not modelled. A database starts with empty tables, and rows come back from `WHERE hash = ?` in insertion order (SQLite does not promise an order without `ORDER BY`).
- Database.FingerprintDatabase.AddSong: `lastrowid` is modelled as the largest id handed out plus one. SQLite's reuse rules after deletions are not modelled, since nothing deletes rows.
- `get_all_songs`, `close`, `MusicRecognizer.add_song_to_database` (a file-loading wrapper around `add_song`, `create_fingerprint` and `store_fingerprints`), `app.py` and the browser scripts are outside this model.
- The conversion `offset * 0.0232` to seconds (recognizer.py:49) is floating point. `Recognized.offset` holds the winning offset in frames.
- Recognizer.RecognizeSong: the TypeError raised when the winning id has no song row is modelled as the value `UnknownSong`, not as an exception.
- Recognizer.BestMatch requires every list in `matches` to be non-empty, as `find_matches` guarantees (`CollectShape`). `Counter([]).most_common(1)[0]` would raise IndexError, and no caller can produce that case.
