# Stimulus playback machine and house-light state, modelled in Dafny

This project models the sequential core of the experiment engine in
`lib/engine.py`. It has three parts.

- **The stimulus playback machine (`JukeBox`).** Construction reads a list of
  stimulus records. Each record has a name, a frequency and a map from response
  action to consequence. Construction rejects any consequence whose reward and
  punishment probabilities add up to more than 1; a missing key counts as 0. It
  records a cue location per stimulus name: the last action whose consequence
  names a reward probability. It lays out a playlist in which stimulus index `i`
  appears `frequency` times, and can shuffle it. Iteration draws playlist
  entries one at a time and remembers the name of the stimulus drawn last.
  `current_cue` looks that name up in the cue-location table.
- **The house-light state (`Sun`).** It starts dark, at night, with a given
  clock interval. Its snapshot callback copies brightness and daytime from a
  house-light snapshot and accepts every snapshot.
- **The house-light snapshot (`HlState`).** It has four fields, taken from
  `lib/house_light.py`. Its brightness is a protobuf `int32`.

Files:

- `wrappers.dfy` holds `Option` and `Result`. `Result` stands for the source's
  exceptions.
- `stimuli.dfy` holds the records, the probability check, the error that
  aborts construction, and the cue-location rule with its table.
- `playlist.dfy` holds the grouped playlist, its counting and ordering lemmas,
  and numpy's flatten as the code writes it (see Findings). It also holds the
  in-place shuffle.
- `house_light.dfy` holds the snapshot record.
- `engine.dfy` holds the construction loops as methods, the `JukeBox` class
  and the `Sun` class.

Randomness is a parameter. `Shuffle` follows numpy's in-place Fisher–Yates
loop: for each position `i` from the last down to 1, it swaps that position
with a position `j` in `[0, i]`. The parameter `draw(i)` supplies the
generator's choice of `j`.

Python's `None` becomes `Option.None`. A `raise` becomes a `Failure` value. A
missing attribute also becomes a `Failure` value: `self.iter` does not exist
before `__iter__` runs, so `__next__` fails with `NotIterating`.

## Model

| member | source | states |
|---|---|---|
| `Stimuli.WithinOneCases` | lib/engine.py:163-165 | Characterises `Weight`, `Total` and `WithinOne`, the sum with an absent key counted as 0 and the `> 1` test. A consequence with neither key always passes. One with a single key passes exactly when that probability is at most 1. One with both passes exactly when their sum is at most 1. |
| `Stimuli.ResponsesError` | lib/engine.py:162-167 | Gives no error exactly when every response's `p_reward + p_punish` is at most 1, with an absent key counted as 0. Otherwise the error names the first offending action in the map's order, and every earlier response is within bounds. |
| `Stimuli.StimulusError` | lib/engine.py:162-171 | A stimulus fails exactly when one of its responses exceeds 1 or its frequency is negative, which makes `np.repeat` refuse. A probability error is the one `ResponsesError` reports for the stimulus's responses. A negative-frequency error carries the stimulus's name and is reported only when every response passed. |
| `Stimuli.FirstError` | lib/engine.py:160-171 | Construction fails exactly when some stimulus fails. The error is that of a stimulus all of whose predecessors passed. |
| `Stimuli.ResponsesErrorPrefix` | lib/engine.py:162-167 | The bare `raise` aborts the loop: once a prefix of the responses holds a bad one, the whole list reports that same error. |
| `Stimuli.FirstErrorPrefix` | lib/engine.py:160-167 | Once a prefix of the stimuli holds a bad one, the whole list reports that same error. |
| `Stimuli.CueLocation` | lib/engine.py:161-169 | Gives None exactly when no consequence has a `p_reward` key. Otherwise it gives an action whose consequence has that key, with no later action having it: the last one in map order. |
| `Stimuli.RewardKeyDecidesCue` | lib/engine.py:168-169 | Characterises `Rewarded`, the `'p_reward' in consq` test: the key's presence decides the cue, not its value. An action whose reward probability is 0 still becomes the cue location when it comes last. A later action with only a punishment probability does not displace it. |
| `Stimuli.CueLocations` | lib/engine.py:156-170 | The cue-location table has an entry for exactly the names of the stimuli. |
| `Stimuli.CueLocationsLastWins` | lib/engine.py:170 | The entry for a name is the cue location of the last stimulus with that name, so later records overwrite earlier ones. |
| `Stimuli.CueLocationsOfDistinct` | lib/engine.py:170 | When names are distinct, every stimulus's own cue location is its entry. |
| `Playlist.RepeatCount` | lib/engine.py:171 | `Playlist.Repeat`, the model of `np.repeat(i, n)`, holds `i` exactly `n` times and nothing else. |
| `Playlist.Grouped` | lib/engine.py:157-173 | The unshuffled playlist is as long as the sum of the frequencies, and each entry is a valid stimulus index. |
| `Playlist.GroupedCount` | lib/engine.py:171-173 | Index `i` occurs exactly `frequency_i` times. An index past the last stimulus never occurs. |
| `Playlist.GroupedSorted` | lib/engine.py:171-173 | The unshuffled playlist keeps stimulus order: it never steps back to a smaller index. |
| `Playlist.GroupedAt` | lib/engine.py:171-173 | Positions `Sum(f[..i])` up to, but not including, `Sum(f[..i]) + f[i]` hold index `i`: the groups are laid end to end in stimulus order. |
| `Playlist.ConcatRows` | lib/engine.py:171-173 | Concatenating the appended `np.repeat` rows gives the grouped playlist. |
| `Playlist.EqualFrequenciesFlatten` | lib/engine.py:173 | When all frequencies are equal, `Playlist.FlattenAsWritten`, the model of `np.array(rows).flatten()`, gives exactly the grouped playlist. |
| `Playlist.RaggedFlattenFails` | lib/engine.py:173 | With two different frequencies, `Playlist.FlattenAsWritten` fails, although the grouped playlist exists and counts each index correctly. |
| `Playlist.RaggedExample` | lib/engine.py:173 | Frequencies `[1, 2]`: the flatten as written fails, while the intended playlist is `[0, 1, 1]`. |
| `Playlist.Shuffle` | lib/engine.py:174-175 | Shuffling in place only permutes the playlist: its multiset of indices is unchanged. |
| `Engine.ScanResponses` | lib/engine.py:161-169 | The inner loop fails exactly when a response exceeds 1, with the first such error. Otherwise it returns the stimulus's cue location. |
| `Engine.ScanStep` | lib/engine.py:160-171 | A passing stimulus extends the table by its own entry and the playlist by its own group. |
| `Engine.ScanFails` | lib/engine.py:160-171 | A failing stimulus after a clean prefix decides construction's error. |
| `Engine.Scan` | lib/engine.py:156-172 | The outer loop fails exactly when some stimulus is bad, with the first error. Otherwise it returns the cue-location table and the grouped playlist. |
| `Engine.PermutedCounts` | lib/engine.py:171-175 | Any permutation of the grouped playlist is as long as the sum of the frequencies, holds index `i` exactly `frequency_i` times, and holds only valid indices. |
| `Engine.JukeBox.constructor` | lib/engine.py:141-145 | A fresh machine is not playing (`None`), has no iterator and no current stimulus. Given a cue table built from its records and a playlist of valid indices, it satisfies the object invariant. |
| `Engine.JukeBox.Spawn` | lib/engine.py:148-175 | Fails exactly when validation fails, with the first error. Otherwise it keeps the stimulus directory and records, and the cue-location table. The playlist is a permutation of the grouped playlist, and exactly the grouped playlist when `shuffle` is false. The object invariant holds. |
| `Engine.JukeBox.Layout` | lib/engine.py:173-175 | The playlist array holds the same multiset of indices as the laid-out playlist, and the same sequence when not shuffled. |
| `Engine.JukeBox.Iter` | lib/engine.py:195-199 | `__iter__` puts the cursor at the start of the playlist, sets `playing` to False and `stimulus` to None, and keeps the invariant. |
| `Engine.JukeBox.Next` | lib/engine.py:201-204 | The draw at cursor `k` returns `stim_data[playlist[k]]`, advances the cursor and sets `stimulus` to that record's name. Without an iterator, or past the end, it fails and changes nothing. After a draw, `current_cue` returns the table entry for the drawn name. |
| `Engine.JukeBox.CurrentCue` | lib/engine.py:206-210 | Fails exactly when no stimulus has been drawn. Otherwise it returns the table entry for the current name, which is always present. |
| `Engine.Sun.Spawn` | lib/engine.py:71-77 | The house light starts with brightness 0, daytime False and the given interval. |
| `Engine.Sun.LightUpdate` | lib/engine.py:95-98 | Copies brightness and daytime from the snapshot, changes nothing else (the interval is constant) and always reports a match. |

## Findings

| source | as written | input that shows it | evidently intended | confidence | as-written member | corrected member |
|---|---|---|---|---|---|---|
| lib/engine.py:171-173 | The code appends one `np.repeat(i, frequency)` row per stimulus, stacks the rows with `np.array(playlist)` and flattens the result. This is a concatenation only when every row has the same length. With ragged rows, numpy 1.24 and later refuse to build the array. Older numpy builds an object array of rows, and indexing `stim_data` with a row then fails. | Stimulus frequencies `[1, 2]` | The rows laid end to end: `[0, 1, 1]` | medium; not executed | `Playlist.FlattenAsWritten`, `Playlist.RaggedExample` | `Playlist.Grouped`, `Playlist.GroupedCount` |

`Engine.Scan` and `Engine.JukeBox.Spawn` use the corrected concatenation.

## Left out

- Reading the configuration file (lib/engine.py:151-154) is left out. The model takes the parsed `Config` record as input.
- The audio-directory requests after the playlist is built are left out, along with their mismatch log and the sample rate read from the reply (lib/engine.py:177-193). They are network round trips through `Request`, and lib/contact.py is not part of this model.
- `play` and `stop` (lib/engine.py:212-257) are left out. So are `set_feeder`, `feed`, `cue`, `blip` and `Sun.cycle` (lib/engine.py:14-66, 79-106). All of them are asynchronous orchestration over `catch` and `Request`, which are defined in lib/contact.py. Because of this the model never sets `playing` to True, and `stim_duration` (a float computed in `play`) is absent.
- Logging is left out.
- `Playlist.Shuffle` is modelled as numpy's swap loop driven by the `draw` parameter. The model does not state which permutations are reachable or how likely each one is.
- Probabilities are exact `real`s. Floating-point rounding in the sum at lib/engine.py:163-165 is not modelled. Non-numeric probability values are not modelled either.
- `Engine.JukeBox.Spawn` takes `shuffle` as a required argument. The source's default `shuffle=True` (lib/engine.py:148) is not modelled.
- `Engine.JukeBox.Spawn` succeeds on stimuli whose frequencies differ, whereas the code as written fails there (see Findings).
- A failure is a `Failure` value carrying which check failed. The Python exception type is not modelled: `RuntimeError` from the bare `raise`, `ValueError` from `np.repeat`, `AttributeError` before `__iter__` and `StopIteration`.
- `Engine.JukeBox.CurrentCue` uses one failure for two cases: `stimulus` is None after `__iter__`, or the attribute does not exist yet before `__iter__` (an `AttributeError`).
- A stimulus record is modelled with only its `name`, `frequency` and `responses`. `Next` returns that record, without any other keys the configuration may carry.
- `responses` is modelled as the map's items in iteration order. Duplicate keys in the JSON object are resolved by the parser, which is not modelled.
- `__iter__` returning `self` is not modelled as a return value.
- The `Sun` interval is an integer, and the `HlState` fields `manual` and `ephemera` are carried but unused.
- lib/interact.py repeats the playlist and iterator code and is not valid Python. lib/communicate.py is socket plumbing. Neither is modelled.
