# Colour palette selection state, in Dafny

A model of the deterministic core of the ColorChef front end (`src/App.js`): the
`App` component keeps the extracted palette as four parallel arrays — active colours,
their regions, reserve colours, their regions — plus a list of colours picked by clicking
the image and a requested colour count. The randomize button zips the four arrays into
colour/region pairs, shuffles them with Fisher–Yates and splits them again at the count.
A video drop adds a trim window (start, end, duration in seconds) that is limited to five
seconds. Around these sit small pure helpers: the `#rrggbb` label of a colour, the image
validation before posterizing, the dimension step of the image downscale and the API base
address.

Modules:

- `Pairs` (`pairs.dfy`): colours, regions, pairs; the three-tier region lookup by combined
  index; unzipping; the split at the count.
- `Shuffle` (`shuffle.dfy`): `shuffleArray` as a method over a fresh array with its loop,
  proved against the recursive specification `Shuffled`. `Math.random` is replaced by an
  injected sequence `picks`, where `picks[i]` is the index in `[0, i]` drawn at loop index `i`.
- `Selection` (`selection.dfy`): the class `SelectionState` with the component's six
  selection fields and one method per handler that rewrites them.
- `HexColor` (`hex.dfy`): `toString(16)`, `padStart` and the label, with a decoder that
  reads labels back.
- `Trim` (`trim.dfy`): the class `TrimWindow` over `real` seconds; each slider's range is a
  precondition on the value its handler receives.
- `Upload` (`upload.dfy`): `validateImage`, the `compressImage` dimension step and `apiUrl`.
- `Wrappers` (`wrappers.dfy`): `Option`.

Where the code departs from what the trim window and the palette evidently intend, the model follows the code:

- A metadata load does not reset the trim start.
- The `VideoControls` start guard checks only the span. A start past the end is accepted.
- A video extract response leaves both region arrays as they were.
- Changing the colour count moves no pair between active and reserve. The new count takes
  effect at the next randomize or extract.
- The ingest performs no validation of its own. Colours are channel triples by type.
- Late extract responses for a file that has since been replaced are applied like any other.

## Model

| member | source | states |
|---|---|---|
| `Pairs.RegionAt` | src/App.js:283-289 | combined index i gets element i of the active regions followed by the reserve regions, and the centre point (0.5, 0.5) past their end |
| `Pairs.BuildPairs` | src/App.js:280-292 | one pair per combined colour, in order; pair i keeps colour i and gets region i of the two region lists, or the centre point past their end |
| `Pairs.ColorsOf` | src/App.js:305-307 | the colour list has one entry per pair |
| `Pairs.RegionsOf` | src/App.js:306-308 | the region list has one entry per pair |
| `Pairs.Take` | src/App.js:301 | `slice(0, n)` is a prefix of min(n, length) pairs |
| `Pairs.Drop` | src/App.js:302 | `slice(n)` is the suffix of the remaining pairs, which completes the list |
| `Pairs.ColorsOfBuildPairs` | src/App.js:280-292 | unzipping the built pairs gives back exactly `colors ++ reserveColors` |
| `Pairs.RegionsOfBuildPairs` | src/App.js:280-292 | the regions given to the pairs are the active then the reserve regions, cut to the number of colours or padded with the centre point (0.5, 0.5) |
| `Pairs.ActiveColorBorrowsReserveRegion` | src/App.js:283-289 | the first active colour past the end of `colorRegions` takes the first reserve region (the combined-index quirk), not the centre point |
| `Pairs.BuildPairsOfMatchedArrays` | src/App.js:280-292 | with one region per colour in both blocks, the pairs are the active zip followed by the reserve zip |
| `Pairs.TakeDropSplit` | src/App.js:301-302 | `slice(0, n)` and `slice(n)` together give the whole list; the active part has min(n, length) pairs |
| `Pairs.RebuildAfterSplit` | src/App.js:301-308 | unzipping a split list into the four arrays and building pairs again gives the same list, so no colour is separated from its region |
| `Shuffle.Swap` | src/App.js:10 | the element swap exchanges positions i and j and keeps the length |
| `Shuffle.SwapKeepsOthers` | src/App.js:10 | the element swap leaves every position other than i and j unchanged |
| `Shuffle.SwapPermutes` | src/App.js:10 | a swap keeps the multiset of elements |
| `Shuffle.ShuffleFrom` | src/App.js:8-11 | the loop's iterations from index i down to 1 keep the length |
| `Shuffle.ShuffleFromPermutes` | src/App.js:8-11 | the iterations from index i down to 1 yield a permutation (same multiset) |
| `Shuffle.Shuffled` | src/App.js:6-13 | the shuffled value has the input's length and multiset |
| `Shuffle.ShuffleArray` | src/App.js:6-13 | the loop over a fresh copy returns `Shuffled(input, picks)`: same length and a permutation of the input; the input is a value and is not changed |
| `Shuffle.IdentityPicksKeepOrder` | src/App.js:8-11 | when every draw picks the current index, the shuffle returns its input unchanged |
| `Shuffle.ShuffleFromKeepsTail` | src/App.js:8-11 | positions above the current loop index are never touched again |
| `Shuffle.LastPositionIsPicked` | src/App.js:8-11 | the last position ends up holding the element at the index drawn for it |
| `Selection.SelectionState.constructor` | src/App.js:17-24 | all five lists start empty and the count starts at 4 |
| `Selection.SelectionState.Randomize` | src/App.js:269-309 | no change when `colors` or `reserveColors` is empty; otherwise the four arrays are the colours and regions of the first min(numColors, n) and of the remaining shuffled pairs; equal lengths per side; the rebuilt pool is the shuffled pool, a permutation of the old one; picked colours and count untouched |
| `Selection.SelectionState.Ingest` | src/App.js:204-214 | a failed call changes nothing; a response sets both colour lists; an image response also sets both region lists, a video response leaves them; picked colours and count untouched |
| `Selection.SelectionState.ResetOnDrop` | src/App.js:123-142 | a drop empties the four palette arrays and the picked colours and leaves the count |
| `Selection.SelectionState.PickColor` | src/App.js:57 | a click appends exactly the sampled colour at the end of the picked colours |
| `Selection.SelectionState.IncrementCount` | src/App.js:1098 | + raises the count by one up to 20 and keeps it in [1, 20] |
| `Selection.SelectionState.DecrementCount` | src/App.js:1104 | - lowers the count by one down to 1 and keeps it in [1, 20] |
| `Selection.SelectionState.SetCount` | src/App.js:977-983 | the slider sets the count to its value in [1, 20] |
| `Selection.IngestedPool` | src/App.js:204-208 | after an image response with one region per colour, the pool is the active zip followed by the reserve zip, n + m pairs |
| `Selection.RandomizeConserves` | src/App.js:298-308 | the new active and reserve arrays zip back to the shuffled pairs, their union is a permutation of the pool, and the active part has min(numColors, pool size) pairs |
| `Selection.IngestThenRandomize` | src/App.js:269-309 | ingesting 4 active and 2 reserve colours and randomizing leaves 4 active colours and the same 6 pairs |
| `HexColor.ToBase16` | src/App.js:246 | `toString(16)` of a non-negative integer is a non-empty string of lowercase hex digits, at most two for a channel |
| `HexColor.PadStart` | src/App.js:246 | `padStart(n, c)` yields max(n, length) characters: the string itself when long enough, otherwise fill characters followed by the string |
| `HexColor.HexByte` | src/App.js:246 | a channel becomes exactly two lowercase hex digits |
| `HexColor.Hex` | src/App.js:1075 | a label has seven characters and starts with `#` |
| `HexColor.Labels` | src/App.js:239-246 | one `#`-prefixed seven-character label per colour, label i being `Hex` of colour i (also src/App.js:1074-1075) |
| `HexColor.HexByteNibbles` | src/App.js:246 | a channel is written as its high and low hex digit, zero-padded to two |
| `HexColor.HexByteReadsBack` | src/App.js:246 | the two digits of a channel read back as its value in base 16 |
| `HexColor.HexShape` | src/App.js:246 | every label has length 7, starts with `#` and the rest are lowercase hex digits |
| `HexColor.HexRoundTrip` | src/App.js:1075 | decoding a label returns the colour |
| `HexColor.HexInjective` | src/App.js:1075 | distinct colours get distinct labels |
| `HexColor.RedGreenLabels` | src/App.js:239-246 | red and green are labelled `#ff0000` and `#00ff00` |
| `Trim.TrimWindow.constructor` | src/App.js:26-28 | the window starts as duration 0, start 0, end 5 |
| `Trim.ControlsAcceptsStart` | src/App.js:533 | the guard as written accepts a start exactly when end - start <= 5, in particular every start at or after the end |
| `Trim.TrimWindow.LoadMetadata` | src/App.js:869-876 | a load sets duration d and end min(5, d) and leaves start; the window is then valid when start was 0 (also src/App.js:111-114) |
| `Trim.TrimWindow.LoadMetadataReset` | src/App.js:111-114 | corrected load: start reset to 0, so the window is always valid afterwards |
| `Trim.TrimWindow.ControlsSetStart` | src/App.js:531-536 | the new start is taken exactly when end - newStart <= 5, otherwise nothing changes |
| `Trim.TrimWindow.ControlsSetStartChecked` | src/App.js:531-536 | corrected guard: a start past the end is rejected too, so a valid window stays valid |
| `Trim.TrimWindow.SetEnd` | src/App.js:544-550 | an end inside [start, min(duration, start + 5)] keeps start <= end <= duration and end - start <= 5 |
| `Trim.TrimWindow.TrimmerSetStart` | src/App.js:884-887 | with the start in [0, max(0, duration - 5)], end becomes min(start + 5, duration), the window is valid from any prior state, and exactly 5 s long on a clip of at least 5 s |
| `Trim.StartPassesEnd` | src/App.js:531-536 | a 12 s clip with window (0, 5) accepts start 8, leaving start after end |
| `Trim.StartPassesEndRejected` | src/App.js:531-536 | the corrected guard rejects the same request and keeps (0, 5) |
| `Trim.StaleStartAfterNewClip` | src/App.js:111-114 | start 10 on a 20 s clip survives the load of a 3 s clip, leaving start 10 after end 3 |
| `Trim.StaleStartAfterNewClipReset` | src/App.js:111-114 | with the corrected load the same sequence leaves the valid window (0, 3) |
| `Trim.TwelveSecondClip` | src/App.js:869-876 | a 12 s clip loads as (0, 5) and the end slider then allows at most 5 |
| `Upload.ValidateImage` | src/App.js:147-162 | no errors exactly when size <= 10 MiB and the type starts with `image/`; at most two messages; each message present exactly when its check fails; the size message comes before the type message |
| `Upload.JsRound` | src/App.js:71 | `Math.round(x)`: the integer r with r <= x + 0.5 < r + 1 |
| `Upload.ScaleDimensions` | src/App.js:67-73 | a narrow enough image keeps its size; a wider one gets width maxWidth and height `Math.round(height * maxWidth / width)`, never taller than before |
| `Upload.DownscaleFullHd` | src/App.js:60-73 | with the default maxWidth of 1200 (the only one the drop handler uses), a 1920 x 1080 image becomes 1200 x 675 |
| `Upload.RoundedQuotient` | src/App.js:71 | (2n + w) div 2w is n / w rounded half up, which is `Math.round` |
| `Upload.ScaledHeightBound` | src/App.js:70-72 | narrowing the width never increases the rounded height |
| `Upload.StripTrailingSlash` | src/App.js:39 | the result is the input without at most one trailing `/`, and equals it exactly when there is none |
| `Upload.ApiBase` | src/App.js:39 | an unset or empty variable gives `http://127.0.0.1:8000`; otherwise the variable without its trailing slash |
| `Upload.ApiBaseNoDoubleSlash` | src/App.js:39 | the base ends in `/` only when the configured address ends in `//`, and is empty only for `/` |

## Left out

- `backend/settings.py` holds host and CORS constants only. It has no logic to model.
- The HTTP calls (src/App.js:196, 329, 367, 415, 451, 496) and the message text built by `handleApiError`. The extract call is a `Reply` parameter of `Ingest`.
- A 4xx reply is accepted by `validateStatus` but has no colour fields. It is not modelled: a `Reply` always carries complete lists, and an absent list is an empty sequence.
- Canvas and DOM work is not modelled. This covers pixel sampling (the picked colour is a parameter), image decoding and JPEG encoding in `compressImage`, the palette canvas drawing, and all downloads.
- `Math.random` and the uniformity of the shuffle are not modelled. They are probabilistic, so only the permutation property is proved, for any injected draws.
- Floating point is not modelled. This covers the palette block width, overlay percentages, `toFixed` labels, double rounding in `Math.round`, slider steps of 0.1, and NaN or infinite durations. Seconds are exact `real`s.
- JSX rendering, styling, dropzone wiring and `alert`s are not modelled.
- The second emptiness check in `handleRandomize` (src/App.js:295) cannot fire after the first (src/App.js:271), so the model has only the first.
- Shuffle.Swap: its own contract gives positions i and j and the length only. That the other positions stay as they were is the lemma `SwapKeepsOthers`, because as an ensures of `Swap` that quantifier is unfolded inside every proof about the shuffle and pushes the proof of `Randomize` past the verifier's resource bound.
- Selection.SelectionState.Randomize: needs draws for the whole combined pool even on the no-op path, because the random source is a parameter.

## Findings

| source | as written | input that shows it | evidently intended | confidence | as-written member | corrected member |
|---|---|---|---|---|---|---|
| src/App.js:531-536 | the `VideoControls` start guard checks only `end - newStart <= 5`, so a start after the end is accepted | 12 s clip, window (0, 5), start slider to 8: start 8, end 5 | reject a start past the end, keeping start <= end | medium, not executed | `Trim.StartPassesEnd` | `Trim.TrimWindow.ControlsSetStartChecked` |
| src/App.js:111-114 | a metadata load sets duration and end but keeps the previous clip's start | 20 s clip, trimmer start 10, then a 3 s clip: start 10, end 3 | reset the start to 0 when a new clip's metadata loads | medium, not executed | `Trim.StaleStartAfterNewClip` | `Trim.TrimWindow.LoadMetadataReset` |
