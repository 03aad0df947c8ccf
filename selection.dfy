/**
 * The palette selection state of the `App` component (src/App.js:17-24): the active
 * colours and their regions, the reserve colours and their regions, the colours picked by
 * clicking the image, and the requested number of colours. Each handler that rewrites
 * these fields is one method.
 */
module Selection {
  import opened Pairs
  import opened Shuffle

  /** The response fields of the extract call that the state takes over (src/App.js:204-211). */
  datatype Extraction = Extraction(
    colors: seq<Color>,
    isVideo: bool,
    regions: seq<Region>,
    reserveColors: seq<Color>,
    reserveRegions: seq<Region>)

  /** The outcome of the extract call: a response, or an error caught by `handleUpload`. */
  datatype Reply = Received(data: Extraction) | Failed

  const MinColors := 1
  const MaxColors := 20
  const InitialColors := 4

  class SelectionState {
    var colors: seq<Color>
    var colorRegions: seq<Region>
    var reserveColors: seq<Color>
    var reserveRegions: seq<Region>
    var pickedColors: seq<Color>
    var numColors: int

    /** The requested count always stays within the slider's and the buttons' range. */
    ghost predicate Valid()
      reads this
    {
      MinColors <= numColors <= MaxColors
    }

    /** The pairs the randomizer would build from the current state. */
    ghost function Pool(): seq<Pair>
      reads this
    {
      BuildPairs(colors + reserveColors, colorRegions, reserveRegions)
    }

    /** The `useState` initial values (src/App.js:17-24). */
    constructor ()
      ensures Valid()
      ensures colors == [] && colorRegions == [] && reserveColors == [] && reserveRegions == []
      ensures pickedColors == [] && numColors == InitialColors
    {
      colors, colorRegions, reserveColors, reserveRegions := [], [], [], [];
      pickedColors := [];
      numColors := InitialColors;
    }

    /**
     * `handleRandomize`: nothing happens unless both colour lists are non-empty; otherwise
     * the combined pairs are shuffled and split at numColors into the four arrays.
     */
    method Randomize(picks: seq<nat>)
      requires Valid()
      requires IsPickSource(picks, |colors| + |reserveColors|)
      modifies this
      ensures Valid()
      ensures pickedColors == old(pickedColors) && numColors == old(numColors)
      ensures old(colors) == [] || old(reserveColors) == [] ==>
        colors == old(colors) && colorRegions == old(colorRegions) &&
        reserveColors == old(reserveColors) && reserveRegions == old(reserveRegions)
      ensures old(colors) != [] && old(reserveColors) != [] ==>
        var pool := Shuffled(old(Pool()), picks);
        colors == ColorsOf(Take(pool, numColors)) && colorRegions == RegionsOf(Take(pool, numColors)) &&
        reserveColors == ColorsOf(Drop(pool, numColors)) && reserveRegions == RegionsOf(Drop(pool, numColors))
      ensures old(colors) != [] && old(reserveColors) != [] ==>
        |colors| == |colorRegions| == Min(numColors, |old(Pool())|) &&
        |reserveColors| == |reserveRegions| == |old(Pool())| - |colors| &&
        Pool() == Shuffled(old(Pool()), picks) &&
        multiset(Pool()) == multiset(old(Pool()))
    {
      if colors == [] || reserveColors == [] {
        return;
      }
      var allPairs := BuildPairs(colors + reserveColors, colorRegions, reserveRegions);
      var shuffledPairs := ShuffleArray(allPairs, picks);
      var activePairs := Take(shuffledPairs, numColors);
      var reservePairs := Drop(shuffledPairs, numColors);
      colors := ColorsOf(activePairs);
      colorRegions := RegionsOf(activePairs);
      reserveColors := ColorsOf(reservePairs);
      reserveRegions := RegionsOf(reservePairs);
      TakeDropSplit(shuffledPairs, numColors);
      RebuildAfterSplit(shuffledPairs, numColors);
    }

    /**
     * The state update after the extract call (src/App.js:204-211). An image response
     * replaces all four arrays; a video response replaces the active and reserve colours
     * and leaves both region arrays as they were. A failed call changes nothing.
     */
    method Ingest(reply: Reply)
      modifies this
      ensures pickedColors == old(pickedColors) && numColors == old(numColors)
      ensures reply.Failed? ==>
        colors == old(colors) && colorRegions == old(colorRegions) &&
        reserveColors == old(reserveColors) && reserveRegions == old(reserveRegions)
      ensures reply.Received? ==>
        colors == reply.data.colors && reserveColors == reply.data.reserveColors
      ensures reply.Received? && !reply.data.isVideo ==>
        colorRegions == reply.data.regions && reserveRegions == reply.data.reserveRegions
      ensures reply.Received? && reply.data.isVideo ==>
        colorRegions == old(colorRegions) && reserveRegions == old(reserveRegions)
    {
      if reply.Failed? {
        return;
      }
      var data := reply.data;
      colors := data.colors;
      if !data.isVideo {
        colorRegions := data.regions;
        reserveColors := data.reserveColors;
        reserveRegions := data.reserveRegions;
      } else {
        reserveColors := data.reserveColors;
      }
    }

    /** The resets of both drop handlers (src/App.js:123-127, 138-142). */
    method ResetOnDrop()
      modifies this
      ensures colors == [] && colorRegions == [] && reserveColors == [] && reserveRegions == []
      ensures pickedColors == [] && numColors == old(numColors)
      ensures Pool() == []
    {
      colors := [];
      colorRegions := [];
      reserveColors := [];
      reserveRegions := [];
      pickedColors := [];
    }

    /** `handleImageClick`: the sampled colour is appended to the picked colours (src/App.js:57). */
    method PickColor(color: Color)
      modifies this`pickedColors
      ensures pickedColors == old(pickedColors) + [color]
      ensures |pickedColors| == |old(pickedColors)| + 1 && pickedColors[|pickedColors| - 1] == color
    {
      pickedColors := pickedColors + [color];
    }

    /** The + button: `Math.min(prev + 1, 20)` (src/App.js:1098). */
    method IncrementCount()
      requires Valid()
      modifies this`numColors
      ensures Valid()
      ensures numColors == if old(numColors) < MaxColors then old(numColors) + 1 else MaxColors
    {
      numColors := Min(numColors + 1, MaxColors);
    }

    /** The - button: `Math.max(prev - 1, 1)` (src/App.js:1104). */
    method DecrementCount()
      requires Valid()
      modifies this`numColors
      ensures Valid()
      ensures numColors == if old(numColors) > MinColors then old(numColors) - 1 else MinColors
    {
      numColors := if numColors - 1 >= MinColors then numColors - 1 else MinColors;
    }

    /** The count slider, whose range is [1, 20] (src/App.js:977-983). */
    method SetCount(n: int)
      requires MinColors <= n <= MaxColors
      modifies this`numColors
      ensures Valid() && numColors == n
    {
      numColors := n;
    }
  }

  /**
   * For an image response whose colour lists each come with one region per colour, the
   * pool the randomizer works on holds exactly the active pairs followed by the reserve
   * pairs: n active and m reserve colours make n + m pairs, none invented.
   */
  lemma IngestedPool(data: Extraction)
    requires !data.isVideo
    requires |data.colors| == |data.regions| && |data.reserveColors| == |data.reserveRegions|
    ensures BuildPairs(data.colors + data.reserveColors, data.regions, data.reserveRegions)
      == Zip(data.colors, data.regions) + Zip(data.reserveColors, data.reserveRegions)
    ensures |BuildPairs(data.colors + data.reserveColors, data.regions, data.reserveRegions)|
      == |data.colors| + |data.reserveColors|
  {
    BuildPairsOfMatchedArrays(data.colors, data.regions, data.reserveColors, data.reserveRegions);
  }

  /**
   * A randomize keeps every colour with its region and keeps the pool: the new active and
   * reserve arrays, zipped, are a permutation of the pairs built before, and the active part
   * has min(numColors, pool size) pairs.
   */
  lemma RandomizeConserves(pool: seq<Pair>, picks: seq<nat>, n: nat)
    requires IsPickSource(picks, |pool|)
    ensures var s := Shuffled(pool, picks);
      var active, reserve := Take(s, n), Drop(s, n);
      Zip(ColorsOf(active), RegionsOf(active)) + Zip(ColorsOf(reserve), RegionsOf(reserve)) == s &&
      multiset(active + reserve) == multiset(pool) &&
      |active| == Min(n, |pool|)
  {
    var s := Shuffled(pool, picks);
    var active, reserve := Take(s, n), Drop(s, n);
    TakeDropSplit(s, n);
    ZipEq(ColorsOf(active), RegionsOf(active));
    ZipEq(ColorsOf(reserve), RegionsOf(reserve));
    assert Zip(ColorsOf(active), RegionsOf(active)) == active;
    assert Zip(ColorsOf(reserve), RegionsOf(reserve)) == reserve;
  }

  /** The scenario "ingest 6 colours (4 active, 2 reserve), then randomize": 4 stay active, the same 6 pairs remain. */
  method IngestThenRandomize(data: Extraction, picks: seq<nat>) returns (active: nat, pool: seq<Pair>)
    requires !data.isVideo && |data.colors| == 4 && |data.reserveColors| == 2
    requires |data.regions| == 4 && |data.reserveRegions| == 2
    requires IsPickSource(picks, 6)
    ensures active == 4 && |pool| == 6
    ensures multiset(pool) == multiset(Zip(data.colors, data.regions) + Zip(data.reserveColors, data.reserveRegions))
  {
    var st := new SelectionState();
    st.Ingest(Received(data));
    IngestedPool(data);
    st.Randomize(picks);
    active := |st.colors|;
    pool := BuildPairs(st.colors + st.reserveColors, st.colorRegions, st.reserveRegions);
  }
}
