/**
 * The colour/region pairs behind the palette: an extracted colour, the point of the
 * media it was sampled at, and how the randomizer zips the four parallel state arrays
 * (src/App.js:280-292) and splits them again (src/App.js:301-308).
 */
module Pairs {

  /** An 8-bit colour channel. */
  type Channel = v: int | 0 <= v < 256

  /** An extracted or picked colour, the source's `[r, g, b]` array. */
  datatype Color = Color(r: Channel, g: Channel, b: Channel)

  /** A normalised anchor point inside the displayed media, the source's `{x, y}`. */
  datatype Region = Region(x: real, y: real)

  /** A colour together with the region it is shown at, the source's `{color, region}`. */
  datatype Pair = Pair(color: Color, region: Region)

  /** The region given to a colour that has none, `{x: 0.5, y: 0.5}`. */
  const Center := Region(0.5, 0.5)

  /**
   * The region the randomizer gives to combined index i: the active regions first,
   * then the reserve regions, then the centre point. The index is the one into
   * colors ++ reserveColors, so an active colour past the end of `regions` borrows a
   * reserve region.
   */
  function RegionAt(i: nat, regions: seq<Region>, reserveRegions: seq<Region>): (r: Region)
    ensures i < |regions + reserveRegions| ==> r == (regions + reserveRegions)[i]
    ensures |regions + reserveRegions| <= i ==> r == Center
  {
    if i < |regions| then regions[i]
    else if i < |regions| + |reserveRegions| then reserveRegions[i - |regions|]
    else Center
  }

  /** `all.map((color, index) => ({color, region}))` with the three-tier region lookup. */
  function BuildPairs(all: seq<Color>, regions: seq<Region>, reserveRegions: seq<Region>): (r: seq<Pair>)
    ensures |r| == |all|
    ensures forall i :: 0 <= i < |all| ==> r[i].color == all[i]
    ensures forall i :: 0 <= i < |all| && i < |regions + reserveRegions| ==> r[i].region == (regions + reserveRegions)[i]
    ensures forall i :: |regions + reserveRegions| <= i < |all| ==> r[i].region == Center
  {
    seq(|all|, i requires 0 <= i < |all| => Pair(all[i], RegionAt(i, regions, reserveRegions)))
  }

  /** `pairs.map(p => p.color)`. */
  function ColorsOf(ps: seq<Pair>): (r: seq<Color>)
    ensures |r| == |ps|
  {
    seq(|ps|, i requires 0 <= i < |ps| => ps[i].color)
  }

  /** `pairs.map(p => p.region)`. */
  function RegionsOf(ps: seq<Pair>): (r: seq<Region>)
    ensures |r| == |ps|
  {
    seq(|ps|, i requires 0 <= i < |ps| => ps[i].region)
  }

  /** Independent reference: pairs colours with regions position by position. */
  function Zip(cs: seq<Color>, rs: seq<Region>): (r: seq<Pair>)
    requires |cs| == |rs|
    decreases |cs|
  {
    if cs == [] then [] else [Pair(cs[0], rs[0])] + Zip(cs[1..], rs[1..])
  }

  /** Independent reference for the regions: `rs` cut or padded with the centre point to length n. */
  function Padded(rs: seq<Region>, n: nat): (r: seq<Region>)
    decreases n
  {
    if n == 0 then []
    else if rs == [] then Padded([], n - 1) + [Center]
    else [rs[0]] + Padded(rs[1..], n - 1)
  }

  function Min(a: int, b: int): (r: int)
    ensures r <= a && r <= b && (r == a || r == b)
  {
    if a <= b then a else b
  }

  /** `pairs.slice(0, n)` for n >= 0. */
  function Take(ps: seq<Pair>, n: nat): (r: seq<Pair>)
    ensures |r| == Min(n, |ps|) && r <= ps
  {
    ps[..Min(n, |ps|)]
  }

  /** `pairs.slice(n)` for n >= 0. */
  function Drop(ps: seq<Pair>, n: nat): (r: seq<Pair>)
    ensures |r| == |ps| - Min(n, |ps|) && ps[..|ps| - |r|] + r == ps
  {
    ps[Min(n, |ps|)..]
  }

  /** Splitting at n loses and duplicates nothing; the active part has min(n, |ps|) pairs. */
  lemma TakeDropSplit(ps: seq<Pair>, n: nat)
    ensures Take(ps, n) + Drop(ps, n) == ps
    ensures |Take(ps, n)| == Min(n, |ps|)
    ensures |Drop(ps, n)| == |ps| - Min(n, |ps|)
    ensures forall i :: 0 <= i < |Take(ps, n)| ==> Take(ps, n)[i] == ps[i]
  {
  }

  lemma {:induction false} ZipAt(cs: seq<Color>, rs: seq<Region>, i: nat)
    requires |cs| == |rs| && i < |cs|
    ensures |Zip(cs, rs)| == |cs| && Zip(cs, rs)[i] == Pair(cs[i], rs[i])
    decreases |cs|
  {
    if i > 0 {
      ZipAt(cs[1..], rs[1..], i - 1);
    } else if |cs| > 1 {
      ZipAt(cs[1..], rs[1..], 0);
    }
  }

  lemma {:induction false} ZipLength(cs: seq<Color>, rs: seq<Region>)
    requires |cs| == |rs|
    ensures |Zip(cs, rs)| == |cs|
    decreases |cs|
  {
    if cs != [] { ZipLength(cs[1..], rs[1..]); }
  }

  /** The zip agrees, element by element, with pairing the i-th colour with the i-th region. */
  lemma ZipEq(cs: seq<Color>, rs: seq<Region>)
    requires |cs| == |rs|
    ensures Zip(cs, rs) == seq(|cs|, i requires 0 <= i < |cs| => Pair(cs[i], rs[i]))
  {
    ZipLength(cs, rs);
    forall i | 0 <= i < |cs| ensures Zip(cs, rs)[i] == Pair(cs[i], rs[i]) { ZipAt(cs, rs, i); }
  }

  lemma {:induction false} PaddedAt(rs: seq<Region>, n: nat, i: nat)
    requires i < n
    ensures |Padded(rs, n)| == n
    ensures Padded(rs, n)[i] == if i < |rs| then rs[i] else Center
    decreases n
  {
    if rs == [] {
      if i < n - 1 { PaddedAt([], n - 1, i); } else { PaddedLength([], n - 1); }
    } else {
      if i > 0 { PaddedAt(rs[1..], n - 1, i - 1); } else { PaddedLength(rs[1..], n - 1); }
    }
  }

  lemma {:induction false} PaddedLength(rs: seq<Region>, n: nat)
    ensures |Padded(rs, n)| == n
    decreases n
  {
    if n > 0 {
      if rs == [] { PaddedLength([], n - 1); } else { PaddedLength(rs[1..], n - 1); }
    }
  }

  /** Unzipping the built pairs gives back exactly the combined colours. */
  lemma ColorsOfBuildPairs(all: seq<Color>, regions: seq<Region>, reserveRegions: seq<Region>)
    ensures ColorsOf(BuildPairs(all, regions, reserveRegions)) == all
  {
  }

  /**
   * The regions the pairs receive are the active regions followed by the reserve
   * regions, cut to the number of colours or padded with the centre point.
   */
  lemma RegionsOfBuildPairs(all: seq<Color>, regions: seq<Region>, reserveRegions: seq<Region>)
    ensures RegionsOf(BuildPairs(all, regions, reserveRegions)) == Padded(regions + reserveRegions, |all|)
  {
    var rs := RegionsOf(BuildPairs(all, regions, reserveRegions));
    PaddedLength(regions + reserveRegions, |all|);
    forall i | 0 <= i < |all| ensures rs[i] == Padded(regions + reserveRegions, |all|)[i] {
      PaddedAt(regions + reserveRegions, |all|, i);
    }
  }

  /**
   * When every colour has its own region (the shape a randomize leaves behind), the
   * built pairs are the active zip followed by the reserve zip.
   */
  lemma BuildPairsOfMatchedArrays(cs: seq<Color>, rs: seq<Region>, reserve: seq<Color>, reserveRs: seq<Region>)
    requires |cs| == |rs| && |reserve| == |reserveRs|
    ensures BuildPairs(cs + reserve, rs, reserveRs) == Zip(cs, rs) + Zip(reserve, reserveRs)
  {
    ZipEq(cs, rs);
    ZipEq(reserve, reserveRs);
  }

  /**
   * The quirk of the combined index: with more active colours than active regions and a
   * non-empty reserve region list, the first active colour without a region of its own is
   * shown at the first reserve region, not at the centre point.
   */
  lemma ActiveColorBorrowsReserveRegion(cs: seq<Color>, rs: seq<Region>, reserve: seq<Color>, reserveRs: seq<Region>)
    requires |rs| < |cs| && reserveRs != []
    ensures BuildPairs(cs + reserve, rs, reserveRs)[|rs|] == Pair(cs[|rs|], reserveRs[0])
  {
  }

  /**
   * Unzipping a list of pairs into a prefix and a suffix and rebuilding pairs from the four
   * arrays gives back the same list: splitting never separates a colour from its region.
   */
  lemma RebuildAfterSplit(ps: seq<Pair>, n: nat)
    ensures BuildPairs(ColorsOf(Take(ps, n)) + ColorsOf(Drop(ps, n)),
                       RegionsOf(Take(ps, n)), RegionsOf(Drop(ps, n))) == ps
  {
  }
}
