/**
 * The track-sizing engine of the grid layout: one axis's track specifications
 * are turned into base sizes (initialisation, then distribution of the free
 * space over the `Auto` tracks), and the two resolved axes are composed into
 * one cell rectangle per (row, column) pair, in row-major order.
 *
 * Lengths are exact `real`s; the viewport is a pair of `u32`s.
 */
module Grid {
  import opened Wrappers

  /** Rust's `u32`. */
  newtype u32 = x: int | 0 <= x < 0x1_0000_0000

  /** How the length of one track is determined. */
  datatype CellSize = Auto | Percent(p: real)

  /** A cell rectangle `(x1, y1, x2, y2)` in viewport coordinates. */
  datatype Rect = Rect(x1: real, y1: real, x2: real, y2: real)

  /** The working state of one track while its axis is being sized. */
  datatype TrackSize = TrackSize(baseSize: Option<real>, maxGrowth: Option<real>)

  // ---------------------------------------------------------------------------
  // Reference definitions: sums and counts
  // ---------------------------------------------------------------------------

  /** The sum of a sequence of lengths. */
  function Sum(s: seq<real>): real
  {
    if s == [] then 0.0 else Sum(s[..|s| - 1]) + s[|s| - 1]
  }

  lemma SumPrefixStep(s: seq<real>, k: nat)
    requires k < |s|
    ensures Sum(s[..k + 1]) == Sum(s[..k]) + s[k]
  {
    assert s[..k + 1][..k] == s[..k];
  }

  /** Prefix sums of non-negative lengths do not decrease. */
  lemma {:induction false} SumPrefixMonotone(s: seq<real>, i: nat, j: nat)
    requires i <= j <= |s|
    requires forall k :: 0 <= k < |s| ==> s[k] >= 0.0
    ensures Sum(s[..i]) <= Sum(s[..j])
    decreases j - i
  {
    if i < j {
      SumPrefixMonotone(s, i, j - 1);
      SumPrefixStep(s, j - 1);
    }
  }

  /** The length `Percent(p)` claims on an axis of length `maxSize`: `p/100 * maxSize`. */
  function PercentOf(p: real, maxSize: real): real
  {
    (p / 100.0) * maxSize
  }

  /** The length the `Percent` tracks of `specs` claim on an axis of length `maxSize`. */
  function PercentTotal(specs: seq<CellSize>, maxSize: real): real
  {
    if specs == [] then 0.0
    else
      PercentTotal(specs[..|specs| - 1], maxSize) +
      (match specs[|specs| - 1]
       case Auto => 0.0
       case Percent(p) => PercentOf(p, maxSize))
  }

  /** The number of `Auto` tracks in `specs`. */
  function AutoTracks(specs: seq<CellSize>): nat
  {
    if specs == [] then 0
    else AutoTracks(specs[..|specs| - 1]) + (if specs[|specs| - 1].Auto? then 1 else 0)
  }

  /** The sum of the base sizes that are already set. */
  function SizedTotal(tracks: seq<TrackSize>): real
  {
    if tracks == [] then 0.0
    else
      SizedTotal(tracks[..|tracks| - 1]) +
      (match tracks[|tracks| - 1].baseSize
       case None => 0.0
       case Some(s) => s)
  }

  // ---------------------------------------------------------------------------
  // CSS Grid Layout Module Level 1, section 11.4: Initialize Track Sizes
  // ---------------------------------------------------------------------------

  /**
   * `initialize_track_sizes`: one track per specification, in order; a
   * `Percent(p)` track gets `p/100 * maxSize` as base size and growth limit,
   * an `Auto` track gets neither.
   */
  function InitializeTrackSizes(trackLayout: seq<CellSize>, maxSize: real): (tracks: seq<TrackSize>)
    ensures |tracks| == |trackLayout|
    ensures forall i :: 0 <= i < |trackLayout| && trackLayout[i].Auto? ==> tracks[i] == TrackSize(None, None)
    ensures forall i :: 0 <= i < |trackLayout| && trackLayout[i].Percent? ==>
      tracks[i] == TrackSize(Some(PercentOf(trackLayout[i].p, maxSize)), Some(PercentOf(trackLayout[i].p, maxSize)))
  {
    if trackLayout == [] then []
    else
      var c := trackLayout[|trackLayout| - 1];
      var track :=
        if c.Auto? then TrackSize(None, None)
        else var s := PercentOf(c.p, maxSize); TrackSize(Some(s), Some(s));
      InitializeTrackSizes(trackLayout[..|trackLayout| - 1], maxSize) + [track]
  }

  /** After initialisation, the base sizes already set add up to the percentage tracks' claim. */
  lemma {:induction false} InitSizedTotal(specs: seq<CellSize>, maxSize: real)
    ensures SizedTotal(InitializeTrackSizes(specs, maxSize)) == PercentTotal(specs, maxSize)
  {
    if specs != [] {
      var n := |specs|;
      var init := InitializeTrackSizes(specs, maxSize);
      InitSizedTotal(specs[..n - 1], maxSize);
      assert init[..n - 1] == InitializeTrackSizes(specs[..n - 1], maxSize);
    }
  }

  /** After initialisation, the unset tracks are exactly the `Auto` ones. */
  lemma {:induction false} InitAutos(specs: seq<CellSize>, maxSize: real)
    ensures Autos(InitializeTrackSizes(specs, maxSize)) == AutoTracks(specs)
  {
    if specs != [] {
      var n := |specs|;
      var init := InitializeTrackSizes(specs, maxSize);
      InitAutos(specs[..n - 1], maxSize);
      assert init[..n - 1] == InitializeTrackSizes(specs[..n - 1], maxSize);
    }
  }

  // ---------------------------------------------------------------------------
  // CSS Grid Layout Module Level 1, section 11.5: Resolve Intrinsic Track Sizes
  // ---------------------------------------------------------------------------

  /** `free_space`: a left fold from `maxSize` that subtracts every base size already set. */
  function FreeSpace(tracks: seq<TrackSize>, maxSize: real): real
  {
    if tracks == [] then maxSize
    else
      var free := FreeSpace(tracks[..|tracks| - 1], maxSize);
      match tracks[|tracks| - 1].baseSize
      case None => free
      case Some(s) => free - s
  }

  /** `autos`: a left fold from 0 that counts the tracks whose base size is unset. */
  function Autos(tracks: seq<TrackSize>): nat
  {
    if tracks == [] then 0
    else
      var autos := Autos(tracks[..|tracks| - 1]);
      match tracks[|tracks| - 1].baseSize
      case None => autos + 1
      case Some(_) => autos
  }

  /** The free space is the axis length minus the sizes already set. */
  lemma {:induction false} FreeSpaceIsResidual(tracks: seq<TrackSize>, maxSize: real)
    ensures FreeSpace(tracks, maxSize) == maxSize - SizedTotal(tracks)
  {
    if tracks != [] {
      FreeSpaceIsResidual(tracks[..|tracks| - 1], maxSize);
    }
  }

  /** No track is counted exactly when every base size is set. */
  lemma {:induction false} AutosZeroIff(tracks: seq<TrackSize>)
    ensures Autos(tracks) == 0 <==> forall i :: 0 <= i < |tracks| ==> tracks[i].baseSize.Some?
  {
    if tracks != [] {
      var n := |tracks|;
      AutosZeroIff(tracks[..n - 1]);
      assert forall i :: 0 <= i < n - 1 ==> tracks[..n - 1][i] == tracks[i];
    }
  }

  /**
   * `auto_size`, with the division guarded: it exists exactly when some base
   * size is unset, and is then the free space shared evenly by the unset tracks.
   */
  function AutoSize(tracks: seq<TrackSize>, maxSize: real): (a: Option<real>)
    ensures a.None? <==> forall i :: 0 <= i < |tracks| ==> tracks[i].baseSize.Some?
    ensures a.Some? ==>
      Autos(tracks) > 0 && a.value == (maxSize - SizedTotal(tracks)) / Autos(tracks) as real
  {
    AutosZeroIff(tracks);
    FreeSpaceIsResidual(tracks, maxSize);
    var autos := Autos(tracks);
    if autos == 0 then None else Some(FreeSpace(tracks, maxSize) / autos as real)
  }

  /** What one turn of the distribution loop does to one track. */
  function Fill(track: TrackSize, autoSize: Option<real>): TrackSize
  {
    TrackSize(if track.baseSize.None? then autoSize else track.baseSize,
              if track.maxGrowth.None? then autoSize else track.maxGrowth)
  }

  function FillAll(tracks: seq<TrackSize>, autoSize: Option<real>): (r: seq<TrackSize>)
    ensures |r| == |tracks|
  {
    seq(|tracks|, i requires 0 <= i < |tracks| => Fill(tracks[i], autoSize))
  }

  /**
   * The tracks as `resolve_intrinsic_track_sizes` leaves them: the same
   * number of tracks, every value already set kept, and every unset value
   * replaced by the one shared `AutoSize`, which exists whenever a base size
   * was unset.
   */
  function Resolved(tracks: seq<TrackSize>, maxSize: real): (r: seq<TrackSize>)
    ensures |r| == |tracks|
    ensures forall i :: 0 <= i < |tracks| && tracks[i].baseSize.Some? ==> r[i].baseSize == tracks[i].baseSize
    ensures forall i :: 0 <= i < |tracks| && tracks[i].maxGrowth.Some? ==> r[i].maxGrowth == tracks[i].maxGrowth
    ensures forall i :: 0 <= i < |tracks| && tracks[i].baseSize.None? ==>
      r[i].baseSize.Some? && r[i].baseSize == AutoSize(tracks, maxSize)
    ensures forall i :: 0 <= i < |tracks| && tracks[i].maxGrowth.None? ==> r[i].maxGrowth == AutoSize(tracks, maxSize)
  {
    FillAll(tracks, AutoSize(tracks, maxSize))
  }

  /**
   * `resolve_intrinsic_track_sizes`: computes the two folds, then sets, in
   * place, every unset base size and growth limit to `auto_size`.
   */
  method ResolveIntrinsicTrackSizes(tracks: array<TrackSize>, maxSize: real)
    modifies tracks
    ensures tracks[..] == Resolved(old(tracks[..]), maxSize)
  {
    var freeSpace := FreeSpace(tracks[..], maxSize);
    var autos := Autos(tracks[..]);
    var autoSize := if autos == 0 then None else Some(freeSpace / autos as real);
    assert autoSize == AutoSize(tracks[..], maxSize);

    for i := 0 to tracks.Length
      invariant forall j :: 0 <= j < i ==> tracks[j] == Fill(old(tracks[j]), autoSize)
      invariant forall j :: i <= j < tracks.Length ==> tracks[j] == old(tracks[j])
    {
      if tracks[i].baseSize.None? {
        tracks[i] := tracks[i].(baseSize := autoSize);
      }
      if tracks[i].maxGrowth.None? {
        tracks[i] := tracks[i].(maxGrowth := autoSize);
      }
    }
  }

  /** An unset base size receives `(L - Σ set sizes) / autos`, the same for every unset track. */
  lemma ResolvedUnsetShare(tracks: seq<TrackSize>, maxSize: real, i: nat)
    requires i < |tracks| && tracks[i].baseSize.None?
    ensures Autos(tracks) > 0
    ensures Resolved(tracks, maxSize)[i].baseSize ==
      Some((maxSize - SizedTotal(tracks)) / Autos(tracks) as real)
  {
  }

  /** With no unset base size, tracks whose two values were set together are left as they are. */
  lemma ResolvedNoAutos(tracks: seq<TrackSize>, maxSize: real)
    requires Autos(tracks) == 0
    requires forall i :: 0 <= i < |tracks| ==> (tracks[i].baseSize.Some? <==> tracks[i].maxGrowth.Some?)
    ensures Resolved(tracks, maxSize) == tracks
  {
    AutosZeroIff(tracks);
  }

  /** Tracks fresh from initialisation come out of resolution with both values set. */
  lemma InitializedTracksResolveFully(specs: seq<CellSize>, maxSize: real)
    ensures forall i :: 0 <= i < |specs| ==>
      Resolved(InitializeTrackSizes(specs, maxSize), maxSize)[i].baseSize.Some? &&
      Resolved(InitializeTrackSizes(specs, maxSize), maxSize)[i].maxGrowth.Some?
  {
  }

  /** Filling every unset base size with `a` adds `a` once per unset track. */
  lemma {:induction false} FillAllSizedTotal(tracks: seq<TrackSize>, a: real)
    ensures SizedTotal(FillAll(tracks, Some(a))) == SizedTotal(tracks) + Autos(tracks) as real * a
  {
    if tracks != [] {
      var n := |tracks|;
      FillAllSizedTotal(tracks[..n - 1], a);
      assert FillAll(tracks, Some(a))[..n - 1] == FillAll(tracks[..n - 1], Some(a));
    }
  }

  /** When some base size was unset, the resolved base sizes add up to the axis length. */
  lemma ResolvedCoversAxis(tracks: seq<TrackSize>, maxSize: real)
    requires Autos(tracks) > 0
    ensures SizedTotal(Resolved(tracks, maxSize)) == maxSize
  {
    AutosZeroIff(tracks);
    var a := AutoSize(tracks, maxSize).value;
    var k, free := Autos(tracks) as real, maxSize - SizedTotal(tracks);
    assert a == free / k;
    assert k * a == free;
    FillAllSizedTotal(tracks, a);
    assert Resolved(tracks, maxSize) == FillAll(tracks, Some(a));
  }

  // ---------------------------------------------------------------------------
  // One axis
  // ---------------------------------------------------------------------------

  /** The base sizes of tracks that all have one. */
  function BaseSizes(tracks: seq<TrackSize>): (sizes: seq<real>)
    requires forall i :: 0 <= i < |tracks| ==> tracks[i].baseSize.Some?
    ensures |sizes| == |tracks|
    ensures forall i :: 0 <= i < |tracks| ==> tracks[i].baseSize == Some(sizes[i])
  {
    seq(|tracks|, i requires 0 <= i < |tracks| => tracks[i].baseSize.value)
  }

  /** The base sizes one axis resolves to; after resolution every base size is set. */
  function AxisSizes(trackLayout: seq<CellSize>, maxSize: real): (sizes: seq<real>)
    ensures |sizes| == |trackLayout|
    ensures forall i :: 0 <= i < |trackLayout| && trackLayout[i].Percent? ==>
      sizes[i] == PercentOf(trackLayout[i].p, maxSize)
  {
    BaseSizes(Resolved(InitializeTrackSizes(trackLayout, maxSize), maxSize))
  }

  /** An `Auto` track resolves to the length the percentage tracks leave, shared evenly. */
  lemma AxisAuto(specs: seq<CellSize>, maxSize: real, i: nat)
    requires i < |specs| && specs[i].Auto?
    ensures AutoTracks(specs) > 0
    ensures AxisSizes(specs, maxSize)[i] == (maxSize - PercentTotal(specs, maxSize)) / AutoTracks(specs) as real
  {
    var init := InitializeTrackSizes(specs, maxSize);
    InitSizedTotal(specs, maxSize);
    InitAutos(specs, maxSize);
    ResolvedUnsetShare(init, maxSize, i);
  }

  lemma {:induction false} SumOfSet(tracks: seq<TrackSize>, sizes: seq<real>)
    requires |sizes| == |tracks|
    requires forall i :: 0 <= i < |tracks| ==> tracks[i].baseSize == Some(sizes[i])
    ensures Sum(sizes) == SizedTotal(tracks)
  {
    if tracks != [] {
      var n := |tracks|;
      SumOfSet(tracks[..n - 1], sizes[..n - 1]);
    }
  }

  /** With at least one `Auto` track, an axis's base sizes add up to its length. */
  lemma AxisCoversLength(specs: seq<CellSize>, maxSize: real)
    requires AutoTracks(specs) > 0
    ensures Sum(AxisSizes(specs, maxSize)) == maxSize
  {
    var init := InitializeTrackSizes(specs, maxSize);
    var tracks := Resolved(init, maxSize);
    InitAutos(specs, maxSize);
    ResolvedCoversAxis(init, maxSize);
    SumOfSet(tracks, AxisSizes(specs, maxSize));
  }

  lemma {:induction false} AllAutoTotals(specs: seq<CellSize>, maxSize: real)
    requires forall i :: 0 <= i < |specs| ==> specs[i].Auto?
    ensures PercentTotal(specs, maxSize) == 0.0 && AutoTracks(specs) == |specs|
  {
    if specs != [] {
      AllAutoTotals(specs[..|specs| - 1], maxSize);
    }
  }

  /** `k` `Auto` tracks and no percentage track: each track is `L / k`. */
  lemma AxisEvenSplit(specs: seq<CellSize>, maxSize: real)
    requires |specs| > 0
    requires forall i :: 0 <= i < |specs| ==> specs[i].Auto?
    ensures forall i :: 0 <= i < |specs| ==> AxisSizes(specs, maxSize)[i] == maxSize / |specs| as real
  {
    AllAutoTotals(specs, maxSize);
    forall i | 0 <= i < |specs|
      ensures AxisSizes(specs, maxSize)[i] == maxSize / |specs| as real
    {
      AxisAuto(specs, maxSize, i);
    }
  }

  // ---------------------------------------------------------------------------
  // Composition of the two axes
  // ---------------------------------------------------------------------------

  /** The rectangle of row `r`, column `c`: its corner is the pair of prefix sums. */
  function CellRect(cols: seq<real>, rows: seq<real>, r: nat, c: nat): Rect
    requires r < |rows| && c < |cols|
  {
    var x1 := Sum(cols[..c]);
    var y1 := Sum(rows[..r]);
    Rect(x1, y1, x1 + cols[c], y1 + rows[r])
  }

  /** The cells of row `r`, left to right. */
  function RowCells(cols: seq<real>, rows: seq<real>, r: nat): (row: seq<Rect>)
    requires r < |rows|
    ensures |row| == |cols|
  {
    seq(|cols|, c requires 0 <= c < |cols| => CellRect(cols, rows, r, c))
  }

  lemma RowCellsStep(cols: seq<real>, rows: seq<real>, r: nat, c: nat)
    requires r < |rows| && c < |cols|
    ensures RowCells(cols, rows, r)[..c + 1] == RowCells(cols, rows, r)[..c] +
      [Rect(Sum(cols[..c]), Sum(rows[..r]), Sum(cols[..c]) + cols[c], Sum(rows[..r]) + rows[r])]
  {
  }

  /** The cells of the first `n` rows, row after row. */
  function CellsUpTo(cols: seq<real>, rows: seq<real>, n: nat): (g: seq<Rect>)
    requires n <= |rows|
  {
    if n == 0 then [] else CellsUpTo(cols, rows, n - 1) + RowCells(cols, rows, n - 1)
  }

  lemma {:induction false} CellsUpToLength(cols: seq<real>, rows: seq<real>, n: nat)
    requires n <= |rows|
    ensures |CellsUpTo(cols, rows, n)| == n * |cols|
  {
    if n > 0 {
      CellsUpToLength(cols, rows, n - 1);
      assert (n - 1) * |cols| + |cols| == n * |cols|;
    }
  }

  lemma {:induction false} CellsUpToAt(cols: seq<real>, rows: seq<real>, n: nat, r: nat, c: nat)
    requires r < n <= |rows| && c < |cols|
    ensures r * |cols| + c < |CellsUpTo(cols, rows, n)|
    ensures CellsUpTo(cols, rows, n)[r * |cols| + c] == CellRect(cols, rows, r, c)
  {
    CellsUpToLength(cols, rows, n - 1);
    if r < n - 1 {
      CellsUpToAt(cols, rows, n - 1, r, c);
    }
  }

  /** All cell rectangles in row-major order (rows outer, columns inner). */
  function Cells(cols: seq<real>, rows: seq<real>): (g: seq<Rect>)
    ensures |g| == |rows| * |cols|
  {
    CellsUpToLength(cols, rows, |rows|);
    CellsUpTo(cols, rows, |rows|)
  }

  /** The cell at index `r * |cols| + c` is the one of row `r`, column `c`. */
  lemma CellAt(cols: seq<real>, rows: seq<real>, r: nat, c: nat)
    requires r < |rows| && c < |cols|
    ensures r * |cols| + c < |Cells(cols, rows)|
    ensures Cells(cols, rows)[r * |cols| + c] ==
      Rect(Sum(cols[..c]), Sum(rows[..r]), Sum(cols[..c]) + cols[c], Sum(rows[..r]) + rows[r])
  {
    CellsUpToAt(cols, rows, |rows|, r, c);
  }

  /** Within a row, each cell ends where the next begins, at the same height. */
  lemma CellsRowNeighbours(cols: seq<real>, rows: seq<real>, r: nat, c: nat)
    requires r < |rows| && c + 1 < |cols|
    ensures r * |cols| + c + 1 < |Cells(cols, rows)|
    ensures Cells(cols, rows)[r * |cols| + c].x2 == Cells(cols, rows)[r * |cols| + c + 1].x1
    ensures Cells(cols, rows)[r * |cols| + c].y1 == Cells(cols, rows)[r * |cols| + c + 1].y1
    ensures Cells(cols, rows)[r * |cols| + c].y2 == Cells(cols, rows)[r * |cols| + c + 1].y2
  {
    CellAt(cols, rows, r, c);
    CellAt(cols, rows, r, c + 1);
    SumPrefixStep(cols, c);
  }

  /** Within a column, each cell ends where the one below begins, with the same width. */
  lemma CellsColumnNeighbours(cols: seq<real>, rows: seq<real>, r: nat, c: nat)
    requires r + 1 < |rows| && c < |cols|
    ensures (r + 1) * |cols| + c < |Cells(cols, rows)|
    ensures Cells(cols, rows)[r * |cols| + c].y2 == Cells(cols, rows)[(r + 1) * |cols| + c].y1
    ensures Cells(cols, rows)[r * |cols| + c].x1 == Cells(cols, rows)[(r + 1) * |cols| + c].x1
    ensures Cells(cols, rows)[r * |cols| + c].x2 == Cells(cols, rows)[(r + 1) * |cols| + c].x2
  {
    CellAt(cols, rows, r, c);
    CellAt(cols, rows, r + 1, c);
    SumPrefixStep(rows, r);
  }

  /** With non-negative column sizes, a cell ends no later than any cell to its right begins. */
  lemma CellsRowOrdered(cols: seq<real>, rows: seq<real>, r: nat, c: nat, c': nat)
    requires r < |rows| && c < c' < |cols|
    requires forall j :: 0 <= j < |cols| ==> cols[j] >= 0.0
    ensures r * |cols| + c' < |Cells(cols, rows)|
    ensures Cells(cols, rows)[r * |cols| + c].x2 <= Cells(cols, rows)[r * |cols| + c'].x1
  {
    CellAt(cols, rows, r, c);
    CellAt(cols, rows, r, c');
    SumPrefixStep(cols, c);
    SumPrefixMonotone(cols, c + 1, c');
  }

  /** With non-negative row sizes, a cell ends no lower than any cell in a later row begins. */
  lemma CellsColumnOrdered(cols: seq<real>, rows: seq<real>, r: nat, r': nat, c: nat, c': nat)
    requires r < r' < |rows| && c < |cols| && c' < |cols|
    requires forall i :: 0 <= i < |rows| ==> rows[i] >= 0.0
    ensures r * |cols| + c < |Cells(cols, rows)| && r' * |cols| + c' < |Cells(cols, rows)|
    ensures Cells(cols, rows)[r * |cols| + c].y2 <= Cells(cols, rows)[r' * |cols| + c'].y1
  {
    SumPrefixStep(rows, r);
    SumPrefixMonotone(rows, r + 1, r');
    assert Sum(rows[..r]) + rows[r] <= Sum(rows[..r']);
    CellAt(cols, rows, r, c);
    CellAt(cols, rows, r', c');
  }

  /** The first cell starts at the origin; the last ends at the two axes' totals. */
  lemma CellsSpan(cols: seq<real>, rows: seq<real>)
    requires |rows| > 0 && |cols| > 0
    ensures |Cells(cols, rows)| > 0
    ensures Cells(cols, rows)[0].x1 == 0.0 && Cells(cols, rows)[0].y1 == 0.0
    ensures Cells(cols, rows)[|Cells(cols, rows)| - 1].x2 == Sum(cols)
    ensures Cells(cols, rows)[|Cells(cols, rows)| - 1].y2 == Sum(rows)
  {
    var g := Cells(cols, rows);
    var rr, cc := |rows| - 1, |cols| - 1;
    CellAt(cols, rows, 0, 0);
    CellAt(cols, rows, rr, cc);
    assert rr * |cols| + cc == |g| - 1;
    SumPrefixStep(cols, cc);
    SumPrefixStep(rows, rr);
    assert cols[..cc + 1] == cols;
    assert rows[..rr + 1] == rows;
  }

  // ---------------------------------------------------------------------------
  // The layout and its builder
  // ---------------------------------------------------------------------------

  /** A finished layout: the column and row specifications and the viewport `(width, height)`. */
  datatype GridLayout = GridLayout(columns: seq<CellSize>, rows: seq<CellSize>, viewport: (u32, u32))
  {
    /** `GridLayout::new`: a builder with every field unset. */
    static function New(): (b: GridLayoutBuilder)
      ensures b.columns.None? && b.rows.None? && b.viewport.None?
    {
      GridLayoutBuilder(None, None, None)
    }

    /** The column base sizes, resolved against the viewport width. */
    function ColumnSizes(): (sizes: seq<real>)
      ensures |sizes| == |columns|
    {
      AxisSizes(columns, viewport.0 as real)
    }

    /** The row base sizes, resolved against the viewport height. */
    function RowSizes(): (sizes: seq<real>)
      ensures |sizes| == |rows|
    {
      AxisSizes(rows, viewport.1 as real)
    }

    /**
     * `get_grid`: resolves both axes, then walks the rows (outer) and the
     * columns (inner) with running positions, emitting one rectangle per cell.
     */
    method GetGrid() returns (res: seq<Rect>)
      ensures |res| == |rows| * |columns|
      ensures res == Cells(ColumnSizes(), RowSizes())
    {
      // COLUMNS
      var columnTracks := InitializeAndResolve(columns, viewport.0 as real);
      // ROWS
      var rowTracks := InitializeAndResolve(rows, viewport.1 as real);

      res := EmitCells(columnTracks, rowTracks);
    }
  }

  /**
   * One axis of `get_grid`: initialise the tracks, then resolve them in place.
   * Every base size comes out set, and the sizes are the axis's `AxisSizes`.
   */
  method InitializeAndResolve(specs: seq<CellSize>, maxSize: real) returns (tracks: seq<TrackSize>)
    ensures forall j :: 0 <= j < |tracks| ==> tracks[j].baseSize.Some?
    ensures BaseSizes(tracks) == AxisSizes(specs, maxSize)
  {
    var init := InitializeTrackSizes(specs, maxSize);
    var a := new TrackSize[|init|](i requires 0 <= i < |init| => init[i]);
    assert a[..] == init;
    ResolveIntrinsicTrackSizes(a, maxSize);
    tracks := a[..];
  }

  /**
   * The nested loops of `get_grid`: rows outer, columns inner; `colPos`
   * runs along a row and restarts at 0, `rowPos` advances after each row.
   * Every `unwrap()` is on a base size the precondition says is set.
   */
  method EmitCells(columnTracks: seq<TrackSize>, rowTracks: seq<TrackSize>) returns (res: seq<Rect>)
    requires forall j :: 0 <= j < |columnTracks| ==> columnTracks[j].baseSize.Some?
    requires forall j :: 0 <= j < |rowTracks| ==> rowTracks[j].baseSize.Some?
    ensures |res| == |rowTracks| * |columnTracks|
    ensures res == Cells(BaseSizes(columnTracks), BaseSizes(rowTracks))
  {
    ghost var cols, rws := BaseSizes(columnTracks), BaseSizes(rowTracks);
    res := [];
    var rowPos, colPos := 0.0, 0.0;
    for r := 0 to |rowTracks|
      invariant colPos == 0.0
      invariant rowPos == Sum(rws[..r])
      invariant res == CellsUpTo(cols, rws, r)
    {
      for c := 0 to |columnTracks|
        invariant colPos == Sum(cols[..c])
        invariant res == CellsUpTo(cols, rws, r) + RowCells(cols, rws, r)[..c]
      {
        RowCellsStep(cols, rws, r, c);
        res := res + [Rect(colPos, rowPos,
                           colPos + columnTracks[c].baseSize.value,
                           rowPos + rowTracks[r].baseSize.value)];
        SumPrefixStep(cols, c);
        colPos := colPos + columnTracks[c].baseSize.value;
      }
      assert RowCells(cols, rws, r)[..|cols|] == RowCells(cols, rws, r);
      colPos := 0.0;
      SumPrefixStep(rws, r);
      rowPos := rowPos + rowTracks[r].baseSize.value;
    }
    assert res == Cells(cols, rws) && |cols| == |columnTracks| && |rws| == |rowTracks|;
  }

  /** The builder: every field optional, set by overwriting. */
  datatype GridLayoutBuilder = GridLayoutBuilder(
    columns: Option<seq<CellSize>>,
    rows: Option<seq<CellSize>>,
    viewport: Option<(u32, u32)>)
  {
    /** `with_columns`: replaces the columns and nothing else. */
    function WithColumns(cols: seq<CellSize>): (b: GridLayoutBuilder)
      ensures b.columns == Some(cols) && b.rows == rows && b.viewport == viewport
    {
      this.(columns := Some(cols))
    }

    /** `with_rows`: replaces the rows and nothing else. */
    function WithRows(rws: seq<CellSize>): (b: GridLayoutBuilder)
      ensures b.rows == Some(rws) && b.columns == columns && b.viewport == viewport
    {
      this.(rows := Some(rws))
    }

    /** `with_viewport`: replaces the viewport and nothing else. */
    function WithViewport(width: u32, height: u32): (b: GridLayoutBuilder)
      ensures b.viewport == Some((width, height)) && b.columns == columns && b.rows == rows
    {
      this.(viewport := Some((width, height)))
    }

    /**
     * `build`: fails exactly when no viewport was given; otherwise the layout
     * takes the given lists, or a single `Auto` track for a list never given.
     */
    function Build(): (r: Result<GridLayout, string>)
      ensures r.Err? <==> viewport.None?
      ensures r.Err? ==> r.error == "ViewPort size not defined."
      ensures r.Ok? ==> r.value.viewport == viewport.value
      ensures r.Ok? ==> r.value.columns == (if columns.Some? then columns.value else [Auto])
      ensures r.Ok? ==> r.value.rows == (if rows.Some? then rows.value else [Auto])
    {
      if viewport == None then
        Err("ViewPort size not defined.")
      else
        var viewport := viewport.value;
        Ok(GridLayout(
          match columns
          case Some(cols) => cols
          case None => [Auto],
          match rows
          case Some(rws) => rws
          case None => [Auto],
          viewport))
    }
  }

  /** A layout given only a viewport is one `Auto` cell covering the whole viewport. */
  lemma DefaultLayoutIsOneCell(width: u32, height: u32)
    ensures GridLayout.New().WithViewport(width, height).Build().Ok?
    ensures var layout := GridLayout.New().WithViewport(width, height).Build().value;
      Cells(layout.ColumnSizes(), layout.RowSizes()) == [Rect(0.0, 0.0, width as real, height as real)]
  {
    var layout := GridLayout.New().WithViewport(width, height).Build().value;
    assert layout == GridLayout([Auto], [Auto], (width, height));
    AxisEvenSplit([Auto], width as real);
    AxisEvenSplit([Auto], height as real);
    var cols, rws := layout.ColumnSizes(), layout.RowSizes();
    CellAt(cols, rws, 0, 0);
    assert cols[..0] == [] && rws[..0] == [];
    assert |Cells(cols, rws)| == 1;
  }

  /**
   * When both axes have an `Auto` track, the grid starts at the origin and
   * its last cell ends at the viewport's far corner.
   */
  lemma GridCoversViewport(layout: GridLayout)
    requires AutoTracks(layout.columns) > 0 && AutoTracks(layout.rows) > 0
    ensures |Cells(layout.ColumnSizes(), layout.RowSizes())| > 0
    ensures var g := Cells(layout.ColumnSizes(), layout.RowSizes());
      g[0].x1 == 0.0 && g[0].y1 == 0.0 &&
      g[|g| - 1].x2 == layout.viewport.0 as real && g[|g| - 1].y2 == layout.viewport.1 as real
  {
    AxisCoversLength(layout.columns, layout.viewport.0 as real);
    AxisCoversLength(layout.rows, layout.viewport.1 as real);
    assert |layout.columns| > 0 && |layout.rows| > 0;
    CellsSpan(layout.ColumnSizes(), layout.RowSizes());
  }
}
