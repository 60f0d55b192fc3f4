# Grid track sizing, modelled in Dafny

This project models the track-sizing engine of `griders`, a small grid-layout
library in Rust (`src/grid.rs`). The engine loosely follows two steps of the
CSS Grid track-sizing algorithm: 11.4 "Initialize Track Sizes" and 11.5
"Resolve Intrinsic Track Sizes" (both from CSS Grid Layout Module Level 1).
The model follows the Rust code, not the standard.

- **Track resolver.** One axis is a list of `CellSize`s (`Auto` or
  `Percent(p)`) plus the axis length `L`. Initialisation gives each
  `Percent(p)` track `p/100 * L`. Resolution then splits the free space
  `L − Σ sizes already set` evenly over the tracks still unset.
- **Grid composition.** `GetGrid` resolves the columns against the viewport
  width and the rows against the viewport height. It then emits one rectangle
  `(x1, y1, x2, y2)` per (row, column) pair, in row-major order. Positions are
  running sums of the base sizes.
- **Builder.** `GridLayoutBuilder` has three optional fields. Each setter
  overwrites one of them. `Build` fails only when no viewport was given, and
  otherwise uses `[Auto]` for a track list never given.

Files:

- `wrappers.dfy`: module `Wrappers`, with `Option` and `Result`.
- `grid.dfy`: module `Grid`, the model of `src/grid.rs`.
- `demo.dfy`: module `Demo`, the configuration from `src/main.rs:17-22`
  (columns 20% / auto / auto / 20%, rows 15% / auto, viewport 800 × 600),
  written as proved facts.

Modelling choices:

- Lengths and percentages are exact `real`s. Viewport components are a `u32`
  newtype, converted with `as real`.
- `resolve_intrinsic_track_sizes` changes its vector in place. It is modelled
  as a method on an `array<TrackSize>` and proved equal to the function
  `Resolved` of the old contents.
- The two folds that compute `free_space` and `autos` are pure. They are left
  folds written as functions (`FreeSpace`, `Autos`).
- `auto_size` is an `Option<real>`. It is `None` when `autos == 0`, so the
  model never divides by zero. In that case Rust computes a non-finite value
  and never stores it in a base size.
- Each axis of `get_grid` is the method `InitializeAndResolve`. The nested
  loops of `get_grid` are the method `EmitCells`. `GetGrid` calls
  `EmitCells` after resolving both axes. It reads the resolved tracks the same way the
  loops read the vectors.
- The builder and the layout are datatypes (Rust values). The setters are
  functions that return the updated builder.

A finished layout need not have a track on each axis. `Build` defaults only a
list that was never given, so `with_columns(&[])` gives an empty list and an
empty grid. The model follows the code.

## Model

| member | source | states |
|---|---|---|
| `Grid.InitializeTrackSizes` | src/grid.rs:34-54 | one track per specification, in order; `Percent(p)` gets base size and growth limit `Some(p/100 * L)`; `Auto` gets `(None, None)` |
| `Grid.InitSizedTotal` | src/grid.rs:36-52 | after initialisation, the base sizes already set add up to the percentage tracks' claim `Σ p/100 * L` |
| `Grid.InitAutos` | src/grid.rs:39-45 | after initialisation, the unset tracks are exactly the `Auto` tracks, so `autos` counts the `Auto` specifications |
| `Grid.FreeSpaceIsResidual` | src/grid.rs:57-62 | the `free_space` fold equals `L − Σ base sizes already set` |
| `Grid.FreeSpace` | src/grid.rs:57-62 | the `free_space` left fold from `L`; it has no contract of its own, and `FreeSpaceIsResidual` states its value |
| `Grid.Autos` | src/grid.rs:63-66 | the `autos` left fold from 0; it has no contract of its own, and `AutosZeroIff` and `InitAutos` state what it counts |
| `Grid.AutosZeroIff` | src/grid.rs:63-66 | the `autos` fold is 0 exactly when every base size is set |
| `Grid.AutoSize` | src/grid.rs:57-67 | the guarded `auto_size` exists exactly when some base size is unset, and is then `(L − Σ set sizes) / autos` with `autos > 0` |
| `Grid.Fill` | src/grid.rs:70-77 | one turn of the distribution loop on one track; it has no contract of its own, and `Resolved` states its effect track by track |
| `Grid.FillAll` | src/grid.rs:70-77 | the loop applied to every track keeps the number of tracks; `FillAllSizedTotal` states how the set total grows |
| `Grid.Resolved` | src/grid.rs:56-78 | same length; set values kept; every unset base size becomes the one shared `AutoSize` (which then exists); every unset growth limit becomes `AutoSize` |
| `Grid.ResolveIntrinsicTrackSizes` | src/grid.rs:56-78 | the in-place loop leaves the array equal to `Resolved` of its old contents |
| `Grid.ResolvedUnsetShare` | src/grid.rs:67-73 | an unset base size receives `(L − Σ set sizes) / autos`, the same value for every unset track |
| `Grid.ResolvedNoAutos` | src/grid.rs:63-76 | with no unset base size, tracks whose two values are set together come out unchanged |
| `Grid.InitializedTracksResolveFully` | src/grid.rs:92-102 | tracks from initialisation come out of resolution with base size and growth limit both set |
| `Grid.FillAllSizedTotal` | src/grid.rs:70-77 | filling every unset base size with `a` adds `a` once per unset track to the total |
| `Grid.ResolvedCoversAxis` | src/grid.rs:57-75 | if some base size was unset, the resolved base sizes sum exactly to `L` |
| `Grid.BaseSizes` | src/grid.rs:113-119 | the `unwrap()` reads: defined only when every base size is set, one size per track, and each size is the value inside that track's base size |
| `Grid.AxisSizes` | src/grid.rs:92-102 | one resolved size per specification; every base size is set, so the `unwrap()` calls cannot fail; a `Percent(p)` track is `p/100 * L` whatever the other tracks are |
| `Grid.AxisAuto` | src/grid.rs:57-73 | an `Auto` track resolves to `(L − Σ percentage claims) / (number of Auto tracks)` |
| `Grid.AxisCoversLength` | src/grid.rs:57-73 | an axis with at least one `Auto` track has base sizes summing exactly to `L` |
| `Grid.AxisEvenSplit` | src/grid.rs:57-75 | `k > 0` `Auto` tracks and no percentage track: each track is `L / k` |
| `Grid.CellRect` | src/grid.rs:110-115 | the pushed tuple for row `r`, column `c`; it has no contract of its own, and `CellAt` states which index holds it and its coordinates |
| `Grid.Cells` | src/grid.rs:105-121 | the row-major grid has exactly `|rows| * |columns|` rectangles |
| `Grid.CellAt` | src/grid.rs:108-120 | the rectangle at index `r*C + c` is `(Σ_{j<c} col_j, Σ_{i<r} row_i, x1 + col_c, y1 + row_r)` |
| `Grid.CellsRowNeighbours` | src/grid.rs:109-116 | within a row, each cell's `x2` is the next cell's `x1`, and both cells have the same `y1` and `y2` |
| `Grid.CellsColumnNeighbours` | src/grid.rs:118-119 | within a column, each cell's `y2` is the `y1` of the cell below, and both cells have the same `x1` and `x2` |
| `Grid.CellsRowOrdered` | src/grid.rs:110-116 | with non-negative column sizes, a cell ends no later than any cell to its right begins (no overlap) |
| `Grid.CellsColumnOrdered` | src/grid.rs:108-120 | with non-negative row sizes, a cell ends no lower than any cell in a later row begins (no overlap between rows) |
| `Grid.CellsSpan` | src/grid.rs:105-121 | the first cell starts at `(0, 0)`; the last ends at `(Σ columns, Σ rows)` |
| `Grid.GridCoversViewport` | src/grid.rs:89-121 | when both axes have an `Auto` track, the grid starts at the origin and ends at the far corner of the viewport |
| `Grid.EmitCells` | src/grid.rs:105-121 | the nested loops, with `col_pos` reset per row and `row_pos` advanced per row, produce exactly `Cells` of the base sizes, `|rows| * |columns|` rectangles |
| `Grid.GridLayout.ColumnSizes` | src/grid.rs:92-95 | the columns initialised and resolved against the viewport width: one size per column specification; the `AxisSizes` rows state their values |
| `Grid.GridLayout.RowSizes` | src/grid.rs:99-102 | the rows initialised and resolved against the viewport height: one size per row specification; the `AxisSizes` rows state their values |
| `Grid.InitializeAndResolve` | src/grid.rs:92-102 | one axis of `get_grid`: the tracks are initialised, copied into an array and resolved in place; every base size comes out set, and the base sizes are exactly `AxisSizes` of the specifications |
| `Grid.GridLayout.GetGrid` | src/grid.rs:89-122 | resolves columns against the width and rows against the height, and returns `Cells(ColumnSizes(), RowSizes())`, `|rows| * |columns|` rectangles |
| `Grid.GridLayout.New` | src/grid.rs:81-87 | the builder starts with columns, rows and viewport all unset |
| `Grid.GridLayoutBuilder.WithColumns` | src/grid.rs:141-144 | sets the columns and changes no other field, so a later call replaces an earlier one |
| `Grid.GridLayoutBuilder.WithRows` | src/grid.rs:146-149 | sets the rows and changes no other field |
| `Grid.GridLayoutBuilder.WithViewport` | src/grid.rs:151-154 | sets the viewport to `(width, height)` and changes no other field |
| `Grid.GridLayoutBuilder.Build` | src/grid.rs:156-172 | `Err("ViewPort size not defined.")` exactly when no viewport was set; otherwise the layout takes the viewport unchanged, and takes each list given or `[Auto]` |
| `Grid.DefaultLayoutIsOneCell` | src/grid.rs:156-172 | a builder given only a viewport builds one `Auto` × `Auto` layout, whose grid is the single cell `(0, 0, width, height)` |
| `Demo.DemoColumnSizes` | src/main.rs:18 | columns `[20%, Auto, Auto, 20%]` on width 800 resolve to `[160, 240, 240, 160]` |
| `Demo.DemoRowSizes` | src/main.rs:19 | rows `[15%, Auto]` on height 600 resolve to `[90, 510]` |
| `Demo.DemoGrid` | src/main.rs:17-33 | the demonstration layout builds, and its grid has 8 cells, first `(0, 0, 160, 90)`, last `(640, 90, 800, 600)` |

## Left out

- Floating point: `f32` rounding and the `u32 as f32` conversion are not modelled; all arithmetic is exact over `real`.
- ResolveIntrinsicTrackSizes: if `autos == 0` and some growth limit is unset, Rust stores the non-finite `free_space / 0` there; the model leaves that growth limit unset. This cannot happen under `get_grid`, because initialisation sets a track's two values together.
- Resolved: the specification function of `ResolveIntrinsicTrackSizes` behaves the same way. With `autos == 0` it leaves an unset growth limit unset, for example `Resolved([TrackSize(Some(1.0), None)], 1.0)` is its input unchanged, where Rust stores `Some(0.0 / 0.0)`. Under `get_grid` this cannot happen, for the same reason.
- `max_growth` is carried and resolved, but nothing downstream reads it. The only property proved about it is that it gets set.
- `src/main.rs` is modelled only through its configuration (`Demo`). The SVG document, path construction, colour palette, `println!` and `svg::save` file output are presentation and I/O, so they are not modelled.
- The commented-out code (`Px`/`Pt`/`Em` variants, `get_free_size`, the commented builder `new`) is not part of the program, so it is not modelled.
- Ownership details are not modelled: `&mut Vec`, `clone`, `to_vec` and moving `self` through the builder become plain value semantics.
- Percentages outside [0, 100], totals above 100 % and explicitly empty track lists are not validated, as in the code. They yield negative sizes or an empty grid, and no error.
