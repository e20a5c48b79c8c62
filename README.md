# ROG-Map configuration, modelled in Dafny

This project models the configuration object `rog_map::Config` of ROG-Map, an occupancy
grid map for robot navigation. Its constructor does three jobs, and the model covers each:

- **Checks and coercions.** It loads the parameters and checks the length of every vector
  parameter (the ESDF box only when ESDF is enabled). It rejects a probability resolution
  coarser than the inflation resolution. It clamps `point_filt_num` and `batch_update_size` to at least one. It switches visualisation
  off when the visualisation range is not positive.
- **`resetMapSize`.** This derives the integer geometry of the map's three layers:
  - the inflation layer;
  - the probability layer;
  - the frontier counter layer.

  It also snaps the map size and the local update box back to whole cells. It writes the
  virtual ceiling and ground back half a cell below (ceiling) or above (ground) their index
  times the inflation cell size.
- **Neighbour tables.** It builds three spherical neighbour tables of integer offsets, each
  sorted by squared norm:
  - inflation;
  - unknown-space inflation;
  - nearest-obstacle search.

The project has three modules:

- Wrappers: `Option` and `Result`.
- `SphericalTable` (spherical_table.dfy): the tables.
  - The triple loop is a method proved equal to a specification function, `Table`.
  - `std::sort` is an in-place insertion sort on an array, proved sorted and a permutation.
  - Lemmas show that a table holds each admitted offset exactly once and nothing else.
- `RogConfig` (config.dfy): the checks and the geometry.
  - The checks are a function `FirstError` and a method `Load` that returns
    `Result<Config, ConfigError>`.
  - `Config` is a class. The fields `resetMapSize` rewrites are mutable. Every other field
    is constant after construction.
  - `Config.ResetMapSize` runs the six steps of the source as methods that update the fields
    in place. Each step is proved to compute a pure step function. Their composition is
    `Reset(Settings, Geometry)`, and the lemmas about `Reset` state what the derived
    geometry means.

The build-time switch between `ORIGIN_AT_CORNER` and `ORIGIN_AT_CENTER` becomes the
`CellOrigin` value of the configuration. Doubles are exact reals. A C++ cast of a double to
`int` is `Trunc` (toward zero), and `floor`/`ceil` are `Floor`/`Ceil`.

## Model

| member | source | states |
|---|---|---|
| `SphericalTable.AppendColumn` | rog_map/include/rog_map/rog_map_core/config.hpp:241-246 | the innermost loop appends exactly the kept offsets (dx, dy, dz) for dz from -step to step, in loop order |
| `SphericalTable.AppendPlane` | rog_map/include/rog_map/rog_map_core/config.hpp:240-247 | the middle loop appends the kept offsets of the plane dx, in loop order |
| `SphericalTable.BuildTable` | rog_map/include/rog_map/rog_map_core/config.hpp:239-248 | the triple loop produces exactly the generated table `Table(step, unitCubeRule)` |
| `SphericalTable.TableHoldsExactly` | rog_map/include/rog_map/rog_map_core/config.hpp:239-248 | every offset with each coordinate in [-s, s] that passes s == 1 or dx²+dy²+dz² <= s² occurs exactly once in the generated table; no other offset occurs |
| `SphericalTable.UnitCubeTable` | rog_map/include/rog_map/rog_map_core/config.hpp:242-244 | with step 1 and the unit-cube rule the table has 27 entries, exactly the offsets of [-1, 1]³ |
| `SphericalTable.SortBy` | rog_map/include/rog_map/rog_map_core/config.hpp:249-251 | sorting in place leaves the array non-decreasing in the comparator's key and a permutation of what it was |
| `SphericalTable.BuildSortedTable` | rog_map/include/rog_map/rog_map_core/config.hpp:239-251 | generate then sort: the result is sorted by squared norm and a permutation of the generated table |
| `SphericalTable.PermutedTableHoldsExactly` | rog_map/include/rog_map/rog_map_core/config.hpp:249-251 | sorting keeps the exactly-once property: a permutation of the generated table holds each admitted offset once and nothing else |
| `SphericalTable.SortedTableFacts` | rog_map/include/rog_map/rog_map_core/config.hpp:249-251 | a sorted table holding exactly the admitted offsets contains an offset iff it is admitted, has no duplicates, and starts at (0,0,0) when the step is not negative |
| `RogConfig.SearchStep` | rog_map/include/rog_map/rog_map_core/config.hpp:274-275 | the nearest-search step is the fewest cells that reach 5 m: that many cells reach it, one fewer do not, and it is at least one |
| `RogConfig.BuildTables` | rog_map/include/rog_map/rog_map_core/config.hpp:239-287 | inflation table with the unit-cube rule at inflation_step; unknown-inflation table likewise at its step only when enabled, empty otherwise; nearest-search table with the plain ball at the search step; all sorted |
| `RogConfig.ValidTables` | rog_map/include/rog_map/rog_map_core/config.hpp:239-287 | of every valid configuration: each table contains an offset iff it is admitted and has no duplicates; each starts at the origin when its step is not negative (the search step always is); 27 inflation entries when inflation_step is 1; empty unknown table when unknown inflation is off |
| `RogConfig.AtLeastOne` | rog_map/include/rog_map/rog_map_core/config.hpp:169-184 | a count <= 0 becomes 1, any other stays, so the result is >= 1 |
| `RogConfig.MinCoeff` | rog_map/include/rog_map/rog_map_core/config.hpp:134 | the least of the three coordinates: below or equal to each, equal to one |
| `RogConfig.FirstErrorIsEarliest` | rog_map/include/rog_map/rog_map_core/config.hpp:87-207 | loading fails with error e exactly when check e fails and every check before it in source order passes |
| `RogConfig.FirstErrorNone` | rog_map/include/rog_map/rog_map_core/config.hpp:87-207 | loading passes the checks exactly when no check fails |
| `RogConfig.Load` | rog_map/include/rog_map/rog_map_core/config.hpp:82-287 | the checks run in source order: fails iff some check fails, with the first failing one; otherwise returns a fresh valid configuration holding the loaded parameters, the clamped counts, visualisation on iff requested with a positive range, and the geometry `Reset` makes of the loaded sizes |
| `RogConfig.Config.constructor` | rog_map/include/rog_map/rog_map_core/config.hpp:82-287 | the configuration holds the loaded parameters, the clamped counts, visualisation on iff requested with a positive range, the geometry `Reset` makes of the loaded sizes, and the three tables; it is `Valid` |
| `RogConfig.InflationRatio` | rog_map/include/rog_map/rog_map_core/config.hpp:350-357 | the ratio is the fewest probability cells covering the inflation resolution (odd ones only with the origin at a cell centre), and at least 1 |
| `RogConfig.RatioUnique` | rog_map/include/rog_map/rog_map_core/config.hpp:350-357 | the ratio so described is unique |
| `RogConfig.RatioInMetres` | rog_map/include/rog_map/rog_map_core/config.hpp:350-361 | ratio cells reach the requested inflation resolution, one fewer (two at a cell centre) do not |
| `RogConfig.RatioStable` | rog_map/include/rog_map/rog_map_core/config.hpp:350-361 | the snapped inflation resolution has the same ratio, so snapping it again changes nothing |
| `RogConfig.MaxStep` | rog_map/include/rog_map/rog_map_core/config.hpp:370-375 | max_step is the inflation step, or the larger of the two steps when unknown inflation is on: it bounds each step in use and is one of them |
| `RogConfig.CellCount` | rog_map/include/rog_map/rog_map_core/config.hpp:388-394 | `2 * half + 1` cells is always odd and centred: half lies on each side of the centre cell |
| `RogConfig.ProbHalfExtent` | rog_map/include/rog_map/rog_map_core/config.hpp:376-380 | k = Trunc(h / ir) whole inflation cells reach at most h and miss less than one cell; k * ratio probability cells are exactly k inflation cells |
| `RogConfig.InflationMargin` | rog_map/include/rog_map/rog_map_core/config.hpp:376-380 | the inflation layer reaches at least max_step + 1 inflation cells beyond the probability layer |
| `RogConfig.AxisSizing` | rog_map/include/rog_map/rog_map_core/config.hpp:366-389 | one axis sized by steps 1 to 4 meets `AxisSized`: probability half-extent k * ratio with k the most whole inflation cells in h, half size in metres re-derived from the odd count, inflation margin kept |
| `RogConfig.Sized` | rog_map/include/rog_map/rog_map_core/config.hpp:350-395 | after steps 0 to 5 the inflation resolution is no finer than the probability resolution |
| `RogConfig.ResetIsConsistent` | rog_map/include/rog_map/rog_map_core/config.hpp:349-416 | whatever it starts from, a reset leaves a consistent geometry: stable ratio, half_map_size_i = (inf_half - (max_step+1)) * ratio, frontier = half + 1 when enabled, odd counts matching the sizes in metres, the ceiling written back half a cell below its index times the cell size and the ground half a cell above |
| `RogConfig.ResetMapExtent` | rog_map/include/rog_map/rog_map_core/config.hpp:350-389 | a reset gives a ratio >= 1 (odd at a cell centre), an inflation resolution of ratio cells and no finer than requested, and every axis sized as `AxisSized` says |
| `RogConfig.UpdateBoxSnap` | rog_map/include/rog_map/rog_map_core/config.hpp:392-394 | a box of b metres becomes an odd number of cells within one cell of b / resolution |
| `RogConfig.ResetBox` | rog_map/include/rog_map/rog_map_core/config.hpp:391-395 | after a reset each axis of the local update box is an odd number of cells within one cell of the request, and the box in metres is that many cells |
| `RogConfig.CornerCeiling` | rog_map/include/rog_map/rog_map_core/config.hpp:407-415 | with the origin at a corner the virtual ceiling comes down by between step + 1/2 and step + 3/2 inflation cells |
| `RogConfig.CornerGround` | rog_map/include/rog_map/rog_map_core/config.hpp:409-416 | with the origin at a corner the virtual ground goes up by between step - 1/2 and step + 1/2 inflation cells |
| `RogConfig.RoundedCells` | rog_map/include/rog_map/rog_map_core/config.hpp:399-402 | `int(h / r + SIGN(h) * 0.5)` is h / r rounded to the nearest integer, a tie going away from zero (up for a positive h, down for a negative one) |
| `RogConfig.CenterHeights` | rog_map/include/rog_map/rog_map_core/config.hpp:399-416 | with the origin at a cell centre a height lies in its rounded cell: the written-back ceiling (the cell's lower face) is at most one cell below it, the written-back ground (its upper face) at most one cell above |
| `RogConfig.SnappedHeightBounds` | rog_map/include/rog_map/rog_map_core/config.hpp:398-416 | step 6: at a corner the ids are floor(h / ir) ∓ inflation_step and the heights move within the bounds above; at a centre neither height moves by more than one inflation cell |
| `RogConfig.CeilResnap` | rog_map/include/rog_map/rog_map_core/config.hpp:398-415 | a ceiling written back for index id gets, when snapped again, index id - 1 - inflation_step at a corner, and id (id >= 1) or id - 1 (id <= 0) at a centre |
| `RogConfig.GroundResnap` | rog_map/include/rog_map/rog_map_core/config.hpp:398-416 | a ground written back for index id gets, when snapped again, index id + inflation_step at a corner, and id (id <= -1) or id + 1 (id >= 0) at a centre |
| `RogConfig.HeightsResnapped` | rog_map/include/rog_map/rog_map_core/config.hpp:398-416 | step 6 run again on its own output: at a corner the ceiling drops inflation_step + 1 more cells and the ground rises inflation_step cells; at a centre the ceiling stays iff its id >= 1 (else drops one cell) and the ground stays iff its id <= -1 (else rises one cell) |
| `RogConfig.Config.ResetMapSize` | rog_map/include/rog_map/rog_map_core/config.hpp:349-419 | the derived fields become `Reset` of the settings and their old values, and are consistent |
| `RogConfig.Config.SnapInflationResolution` | rog_map/include/rog_map/rog_map_core/config.hpp:350-361 | returns the inflation ratio and sets the inflation resolution to that many cells; nothing else changes |
| `RogConfig.Config.SizeLayers` | rog_map/include/rog_map/rog_map_core/config.hpp:366-385 | sets the half sizes of the inflation, probability and (when enabled) frontier layers as steps 1 to 3 define them |
| `RogConfig.Config.SnapMapSize` | rog_map/include/rog_map/rog_map_core/config.hpp:387-389 | sets the map size to the odd probability cell count in metres, and its half |
| `RogConfig.Config.SizeLocalUpdateBox` | rog_map/include/rog_map/rog_map_core/config.hpp:391-395 | sets the local update box to an odd cell count and back in metres |
| `RogConfig.Config.SnapVirtualHeights` | rog_map/include/rog_map/rog_map_core/config.hpp:397-416 | sets the ceiling and ground ids by the cell-origin convention (rounded at a centre, floor ∓ inflation_step at a corner) and writes the heights back half a cell below (ceiling) or above (ground) the index times the cell size |

## Left out

- YAML loading through `yaml_loader::YamlLoader` is not modelled. The loaded values (with their defaults) arrive as a `RawParams` value.
- Console and `fmt::print` output is not modelled. Exception messages are not modelled either: each error is named after its check. In the source, the ESDF box check throws the fixed-origin message ("Fix map origin size is not 3!").
- `replaceCmakeRootDir` and the point-cloud file name are not modelled. They are path handling through a regex.
- The log-odds constants (`logit`, `l_hit` to `l_free`, `n_free`, `n_occ`) are not modelled. They are floating-point logarithms.
- Parameters that are only loaded and stored are not modelled: ESDF resolution, map sliding, ROS callback topics and timeout, visualisation options other than the switch and range, intensity threshold, the raycasting switch, `unk_thresh`, and the probabilities.
- Doubles are exact reals, so rounding of floating-point division and multiplication is not modelled. Because the model's `ceil`, `floor` and `int` casts see exact quotients, an integer result can differ from the source's by a whole cell where a quotient lands on an integer. For example, with resolution 0.1, inflation resolution 0.3 and map size 6, the source snaps the inflation resolution to 0.30000000000000004, and 3.0 divided by it casts to 9, not 10; `half_map_size_i` is then 27 in the source and 30 in the model. Every property proved here holds of exact arithmetic only. Integers are unbounded, so `int` overflow of `dx * dx`, of the casts or of `2 * half + 1` is not modelled. A cast of an out-of-range double is not modelled either.
- `SIGN` comes from a header that is not part of this model. It is taken as -1, 0 or 1 by the sign of its argument.
- SphericalTable.SortBy: `std::sort` is modelled as an insertion sort. Only sortedness and the permutation are stated. The order among offsets of equal squared norm is unspecified in the source and may differ.
- RogConfig.Config.constructor: requires a positive resolution. The source never checks this; it divides by the resolution, and a resolution of zero or less has no meaning there.
- RogConfig.Load: requires a positive resolution whenever the checks pass, for the same reason.
- RogConfig.Config.constructor: when frontier extraction is off, the source never writes `fro_half_map_size_i`. When ESDF is off, it never writes `esdf_local_update_box`. Both are Eigen vectors declared with `{}`, which default-constructs them without zeroing the coefficients, so their values are indeterminate. The model picks zero for both, so its `Derived() == Reset(Fixed(), AsLoaded(raw))` and `LoadedFrom(raw)` promise zero where the source promises nothing. The scalar fields declared with `{}` do start at zero in the source.
- RogConfig.Load: its success contract inherits the same two zero vectors from the constructor, where the source leaves them indeterminate.
- RogConfig.Config.constructor: the neighbour tables and the three coerced fields are set while the object is initialised, as constant fields. The source builds the tables after `resetMapSize` by appending to member vectors. The tables read nothing `resetMapSize` writes, so the values are the same, but the model does not show the vectors being appended to in place. The inflation table is not cleared first in the source, which is harmless in a constructor because the vector starts empty.
- RogConfig.Config.ResetMapSize: requires `0 < resolution <= inflation_resolution`. The source's method has no precondition, but its only caller, the constructor, rejects `resolution > inflation_resolution` before calling it.
- RogConfig.ResetMapExtent: stated only for a map size with no negative axis.
- RogConfig.ResetBox: stated only for a local update box with no negative axis. On negative sizes the truncation toward zero still happens as modelled, but the bounds are not proved.
- `resetMapSize` is not idempotent on the virtual heights, and the model claims no idempotence for them. `RogConfig.HeightsResnapped` states exactly what a second step 6 does: at a corner it moves both heights again (unless inflation_step is -1, or 0 for the ground); at a centre the ceiling stays for ids >= 1 and the ground for ids <= -1, and otherwise each moves by one cell. The source calls `resetMapSize` once. `RogConfig.RatioStable` shows that the inflation resolution is stable.
- `super_planner/include/traj_opt/minco.h` is not part of this model. It declares a trajectory optimiser over floating-point polynomials and has no logic to model.
