# Paint-by-numbers, modelled in Dafny

A model of the deterministic core of a browser paint-by-numbers application.
The model covers:

- the canvas on which the user paints numbered regions (hit-testing, painting in place, the mouse state machine, what a redraw draws, and the label placement that reads numbers back out of an SVG path);
- the completion metric stored with a saved painting;
- the edge function that produces the palette and the regions;
- the board catalogue and the board picker's filters;
- the saved-paintings list;
- the `rgbToHex` encoder;
- the stand-alone paint app's sizing, segment and grid rules;
- the 2000-pixel cap of the image generator.

Modules, one per source file plus shared helpers:

| file | module | models |
|---|---|---|
| types.dfy | `PaintTypes` | regions, colours, the paint-by-numbers data |
| numerals.dfy | `Numerals` | integer printing in base 10 and 16 and reading it back |
| seqs.dfy | `Seqs` | `Array.prototype.filter`, order-preserving subsequences, and `forEach` as a flat map |
| real_facts.dfy | `RealFacts` | sign facts about real products |
| path_bounds.dfy | `PathBounds` | `getPathBounds` of the canvas |
| paint_canvas.dfy | `PaintCanvas` | the canvas component |
| completion.dfy | `Completion` | the painting service's records and percentage |
| region_generator.dfy | `RegionGenerator` | the processing edge function's palette, regions and paths |
| boards.dfy | `Boards` | the catalogue and its three lookups |
| board_selection.dfy | `BoardSelection` | the picker's filtered list and difficulty badge |
| user_paintings.dfy | `UserPaintings` | the saved-paintings list state and completion badge |
| hex_color.dfy | `HexColor` | `rgbToHex` |
| paint_app.dfy | `PaintApp` | the stand-alone paint app |
| image_generator.dfy | `ImageGenerator` | the generator's dimension cap and file guard |

How the modelling choices map to the code:

- **Browser containment is a parameter.** `isPointInPath` becomes a parameter `inPath(path, x, y)` with no properties assumed.
- **Drawing becomes command lists.** Each surface is the list of drawing commands issued on it.
- **`Math.random()` is an input.** The k-th value drawn is `rand(k)`, a real in [0, 1). The random rectangle of region `i` is `rect(i)`.
- **NaN is its own value.** It is `Percent.NaN` for the percentage and `None` for a path number or a bounding-box axis.
- **Arithmetic is exact.** Counts and percentages use unbounded integers. Dimension rules use exact reals, and the canvas's truncation to whole pixels is `Floor`.
- **Mutable state lives in classes.** The canvas's region list is an `array<Region>` updated in place by `Canvas.Paint`. The component states are classes: `Canvas`, `PaintingsList`, `App` and `Generator`.

The code uses `Array.find` and so picks the first (src/components/PaintCanvas.tsx:151-154). The model follows the code: `FirstHit` and `Canvas.FindRegion` return the first containing region.

## Model

| member | source | states |
|---|---|---|
| PaintTypes.MarkPainted | src/components/PaintCanvas.tsx:158 | the region becomes painted; id, colour number and path are kept |
| Numerals.ToBase | src/services/paintByNumberService.ts:86 | `toString(base)`: at least one digit, all in the base, one digit exactly below the base, no leading zero |
| Numerals.ValueOfToBase | src/services/paintByNumberService.ts:86-87 | reading a rendered numeral back in its base gives the number |
| Numerals.HexLength | src/services/paintByNumberService.ts:86-87 | base 16 gives two digits for 16..255 and at least three from 256 |
| Numerals.Decimal | supabase/functions/process-paint-by-numbers/index.ts:209 | decimal interpolation of an integer yields only decimal digits, at least one |
| Numerals.ValueOfDecimal | supabase/functions/process-paint-by-numbers/index.ts:209 | a printed decimal reads back as its value |
| Seqs.Filter | src/components/UserPaintings.tsx:46 | the result holds exactly the elements satisfying the predicate, in their original order (a subsequence), each passing element as often as in the input |
| Seqs.SubsequenceTransitive | src/components/BoardSelection.tsx:19-27 | filtering twice still yields a subsequence of the original |
| Seqs.SubsequenceReflexive | src/components/BoardSelection.tsx:19-27 | a list left unfiltered is a subsequence of itself |
| Seqs.FilterKeepsAll | src/components/UserPaintings.tsx:46 | a filter every element passes returns the list unchanged |
| PathBounds.RunLength | src/components/PaintCanvas.tsx:103 | the longest prefix of `[\d.]` characters, stopping at the first other character |
| PathBounds.Tokens | src/components/PaintCanvas.tsx:103 | every match of `[\d.]+` is a non-empty run of digits and dots |
| PathBounds.ParseNumber | src/components/PaintCanvas.tsx:103 | `Number` on a token is non-negative; NaN only when the token has a dot |
| PathBounds.Numbers | src/components/PaintCanvas.tsx:103 | one number per token |
| PathBounds.Evens | src/components/PaintCanvas.tsx:106 | exactly the entries at even positions, in order (the parity filter itself: `ParityFilters`) |
| PathBounds.Odds | src/components/PaintCanvas.tsx:107 | exactly the entries at odd positions, in order (the parity filter itself: `ParityFilters`) |
| PathBounds.ParityFilters | src/components/PaintCanvas.tsx:106-107 | the input entry at an even index i is entry i/2 of `Evens`, at an odd index entry i/2 of `Odds`, as `filter((_, i) => i % 2 === 0)` and `=== 1` give |
| PathBounds.AxisExtent | src/components/PaintCanvas.tsx:109-118 | NaN iff some value is NaN; otherwise the extent is non-negative, covers every value, and its ends are attained |
| PathBounds.BoundsOf | src/components/PaintCanvas.tsx:104-119 | fewer than 4 numbers gives the box 0,0,100,100 |
| PathBounds.GetPathBounds | src/components/PaintCanvas.tsx:100-104 | fewer than 4 numbers gives the box 0,0,100,100 |
| PathBounds.PathBoundsContain | src/components/PaintCanvas.tsx:104-119 | with 4 or more numbers: x from even positions, y from odd ones; each axis NaN iff one of its numbers is; width and height at least 0; the box contains every coordinate |
| PathBounds.BoundsContain | src/components/PaintCanvas.tsx:106-119 | the same facts for the box of any list of 4 or more numbers |
| PathBounds.RunLengthOfToken | src/components/PaintCanvas.tsx:103 | a token followed by a separator is read to its end |
| PathBounds.TokensOfToken | src/components/PaintCanvas.tsx:103 | a token followed by a separator is one match |
| PathBounds.TokensOfSeparator | src/components/PaintCanvas.tsx:103 | characters outside `[\d.]` produce no match |
| PathBounds.ParseDecimal | src/components/PaintCanvas.tsx:103 | a printed integer is one token and `Number` reads it as its value |
| Completion.PaintedCount | src/services/paintingService.ts:30 | at most the region count; equal iff all are painted; 0 iff none are |
| Completion.RoundedPercentage | src/services/paintingService.ts:31 | NaN exactly when there are no regions |
| Completion.CompletionPercentage | src/services/paintingService.ts:30-31 | NaN exactly for an empty region list |
| Completion.RoundsHalfUp | src/services/paintingService.ts:31 | the value is within one half of 100·painted/total, halves rounding up (`Math.round`) |
| Completion.PercentageRange | src/services/paintingService.ts:31 | lies in 0..100; 0 when none are painted, 100 when all are |
| Completion.PercentageMonotone | src/services/paintingService.ts:30-31 | painting more regions never lowers the percentage |
| Completion.CompletedExactly | src/services/paintingService.ts:42 | `is_completed` iff there are regions and at least 99.5% are painted; false with no regions |
| Completion.CompletedWithOneUnpainted | src/services/paintingService.ts:42 | with 200 or more regions, one unpainted still gives 100 and completed |
| Completion.SavePainting | src/services/paintingService.ts:24-43 | no user gives 'User not authenticated' and no insert; otherwise a row with the user's id, the given title, URLs and data, the rounded completion percentage of the regions (in 0..100 when there are regions), and `is_completed` iff at least 99.5% of a non-empty region list is painted |
| Completion.UpdateRecord | src/services/paintingService.ts:55-67 | always carries the data, the timestamp and `is_completed` (iff at least 99.5% of a non-empty region list is painted); a title only when one is given and non-empty |
| Completion.UpdateTitle | src/services/paintingService.ts:58-67 | after the update, an absent or empty title leaves the stored title; id, owner and creation time are kept |
| PaintCanvas.FindColor | src/components/PaintCanvas.tsx:63 | the first palette entry with the number; none iff no entry has it |
| PaintCanvas.RegionCommands | src/components/PaintCanvas.tsx:62-96 | no palette entry: nothing drawn; a painted region: its stroke, then a fill in its palette entry's hex; an unpainted region with numbers shown: its stroke, then the white plate, then the number label, both at the label anchor; otherwise only the stroke |
| PaintCanvas.RegionsCommandsFrom | src/components/PaintCanvas.tsx:62-64 | every command of a redraw belongs to a region that has a palette entry |
| PaintCanvas.FirstHit | src/components/PaintCanvas.tsx:151-154 | the first region in declaration order containing the point; none iff no region contains it |
| PaintCanvas.Canvas.constructor | src/components/PaintCanvas.tsx:23-31 | not painting, numbers shown; with data, the regions are copied and drawn |
| PaintCanvas.Canvas.Redraw | src/components/PaintCanvas.tsx:33-57 | the surface becomes clear, background, then every region's commands |
| PaintCanvas.Canvas.SetShowNumbers | src/components/PaintCanvas.tsx:27-31 | sets the flag and redraws when data is present |
| PaintCanvas.Canvas.FindRegion | src/components/PaintCanvas.tsx:151-154 | the loop returns the first region containing the point, or none |
| PaintCanvas.Canvas.Paint | src/components/PaintCanvas.tsx:137-170 | matching number: only the hit region becomes painted and the canvas is redrawn; wrong number: nothing changes; no hit: only a dab of radius brushSize/2; no data: nothing |
| PaintCanvas.Canvas.MouseDown | src/components/PaintCanvas.tsx:122-126 | with data, starts painting and leaves exactly the state one `Paint` at the point leaves (`PaintedFrom`); without data, nothing; the painted count never drops |
| PaintCanvas.Canvas.MouseMove | src/components/PaintCanvas.tsx:128-131 | while painting and with data, leaves exactly the state one `Paint` at the point leaves (`PaintedFrom`); otherwise nothing changes; the painted count never drops |
| PaintCanvas.Canvas.MouseUp | src/components/PaintCanvas.tsx:133-136 | painting stops (also bound to mouse-leave) |
| PaintCanvas.FirstHitIs | src/components/PaintCanvas.tsx:151-154 | a containing region with no earlier containing one is the hit |
| PaintCanvas.PaintNeverUnpaints | src/components/PaintCanvas.tsx:156-159 | the painted count cannot decrease and painted regions stay painted |
| PaintCanvas.MarkCount | src/components/PaintCanvas.tsx:158 | marking a region adds one to the count if it was unpainted, nothing otherwise |
| PaintCanvas.PaintEffect | src/components/PaintCanvas.tsx:156-169 | only the hit region can change; a wrong colour or a miss changes nothing; repeating a paint changes nothing |
| PaintCanvas.SamePathsSameHit | src/components/PaintCanvas.tsx:151-154 | the hit depends on paths only, so painting does not move it |
| PaintCanvas.LabelAnchor | src/components/PaintCanvas.tsx:83-85 | no contract of its own; `LabelInsideBounds` states where the label goes |
| PaintCanvas.LabelInsideBounds | src/components/PaintCanvas.tsx:83-85 | each label coordinate is NaN iff its bounds axis is, and otherwise lies inside that axis's extent |
| PaintCanvas.RegionsCommands | src/components/PaintCanvas.tsx:62-97 | every region with a palette entry is stroked; with no region resolvable, nothing is drawn (order, fills and labels: `FrameBlock`, `FrameContents`) |
| PaintCanvas.Frame | src/components/PaintCanvas.tsx:33-57 | a redraw starts with clear and background, and strokes every region with a palette entry (order, fills and labels: `FrameBlock`, `FrameContents`) |
| Seqs.FlatMap | src/components/PaintCanvas.tsx:62 | no contract of its own; `forEach` issuing each element's output in order, characterised by the three lemmas below |
| Seqs.FlatMapAppend | src/components/PaintCanvas.tsx:62 | drawing two lists in turn is drawing their concatenation |
| Seqs.FlatMapBlock | src/components/PaintCanvas.tsx:62 | element i's output is one block, after the outputs of the elements before it |
| Seqs.FlatMapMember | src/components/PaintCanvas.tsx:62 | an item is issued iff some element's output holds it |
| Seqs.FlatMapEmpty | src/components/PaintCanvas.tsx:62 | elements that issue nothing contribute nothing |
| PaintCanvas.RegionDrawer | src/components/PaintCanvas.tsx:62-96 | no contract of its own; the `forEach` callback as a function value |
| PaintCanvas.FrameBlock | src/components/PaintCanvas.tsx:33-62 | a redraw is clear, background, then each region's commands as one block in declaration order |
| PaintCanvas.RegionsFills | src/components/PaintCanvas.tsx:62-78 | a path is filled with a colour iff a painted region with that path has that colour as its palette hex |
| PaintCanvas.RegionsLabels | src/components/PaintCanvas.tsx:62-92 | a number is drawn at a position iff numbers are shown and an unpainted region with a palette entry has that number and label anchor |
| PaintCanvas.FillOfRegion | src/components/PaintCanvas.tsx:74-78 | one region fills a path with a colour iff it is painted, has that path and that palette hex |
| PaintCanvas.LabelOfRegion | src/components/PaintCanvas.tsx:81-92 | one region draws a label only as its own number at its own anchor, only when shown and unpainted |
| PaintCanvas.FrameContents | src/components/PaintCanvas.tsx:33-97 | a redraw fills every painted, resolvable region in its colour and labels every unpainted one when numbers are shown, and draws no other fill or label |
| PaintCanvas.AfterPaint | src/components/PaintCanvas.tsx:156-159 | same length; only the hit region can change, and it ends painted iff it was painted or has the selected number |
| Completion.IsCompleted | src/services/paintingService.ts:42 | no contract of its own; `CompletedExactly` characterises it |
| Completion.ApplyUpdate | src/services/paintingService.ts:58-74 | the update keeps the id, owner, creation time and image URLs; without a title the stored title stays |
| HexColor.HexString | src/services/paintByNumberService.ts:86 | no contract of its own; `HexStringFacts` states its length and value |
| PaintApp.Hsl | src/components/PaintApp/PaintApp.tsx:73 | no contract of its own; the colour string `NewColors` stores |
| PaintApp.Preview | src/components/PaintApp/PaintApp.tsx:97-145 | no contract of its own; `SegmentsCommands` states what the segment loop draws |
| BoardSelection.Includes | src/components/BoardSelection.tsx:21 | no contract of its own; `String.prototype.includes` as an occurrence at some position |
| BoardSelection.MatchesSearch | src/components/BoardSelection.tsx:21 | no contract of its own; `FilteredBoards` and `SearchIgnoresCase` state its use |
| BoardSelection.MatchesDifficulty | src/components/BoardSelection.tsx:26 | no contract of its own; `FilteredBoards` states its use |
| PaintCanvas.Canvas.PaintedFrom | src/components/PaintCanvas.tsx:151-169 | no contract of its own; the post-state of one paint attempt, shared by `Paint`, `MouseDown` and `MouseMove` |
| RegionGenerator.Palette | supabase/functions/process-paint-by-numbers/index.ts:123-187 | 12 entries numbered 1..12 in order |
| RegionGenerator.RegionCount | supabase/functions/process-paint-by-numbers/index.ts:191 | the length when non-zero, 15 when absent or zero |
| RegionGenerator.GenerateRegions | supabase/functions/process-paint-by-numbers/index.ts:188-201 | min(count, 20) regions with ids 1..n, colour (i−1) mod 12 + 1, the rectangle path of region i, unpainted |
| RegionGenerator.BuildResponse | supabase/functions/process-paint-by-numbers/index.ts:92-102 | the palette, the generated regions and dimensions always 800×600 |
| RegionGenerator.GeneratedRegionsResolve | supabase/functions/process-paint-by-numbers/index.ts:125-195 | every generated colour number is in 1..12 and matches exactly one palette entry, which the canvas finds |
| RegionGenerator.FreshRegionsUnpainted | supabase/functions/process-paint-by-numbers/index.ts:197 | fresh regions count 0 painted, give 0% and are not completed |
| RegionGenerator.TokensStep | supabase/functions/process-paint-by-numbers/index.ts:209 | a separator then a printed coordinate contributes exactly that coordinate's token |
| RegionGenerator.TokensPoint | supabase/functions/process-paint-by-numbers/index.ts:209 | one corner (`M x,y` or ` L x,y`) contributes its x then its y token, ahead of the rest's tokens |
| RegionGenerator.RectPathTokens | supabase/functions/process-paint-by-numbers/index.ts:209 | the path `M x,y L … Z` yields the four corners' coordinates in drawing order |
| RegionGenerator.CornerTokens | supabase/functions/process-paint-by-numbers/index.ts:209 | a path of an `M` corner, three ` L` corners and ` Z` yields the eight coordinates in drawing order |
| RegionGenerator.LastCorners | supabase/functions/process-paint-by-numbers/index.ts:209 | the three ` L` corners and ` Z` start with a space and yield their six coordinates |
| RegionGenerator.RectPathNumbers | supabase/functions/process-paint-by-numbers/index.ts:209 | `Number` reads those coordinates back exactly |
| RegionGenerator.CornerNumbers | src/components/PaintCanvas.tsx:103 | a path whose tokens are printed corner coordinates reads them back as those values |
| RegionGenerator.CornerBounds | src/components/PaintCanvas.tsx:104-119 | the numbers of a rectangle's four corners, in drawing order, give the box of that rectangle |
| RegionGenerator.RectPathBounds | supabase/functions/process-paint-by-numbers/index.ts:209 | label placement applied to a generated path recovers the rectangle's corner and size |
| RegionGenerator.ExtentOfPair | src/components/PaintCanvas.tsx:109-118 | min and max over values that are all lo or hi give lo and hi − lo |
| Boards.AllBoardsOf | src/data/boards.ts:301-303 | empty catalogue gives no boards; the first category's boards come first |
| Boards.AllBoardsAppend | src/data/boards.ts:301-303 | flattening distributes over concatenation of categories |
| Boards.AllBoardsMembers | src/data/boards.ts:301-303 | a board is in the flat list iff some category holds it |
| Boards.CategoryBlock | src/data/boards.ts:301-303 | each category's boards appear contiguously, in order, after the earlier categories' |
| Boards.FindFirst | src/data/boards.ts:306 | `find` as used by both lookups: the first element satisfying the test; none iff no element does |
| Boards.BoardsByCategoryOf | src/data/boards.ts:305-308 | the boards of the first category with the id; [] for an unknown id |
| Boards.BoardByIdOf | src/data/boards.ts:310-312 | a found board has the id and is in the flat list |
| Boards.BoardByIdFirst | src/data/boards.ts:310-312 | the found board is the first with that id in flat order; undefined iff no category holds a board with the id |
| BoardSelection.LowerChar | src/components/BoardSelection.tsx:21 | no upper-case ASCII letter survives |
| BoardSelection.Lower | src/components/BoardSelection.tsx:21 | same length, each character lower-cased; no upper-case ASCII letter remains and every other character is kept |
| BoardSelection.LowerIdempotent | src/components/BoardSelection.tsx:21 | lower-casing twice equals once |
| BoardSelection.BaseBoards | src/components/BoardSelection.tsx:15-17 | 'all' gives every board in order; an unknown category gives [] |
| BoardSelection.FilteredBoards | src/components/BoardSelection.tsx:14-30 | an order-preserving subsequence of the base list; a board is kept iff it passes the search (when non-empty) and the difficulty (when not 'all'); with neither, the base list itself |
| BoardSelection.SearchIgnoresCase | src/components/BoardSelection.tsx:20-22 | searching the lower-cased term gives the same list |
| BoardSelection.FilterSamePredicate | src/components/BoardSelection.tsx:20-22 | filters with equal predicates give equal lists |
| BoardSelection.DifficultyColor | src/components/BoardSelection.tsx:32-39 | gray exactly for strings other than Easy, Medium and Hard |
| BoardSelection.BadgeOfBoard | src/components/BoardSelection.tsx:32-39 | Easy, Medium and Hard get green, yellow and red, pairwise distinct and never gray |
| HexColor.HexStringFacts | src/services/paintByNumberService.ts:86 | `toString(16)` reads back for non-negative values; one character iff 0..15; negative values start with '-' |
| HexColor.Component | src/services/paintByNumberService.ts:86-87 | at least two characters; for 0..255 exactly two hex digits that read back; 256 and up keep three or more digits |
| HexColor.RgbToHex | src/services/paintByNumberService.ts:84-89 | '#' then the r, g and b renderings in that order |
| HexColor.RgbRoundTrip | src/services/paintByNumberService.ts:85-88 | for 0..255, length 7 and each two-character chunk reads back as its component |
| HexColor.RgbInjective | src/services/paintByNumberService.ts:85-88 | distinct colours in 0..255 give distinct strings |
| HexColor.RgbUnclamped | src/services/paintByNumberService.ts:86-87 | a component of 256 or more makes the string longer than 7 |
| UserPaintings.CompletionColor | src/components/UserPaintings.tsx:61-65 | green iff exactly 100; yellow iff at least 50 and not 100 (above 100 too); blue below 50 and for NaN |
| UserPaintings.BadgeOfSavedPainting | src/components/UserPaintings.tsx:61-65 | a fully painted saved painting shows green, an unpainted one blue; green iff completed |
| UserPaintings.Without | src/components/UserPaintings.tsx:46 | exactly the paintings with another id remain, in order, each as often as before |
| UserPaintings.WithoutAbsent | src/components/UserPaintings.tsx:46 | deleting an id nobody has leaves the list unchanged |
| UserPaintings.WithoutIdempotent | src/components/UserPaintings.tsx:46 | deleting the same id twice equals deleting it once |
| UserPaintings.PaintingsList.constructor | src/components/UserPaintings.tsx:11-13 | empty list, loading, no error |
| UserPaintings.PaintingsList.LoadPaintings | src/components/UserPaintings.tsx:22-36 | an error or a throw sets the message and keeps the list; success sets the list to the data or [] and keeps any earlier error; loading ends false |
| UserPaintings.PaintingsList.DeletePainting | src/components/UserPaintings.tsx:38-51 | confirmed and successful: exactly that id's paintings go; declined or failed: unchanged |
| PaintApp.FitPreview | src/components/PaintApp/PaintApp.tsx:39-53 | computes `FitSize` by updating the two sides; both at most 800, unchanged within 800, otherwise aspect kept and the longer side exactly 800 |
| PaintApp.FitSize | src/components/PaintApp/PaintApp.tsx:39-53 | both sides at most 800; unchanged when within 800; otherwise aspect kept and the longer side exactly 800, a tie taking the height branch |
| PaintApp.ScaledSide | src/components/PaintApp/PaintApp.tsx:43-53 | the scaled shorter side stays within 0..800 and keeps the aspect ratio |
| PaintApp.FloorBelow | src/components/PaintApp/PaintApp.tsx:78 | `Math.floor(random * n)` is an index below n |
| PaintApp.Hue | src/components/PaintApp/PaintApp.tsx:73 | a hue in 0..359 |
| PaintApp.NewColors | src/components/PaintApp/PaintApp.tsx:71-74 | ten `hsl(h, 70%, 70%)` colours, hue i from the i-th random value |
| PaintApp.ColorIndex | src/components/PaintApp/PaintApp.tsx:78 | an index into the colour list |
| PaintApp.NewSegments | src/components/PaintApp/PaintApp.tsx:77-84 | 50 segments, segment i with id i, number i+1 and a colour from the list picked by the random value after the colours' |
| PaintApp.MakeSegments | src/components/PaintApp/PaintApp.tsx:67-84 | ten colours, colour i being `Hsl(Hue(rand, i))`; fifty segments, segment i with id i, number i+1 and the colour picked by its random index |
| PaintApp.Columns | src/components/PaintApp/PaintApp.tsx:114-115 | ⌈width/40⌉: the least count of 40-pixel columns covering the width; 0 iff the width is 0 |
| PaintApp.Place | src/components/PaintApp/PaintApp.tsx:123-126 | column below cols and row·cols + col = index; nowhere when cols is 0 |
| PaintApp.PlaceInjective | src/components/PaintApp/PaintApp.tsx:123-124 | distinct segments get distinct cells |
| PaintApp.SegmentsCommands | src/components/PaintApp/PaintApp.tsx:122-144 | every segment gets a disc in its cell; numbers only when shown, then one per segment; nothing on a zero-width canvas |
| PaintApp.App.constructor | src/components/PaintApp/PaintApp.tsx:14-18 | no colours, segments or selection; numbers shown |
| PaintApp.App.ProcessImage | src/components/PaintApp/PaintApp.tsx:26-94 | the canvas is `FitSize` of the image truncated to whole pixels; colour i is `Hsl(Hue(rand, i))` and segment i takes the colour its random index picks; the first colour selected; preview redrawn |
| PaintApp.App.ToggleNumbers | src/components/PaintApp/PaintApp.tsx:273 | the button flips the flag; the effect at lines 202-206 then redraws the preview when there are segments |
| PaintApp.App.CanvasClick | src/components/PaintApp/PaintApp.tsx:165-182 | no selected colour: nothing drawn; otherwise one spot of radius 15 in that colour at the point |
| ImageGenerator.MinRatio | src/components/PaintByNumberGenerator.tsx:56 | a ratio in (0,1) bringing both sides within 2000, the longer one to exactly 2000 |
| ImageGenerator.LongerSideRatio | src/components/PaintByNumberGenerator.tsx:56-58 | scaling the longer side to 2000 keeps the shorter within 0..2000 |
| ImageGenerator.RatioOrder | src/components/PaintByNumberGenerator.tsx:56 | the longer side gives the smaller ratio |
| ImageGenerator.CapDimensions | src/components/PaintByNumberGenerator.tsx:51-59 | computes `CapSize` by updating the two sides; within 2000×2000 unchanged, otherwise both within 2000, aspect kept, the limiting side exactly 2000 |
| ImageGenerator.CapSize | src/components/PaintByNumberGenerator.tsx:51-59 | within 2000×2000 unchanged; otherwise both within 2000, aspect kept, the limiting side exactly 2000 |
| ImageGenerator.ScaledAspect | src/components/PaintByNumberGenerator.tsx:57-58 | multiplying both sides by one ratio keeps the aspect |
| ImageGenerator.Generator.constructor | src/components/PaintByNumberGenerator.tsx:14 | not processing, nothing loaded |
| ImageGenerator.Generator.HandleFileChange | src/components/PaintByNumberGenerator.tsx:21-35 | no file: nothing happens; otherwise one more image is read, at `CapSize` of its size truncated to whole pixels, and processing ends |

`Boards.AllBoards`, `Boards.BoardsByCategory` and `Boards.BoardById` apply the lookups above to `Boards.Catalogue()`. `Boards.Catalogue()` is the shipped catalogue of 10 categories with 20 boards each, transcribed from src/data/boards.ts:18-299.

## Left out

- Browser canvas calls are not modelled: `Path2D`, `isPointInPath`, `drawImage`, `arc`, `fillText`, `getImageData` and `getBoundingClientRect`. Containment is the parameter `inPath`, and drawing is a list of commands.
- The pointer-to-canvas coordinate scaling (src/components/PaintCanvas.tsx:141-145) is floating point. The model takes the scaled point as input.
- The canvas background image loads asynchronously. `Canvas.Redraw` draws clear, background and regions as one step.
- Network and database calls are not modelled: the Hugging Face requests, the HTTP handling of the edge function, the Supabase client and every query.
  - `Completion.SavePainting` and `Completion.UpdateRecord` produce what would be sent.
  - `PaintingsList.LoadPaintings` and `PaintingsList.DeletePainting` take the call's outcome as a parameter.
  - The `updated_at` ordering is done by the database.
- `Math.random` is not modelled; its values are parameters.
- Floating point is not modelled. The percentage uses the exact formula (200·painted + total) div (2·total), which is what `Math.round` of the exact ratio gives. Float rounding error in `painted / total * 100` is not modelled.
- RegionGenerator.RectPath: models integer corner coordinates only. The edge function's coordinates are random floats, and printing fractional floats is not modelled.
- PathBounds.ParseNumber: reads digit runs with at most one dot. This covers every token `[\d.]+` can produce, but exponent forms cannot occur and are not considered.
- BoardSelection.LowerChar: folds only ASCII letters. `toLowerCase` also folds non-ASCII letters.
- HexColor.Component: takes integer components only. `toString(16)` of a fractional number is not modelled.
- `Boards.Catalogue` has no proved facts of its own. Its size and the uniqueness of its board ids are not proved, because unfolding the 200-entry literal is too costly for the solver.
- React lifecycle and asynchrony are not modelled: `useEffect` ordering, `setTimeout`, `FileReader`, image `onload`/`onerror`, and `confirm`/`alert`. Effects are folded into the method that triggers them.
  - `App.ProcessImage` ends with the preview redraw caused by the new segments. The memoised `drawPreview` called inside `processImage` (src/components/PaintApp/PaintApp.tsx:91) still sees the empty initial segment list, so the effect at lines 202-206 does the visible redraw.
  - `Generator.HandleFileChange` does not model the service call that follows the image read, or its error reporting.
- `generatePaintByNumber` (src/services/paintByNumberService.ts:31-81) is not modelled: it is a stub that returns a fixed three-colour object.
- src/services/aiProcessor.ts is not part of this model.
- The presentation-only components are not modelled, apart from the badge and button choices above.
- The guards on missing canvas refs or 2D contexts (`!canvasRef.current`, `!ctx`) are not modelled. The model assumes the canvas exists and only models the data guard.
