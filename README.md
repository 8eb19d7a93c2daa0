# GCode post-processing tools in Dafny

This project models the core of a G-code post-processor for 3D-printer slicer
output. It reads a sliced file as lines. It splits the file into an intro, the
printed layers and an outro, and parses the linear moves ("G1 X.. Y.. Z.. E..
F.. ;comment") of each layer. Two tools then rewrite the layers in place:

- **Connecting single-extrusion layers.** A layer printed as one continuous
  extrusion gets one extra move appended, to the first move of the next layer.
  Its E value is scaled from the layer's last segment.
- **Vase mode.** A run of single-extrusion layers is found. Every move of each
  of its layers that has no Z of its own gets a Z that climbs with the distance
  walked. The climb is at most one layer height times a weight. The weight ramps
  from 0 at both ends of the run to 1 in its middle.

Modules, in dependency order:

| module | file | models |
|---|---|---|
| `Wrappers` | Wrappers.dfy | `Option`, standing for C#'s nullable values and null references |
| `Text` | Text.dfy | the .NET string operations the code uses: `IsNullOrWhiteSpace`, `StartsWith`, `IndexOf`, `Split`, `Replace` |
| `ParserHelpers` | ParserHelpers.dfy | `ParserHelpers.TryParse`, the token reader. The float parser, the "0.#####" formatter and `Vector2.Length`'s square root are opaque fields of a `Numerics` record. |
| `Moves` | Moves.dfy | `MoveCommand`: the parsing constructor, `ToString`, `CreateVector2`, `GetDistance`, `GetLength` |
| `Layers` | Layers.dfy | the class `Layer`: its lines, the projection of its lines to moves, `IsSingleExtrusion`, `Update` |
| `Documents` | Documents.dfy | the class `ParsedFile`: splitting the file with an enumerator, and `Parse` |
| `Tools` | Tools.dfy | both `ConnectSingleExtrusionLayers` overloads, `VaseLayers`, `VaseLayersInternal` and `VaseLayer` |

**Outcomes.** Each tool is a pure function on `LayerView` values, the part of a
layer's state the tool reads. Each is paired with a method on the `Layer`
objects, proved to compute it.

- An exception the source throws is a `Fail` outcome. The loop that would
  propagate it stops there.
- A NaN or infinity that the source's float arithmetic would write into the
  file is also a `Fail` outcome.
- A turn of the `VaseLayers` loop that changes no loop variable is
  `Fail(Hangs)`. The source repeats such a turn forever.

The loops of `ConnectSingleExtrusionLayers(layers)`, `VaseLayersInternal`,
`VaseLayer`, `VaseLayers` and the `ParsedFile` constructor keep the source's
structure. The body of each turn is a separate method (`ConnectStep`,
`VaseStep`, `RampTurn`, `VaseProcess`, `BuildStep`).

**Behaviour of the code that the model keeps and proves.**

- `IsMoveCommand` accepts every line starting with "G1". The parsing
  constructor only accepts a first token of exactly "G1". A "G10" line therefore
  makes `GetAllMoveCommands` throw.
- The file split drops a layer marker that is the last line before the end
  marker when it closes the layer before it, so `Parse` is not always the
  identity. A marker ends the layer being collected and goes, with the line
  after it, into the next one; a marker that ends a layer as the last line
  starts none. Along a run of markers at the end this alternates: in
  `[";LAYER_CHANGE"]` the marker is kept, in two markers the second is
  dropped, in three all are kept.
- Without any layer marker, `Take(-1)` and `Skip(-1)` make the first layer run
  up to and including the end-marker line. `Parse` then repeats that line.
- Without an end marker, `Parse` dereferences the null outro.
- In `VaseLayers`, a single-extrusion layer ahead of the group end moves the
  end to the next layer without testing it. A group may therefore hold a layer
  that is not single extrusion.
- A single-extrusion run too short to vase makes the loop spin forever when
  its group end is at or after its start. A last layer that is single
  extrusion and is reached with the end behind the start ends the loop
  normally instead: with a positive transition count nothing is vased, and
  the loop returns.

## Model

| member | source | states |
|---|---|---|
| `ParserHelpers.Normalize` | Common/FileController.cs:86-88 | A leading '.' gains a '0'. A leading "-." turns every "-." into "-0.", as .NET `Replace("-.", "-0.")` does (`Text.ReplaceDashDot`, scanning left to right without overlap). Any other text is kept. Empty text stays empty. |
| `ParserHelpers.TryParse` | Common/FileController.cs:80-99 | A token is accepted exactly when it is not blank, has a character after its key, and the rest parses after the rewrite. The key is its first character and the value is that parse. |
| `Moves.ParseLine` | Common/FileController.cs:279-315 | The constructor succeeds exactly when the line is not blank and its first space-separated token is "G1". Otherwise it throws `ArgumentException`. The move keeps its line index. |
| `Moves.ParseMoveCommand` | Common/FileController.cs:288-314 | The token loop computes the value `ParseLine` specifies. The loop stops after the first token starting with ';'. For each key, the last parsable token wins. The comment is the text after the line's first ';'. |
| `Moves.FirstTokenIsG1` | Common/FileController.cs:284-286 | The first token is "G1" exactly when the line starts with "G1" and is either "G1" alone or continues with a space. |
| `Moves.PrefixAcceptsMoreThanConstructor` | Common/FileController.cs:353-356 | Take a line that passes `IsMoveCommand`. The constructor accepts it exactly when the line is "G1" alone or its third character is a space. |
| `Moves.ParsedLineIsMoveCommand` | Common/FileController.cs:353-356 | Every line the constructor accepts passes `IsMoveCommand`. |
| `Moves.LastValueAppend` | Common/FileController.cs:290-302 | In a token sequence, a later parsable token of a key overrides an earlier one. |
| `Moves.CommentStopsScan` | Common/FileController.cs:303-314 | Appending " ;" and a comment to an accepted line leaves every coordinate the same. The comment text becomes the move's comment. |
| `Moves.FieldsRoundTrip` | Common/FileController.cs:317-340 | The printed fields hold no ';'. Parsing them gives back each present field as the parser reads its formatted number, and no comment. |
| `Moves.SerializeRoundTrip` | Common/FileController.cs:317-347 | `ToString` followed by the parsing constructor gives back the X, Y, Z, E and F that were present, each re-read from its formatted text. The comment comes back unless it was blank. |
| `Moves.MoveCommand.Can2D` | Common/FileController.cs:349 | Definition: a move is 2D when it has both X and Y. `Layers.ProjectionIndices` proves a 2D projection holds only such moves. |
| `Moves.IsMoveCommand` | Common/FileController.cs:353-356 | Definition: the prefix test, a line that is not blank and starts with "G1". `Moves.ParsedLineIsMoveCommand` and `Moves.PrefixAcceptsMoreThanConstructor` compare it with the constructor. |
| `Moves.Serialize` | Common/FileController.cs:317-347 | Definition of `ToString`: "G1", then each present field of X, Y, Z, E, F after a space as its key and formatted number, then " ;" and the comment unless it is null or blank. `Moves.SerializeRoundTrip` proves the parser reads it back. |
| `Moves.CreateVector2` | Common/FileController.cs:358-364 | Definition: the planar displacement from one move to another, with an axis missing on either side giving 0. `Moves.VectorAntisymmetric` proves reversing it negates it. |
| `Moves.GetDistance` | Common/FileController.cs:374-377 | Definition: the square root of the displacement's squared length. `Moves.DistanceProperties` proves it symmetric and non-negative. |
| `Moves.PathLength` | Common/FileController.cs:379-388 | Definition: the sum of the distances between consecutive moves, 0 for fewer than two. `Moves.GetLength` computes it and `Moves.PathLengthMonotone` bounds it. |
| `Moves.VectorAntisymmetric` | Common/FileController.cs:358-364 | Reversing the two moves negates the planar displacement. |
| `Moves.DistanceProperties` | Common/FileController.cs:374-377 | The distance between two moves is symmetric, and it is never negative when the square root is not. |
| `Moves.GetLength` | Common/FileController.cs:379-388 | The loop returns the sum of the distances between consecutive moves. |
| `Moves.PathLengthMonotone` | Common/FileController.cs:379-388 | A prefix of a path is never longer than the path, and no path length is negative. |
| `Layers.FindLine` | Common/FileController.cs:217-223 | Gives the first line starting with the prefix, and no earlier line starts with it. Gives none when no line does. |
| `Layers.DeclaredValue` | Common/FileController.cs:215-229 | A layer's Z or height is the float parsed from the text after the first declaration's prefix. It is 0 when there is no declaration or the text does not parse. |
| `Layers.ProjectPrefix` | Common/FileController.cs:191-205 | Definition: the moves of the first k lines, in line order, or none where a line passes the prefix test but the constructor throws. `Layers.ProjectPrefixFault` and the lemmas after it characterize it. |
| `Layers.Projection` | Common/FileController.cs:191-205 | Definition of `GetAllMoveCommands` on the lines: the projection of all of them. `Layers.ProjectionCharacterized` says what it holds and `Layers.ProjectionFault` when it throws. |
| `Layers.ProjectPrefixFault` | Common/FileController.cs:191-205 | Moves are collected from the first k lines. Collection throws exactly when one of those lines passes the prefix test but is rejected by the constructor. |
| `Layers.ProjectionFault` | Common/FileController.cs:191-205 | `GetAllMoveCommands` throws exactly when some line passes the prefix test but is rejected by the constructor. |
| `Layers.ProjectionCharacterized` | Common/FileController.cs:191-205 | The result holds one move for each selected line, and nothing else. Each move is the parse of its own line at that line's index, and the moves are in line order. With `onlyCan2D`, every move has both X and Y. |
| `Layers.ProjectionIndices` | Common/FileController.cs:191-205 | The line index of every collected move lies inside the layer, the indices increase, and a 2D projection holds only 2D moves. |
| `Layers.ProjectionSnoc` | Common/FileController.cs:191-205 | Appending a line that parses to a selected move appends exactly that move to the collected moves. |
| `Layers.G10LineFaults` | Common/FileController.cs:197-199 | A line starting with "G10" makes `GetAllMoveCommands` throw. |
| `Layers.FindE` | Common/FileController.cs:234-237 | `FindIndex(start, …)` gives the first position from `start` whose E presence matches. It gives -1 when there is none. |
| `Layers.SingleExtrusion` | Common/FileController.cs:231-241 | Definition: a first move with E exists, and no later move lacks E. `Layers.SingleExtrusionPattern` states it as a pattern. |
| `Layers.SingleExtrusionPattern` | Common/FileController.cs:231-241 | The `IsSingleExtrusion` test holds exactly when the E-presence pattern of the 2D moves is: some moves without E, then at least one move with E, and none without E after it. |
| `Layers.SingleExtrusionOf` | Common/FileController.cs:231-241 | `IsSingleExtrusion` throws exactly when collecting the moves does. Otherwise it answers the pattern above. |
| `Layers.SingleExtrusionLastExtrudes` | Common/FileController.cs:231-241 | A single-extrusion layer has at least one 2D move, and its last 2D move has E. |
| `Layers.UpdateLines` | Common/FileController.cs:249-255 | `Update` throws exactly when the index is at or past the end. Otherwise the lines keep their count, every other line is kept, and a non-negative index gets the move's text. |
| `Layers.Layer.constructor` | Common/FileController.cs:215-229 | A new layer holds the given lines, with Z and height read from its ";Z:" and ";HEIGHT:" declarations. |
| `Layers.Layer.IsSingleExtrusion` | Common/FileController.cs:231-241 | Definition: `SingleExtrusionOf` on the layer's current lines, as characterized by `Layers.SingleExtrusionOf`. |
| `Layers.Layer.GetAllMoveCommands` | Common/FileController.cs:191-205 | The loop over the lines computes the characterized projection of the current lines, or the fault. |
| `Layers.Layer.GetLength` | Common/FileController.cs:210-213 | Gives the path length of the current 2D moves, or the fault of collecting them. |
| `Layers.Layer.Update` | Common/FileController.cs:249-255 | The new lines are those `UpdateLines` gives. The result is false exactly when the source throws, and then the lines stay unchanged. |
| `Documents.Take` | Common/FileController.cs:133 | `Enumerable.Take`: a prefix of the lines, empty for a non-positive count and everything for a count past the end. |
| `Documents.Skip` | Common/FileController.cs:136-138 | `Enumerable.Skip`: a suffix of the lines, everything for a non-positive count and empty for a count past the end. |
| `Documents.IntroOf` | Common/FileController.cs:132-133 | Definition: the lines before the first layer marker (none, without one). `Documents.PartsAreSlices` gives it as a slice. |
| `Documents.OutroOf` | Common/FileController.cs:134-139 | Definition: the lines from the first end marker on, or null without one. `Documents.PartsAreSlices` and `Documents.ParseWithoutEndMarker` state both cases. |
| `Documents.RegionOf` | Common/FileController.cs:132-141 | Definition: the lines handed to the enumerator, from the first layer marker up to the end marker. `Documents.PartsAreSlices` gives it as a slice. |
| `Documents.LayersFrom` | Common/FileController.cs:142-155 | Definition of the enumerator loop's layers from a position on: each layer runs from its start (the first line, or the marker that ended the layer before) up to the next marker after the line where the enumerator stands. `Documents.BuildLayers` computes it. |
| `Documents.SplitLayers` | Common/FileController.cs:142-155 | Definition: the layers built from the whole region. `Documents.SplitLayersShape` and `Documents.SplitLayersExact` state their shape and contents. |
| `Documents.ParseOf` | Common/FileController.cs:158-168 | Definition of `Parse` after the constructor: intro, layers and outro concatenated, or none for a null outro. `Documents.ParseRoundTripCases` gives exactly what it returns. |
| `Documents.FindIndex` | Common/FileController.cs:132-134 | Gives the first line with the prefix, and no earlier one has it. Gives -1 when no line has it. |
| `Documents.MarkersDiffer` | Common/FileController.cs:132-134 | No line is both a layer marker and an end marker. |
| `Documents.SplitLayersCover` | Common/FileController.cs:142-155 | Concatenating the layers gives back the region between the markers, except possibly its last line, and only when that line is a layer marker. Such a marker is dropped when it closes the layer before it (see `Documents.SplitLayersExact`). |
| `Documents.LastMarkerCloses` | Common/FileController.cs:146-155 | A layer marker as the last line, after a line that is not one, is where some layer's scan stops, from any layer start before it. |
| `Documents.DropLastMarker` | Common/FileController.cs:146-155 | Take a region that ends in a layer marker preceded by a line that is not one. The layers hold every line but that last marker. |
| `Documents.ClosesLayer` | Common/FileController.cs:148-151 | Definition: some layer's scan for the next marker, building from a position on, stops at a given line. |
| `Documents.LayersFromExact` | Common/FileController.cs:142-155 | The layers built from a position hold the lines from the current layer's start on, except the last line exactly when a layer's scan stopped at it; that line is then a layer marker. |
| `Documents.SplitLayersExact` | Common/FileController.cs:142-155 | Both directions: the layers lose the region's last line exactly when a layer's scan stopped at it, and give back the whole region exactly otherwise. |
| `Documents.OneMarkerKept` | Common/FileController.cs:146-155 | A region of a lone layer marker gives it back. |
| `Documents.TwoMarkersDropOne` | Common/FileController.cs:146-155 | A region of two layer markers gives back only the first. |
| `Documents.ThreeMarkersKept` | Common/FileController.cs:146-155 | A region of three layer markers gives all three back. |
| `Documents.SplitLayersShape` | Common/FileController.cs:146-155 | The first layer is non-empty and holds no marker after its first line. Every later layer starts with a marker and holds at least two lines. |
| `Documents.MarkerPositions` | Common/FileController.cs:146-155 | A marker can be a non-first line of a layer only as the second line of a later layer. |
| `Documents.PartsAreSlices` | Common/FileController.cs:129-141 | When a layer marker comes before the end marker, the intro, the region and the outro are the three consecutive slices at those positions. |
| `Documents.MarkerOrder` | Common/FileController.cs:132-134 | The first layer marker and the first end marker are never the same line. |
| `Documents.ParseRoundTrip` | Common/FileController.cs:129-168 | Take a file with a layer marker before its end marker. `Parse` after the constructor gives the file back, or the file without the layer marker directly before the end marker. |
| `Documents.ParseRoundTripCases` | Common/FileController.cs:129-168 | With a layer marker before the end marker: when a layer's scan stopped at the line before the end marker, that line is a layer marker and `Parse` gives the file without it; otherwise `Parse` gives the file back exactly. |
| `Documents.ParseRoundTripExact` | Common/FileController.cs:129-168 | When, in addition, the line before the end marker is not a layer marker, `Parse` gives the file back exactly. |
| `Documents.ParseDropsMarker` | Common/FileController.cs:146-168 | Suppose a layer marker sits directly before the end marker, after a line that is not a marker. `Parse` loses exactly that marker and differs from the input. |
| `Documents.ParseWithoutEndMarker` | Common/FileController.cs:134-166 | Without an end marker the outro is null, and `Parse` throws. |
| `Documents.ParseWithoutLayerMarker` | Common/FileController.cs:132-139 | Without a layer marker, the intro is empty and the only layer runs up to and including the end marker. `Parse` then repeats the end-marker line. |
| `Documents.ParseEndBeforeLayers` | Common/FileController.cs:132-139 | When the end marker comes before every layer marker, there are no layers. `Parse` gives the intro followed by the outro. |
| `Documents.CollectLayer` | Common/FileController.cs:148-151 | The `do`-`while` loop collects the lines up to the next layer marker, or to the end, and stops there. |
| `Documents.NextLayer` | Common/FileController.cs:148-152 | One turn of the enumerator loop builds a fresh layer from exactly the lines up to the next marker. |
| `Documents.BuildStep` | Common/FileController.cs:146-155 | After one more turn of the enumerator loop, the layers built so far plus those still to come are the whole split. Each layer is fresh, distinct and built from its own chunk of lines. |
| `Documents.BuildLayers` | Common/FileController.cs:142-155 | The enumerator loop builds fresh, distinct layers whose lines are the split of the region. Each layer's Z and height are read from its own lines. |
| `Documents.ParsedFile.constructor` | Common/FileController.cs:129-156 | The intro is `Take(firstLayer)`. The outro is `Skip(outroStart)`, or null without an end marker. The layers are fresh and distinct, and their lines are the split of the region between the markers. |
| `Documents.ParsedFile.Parse` | Common/FileController.cs:158-168 | Gives the intro, every layer's current lines and the outro, in order. It throws on a null outro. |
| `Tools.Connection` | Tools/Tools.cs:29-67 | An exception from either single-extrusion test gives the fault, and a layer that is not single extrusion gives false. Fewer than two 2D moves in `a` is an index fault. With absolute E, a second-to-last move without E is a missing-value fault. A connection is made only when its length lies in [0.0001, maxDistance]. |
| `Tools.Feed` | Tools/Tools.cs:36-46 | Definition: with relative E, the last segment's E per unit length, times the multiplier and the connection length. With absolute E, the previous E minus the last E, per unit length of the last segment, times the multiplier and the connection length, added to the last E. `Tools.ConnectionAppends` gives the appended move this feed. |
| `Tools.ConnectingMove` | Tools/Tools.cs:61-62 | Definition: the target's X, Y and Z, the feed as E, the last move's F, the fixed comment and line index -1. `Tools.ConnectingLineReads` proves its text reads back to those values. |
| `Tools.ConnectionDistanceGate` | Tools/Tools.cs:45-61 | Take two single-extrusion layers where `a` has the moves that the feed needs. The connection is made exactly when its length lies in [0.0001, maxDistance] and `a`'s last segment is non-zero. It is refused exactly when the length is out of range. |
| `Tools.ConnectionAppends` | Tools/Tools.cs:61-63 | The appended line reads back as one 2D move at layer `a`'s next index. It has the target's coordinates, the feed as E, the last move's speed and the connecting comment. `a` stays single extrusion. |
| `Tools.ConnectingLineReads` | Tools/Tools.cs:62-63 | The connecting move's text parses back to the target's X, Y and Z, the feed and the speed, each as re-read from its formatted text, with the comment kept. |
| `Tools.ExtrusionExtends` | Tools/Tools.cs:61-63 | An extruding move appended after a single-extrusion run keeps the run single. |
| `Tools.ConnectSingleExtrusionLayers` | Tools/Tools.cs:29-67 | Faults exactly as `Connection` does, leaving `a` unchanged. Returns whether the connection is made. When it is made, `a` gains exactly the connecting line at its end; otherwise `a` is unchanged. |
| `Tools.SuccessesBound` | Tools/Tools.cs:18-26 | The count of connections made never exceeds the number of pairs tried. |
| `Tools.ConnectAllOf` | Tools/Tools.cs:16-27 | The list overload keeps the number of layers, or faults. |
| `Tools.ConnectAllBound` | Tools/Tools.cs:16-27 | At most Count - 2 connections are made. The last pair is never tried. Each layer i < Count - 2 gains exactly the line its own pair's connection gives. |
| `Tools.ConnectAllSingleExtrusionLayers` | Tools/Tools.cs:16-27 | The method faults with the first exception of the pairs. Otherwise it returns the number of connections, and every layer ends as `ConnectAllOf` says. |
| `Tools.ConnectPairs` | Tools/Tools.cs:18-26 | The loop over the pairs ends as the tries say. It stops at the first fault, or it returns the count of connections with each layer's line appended. |
| `Tools.ConnectStep` | Tools/Tools.cs:21-24 | One turn extends the results so far by this pair's result and the count by one per connection. Only layer i changes. Otherwise the whole loop faults. |
| `Tools.ConnectPair` | Tools/Tools.cs:21-23 | Layer i is connected to layer i + 1 as its try says. |
| `Tools.EdgeDistance` | Tools/Tools.cs:117 | `Math.Min(i, count - (i + 1))`: no more than either distance to an end, and equal to one of them. |
| `Tools.Clamp` | Tools/Tools.cs:118 | `Math.Clamp(x, 0, 1)`: the result lies in [0, 1]. It is x inside [0, 1], 0 below it and 1 above it. |
| `Tools.Weight` | Tools/Tools.cs:117-118 | A layer's weight is NaN (none) exactly when the transition count is 0 and the layer is an end layer. Every other weight lies in [0, 1]. |
| `Tools.WeightSymmetric` | Tools/Tools.cs:117-118 | A layer and its mirror image in the group get the same weight. |
| `Tools.WeightRamp` | Tools/Tools.cs:117-118 | Both end layers get weight 0. With a positive transition count, a layer at least that far from both ends gets weight 1. |
| `Tools.VaseLines` | Tools/Tools.cs:127-150 | An exception from collecting the moves gives the fault, and no 2D move at all is an index fault. A move without Z after the first one, with a NaN weight or a zero path length, is a non-finite fault. Otherwise the layer keeps its number of lines. |
| `Tools.Progress` | Tools/Tools.cs:142-145 | Definition: the path length up to a move over the total length. `Tools.ProgressRamp` bounds it and proves it non-decreasing. |
| `Tools.Retarget` | Tools/Tools.cs:138-149 | The lines after the loop of `VaseLayer` handled moves 1..n keep their count. `Tools.RetargetLines` says which lines change and how. |
| `Tools.RetargetLines` | Tools/Tools.cs:138-149 | After the loop, each move after the first that lacks Z has its line rewritten with the ramp's Z. Every other line is kept. |
| `Tools.VaseLayerRewrites` | Tools/Tools.cs:127-150 | `VaseLayer` rewrites exactly the lines of the 2D moves after the first that lack Z. Each such line gets Z = LayerZ + LayerHeight × weight × progress, and every other line is unchanged. |
| `Tools.VaseLinesRamp` | Tools/Tools.cs:127-150 | When no ramp that must be computed is undefined, `VaseLayer` succeeds with the lines its loop leaves. |
| `Tools.ProgressRamp` | Tools/Tools.cs:137-146 | The progress never decreases along the moves, stays within [0, 1], and is 1 at the last move. |
| `Tools.VaseLayer` | Tools/Tools.cs:127-150 | The method faults as `VaseLines` says and then leaves the layer's lines unchanged, as the source does by throwing before its first `Update`. Otherwise it leaves the layer with exactly the lines `VaseLines` gives. |
| `Tools.RampMoves` | Tools/Tools.cs:137-149 | The loop faults (non-finite) exactly when a move without Z needs an undefined ramp. A fault leaves the lines unchanged, since it comes at the first move without Z. Otherwise the loop leaves the retargeted lines. |
| `Tools.RampTurn` | Tools/Tools.cs:140-148 | One turn adds the next segment's length to the distance walked. A next move without Z faults (non-finite) exactly when its ramp is undefined, and is otherwise rewritten, as the retargeted lines one step further say. A fault, or a turn where the ramp is undefined, leaves the lines unchanged. |
| `Tools.RampMove` | Tools/Tools.cs:143-148 | One rewrite gives move n the ramp's Z at its progress, as the retargeted lines say. |
| `Tools.VaseGroup` | Tools/Tools.cs:111-125 | Definition of `VaseLayersInternal` on a group: every layer's new lines, or the first fault. `Tools.VaseLayersInternal` computes it and `Tools.VaseTriesAt` gives each layer's try. |
| `Tools.VaseTriesAt` | Tools/Tools.cs:115-119 | Try i of `VaseLayersInternal` vases layer i with that layer's own weight. |
| `Tools.VaseLayersInternal` | Tools/Tools.cs:111-125 | The method faults with the first layer's exception. Otherwise every layer of the group gets the lines `VaseLayer` gives it with its own weight. |
| `Tools.VaseEach` | Tools/Tools.cs:115-124 | The loop ends as the tries of the group say. |
| `Tools.VaseStep` | Tools/Tools.cs:116-119 | One turn extends the new lines so far by layer i's and changes only layer i. Otherwise the whole loop faults. |
| `Tools.VaseOne` | Tools/Tools.cs:119 | Layer i is vased as its try says. |
| `Tools.Step` | Tools/Tools.cs:82-106 | A turn moves the start on exactly when the start layer is not single extrusion. It grows the end past its old value, or vases a group longer than 2 × transition + 1 that starts at a single-extrusion layer, or changes at most the end. |
| `Tools.VaseGroupsShape` | Tools/Tools.cs:80-107 | Every group vased starts at a single-extrusion layer, ends inside the list, spans more than 2 × transition further layers, and lies wholly before the next group. |
| `Tools.GroupSizesWithin` | Tools/Tools.cs:100-105 | Ordered, disjoint groups inside a range hold together at most as many layers as the range. |
| `Tools.VaseFrom` | Tools/Tools.cs:78-107 | The `VaseLayers` loop from a given start and end: when it ends normally it keeps the number of layers. `Tools.VaseGroupsShape` describes the groups it vases. |
| `Tools.VaseAll` | Tools/Tools.cs:78-108 | The loop over all layers keeps the number of layers when it ends normally. `Tools.VaseAllBound` bounds its total. |
| `Tools.VaseLayersOf` | Tools/Tools.cs:69-109 | `VaseLayers`, connecting first when asked, keeps the number of layers when it ends normally. `Tools.VaseCountBound` and `Tools.ConnectGate` state its count. |
| `Tools.VaseAllBound` | Tools/Tools.cs:78-108 | For any transition count, the loop's total lies between 0 and the number of layers. |
| `Tools.VaseCountBound` | Tools/Tools.cs:69-108 | The count `VaseLayers` returns lies between 0 and the number of layers, with or without connecting first. |
| `Tools.ConnectGate` | Tools/Tools.cs:72-77 | With `connect`, fewer than 2 × transition connections make `VaseLayers` return 0. The connecting lines stay appended. |
| `Tools.ShortRunHangs` | Tools/Tools.cs:88-106 | Take a single-extrusion start with the end at or after it, whose run ends within 2 × transition layers, at the list's end or at a layer that is not single extrusion. That turn changes no loop variable, so the loop hangs. |
| `Tools.LastLayerEndsLoop` | Tools/Tools.cs:80-106 | A single-extrusion last layer reached as the start with the end behind it sets the end to the layer count. With a transition count of at least 1 the loop then ends with nothing more vased. Below 1 the group is processed and the log line reads past the end of the list. |
| `Tools.TwoLayersNoHang` | Tools/Tools.cs:80-108 | Example with flags false, true and transition 4. The loop ends, and `VaseLayers` returns 0 with the layers unchanged. |
| `Tools.GroupEndUnchecked` | Tools/Tools.cs:88-95 | When the start moves ahead of the end, the turn does not depend on the test of the next layer. That layer joins the group untested. |
| `Tools.NonSingleLayerVased` | Tools/Tools.cs:80-106 | Example with flags false, true, false, true, true and transition 1. The loop vases layers 1..4, including layer 2, which is not single extrusion, and counts 4. |
| `Tools.VaseFromMove` | Tools/Tools.cs:82-95 | A turn that moves the start or the end on continues the loop from the new position. |
| `Tools.VaseFromStops` | Tools/Tools.cs:82-102 | A turn that faults or hangs ends the loop with that fault. |
| `Tools.VaseFromProcess` | Tools/Tools.cs:97-106 | A turn that vases a group resumes after the group, with that group's new lines. |
| `Tools.NextTurn` | Tools/Tools.cs:82-106 | The tests one turn makes on layers it has not changed decide the turn as `Step` says. |
| `Tools.VaseSlice` | Tools/Tools.cs:100-102 | Vasing `Skip(start).Take(count)` gives that slice its new lines and leaves every other layer unchanged, or faults. |
| `Tools.VaseProcess` | Tools/Tools.cs:97-106 | Vasing a found group either faults as the loop's function says, or relines that group, leaves the later layers untouched, adds its size to the total and lets the loop's function resume after it. |
| `Tools.VaseGroups` | Tools/Tools.cs:78-108 | The run-finding loop returns the total size of the groups vased and leaves the layers as the loop's function says. It faults or hangs where the source throws or spins. |
| `Tools.VaseLayers` | Tools/Tools.cs:69-109 | The method connects the layers first when asked and returns 0 for too few connections. Otherwise it vases the runs. The count and every layer's final lines are those of the whole operation's function. |

## Left out

- `FileController` and `ConsoleFileDumper`: file and console I/O. A file is a sequence of lines given to the constructor of `ParsedFile`.
- Console output: the `VERBOSE` log lines of the tools and the "Found layers to vase" message. The one effect of that message kept in the model is that it reads `layers[groupEnd]`, which can be past the end.
- `ParsedFile.GetLayerInfo` and `Layer.GetInfo`: they only format text for the log.
- `CommandSelector`: the class is empty.
- `MoveCommand.CreateVector3`: unused by the core, and only `Can3D` is modelled.
- `AlignLayer` and `AlignExtrusion`, and the `align` flag of `VaseLayers` and `VaseLayersInternal`. They are float vector geometry that the source leaves unfinished (its offset for the last move is a TODO). The model runs the tools as with `align` false.
- `ParserHelpers.Append` and the calls to `float.TryParse` and `Vector2.Length`: library code, modelled as the opaque `format`, `parse` and `sqrt` fields of `Numerics`. Their only assumed properties are the ones `FormatReadable` and `SqrtNonNegative` state.
- Single-precision floats are modelled as exact reals. Rounding is not modelled.
- Tools.Connection: treats a zero-length last segment as a `NonFinite` fault. The source writes a NaN or infinite E into the file instead.
- Tools.VaseLines: treats a NaN weight or a zero path length as a `NonFinite` fault. The source writes a NaN or infinite Z into the file instead.
- `StartsWith(string)` is the culture-sensitive comparison in .NET. The model uses the ordinal prefix test.
- `int` overflow of `transitionLayerCount * 2` and of the counters is not modelled. Integers are unbounded.
- Tools.VaseLayersInternal: leaves the layers' lines unspecified after a fault. The same holds for Tools.VaseGroups, Tools.VaseLayers, Tools.ConnectAllSingleExtrusionLayers and Tools.ConnectPairs.
- Tools.VaseLayers: requires the layers to be distinct objects, which `ParsedFile` guarantees. The same holds for the other methods over a list of layers. A list that holds one layer twice is not modelled.
- Tools.VaseGroups: a turn the source repeats forever ends the model's loop with `Fail(Hangs)`.
- Moves are values. The source mutates a parsed `MoveCommand`'s Z before passing it to `Update`; the model passes an updated copy. Later turns read only that object's X and Y, which the update does not change.
