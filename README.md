# Pinned rows and chart cross lines

This project models two independent pieces of the ag-Grid / ag-Charts code base in Dafny and proves properties of them.

**Pinned-row bookkeeping** (`PinnedRows`, file `pinned_row_model.dfy`). The grid keeps two lists of row nodes, one pinned to the top and one to the bottom. Each list is rebuilt wholesale from raw row data. Node *i* gets:

- data item *i*;
- the id `"t-" + i` or `"b-" + i`;
- the side name `"top"` or `"bottom"`;
- a `rowTop` equal to the sum of the earlier rows' heights;
- its height from the grid's row-height callback;
- `rowIndex` *i*.

The model covers the pixel-to-row search, total heights, emptiness tests, counts, indexed reads and iteration. The class `PinnedRowModel` keeps the two lists as fields. The setters overwrite one list and leave the other alone.

**Cross lines** (`CrossLines`, file `cross_line.dfy`, with the scene primitives in `scene.dfy`). A cross line is a marker across a chart's plot area, drawn at one axis value (kind `line`) or between two values (kind `range`).

- `update` computes four corner points in the axis' local frame:
  - x runs from `0` to `-sideFlag * gridLength`;
  - y is the scale's conversion of each value plus half the band width.
- The line path gets two separate strokes, along the two value edges.
- For the range kind, the range path also gets the closed rectangle.
- Hiding only clears the group's visibility flag.
- Without a kind, nothing happens.

`Numerals` (file `numerals.dfy`) renders a row index in decimal, as JavaScript does for `prefix + index`. `Wrappers` (file `wrappers.dfy`) gives the optional values that stand for `undefined`.

Three facts of the cross-line code shape the model:

- The range ends are used in the order given (crossLine.ts:108). `SwappedRangeReversesCorners` states what that gives: swapping the ends produces the same four corners in reverse order.
- The far edge is `xEnd = -sideFlag * gridLength` (crossLine.ts:107).
- `CrossLineLabel` is declared, but nothing reads it, so there is no label placement to model.

## Model

| member | source | states |
|---|---|---|
| `PinnedRows.CreateNodesFromData` | community-modules/core/src/ts/pinnedRowModel/pinnedRowModel.ts:74-94 | The result has one node per data item, and none when the data is undefined or empty. Node i carries data item i, id `prefix + i`, the side name (top values when `isTop`, else bottom), `rowTop` = the sum of the callback heights of items 0..i-1, the callback height of item i, and `rowIndex` = i. |
| `PinnedRows.HeightSumMatchesData` | community-modules/core/src/ts/pinnedRowModel/pinnedRowModel.ts:86-89 | Rows whose heights match the data items one by one have the same total height as the data items. |
| `PinnedRows.BuiltIsLaid` | community-modules/core/src/ts/pinnedRowModel/pinnedRowModel.ts:77-89 | A built list is stacked: `rowTop[i]` is the sum of the heights of rows 0..i-1, so `rowTop[0] = 0` and `rowTop[i+1] = rowTop[i] + rowHeight[i]`. Each row also carries its own index, its side and its id. The list's height sum equals the sum of the data heights. |
| `PinnedRows.BuiltFromUnique` | community-modules/core/src/ts/pinnedRowModel/pinnedRowModel.ts:74-94 | A sanity check on `CreateNodesFromData`'s contract: it fixes the result completely, so two lists built from the same data, side and height callback are equal. Building is deterministic. |
| `PinnedRows.PinnedRowIdInjective` | community-modules/core/src/ts/pinnedRowModel/pinnedRowModel.ts:82-83 | Two ids `prefix + index` are equal only when they have the same side and the same index. |
| `PinnedRows.LaidIdsDistinct` | community-modules/core/src/ts/pinnedRowModel/pinnedRowModel.ts:82-83 | Within one pinned list, no two rows share an id. |
| `PinnedRows.TopAndBottomIdsDisjoint` | community-modules/core/src/ts/pinnedRowModel/pinnedRowModel.ts:82-83 | No top-pinned row has the id of a bottom-pinned row. |
| `PinnedRows.HeightSumPrefix` | community-modules/core/src/ts/pinnedRowModel/pinnedRowModel.ts:142-147 | The first k rows of a list are never taller than the whole list. |
| `PinnedRows.RowBottomEdge` | community-modules/core/src/ts/pinnedRowModel/pinnedRowModel.ts:44 | In a stacked list, row j ends where the first j+1 rows end, and no later than the total height. |
| `PinnedRows.TotalHeight` | community-modules/core/src/ts/pinnedRowModel/pinnedRowModel.ts:142-147 | 0 for an unset list. For a stacked list, the last row's bottom edge, which is the sum of all row heights (0 when the list is empty). |
| `PinnedRows.ForEachRow` | community-modules/core/src/ts/pinnedRowModel/pinnedRowModel.ts:124-136 | The callback runs once per row, in index order, with the row and its index. It does not run when the list is unset or empty. |
| `PinnedRows.RowAtPixelLocates` | community-modules/core/src/ts/pinnedRowModel/pinnedRowModel.ts:37-52 | Take r as the first row whose last pixel reaches `pixel`, or the last row. In a stacked list, r contains every pixel in `[0, total)`. A negative pixel gives row 0, and a pixel at or past the total height (pixel >= total) gives the last row. |
| `PinnedRows.PinnedRowModel.constructor` | community-modules/core/src/ts/pinnedRowModel/pinnedRowModel.ts:19-20 | Both lists start unset. |
| `PinnedRows.PinnedRowModel.Init` | community-modules/core/src/ts/pinnedRowModel/pinnedRowModel.ts:22-26 | Afterwards, each list is the one built from its configured data. |
| `PinnedRows.PinnedRowModel.SetPinnedTopRowData` | community-modules/core/src/ts/pinnedRowModel/pinnedRowModel.ts:54-55 | The top list becomes the list built from the data. Its count is the number of data items and its total height is their summed height. The bottom list is unchanged. |
| `PinnedRows.PinnedRowModel.SetPinnedBottomRowData` | community-modules/core/src/ts/pinnedRowModel/pinnedRowModel.ts:64-65 | The bottom list becomes the list built from the data, with the count and height of the data. The top list is unchanged. |
| `PinnedRows.PinnedRowModel.GetPinnedTopRowCount` | community-modules/core/src/ts/pinnedRowModel/pinnedRowModel.ts:108-110 | The length of the top list, or 0 when it is unset. |
| `PinnedRows.PinnedRowModel.GetPinnedBottomRowCount` | community-modules/core/src/ts/pinnedRowModel/pinnedRowModel.ts:112-114 | The length of the bottom list, or 0 when it is unset. |
| `PinnedRows.PinnedRowModel.SelectRows` | community-modules/core/src/ts/pinnedRowModel/pinnedRowModel.ts:29 | The string `"top"` selects the top list. Every other string, including `"bottom"` and unknown names, selects the bottom list. |
| `PinnedRows.PinnedRowModel.IsEmpty` | community-modules/core/src/ts/pinnedRowModel/pinnedRowModel.ts:28-31 | True exactly when the row count of the named list is 0. `"top"` names the top list, and any other string names the bottom list. |
| `PinnedRows.PinnedRowModel.IsRowsToRender` | community-modules/core/src/ts/pinnedRowModel/pinnedRowModel.ts:33-35 | The negation of `IsEmpty`: true exactly when the named list has at least one row. |
| `PinnedRows.PinnedRowModel.GetPinnedTopTotalHeight` | community-modules/core/src/ts/pinnedRowModel/pinnedRowModel.ts:104-106 | The sum of the top rows' heights. |
| `PinnedRows.PinnedRowModel.GetPinnedBottomTotalHeight` | community-modules/core/src/ts/pinnedRowModel/pinnedRowModel.ts:138-140 | The sum of the bottom rows' heights. |
| `PinnedRows.PinnedRowModel.GetPinnedTopRow` | community-modules/core/src/ts/pinnedRowModel/pinnedRowModel.ts:116-118 | Returns a row exactly when the index is in range. That row is the one at the index, its `rowIndex` is the index and it is pinned to the top. |
| `PinnedRows.PinnedRowModel.GetPinnedBottomRow` | community-modules/core/src/ts/pinnedRowModel/pinnedRowModel.ts:120-122 | Returns a row exactly when the index is in range. That row is the one at the index, its `rowIndex` is the index and it is pinned to the bottom. |
| `PinnedRows.PinnedRowModel.GetRowAtPixel` | community-modules/core/src/ts/pinnedRowModel/pinnedRowModel.ts:37-52 | Returns 0 for an unset or empty list. Otherwise it returns the smallest i with `rowTop + rowHeight - 1 >= pixel`, or `length - 1` when no row qualifies, so the result is always in `[0, length-1]`. In a stacked list, that is the row containing the pixel, clamped at both ends. |
| `PinnedRows.PinnedRowModel.ForEachPinnedTopRow` | community-modules/core/src/ts/pinnedRowModel/pinnedRowModel.ts:124-129 | One callback per top row, in index order; none when the list is unset or empty. |
| `PinnedRows.PinnedRowModel.ForEachPinnedBottomRow` | community-modules/core/src/ts/pinnedRowModel/pinnedRowModel.ts:131-136 | One callback per bottom row, in index order; none when the list is unset or empty. |
| `Numerals.Decimal` | community-modules/core/src/ts/pinnedRowModel/pinnedRowModel.ts:83 | The decimal form of the index in an id is non-empty, all digits, and has no leading zero. It is one character long exactly when the index is below 10. Its digits denote the index (`DecimalRoundTrip`). |
| `Numerals.DecimalInjective` | community-modules/core/src/ts/pinnedRowModel/pinnedRowModel.ts:83 | Different indexes have different decimal forms. |
| `Numerals.DecimalRoundTrip` | community-modules/core/src/ts/pinnedRowModel/pinnedRowModel.ts:83 | Read as a decimal number, digit by digit from the left, the numeral of `n` denotes `n`. So the id suffix is the index itself, as JavaScript's `idPrefix + index` renders it. |
| `Scene.Path.constructor` | charts-packages/ag-charts-community/src/chart/crossLine.ts:61-62 | A new path has no commands. |
| `Scene.Path.Clear` | charts-packages/ag-charts-community/src/chart/crossLine.ts:137 | Clearing leaves no commands. |
| `Scene.Path.MoveTo` | charts-packages/ag-charts-community/src/chart/crossLine.ts:140 | Appends one move command, and nothing else changes. |
| `Scene.Path.LineTo` | charts-packages/ag-charts-community/src/chart/crossLine.ts:169 | Appends one line command, and nothing else changes. |
| `Scene.Path.ClosePath` | charts-packages/ag-charts-community/src/chart/crossLine.ts:142 | Appends one close command. |
| `Scene.Group.constructor` | charts-packages/ag-charts-community/src/chart/crossLine.ts:60 | A new group has no children. |
| `Scene.Group.Append` | charts-packages/ag-charts-community/src/chart/crossLine.ts:68 | Adds the nodes after the existing children, in the given order. |
| `CrossLines.NodePoints` | charts-packages/ag-charts-community/src/chart/crossLine.ts:102-128 | There are exactly four points: `(xStart, yStart)`, `(xEnd, yStart)`, `(xEnd, yEnd)`, `(xStart, yEnd)`. Here `xStart = 0` and `xEnd = -sideFlag * gridLength`. |
| `CrossLines.NodePointsValueEdges` | charts-packages/ag-charts-community/src/chart/crossLine.ts:102-109 | Each y is `scale.convert(v) + bw/2`, with bw the band width or 0 when there is none. With a range, v is `range[0]` then `range[1]`, in the order given. Otherwise v is `value` then `undefined`. |
| `CrossLines.SwappedRangeReversesCorners` | charts-packages/ag-charts-community/src/chart/crossLine.ts:108-128 | The range is not sorted. Swapping its ends gives the same corners in reverse order, so the multiset of corners is the same. |
| `CrossLines.PolylineCommands` | charts-packages/ag-charts-community/src/chart/crossLine.ts:167-170 | One command per point: a move to the first point and a line to each later point. |
| `CrossLines.LinePathCommands` | charts-packages/ag-charts-community/src/chart/crossLine.ts:133-142 | Five commands: for each of the four points in turn, alternately a move (points 0 and 2) and a line (points 1 and 3), then a close. The line path is therefore two separate strokes. |
| `CrossLines.RangePathCommands` | charts-packages/ag-charts-community/src/chart/crossLine.ts:166-171 | One command per point, then a close: a move to the first point, a line to each later point, and the final command closes the polygon. |
| `CrossLines.LinePathStrokesValueEdges` | charts-packages/ag-charts-community/src/chart/crossLine.ts:133-142 | For the computed points, the line path is `MoveTo p0, LineTo p1, MoveTo p2, LineTo p3, Close`. These are two strokes: along the start edge outwards from the axis, and along the end edge back to it. |
| `CrossLines.RangePathTracesRectangle` | charts-packages/ag-charts-community/src/chart/crossLine.ts:161-171 | For the computed points, the range path is `MoveTo p0, LineTo p1, LineTo p2, LineTo p3, Close`. |
| `CrossLines.CrossLine.constructor` | charts-packages/ag-charts-community/src/chart/crossLine.ts:45-74 | All options start unset, with grid length 0 and side -1. The group holds the range path beneath the line path, and the line path has no fill. |
| `CrossLines.CrossLine.Update` | charts-packages/ag-charts-community/src/chart/crossLine.ts:76-85 | With no kind, nothing changes, not even the group's visibility. Otherwise the group's visibility becomes `visible`. When hiding, `pathData` and both paths are untouched. When showing, `pathData` is recomputed (kept when there is no scale), so afterwards it already equals what a further recomputation would give. The line path is redrawn; the range path is redrawn only for the range kind. |
| `CrossLines.CrossLine.UpdateIsIdempotent` | charts-packages/ag-charts-community/src/chart/crossLine.ts:76-95 | Two calls to `update(true)` with the same configuration leave the same points, commands, styles and visibility. |
| `CrossLines.CrossLine.UpdatePaths` | charts-packages/ag-charts-community/src/chart/crossLine.ts:87-95 | The line path and its styles are always redrawn. The range path and its styles are redrawn for the range kind and untouched otherwise. |
| `CrossLines.CrossLine.CreateNodeData` | charts-packages/ag-charts-community/src/chart/crossLine.ts:97-129 | With a scale, `pathData` becomes the four computed points. Without a scale, `pathData` is unchanged. |
| `CrossLines.CrossLine.UpdateLinePath` | charts-packages/ag-charts-community/src/chart/crossLine.ts:131-144 | Given four points, the line path is cleared and then holds exactly `MoveTo p0, LineTo p1, MoveTo p2, LineTo p3, Close`. |
| `CrossLines.CrossLine.UpdateLineNode` | charts-packages/ag-charts-community/src/chart/crossLine.ts:146-152 | The line path takes the stroke, the stroke width (default 1) and the stroke opacity (default 1). |
| `CrossLines.CrossLine.UpdateRangeNode` | charts-packages/ag-charts-community/src/chart/crossLine.ts:154-159 | The range path takes the fill and the fill opacity (default 1). |
| `CrossLines.CrossLine.UpdateRangePath` | charts-packages/ag-charts-community/src/chart/crossLine.ts:161-173 | The range path is cleared, then holds a move to the first point, a line to each later point, and a close. With no points it holds just the close. |

## Left out

- Event dispatch after setting pinned data (`PinnedRowDataChangedEvent`), and the dependency-injection decorators and autowired beans. These are framework plumbing.
- `RowNode` internals: its setters' own events, and its other fields. A row node is a record of the six fields this code sets.
- Row heights: the row-height callback is an input function of a row's data only (`D -> nat`). The grid's callback may also look at the partly built node.
- `rowNode.ts` and `constants.ts` are not part of this model. The constants `"t-"`, `"b-"`, `"top"` and `"bottom"` are their values in ag-Grid.
- Pixels and heights are integers. The source uses JavaScript numbers, so fractional pixels are not modelled.
- `getPinnedTopRowData` / `getPinnedBottomRowData` only return the list fields. The model reads `pinnedTopRows` / `pinnedBottomRows` directly.
- `PinnedRows.PinnedRowModel.GetPinnedTopRow` / `GetPinnedBottomRow` require the list to be set. In the source, indexing an unset list throws.
- Callbacks of `forEachPinned*Row`: a callback's side effects are represented by the sequence of values it returns, one per call.
- `CrossLines.CrossLine.Update` requires points to exist when a kind is set, the marker is being shown and there is no scale. In the source, `updateLinePath` would then read `points[0]` of an empty array and throw.
- Scene-graph rendering: `checkPathDirty`, pointer events, the group's name, layer and z-index, default node visibility, and dirty tracking in `clear`. Only the path commands, the style fields the cross line sets and the group's visibility and children are kept.
- `lineDash`, `CrossLineLabel` and `CrossLineStyle`: these are presentational fields, and nothing is computed from them. There is no label placement logic in the code to model.
- `Scale` internals: `convert` is an arbitrary function to reals, and `bandwidth` is an optional real.
- Floating point: coordinates are reals. `NaN` is not modelled, so `convert(undefined)` is just some real here; in JavaScript it is `NaN`, which makes the second stroke of a single-value line invisible. `scale.bandwidth || 0` is modelled as "the band width, or 0 when absent"; it differs from `??` only for `NaN`.
- The cross line's `id` and `className`.
