/**
 * The grid's pinned-row bookkeeping: two lists of row nodes, pinned to the
 * top and to the bottom of the grid. Each list is rebuilt wholesale from raw
 * row data; within a list every row sits directly below the previous one, so
 * a row's `rowTop` is the sum of the heights of the rows before it.
 */
module PinnedRows {
  import opened Wrappers
  import opened Numerals

  /** The values of `Constants.PINNED_TOP` and `Constants.PINNED_BOTTOM`. */
  const PINNED_TOP: string := "top"
  const PINNED_BOTTOM: string := "bottom"

  /** The values of `RowNode.ID_PREFIX_TOP_PINNED` and `RowNode.ID_PREFIX_BOTTOM_PINNED`. */
  const ID_PREFIX_TOP_PINNED: string := "t-"
  const ID_PREFIX_BOTTOM_PINNED: string := "b-"

  /** The fields of a row node that the pinned-row model sets. */
  datatype RowNode<D> = RowNode(
    data: D,
    id: string,
    rowPinned: string,
    rowTop: nat,
    rowHeight: nat,
    rowIndex: nat)

  /** A list that may be unset (`undefined`), read as empty where the source does. */
  function OrEmpty<T>(list: Option<seq<T>>): seq<T> {
    if list.Some? then list.value else []
  }

  function PinnedName(isTop: bool): string {
    if isTop then PINNED_TOP else PINNED_BOTTOM
  }

  function IdPrefix(isTop: bool): string {
    if isTop then ID_PREFIX_TOP_PINNED else ID_PREFIX_BOTTOM_PINNED
  }

  /** The id given to the pinned row at `index`: prefix followed by the index in decimal. */
  function PinnedRowId(isTop: bool, index: nat): string {
    IdPrefix(isTop) + Decimal(index)
  }

  /** Sum of the heights of the given rows. */
  function HeightSum<D>(rows: seq<RowNode<D>>): nat {
    if rows == [] then 0 else HeightSum(rows[..|rows| - 1]) + rows[|rows| - 1].rowHeight
  }

  /** Sum of the heights the height callback gives the given data items. */
  function DataHeightSum<D>(data: seq<D>, heightOf: D -> nat): nat {
    if data == [] then 0 else DataHeightSum(data[..|data| - 1], heightOf) + heightOf(data[|data| - 1])
  }

  /** Pixel row of the last pixel of a row (its bottom edge minus one). */
  function BottomPixel<D>(row: RowNode<D>): int {
    row.rowTop + row.rowHeight - 1
  }

  /** Every row starts where the rows above it end. */
  ghost predicate Stacked<D>(rows: seq<RowNode<D>>) {
    forall i :: 0 <= i < |rows| ==> rows[i].rowTop == HeightSum(rows[..i])
  }

  /** The shape every pinned list has: stacked, indexed, labelled with its side and its id. */
  ghost predicate Laid<D>(rows: seq<RowNode<D>>, isTop: bool) {
    && Stacked(rows)
    && forall i :: 0 <= i < |rows| ==>
         && rows[i].rowIndex == i
         && rows[i].rowPinned == PinnedName(isTop)
         && rows[i].id == PinnedRowId(isTop, i)
  }

  /** `rows` is exactly what the model builds from `allData` for the given side. */
  ghost predicate BuiltFrom<D>(rows: seq<RowNode<D>>, allData: Option<seq<D>>, isTop: bool, heightOf: D -> nat) {
    var data := OrEmpty(allData);
    && |rows| == |data|
    && forall i :: 0 <= i < |rows| ==> rows[i] == BuiltNode(data, i, isTop, heightOf)
  }

  /** The node built for data item `i`: the rows above it are the nodes of the items before it. */
  function BuiltNode<D>(data: seq<D>, i: nat, isTop: bool, heightOf: D -> nat): RowNode<D>
    requires i < |data|
  {
    RowNode(data[i], PinnedRowId(isTop, i), PinnedName(isTop), DataHeightSum(data[..i], heightOf), heightOf(data[i]), i)
  }

  /**
   * Builds one pinned list from raw data: node i carries data item i, the id
   * `prefix + i`, the side's name, a top edge equal to the running total of
   * the earlier heights, its height and index i. Unset data gives an empty list.
   */
  method CreateNodesFromData<D>(allData: Option<seq<D>>, isTop: bool, heightOf: D -> nat)
    returns (rowNodes: seq<RowNode<D>>)
    ensures BuiltFrom(rowNodes, allData, isTop, heightOf)
    ensures |rowNodes| == |OrEmpty(allData)|
  {
    rowNodes := [];
    if allData.Some? {
      var data := allData.value;
      var nextRowTop: nat := 0;
      var index := 0;
      while index < |data|
        invariant 0 <= index <= |data|
        invariant |rowNodes| == index
        invariant nextRowTop == DataHeightSum(data[..index], heightOf)
        invariant forall i :: 0 <= i < index ==> rowNodes[i] == BuiltNode(data, i, isTop, heightOf)
      {
        var idPrefix := IdPrefix(isTop);
        var rowNode := RowNode(data[index], idPrefix + Decimal(index), PinnedName(isTop),
                               nextRowTop, heightOf(data[index]), index);
        assert rowNode == BuiltNode(data, index, isTop, heightOf);
        assert data[..index + 1][..index] == data[..index];
        nextRowTop := nextRowTop + rowNode.rowHeight;
        rowNodes := rowNodes + [rowNode];
        index := index + 1;
      }
    }
  }

  /** Rows whose heights are, one by one, the heights of the data items sum to the same total. */
  lemma {:induction false} HeightSumMatchesData<D>(rows: seq<RowNode<D>>, data: seq<D>, heightOf: D -> nat)
    requires |rows| == |data|
    requires forall i :: 0 <= i < |rows| ==> rows[i].rowHeight == heightOf(data[i])
    ensures HeightSum(rows) == DataHeightSum(data, heightOf)
    decreases |rows|
  {
    if rows != [] {
      HeightSumMatchesData(rows[..|rows| - 1], data[..|data| - 1], heightOf);
    }
  }

  /**
   * A built list has the pinned-list shape, and its total height is the sum
   * of the heights of the data items.
   */
  lemma BuiltIsLaid<D>(rows: seq<RowNode<D>>, allData: Option<seq<D>>, isTop: bool, heightOf: D -> nat)
    requires BuiltFrom(rows, allData, isTop, heightOf)
    ensures Laid(rows, isTop)
    ensures HeightSum(rows) == DataHeightSum(OrEmpty(allData), heightOf)
  {
    var data := OrEmpty(allData);
    forall i | 0 <= i <= |rows|
      ensures HeightSum(rows[..i]) == DataHeightSum(data[..i], heightOf)
    {
      HeightSumMatchesData(rows[..i], data[..i], heightOf);
    }
    assert rows[..|rows|] == rows;
    assert data[..|rows|] == data;
  }

  /** A sanity check: the contract of `CreateNodesFromData` fixes its result, so building is deterministic. */
  lemma BuiltFromUnique<D>(a: seq<RowNode<D>>, b: seq<RowNode<D>>, allData: Option<seq<D>>, isTop: bool,
                           heightOf: D -> nat)
    requires BuiltFrom(a, allData, isTop, heightOf) && BuiltFrom(b, allData, isTop, heightOf)
    ensures a == b
  {
  }

  /** Pinned-row ids never repeat, within a side or across the two sides. */
  lemma PinnedRowIdInjective(isTop: bool, i: nat, isTop': bool, j: nat)
    requires PinnedRowId(isTop, i) == PinnedRowId(isTop', j)
    ensures isTop == isTop' && i == j
  {
    var s, s' := PinnedRowId(isTop, i), PinnedRowId(isTop', j);
    assert s[0] == (if isTop then 't' else 'b');
    assert s'[0] == (if isTop' then 't' else 'b');
    assert Decimal(i) == s[2..];
    assert Decimal(j) == s'[2..];
    DecimalInjective(i, j);
  }

  /** The rows of one pinned list have pairwise distinct ids. */
  lemma LaidIdsDistinct<D>(rows: seq<RowNode<D>>, isTop: bool)
    requires Laid(rows, isTop)
    ensures forall i, j :: 0 <= i < j < |rows| ==> rows[i].id != rows[j].id
  {
    forall i, j | 0 <= i < j < |rows|
      ensures rows[i].id != rows[j].id
    {
      if rows[i].id == rows[j].id {
        PinnedRowIdInjective(isTop, i, isTop, j);
      }
    }
  }

  /** No top-pinned row shares its id with a bottom-pinned row. */
  lemma TopAndBottomIdsDisjoint<D>(top: seq<RowNode<D>>, bottom: seq<RowNode<D>>)
    requires Laid(top, true) && Laid(bottom, false)
    ensures forall i, j :: 0 <= i < |top| && 0 <= j < |bottom| ==> top[i].id != bottom[j].id
  {
    forall i, j | 0 <= i < |top| && 0 <= j < |bottom|
      ensures top[i].id != bottom[j].id
    {
      if top[i].id == bottom[j].id {
        PinnedRowIdInjective(true, i, false, j);
      }
    }
  }

  /** A prefix of a list is never taller than the whole list. */
  lemma {:induction false} HeightSumPrefix<D>(rows: seq<RowNode<D>>, k: nat)
    requires k <= |rows|
    ensures HeightSum(rows[..k]) <= HeightSum(rows)
    decreases |rows|
  {
    if k < |rows| {
      var init := rows[..|rows| - 1];
      assert init[..k] == rows[..k];
      HeightSumPrefix(init, k);
    } else {
      assert rows[..k] == rows;
    }
  }

  /** In a stacked list, row j ends where the first j + 1 rows end, inside the total height. */
  lemma RowBottomEdge<D>(rows: seq<RowNode<D>>, j: nat)
    requires Stacked(rows) && j < |rows|
    ensures rows[j].rowTop + rows[j].rowHeight == HeightSum(rows[..j + 1])
    ensures rows[j].rowTop + rows[j].rowHeight <= HeightSum(rows)
  {
    assert rows[..j + 1][..j] == rows[..j];
    HeightSumPrefix(rows, j + 1);
  }

  /**
   * The height of a list (`getTotalHeight`): 0 when it is unset or empty,
   * otherwise the bottom edge of its last row. For a stacked list that is the
   * sum of all row heights.
   */
  function TotalHeight<D>(rowNodes: Option<seq<RowNode<D>>>): (r: nat)
    ensures rowNodes.None? || Stacked(rowNodes.value) ==> r == HeightSum(OrEmpty(rowNodes))
  {
    if rowNodes.None? || |rowNodes.value| == 0 then 0
    else
      var lastNode := rowNodes.value[|rowNodes.value| - 1];
      lastNode.rowTop + lastNode.rowHeight
  }

  /**
   * Calls `callback` on every row of a list in index order (`Array.forEach`
   * behind the `missingOrEmpty` guard), returning what each call produced.
   */
  method ForEachRow<D, T>(rows: Option<seq<RowNode<D>>>, callback: (RowNode<D>, nat) -> T)
    returns (visits: seq<T>)
    ensures |visits| == |OrEmpty(rows)|
    ensures forall i :: 0 <= i < |visits| ==> visits[i] == callback(OrEmpty(rows)[i], i)
  {
    visits := [];
    if rows.None? || |rows.value| == 0 {
      return;
    }
    var list := rows.value;
    var i := 0;
    while i < |list|
      invariant 0 <= i <= |list|
      invariant |visits| == i
      invariant forall k :: 0 <= k < i ==> visits[k] == callback(list[k], k)
    {
      visits := visits + [callback(list[i], i)];
      i := i + 1;
    }
  }

  /**
   * Facts about a row index chosen by the pixel search: `r` is the first row
   * whose last pixel reaches `pixel`, or the last row when none does.
   */
  lemma RowAtPixelLocates<D>(rows: seq<RowNode<D>>, r: nat, pixel: int)
    requires r < |rows|
    requires forall j :: 0 <= j < r ==> BottomPixel(rows[j]) < pixel
    requires BottomPixel(rows[r]) >= pixel || r == |rows| - 1
    ensures Stacked(rows) && 0 <= pixel < HeightSum(rows) ==>
              rows[r].rowTop <= pixel < rows[r].rowTop + rows[r].rowHeight
    ensures Stacked(rows) && pixel < 0 ==> r == 0
    ensures Stacked(rows) && pixel >= HeightSum(rows) ==> r == |rows| - 1
  {
    if Stacked(rows) {
      RowBottomEdge(rows, r);
      if r > 0 {
        RowBottomEdge(rows, r - 1);
        assert rows[r].rowTop == rows[r - 1].rowTop + rows[r - 1].rowHeight;
      }
      if pixel < 0 {
        assert BottomPixel(rows[0]) >= -1;
      }
      assert r == |rows| - 1 ==> rows[..r + 1] == rows;
    }
  }

  class PinnedRowModel<D> {
    /** The grid's row-height callback (`getRowHeightForNode`), on a row's data. */
    const rowHeightFor: D -> nat

    var pinnedTopRows: Option<seq<RowNode<D>>>
    var pinnedBottomRows: Option<seq<RowNode<D>>>

    ghost predicate Valid()
      reads this
    {
      && (pinnedTopRows.Some? ==> Laid(pinnedTopRows.value, true))
      && (pinnedBottomRows.Some? ==> Laid(pinnedBottomRows.value, false))
    }

    /** Both lists are unset until `Init` runs. */
    constructor (rowHeightFor: D -> nat)
      ensures Valid()
      ensures this.rowHeightFor == rowHeightFor
      ensures pinnedTopRows.None? && pinnedBottomRows.None?
    {
      this.rowHeightFor := rowHeightFor;
      pinnedTopRows := None;
      pinnedBottomRows := None;
    }

    /** Post-construction set-up: builds both lists from the configured data. */
    method Init(topData: Option<seq<D>>, bottomData: Option<seq<D>>)
      requires Valid()
      modifies this
      ensures Valid()
      ensures pinnedTopRows.Some? && BuiltFrom(pinnedTopRows.value, topData, true, rowHeightFor)
      ensures pinnedBottomRows.Some? && BuiltFrom(pinnedBottomRows.value, bottomData, false, rowHeightFor)
    {
      SetPinnedTopRowData(topData);
      SetPinnedBottomRowData(bottomData);
    }

    /** The list `floating` names: the top list for "top", the bottom list for any other value. */
    function SelectRows(floating: string): (r: Option<seq<RowNode<D>>>)
      reads this
      ensures floating == PINNED_TOP ==> r == pinnedTopRows
      ensures floating != PINNED_TOP ==> r == pinnedBottomRows
    {
      if floating == PINNED_TOP then pinnedTopRows else pinnedBottomRows
    }

    /** Replaces the top list with one built from `rowData`; the bottom list is untouched. */
    method SetPinnedTopRowData(rowData: Option<seq<D>>)
      requires Valid()
      modifies this`pinnedTopRows
      ensures Valid()
      ensures pinnedTopRows.Some? && BuiltFrom(pinnedTopRows.value, rowData, true, rowHeightFor)
      ensures GetPinnedTopRowCount() == |OrEmpty(rowData)|
      ensures GetPinnedTopTotalHeight() == DataHeightSum(OrEmpty(rowData), rowHeightFor)
      ensures pinnedBottomRows == old(pinnedBottomRows)
    {
      var rows := CreateNodesFromData(rowData, true, rowHeightFor);
      BuiltIsLaid(rows, rowData, true, rowHeightFor);
      pinnedTopRows := Some(rows);
    }

    /** Replaces the bottom list with one built from `rowData`; the top list is untouched. */
    method SetPinnedBottomRowData(rowData: Option<seq<D>>)
      requires Valid()
      modifies this`pinnedBottomRows
      ensures Valid()
      ensures pinnedBottomRows.Some? && BuiltFrom(pinnedBottomRows.value, rowData, false, rowHeightFor)
      ensures GetPinnedBottomRowCount() == |OrEmpty(rowData)|
      ensures GetPinnedBottomTotalHeight() == DataHeightSum(OrEmpty(rowData), rowHeightFor)
      ensures pinnedTopRows == old(pinnedTopRows)
    {
      var rows := CreateNodesFromData(rowData, false, rowHeightFor);
      BuiltIsLaid(rows, rowData, false, rowHeightFor);
      pinnedBottomRows := Some(rows);
    }

    function GetPinnedTopRowCount(): (n: nat)
      reads this
      ensures pinnedTopRows.None? ==> n == 0
      ensures pinnedTopRows.Some? ==> n == |pinnedTopRows.value|
    {
      if pinnedTopRows.Some? then |pinnedTopRows.value| else 0
    }

    function GetPinnedBottomRowCount(): (n: nat)
      reads this
      ensures pinnedBottomRows.None? ==> n == 0
      ensures pinnedBottomRows.Some? ==> n == |pinnedBottomRows.value|
    {
      if pinnedBottomRows.Some? then |pinnedBottomRows.value| else 0
    }

    /** Whether the list `floating` names has no rows: exactly when its row count is 0. */
    function IsEmpty(floating: string): (r: bool)
      reads this
      ensures r <==> (if floating == PINNED_TOP then GetPinnedTopRowCount() else GetPinnedBottomRowCount()) == 0
    {
      var rows := SelectRows(floating);
      rows.None? || |rows.value| == 0
    }

    /** There are rows to render exactly when the list is not empty. */
    function IsRowsToRender(floating: string): (r: bool)
      reads this
      ensures r == !IsEmpty(floating)
      ensures r <==> |OrEmpty(SelectRows(floating))| > 0
    {
      !IsEmpty(floating)
    }

    /** Total height of the top list: the sum of its row heights. */
    function GetPinnedTopTotalHeight(): (h: nat)
      reads this
      requires Valid()
      ensures h == HeightSum(OrEmpty(pinnedTopRows))
    {
      TotalHeight(pinnedTopRows)
    }

    /** Total height of the bottom list: the sum of its row heights. */
    function GetPinnedBottomTotalHeight(): (h: nat)
      reads this
      requires Valid()
      ensures h == HeightSum(OrEmpty(pinnedBottomRows))
    {
      TotalHeight(pinnedBottomRows)
    }

    /**
     * The top row at `index`, or nothing when `index` is out of range; the
     * row found has that index. Reading an unset list throws in the source.
     */
    function GetPinnedTopRow(index: int): (r: Option<RowNode<D>>)
      reads this
      requires pinnedTopRows.Some?
      ensures r.Some? <==> 0 <= index < |pinnedTopRows.value|
      ensures r.Some? ==> r.value == pinnedTopRows.value[index]
      ensures r.Some? && Valid() ==> r.value.rowIndex == index && r.value.rowPinned == PINNED_TOP
    {
      if 0 <= index < |pinnedTopRows.value| then Some(pinnedTopRows.value[index]) else None
    }

    /** The bottom row at `index`, or nothing when `index` is out of range. */
    function GetPinnedBottomRow(index: int): (r: Option<RowNode<D>>)
      reads this
      requires pinnedBottomRows.Some?
      ensures r.Some? <==> 0 <= index < |pinnedBottomRows.value|
      ensures r.Some? ==> r.value == pinnedBottomRows.value[index]
      ensures r.Some? && Valid() ==> r.value.rowIndex == index && r.value.rowPinned == PINNED_BOTTOM
    {
      if 0 <= index < |pinnedBottomRows.value| then Some(pinnedBottomRows.value[index]) else None
    }

    /**
     * Index of the row of list `floating` at vertical `pixel`: 0 for an empty
     * list, otherwise the first row whose last pixel reaches `pixel`, clamped
     * to the last row. In a stacked list this is the row containing the pixel.
     */
    method GetRowAtPixel(pixel: int, floating: string) returns (index: nat)
      ensures var rows := OrEmpty(SelectRows(floating));
        && (rows == [] ==> index == 0)
        && (rows != [] ==> index < |rows|)
        && (forall j :: 0 <= j < index && j < |rows| ==> BottomPixel(rows[j]) < pixel)
        && (index < |rows| ==> BottomPixel(rows[index]) >= pixel || index == |rows| - 1)
      ensures var rows := OrEmpty(SelectRows(floating));
        Stacked(rows) && 0 <= pixel < HeightSum(rows) ==>
          index < |rows| && rows[index].rowTop <= pixel < rows[index].rowTop + rows[index].rowHeight
      ensures var rows := OrEmpty(SelectRows(floating));
        Stacked(rows) && rows != [] && pixel < 0 ==> index == 0
      ensures var rows := OrEmpty(SelectRows(floating));
        Stacked(rows) && rows != [] && pixel >= HeightSum(rows) ==> index == |rows| - 1
    {
      var selected := SelectRows(floating);
      if selected.None? || |selected.value| == 0 {
        return 0;
      }
      var rows := selected.value;
      var i := 0;
      while i < |rows|
        invariant 0 <= i <= |rows|
        invariant forall j :: 0 <= j < i ==> BottomPixel(rows[j]) < pixel
      {
        var rowTopPixel := rows[i].rowTop + rows[i].rowHeight - 1;
        if rowTopPixel >= pixel {
          RowAtPixelLocates(rows, i, pixel);
          return i;
        }
        i := i + 1;
      }
      RowAtPixelLocates(rows, |rows| - 1, pixel);
      return |rows| - 1;
    }

    /** Calls `callback` on each top row in index order; nothing when the list is unset or empty. */
    method ForEachPinnedTopRow<T>(callback: (RowNode<D>, nat) -> T) returns (visits: seq<T>)
      ensures |visits| == GetPinnedTopRowCount()
      ensures forall i :: 0 <= i < |visits| ==> visits[i] == callback(pinnedTopRows.value[i], i)
    {
      visits := ForEachRow(pinnedTopRows, callback);
    }

    /** Calls `callback` on each bottom row in index order; nothing when the list is unset or empty. */
    method ForEachPinnedBottomRow<T>(callback: (RowNode<D>, nat) -> T) returns (visits: seq<T>)
      ensures |visits| == GetPinnedBottomRowCount()
      ensures forall i :: 0 <= i < |visits| ==> visits[i] == callback(pinnedBottomRows.value[i], i)
    {
      visits := ForEachRow(pinnedBottomRows, callback);
    }
  }
}
