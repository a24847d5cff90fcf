/**
 * The list adapter the banner list wraps, seen through the queries the wrapper
 * forwards to it. Its rows are what getItem, isEnabled, getItemId and
 * getItemViewType answer for each of its positions; views are produced by its
 * getView, which the model does not look into.
 */
module Adapters {
  import opened Java

  /** `AdapterView.ITEM_VIEW_TYPE_IGNORE`. */
  const ITEM_VIEW_TYPE_IGNORE: Int32 := -1

  /** `AdapterView.ITEM_VIEW_TYPE_HEADER_OR_FOOTER`. */
  const ITEM_VIEW_TYPE_HEADER_OR_FOOTER: Int32 := -2

  /** What the adapter answers for one of its positions. */
  datatype Row = Row(item: Ref, enabled: bool, id: Int64, viewType: Int32)

  datatype ListAdapterData = ListAdapterData(
    rows: seq<Row>,
    viewTypeCount: Int32,
    allItemsEnabled: bool,
    stableIds: bool)

  /** `getCount()` is an `int`, so an adapter holds at most `INT_MAX` rows. */
  type ListAdapter = a: ListAdapterData | |a.rows| <= 0x7fff_ffff
    witness ListAdapterData([], 1, true, false)

  /** `getCount()`. */
  function Count(a: ListAdapter): Int32
  {
    |a.rows|
  }

  /** `isEmpty()`, with the meaning the adapter interface gives it: no rows. */
  predicate NoRows(a: ListAdapter)
  {
    |a.rows| == 0
  }

  /**
   * The adapter interface's meaning of `areAllItemsEnabled()`: it answers true
   * exactly when every row is enabled.
   */
  predicate AllEnabledFlagHonest(a: ListAdapter)
  {
    a.allItemsEnabled <==> forall i :: 0 <= i < |a.rows| ==> a.rows[i].enabled
  }

  /**
   * The adapter interface's rule for view types: there is at least one type, and
   * each row's type is in `[0, getViewTypeCount())` or is `ITEM_VIEW_TYPE_IGNORE`.
   */
  predicate ViewTypesInRange(a: ListAdapter)
  {
    && 1 <= a.viewTypeCount
    && forall i :: 0 <= i < |a.rows| ==>
      a.rows[i].viewType == ITEM_VIEW_TYPE_IGNORE || 0 <= a.rows[i].viewType < a.viewTypeCount
  }
}
