/**
 * HeaderViewListAdapter: the adapter BannerListView installs when it has a
 * banner. The list it presents is the banner at position 0 followed by the rows
 * of the wrapped adapter, so list position p >= 1 is the wrapped adapter's
 * position p - 1. Every query is a function of the position; the exceptions it
 * throws are `Throws` results.
 */
module HeaderViewList {
  import opened Java
  import opened Adapters

  /** `ListView.FixedViewInfo`: the banner's view and the object `getItem(0)` returns. */
  datatype FixedViewInfo = FixedViewInfo(view: Ref, data: Ref)

  const HEADER_NULL_MESSAGE: string := "headerViewInfos cannot be null"

  /** The wrapper's fields `mAdapter` (may be null) and `mHeader`. */
  datatype HeaderViewListAdapter = HeaderViewListAdapter(
    adapter: Option<ListAdapter>,
    header: Option<FixedViewInfo>)

  /**
   * What `getView` hands back: the banner's own view, or the view the wrapped
   * adapter's `getView` produces for the given position of its own.
   */
  datatype ViewSource = HeaderView(view: Ref) | AdapterView(position: Int32)

  /** The state the constructor leaves every wrapper in: it has its banner. */
  predicate Constructed(w: HeaderViewListAdapter)
  {
    w.header.Some?
  }

  /** The constructor `HeaderViewListAdapter(headerViewInfos, adapter)`. */
  function New(headerViewInfos: Option<FixedViewInfo>, adapter: Option<ListAdapter>)
    : (r: Result<HeaderViewListAdapter>)
    ensures r.Ok? <==> headerViewInfos.Some?
    ensures r.Ok? ==> Constructed(r.value) && r.value.adapter == adapter && r.value.header == headerViewInfos
    ensures r.Throws? ==> r.exception == IllegalArgument(HEADER_NULL_MESSAGE)
  {
    if headerViewInfos.None? then Throws(IllegalArgument(HEADER_NULL_MESSAGE))
    else Ok(HeaderViewListAdapter(adapter, headerViewInfos))
  }

  /** `getHeadersCount()`: the number of list positions in front of the wrapped rows. */
  function HeadersCount(w: HeaderViewListAdapter): (n: Int32)
    ensures 0 <= n <= 1
    ensures n == 1 <==> w.header.Some?
  {
    if w.header.Some? then 1 else 0
  }

  /** `mAdapter.getCount()` where the wrapper asks for it, and 0 with no wrapped adapter. */
  function AdapterCount(w: HeaderViewListAdapter): Int32
  {
    if w.adapter.Some? then Count(w.adapter.value) else 0
  }

  /** `areAllItemsEnabled()`: the wrapped adapter's answer, or true without one. */
  predicate AreAllItemsEnabled(w: HeaderViewListAdapter)
    ensures w.adapter.None? ==> AreAllItemsEnabled(w)
    ensures w.adapter.Some? ==> (AreAllItemsEnabled(w) <==> w.adapter.value.allItemsEnabled)
  {
    if w.adapter.Some? then w.adapter.value.allItemsEnabled else true
  }

  /** `isEnabled(position)`. */
  function IsEnabled(w: HeaderViewListAdapter, position: Int32): (r: Result<bool>)
    ensures position < HeadersCount(w) ==> r == Ok(true)
    ensures r.Throws? <==> position >= HeadersCount(w) + AdapterCount(w)
    ensures r.Throws? ==> r.exception == ArrayIndexOutOfBounds(position)
  {
    var numHeaders := HeadersCount(w);
    if position < numHeaders then Ok(true)
    else
      // position >= numHeaders >= 0, so this int subtraction cannot wrap
      var adjPosition := position - numHeaders;
      if w.adapter.Some? && adjPosition < Count(w.adapter.value) then
        Ok(w.adapter.value.rows[adjPosition].enabled)
      else
        Throws(ArrayIndexOutOfBounds(position))
  }

  /** `getCount()`: the header count plus the wrapped adapter's count, in `int` arithmetic. */
  function GetCount(w: HeaderViewListAdapter): (n: Int32)
    ensures HeadersCount(w) + AdapterCount(w) <= INT_MAX ==> n == HeadersCount(w) + AdapterCount(w)
    ensures HeadersCount(w) + AdapterCount(w) > INT_MAX ==> n == INT_MIN
  {
    if w.adapter.Some? then Wrap32(HeadersCount(w) + Count(w.adapter.value))
    else HeadersCount(w)
  }

  /** `getItem(position)`. */
  function GetItem(w: HeaderViewListAdapter, position: Int32): (r: Result<Ref>)
    ensures position < 0 ==> r == Ok(Null)
    ensures r.Throws? <==> position >= HeadersCount(w) + AdapterCount(w)
    ensures r.Throws? ==> r.exception == ArrayIndexOutOfBounds(position)
  {
    var numHeaders := HeadersCount(w);
    if position < numHeaders then
      if position == 0 then Ok(w.header.value.data) else Ok(Null)
    else
      var adjPosition := position - numHeaders;
      if w.adapter.Some? && adjPosition < Count(w.adapter.value) then
        Ok(w.adapter.value.rows[adjPosition].item)
      else
        Throws(ArrayIndexOutOfBounds(position))
  }

  /** `getItemId(position)`: never throws. */
  function GetItemId(w: HeaderViewListAdapter, position: Int32): (id: Int64)
    ensures !(HeadersCount(w) <= position < HeadersCount(w) + AdapterCount(w)) ==> id == -1
  {
    var numHeaders := HeadersCount(w);
    if w.adapter.Some? && position >= numHeaders && position - numHeaders < Count(w.adapter.value) then
      w.adapter.value.rows[position - numHeaders].id
    else
      -1
  }

  /**
   * The view type the wrapper reserves for its banner: the wrapped adapter's
   * type count (one past its own types), or 1 without a wrapped adapter.
   */
  function BannerViewType(w: HeaderViewListAdapter): Int32
  {
    if w.adapter.Some? then w.adapter.value.viewTypeCount else 1
  }

  /** `getItemViewType(position)`. */
  function GetItemViewType(w: HeaderViewListAdapter, position: Int32): (t: Int32)
    ensures position >= HeadersCount(w) + AdapterCount(w) ==> t == ITEM_VIEW_TYPE_HEADER_OR_FOOTER
  {
    var numHeaders := HeadersCount(w);
    if position < numHeaders then
      BannerViewType(w)
    else if w.adapter.Some? && position - numHeaders < Count(w.adapter.value) then
      w.adapter.value.rows[position - numHeaders].viewType
    else
      ITEM_VIEW_TYPE_HEADER_OR_FOOTER
  }

  /**
   * `getView(position, convertView, parent)`. Below the header count it reads
   * `mHeader.view` and returns it for position 0; every other position falls
   * through to the wrapped adapter with `position - headers` in `int` arithmetic.
   */
  function GetView(w: HeaderViewListAdapter, position: Int32): (r: Result<ViewSource>)
    ensures r.Ok? && r.value.HeaderView? ==> position == 0 && Constructed(w)
    ensures r.Ok? && r.value.AdapterView? ==> w.adapter.Some? && r.value.position < AdapterCount(w)
    ensures r.Throws? ==>
      || r.exception == ArrayIndexOutOfBounds(position)
      || (r.exception == NullPointer && !Constructed(w) && position < 0)
  {
    var numHeaders := HeadersCount(w);
    if position < numHeaders && w.header.None? then
      Throws(NullPointer)
    else if position < numHeaders && position == 0 then
      Ok(HeaderView(w.header.value.view))
    else
      var adjPosition := Wrap32(position - numHeaders);
      if w.adapter.Some? && adjPosition < Count(w.adapter.value) then
        Ok(AdapterView(adjPosition))
      else
        Throws(ArrayIndexOutOfBounds(position))
  }

  /** `getViewTypeCount()`: one more than the wrapped adapter's, in `int` arithmetic. */
  function GetViewTypeCount(w: HeaderViewListAdapter): (n: Int32)
    ensures w.adapter.None? ==> n == 2
    ensures w.adapter.Some? && w.adapter.value.viewTypeCount < INT_MAX ==> n == w.adapter.value.viewTypeCount + 1
    ensures w.adapter.Some? && w.adapter.value.viewTypeCount == INT_MAX ==> n == INT_MIN
  {
    if w.adapter.Some? then Wrap32(w.adapter.value.viewTypeCount + 1) else 2
  }

  /** `hasStableIds()`: stable only when the wrapped adapter's ids are; false without one. */
  predicate HasStableIds(w: HeaderViewListAdapter)
    ensures HasStableIds(w) <==> w.adapter.Some? && w.adapter.value.stableIds
  {
    if w.adapter.Some? then w.adapter.value.stableIds else false
  }

  /** `isEmpty()`. */
  predicate IsEmpty(w: HeaderViewListAdapter)
    ensures IsEmpty(w) ==> !Constructed(w) && GetCount(w) == 0
  {
    (w.adapter.None? || NoRows(w.adapter.value)) && HeadersCount(w) == 0
  }

  // ---------------------------------------------------------------------------
  // The list the user sees, defined independently of the position arithmetic,
  // and the queries proved against it.

  /** One entry of the presented list. */
  datatype Entry = BannerEntry(info: FixedViewInfo) | RowEntry(row: Row)
  {
    function Item(): Ref
    {
      match this
      case BannerEntry(info) => info.data
      case RowEntry(row) => row.item
    }

    predicate Enabled()
    {
      match this
      case BannerEntry(_) => true
      case RowEntry(row) => row.enabled
    }

    function Id(): Int64
    {
      match this
      case BannerEntry(_) => -1
      case RowEntry(row) => row.id
    }

    /** The entry's view type, given the type the wrapper reserves for its banner. */
    function ViewType(bannerType: Int32): Int32
    {
      match this
      case BannerEntry(_) => bannerType
      case RowEntry(row) => row.viewType
    }
  }

  function RowEntries(rows: seq<Row>): seq<Entry>
  {
    seq(|rows|, i requires 0 <= i < |rows| => RowEntry(rows[i]))
  }

  /** The presented list: the banner, then the wrapped adapter's rows in order. */
  function Entries(w: HeaderViewListAdapter): seq<Entry>
    requires Constructed(w)
  {
    [BannerEntry(w.header.value)] + (if w.adapter.Some? then RowEntries(w.adapter.value.rows) else [])
  }

  /** A constructed wrapper has exactly one header, and its count is that header plus the rows. */
  lemma NewWrapperCount(headerViewInfos: FixedViewInfo, adapter: Option<ListAdapter>)
    ensures New(Some(headerViewInfos), adapter).Ok?
    ensures var w := New(Some(headerViewInfos), adapter).value;
      && HeadersCount(w) == 1
      && |Entries(w)| == 1 + AdapterCount(w)
      && (adapter.None? ==> GetCount(w) == 1)
      && (adapter.Some? && |adapter.value.rows| < INT_MAX ==> GetCount(w) == 1 + |adapter.value.rows|)
      && (adapter.Some? && |adapter.value.rows| == INT_MAX ==> GetCount(w) == INT_MIN)
  {
  }

  /** `getItem`: the banner's data at 0, row p - 1 at p, null below 0, out of bounds past the end. */
  lemma GetItemFollowsEntries(w: HeaderViewListAdapter, position: Int32)
    requires Constructed(w)
    ensures var es := Entries(w);
      GetItem(w, position) ==
        if position < 0 then Ok(Null)
        else if position < |es| then Ok(es[position].Item())
        else Throws(ArrayIndexOutOfBounds(position))
  {
  }

  /** `isEnabled`: true for the banner and below it, the row's flag for a row, out of bounds past the end. */
  lemma IsEnabledFollowsEntries(w: HeaderViewListAdapter, position: Int32)
    requires Constructed(w)
    ensures var es := Entries(w);
      IsEnabled(w, position) ==
        if position < 0 then Ok(true)
        else if position < |es| then Ok(es[position].Enabled())
        else Throws(ArrayIndexOutOfBounds(position))
  {
  }

  /** `getItemId`: -1 for the banner and every position outside the list, the row's id for a row. */
  lemma GetItemIdFollowsEntries(w: HeaderViewListAdapter, position: Int32)
    requires Constructed(w)
    ensures var es := Entries(w);
      GetItemId(w, position) == if 0 <= position < |es| then es[position].Id() else -1
  {
  }

  /**
   * `getItemViewType`: the banner's reserved type at 0 and below, the row's type
   * for a row, `ITEM_VIEW_TYPE_HEADER_OR_FOOTER` past the end.
   */
  lemma GetItemViewTypeFollowsEntries(w: HeaderViewListAdapter, position: Int32)
    requires Constructed(w)
    ensures var es := Entries(w);
      GetItemViewType(w, position) ==
        if position < 0 then BannerViewType(w)
        else if position < |es| then es[position].ViewType(BannerViewType(w))
        else ITEM_VIEW_TYPE_HEADER_OR_FOOTER
  {
  }

  /**
   * `getView`: the banner's view at 0, the wrapped adapter's view for p - 1 at a
   * row position p. A negative position also reaches the wrapped adapter with
   * p - 1, except `INT_MIN`, for which p - 1 wraps to `INT_MAX` and is out of
   * bounds; with no wrapped adapter every position but 0 is out of bounds.
   */
  lemma GetViewFollowsEntries(w: HeaderViewListAdapter, position: Int32)
    requires Constructed(w)
    ensures var es := Entries(w);
      GetView(w, position) ==
        if position == 0 then Ok(HeaderView(es[0].info.view))
        else if 0 < position < |es| then Ok(AdapterView(position - 1))
        else if position < 0 && w.adapter.Some? && position != INT_MIN then Ok(AdapterView(position - 1))
        else Throws(ArrayIndexOutOfBounds(position))
  {
  }

  /**
   * The banner's view type is the one type past the wrapped adapter's types:
   * `getViewTypeCount() - 1` unless that count wraps.
   */
  lemma BannerViewTypeIsTheExtraType(w: HeaderViewListAdapter)
    requires Constructed(w)
    ensures GetItemViewType(w, 0) == BannerViewType(w)
    ensures BannerViewType(w) < INT_MAX ==> GetViewTypeCount(w) == BannerViewType(w) + 1
    ensures w.adapter.None? ==> GetItemViewType(w, 0) == 1 && GetViewTypeCount(w) == 2
  {
  }

  /**
   * When the wrapped adapter keeps its view types in range, so does the wrapper,
   * and no row shares the banner's type.
   */
  lemma ViewTypesStayInRange(w: HeaderViewListAdapter, position: Int32)
    requires Constructed(w)
    requires w.adapter.Some? ==> ViewTypesInRange(w.adapter.value) && w.adapter.value.viewTypeCount < INT_MAX
    ensures var t := GetItemViewType(w, position);
      || t == ITEM_VIEW_TYPE_HEADER_OR_FOOTER
      || t == ITEM_VIEW_TYPE_IGNORE
      || 0 <= t < GetViewTypeCount(w)
    ensures 0 < position < |Entries(w)| ==> GetItemViewType(w, position) != GetItemViewType(w, 0)
  {
  }

  /** A constructed wrapper is never empty, whatever the wrapped adapter holds. */
  lemma ConstructedWrapperNotEmpty(w: HeaderViewListAdapter)
    requires Constructed(w)
    ensures !IsEmpty(w)
  {
  }

  /**
   * When the wrapped adapter's `areAllItemsEnabled()` answers truthfully, so does
   * the wrapper's: it is true exactly when every position of the presented list
   * is enabled.
   */
  lemma AllItemsEnabledMeansEveryEntryEnabled(w: HeaderViewListAdapter)
    requires Constructed(w)
    requires w.adapter.Some? ==> AllEnabledFlagHonest(w.adapter.value)
    ensures AreAllItemsEnabled(w) <==>
      forall position: Int32 :: 0 <= position < |Entries(w)| ==> IsEnabled(w, position) == Ok(true)
  {
    var es := Entries(w);
    if AreAllItemsEnabled(w) {
      forall position: Int32 | 0 <= position < |es| ensures IsEnabled(w, position) == Ok(true) {
        IsEnabledFollowsEntries(w, position);
      }
    } else {
      var rows := w.adapter.value.rows;
      var i :| 0 <= i < |rows| && !rows[i].enabled;
      IsEnabledFollowsEntries(w, i + 1);
      assert IsEnabled(w, i + 1) == Ok(false);
    }
  }
}
