# BannerListView, modelled in Dafny

BannerListView is an Android list view that can show one full-width banner above
its rows and otherwise behaves like a plain list view. This project models its
two pieces of logic.

- **HeaderViewListAdapter** (`header_view_list_adapter.dfy`, module
  `HeaderViewList`) is the wrapper adapter. It presents the banner at position
  0 and the wrapped adapter's rows after it, so list position `p >= 1` is the
  wrapped adapter's position `p - 1`. Each query is a pure function of the
  position. Thrown exceptions are `Throws(...)` results:
  `ArrayIndexOutOfBounds(position)`, `IllegalArgument` from the constructor, and
  `NullPointer`. `Entries` is an independent definition of the list the user
  sees: the banner entry, then the wrapped rows in order. `getItem`,
  `isEnabled`, `getItemId` and `getItemViewType` are proved equal to a lookup
  in it at every position. `getView` is proved to return the banner's view for
  the banner entry and the wrapped adapter's view for position `p - 1` for a row
  entry. `getCount` is proved to be its length, unless the count wraps.
  `areAllItemsEnabled` is proved to mean "every entry is enabled". The
  remaining queries (`getViewTypeCount`, `isEmpty`, `hasStableIds`) are stated
  on their own.
- **BannerListView** (`banner_list_view.dfy`, module `BannerList`) holds the
  banner (`mBannerView`) and the adapter installed in its list view. Adding a
  banner throws `IllegalStateException` once a plain adapter is installed.
  It also puts the view into a new container with `ViewGroup.addView`, which
  throws `IllegalArgumentException` for a null view. It throws
  `IllegalStateException` for a view that already has a parent, which includes
  the current banner's own view. The state therefore also records which views
  have a parent.
  `setAdapter` installs a wrapper exactly when a banner exists. The functions
  `AfterAddLayoutContainer` and `AfterSetAdapter` give the effect of each call
  on a state value. The class `BannerListView` updates its fields in place, and
  its methods are proved to follow those functions. `RunKeepsConsistent` proves
  by induction that no sequence of calls breaks the widget's consistency
  invariant.

Supporting modules:

- `java.dfy` (`Java`) has Java `int`/`long`, `int` wrap-around, null and the
  exceptions.
- `adapters.dfy` (`Adapters`) is the wrapped `ListAdapter`. It is modelled as
  its rows (item, enabled flag, id, view type) plus `getViewTypeCount`,
  `areAllItemsEnabled` and `hasStableIds`.

Positions are Java `int`s (`Int32`), and `int` arithmetic wraps where the code
can make it wrap:

- `getCount()` is `1 + N`. It wraps to `Integer.MIN_VALUE` when the wrapped
  adapter has `Integer.MAX_VALUE` rows.
- `getViewTypeCount()` wraps in the same way.
- `getView(Integer.MIN_VALUE)` computes the adapter position `MIN_VALUE - 1`,
  which wraps to `MAX_VALUE`, so it throws out-of-bounds. With a wrapped
  adapter, every other negative position is passed to it as `position - 1`.
  Without one, every position except 0 throws out-of-bounds.

Negative positions follow the code:

- `getItem` returns null.
- `isEnabled` returns true.
- `getItemViewType` returns the banner's view type.
- `getItemId` returns -1.

Views are tokens (`Ref`). For a row, `getView` returns `AdapterView(i)`, which
stands for "the view the wrapped adapter's `getView(i, ...)` produces".

`addLayoutContainer` never sets the banner's `data`, so the banner always
carries null data, and `getItem(0)` is null in every reachable state. If a
banner is added while a wrapper is installed, `mBannerView` is replaced but the
installed wrapper keeps the banner it was built with until `setAdapter` is
called again. `ReAddedBannerShownAfterSetAdapter` states this as the code
behaves.

Within this file, the only explicit `IllegalStateException` is thrown by
`addLayoutContainer` when a plain adapter is installed.

## Model

| member | source | states |
|---|---|---|
| `HeaderViewList.New` | BannerListView.java:210-219 | construction fails with IllegalArgument exactly when the banner is null; otherwise the wrapper holds the given adapter and banner |
| `HeaderViewList.HeadersCount` | BannerListView.java:221-223 | the header count is 0 or 1, and 1 exactly when the wrapper has its banner |
| `HeaderViewList.NewWrapperCount` | BannerListView.java:259-268 | a constructed wrapper has one header; its count is 1 with no adapter and 1 + N with N rows (Integer.MIN_VALUE when N is Integer.MAX_VALUE) |
| `HeaderViewList.GetCount` | BannerListView.java:259-268 | the count is headers plus wrapped rows, wrapping to Integer.MIN_VALUE past Integer.MAX_VALUE |
| `HeaderViewList.IsEnabled` | BannerListView.java:235-253 | true below the header count; throws out-of-bounds with the position exactly when the position is at or past headers + rows |
| `HeaderViewList.IsEnabledFollowsEntries` | BannerListView.java:235-253 | true for negative positions and the banner, the row's flag at row p-1, out-of-bounds past the end |
| `HeaderViewList.GetItem` | BannerListView.java:274-294 | null for negative positions; throws out-of-bounds with the position exactly when it is at or past headers + rows |
| `HeaderViewList.GetItemFollowsEntries` | BannerListView.java:274-294 | position 0 gives the banner's data, position p in the rows gives row p-1's item, null below 0, out-of-bounds past the end |
| `HeaderViewList.GetItemId` | BannerListView.java:296-309 | never throws; -1 at every position that is not a wrapped row |
| `HeaderViewList.GetItemIdFollowsEntries` | BannerListView.java:296-309 | -1 for the banner and outside the list, row p-1's id at row position p |
| `HeaderViewList.GetItemViewType` | BannerListView.java:311-327 | ITEM_VIEW_TYPE_HEADER_OR_FOOTER at and past headers + rows |
| `HeaderViewList.GetItemViewTypeFollowsEntries` | BannerListView.java:311-327 | the banner's reserved type at 0 and below, row p-1's type at row position p, ITEM_VIEW_TYPE_HEADER_OR_FOOTER past the end (and everywhere past 0 with no adapter) |
| `HeaderViewList.GetView` | BannerListView.java:329-349 | the banner view only at position 0; a delegated position is always below the wrapped count; failures are out-of-bounds with the position, or a null-pointer dereference of a missing banner |
| `HeaderViewList.GetViewFollowsEntries` | BannerListView.java:329-349 | banner view at 0, the adapter's view for p-1 at a row position p and at negative p except Integer.MIN_VALUE, out-of-bounds otherwise |
| `HeaderViewList.GetViewTypeCount` | BannerListView.java:351-358 | 2 with no adapter, the wrapped count + 1 otherwise (wrapping at Integer.MAX_VALUE) |
| `HeaderViewList.BannerViewTypeIsTheExtraType` | BannerListView.java:311-318 | the banner's view type is the one type past the wrapped adapter's types: getViewTypeCount() - 1, or 1 of 2 with no adapter |
| `HeaderViewList.ViewTypesStayInRange` | BannerListView.java:311-358 | if the wrapped adapter keeps its view types in range, every wrapper type is in [0, getViewTypeCount()) or a reserved negative type, and no row has the banner's type |
| `HeaderViewList.IsEmpty` | BannerListView.java:368-372 | empty only for a wrapper without a banner and with no rows |
| `HeaderViewList.ConstructedWrapperNotEmpty` | BannerListView.java:368-372 | a constructed wrapper is never empty, whatever the wrapped adapter holds |
| `HeaderViewList.AreAllItemsEnabled` | BannerListView.java:225-233 | the wrapped adapter's answer, or true with no wrapped adapter |
| `HeaderViewList.AllItemsEnabledMeansEveryEntryEnabled` | BannerListView.java:225-253 | if the wrapped adapter's areAllItemsEnabled is truthful, the wrapper's is true exactly when isEnabled is true at every position of the presented list |
| `HeaderViewList.HasStableIds` | BannerListView.java:360-366 | stable ids exactly when there is a wrapped adapter and its ids are stable |
| `Java.Wrap32` | BannerListView.java:263 | Java int addition: exact inside the int range, wraps at both ends, always congruent to the exact sum modulo 2^32 |
| `BannerList.AfterAddLayoutContainer` | BannerListView.java:148-167 | succeeds exactly when no plain adapter is installed and the view is non-null and has no parent; otherwise it throws (IllegalState for a plain adapter, then IllegalArgument for a null view, IllegalState for a view with a parent) and leaves the state unchanged; on success the banner is the view (header count 1), the view now has a parent and the installed adapter is kept |
| `BannerList.AfterSetAdapter` | BannerListView.java:182-191 | installs a wrapper built from the banner and the adapter exactly when a banner exists, else the raw adapter (or none for null); the banner is unchanged |
| `BannerList.ItemCount` | BannerListView.java:259-268 | the list view's count: 0 without an adapter, the plain adapter's rows, or for a constructed wrapper the length of the presented list when the count does not wrap |
| `BannerList.SetAdapterItemCount` | BannerListView.java:182-191 | after setAdapter the list shows N + 1 items with a banner and N without |
| `BannerList.RunKeepsConsistent` | BannerListView.java:148-191 | no sequence of addHeaderView/setAdapter calls breaks the invariant: a plain adapter only without a banner, an installed wrapper always has its banner, every banner view is non-null and has a parent, banners carry no data |
| `BannerList.ReachableStates` | BannerListView.java:148-191 | from a new list view: with a plain adapter the header count is 0 and adding a banner throws; with a wrapper the header count is 1, position 0 shows a non-null banner view and getItem(0) is null |
| `BannerList.ReAddedBannerShownAfterSetAdapter` | BannerListView.java:156-166 | adding a new, parentless banner view under an installed wrapper replaces mBannerView but position 0 keeps showing the old banner until the next setAdapter, which shows the new one |
| `BannerList.ReAddingBannerViewThrows` | BannerListView.java:150-160 | adding the current banner's view again throws (IllegalState: it already has a parent, or a plain adapter is installed) and changes nothing |
| `BannerList.BannerListView.constructor` | BannerListView.java:55-57 | a new list view has no banner and no adapter |
| `BannerList.BannerListView.GetHeaderViewCount` | BannerListView.java:173-175 | 1 when a banner is set, else 0 |
| `BannerList.BannerListView.AddLayoutContainer` | BannerListView.java:148-167 | returns the outcome and updates the fields (banner, views with a parent) as AfterAddLayoutContainer says, and keeps the invariant |
| `BannerList.BannerListView.AddHeaderView` | BannerListView.java:135-139 | same effect as addLayoutContainer with the given view |
| `BannerList.BannerListView.SetAdapter` | BannerListView.java:182-191 | updates the installed adapter as AfterSetAdapter says and keeps the invariant |

## Left out

- `FullWidthFixedViewLayout.onMeasure` is left out. It is platform measure-spec packing and layout.
- The container `FrameLayout` that `addLayoutContainer` builds around the view is modelled only by its `addView` refusals (null view, view with a parent) and by the view now having a parent. Its layout and measurement are left out, and the banner records the bare view as the code does. `ViewGroup` itself is not part of this model.
- Views that get a parent or lose one outside this widget are not tracked. The set of views with a parent is given when the list view is created and afterwards changes only through `addLayoutContainer`.
- `addBannerFragment` is left out. It builds a container layout, calls `addLayoutContainer` with it and later commits a fragment transaction from a layout-change callback, all of which is UI-toolkit plumbing.
- Data-set observers are left out: `registerDataSetObserver`, `unregisterDataSetObserver`, `notifyDataSetChanged`, and the notification `addLayoutContainer` sends when a wrapper is installed. They delegate to the platform's `DataSetObservable`.
- `getFilter` and `getWrappedAdapter` are left out. They pass through to foreign interfaces.
- Rendering is left out. Views and items are opaque tokens, and `getView` reports which view it returns or which wrapped position it delegates to, without `convertView` recycling or `parent`.
- The wrapped adapter's own `getView` at a negative position is foreign code and is not modelled.
- `FixedViewInfo.isSelectable` is not modelled. The code never reads it.
- The wrapped adapter's `isEmpty` is taken as "has no rows", which is its meaning in the adapter interface. A constructed wrapper still calls it, because `mAdapter == null || mAdapter.isEmpty()` is evaluated first, but its answer cannot change the result.
- The wrapped adapter is held as a value: a snapshot of its rows and flags when it is installed. The Java wrapper holds a reference, so later changes to that adapter's data show through it. The model does not capture those changes.
- `BannerListView.constructor` models only `BannerListView(Context)`. The two constructors that take an `AttributeSet` (BannerListView.java:59-65) run the platform `ListView` constructor. When the layout XML sets `android:entries`, that constructor calls the overridden `setAdapter` with an array adapter. The list view then starts with a plain adapter, and `addHeaderView` throws. That platform path is not modelled.
- BannerList.AfterSetAdapter never throws, but `super.setAdapter` can. The platform `ListView.setAdapter` passes the installed adapter's `getViewTypeCount()` to its recycler, which throws `IllegalArgumentException` below 1. A wrapper reaches that case when the wrapped adapter reports `Integer.MAX_VALUE` types, so that `GetViewTypeCount` wraps to `Integer.MIN_VALUE`. A plain adapter reaches it when it reports fewer than one type. The platform's remaining `setAdapter` work (selection, layout requests) is left out as well.
