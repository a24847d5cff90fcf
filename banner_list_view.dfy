/**
 * BannerListView: a list view that may show one banner above its rows. It keeps
 * the banner (`mBannerView`) and the adapter installed in the list view it
 * extends. Adding a banner is refused once a plain adapter is installed, and
 * `setAdapter` wraps the adapter in a HeaderViewListAdapter exactly when there
 * is a banner. Adding a banner also puts its view into a new container, which
 * refuses a null view and a view that already has a parent.
 *
 * The operations are specified by functions on a state value (`ListState`);
 * the class's methods change its fields and are proved to follow them.
 */
module BannerList {
  import opened Java
  import opened Adapters
  import opened HeaderViewList

  const SET_ADAPTER_CALLED_MESSAGE: string :=
    "Cannot add header view to grid -- setAdapter has already been called."

  /** What `ViewGroup.addView` throws for a null child (IllegalArgumentException). */
  const NULL_CHILD_MESSAGE: string := "Cannot add a null child view to a ViewGroup"

  /** What `ViewGroup.addView` throws for a child that has a parent (IllegalStateException). */
  const HAS_PARENT_MESSAGE: string :=
    "The specified child already has a parent. You must call removeView() on the child's parent first."

  /** The adapter the list view holds (`getAdapter()`). */
  datatype Installed =
    | NoAdapter
    | Plain(adapter: ListAdapter)
    | Wrapped(wrapper: HeaderViewListAdapter)

  /**
   * The banner (`mBannerView`, null when absent), the installed adapter, and the
   * views that have a parent in the view tree, which `ViewGroup.addView` checks.
   */
  datatype ListState = ListState(
    bannerView: Option<FixedViewInfo>,
    installed: Installed,
    parented: set<Ref>)

  /** A freshly constructed list view: no banner, no adapter; `parented` views already sit in some layout. */
  function Initial(parented: set<Ref>): ListState
  {
    ListState(None, NoAdapter, parented)
  }

  /** `getHeaderViewCount()`. */
  function HeaderViewCount(s: ListState): Int32
  {
    if s.bannerView.Some? then 1 else 0
  }

  /**
   * `addLayoutContainer(view)`, which `addHeaderView(view)` calls: the outcome
   * and the state it leaves. It first refuses when a plain adapter is installed,
   * then `fl.addView(view)` refuses a null view or one that has a parent; a
   * refusal leaves the state as it was. The new banner records the view and no
   * data, and the view now has the container as its parent.
   */
  function AfterAddLayoutContainer(s: ListState, view: Ref): (r: (Outcome, ListState))
    ensures r.0.Normal? <==> !s.installed.Plain? && view != Null && view !in s.parented
    ensures r.0.Raised? ==> r.1 == s
    ensures s.installed.Plain? ==> r.0 == Raised(IllegalState(SET_ADAPTER_CALLED_MESSAGE))
    ensures !s.installed.Plain? && view == Null ==> r.0 == Raised(IllegalArgument(NULL_CHILD_MESSAGE))
    ensures !s.installed.Plain? && view != Null && view in s.parented ==>
      r.0 == Raised(IllegalState(HAS_PARENT_MESSAGE))
    ensures r.0.Normal? ==>
      && HeaderViewCount(r.1) == 1
      && r.1.bannerView.value.view == view
      && r.1.installed == s.installed
      && r.1.parented == s.parented + {view}
  {
    if s.installed.Plain? then
      (Raised(IllegalState(SET_ADAPTER_CALLED_MESSAGE)), s)
    else if view == Null then
      (Raised(IllegalArgument(NULL_CHILD_MESSAGE)), s)
    else if view in s.parented then
      (Raised(IllegalState(HAS_PARENT_MESSAGE)), s)
    else
      (Normal, ListState(Some(FixedViewInfo(view, Null)), s.installed, s.parented + {view}))
  }

  /** `setAdapter(adapter)`: the state it leaves. */
  function AfterSetAdapter(s: ListState, adapter: Option<ListAdapter>): (t: ListState)
    ensures t.bannerView == s.bannerView && t.parented == s.parented
    ensures t.installed.Wrapped? <==> s.bannerView.Some?
    ensures t.installed.Wrapped? ==> New(s.bannerView, adapter) == Ok(t.installed.wrapper)
    ensures t.installed.Plain? ==> adapter == Some(t.installed.adapter)
    ensures t.installed.NoAdapter? ==> adapter.None?
  {
    var installed :=
      if s.bannerView.Some? then Wrapped(New(s.bannerView, adapter).value)
      else if adapter.Some? then Plain(adapter.value)
      else NoAdapter;
    s.(installed := installed)
  }

  /**
   * The item count the list view takes from its installed adapter (`getCount()`):
   * with a wrapper, the length of the list it presents unless the count wraps.
   */
  function ItemCount(installed: Installed): (n: Int32)
    ensures installed.NoAdapter? ==> n == 0
    ensures installed.Plain? ==> n == |installed.adapter.rows|
    ensures installed.Wrapped? && Constructed(installed.wrapper) && AdapterCount(installed.wrapper) < INT_MAX ==>
      n == |Entries(installed.wrapper)|
  {
    match installed
    case NoAdapter => 0
    case Plain(a) => Count(a)
    case Wrapped(w) => GetCount(w)
  }

  /**
   * What holds in every state the widget can reach: a plain adapter is only
   * installed when there is no banner; an installed wrapper has its banner and
   * the list view has one too; every banner has a non-null view that now has a
   * parent, and carries no data.
   */
  predicate Consistent(s: ListState)
  {
    && (s.installed.Plain? ==> s.bannerView.None?)
    && (s.installed.Wrapped? ==>
          && Constructed(s.installed.wrapper)
          && BannerIsAttached(s, s.installed.wrapper.header.value)
          && s.bannerView.Some?)
    && (s.bannerView.Some? ==> BannerIsAttached(s, s.bannerView.value))
  }

  predicate BannerIsAttached(s: ListState, info: FixedViewInfo)
  {
    info.view != Null && info.view in s.parented && info.data == Null
  }

  /** The public calls that change the widget's state. */
  datatype Call = AddHeaderView(view: Ref) | SetAdapter(adapter: Option<ListAdapter>)

  function Apply(s: ListState, c: Call): ListState
  {
    match c
    case AddHeaderView(view) => AfterAddLayoutContainer(s, view).1
    case SetAdapter(adapter) => AfterSetAdapter(s, adapter)
  }

  /** The state after a sequence of calls; a call that throws leaves the state as it was. */
  function Run(s: ListState, calls: seq<Call>): ListState
    decreases |calls|
  {
    if calls == [] then s else Run(Apply(s, calls[0]), calls[1..])
  }

  lemma ApplyKeepsConsistent(s: ListState, c: Call)
    requires Consistent(s)
    ensures Consistent(Apply(s, c))
  {
  }

  /** Consistency survives any sequence of calls. */
  lemma {:induction false} RunKeepsConsistent(s: ListState, calls: seq<Call>)
    requires Consistent(s)
    ensures Consistent(Run(s, calls))
    decreases |calls|
  {
    if calls != [] {
      ApplyKeepsConsistent(s, calls[0]);
      RunKeepsConsistent(Apply(s, calls[0]), calls[1..]);
    }
  }

  /**
   * In every state reachable from a new list view: with a plain adapter there
   * is no banner and adding one throws; with a wrapper, the header count is 1,
   * position 0 shows a non-null banner view and `getItem(0)` is null.
   */
  lemma ReachableStates(parented: set<Ref>, calls: seq<Call>, view: Ref)
    ensures var s := Run(Initial(parented), calls);
      && (s.installed.Plain? ==>
            && HeaderViewCount(s) == 0
            && AfterAddLayoutContainer(s, view) == (Raised(IllegalState(SET_ADAPTER_CALLED_MESSAGE)), s))
      && (s.installed.Wrapped? ==>
            && HeaderViewCount(s) == 1
            && GetView(s.installed.wrapper, 0).Ok?
            && GetView(s.installed.wrapper, 0).value.HeaderView?
            && GetView(s.installed.wrapper, 0).value.view != Null
            && GetItem(s.installed.wrapper, 0) == Ok(Null))
  {
    RunKeepsConsistent(Initial(parented), calls);
  }

  /**
   * With a banner the list shows the adapter's rows plus one; without one it
   * shows exactly the adapter's rows.
   */
  lemma SetAdapterItemCount(s: ListState, adapter: Option<ListAdapter>)
    requires adapter.Some? ==> |adapter.value.rows| < INT_MAX
    ensures var n := if adapter.Some? then |adapter.value.rows| else 0;
      ItemCount(AfterSetAdapter(s, adapter).installed) == if s.bannerView.Some? then 1 + n else n
  {
  }

  /**
   * Adding a banner while a wrapper is installed replaces `mBannerView`, but the
   * installed wrapper keeps the banner it was built with: position 0 shows the
   * old banner until `setAdapter` is called again, after which it shows the new one.
   */
  lemma ReAddedBannerShownAfterSetAdapter(s: ListState, view: Ref, adapter: Option<ListAdapter>)
    requires s.installed.Wrapped? && Consistent(s)
    requires view != Null && view !in s.parented
    ensures var (outcome, t) := AfterAddLayoutContainer(s, view);
      && outcome == Normal
      && t.bannerView == Some(FixedViewInfo(view, Null))
      && GetView(t.installed.wrapper, 0) == GetView(s.installed.wrapper, 0)
      && GetView(AfterSetAdapter(t, adapter).installed.wrapper, 0) == Ok(HeaderView(view))
  {
  }

  /**
   * The current banner's view already sits in its container, so adding it again
   * throws and changes nothing.
   */
  lemma ReAddingBannerViewThrows(s: ListState)
    requires Consistent(s) && s.bannerView.Some?
    ensures AfterAddLayoutContainer(s, s.bannerView.value.view)
      == (if s.installed.Plain? then Raised(IllegalState(SET_ADAPTER_CALLED_MESSAGE))
          else Raised(IllegalState(HAS_PARENT_MESSAGE)), s)
  {
  }

  /** The widget. Its fields are `mBannerView` and the adapter its list view holds. */
  class BannerListView {
    var bannerView: Option<FixedViewInfo>
    var adapter: Installed
    /** The views that have a parent in the view tree (state of the platform's view hierarchy). */
    var viewsWithParent: set<Ref>

    function State(): ListState
      reads this
    {
      ListState(bannerView, adapter, viewsWithParent)
    }

    ghost predicate Valid()
      reads this
    {
      Consistent(State())
    }

    constructor (viewsWithParent: set<Ref>)
      ensures Valid() && State() == Initial(viewsWithParent)
    {
      bannerView := None;
      adapter := NoAdapter;
      this.viewsWithParent := viewsWithParent;
    }

    /** `getHeaderViewCount()`: 1 if there is a banner, else 0. */
    function GetHeaderViewCount(): (n: Int32)
      reads this
      ensures 0 <= n <= 1
      ensures n == 1 <==> bannerView.Some?
    {
      if bannerView.Some? then 1 else 0
    }

    /** `addLayoutContainer(view)`. */
    method AddLayoutContainer(view: Ref) returns (outcome: Outcome)
      requires Valid()
      modifies this
      ensures Valid()
      ensures (outcome, State()) == AfterAddLayoutContainer(old(State()), view)
    {
      if adapter.Plain? {
        return Raised(IllegalState(SET_ADAPTER_CALLED_MESSAGE));
      }
      // fl.addView(view)
      if view == Null {
        return Raised(IllegalArgument(NULL_CHILD_MESSAGE));
      }
      if view in viewsWithParent {
        return Raised(IllegalState(HAS_PARENT_MESSAGE));
      }
      viewsWithParent := viewsWithParent + {view};
      bannerView := Some(FixedViewInfo(view, Null));
      outcome := Normal;
    }

    /** `addHeaderView(v)`. */
    method AddHeaderView(v: Ref) returns (outcome: Outcome)
      requires Valid()
      modifies this
      ensures Valid()
      ensures (outcome, State()) == AfterAddLayoutContainer(old(State()), v)
    {
      outcome := AddLayoutContainer(v);
    }

    /** `setAdapter(adapter)`. */
    method SetAdapter(a: Option<ListAdapter>)
      requires Valid()
      modifies this
      ensures Valid()
      ensures State() == AfterSetAdapter(old(State()), a)
    {
      if bannerView.Some? {
        var hadapter := New(bannerView, a);
        adapter := Wrapped(hadapter.value);
      } else if a.Some? {
        adapter := Plain(a.value);
      } else {
        adapter := NoAdapter;
      }
    }
  }
}
