/**
 * The page view controller's data source: which item comes before and after
 * the visible one, and how an item controller is created and wired. The
 * neighbour index is computed with wrap-around (the last item before the
 * first, the first after the last), but a controller is returned only when
 * the current item is not at that end, so paging is bounded and the
 * wrapped value is never used.
 */
module Paging {

  import opened Optional
  import opened ViewerOptions
  import opened ItemBase

  /** The host's item data source while it is alive: its item count and whether it supplies a progress view. */
  datatype DataSource = DataSource(itemCount: int, providesProgressView: bool)

  /** The index computed before the current one, with wrap-around at 0. */
  function PreviousIndexAsWritten(index: int, count: int): int {
    if index == 0 then count - 1 else index - 1
  }

  /** The index computed after the current one, with wrap-around at the last item. */
  function NextIndexAsWritten(index: int, count: int): int {
    if index == count - 1 then 0 else index + 1
  }

  /** The index of the page returned before `index`, if one is returned. */
  function BeforeIndex(index: int, count: int): Option<int> {
    if index > 0 then Some(PreviousIndexAsWritten(index, count)) else None
  }

  /** The index of the page returned after `index`, if one is returned. */
  function AfterIndex(index: int, count: int): Option<int> {
    if index < count - 1 then Some(NextIndexAsWritten(index, count)) else None
  }

  /** Paging is bounded: the page before is the previous index exactly when there is one, never the wrapped last index. */
  lemma BeforeIsBounded(index: int, count: int)
    ensures BeforeIndex(index, count) == if index > 0 then Some(index - 1) else None
    ensures index == 0 ==> PreviousIndexAsWritten(index, count) == count - 1 && BeforeIndex(index, count) == None
  {
  }

  /** Paging is bounded: the page after is the next index exactly when there is one, never the wrapped first index. */
  lemma AfterIsBounded(index: int, count: int)
    ensures AfterIndex(index, count) == if index < count - 1 then Some(index + 1) else None
    ensures index == count - 1 ==> NextIndexAsWritten(index, count) == 0 && AfterIndex(index, count) == None
  {
  }

  /** From a valid index, every page returned is a valid index. */
  lemma NeighboursInRange(index: int, count: int)
    requires 0 <= index < count
    ensures BeforeIndex(index, count).Some? ==> 0 <= BeforeIndex(index, count).value < count
    ensures AfterIndex(index, count).Some? ==> 0 <= AfterIndex(index, count).value < count
  {
  }

  /** A single item has no neighbours. */
  lemma SingleItemHasNoNeighbours()
    ensures BeforeIndex(0, 1) == None && AfterIndex(0, 1) == None
  {
  }

  /** Paging forward then back, or back then forward, returns to the same item. */
  lemma BeforeAfterInverse(i: int, j: int, count: int)
    requires 0 <= i && j < count
    ensures AfterIndex(i, count) == Some(j) <==> BeforeIndex(j, count) == Some(i)
  {
  }

  /** With four items, paging from the first item stops at the ends. */
  lemma FourItems()
    ensures BeforeIndex(0, 4) == None && AfterIndex(0, 4) == Some(1)
    ensures BeforeIndex(3, 4) == Some(2) && AfterIndex(3, 4) == None
  {
  }

  /** The index reached by `steps` forward page turns, if every turn returns a page. */
  function ForwardPages(index: int, count: int, steps: nat): Option<int>
    decreases steps
  {
    if steps == 0 then Some(index)
    else match AfterIndex(index, count)
      case None => None
      case Some(next) => ForwardPages(next, count, steps - 1)
  }

  /** Every later item is reached by paging forward, one page per item, and no further. */
  lemma {:induction false} ForwardPagesReach(index: int, count: int, steps: nat)
    requires 0 <= index < count
    ensures ForwardPages(index, count, steps) == if index + steps < count then Some(index + steps) else None
    decreases steps
  {
    if steps > 0 {
      AfterIsBounded(index, count);
      if index < count - 1 {
        ForwardPagesReach(index + 1, count, steps - 1);
        assert ForwardPages(index, count, steps) == ForwardPages(index + 1, count, steps - 1);
      } else {
        assert ForwardPages(index, count, steps) == None;
      }
    }
  }

  /** What `createItemController` returns: a plain view controller when the data source is gone, else an item controller. */
  datatype CreatedController = PlainController | Item(controller: ItemController)

  class PagingDataSource {
    const option: ImageViewerOption
    // weak references to the host's data sources and the item delegate
    var source: Option<DataSource>
    var displacedSourceAttached: bool
    var hasItemDelegate: bool

    constructor (source: DataSource, displacedSourceAttached: bool, option: ImageViewerOption)
      ensures this.source == Some(source) && this.displacedSourceAttached == displacedSourceAttached
      ensures this.option == option && !hasItemDelegate
    {
      this.source := Some(source);
      this.displacedSourceAttached := displacedSourceAttached;
      this.option := option;
      hasItemDelegate := false;
    }

    /** The item count, 0 once the data source is gone. */
    function NumberOfItems(): (n: int)
      reads this
      ensures source.None? ==> n == 0
      ensures source.Some? ==> n == source.value.itemCount
    {
      if source.Some? then source.value.itemCount else 0
    }

    /** The host releases its item data source; the weak reference becomes nil and the count drops to 0. */
    method DataSourceReleased()
      modifies this`source
      ensures source == None && NumberOfItems() == 0
    {
      source := None;
    }

    /**
     * `createItemController(at:isInitial:)`: with the data source alive, a
     * fresh image controller for `index` over all the items, with this data
     * source's item delegate, displaced-view source and progress view.
     */
    method CreateItemController(index: int, isInitial: bool) returns (created: CreatedController)
      ensures source.None? <==> created == PlainController
      ensures created.Item? ==>
        var c := created.controller;
        fresh(c) && fresh(c.scrollView) && c.Valid() && c.index == index && c.numberOfItems == NumberOfItems() &&
        c.option == option && c.isInitialController == isInitial && c.itemHidden == isInitial &&
        !c.isAnimating && c.swipeDirection == None && c.transition == null &&
        c.hasDelegate == hasItemDelegate && c.displacedSourceAttached == displacedSourceAttached &&
        c.hasProgressView == source.value.providesProgressView
    {
      if source.None? {
        return PlainController;
      }
      var c := new ItemController(NumberOfItems(), index, option, isInitial);
      c.hasDelegate := hasItemDelegate;
      c.displacedSourceAttached := displacedSourceAttached;
      c.hasProgressView := source.value.providesProgressView;
      created := Item(c);
    }

    /** `viewControllerBefore`: nothing for a plain controller or the first item, else a fresh controller for the previous item. */
    method ViewControllerBefore(current: CreatedController) returns (page: Option<CreatedController>)
      ensures page.Some? <==> current.Item? && current.controller.index > 0
      ensures page.Some? && source.Some? ==>
        page.value.Item? && fresh(page.value.controller) &&
        page.value.controller.index == current.controller.index - 1 &&
        !page.value.controller.isInitialController
      ensures page.Some? && source.None? ==> page.value == PlainController
    {
      if current.PlainController? {
        return None;
      }
      var previous := BeforeIndex(current.controller.index, NumberOfItems());
      if previous.None? {
        return None;
      }
      var created := CreateItemController(previous.value, false);
      page := Some(created);
    }

    /** `viewControllerAfter`: nothing for a plain controller or the last item, else a fresh controller for the next item. */
    method ViewControllerAfter(current: CreatedController) returns (page: Option<CreatedController>)
      ensures page.Some? <==> current.Item? && current.controller.index < NumberOfItems() - 1
      ensures page.Some? && source.Some? ==>
        page.value.Item? && fresh(page.value.controller) &&
        page.value.controller.index == current.controller.index + 1 &&
        !page.value.controller.isInitialController
      ensures page.Some? && source.None? ==> page.value == PlainController
    {
      if current.PlainController? {
        return None;
      }
      var next := AfterIndex(current.controller.index, NumberOfItems());
      if next.None? {
        return None;
      }
      var created := CreateItemController(next.value, false);
      page := Some(created);
    }
  }
}
