/**
 * The price list screen's view-model: turning price records into display items,
 * filtering them by the search text, and reacting to loading states.
 *
 * The reactive wiring (debounce, `flatMapLatest`, drivers) is not modelled; what is
 * modelled is the state each event leaves behind. Rendering a price as a string is
 * done by the price formatter, which is passed in as `render`.
 */
module CryptoList {
  import opened Common
  import opened Text
  import opened PriceItems
  import opened Formatting

  /** One row of the list, with its prices already rendered. */
  datatype DisplayItem = DisplayItem(
    id: int,
    name: string,
    symbol: string,
    usdPrice: string,
    eurPrice: Option<string>,
    tags: seq<string>,
    showEUR: bool)

  /**
   * `DisplayItem ==`: two items are the same row when they differ at most in name,
   * symbol, prices, tags and flag.
   */
  predicate SameItem(lhs: DisplayItem, rhs: DisplayItem): (b: bool)
    ensures b <==> rhs.(name := lhs.name, symbol := lhs.symbol, usdPrice := lhs.usdPrice,
                        eurPrice := lhs.eurPrice, tags := lhs.tags, showEUR := lhs.showEUR) == lhs
    ensures lhs == rhs ==> b
  {
    lhs.id == rhs.id
  }

  /**
   * Row equality is an equivalence that looks at the id alone: an item equals any
   * copy of itself with different name, symbol, prices, tags or flag.
   */
  lemma SameItemIgnoresContent(a: DisplayItem, b: DisplayItem, c: DisplayItem, name: string, usd: string, tags: seq<string>)
    ensures SameItem(a, a)
    ensures SameItem(a, b) ==> SameItem(b, a)
    ensures SameItem(a, b) && SameItem(b, c) ==> SameItem(a, c)
    ensures SameItem(a, a.(name := name, usdPrice := usd, eurPrice := None, tags := tags, showEUR := !a.showEUR))
    ensures SameItem(a, b) <==> a.id == b.id
  {
  }

  /** The formatter, as far as the list needs it. */
  type Render = (Currency, real) -> string

  /** The first three characters of the name, upper-cased. */
  function ExtractSymbol(name: string): (r: string)
    ensures |r| == if |name| < 3 then |name| else 3
    ensures forall i :: 0 <= i < |r| ==> r[i] == UpperChar(name[i])
  {
    Upper(name[..if |name| < 3 then |name| else 3])
  }

  function CreateDisplayItem(
    id: int, name: string, tags: seq<string>, usdPrice: real, eurPrice: Option<real>,
    showEUR: bool, render: Render): (d: DisplayItem)
    ensures d.id == id && d.name == name && d.showEUR == showEUR
    ensures d.symbol == ExtractSymbol(name)
    ensures Sorted(d.tags) && multiset(d.tags) == multiset(tags)
    ensures d.usdPrice == render(USD, usdPrice)
    ensures d.eurPrice.Some? <==> eurPrice.Some?
    ensures eurPrice.Some? ==> d.eurPrice.value == render(EUR, eurPrice.value)
  {
    DisplayItem(
      id, name, ExtractSymbol(name), render(USD, usdPrice),
      match eurPrice case Some(e) => Some(render(EUR, e)) case None => None,
      SortCaseInsensitive(tags), showEUR)
  }

  /** USD-only records become rows without a EUR price. */
  function ConvertUSDPrices(prices: seq<USDPriceItem>, render: Render): (r: seq<DisplayItem>)
    ensures |r| == |prices|
    ensures forall i :: 0 <= i < |r| ==>
      r[i].id == prices[i].id && r[i].name == prices[i].name &&
      r[i].usdPrice == render(USD, prices[i].usd) &&
      r[i].eurPrice.None? && !r[i].showEUR &&
      Sorted(r[i].tags) && multiset(r[i].tags) == multiset(TagStrings(prices[i].tags))
  {
    seq(|prices|, i requires 0 <= i < |prices| =>
      var p := prices[i];
      CreateDisplayItem(p.id, p.name, TagStrings(p.tags), p.usd, None, false, render))
  }

  /** Records with both prices become rows that carry and show the EUR price. */
  function ConvertAllPrices(prices: seq<AllPriceItem>, render: Render): (r: seq<DisplayItem>)
    ensures |r| == |prices|
    ensures forall i :: 0 <= i < |r| ==>
      r[i].id == prices[i].id && r[i].name == prices[i].name &&
      r[i].usdPrice == render(USD, prices[i].price.usd) &&
      r[i].eurPrice == Some(render(EUR, prices[i].price.eur)) && r[i].showEUR &&
      Sorted(r[i].tags) && multiset(r[i].tags) == multiset(TagStrings(prices[i].tags))
  {
    seq(|prices|, i requires 0 <= i < |prices| =>
      var p := prices[i];
      CreateDisplayItem(p.id, p.name, TagStrings(p.tags), p.Usd(), Some(p.Eur()), true, render))
  }

  /** Some tag contains `query` exactly when `query` occurs at some offset of some tag. */
  lemma TagsContainAt(tags: seq<string>, query: string)
    ensures (exists i :: 0 <= i < |tags| && Contains(Lower(tags[i]), query)) <==>
            (exists i, k :: 0 <= i < |tags| && OccursAt(Lower(tags[i]), query, k))
  {
    forall i | 0 <= i < |tags| {
      ContainsAt(Lower(tags[i]), query);
    }
  }

  /** A row matches a lower-cased query through its name, its symbol or one of its tags. */
  predicate Matches(item: DisplayItem, query: string): (b: bool)
    ensures query == [] ==> b
  {
    Contains(Lower(item.name), query) ||
    Contains(Lower(item.symbol), query) ||
    exists i :: 0 <= i < |item.tags| && Contains(Lower(item.tags[i]), query)
  }

  /**
   * A row matches exactly when the query occurs at some offset of its lower-cased
   * name, of its lower-cased symbol, or of one of its lower-cased tags.
   */
  lemma MatchesAt(item: DisplayItem, query: string)
    ensures Matches(item, query) <==>
              (exists k :: OccursAt(Lower(item.name), query, k)) ||
              (exists k :: OccursAt(Lower(item.symbol), query, k)) ||
              (exists i, k :: 0 <= i < |item.tags| && OccursAt(Lower(item.tags[i]), query, k))
  {
    ContainsAt(Lower(item.name), query);
    ContainsAt(Lower(item.symbol), query);
    TagsContainAt(item.tags, query);
    assert Matches(item, query) <==>
      Contains(Lower(item.name), query) || Contains(Lower(item.symbol), query) ||
      exists i :: 0 <= i < |item.tags| && Contains(Lower(item.tags[i]), query);
  }

  /** The rows shown for a search text: all of them for an empty text. */
  function Visible(all: seq<DisplayItem>, searchText: string): (r: seq<DisplayItem>)
    ensures searchText == [] ==> r == all
    ensures Subsequence(r, all)
    ensures searchText != [] ==> forall i :: 0 <= i < |r| ==> Matches(r[i], Lower(searchText))
  {
    if searchText == [] then
      SubsequenceOfSelf(all);
      all
    else
      var query := Lower(searchText);
      Filter(all, item => Matches(item, query))
  }

  /**
   * Search keeps exactly the matching rows, each as often as it occurs, in their
   * original order (the order is `Subsequence` in `Visible`'s contract).
   */
  lemma VisibleKeepsExactlyMatches(all: seq<DisplayItem>, searchText: string, x: DisplayItem)
    requires searchText != []
    ensures multiset(Visible(all, searchText))[x] ==
              if Matches(x, Lower(searchText)) then multiset(all)[x] else 0
  {
    var query := Lower(searchText);
    FilterCount(all, item => Matches(item, query), x);
  }

  /** What the loading pipeline emits. */
  datatype LoadingState = Loading | Success(items: seq<DisplayItem>) | Error(message: string)

  /** The outcome of one fetch from the price use case. */
  datatype Fetched<T> = Fetched(prices: seq<T>) | FetchFailed(message: string)

  /**
   * For one value of the EUR flag: `loading` first, then the converted rows of the
   * fetch the flag selects (all prices when set, USD prices otherwise), or the
   * fetch's error message.
   */
  function LoadingStates(showEUR: bool, usd: Fetched<USDPriceItem>, all: Fetched<AllPriceItem>, render: Render): (r: seq<LoadingState>)
    ensures |r| == 2 && r[0] == Loading && !r[1].Loading?
    ensures showEUR ==> (r[1].Success? <==> all.Fetched?)
    ensures !showEUR ==> (r[1].Success? <==> usd.Fetched?)
    ensures showEUR && all.Fetched? ==> r[1] == Success(ConvertAllPrices(all.prices, render))
    ensures !showEUR && usd.Fetched? ==> r[1] == Success(ConvertUSDPrices(usd.prices, render))
    ensures showEUR && all.FetchFailed? ==> r[1] == Error(all.message)
    ensures !showEUR && usd.FetchFailed? ==> r[1] == Error(usd.message)
    ensures r[1].Success? ==> forall j :: 0 <= j < |r[1].items| ==>
              r[1].items[j].showEUR == showEUR && r[1].items[j].eurPrice.Some? == showEUR
  {
    var result :=
      if showEUR then
        match all
        case Fetched(prices) => Success(ConvertAllPrices(prices, render))
        case FetchFailed(message) => Error(message)
      else
        match usd
        case Fetched(prices) => Success(ConvertUSDPrices(prices, render))
        case FetchFailed(message) => Error(message);
    [Loading, result]
  }

  class CryptoListViewModel {
    var items: seq<DisplayItem>
    var isLoading: bool
    var errorMessage: Option<string>
    var searchText: string
    var showEURPrice: bool
    var allItems: seq<DisplayItem>

    constructor ()
      ensures items == [] && allItems == [] && searchText == []
      ensures !isLoading && errorMessage.None? && !showEURPrice
    {
      items, isLoading, errorMessage := [], false, None;
      searchText, showEURPrice, allItems := [], false, [];
    }

    /** Setting the search text; the list is refiltered when the debounced text arrives. */
    method SetSearchText(text: string)
      modifies this`searchText
      ensures searchText == text
    {
      searchText := text;
    }

    method FilterCurrentItems()
      modifies this`items
      ensures items == Visible(allItems, searchText)
    {
      if searchText == [] {
        items := allItems;
      } else {
        var lowercasedSearch := Lower(searchText);
        items := Filter(allItems, item => Matches(item, lowercasedSearch));
      }
    }

    method UpdateItems(newItems: seq<DisplayItem>)
      modifies this`allItems, this`items
      ensures allItems == newItems
      ensures items == Visible(newItems, searchText)
    {
      allItems := newItems;
      FilterCurrentItems();
    }

    /** The handler the loading states are driven into. */
    method Handle(state: LoadingState)
      modifies this`items, this`allItems, this`isLoading, this`errorMessage
      ensures state.Loading? ==>
                isLoading && errorMessage.None? && items == old(items) && allItems == old(allItems)
      ensures state.Success? ==>
                !isLoading && errorMessage.None? && allItems == state.items &&
                items == Visible(state.items, searchText)
      ensures state.Error? ==>
                !isLoading && errorMessage == Some(state.message) &&
                items == old(items) && allItems == old(allItems)
    {
      match state {
        case Loading =>
          isLoading := true;
          errorMessage := None;
        case Success(newItems) =>
          UpdateItems(newItems);
          isLoading := false;
          errorMessage := None;
        case Error(message) =>
          isLoading := false;
          errorMessage := Some(message);
      }
    }

    /** The EUR flag's driver sets the published flag. */
    method SetShowEURPrice(showEUR: bool)
      modifies this`showEURPrice
      ensures showEURPrice == showEUR
    {
      showEURPrice := showEUR;
    }
  }
}
