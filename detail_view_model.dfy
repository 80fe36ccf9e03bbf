/** The detail screen's view-model: the price text, in one or two lines. */
module Detail {
  import opened FeatureFlags
  import opened CryptoList

  /** The USD line, followed by a EUR line when EUR is shown and the row has a EUR price. */
  function FormattedPrices(showEURPrice: bool, item: DisplayItem): (s: string)
    ensures showEURPrice && item.eurPrice.Some? ==>
              s == "USD: " + item.usdPrice + "\nEUR: " + item.eurPrice.value
    ensures !(showEURPrice && item.eurPrice.Some?) ==> s == "USD: " + item.usdPrice
  {
    if showEURPrice && item.eurPrice.Some? then
      "USD: " + item.usdPrice + "\nEUR: " + item.eurPrice.value
    else
      "USD: " + item.usdPrice
  }

  /**
   * When the rendered USD price holds no line break, the text has a second line
   * exactly when EUR is shown and available; either way it starts with the USD line.
   */
  lemma TwoLinesExactlyWhenEURShown(showEURPrice: bool, item: DisplayItem)
    requires '\n' !in item.usdPrice
    ensures var s := FormattedPrices(showEURPrice, item);
      ('\n' in s <==> showEURPrice && item.eurPrice.Some?) &&
      s[..5 + |item.usdPrice|] == "USD: " + item.usdPrice
  {
  }

  class DetailViewModel {
    var showEURPrice: bool
    var formattedPrices: string
    const displayItem: DisplayItem

    /** The text always matches the flag and the row. */
    ghost predicate Valid()
      reads this
    {
      formattedPrices == FormattedPrices(showEURPrice, displayItem)
    }

    function TokenName(): (name: string)
      ensures name == displayItem.name
    {
      displayItem.name
    }

    /**
     * Subscribing to the EUR flag delivers its current value at once, so the
     * view-model starts out showing what the store holds.
     */
    constructor (item: DisplayItem, provider: FeatureFlagProvider)
      ensures displayItem == item
      ensures showEURPrice == ValueIn(provider.flags, SupportEUR)
      ensures Valid()
    {
      displayItem := item;
      showEURPrice := false;
      formattedPrices := "";
      new;
      var current := provider.GetValue(SupportEUR);
      OnSupportEUR(current);
      UpdateFormattedPrices();
    }

    method UpdateFormattedPrices()
      modifies this`formattedPrices
      ensures Valid()
    {
      if showEURPrice && displayItem.eurPrice.Some? {
        formattedPrices := "USD: " + displayItem.usdPrice + "\nEUR: " + displayItem.eurPrice.value;
      } else {
        formattedPrices := "USD: " + displayItem.usdPrice;
      }
    }

    /** A value delivered by the flag subscription. */
    method OnSupportEUR(showEUR: bool)
      modifies this`showEURPrice, this`formattedPrices
      ensures showEURPrice == showEUR
      ensures Valid()
    {
      showEURPrice := showEUR;
      UpdateFormattedPrices();
    }
  }
}
