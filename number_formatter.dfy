/**
 * The precision rule of the price formatter. Each call first sets the minimum and
 * maximum fraction digits of a cached Foundation formatter and then renders the
 * value with it. The rendering (locale, grouping, rounding) is not part of this
 * model: a call returns the request it hands to the formatter instead of a string.
 */
module Formatting {

  datatype Currency = USD | EUR

  datatype Digits = Digits(minFraction: int, maxFraction: int)

  /** What a formatting call asks Foundation to render. */
  datatype Rendering =
    | CurrencyRendering(currency: Currency, value: real, digits: Digits)
    | DecimalRendering(value: real, digits: Digits)

  /** The precision bracket shared by USD and EUR: coarser for larger amounts. */
  function PriceDigits(value: real): (d: Digits)
    ensures d.minFraction == 2
    ensures d.maxFraction in {2, 4, 8}
    ensures d.maxFraction == 2 <==> value >= 1.0
    ensures d.maxFraction == 4 <==> 0.01 <= value < 1.0
    ensures d.maxFraction == 8 <==> value < 0.01
  {
    if value >= 1.0 then Digits(2, 2)
    else if value >= 0.01 then Digits(2, 4)
    else Digits(2, 8)
  }

  /** A larger amount never gets more fraction digits than a smaller one. */
  lemma PriceDigitsMonotone(v: real, w: real)
    requires v <= w
    ensures PriceDigits(w).maxFraction <= PriceDigits(v).maxFraction
  {
  }

  /** The shared formatter with its three cached number formatters. */
  class CryptoFormatter {
    var usdDigits: Digits
    var eurDigits: Digits
    var decimalDigits: Digits

    /** Foundation's defaults: two digits for currency style, zero to three for decimal style. */
    constructor ()
      ensures usdDigits == Digits(2, 2) && eurDigits == Digits(2, 2) && decimalDigits == Digits(0, 3)
    {
      usdDigits, eurDigits, decimalDigits := Digits(2, 2), Digits(2, 2), Digits(0, 3);
    }

    method FormatUSD(value: real) returns (r: Rendering)
      modifies this`usdDigits
      ensures usdDigits == PriceDigits(value)
      ensures r == CurrencyRendering(USD, value, usdDigits)
    {
      if value >= 1.0 {
        usdDigits := Digits(2, 2);
      } else if value >= 0.01 {
        usdDigits := Digits(2, 4);
      } else {
        usdDigits := Digits(2, 8);
      }
      r := CurrencyRendering(USD, value, usdDigits);
    }

    method FormatEUR(value: real) returns (r: Rendering)
      modifies this`eurDigits
      ensures eurDigits == PriceDigits(value)
      ensures r == CurrencyRendering(EUR, value, eurDigits)
    {
      if value >= 1.0 {
        eurDigits := Digits(2, 2);
      } else if value >= 0.01 {
        eurDigits := Digits(2, 4);
      } else {
        eurDigits := Digits(2, 8);
      }
      r := CurrencyRendering(EUR, value, eurDigits);
    }

    /** `format(_:currency:)`: the same request as the currency's own method. */
    method Format(value: real, currency: Currency) returns (r: Rendering)
      modifies this`usdDigits, this`eurDigits
      ensures r == CurrencyRendering(currency, value, PriceDigits(value))
      ensures currency == USD ==> usdDigits == PriceDigits(value) && eurDigits == old(eurDigits)
      ensures currency == EUR ==> eurDigits == PriceDigits(value) && usdDigits == old(usdDigits)
    {
      match currency {
        case USD => r := FormatUSD(value);
        case EUR => r := FormatEUR(value);
      }
    }

    /** `format(value:decimalPlaces:)`: exactly `decimalPlaces` fraction digits, eight unless given. */
    method FormatDecimal(value: real, decimalPlaces: int := 8) returns (r: Rendering)
      modifies this`decimalDigits
      ensures decimalDigits == Digits(decimalPlaces, decimalPlaces)
      ensures r == DecimalRendering(value, decimalDigits)
    {
      decimalDigits := decimalDigits.(maxFraction := decimalPlaces);
      decimalDigits := decimalDigits.(minFraction := decimalPlaces);
      r := DecimalRendering(value, decimalDigits);
    }
  }
}
