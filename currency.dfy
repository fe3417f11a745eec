/** Conversion of catalogue prices (US dollars) to naira and naira display
    strings (ag-gearstore/src/lib/currency.ts). */
module Currency {

  /** The fixed conversion rate. */
  const UsdToNairaRate: real := 1600.0

  const NairaSign: char := '₦'

  /** `convertToNaira`: dividing the result by the rate gives the input back. */
  function ConvertToNaira(usd: real): (naira: real)
    ensures naira / UsdToNairaRate == usd
  {
    usd * UsdToNairaRate
  }

  /** Conversion distributes over sums (a cart total converts line by line). */
  lemma ConvertAdditive(x: real, y: real)
    ensures ConvertToNaira(x + y) == ConvertToNaira(x) + ConvertToNaira(y)
  {
  }

  /** Conversion preserves and reflects the order of amounts, and maps 0 to 0. */
  lemma ConvertMonotone(x: real, y: real)
    ensures x <= y <==> ConvertToNaira(x) <= ConvertToNaira(y)
    ensures ConvertToNaira(0.0) == 0.0
  {
  }

  /** `formatNaira`: the naira sign followed by the locale rendering of the
      amount. `Number.prototype.toLocaleString` depends on the runtime's
      locale, so it is a parameter. */
  function FormatNaira(toLocaleString: real -> string, amount: real): (s: string)
    ensures |s| >= 1 && s[0] == NairaSign && s[1..] == toLocaleString(amount)
  {
    [NairaSign] + toLocaleString(amount)
  }

  /** `formatPriceInNaira` is formatting after conversion. */
  function FormatPriceInNaira(toLocaleString: real -> string, usd: real): (s: string)
    ensures s == FormatNaira(toLocaleString, ConvertToNaira(usd))
  {
    [NairaSign] + toLocaleString(usd * UsdToNairaRate)
  }
}
