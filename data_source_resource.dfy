/** The bundled data resources and the file names they are loaded from. */
module DataSources {
  import opened Common

  datatype DataSourceResource = UsdPrices | AllPrices

  function RawValue(r: DataSourceResource): (s: string)
    ensures s == "usdPrices" || s == "allPrices"
  {
    match r
    case UsdPrices => "usdPrices"
    case AllPrices => "allPrices"
  }

  /** `DataSourceResource(rawValue:)`: nil for a string that names no case. */
  function FromRaw(raw: string): (r: Option<DataSourceResource>)
    ensures r.Some? <==> raw == "usdPrices" || raw == "allPrices"
    ensures r.Some? ==> RawValue(r.value) == raw
  {
    if raw == "usdPrices" then Some(UsdPrices)
    else if raw == "allPrices" then Some(AllPrices)
    else None
  }

  function Description(r: DataSourceResource): (s: string)
    ensures s != [] && s != RawValue(r)
  {
    match r
    case UsdPrices => "USD Price Data"
    case AllPrices => "All Price Data (USD + EUR)"
  }

  function FileExtension(r: DataSourceResource): (s: string)
    ensures s == "json"
  {
    "json"
  }

  /** The raw value, a dot, and the extension. */
  function Filename(r: DataSourceResource): (s: string)
    ensures |s| == |RawValue(r)| + 5
    ensures s[..|RawValue(r)|] == RawValue(r)
    ensures s[|RawValue(r)|..] == ".json"
  {
    RawValue(r) + "." + FileExtension(r)
  }

  /** `allCases`, in declaration order. */
  function AllCases(): (cases: seq<DataSourceResource>)
    ensures |cases| == 2 && cases[0] != cases[1]
  {
    [UsdPrices, AllPrices]
  }

  /** `allCases` lists every case. */
  lemma AllCasesComplete(r: DataSourceResource)
    ensures r in AllCases()
  {
  }

  function PriceResources(): (rs: seq<DataSourceResource>)
    ensures |rs| == 2 && UsdPrices in rs && AllPrices in rs
  {
    [UsdPrices, AllPrices]
  }

  lemma RoundTrip(r: DataSourceResource)
    ensures FromRaw(RawValue(r)) == Some(r)
  {
  }

  lemma InvalidRawValue()
    ensures FromRaw("invalidResource") == None
  {
  }

  /** Distinct cases have distinct raw values, hence distinct file names. */
  lemma RawValuesDistinct(a: DataSourceResource, b: DataSourceResource)
    requires a != b
    ensures RawValue(a) != RawValue(b)
    ensures Filename(a) != Filename(b)
  {
  }

  /** The price resources are exactly the cases, with no repeats. */
  lemma PriceResourcesAreAllCases()
    ensures (set r | r in PriceResources()) == (set r | r in AllCases())
    ensures PriceResources()[0] != PriceResources()[1]
  {
  }
}
