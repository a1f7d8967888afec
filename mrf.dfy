/** The parts of the Transparency-in-Coverage files that the code reads: the
    in-network rate file and the table-of-contents (index) file. A member absent from the JSON is `None`; the accessor functions
    apply the defaults that the Python code passes to `dict.get`. Numbers
    (rates, group ids, references) are exact decimals. */
module Mrf {
  import opened Wrappers
  import Text

  /** An NPI as the file writes it: a string or a JSON integer. */
  datatype NpiValue = NpiText(text: string) | NpiNumber(number: int)

  /** `str(npi)`. */
  function NpiString(v: NpiValue): string {
    match v
    case NpiText(t) => t
    case NpiNumber(n) => Text.IntToString(n)
  }

  /** The `tin` member of a provider group: an object, which may hold a
      `value`, or any other JSON value. */
  datatype TinField = TinObject(value: Option<string>) | TinOther

  datatype ProviderGroup = ProviderGroup(npi: Option<seq<NpiValue>>, tin: Option<TinField>) {

    function Npis(): seq<NpiValue> { npi.GetOr([]) }

    /** `tin_info.get("value") if isinstance(tin_info, dict) else None`, where a
        missing `tin` reads as the empty object. */
    function TinValue(): Option<string> {
      match tin
      case None => None
      case Some(TinObject(v)) => v
      case Some(TinOther) => None
    }
  }

  datatype ProviderReference = ProviderReference(
    providerGroupId: Option<real>,
    providerGroups: Option<seq<ProviderGroup>>)
  {
    function Groups(): seq<ProviderGroup> { providerGroups.GetOr([]) }
  }

  datatype NegotiatedPrice = NegotiatedPrice(
    negotiatedRate: Option<real>,
    negotiatedType: Option<string>,
    billingClass: Option<string>,
    serviceCode: Option<seq<string>>)
  {
    function Type(): string { negotiatedType.GetOr("") }

    function Class(): string { billingClass.GetOr("") }

    /** `service_codes[0] if service_codes else None`. */
    function PlaceOfService(): Option<string> {
      match serviceCode
      case None => None
      case Some(codes) => if codes == [] then None else Some(codes[0])
    }
  }

  datatype NegotiatedRate = NegotiatedRate(
    providerReferences: Option<seq<real>>,
    negotiatedPrices: Option<seq<NegotiatedPrice>>)
  {
    function Refs(): seq<real> { providerReferences.GetOr([]) }

    function Prices(): seq<NegotiatedPrice> { negotiatedPrices.GetOr([]) }
  }

  datatype InNetworkItem = InNetworkItem(
    billingCode: Option<string>,
    billingCodeType: Option<string>,
    negotiatedRates: Option<seq<NegotiatedRate>>)
  {
    function Code(): string { billingCode.GetOr("") }

    function CodeType(): string { billingCodeType.GetOr("CPT") }

    function Rates(): seq<NegotiatedRate> { negotiatedRates.GetOr([]) }
  }

  datatype MrfDoc = MrfDoc(
    reportingEntityName: Option<string>,
    lastUpdatedOn: Option<string>,
    providerReferences: Option<seq<ProviderReference>>,
    inNetwork: Option<seq<InNetworkItem>>)
  {
    function References(): seq<ProviderReference> { providerReferences.GetOr([]) }

    function Items(): seq<InNetworkItem> { inNetwork.GetOr([]) }
  }

  /** One `in_network_files` entry of an index. */
  datatype FileInfo = FileInfo(location: Option<string>, description: Option<string>) {
    function Location(): string { location.GetOr("") }

    function Description(): string { description.GetOr("") }
  }

  datatype ReportingStructure = ReportingStructure(inNetworkFiles: Option<seq<FileInfo>>) {
    function Files(): seq<FileInfo> { inNetworkFiles.GetOr([]) }
  }

  /** An index file: `reporting_structure`, and the top-level
      `in_network_files` some payers use instead. */
  datatype IndexDoc = IndexDoc(
    reportingStructure: Option<seq<ReportingStructure>>,
    inNetworkFiles: Option<seq<FileInfo>>)
  {
    function Structures(): seq<ReportingStructure> { reportingStructure.GetOr([]) }

    function TopLevelFiles(): seq<FileInfo> { inNetworkFiles.GetOr([]) }
  }
}
