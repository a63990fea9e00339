/** The records the Surplus Soil Information Sheet keeps: a contaminant row,
    one consignment's details, the site-level form data held behind a
    mutable reference, and the uploaded-file descriptors. */
module FormTypes {
  import opened Common
  import opened Strings

  /** One contaminant's reported concentrations; the values are the raw
      text typed into the table. */
  datatype AnalyticalRow = AnalyticalRow(
    id: string,
    contaminant: string,
    maximum: string,
    minimum: string,
    average: string,
    leachable: string)

  /** The sample-method radio group; `Unselected` is the initial "". */
  datatype SampleMethod = Unselected | InSitu | Stockpiles | OtherMethod

  /** The value stored for a sample method, as the radio group writes it. */
  function SampleMethodText(m: SampleMethod): (r: string)
    ensures r == "other" <==> m == OtherMethod
  {
    match m
    case Unselected => ""
    case InSitu => "inSitu"
    case Stockpiles => "stockpiles"
    case OtherMethod => "other"
  }

  /** The soil-categorization radio group; `Uncategorized` is the initial "". */
  datatype SoilCategorization = Uncategorized | HighestConcentration | Ucl95 | OtherCategorization

  function SoilCategorizationText(c: SoilCategorization): (r: string)
    ensures r == "other" <==> c == OtherCategorization
  {
    match c
    case Uncategorized => ""
    case HighestConcentration => "highestConcentration"
    case Ucl95 => "95UCL"
    case OtherCategorization => "other"
  }

  /** One consignment's record. The two "other" texts are absent until the
      user types into them. */
  datatype ConsignmentDetail = ConsignmentDetail(
    materialDescription: string,
    expectedDeliveryDate: string,
    expectedDuration: string,
    expectedFrequency: string,
    expectedVolume: string,
    samplesTaken: string,
    sampleMethod: SampleMethod,
    otherSampleMethod: Option<string>,
    sampleMethodAdditionalInfo: string,
    soilCategorization: SoilCategorization,
    otherSoilCategorization: Option<string>,
    soilCategorizationAdditionalInfo: string,
    analyticalRows: seq<AnalyticalRow>)

  /** The defaults a consignment editor starts from when the store has no
      record at its index. */
  function EmptyConsignment(): ConsignmentDetail {
    ConsignmentDetail("", "", "", "", "", "", Unselected, None, "", Uncategorized, None, "", [])
  }

  /** The form-state store. */
  datatype FormData = FormData(
    siteAddress: string,
    siteHistory: string,
    expectedConsignments: int,
    consignmentDetails: seq<ConsignmentDetail>)

  function InitialFormData(): FormData {
    FormData("", "", 1, [])
  }

  /** The mutable reference (`useRef`) through which every component reads
      and writes the store. */
  class FormDataRef {
    var current: FormData

    constructor ()
      ensures current == InitialFormData()
      ensures current.siteAddress == "" && current.siteHistory == ""
      ensures current.expectedConsignments == 1 && current.consignmentDetails == []
    {
      current := InitialFormData();
    }
  }

  /** A browser `File` as far as the form looks at it. */
  datatype UploadedFile = UploadedFile(name: string, mimeType: string, size: nat)

  /** How a template literal renders an optional text: `undefined` when it
      was never set. */
  function OptionalText(o: Option<string>): string {
    match o
    case None => "undefined"
    case Some(s) => s
  }

  /** The contaminants every new consignment starts with. */
  const DefaultContaminants: seq<string> :=
    ["Arsenic", "Cadmium", "Copper", "Chromium", "Mercury", "Nickel", "Zinc", "Asbestos P/A"]

  /** The catalog the contaminant search offers: the defaults first. */
  const PredefinedContaminants: seq<string> := DefaultContaminants + [
    "Barium", "Beryllium", "Boron", "Manganese", "Selenium", "Friable Asbestos", "Non-friable Asbestos",
    "Benzene", "Toluene", "Ethyl benzene", "Xylene", "TPH C7 - C14", "TPH C10- C14", "TPH C15 - C36",
    "Naphthalene", "Phenols (total)", "BaP (eq)", "Total DDT", "Chlordane", "Dieldrin", "Endrin", "PCBs"]
}
