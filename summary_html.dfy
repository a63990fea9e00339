/** The HTML summary both e-mail generators build: its vocabulary of blocks
    (fixed markup, section headings, labelled paragraphs, table rows, the
    plan image), how blocks render to text, and the consignment sections,
    which both generators render identically.

    A document is a sequence of blocks; `RenderAll` concatenates their
    renderings, which is the text the generator accumulates. Properties
    about which blocks appear, and in which order, are stated on the blocks
    and carried to the text by `RenderedIncluded`. */
module SummaryHtml {
  import opened Common
  import opened Strings
  import opened FormTypes

  // ----- vocabulary -----

  /** The two document heads: the shared generator's, titled "Material
      Description Form Summary", and the form's own, with green accents and
      an empty title. */
  datatype Head = SummaryHead | FormHead

  /** The fixed pieces of markup in a document's body. */
  datatype Fixed =
    | SectionOpen
    | SectionClose
    | SamplingHeading
    | AnalyticalHeading
    | TableOpen          // the table and its header row
    | TableClose
    | NoAnalyticalData
    | NoPlan

  /** The section headings. */
  datatype Title = SiteInformation | PlanOfProposedWorks | ConsignmentNumber(k: nat)

  /** The labels of the paragraphs. */
  datatype Label =
    | SiteAddress | SiteHistory | ExpectedConsignments
    | MaterialDescription | ExpectedDeliveryDate | ExpectedDuration | ExpectedFrequency | ExpectedVolume
    | SamplesTaken | SampleMethodLabel | OtherSampleMethodLabel | SamplingAdditionalInfo
    | SoilCategorizationLabel | OtherSoilCategorizationLabel | CategorizationAdditionalInfo

  datatype Block =
    | Markup(fixed: Fixed)
    | Heading(title: Title)
    | Field(name: Label, value: string)
    | DataRow(row: AnalyticalRow)
    | PlanImage(src: string)

  datatype BlockKind = MarkupKind | HeadingKind | FieldKind | RowKind | ImageKind

  function KindOf(b: Block): BlockKind {
    match b
    case Markup(_) => MarkupKind
    case Heading(_) => HeadingKind
    case Field(_, _) => FieldKind
    case DataRow(_) => RowKind
    case PlanImage(_) => ImageKind
  }

  // ----- rendering -----

  /** Everything up to and including the `<h1>` title: the document head
      with its stylesheet. */
  function HeadText(h: Head): string {
    match h
    case SummaryHead =>
      "<html><head><style>"
      + "body { font-family: Arial, sans-serif; line-height: 1.6; color: #333; } "
      + "h1 { color: #2c3e50; border-bottom: 2px solid #3498db; padding-bottom: 10px; } "
      + "h2 { color: #2980b9; margin-top: 20px; } "
      + "table { border-collapse: collapse; width: 100%; margin-top: 10px; } "
      + "th, td { border: 1px solid #ddd; padding: 8px; text-align: left; } "
      + "th { background-color: #f2f2f2; } "
      + ".section { margin-bottom: 20px; }"
      + "</style></head><body><h1>Material Description Form Summary</h1>"
    case FormHead =>
      "<html><head><style>"
      + "body { font-family: Arial, sans-serif; line-height: 1.6; color: #333; } "
      + "h1 { color: #2c3e50; border-bottom: 2px solid #22c55e; padding-bottom: 10px; } "
      + "h2 { color: #16a34a; margin-top: 20px; } "
      + "table { border-collapse: collapse; width: 100%; margin-top: 10px; } "
      + "th, td { border: 1px solid #ddd; padding: 8px; text-align: left; } "
      + "th { background-color: #f0fdf4; } "
      + ".section { margin-bottom: 20px; }"
      + "</style></head><body><h1></h1>"
  }

  /** The closing tags of a document. */
  const DocumentClose := "</body></html>"

  /** A whole document: its head, the rendered body, the closing tags. */
  function DocumentText(h: Head, body: seq<Block>): string {
    HeadText(h) + RenderAll(body) + DocumentClose
  }

  function FixedText(f: Fixed): string {
    match f
    case SectionOpen => "<div class=\"section\">"
    case SectionClose => "</div>"
    case SamplingHeading => "<h3>Sampling Information</h3>"
    case AnalyticalHeading => "<h3>Analytical Summary</h3>"
    case TableOpen =>
      "<table><tr><th>Contaminant</th><th>Maximum (mg/kg)</th><th>Minimum (mg/kg)</th>"
      + "<th>Average (mg/kg)</th><th>Leachable (mg/L)</th></tr>"
    case TableClose => "</table>"
    case NoAnalyticalData => "<p>No analytical data available for this consignment.</p>"
    case NoPlan => "<p>No plan uploaded. Please draw a plan using the Excalidraw tool.</p>"
  }

  function TitleText(t: Title): string {
    match t
    case SiteInformation => "Site Information"
    case PlanOfProposedWorks => "Plan of Proposed Works"
    case ConsignmentNumber(k) => "Consignment " + NatText(k) + " Details"
  }

  function LabelText(l: Label): string {
    match l
    case SiteAddress => "Site Address"
    case SiteHistory => "Site History"
    case ExpectedConsignments => "Expected Consignments"
    case MaterialDescription => "Material Description"
    case ExpectedDeliveryDate => "Expected Delivery Date"
    case ExpectedDuration => "Expected Duration"
    case ExpectedFrequency => "Expected Frequency"
    case ExpectedVolume => "Expected Volume"
    case SamplesTaken => "Number of Samples Taken"
    case SampleMethodLabel => "Sample Method"
    case OtherSampleMethodLabel => "Other Sample Method"
    case SamplingAdditionalInfo => "Additional Sampling Information"
    case SoilCategorizationLabel => "Soil Categorization"
    case OtherSoilCategorizationLabel => "Other Soil Categorization"
    case CategorizationAdditionalInfo => "Additional Soil Categorization Information"
  }

  /** `<p><strong>label:</strong> value</p>`. */
  function Paragraph(l: Label, value: string): string {
    "<p><strong>" + LabelText(l) + ":</strong> " + value + "</p>"
  }

  function Cell(value: string): string {
    "<td>" + value + "</td>"
  }

  function RowText(r: AnalyticalRow): string {
    "<tr>" + Cell(r.contaminant) + Cell(r.maximum) + Cell(r.minimum)
      + Cell(r.average) + Cell(r.leachable) + "</tr>"
  }

  function Render(b: Block): string {
    match b
    case Markup(f) => FixedText(f)
    case Heading(t) => "<h2>" + TitleText(t) + "</h2>"
    case Field(l, v) => Paragraph(l, v)
    case DataRow(r) => RowText(r)
    case PlanImage(src) =>
      "<img src=\"" + src + "\" alt=\"Plan of Proposed Works\" style=\"max-width: 100%; height: auto;\">"
  }

  /** The blocks rendered one after the other. */
  function RenderAll(bs: seq<Block>): string {
    if |bs| == 0 then "" else Render(bs[0]) + RenderAll(bs[1..])
  }

  /** Rendering a concatenation concatenates the renderings. */
  lemma {:induction false} RenderAllAppend(a: seq<Block>, b: seq<Block>)
    ensures RenderAll(a + b) == RenderAll(a) + RenderAll(b)
  {
    if |a| == 0 {
      assert a + b == b;
    } else {
      assert (a + b)[1..] == a[1..] + b;
      RenderAllAppend(a[1..], b);
    }
  }

  lemma RenderOne(b: Block)
    ensures RenderAll([b]) == Render(b)
  {
    assert [b][1..] == [];
  }

  /** Every block's rendering occurs in the rendering of the whole. */
  lemma RenderedIncluded(bs: seq<Block>, b: Block)
    requires b in bs
    ensures Includes(RenderAll(bs), Render(b))
  {
    var j :| 0 <= j < |bs| && bs[j] == b;
    assert bs == bs[..j] + [b] + bs[j + 1..];
    RenderAllAppend(bs[..j] + [b], bs[j + 1..]);
    RenderAllAppend(bs[..j], [b]);
    RenderOne(b);
    IncludesInfix(RenderAll(bs[..j]), Render(b), RenderAll(bs[j + 1..]));
  }

  /** Different consignment numbers give different heading texts. */
  lemma ConsignmentTitleInjective(j: nat, k: nat)
    requires TitleText(ConsignmentNumber(j)) == TitleText(ConsignmentNumber(k))
    ensures j == k
  {
    var tj := NatText(j);
    var tk := NatText(k);
    var sj := TitleText(ConsignmentNumber(j));
    var sk := TitleText(ConsignmentNumber(k));
    assert |tj| == |tk|;
    assert tj == sj[12..12 + |tj|];
    assert tk == sk[12..12 + |tk|];
    NatTextInjective(j, k);
  }

  // ----- selecting blocks by kind -----

  /** The test "is a block of kind `k`". */
  function OfKind(k: BlockKind): Block -> bool {
    (b: Block) => KindOf(b) == k
  }

  /** The blocks of one kind, in document order. */
  function Only(bs: seq<Block>, k: BlockKind): (r: seq<Block>)
    ensures forall b :: b in r <==> b in bs && KindOf(b) == k
  {
    Filter(bs, OfKind(k))
  }

  lemma OnlyAppend(a: seq<Block>, b: seq<Block>, k: BlockKind)
    ensures Only(a + b, k) == Only(a, k) + Only(b, k)
  {
    FilterAppend(a, b, OfKind(k));
  }

  lemma OnlyFour(a: seq<Block>, b: seq<Block>, c: seq<Block>, d: seq<Block>, k: BlockKind)
    ensures Only(a + b + c + d, k) == Only(a, k) + Only(b, k) + Only(c, k) + Only(d, k)
  {
    OnlyAppend(a + b + c, d, k);
    OnlyAppend(a + b, c, k);
    OnlyAppend(a, b, k);
  }

  lemma OnlyNone(bs: seq<Block>, k: BlockKind)
    requires forall b :: b in bs ==> KindOf(b) != k
    ensures Only(bs, k) == []
  {
    FilterKeepsNone(bs, OfKind(k));
  }

  lemma OnlyAll(bs: seq<Block>, k: BlockKind)
    requires forall b :: b in bs ==> KindOf(b) == k
    ensures Only(bs, k) == bs
  {
    FilterKeepsAll(bs, OfKind(k));
  }

  // ----- the site section -----

  /** A section's opening `<div>` and its heading. */
  function SectionHead(t: Title): seq<Block> {
    [Markup(SectionOpen), Heading(t)]
  }

  /** The site paragraphs; the expected number of consignments is rendered
      as a decimal. */
  function SiteFields(fd: FormData): seq<Block> {
    [ Field(SiteAddress, fd.siteAddress),
      Field(SiteHistory, fd.siteHistory),
      Field(ExpectedConsignments, IntText(fd.expectedConsignments)) ]
  }

  function SiteBlocks(fd: FormData): seq<Block> {
    SectionHead(SiteInformation) + SiteFields(fd) + [Markup(SectionClose)]
  }

  /** The site section has one heading, "Site Information". */
  lemma SiteHeadings(fd: FormData)
    ensures Only(SiteBlocks(fd), HeadingKind) == [Heading(SiteInformation)]
  {
    OnlyAppend(SectionHead(SiteInformation) + SiteFields(fd), [Markup(SectionClose)], HeadingKind);
    OnlyAppend(SectionHead(SiteInformation), SiteFields(fd), HeadingKind);
    SectionHeadHeadings(SiteInformation);
    OnlyNone(SiteFields(fd), HeadingKind);
    OnlyNone([Markup(SectionClose)], HeadingKind);
  }

  /** The body's text occurs in the document's text. */
  lemma BodyIncluded(h: Head, body: seq<Block>)
    ensures Includes(DocumentText(h, body), RenderAll(body))
  {
    IncludesInfix(HeadText(h), RenderAll(body), DocumentClose);
  }

  /** A document whose body has two parts is its head, the first part's
      text, the second part's text and the closing tags. */
  lemma DocumentTextSplit(h: Head, a: seq<Block>, b: seq<Block>)
    ensures DocumentText(h, a + b) == HeadText(h) + RenderAll(a) + RenderAll(b) + DocumentClose
  {
    RenderAllAppend(a, b);
    RegroupMiddle(HeadText(h), RenderAll(a), RenderAll(b), DocumentClose);
  }

  /** Regrouping four texts, stated over abstract parts so that the head's
      literal text is not unfolded. */
  lemma RegroupMiddle(w: string, x: string, y: string, z: string)
    ensures w + (x + y) + z == w + x + y + z
  {
  }

  /** Every block of the body is rendered in the document's text. */
  lemma BlockIncluded(h: Head, body: seq<Block>, b: Block)
    requires b in body
    ensures Includes(DocumentText(h, body), Render(b))
  {
    RenderedIncluded(body, b);
    BodyIncluded(h, body);
    IncludesTransitive(DocumentText(h, body), RenderAll(body), Render(b));
  }

  /** The rendering of the middle of three parts occurs in the rendering of
      the whole. */
  lemma MiddleIncluded(a: seq<Block>, b: seq<Block>, c: seq<Block>)
    ensures Includes(RenderAll(a + b + c), RenderAll(b))
  {
    RenderAllAppend(a + b, c);
    RenderAllAppend(a, b);
    IncludesInfix(RenderAll(a), RenderAll(b), RenderAll(c));
  }

  // ----- one consignment section -----

  /** Description fields and the sampling fields up to the sample method. */
  function DescriptionBlocks(c: ConsignmentDetail): seq<Block> {
    [ Field(MaterialDescription, c.materialDescription),
      Field(ExpectedDeliveryDate, c.expectedDeliveryDate),
      Field(ExpectedDuration, c.expectedDuration),
      Field(ExpectedFrequency, c.expectedFrequency),
      Field(ExpectedVolume, c.expectedVolume),
      Markup(SamplingHeading),
      Field(SamplesTaken, c.samplesTaken),
      Field(SampleMethodLabel, SampleMethodText(c.sampleMethod)) ]
  }

  /** The "Other Sample Method" paragraph, only when "other" was chosen. */
  function OtherSampleMethodBlocks(c: ConsignmentDetail): seq<Block> {
    if c.sampleMethod == OtherMethod then [Field(OtherSampleMethodLabel, OptionalText(c.otherSampleMethod))] else []
  }

  function SamplingParagraphs(c: ConsignmentDetail): seq<Block> {
    DescriptionBlocks(c) + OtherSampleMethodBlocks(c)
  }

  function CategorizationBlocks(c: ConsignmentDetail): seq<Block> {
    [ Field(SamplingAdditionalInfo, c.sampleMethodAdditionalInfo),
      Field(SoilCategorizationLabel, SoilCategorizationText(c.soilCategorization)) ]
  }

  /** The "Other Soil Categorization" paragraph, only when "other" was chosen. */
  function OtherCategorizationBlocks(c: ConsignmentDetail): seq<Block> {
    if c.soilCategorization == OtherCategorization then
      [Field(OtherSoilCategorizationLabel, OptionalText(c.otherSoilCategorization))]
    else []
  }

  function CategorizationParagraphs(c: ConsignmentDetail): seq<Block> {
    CategorizationBlocks(c) + OtherCategorizationBlocks(c)
  }

  function AnalyticalOpening(c: ConsignmentDetail): seq<Block> {
    [Field(CategorizationAdditionalInfo, c.soilCategorizationAdditionalInfo), Markup(AnalyticalHeading)]
  }

  /** The blocks between a section's heading and its table. */
  function SamplingPart(c: ConsignmentDetail): seq<Block> {
    SamplingParagraphs(c) + CategorizationParagraphs(c) + AnalyticalOpening(c)
  }

  /** One table row per analytical row, in order. */
  function RowBlocks(rows: seq<AnalyticalRow>): (r: seq<Block>)
    ensures |r| == |rows|
    ensures forall i :: 0 <= i < |rows| ==> r[i] == DataRow(rows[i])
  {
    seq(|rows|, i requires 0 <= i < |rows| => DataRow(rows[i]))
  }

  /** The table when there are rows, the no-data sentence otherwise. */
  function AnalyticalBlocks(rows: seq<AnalyticalRow>): seq<Block> {
    if |rows| > 0 then [Markup(TableOpen)] + RowBlocks(rows) + [Markup(TableClose)]
    else [Markup(NoAnalyticalData)]
  }

  /** The section of consignment number `k`. */
  function ConsignmentBlocks(k: nat, c: ConsignmentDetail): seq<Block> {
    SectionHead(ConsignmentNumber(k)) + SamplingPart(c) + AnalyticalBlocks(c.analyticalRows) + [Markup(SectionClose)]
  }

  /** The sections of all consignments, numbered from 1 in list order. */
  function SectionsBlocks(ds: seq<ConsignmentDetail>): seq<Block> {
    if |ds| == 0 then []
    else SectionsBlocks(ds[..|ds| - 1]) + ConsignmentBlocks(|ds|, ds[|ds| - 1])
  }

  // ----- the sections, as the generators' loops build them -----

  /** Appending the rendering of a chunk to the text of the blocks already
      emitted gives the text of both. */
  lemma Emit(prefix: string, done: seq<Block>, chunk: seq<Block>)
    ensures prefix + RenderAll(done + chunk) == prefix + RenderAll(done) + RenderAll(chunk)
  {
    RenderAllAppend(done, chunk);
  }

  /** Appends one table row per analytical row. */
  method AppendRows(content: string, rows: seq<AnalyticalRow>) returns (out: string)
    ensures out == content + RenderAll(RowBlocks(rows))
  {
    out := content;
    var i := 0;
    while i < |rows|
      invariant 0 <= i <= |rows|
      invariant out == content + RenderAll(RowBlocks(rows[..i]))
    {
      assert RowBlocks(rows[..i + 1]) == RowBlocks(rows[..i]) + [DataRow(rows[i])];
      Emit(content, RowBlocks(rows[..i]), [DataRow(rows[i])]);
      RenderOne(DataRow(rows[i]));
      out := out + RowText(rows[i]);
      i := i + 1;
    }
    assert rows[..i] == rows;
  }

  /** Appends the table, or the no-data sentence when there is no row. */
  method AppendAnalytical(content: string, rows: seq<AnalyticalRow>) returns (out: string)
    ensures out == content + RenderAll(AnalyticalBlocks(rows))
  {
    if |rows| > 0 {
      out := content + FixedText(TableOpen);
      out := AppendRows(out, rows);
      out := out + FixedText(TableClose);
      RenderOne(Markup(TableOpen));
      RenderOne(Markup(TableClose));
      Emit(content, [Markup(TableOpen)], RowBlocks(rows));
      Emit(content, [Markup(TableOpen)] + RowBlocks(rows), [Markup(TableClose)]);
    } else {
      out := content + FixedText(NoAnalyticalData);
      RenderOne(Markup(NoAnalyticalData));
    }
  }

  /** Appends the sampling paragraphs, with "Other Sample Method" only when
      the sample method is "other". */
  method AppendSamplingParagraphs(content: string, c: ConsignmentDetail) returns (out: string)
    ensures out == content + RenderAll(SamplingParagraphs(c))
  {
    out := content + RenderAll(DescriptionBlocks(c));
    if c.sampleMethod == OtherMethod {
      RenderOne(Field(OtherSampleMethodLabel, OptionalText(c.otherSampleMethod)));
      out := out + Paragraph(OtherSampleMethodLabel, OptionalText(c.otherSampleMethod));
    }
    Emit(content, DescriptionBlocks(c), OtherSampleMethodBlocks(c));
  }

  /** Appends the categorization paragraphs, with "Other Soil
      Categorization" only when the categorization is "other". */
  method AppendCategorizationParagraphs(content: string, c: ConsignmentDetail) returns (out: string)
    ensures out == content + RenderAll(CategorizationParagraphs(c))
  {
    out := content + RenderAll(CategorizationBlocks(c));
    if c.soilCategorization == OtherCategorization {
      RenderOne(Field(OtherSoilCategorizationLabel, OptionalText(c.otherSoilCategorization)));
      out := out + Paragraph(OtherSoilCategorizationLabel, OptionalText(c.otherSoilCategorization));
    }
    Emit(content, CategorizationBlocks(c), OtherCategorizationBlocks(c));
  }

  /** Appends everything between a section's heading and its table. */
  method AppendSamplingPart(content: string, c: ConsignmentDetail) returns (out: string)
    ensures out == content + RenderAll(SamplingPart(c))
  {
    out := AppendSamplingParagraphs(content, c);
    out := AppendCategorizationParagraphs(out, c);
    Emit(content, SamplingParagraphs(c), CategorizationParagraphs(c));
    out := out + RenderAll(AnalyticalOpening(c));
    Emit(content, SamplingParagraphs(c) + CategorizationParagraphs(c), AnalyticalOpening(c));
  }

  /** One pass of the `forEach` body: appends the section of consignment
      number `k`. */
  method AppendSection(content: string, k: nat, c: ConsignmentDetail) returns (out: string)
    ensures out == content + RenderAll(ConsignmentBlocks(k, c))
  {
    var head := SectionHead(ConsignmentNumber(k));
    out := content + RenderAll(head);
    out := AppendSamplingPart(out, c);
    Emit(content, head, SamplingPart(c));
    out := AppendAnalytical(out, c.analyticalRows);
    Emit(content, head + SamplingPart(c), AnalyticalBlocks(c.analyticalRows));
    out := out + FixedText(SectionClose);
    RenderOne(Markup(SectionClose));
    Emit(content, head + SamplingPart(c) + AnalyticalBlocks(c.analyticalRows), [Markup(SectionClose)]);
  }

  lemma SectionsSnoc(ds: seq<ConsignmentDetail>, i: nat)
    requires i < |ds|
    ensures SectionsBlocks(ds[..i + 1]) == SectionsBlocks(ds[..i]) + ConsignmentBlocks(i + 1, ds[i])
  {
    var p := ds[..i + 1];
    assert p[..|p| - 1] == ds[..i];
    assert p[|p| - 1] == ds[i];
  }

  /** The `forEach` over the consignment list: sections numbered from 1. */
  method AppendSections(content: string, ds: seq<ConsignmentDetail>) returns (out: string)
    ensures out == content + RenderAll(SectionsBlocks(ds))
  {
    out := content;
    var i := 0;
    while i < |ds|
      invariant 0 <= i <= |ds|
      invariant out == content + RenderAll(SectionsBlocks(ds[..i]))
    {
      SectionsSnoc(ds, i);
      Emit(content, SectionsBlocks(ds[..i]), ConsignmentBlocks(i + 1, ds[i]));
      out := AppendSection(out, i + 1, ds[i]);
      i := i + 1;
    }
    assert ds[..i] == ds;
  }

  // ----- what the sections show -----

  /** What a section holds between its heading and its table: paragraphs
      and the two sub-headings. */
  predicate SamplingBlock(b: Block) {
    match b
    case Markup(f) => f == SamplingHeading || f == AnalyticalHeading
    case Field(_, _) => true
    case _ => false
  }

  /** What the table part of a section holds. */
  predicate AnalyticalBlock(b: Block) {
    match b
    case Markup(f) => f == TableOpen || f == TableClose || f == NoAnalyticalData
    case DataRow(_) => true
    case _ => false
  }

  /** The sampling part holds paragraphs and the two sub-headings only. */
  lemma SamplingPartBlocks(c: ConsignmentDetail)
    ensures forall b :: b in SamplingPart(c) ==> SamplingBlock(b)
  {
    DescriptionSamplingBlocks(c);
    CategorizationSamplingBlocks(c);
    assert forall b :: b in SamplingParagraphs(c) ==> SamplingBlock(b);
    assert forall b :: b in CategorizationParagraphs(c) ==> SamplingBlock(b);
  }

  lemma DescriptionSamplingBlocks(c: ConsignmentDetail)
    ensures forall b :: b in DescriptionBlocks(c) ==> SamplingBlock(b)
    ensures forall b :: b in OtherSampleMethodBlocks(c) ==> SamplingBlock(b)
  {
  }

  lemma CategorizationSamplingBlocks(c: ConsignmentDetail)
    ensures forall b :: b in CategorizationBlocks(c) ==> SamplingBlock(b)
    ensures forall b :: b in OtherCategorizationBlocks(c) ==> SamplingBlock(b)
    ensures forall b :: b in AnalyticalOpening(c) ==> SamplingBlock(b)
  {
  }

  /** The table part holds the table markup, rows and the no-data sentence
      only. */
  lemma AnalyticalPartBlocks(rows: seq<AnalyticalRow>)
    ensures forall b :: b in AnalyticalBlocks(rows) ==> AnalyticalBlock(b)
  {
    assert forall b :: b in RowBlocks(rows) ==> AnalyticalBlock(b);
  }

  /** The paragraphs of a section are those of its sampling part. */
  lemma SectionFields(k: nat, c: ConsignmentDetail)
    ensures forall b: Block :: b.Field? ==> (b in ConsignmentBlocks(k, c) <==> b in SamplingPart(c))
  {
    AnalyticalPartBlocks(c.analyticalRows);
  }

  /** The headings of sections 1 to n. */
  function ConsignmentHeadings(n: nat): (r: seq<Block>)
    ensures |r| == n
    ensures forall i :: 0 <= i < n ==> r[i] == Heading(ConsignmentNumber(i + 1))
  {
    seq(n, i requires 0 <= i < n => Heading(ConsignmentNumber(i + 1)))
  }

  lemma ConsignmentHeadingsSnoc(n: nat)
    ensures ConsignmentHeadings(n + 1) == ConsignmentHeadings(n) + [Heading(ConsignmentNumber(n + 1))]
  {
  }

  lemma SectionHeadHeadings(t: Title)
    ensures Only(SectionHead(t), HeadingKind) == [Heading(t)]
  {
    assert SectionHead(t) == [Markup(SectionOpen)] + [Heading(t)];
    OnlyAppend([Markup(SectionOpen)], [Heading(t)], HeadingKind);
    OnlyNone([Markup(SectionOpen)], HeadingKind);
    OnlyAll([Heading(t)], HeadingKind);
  }

  /** A consignment section has exactly one heading, its own. */
  lemma SectionHeadings(k: nat, c: ConsignmentDetail)
    ensures Only(ConsignmentBlocks(k, c), HeadingKind) == [Heading(ConsignmentNumber(k))]
  {
    var h := SectionHead(ConsignmentNumber(k));
    var s := SamplingPart(c);
    var t := AnalyticalBlocks(c.analyticalRows);
    var e := [Markup(SectionClose)];
    SamplingPartBlocks(c);
    AnalyticalPartBlocks(c.analyticalRows);
    OnlyAppend(h + s + t, e, HeadingKind);
    OnlyAppend(h + s, t, HeadingKind);
    OnlyAppend(h, s, HeadingKind);
    SectionHeadHeadings(ConsignmentNumber(k));
    OnlyNone(s, HeadingKind);
    OnlyNone(t, HeadingKind);
    OnlyNone(e, HeadingKind);
  }

  /** The sections have one heading each, numbered from 1 in list order. */
  lemma {:induction false} SectionsHeadings(ds: seq<ConsignmentDetail>)
    ensures Only(SectionsBlocks(ds), HeadingKind) == ConsignmentHeadings(|ds|)
  {
    if |ds| > 0 {
      var n := |ds|;
      SectionsHeadings(ds[..n - 1]);
      OnlyAppend(SectionsBlocks(ds[..n - 1]), ConsignmentBlocks(n, ds[n - 1]), HeadingKind);
      SectionHeadings(n, ds[n - 1]);
      ConsignmentHeadingsSnoc(n - 1);
    }
  }

  /** The blocks only the plan section holds: the image or the sentence
      saying there is no plan. */
  predicate PlanBlock(b: Block) {
    b.PlanImage? || b == Markup(NoPlan)
  }

  /** A consignment section holds no plan block. */
  lemma SectionHasNoPlan(k: nat, c: ConsignmentDetail)
    ensures forall b :: b in ConsignmentBlocks(k, c) ==> !PlanBlock(b)
  {
    SamplingPartBlocks(c);
    AnalyticalPartBlocks(c.analyticalRows);
  }

  /** The consignment sections hold no plan block. */
  lemma {:induction false} SectionsHaveNoPlan(ds: seq<ConsignmentDetail>)
    ensures forall b :: b in SectionsBlocks(ds) ==> !PlanBlock(b)
  {
    if |ds| > 0 {
      SectionsHaveNoPlan(ds[..|ds| - 1]);
      SectionHasNoPlan(|ds|, ds[|ds| - 1]);
    }
  }

  /** The sections of the first `n` consignments open the list of sections. */
  lemma {:induction false} SectionsPrefix(ds: seq<ConsignmentDetail>, n: nat)
    requires n <= |ds|
    ensures SectionsBlocks(ds[..n]) <= SectionsBlocks(ds)
    decreases |ds|
  {
    if n < |ds| {
      var front := ds[..|ds| - 1];
      assert front[..n] == ds[..n];
      SectionsPrefix(front, n);
    } else {
      assert ds[..n] == ds;
    }
  }

  /** Consignment `i` (from 0) is rendered as section number `i + 1`, right
      after the sections of the consignments before it. */
  lemma SectionInOrder(ds: seq<ConsignmentDetail>, i: nat)
    requires i < |ds|
    ensures SectionsBlocks(ds[..i]) + ConsignmentBlocks(i + 1, ds[i]) <= SectionsBlocks(ds)
  {
    SectionsPrefix(ds, i + 1);
    SectionsSnoc(ds, i);
  }

  /** A part that sits inside `all`, after some prefix, is rendered inside
      whatever comes before `all` followed by `all`. */
  lemma PartIncluded(pre: seq<Block>, part: seq<Block>, all: seq<Block>, site: seq<Block>)
    requires pre + part <= all
    ensures Includes(RenderAll(site + all), RenderAll(part))
  {
    var tail := all[|pre + part|..];
    assert all == pre + part + tail;
    assert site + all == (site + pre) + part + tail;
    MiddleIncluded(site + pre, part, tail);
  }

  /** The `i`-th consignment's section, numbered `i + 1`, is rendered in any
      body made of some blocks followed by the sections. */
  lemma SectionIncluded(site: seq<Block>, ds: seq<ConsignmentDetail>, i: nat)
    requires i < |ds|
    ensures Includes(RenderAll(site + SectionsBlocks(ds)), RenderAll(ConsignmentBlocks(i + 1, ds[i])))
  {
    SectionInOrder(ds, i);
    PartIncluded(SectionsBlocks(ds[..i]), ConsignmentBlocks(i + 1, ds[i]), SectionsBlocks(ds), site);
  }

  /** No paragraph of `bs` carries label `l`. */
  predicate NoFieldNamed(bs: seq<Block>, l: Label) {
    forall b :: b in bs ==> !(b.Field? && b.name == l)
  }

  lemma NoFieldNamedAppend(a: seq<Block>, b: seq<Block>, l: Label)
    requires NoFieldNamed(a, l) && NoFieldNamed(b, l)
    ensures NoFieldNamed(a + b, l)
  {
  }

  /** A label that occurs neither before nor after the middle part occurs
      in the whole exactly where it occurs in the middle. */
  lemma FieldOnlyInMiddle(pre: seq<Block>, mid: seq<Block>, post: seq<Block>, l: Label)
    requires NoFieldNamed(pre, l) && NoFieldNamed(post, l)
    ensures forall v :: Field(l, v) in pre + mid + post <==> Field(l, v) in mid
  {
  }

  lemma NoOtherSampleMethodInDescription(c: ConsignmentDetail)
    ensures NoFieldNamed(DescriptionBlocks(c), OtherSampleMethodLabel)
  {
  }

  lemma NoOtherSampleMethodInCategorization(c: ConsignmentDetail)
    ensures NoFieldNamed(CategorizationBlocks(c), OtherSampleMethodLabel)
    ensures NoFieldNamed(OtherCategorizationBlocks(c), OtherSampleMethodLabel)
  {
  }

  lemma NoOtherSampleMethodAfterIt(c: ConsignmentDetail)
    ensures NoFieldNamed(CategorizationParagraphs(c) + AnalyticalOpening(c), OtherSampleMethodLabel)
  {
    NoOtherSampleMethodInCategorization(c);
    NoFieldNamedAppend(CategorizationBlocks(c), OtherCategorizationBlocks(c), OtherSampleMethodLabel);
    assert NoFieldNamed(AnalyticalOpening(c), OtherSampleMethodLabel);
    NoFieldNamedAppend(CategorizationParagraphs(c), AnalyticalOpening(c), OtherSampleMethodLabel);
  }

  /** The "Other Sample Method" paragraph is present exactly when the sample
      method is "other", and shows the typed text, or `undefined` if none
      was typed. */
  lemma OtherSampleMethodParagraph(k: nat, c: ConsignmentDetail)
    ensures Field(OtherSampleMethodLabel, OptionalText(c.otherSampleMethod)) in ConsignmentBlocks(k, c)
      <==> c.sampleMethod == OtherMethod
    ensures forall v ::
      Field(OtherSampleMethodLabel, v) in ConsignmentBlocks(k, c) ==> v == OptionalText(c.otherSampleMethod)
  {
    SectionFields(k, c);
    NoOtherSampleMethodInDescription(c);
    NoOtherSampleMethodAfterIt(c);
    var x, y, z := SamplingParagraphs(c), CategorizationParagraphs(c), AnalyticalOpening(c);
    assert x + y + z == x + (y + z);
    var post := CategorizationParagraphs(c) + AnalyticalOpening(c);
    FieldOnlyInMiddle(DescriptionBlocks(c), OtherSampleMethodBlocks(c), post, OtherSampleMethodLabel);
  }

  lemma NoOtherCategorizationInDescription(c: ConsignmentDetail)
    ensures NoFieldNamed(DescriptionBlocks(c), OtherSoilCategorizationLabel)
  {
  }

  lemma NoOtherCategorizationInSampling(c: ConsignmentDetail)
    ensures NoFieldNamed(OtherSampleMethodBlocks(c), OtherSoilCategorizationLabel)
    ensures NoFieldNamed(CategorizationBlocks(c), OtherSoilCategorizationLabel)
  {
  }

  lemma NoOtherCategorizationBeforeIt(c: ConsignmentDetail)
    ensures NoFieldNamed(SamplingParagraphs(c) + CategorizationBlocks(c), OtherSoilCategorizationLabel)
  {
    NoOtherCategorizationInDescription(c);
    NoOtherCategorizationInSampling(c);
    NoFieldNamedAppend(DescriptionBlocks(c), OtherSampleMethodBlocks(c), OtherSoilCategorizationLabel);
    NoFieldNamedAppend(SamplingParagraphs(c), CategorizationBlocks(c), OtherSoilCategorizationLabel);
  }

  lemma NoOtherCategorizationAfterIt(c: ConsignmentDetail)
    ensures NoFieldNamed(AnalyticalOpening(c), OtherSoilCategorizationLabel)
  {
  }

  /** The "Other Soil Categorization" paragraph is present exactly when the
      categorization is "other", and shows the typed text, or `undefined`
      if none was typed. */
  lemma OtherCategorizationParagraph(k: nat, c: ConsignmentDetail)
    ensures Field(OtherSoilCategorizationLabel, OptionalText(c.otherSoilCategorization)) in ConsignmentBlocks(k, c)
      <==> c.soilCategorization == OtherCategorization
    ensures forall v ::
      Field(OtherSoilCategorizationLabel, v) in ConsignmentBlocks(k, c) ==> v == OptionalText(c.otherSoilCategorization)
  {
    SectionFields(k, c);
    NoOtherCategorizationBeforeIt(c);
    NoOtherCategorizationAfterIt(c);
    var x, y, z := SamplingParagraphs(c), CategorizationBlocks(c), OtherCategorizationBlocks(c);
    assert x + y + z == x + (y + z);
    var pre := SamplingParagraphs(c) + CategorizationBlocks(c);
    FieldOnlyInMiddle(pre, OtherCategorizationBlocks(c), AnalyticalOpening(c), OtherSoilCategorizationLabel);
  }

  /** The rows of a table are the blocks between its opening and closing
      markup, whatever rows they are. */
  lemma RowsBetweenTableMarkup(rb: seq<Block>)
    requires forall b :: b in rb ==> KindOf(b) == RowKind
    ensures Only([Markup(TableOpen)] + rb + [Markup(TableClose)], RowKind) == rb
  {
    OnlyAppend([Markup(TableOpen)] + rb, [Markup(TableClose)], RowKind);
    OnlyAppend([Markup(TableOpen)], rb, RowKind);
    OnlyNone([Markup(TableOpen)], RowKind);
    OnlyNone([Markup(TableClose)], RowKind);
    OnlyAll(rb, RowKind);
  }

  lemma TableRows(rows: seq<AnalyticalRow>)
    ensures Only(AnalyticalBlocks(rows), RowKind) == RowBlocks(rows)
  {
    if |rows| > 0 {
      RowsBetweenTableMarkup(RowBlocks(rows));
    } else {
      OnlyNone(AnalyticalBlocks(rows), RowKind);
    }
  }

  /** The rows of a section's table are exactly the consignment's analytical
      rows, in order. */
  lemma SectionRows(k: nat, c: ConsignmentDetail)
    ensures Only(ConsignmentBlocks(k, c), RowKind) == RowBlocks(c.analyticalRows)
  {
    var rows := c.analyticalRows;
    var h := SectionHead(ConsignmentNumber(k));
    var s := SamplingPart(c);
    var t := AnalyticalBlocks(rows);
    var e := [Markup(SectionClose)];
    SamplingPartBlocks(c);
    OnlyAppend(h + s + t, e, RowKind);
    OnlyAppend(h + s, t, RowKind);
    OnlyAppend(h, s, RowKind);
    OnlyNone(h, RowKind);
    OnlyNone(s, RowKind);
    OnlyNone(e, RowKind);
    TableRows(rows);
  }

  /** A section holds the table when the consignment has rows and the
      no-data sentence when it has none — never both. */
  lemma TableOrNoData(k: nat, c: ConsignmentDetail)
    ensures Markup(TableOpen) in ConsignmentBlocks(k, c) <==> |c.analyticalRows| > 0
    ensures Markup(NoAnalyticalData) in ConsignmentBlocks(k, c) <==> |c.analyticalRows| == 0
  {
    SamplingPartBlocks(c);
  }
}
