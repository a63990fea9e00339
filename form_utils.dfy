/** The shared form utilities: `updateFormData`, which replaces one field of
    the store behind the form reference, and `generateEmailContent`, which
    renders the store as the HTML summary e-mailed to the operator. */
module FormUtils {
  import opened Common
  import opened Strings
  import opened FormTypes
  import opened SummaryHtml

  // ----- updateFormData -----

  /** The fields of the store, as the `field` argument names them. */
  datatype FormField = SiteAddressField | SiteHistoryField | ExpectedConsignmentsField | ConsignmentDetailsField

  /** A value that one of those fields holds. */
  datatype FieldValue =
    | TextValue(text: string)
    | CountValue(count: int)
    | DetailsValue(details: seq<ConsignmentDetail>)

  /** A well-typed call `updateFormData(ref, field, value)`. */
  datatype FormUpdate =
    | SetSiteAddress(address: string)
    | SetSiteHistory(history: string)
    | SetExpectedConsignments(count: int)
    | SetConsignmentDetails(details: seq<ConsignmentDetail>)

  function UpdatedField(u: FormUpdate): FormField {
    match u
    case SetSiteAddress(_) => SiteAddressField
    case SetSiteHistory(_) => SiteHistoryField
    case SetExpectedConsignments(_) => ExpectedConsignmentsField
    case SetConsignmentDetails(_) => ConsignmentDetailsField
  }

  function UpdatedValue(u: FormUpdate): FieldValue {
    match u
    case SetSiteAddress(a) => TextValue(a)
    case SetSiteHistory(h) => TextValue(h)
    case SetExpectedConsignments(n) => CountValue(n)
    case SetConsignmentDetails(ds) => DetailsValue(ds)
  }

  /** `formData[field]`. */
  function GetField(fd: FormData, f: FormField): FieldValue {
    match f
    case SiteAddressField => TextValue(fd.siteAddress)
    case SiteHistoryField => TextValue(fd.siteHistory)
    case ExpectedConsignmentsField => CountValue(fd.expectedConsignments)
    case ConsignmentDetailsField => DetailsValue(fd.consignmentDetails)
  }

  /** Two stores that agree on every field are the same store. */
  lemma FormDataByFields(a: FormData, b: FormData)
    requires forall f :: GetField(a, f) == GetField(b, f)
    ensures a == b
  {
    assert GetField(a, SiteAddressField) == GetField(b, SiteAddressField);
    assert GetField(a, SiteHistoryField) == GetField(b, SiteHistoryField);
    assert GetField(a, ExpectedConsignmentsField) == GetField(b, ExpectedConsignmentsField);
    assert GetField(a, ConsignmentDetailsField) == GetField(b, ConsignmentDetailsField);
  }

  /** `{ ...fd, [field]: value }`: the named field takes the new value and
      every other field keeps its old one. */
  function WithField(fd: FormData, u: FormUpdate): (r: FormData)
    ensures GetField(r, UpdatedField(u)) == UpdatedValue(u)
    ensures forall f :: f != UpdatedField(u) ==> GetField(r, f) == GetField(fd, f)
  {
    match u
    case SetSiteAddress(a) => fd.(siteAddress := a)
    case SetSiteHistory(h) => fd.(siteHistory := h)
    case SetExpectedConsignments(n) => fd.(expectedConsignments := n)
    case SetConsignmentDetails(ds) => fd.(consignmentDetails := ds)
  }

  /** Writing a field twice keeps only the second write. */
  lemma WithFieldOverwrites(fd: FormData, u: FormUpdate, v: FormUpdate)
    requires UpdatedField(u) == UpdatedField(v)
    ensures WithField(WithField(fd, u), v) == WithField(fd, v)
  {
    forall f ensures GetField(WithField(WithField(fd, u), v), f) == GetField(WithField(fd, v), f) {
    }
    FormDataByFields(WithField(WithField(fd, u), v), WithField(fd, v));
  }

  /** Writes to different fields commute. */
  lemma WithFieldCommutes(fd: FormData, u: FormUpdate, v: FormUpdate)
    requires UpdatedField(u) != UpdatedField(v)
    ensures WithField(WithField(fd, u), v) == WithField(WithField(fd, v), u)
  {
    forall f ensures GetField(WithField(WithField(fd, u), v), f) == GetField(WithField(WithField(fd, v), u), f) {
    }
    FormDataByFields(WithField(WithField(fd, u), v), WithField(WithField(fd, v), u));
  }

  /** `updateFormData(formDataRef, field, value)`: replaces the referenced
      store by a copy with one field changed. */
  method UpdateFormData(formDataRef: FormDataRef, u: FormUpdate)
    modifies formDataRef
    ensures formDataRef.current == WithField(old(formDataRef.current), u)
  {
    var fd := formDataRef.current;
    match u {
      case SetSiteAddress(a) => formDataRef.current := fd.(siteAddress := a);
      case SetSiteHistory(h) => formDataRef.current := fd.(siteHistory := h);
      case SetExpectedConsignments(n) => formDataRef.current := fd.(expectedConsignments := n);
      case SetConsignmentDetails(ds) => formDataRef.current := fd.(consignmentDetails := ds);
    }
  }


  // ----- generateEmailContent -----

  /** The summary's body, as blocks: the site section, then one section per
      stored consignment. */
  function SummaryBody(fd: FormData): seq<Block> {
    SiteBlocks(fd) + SectionsBlocks(fd.consignmentDetails)
  }

  /** The text `generateEmailContent(fd)` returns. */
  function EmailContent(fd: FormData): string {
    DocumentText(SummaryHead, SummaryBody(fd))
  }

  /** `generateEmailContent(formData)`: the head and site section, then the
      loop over the consignments, then the closing tags. */
  method GenerateEmailContent(fd: FormData) returns (content: string)
    ensures content == EmailContent(fd)
  {
    content := HeadText(SummaryHead) + RenderAll(SiteBlocks(fd));
    content := AppendSections(content, fd.consignmentDetails);
    content := content + DocumentClose;
    DocumentTextSplit(SummaryHead, SiteBlocks(fd), SectionsBlocks(fd.consignmentDetails));
  }

  /** The summary has one heading for the site and then exactly one per
      stored consignment, numbered 1 to n in list order. */
  lemma SummaryHeadings(fd: FormData)
    ensures Only(SummaryBody(fd), HeadingKind)
      == [Heading(SiteInformation)] + ConsignmentHeadings(|fd.consignmentDetails|)
  {
    OnlyAppend(SiteBlocks(fd), SectionsBlocks(fd.consignmentDetails), HeadingKind);
    SiteHeadings(fd);
    SectionsHeadings(fd.consignmentDetails);
  }

  /** Whatever the body's text includes, the summary text includes. */
  lemma BodyTextIncluded(fd: FormData, p: string)
    requires Includes(RenderAll(SummaryBody(fd)), p)
    ensures Includes(EmailContent(fd), p)
  {
    BodyIncluded(SummaryHead, SummaryBody(fd));
    IncludesTransitive(EmailContent(fd), RenderAll(SummaryBody(fd)), p);
  }

  lemma SiteFieldsInBody(fd: FormData)
    ensures Includes(RenderAll(SummaryBody(fd)), Paragraph(SiteAddress, fd.siteAddress))
    ensures Includes(RenderAll(SummaryBody(fd)), Paragraph(SiteHistory, fd.siteHistory))
    ensures Includes(RenderAll(SummaryBody(fd)), Paragraph(ExpectedConsignments, IntText(fd.expectedConsignments)))
  {
    var body := SummaryBody(fd);
    assert Field(SiteAddress, fd.siteAddress) in body;
    assert Field(SiteHistory, fd.siteHistory) in body;
    assert Field(ExpectedConsignments, IntText(fd.expectedConsignments)) in body;
    RenderedIncluded(body, Field(SiteAddress, fd.siteAddress));
    RenderedIncluded(body, Field(SiteHistory, fd.siteHistory));
    RenderedIncluded(body, Field(ExpectedConsignments, IntText(fd.expectedConsignments)));
  }

  /** The site paragraphs show the stored values verbatim. */
  lemma SiteFieldsVerbatim(fd: FormData)
    ensures Includes(EmailContent(fd), Paragraph(SiteAddress, fd.siteAddress))
    ensures Includes(EmailContent(fd), Paragraph(SiteHistory, fd.siteHistory))
    ensures Includes(EmailContent(fd), Paragraph(ExpectedConsignments, IntText(fd.expectedConsignments)))
  {
    SiteFieldsInBody(fd);
    BodyTextIncluded(fd, Paragraph(SiteAddress, fd.siteAddress));
    BodyTextIncluded(fd, Paragraph(SiteHistory, fd.siteHistory));
    BodyTextIncluded(fd, Paragraph(ExpectedConsignments, IntText(fd.expectedConsignments)));
  }

  /** Every stored consignment's section appears in the text, numbered by
      its position in the list. */
  lemma ConsignmentSectionIncluded(fd: FormData, i: nat)
    requires i < |fd.consignmentDetails|
    ensures Includes(EmailContent(fd), RenderAll(ConsignmentBlocks(i + 1, fd.consignmentDetails[i])))
  {
    SectionIncluded(SiteBlocks(fd), fd.consignmentDetails, i);
    BodyTextIncluded(fd, RenderAll(ConsignmentBlocks(i + 1, fd.consignmentDetails[i])));
  }
}
