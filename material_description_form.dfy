/** The main form component: its state (the rendered consignment count, the
    open sections, the recipients, the plan image, the attached files) and
    its handlers, together with its own copy of the HTML generator, which
    adds a "Plan of Proposed Works" section after the site section. */
module MaterialDescriptionForm {
  import opened Common
  import opened Strings
  import opened FormTypes
  import opened SummaryHtml
  import FormUtils
  import opened Submission

  // ----- the consignment count -----

  /** `Math.max(1, newValue)`. */
  function ClampCount(n: int): (r: int)
    ensures r >= 1 && r >= n
    ensures r == 1 || r == n
  {
    if n < 1 then 1 else n
  }

  // ----- open sections -----

  /** `prev.includes(index) ? prev.filter(i => i !== index) : [...prev, index]`. */
  function Toggled(open: seq<int>, index: int): (r: seq<int>)
    ensures index in open ==> index !in r
    ensures index !in open ==> r == open + [index]
    ensures forall j :: j != index ==> (j in r <==> j in open)
  {
    if index in open then Without(open, index) else open + [index]
  }

  /** Toggling twice restores membership of every index, and restores the
      list itself when the index was closed. */
  lemma ToggleTwice(open: seq<int>, index: int)
    ensures forall j :: j in Toggled(Toggled(open, index), index) <==> j in open
    ensures index !in open ==> Toggled(Toggled(open, index), index) == open
  {
    if index !in open {
      var once := open + [index];
      FilterAppend(open, [index], Differs(index));
      FilterKeepsAll(open, Differs(index));
      FilterKeepsNone([index], Differs(index));
      assert Toggled(once, index) == open + [];
    }
  }

  /** Toggling keeps the list free of duplicates. */
  lemma ToggleKeepsDistinct(open: seq<int>, index: int)
    requires NoDuplicates(open)
    ensures NoDuplicates(Toggled(open, index))
  {
    if index in open {
      FilterKeepsDistinct(open, Differs(index));
    } else {
      var r := open + [index];
      forall i, j | 0 <= i < j < |r| ensures r[i] != r[j] {
        assert r[i] == open[i];
        if j < |open| {
          assert r[j] == open[j];
        }
      }
    }
  }

  // ----- attached files -----

  /** The test `file => file.name !== fileName`. */
  function NameDiffers(name: string): UploadedFile -> bool {
    (f: UploadedFile) => f.name != name
  }

  /** `uploadedFiles.filter(file => file.name !== fileName)`. */
  function RemoveFileNamed(files: seq<UploadedFile>, name: string): (r: seq<UploadedFile>)
    ensures forall f :: f in r <==> f in files && f.name != name
  {
    Filter(files, NameDiffers(name))
  }

  /** Removal keeps the remaining files in order. */
  lemma RemoveFileKeepsOrder(a: seq<UploadedFile>, b: seq<UploadedFile>, name: string)
    ensures RemoveFileNamed(a + b, name) == RemoveFileNamed(a, name) + RemoveFileNamed(b, name)
  {
    FilterAppend(a, b, NameDiffers(name));
  }

  /** Removing a name no file carries changes nothing. */
  lemma RemoveAbsentFile(files: seq<UploadedFile>, name: string)
    requires forall f :: f in files ==> f.name != name
    ensures RemoveFileNamed(files, name) == files
  {
    FilterKeepsAll(files, NameDiffers(name));
  }

  // ----- the form's own generator -----

  /** The plan URL is truthy: present and not empty. */
  predicate HasPlan(png: Option<string>) {
    png.Some? && png.value != ""
  }

  /** The plan section: the image when there is a plan, otherwise the
      sentence asking for one. */
  function PlanBlocks(png: Option<string>): seq<Block> {
    SectionHead(PlanOfProposedWorks)
    + [if HasPlan(png) then PlanImage(png.value) else Markup(NoPlan)]
    + [Markup(SectionClose)]
  }

  /** The body of the form's document: site, plan, then one section per
      stored consignment. */
  function FormBody(fd: FormData, png: Option<string>): seq<Block> {
    SiteBlocks(fd) + PlanBlocks(png) + SectionsBlocks(fd.consignmentDetails)
  }

  /** The text the component's `generateEmailContent()` returns. */
  function FormEmailContent(fd: FormData, png: Option<string>): string {
    DocumentText(FormHead, FormBody(fd, png))
  }

  /** The loop of the component's generator, in the order it appends. */
  method GenerateFormEmailContent(fd: FormData, png: Option<string>) returns (content: string)
    ensures content == FormEmailContent(fd, png)
  {
    var opening := SiteBlocks(fd) + PlanBlocks(png);
    content := HeadText(FormHead) + RenderAll(opening);
    content := AppendSections(content, fd.consignmentDetails);
    content := content + DocumentClose;
    DocumentTextSplit(FormHead, opening, SectionsBlocks(fd.consignmentDetails));
  }

  /** The site section holds no plan block. */
  lemma SiteHasNoPlan(fd: FormData)
    ensures forall b :: b in SiteBlocks(fd) ==> !PlanBlock(b)
  {
  }

  /** The body's plan blocks are those of its plan section. */
  lemma PlanBlocksOnlyInPlanSection(fd: FormData, png: Option<string>)
    ensures forall b :: PlanBlock(b) ==> (b in FormBody(fd, png) <==> b in PlanBlocks(png))
  {
    SiteHasNoPlan(fd);
    SectionsHaveNoPlan(fd.consignmentDetails);
  }

  /** The document shows an image exactly when there is a plan, and that
      image's source is the plan URL; it shows the no-plan sentence exactly
      when there is none. */
  lemma PlanImageIff(fd: FormData, png: Option<string>)
    ensures forall src :: PlanImage(src) in FormBody(fd, png) <==> HasPlan(png) && src == png.value
    ensures Markup(NoPlan) in FormBody(fd, png) <==> !HasPlan(png)
  {
    PlanBlocksOnlyInPlanSection(fd, png);
    PlanSectionShows(png);
    assert PlanBlock(Markup(NoPlan));
    assert forall src :: PlanBlock(PlanImage(src));
  }

  /** The plan section holds the image of the plan URL when there is a
      plan, and the no-plan sentence when there is none. */
  lemma PlanSectionShows(png: Option<string>)
    ensures forall src :: PlanImage(src) in PlanBlocks(png) <==> HasPlan(png) && src == png.value
    ensures Markup(NoPlan) in PlanBlocks(png) <==> !HasPlan(png)
  {
  }

  /** The form's document has the site heading, the plan heading, then one
      heading per stored consignment, numbered 1 to n. */
  lemma FormHeadings(fd: FormData, png: Option<string>)
    ensures Only(FormBody(fd, png), HeadingKind)
      == [Heading(SiteInformation), Heading(PlanOfProposedWorks)] + ConsignmentHeadings(|fd.consignmentDetails|)
  {
    var plan := PlanBlocks(png);
    OnlyAppend(SiteBlocks(fd) + plan, SectionsBlocks(fd.consignmentDetails), HeadingKind);
    OnlyAppend(SiteBlocks(fd), plan, HeadingKind);
    SiteHeadings(fd);
    SectionsHeadings(fd.consignmentDetails);
    PlanHeadings(png);
  }

  lemma PlanHeadings(png: Option<string>)
    ensures Only(PlanBlocks(png), HeadingKind) == [Heading(PlanOfProposedWorks)]
  {
    var last := [if HasPlan(png) then PlanImage(png.value) else Markup(NoPlan)] + [Markup(SectionClose)];
    assert PlanBlocks(png) == SectionHead(PlanOfProposedWorks) + last;
    OnlyAppend(SectionHead(PlanOfProposedWorks), last, HeadingKind);
    SectionHeadHeadings(PlanOfProposedWorks);
    OnlyNone(last, HeadingKind);
  }

  /** Whatever the body's text includes, the document includes. */
  lemma FormBodyTextIncluded(fd: FormData, png: Option<string>, p: string)
    requires Includes(RenderAll(FormBody(fd, png)), p)
    ensures Includes(FormEmailContent(fd, png), p)
  {
    BodyIncluded(FormHead, FormBody(fd, png));
    IncludesTransitive(FormEmailContent(fd, png), RenderAll(FormBody(fd, png)), p);
  }

  /** With a plan, the document carries the image tag with the plan URL. */
  lemma PlanImageRendered(fd: FormData, png: Option<string>)
    requires HasPlan(png)
    ensures Includes(FormEmailContent(fd, png), Render(PlanImage(png.value)))
  {
    PlanImageIff(fd, png);
    RenderedIncluded(FormBody(fd, png), PlanImage(png.value));
    FormBodyTextIncluded(fd, png, Render(PlanImage(png.value)));
  }

  /** Every stored consignment's section is in the form's document too,
      numbered by its position, even past the expected count. */
  lemma FormSectionIncluded(fd: FormData, png: Option<string>, i: nat)
    requires i < |fd.consignmentDetails|
    ensures Includes(FormEmailContent(fd, png), RenderAll(ConsignmentBlocks(i + 1, fd.consignmentDetails[i])))
  {
    SectionIncluded(SiteBlocks(fd) + PlanBlocks(png), fd.consignmentDetails, i);
    FormBodyTextIncluded(fd, png, RenderAll(ConsignmentBlocks(i + 1, fd.consignmentDetails[i])));
  }

  // ----- the component -----

  /** The component's own state, apart from the store. */
  datatype ComponentState = ComponentState(
    consignments: int,
    openSections: seq<int>,
    destinationEmails: seq<string>,
    currentEmail: string,
    customMessage: string,
    replyToEmail: string,
    excalidrawPNG: Option<string>,
    uploadedFiles: seq<UploadedFile>)

  class FormController {
    const formDataRef: FormDataRef
    var consignments: int
    var openSections: seq<int>
    var destinationEmails: seq<string>
    var currentEmail: string
    var customMessage: string
    var replyToEmail: string
    var excalidrawPNG: Option<string>
    var uploadedFiles: seq<UploadedFile>

    /** The invariants the handlers keep: at least one consignment, the store
        agreeing with the rendered count, no index open twice and no
        recipient listed twice. */
    predicate Valid()
      reads this, formDataRef
    {
      && consignments >= 1
      && formDataRef.current.expectedConsignments == consignments
      && NoDuplicates(openSections)
      && NoDuplicates(destinationEmails)
    }

    /** The component's state as one value. */
    function State(): ComponentState
      reads this
    {
      ComponentState(consignments, openSections, destinationEmails, currentEmail, customMessage,
        replyToEmail, excalidrawPNG, uploadedFiles)
    }

    constructor ()
      ensures fresh(formDataRef) && formDataRef.current == InitialFormData()
      ensures State() == ComponentState(1, [], [], "", "", "", None, [])
      ensures Valid()
    {
      formDataRef := new FormDataRef();
      consignments := 1;
      openSections := [];
      destinationEmails := [];
      currentEmail := "";
      customMessage := "";
      replyToEmail := "";
      excalidrawPNG := None;
      uploadedFiles := [];
    }

    /** `toggleSection(index)`. */
    method ToggleSection(index: int)
      requires Valid()
      modifies this
      ensures State() == old(State()).(openSections := Toggled(old(openSections), index))
      ensures Valid()
    {
      ToggleKeepsDistinct(openSections, index);
      openSections := Toggled(openSections, index);
    }

    /** `updateFormData(field, value)`, the component's copy. */
    method UpdateFormData(u: FormUtils.FormUpdate)
      modifies formDataRef
      ensures formDataRef.current == FormUtils.WithField(old(formDataRef.current), u)
      ensures !u.SetExpectedConsignments? && old(Valid()) ==> Valid()
    {
      FormUtils.UpdateFormData(formDataRef, u);
    }

    /** `updateConsignments(newValue)`: the count is clamped to at least one
        and written both to the component and to the store; the stored
        consignments are left as they are. */
    method UpdateConsignments(newValue: int)
      requires Valid()
      modifies this, formDataRef
      ensures State() == old(State()).(consignments := ClampCount(newValue))
      ensures formDataRef.current == old(formDataRef.current).(expectedConsignments := ClampCount(newValue))
      ensures Valid()
    {
      var validValue := ClampCount(newValue);
      consignments := validValue;
      UpdateFormData(FormUtils.SetExpectedConsignments(validValue));
    }

    /** The plan capture delivering an image URL. */
    method SetExcalidrawPNG(url: string)
      modifies this
      ensures State() == old(State()).(excalidrawPNG := Some(url))
    {
      excalidrawPNG := Some(url);
    }

    /** `generateEmailContent()`, the component's copy. */
    method GenerateEmailContent() returns (content: string)
      ensures content == FormEmailContent(formDataRef.current, excalidrawPNG)
    {
      content := GenerateFormEmailContent(formDataRef.current, excalidrawPNG);
    }

    /** Typing into the recipient field. */
    method SetCurrentEmail(text: string)
      modifies this
      ensures State() == old(State()).(currentEmail := text)
    {
      currentEmail := text;
    }

    /** Typing the reply-to address. */
    method SetReplyToEmail(text: string)
      modifies this
      ensures State() == old(State()).(replyToEmail := text)
    {
      replyToEmail := text;
    }

    /** Typing the message. */
    method SetCustomMessage(text: string)
      modifies this
      ensures State() == old(State()).(customMessage := text)
    {
      customMessage := text;
    }

    /** `addEmail()`. */
    method AddEmail()
      requires Valid()
      modifies this
      ensures State() == old(State()).(
        destinationEmails := AddEmailTo(old(destinationEmails), old(currentEmail)),
        currentEmail := CurrentAfterAdd(old(destinationEmails), old(currentEmail)))
      ensures Valid()
    {
      AddEmailKeepsDistinct(destinationEmails, currentEmail);
      if currentEmail != "" && currentEmail !in destinationEmails {
        destinationEmails := destinationEmails + [currentEmail];
        currentEmail := "";
      }
    }

    /** `removeEmail(email)`. */
    method RemoveEmail(email: string)
      requires Valid()
      modifies this
      ensures State() == old(State()).(destinationEmails := RemoveEmailFrom(old(destinationEmails), email))
      ensures Valid()
    {
      RemoveEmailKeepsDistinct(destinationEmails, email);
      destinationEmails := RemoveEmailFrom(destinationEmails, email);
    }

    /** `onDrop(acceptedFiles)`: the dropped files appended in order. */
    method OnDrop(acceptedFiles: seq<UploadedFile>)
      modifies this
      ensures State() == old(State()).(uploadedFiles := old(uploadedFiles) + acceptedFiles)
    {
      uploadedFiles := uploadedFiles + acceptedFiles;
    }

    /** `removeFile(fileName)`. */
    method RemoveFile(fileName: string)
      modifies this
      ensures State() == old(State()).(uploadedFiles := RemoveFileNamed(old(uploadedFiles), fileName))
    {
      uploadedFiles := RemoveFileNamed(uploadedFiles, fileName);
    }

    /** The payload `handleSubmit` posts: the recipients, the store, the
        files and the component's own HTML. */
    method HandleSubmit() returns (p: Payload)
      ensures p == BuildPayload(destinationEmails, replyToEmail, customMessage, formDataRef.current,
        uploadedFiles, FormEmailContent(formDataRef.current, excalidrawPNG))
      ensures StoreOf(p) == formDataRef.current
    {
      var emailContent := GenerateEmailContent();
      p := BuildPayload(destinationEmails, replyToEmail, customMessage, formDataRef.current, uploadedFiles, emailContent);
      PayloadCarriesStore(destinationEmails, replyToEmail, customMessage, formDataRef.current, uploadedFiles, emailContent);
    }
  }
}
