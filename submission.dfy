/** What the form and the e-mail panel share on submission: the recipient
    list rules (`addEmail`, `removeEmail` and the Add button's guard) and the
    payload `handleSubmit` assembles from the store, the recipients, the
    attachments and the generated HTML. */
module Submission {
  import opened Common
  import opened Strings
  import opened FormTypes

  // ----- the recipient list -----

  /** The guard of `addEmail`: `currentEmail && !destinationEmails.includes(currentEmail)`. */
  predicate CanAddEmail(current: string, emails: seq<string>) {
    current != "" && current !in emails
  }

  /** The list after `addEmail`: the typed address appended when the guard
      holds, otherwise the list unchanged. */
  function AddEmailTo(emails: seq<string>, current: string): (r: seq<string>)
    ensures CanAddEmail(current, emails) ==> r == emails + [current]
    ensures !CanAddEmail(current, emails) ==> r == emails
  {
    if CanAddEmail(current, emails) then emails + [current] else emails
  }

  /** The text field after `addEmail`: cleared exactly when the address was
      added. */
  function CurrentAfterAdd(emails: seq<string>, current: string): (r: string)
    ensures r == "" <==> CanAddEmail(current, emails) || current == ""
    ensures r != "" ==> r == current
  {
    if CanAddEmail(current, emails) then "" else current
  }

  /** The list after `removeEmail(email)`: every copy of the address gone,
      the others in order. */
  function RemoveEmailFrom(emails: seq<string>, email: string): (r: seq<string>)
    ensures email !in r
    ensures forall e :: e != email ==> (e in r <==> e in emails)
  {
    Without(emails, email)
  }

  /** Removal keeps the other addresses in their order: removing from a
      split list is removing from each part. */
  lemma RemoveEmailKeepsOrder(a: seq<string>, b: seq<string>, email: string)
    ensures RemoveEmailFrom(a + b, email) == RemoveEmailFrom(a, email) + RemoveEmailFrom(b, email)
  {
    FilterAppend(a, b, Differs(email));
  }

  /** The Add button's `disabled` attribute: `!currentEmail || destinationEmails.includes(currentEmail)`. */
  predicate AddEmailDisabled(current: string, emails: seq<string>) {
    current == "" || current in emails
  }

  /** The button is disabled exactly when `addEmail` would do nothing. */
  lemma AddEmailDisabledIffNoChange(current: string, emails: seq<string>)
    ensures AddEmailDisabled(current, emails) <==> AddEmailTo(emails, current) == emails
  {
    if !AddEmailDisabled(current, emails) {
      assert |AddEmailTo(emails, current)| == |emails| + 1;
    }
  }

  /** Adding keeps the list free of duplicates. */
  lemma AddEmailKeepsDistinct(emails: seq<string>, current: string)
    requires NoDuplicates(emails)
    ensures NoDuplicates(AddEmailTo(emails, current))
  {
    if CanAddEmail(current, emails) {
      var r := emails + [current];
      forall i, j | 0 <= i < j < |r| ensures r[i] != r[j] {
        if j == |emails| {
          assert r[i] == emails[i];
        } else {
          assert r[i] == emails[i] && r[j] == emails[j];
        }
      }
    }
  }

  /** Removing keeps the list free of duplicates. */
  lemma RemoveEmailKeepsDistinct(emails: seq<string>, email: string)
    requires NoDuplicates(emails)
    ensures NoDuplicates(RemoveEmailFrom(emails, email))
  {
    FilterKeepsDistinct(emails, Differs(email));
  }

  /** Removing an address no one typed twice drops exactly one entry. */
  lemma RemoveListedEmail(emails: seq<string>, email: string)
    requires NoDuplicates(emails) && email in emails
    ensures |RemoveEmailFrom(emails, email)| == |emails| - 1
  {
    WithoutMultiset(emails, email);
    assert multiset(emails)[email] == 1 by {
      var k :| 0 <= k < |emails| && emails[k] == email;
      assert emails == emails[..k] + [email] + emails[k + 1..];
      assert email !in emails[..k] by {
        forall m | 0 <= m < k ensures emails[..k][m] != email {
          assert emails[..k][m] == emails[m];
        }
      }
      var after := emails[k + 1..];
      assert email !in after by {
        forall m | 0 <= m < |after| ensures after[m] != email {
          assert after[m] == emails[k + 1 + m];
        }
      }
    }
    assert |multiset(RemoveEmailFrom(emails, email))| == |multiset(emails)| - 1;
  }

  /** What the user does to the recipient list: type into the field, press
      Add, or remove an address. */
  datatype RecipientEvent = TypeEmail(text: string) | PressAdd | PressRemove(email: string)

  /** The list and the text field after one event. */
  function RecipientStep(emails: seq<string>, current: string, e: RecipientEvent): (seq<string>, string) {
    match e
    case TypeEmail(text) => (emails, text)
    case PressAdd => (AddEmailTo(emails, current), CurrentAfterAdd(emails, current))
    case PressRemove(email) => (RemoveEmailFrom(emails, email), current)
  }

  /** The list and the text field after a sequence of events. */
  function RunRecipients(emails: seq<string>, current: string, es: seq<RecipientEvent>): (seq<string>, string)
    decreases |es|
  {
    if |es| == 0 then (emails, current)
    else
      var next := RecipientStep(emails, current, es[0]);
      RunRecipients(next.0, next.1, es[1..])
  }

  /** Whatever the user does, the recipient list never holds an address
      twice. */
  lemma {:induction false} RecipientsStayDistinct(emails: seq<string>, current: string, es: seq<RecipientEvent>)
    requires NoDuplicates(emails)
    ensures NoDuplicates(RunRecipients(emails, current, es).0)
    decreases |es|
  {
    if |es| > 0 {
      var next := RecipientStep(emails, current, es[0]);
      match es[0] {
        case TypeEmail(_) =>
        case PressAdd => AddEmailKeepsDistinct(emails, current);
        case PressRemove(email) => RemoveEmailKeepsDistinct(emails, email);
      }
      RecipientsStayDistinct(next.0, next.1, es[1..]);
    }
  }

  // ----- the payload -----

  datatype EmailDetails = EmailDetails(to: seq<string>, replyTo: string, customMessage: string)

  datatype SitePayload = SitePayload(siteAddress: string, siteHistory: string, expectedConsignments: int)

  /** The sampling fields, nested under `samplingDetails`. */
  datatype SamplingDetails = SamplingDetails(
    samplesTaken: string,
    sampleMethod: SampleMethod,
    otherSampleMethod: Option<string>,
    sampleMethodAdditionalInfo: string,
    soilCategorization: SoilCategorization,
    otherSoilCategorization: Option<string>,
    soilCategorizationAdditionalInfo: string)

  datatype ConsignmentPayload = ConsignmentPayload(
    consignmentNumber: nat,
    materialDescription: string,
    expectedDeliveryDate: string,
    expectedDuration: string,
    expectedFrequency: string,
    expectedVolume: string,
    samplingDetails: SamplingDetails,
    analyticalSummary: seq<AnalyticalRow>)

  /** A file as the payload describes it. */
  datatype Attachment = Attachment(name: string, mimeType: string, size: nat)

  datatype Payload = Payload(
    emailDetails: EmailDetails,
    siteInformation: SitePayload,
    consignmentDetails: seq<ConsignmentPayload>,
    attachments: seq<Attachment>,
    htmlContent: string)

  /** One element of the `consignmentDetails.map((consignment, index) => ...)`. */
  function PackConsignment(number: nat, c: ConsignmentDetail): ConsignmentPayload {
    ConsignmentPayload(number, c.materialDescription, c.expectedDeliveryDate, c.expectedDuration,
      c.expectedFrequency, c.expectedVolume,
      SamplingDetails(c.samplesTaken, c.sampleMethod, c.otherSampleMethod, c.sampleMethodAdditionalInfo,
        c.soilCategorization, c.otherSoilCategorization, c.soilCategorizationAdditionalInfo),
      c.analyticalRows)
  }

  /** The record a payload element describes. */
  function UnpackConsignment(p: ConsignmentPayload): ConsignmentDetail {
    var s := p.samplingDetails;
    ConsignmentDetail(p.materialDescription, p.expectedDeliveryDate, p.expectedDuration,
      p.expectedFrequency, p.expectedVolume, s.samplesTaken, s.sampleMethod, s.otherSampleMethod,
      s.sampleMethodAdditionalInfo, s.soilCategorization, s.otherSoilCategorization,
      s.soilCategorizationAdditionalInfo, p.analyticalSummary)
  }

  /** Packing loses no field of a consignment. */
  lemma UnpackPack(number: nat, c: ConsignmentDetail)
    ensures UnpackConsignment(PackConsignment(number, c)) == c
    ensures PackConsignment(number, c).consignmentNumber == number
  {
  }

  /** The payload's consignments: one per stored record, numbered from 1. */
  function PackConsignments(ds: seq<ConsignmentDetail>): (r: seq<ConsignmentPayload>)
    ensures |r| == |ds|
    ensures forall i :: 0 <= i < |ds| ==> r[i] == PackConsignment(i + 1, ds[i])
  {
    seq(|ds|, i requires 0 <= i < |ds| => PackConsignment(i + 1, ds[i]))
  }

  function AttachmentOf(f: UploadedFile): Attachment {
    Attachment(f.name, f.mimeType, f.size)
  }

  /** `uploadedFiles.map(file => ({ name, type, size }))`. */
  function Attachments(files: seq<UploadedFile>): (r: seq<Attachment>)
    ensures |r| == |files|
    ensures forall i :: 0 <= i < |files| ==> r[i] == AttachmentOf(files[i])
  {
    seq(|files|, i requires 0 <= i < |files| => AttachmentOf(files[i]))
  }

  /** The object `handleSubmit` posts: the recipients, reply-to address and
      message as given, the site fields of the store, one element per stored
      consignment numbered from 1 that reads back to that consignment, one
      attachment per file, and the HTML. */
  function BuildPayload(to: seq<string>, replyTo: string, customMessage: string, fd: FormData,
                        files: seq<UploadedFile>, htmlContent: string): (r: Payload)
    ensures r.emailDetails.to == to && r.emailDetails.replyTo == replyTo && r.emailDetails.customMessage == customMessage
    ensures r.siteInformation.siteAddress == fd.siteAddress && r.siteInformation.siteHistory == fd.siteHistory
    ensures r.siteInformation.expectedConsignments == fd.expectedConsignments
    ensures |r.consignmentDetails| == |fd.consignmentDetails|
    ensures forall i :: 0 <= i < |fd.consignmentDetails| ==>
      r.consignmentDetails[i].consignmentNumber == i + 1 && UnpackConsignment(r.consignmentDetails[i]) == fd.consignmentDetails[i]
    ensures |r.attachments| == |files|
    ensures forall i :: 0 <= i < |files| ==>
      r.attachments[i].name == files[i].name && r.attachments[i].mimeType == files[i].mimeType && r.attachments[i].size == files[i].size
    ensures r.htmlContent == htmlContent
  {
    Payload(
      EmailDetails(to, replyTo, customMessage),
      SitePayload(fd.siteAddress, fd.siteHistory, fd.expectedConsignments),
      PackConsignments(fd.consignmentDetails),
      Attachments(files),
      htmlContent)
  }

  /** The store a payload describes. */
  function StoreOf(p: Payload): FormData {
    FormData(p.siteInformation.siteAddress, p.siteInformation.siteHistory, p.siteInformation.expectedConsignments,
      seq(|p.consignmentDetails|, i requires 0 <= i < |p.consignmentDetails| => UnpackConsignment(p.consignmentDetails[i])))
  }

  /** The payload carries the whole store: it can be read back exactly, its
      consignments are numbered 1 to n in store order, and the recipients,
      reply-to address, message, attachments and HTML pass through as
      given. */
  lemma PayloadCarriesStore(to: seq<string>, replyTo: string, customMessage: string, fd: FormData,
                            files: seq<UploadedFile>, htmlContent: string)
    ensures var p := BuildPayload(to, replyTo, customMessage, fd, files, htmlContent);
      && StoreOf(p) == fd
      && (forall i :: 0 <= i < |p.consignmentDetails| ==> p.consignmentDetails[i].consignmentNumber == i + 1)
      && p.emailDetails.to == to && p.emailDetails.replyTo == replyTo && p.emailDetails.customMessage == customMessage
      && p.htmlContent == htmlContent
      && |p.attachments| == |files|
      && (forall i :: 0 <= i < |files| ==> p.attachments[i] == Attachment(files[i].name, files[i].mimeType, files[i].size))
  {
    var p := BuildPayload(to, replyTo, customMessage, fd, files, htmlContent);
    var ds := StoreOf(p).consignmentDetails;
    assert ds == fd.consignmentDetails by {
      forall i | 0 <= i < |ds| ensures ds[i] == fd.consignmentDetails[i] {
        UnpackPack(i + 1, fd.consignmentDetails[i]);
      }
    }
  }
}
