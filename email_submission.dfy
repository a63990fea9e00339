/** The e-mail panel: its own recipient list, reply-to address and message,
    with the same add and remove rules as the form, and its own assembly of
    the submission payload. The HTML comes from the generator it is handed,
    and the files from its parent, so both are parameters here. */
module EmailSubmission {
  import opened Common
  import opened FormTypes
  import opened Submission

  class EmailSubmissionPanel {
    const formDataRef: FormDataRef
    var destinationEmails: seq<string>
    var currentEmail: string
    var customMessage: string
    var replyToEmail: string

    /** No recipient is listed twice. */
    predicate Valid()
      reads this
    {
      NoDuplicates(destinationEmails)
    }

    constructor (formDataRef: FormDataRef)
      ensures this.formDataRef == formDataRef
      ensures destinationEmails == [] && currentEmail == "" && customMessage == "" && replyToEmail == ""
      ensures Valid()
    {
      this.formDataRef := formDataRef;
      destinationEmails := [];
      currentEmail := "";
      customMessage := "";
      replyToEmail := "";
    }

    /** The Add button's `disabled` attribute. */
    predicate AddButtonDisabled()
      reads this
    {
      AddEmailDisabled(currentEmail, destinationEmails)
    }

    /** Typing into the recipient field. */
    method SetCurrentEmail(text: string)
      modifies this
      ensures currentEmail == text
      ensures destinationEmails == old(destinationEmails)
      ensures customMessage == old(customMessage) && replyToEmail == old(replyToEmail)
    {
      currentEmail := text;
    }

    /** Typing the reply-to address. */
    method SetReplyToEmail(text: string)
      modifies this
      ensures replyToEmail == text
      ensures destinationEmails == old(destinationEmails) && currentEmail == old(currentEmail)
      ensures customMessage == old(customMessage)
    {
      replyToEmail := text;
    }

    /** Typing the message. */
    method SetCustomMessage(text: string)
      modifies this
      ensures customMessage == text
      ensures destinationEmails == old(destinationEmails) && currentEmail == old(currentEmail)
      ensures replyToEmail == old(replyToEmail)
    {
      customMessage := text;
    }

    /** `addEmail()`: appends the typed address and clears the field when it
        is non-empty and not yet listed; otherwise nothing changes. */
    method AddEmail()
      requires Valid()
      modifies this
      ensures destinationEmails == AddEmailTo(old(destinationEmails), old(currentEmail))
      ensures currentEmail == CurrentAfterAdd(old(destinationEmails), old(currentEmail))
      ensures old(AddButtonDisabled()) ==> destinationEmails == old(destinationEmails) && currentEmail == old(currentEmail)
      ensures customMessage == old(customMessage) && replyToEmail == old(replyToEmail)
      ensures Valid()
    {
      AddEmailKeepsDistinct(destinationEmails, currentEmail);
      AddEmailDisabledIffNoChange(currentEmail, destinationEmails);
      if currentEmail != "" && currentEmail !in destinationEmails {
        destinationEmails := destinationEmails + [currentEmail];
        currentEmail := "";
      }
    }

    /** `removeEmail(email)`. */
    method RemoveEmail(email: string)
      requires Valid()
      modifies this
      ensures destinationEmails == RemoveEmailFrom(old(destinationEmails), email)
      ensures currentEmail == old(currentEmail)
      ensures customMessage == old(customMessage) && replyToEmail == old(replyToEmail)
      ensures Valid()
    {
      RemoveEmailKeepsDistinct(destinationEmails, email);
      destinationEmails := RemoveEmailFrom(destinationEmails, email);
    }

    /** The payload `handleSubmit` posts, given the files passed in and the
        text the supplied generator returned. */
    method HandleSubmit(uploadedFiles: seq<UploadedFile>, emailContent: string) returns (p: Payload)
      ensures p == BuildPayload(destinationEmails, replyToEmail, customMessage, formDataRef.current,
        uploadedFiles, emailContent)
      ensures StoreOf(p) == formDataRef.current && p.htmlContent == emailContent
      ensures p.emailDetails == EmailDetails(destinationEmails, replyToEmail, customMessage)
    {
      p := BuildPayload(destinationEmails, replyToEmail, customMessage, formDataRef.current, uploadedFiles, emailContent);
      PayloadCarriesStore(destinationEmails, replyToEmail, customMessage, formDataRef.current, uploadedFiles, emailContent);
    }
  }
}
