# Surplus Soil Information Sheet — a Dafny model

This project models the client-side core of the soilhub material description
form. A site contact uses the form to describe surplus soil: the site, a number
of consignments, and for each consignment its description, sampling details and
a table of analytical results per contaminant. The form is then e-mailed as an
HTML summary together with a JSON payload. The model covers:

- **The shared store** (`FormTypes`, `FormUtils`): the `formDataRef` record
  (site address, site history, expected consignments, consignment list) and
  `updateFormData`, a one-key spread update. It is modelled as a lens on typed
  fields and proved to overwrite and commute the way a record update should.
- **The HTML summary** (`SummaryHtml`, `FormUtils`, `MaterialDescriptionForm`):
  both copies of `generateEmailContent`. The utility copy has a blue head. The
  component copy has a green head, an empty title and an extra "Plan of
  Proposed Works" section. Each document is a head, a sequence of typed blocks
  and a closing tag. The loops that append text are methods proved equal to the
  rendering of those blocks. The lemmas state what the text shows:
  - one heading per section, numbered 1..n in store order;
  - every section's text occurs in the document, and the site fields are copied
    verbatim;
  - the "Other …" paragraphs appear exactly when "other" is chosen, and show
    `undefined` when nothing was typed;
  - the table appears exactly when rows exist, otherwise the no-data sentence;
  - the plan image appears exactly when the PNG URL is truthy.
- **A consignment editor** (`ConsignmentDetails`): local state initialised from
  the stored record, `updateLocalState` writing each change back into the
  store, the seeding effect, and the update, remove and add row callbacks. The
  lemmas cover:
  - row numbering: seeded and added rows get ids "1", "2", …, and updates
    preserve the numbering;
  - the store write-back, read back by a remounted editor;
  - the collision that removing row "1" and then adding a row produces: two
    rows end up with the same id.
- **The analytical table** (`AnalyticalSummaryTable`):
  - the case-insensitive contaminant search, with no suggestions for a blank
    query;
  - the Add button guard: it is disabled exactly when adding would repeat a
    name;
  - clicking a suggestion, which skips that guard and can repeat a name.
- **The site fields and the count stepper** (`MaterialDescription`): the
  `parseInt(value) || 1` and `Math.max(1, n)` rules. The count never drops
  below one.
- **Recipients and submission** (`Submission`, `EmailSubmission`,
  `MaterialDescriptionForm`):
  - `addEmail`/`removeEmail` and the Add button's `disabled` rule; the list
    never holds an address twice;
  - the payload `handleSubmit` builds, which carries the whole store (it
    unpacks back to it) and numbers consignments from 1;
  - `toggleSection`, `onDrop` and `removeFile`.

Stateful components are classes whose methods state the component's whole new
state and the store's new contents. The store is a `FormDataRef` object shared
by the components.

## Model

| member | source | states |
|---|---|---|
| FormTypes.FormDataRef.constructor | src/components/material-description-form.tsx:73-78 | the reference starts as the empty store: no address, no history, one expected consignment and no consignment records |
| FormTypes.SampleMethodText | src/components/SamplingDetails.tsx:42-44 | the stored sample-method text is "other" exactly for the "other" choice |
| FormTypes.SoilCategorizationText | src/components/SamplingDetails.tsx:85-87 | the stored categorization text is "other" exactly for the "other" choice |
| FormUtils.WithField | src/utils/formUtils.ts:99-104 | the updated key holds the new value and every other key is unchanged |
| FormUtils.FormDataByFields | src/utils/formUtils.ts:99-104 | two stores agreeing on every key are equal, so the lens above determines the result |
| FormUtils.WithFieldOverwrites | src/utils/formUtils.ts:99-104 | writing a key twice keeps only the second write |
| FormUtils.WithFieldCommutes | src/utils/formUtils.ts:99-104 | writes to different keys commute |
| FormUtils.UpdateFormData | src/utils/formUtils.ts:99-104 | the reference's record is replaced by the one-key update of the old record |
| FormUtils.GenerateEmailContent | src/utils/formUtils.ts:1-97 | the appended text is the summary head, the site section, one section per stored consignment in order, and the closing tags |
| FormUtils.SummaryHeadings | src/utils/formUtils.ts:18-29 | the summary's headings are "Site Information" then "Consignment i Details" for i = 1..n, in store order |
| FormUtils.BodyTextIncluded | src/utils/formUtils.ts:1-97 | any text inside the rendered body is inside the e-mail |
| FormUtils.SiteFieldsInBody | src/utils/formUtils.ts:18-23 | the three site paragraphs occur in the rendered body |
| FormUtils.SiteFieldsVerbatim | src/utils/formUtils.ts:18-23 | the e-mail shows the site address, history and expected count verbatim |
| FormUtils.ConsignmentSectionIncluded | src/utils/formUtils.ts:26-89 | the section of stored consignment i, titled number i+1, occurs in the e-mail |
| SummaryHtml.RenderAllAppend | src/utils/formUtils.ts:26-89 | appending blocks appends their text |
| SummaryHtml.RenderedIncluded | src/utils/formUtils.ts:26-89 | each block's text occurs in the text of a body holding it |
| SummaryHtml.ConsignmentTitleInjective | src/utils/formUtils.ts:29 | different consignment numbers give different section titles |
| SummaryHtml.Only | src/utils/formUtils.ts:1-97 | selecting blocks by kind keeps exactly the blocks of that kind |
| SummaryHtml.OnlyAppend | src/utils/formUtils.ts:1-97 | selection distributes over concatenation, so document order is kept |
| SummaryHtml.SiteHeadings | src/utils/formUtils.ts:18-23 | the site section has the single heading "Site Information" |
| SummaryHtml.BodyIncluded | src/utils/formUtils.ts:1-97 | the body's text sits between the head and the closing tags |
| SummaryHtml.DocumentTextSplit | src/utils/formUtils.ts:1-97 | a two-part body renders as head, first part, second part, closing tags |
| SummaryHtml.BlockIncluded | src/utils/formUtils.ts:1-97 | every block of the body is rendered in the document |
| SummaryHtml.AppendRows | src/utils/formUtils.ts:71-81 | the loop appends one table row per analytical row, in order |
| SummaryHtml.AppendAnalytical | src/utils/formUtils.ts:59-86 | it appends the table when rows exist, and the no-data sentence otherwise |
| SummaryHtml.AppendSamplingParagraphs | src/utils/formUtils.ts:27-43 | it appends the description and sampling paragraphs, with "Other Sample Method" only when the method is "other" |
| SummaryHtml.AppendCategorizationParagraphs | src/utils/formUtils.ts:45-52 | it appends the categorization paragraphs, with "Other Soil Categorization" only for "other" |
| SummaryHtml.AppendSamplingPart | src/utils/formUtils.ts:27-57 | it appends everything from the description to the "Analytical Summary" sub-heading |
| SummaryHtml.AppendSection | src/utils/formUtils.ts:27-88 | one `forEach` pass appends exactly the section of consignment k |
| SummaryHtml.SectionsSnoc | src/utils/formUtils.ts:26-89 | the sections of i+1 consignments are those of i followed by section number i+1 |
| SummaryHtml.AppendSections | src/utils/formUtils.ts:26-89 | the loop appends the sections of all consignments, numbered from 1 in store order |
| SummaryHtml.SamplingPartBlocks | src/utils/formUtils.ts:27-57 | the part before the table holds only paragraphs and the two sub-headings |
| SummaryHtml.AnalyticalPartBlocks | src/utils/formUtils.ts:59-86 | the table part holds only table markup, rows and the no-data sentence |
| SummaryHtml.SectionFields | src/utils/formUtils.ts:27-88 | a section's paragraphs are those of its sampling part |
| SummaryHtml.ConsignmentHeadings | src/utils/formUtils.ts:29 | the headings list has n entries, the i-th naming consignment i+1 |
| SummaryHtml.SectionHeadings | src/utils/formUtils.ts:27-88 | a consignment section has exactly one heading, its own |
| SummaryHtml.SectionsHeadings | src/utils/formUtils.ts:26-89 | the sections carry one heading each, numbered 1..n in store order |
| SummaryHtml.SectionHasNoPlan | src/components/material-description-form.tsx:194-257 | a consignment section holds neither the plan image nor the no-plan sentence |
| SummaryHtml.SectionsHaveNoPlan | src/components/material-description-form.tsx:194-257 | no consignment section holds a plan block |
| SummaryHtml.SectionsPrefix | src/utils/formUtils.ts:26-89 | the sections of the first n consignments open the list of sections |
| SummaryHtml.SectionInOrder | src/utils/formUtils.ts:26-89 | consignment i is rendered as section i+1, right after the sections before it |
| SummaryHtml.PartIncluded | src/utils/formUtils.ts:1-97 | a part placed inside the body is rendered inside the body's text |
| SummaryHtml.SectionIncluded | src/utils/formUtils.ts:26-89 | section i+1 is rendered in any body that ends with the sections |
| SummaryHtml.OtherSampleMethodParagraph | src/utils/formUtils.ts:41-43 | "Other Sample Method" is present iff the method is "other", and shows the typed text or `undefined` |
| SummaryHtml.OtherCategorizationParagraph | src/utils/formUtils.ts:50-52 | "Other Soil Categorization" is present iff the categorization is "other", and shows the typed text or `undefined` |
| SummaryHtml.TableRows | src/utils/formUtils.ts:59-86 | the table part's rows are the analytical rows, in order |
| SummaryHtml.RowsBetweenTableMarkup | src/utils/formUtils.ts:59-83 | the rows of a table are exactly the blocks between its opening and closing markup |
| SummaryHtml.SectionRows | src/utils/formUtils.ts:59-86 | a section's table rows are exactly its consignment's rows, in order |
| SummaryHtml.TableOrNoData | src/utils/formUtils.ts:59-86 | the table is present iff rows exist and the no-data sentence iff none do; never both |
| ConsignmentDetails.WithConsignmentField | src/components/ConsignmentDetails.tsx:83-89 | `{ ...prev, [field]: value }` sets the one field and keeps the rest |
| ConsignmentDetails.ConsignmentByFields | src/components/ConsignmentDetails.tsx:83-89 | two records agreeing on every field are equal |
| ConsignmentDetails.WithConsignmentFieldOverwrites | src/components/ConsignmentDetails.tsx:83-89 | the last write to a field wins |
| ConsignmentDetails.WithConsignmentFieldCommutes | src/components/ConsignmentDetails.tsx:83-89 | writes to different fields commute |
| ConsignmentDetails.InitialLocalState | src/components/ConsignmentDetails.tsx:37-65 | the editor starts from the stored record at its index, or from the defaults when none is stored |
| ConsignmentDetails.StoreAt | src/components/ConsignmentDetails.tsx:86 | the record lands at the editor's index; all other stored records are untouched |
| ConsignmentDetails.StoredStateReadBack | src/components/ConsignmentDetails.tsx:37-89 | a remounted editor reads back exactly what it stored |
| ConsignmentDetails.StoreAtOverwrites | src/components/ConsignmentDetails.tsx:86 | storing twice at an index keeps only the second record |
| ConsignmentDetails.RowWith | src/components/ConsignmentDetails.tsx:171 | `{ ...row, [field]: value }` sets one key of a row and keeps the others |
| ConsignmentDetails.DefaultRows | src/components/ConsignmentDetails.tsx:70-77 | one empty row per default contaminant, in order, with id i+1 |
| ConsignmentDetails.SeededRows | src/components/ConsignmentDetails.tsx:68-80 | rows are seeded only when there are none |
| ConsignmentDetails.UpdateRow | src/components/ConsignmentDetails.tsx:169-174 | every row with the id gets the new value, and the others are unchanged |
| ConsignmentDetails.RemoveRow | src/components/ConsignmentDetails.tsx:175-178 | exactly the rows with other ids remain |
| ConsignmentDetails.AddRow | src/components/ConsignmentDetails.tsx:179-183 | the rows are kept, and one row is appended with the contaminant, the id text `NatText(length + 1)` (the decimal text of length+1, which parses back to length+1), and empty values |
| ConsignmentDetails.Ids | src/components/ConsignmentDetails.tsx:26-33 | the ids list is the rows' ids in order |
| ConsignmentDetails.DefaultRowsNumbered | src/components/ConsignmentDetails.tsx:70-77 | seeded rows are numbered 1..8 and carry the defaults in order |
| ConsignmentDetails.NumberedIdsDistinct | src/components/ConsignmentDetails.tsx:68-183 | rows numbered 1..n have distinct ids |
| ConsignmentDetails.AppendNumbered | src/components/ConsignmentDetails.tsx:179-183 | appending a row that carries the next number keeps rows numbered 1..n+1 |
| ConsignmentDetails.AddKeepsNumbering | src/components/ConsignmentDetails.tsx:179-183 | adding to rows numbered 1..n gives rows numbered 1..n+1 |
| ConsignmentDetails.UpdateKeepsNumbering | src/components/ConsignmentDetails.tsx:169-174 | editing a non-id key keeps the numbering |
| ConsignmentDetails.UpdateAbsentId | src/components/ConsignmentDetails.tsx:169-174 | updating an id no row carries changes nothing |
| ConsignmentDetails.UpdateRowOverwrites | src/components/ConsignmentDetails.tsx:169-174 | two edits of the same cell keep the second value |
| ConsignmentDetails.RemoveAbsentId | src/components/ConsignmentDetails.tsx:175-178 | removing an id no row carries changes nothing |
| ConsignmentDetails.RemoveKeepsOrder | src/components/ConsignmentDetails.tsx:175-178 | removal keeps the remaining rows in order |
| ConsignmentDetails.RemoveFirstNumbered | src/components/ConsignmentDetails.tsx:175-178 | removing row "1" from numbered rows drops exactly the first row |
| ConsignmentDetails.RemoveThenAddCollides | src/components/ConsignmentDetails.tsx:175-183 | after removing row "1" from two or more numbered rows, adding a row repeats the last id |
| ConsignmentDetails.ConsignmentEditor.constructor | src/components/ConsignmentDetails.tsx:35-65 | the editor's local state is the stored record at its index, or the defaults |
| ConsignmentDetails.ConsignmentEditor.UpdateLocalState | src/components/ConsignmentDetails.tsx:83-89 | the local state gets the one-field update and is stored at the editor's index |
| ConsignmentDetails.ConsignmentEditor.SeedDefaultRows | src/components/ConsignmentDetails.tsx:68-80 | empty rows are replaced by the default rows and stored; otherwise nothing changes |
| ConsignmentDetails.ConsignmentEditor.UpdateAnalyticalRow | src/components/ConsignmentDetails.tsx:169-174 | the rows become `UpdateRow` of the old rows and are stored |
| ConsignmentDetails.ConsignmentEditor.RemoveAnalyticalRow | src/components/ConsignmentDetails.tsx:175-178 | the rows become `RemoveRow` of the old rows and are stored |
| ConsignmentDetails.ConsignmentEditor.AddAnalyticalRow | src/components/ConsignmentDetails.tsx:179-183 | the rows become `AddRow` of the old rows and are stored |
| AnalyticalSummaryTable.Suggestions | src/components/AnalyticalSummaryTable.tsx:34-45 | blank query: no suggestions; otherwise exactly the catalog entries containing the query, ignoring ASCII case |
| AnalyticalSummaryTable.SuggestionsKeepCatalogOrder | src/components/AnalyticalSummaryTable.tsx:39-43 | suggestions come in catalog order |
| AnalyticalSummaryTable.WhitespaceQueryClears | src/components/AnalyticalSummaryTable.tsx:36-37 | a whitespace-only query clears the list |
| AnalyticalSummaryTable.AddDisabledIffRepeat | src/components/AnalyticalSummaryTable.tsx:131 | for rows with distinct names and a non-empty name, Add is disabled iff adding would repeat a name |
| AnalyticalSummaryTable.TypedAddKeepsNamesDistinct | src/components/AnalyticalSummaryTable.tsx:131 | a name the enabled Add button lets through keeps names distinct |
| AnalyticalSummaryTable.SuggestionCanRepeat | src/components/AnalyticalSummaryTable.tsx:119-123 | clicking a suggestion already in the table repeats that name, which Add would have refused |
| AnalyticalSummaryTable.DefaultInitialsDistinct | src/components/ConsignmentDetails.tsx:12-14 | the default contaminants differ in their first two letters, ignoring case |
| AnalyticalSummaryTable.DefaultRowsNamesDistinct | src/components/ConsignmentDetails.tsx:68-80 | the seeded rows name each contaminant once |
| AnalyticalSummaryTable.ContaminantPicker.constructor | src/components/AnalyticalSummaryTable.tsx:31-32 | empty search box, empty list |
| AnalyticalSummaryTable.ContaminantPicker.HandleContaminantSearch | src/components/AnalyticalSummaryTable.tsx:34-45 | the box keeps the raw text and the list becomes its suggestions |
| AnalyticalSummaryTable.ContaminantPicker.SelectSuggestion | src/components/AnalyticalSummaryTable.tsx:119-123 | the suggestion is added as a row and stored, and the box and list are cleared |
| AnalyticalSummaryTable.ContaminantPicker.ClickAdd | src/components/AnalyticalSummaryTable.tsx:131 | the typed name is added and stored, names stay distinct, and the button is disabled afterwards |
| Submission.AddEmailTo | src/components/EmailSubmission.tsx:28-33 | the address is appended iff it is non-empty and not listed |
| Submission.CurrentAfterAdd | src/components/EmailSubmission.tsx:28-33 | the field is cleared exactly when the address was added |
| Submission.RemoveEmailFrom | src/components/EmailSubmission.tsx:36-38 | the address is gone and every other address is kept |
| Submission.RemoveEmailKeepsOrder | src/components/EmailSubmission.tsx:36-38 | removal keeps the other addresses in their order: removing from a split list removes from each part |
| Submission.AddEmailDisabledIffNoChange | src/components/EmailSubmission.tsx:136 | the Add button is disabled exactly when `addEmail` would change nothing |
| Submission.AddEmailKeepsDistinct | src/components/EmailSubmission.tsx:28-33 | adding never lists an address twice |
| Submission.RemoveEmailKeepsDistinct | src/components/EmailSubmission.tsx:36-38 | removing never lists an address twice |
| Submission.RemoveListedEmail | src/components/EmailSubmission.tsx:36-38 | removing a listed address shortens the list by one |
| Submission.RecipientsStayDistinct | src/components/EmailSubmission.tsx:28-38 | after any sequence of typing, adding and removing, no address is listed twice |
| Submission.UnpackPack | src/components/EmailSubmission.tsx:58-75 | packing a consignment for the payload loses no field |
| Submission.PackConsignments | src/components/EmailSubmission.tsx:58-75 | one payload entry per stored consignment, numbered index+1 |
| Submission.Attachments | src/components/EmailSubmission.tsx:76-80 | one attachment per file, with its name, type and size |
| Submission.BuildPayload | src/components/EmailSubmission.tsx:47-82 | the payload carries the recipients, reply-to address and message as given, the store's site fields, one consignment per stored record numbered from 1 that unpacks to that record, one attachment per file with its name, type and size, and the HTML |
| Submission.PayloadCarriesStore | src/components/EmailSubmission.tsx:47-82 | the payload unpacks to the store, numbers consignments 1..n, and passes recipients, message, HTML and files through |
| EmailSubmission.EmailSubmissionPanel.constructor | src/components/EmailSubmission.tsx:22-25 | empty recipients, field, message and reply-to |
| EmailSubmission.EmailSubmissionPanel.SetCurrentEmail | src/components/EmailSubmission.tsx:129 | only the typed field changes |
| EmailSubmission.EmailSubmissionPanel.SetReplyToEmail | src/components/EmailSubmission.tsx:176 | only the reply-to address changes |
| EmailSubmission.EmailSubmissionPanel.SetCustomMessage | src/components/EmailSubmission.tsx:185 | only the message changes |
| EmailSubmission.EmailSubmissionPanel.AddEmail | src/components/EmailSubmission.tsx:28-33 | the list and field follow `addEmail`, nothing changes when the button is disabled, and no address is listed twice |
| EmailSubmission.EmailSubmissionPanel.RemoveEmail | src/components/EmailSubmission.tsx:36-38 | the list follows `removeEmail` and stays free of duplicates |
| EmailSubmission.EmailSubmissionPanel.HandleSubmit | src/components/EmailSubmission.tsx:41-82 | the payload carries the recipients, the store, the files and the generated HTML |
| MaterialDescriptionForm.ClampCount | src/components/material-description-form.tsx:155-159 | `Math.max(1, n)`: at least 1 and at least n, and equal to one of them |
| MaterialDescriptionForm.Toggled | src/components/material-description-form.tsx:140-144 | an open index is closed and a closed one appended; other indices are unaffected |
| MaterialDescriptionForm.ToggleTwice | src/components/material-description-form.tsx:140-144 | toggling twice restores which sections are open |
| MaterialDescriptionForm.ToggleKeepsDistinct | src/components/material-description-form.tsx:140-144 | no section index is listed twice |
| MaterialDescriptionForm.RemoveFileNamed | src/components/material-description-form.tsx:282-284 | exactly the files with other names remain |
| MaterialDescriptionForm.RemoveFileKeepsOrder | src/components/material-description-form.tsx:282-284 | removal keeps the other files in order |
| MaterialDescriptionForm.RemoveAbsentFile | src/components/material-description-form.tsx:282-284 | removing a name no file has changes nothing |
| MaterialDescriptionForm.GenerateFormEmailContent | src/components/material-description-form.tsx:161-265 | the text is the green head, site section, plan section, sections in store order, and closing tags |
| MaterialDescriptionForm.SiteHasNoPlan | src/components/material-description-form.tsx:179-184 | the site section holds no plan block |
| MaterialDescriptionForm.PlanBlocksOnlyInPlanSection | src/components/material-description-form.tsx:186-191 | the document's plan blocks are those of its plan section |
| MaterialDescriptionForm.PlanImageIff | src/components/material-description-form.tsx:188-190 | the image is shown iff the PNG URL is truthy, and the no-plan sentence otherwise |
| MaterialDescriptionForm.PlanSectionShows | src/components/material-description-form.tsx:186-191 | the plan section holds the image of the URL iff there is a plan, and the no-plan sentence iff there is none |
| MaterialDescriptionForm.FormHeadings | src/components/material-description-form.tsx:163-257 | headings: site, plan, then consignments 1..n in store order |
| MaterialDescriptionForm.PlanHeadings | src/components/material-description-form.tsx:186-191 | the plan section has the single heading "Plan of Proposed Works" |
| MaterialDescriptionForm.FormBodyTextIncluded | src/components/material-description-form.tsx:161-265 | any text inside the rendered body is inside the document |
| MaterialDescriptionForm.PlanImageRendered | src/components/material-description-form.tsx:188-189 | with a truthy URL, the `<img>` tag with that URL occurs in the document |
| MaterialDescriptionForm.FormSectionIncluded | src/components/material-description-form.tsx:194-257 | the section of stored consignment i, titled number i+1, occurs in the document |
| MaterialDescriptionForm.FormController.constructor | src/components/material-description-form.tsx:71-88 | the initial component state and an initial store |
| MaterialDescriptionForm.FormController.ToggleSection | src/components/material-description-form.tsx:140-144 | only the open sections change, to `Toggled`, and stay free of duplicates |
| MaterialDescriptionForm.FormController.UpdateFormData | src/components/material-description-form.tsx:147-152 | the store gets the one-key update |
| MaterialDescriptionForm.FormController.UpdateConsignments | src/components/material-description-form.tsx:155-159 | the clamped count goes to the component and the store, and nothing else changes |
| MaterialDescriptionForm.FormController.SetExcalidrawPNG | src/components/material-description-form.tsx:116-117 | only the plan URL changes |
| MaterialDescriptionForm.FormController.GenerateEmailContent | src/components/material-description-form.tsx:161-265 | the returned text is the form's document for the current store and plan |
| MaterialDescriptionForm.FormController.SetCurrentEmail | src/components/material-description-form.tsx:451 | only the typed field changes |
| MaterialDescriptionForm.FormController.SetReplyToEmail | src/components/material-description-form.tsx:496 | only the reply-to address changes |
| MaterialDescriptionForm.FormController.SetCustomMessage | src/components/material-description-form.tsx:504 | only the message changes |
| MaterialDescriptionForm.FormController.AddEmail | src/components/material-description-form.tsx:267-272 | only the list and the field change, as `addEmail` does, and no address is listed twice |
| MaterialDescriptionForm.FormController.RemoveEmail | src/components/material-description-form.tsx:274-276 | only the list changes, as `removeEmail` does |
| MaterialDescriptionForm.FormController.OnDrop | src/components/material-description-form.tsx:278-280 | only the files change: the dropped ones are appended in order |
| MaterialDescriptionForm.FormController.RemoveFile | src/components/material-description-form.tsx:282-284 | only the files change, to `RemoveFileNamed` |
| MaterialDescriptionForm.FormController.HandleSubmit | src/components/material-description-form.tsx:293-335 | the payload carries the store, the recipients, the files and the form's own document |
| MaterialDescription.TypedCount | src/components/MaterialDescription.tsx:103 | `parseInt(text) \|\| 1`: NaN and 0 give 1, and any other parsed number is kept |
| MaterialDescription.Step | src/components/MaterialDescription.tsx:92-110 | every stepper event leaves a count of at least 1 |
| MaterialDescription.StepperNeverBelowOne | src/components/MaterialDescription.tsx:92-110 | after any sequence of clicks and typing, the count is at least 1 |
| MaterialDescription.StepperButtons | src/components/MaterialDescription.tsx:92-110 | minus at 1 stays at 1, and plus then minus returns to the start |
| MaterialDescription.TypedLeadingNumber | src/components/MaterialDescription.tsx:103 | a positive number followed by a non-digit sets the count to that number |
| MaterialDescription.RetypedCountUnchanged | src/components/MaterialDescription.tsx:103 | retyping the shown count leaves it unchanged |
| MaterialDescription.TypedZero | src/components/MaterialDescription.tsx:103 | any text that parses to 0 ("0", "-0", "00") gives 1 through the falsy `|| 1` |
| MaterialDescription.ZeroParsesToZero | src/components/MaterialDescription.tsx:103 | `parseInt("0")` is 0, so the zero case of the stepper is reachable by typing "0" |
| MaterialDescription.TypedLetters | src/components/MaterialDescription.tsx:103 | text starting with a letter gives 1 |
| MaterialDescription.TypedEmpty | src/components/MaterialDescription.tsx:103 | an emptied box gives 1 |
| MaterialDescription.OnDecrement | src/components/MaterialDescription.tsx:92 | the count becomes `Step(count, Decrement)`, in the component and the store |
| MaterialDescription.OnIncrement | src/components/MaterialDescription.tsx:110 | the count becomes `Step(count, Increment)`, in the component and the store |
| MaterialDescription.OnCountTyped | src/components/MaterialDescription.tsx:103 | the count becomes `Step(count, TypeCount(text))`, in the component and the store |
| MaterialDescription.CommitSiteAddress | src/components/MaterialDescription.tsx:48 | losing focus writes the address to the store, and nothing else changes |
| MaterialDescription.CommitSiteHistory | src/components/MaterialDescription.tsx:81 | losing focus writes the history to the store, and nothing else changes |
| Strings.ToLowerIdempotent | src/components/AnalyticalSummaryTable.tsx:41 | lower-casing twice is lower-casing once |
| Strings.BlankIffAllWhitespace | src/components/AnalyticalSummaryTable.tsx:36 | `value.trim() === ""` iff every character is JavaScript whitespace |
| Strings.ParseLeadingNumber | src/components/MaterialDescription.tsx:103 | `parseInt` reads the decimal prefix of a number followed by a non-digit |
| Strings.ParseNonNumeric | src/components/MaterialDescription.tsx:103 | `parseInt` of text starting with neither whitespace, sign nor digit is NaN |
| Strings.ParseNatText | src/components/ConsignmentDetails.tsx:70-183 | `parseInt` inverts `toString` on natural numbers |
| Strings.NatTextInjective | src/components/ConsignmentDetails.tsx:70-183 | different numbers have different decimal texts |
| Common.Filter | src/components/material-description-form.tsx:140-284 | `filter` keeps exactly the elements passing the test |
| Common.FilterAppend | src/components/ConsignmentDetails.tsx:176 | `filter` distributes over concatenation |
| Common.FilterKeepsDistinct | src/components/material-description-form.tsx:140-276 | filtering a duplicate-free list leaves it duplicate-free |
| Common.WithoutMultiset | src/components/material-description-form.tsx:275 | removing one value drops exactly its occurrences |

## Left out

- The POST to the webhook, its status check and the alerts are not modelled. `HandleSubmit` returns the payload it would post.
- The drawing canvas, `exportToBlob`, `URL.createObjectURL` and the tutorial fetch are not modelled. The captured PNG URL is an input to `SetExcalidrawPNG`.
- The upload route, `FileUpload`, the success popup and its timers are not modelled. They are outside the form's logic.
- Static markup, CSS classes and the exact whitespace of the HTML templates are left out. Each paragraph, heading and row is one block with its own text, and the head's text keeps the colours and titles of both copies.
- `SamplingDetails` is modelled only through the values it writes: the radio values and the "other" texts.
- `Strings.ToLower` folds ASCII letters only. `toLowerCase` also folds the rest of Unicode.
- `Strings.ParseInt`: JavaScript numbers are doubles, so very long typed counts lose precision. The model's integers are exact.
- `ConsignmentDetails.StoreAt` requires the editor's index to be at most the store's length. Editors mount in index order and each one writes its index on mount, so the sparse-array hole that JavaScript would allow beyond the end is not modelled.
- The model stores a copy of the local state where the source stores the shared object itself. Aliasing between the editor's local state and the stored object is not modelled.
- React's batching, stale closures and deferred state updates are not modelled. Handlers run one after another on the current state.
- `EmailSubmission.EmailSubmissionPanel.HandleSubmit` takes the generated HTML and the parent's files as parameters. Its `excalidrawPNG` prop is never read by the source and is not modelled.
- `ConsignmentDetails.RowWith` accepts any key of a row. The table only ever edits maximum, minimum, average and leachable.
- `AnalyticalSummaryTable.ContaminantPicker.SelectSuggestion` requires the clicked contaminant to be in the shown list. `ClickAdd` requires the button to be enabled. These are the conditions under which the UI can fire the handlers.
- The collapsible open/close state, tab switching and the visibility toggle of the drawing canvas are not modelled. `openSections` is modelled through `toggleSection`.
