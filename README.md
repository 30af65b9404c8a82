# Hiring portal offer email: a Dafny model

This project models the logic of the hiring portal's single React component
(`src/App.tsx`). The component composes an employment-offer email from a small
form (candidate name, role) and the company's branding (name, logo address). It
keeps the branding in a browser storage slot and checks that the logo address
loads as an image. It also offers the email as a downloadable HTML file.

Modules:

- `Records`: the component's values. These are the form, the branding with its defaults, the attached document (kept by name only) and the role list.
- `Text`: joining the template's lines, and where a piece sits in a text.
- `Decimal`: the decimal text of the year in the copyright line.
- `OfferEmail`: the template renderer (`generateHTMLEmail`). It is a pure function of the form, branding, optional attachment and year. The template's fixed lines are a `Wording` record; `RenderHTML` renders with the portal's wording `Offer`. The lemmas are proved for every wording, so they hold for `RenderHTML` in particular. They say where each substituted value lands.
- `DownloadName`: the download file name. Whitespace runs become `_`, an empty name falls back to `Candidate`, and the result is wrapped in `Offer_` … `.html`.
- `LogoValidation`: the two logo flags as a transition function over URL-change, image-load and image-error events. It includes lemmas that characterise the flags after any event sequence.
- `Portal`: the component's state as a class. Its methods are the mount, `saveSettings`, the single-field edits, the file input, the image callbacks and the download.

Behaviour of the component worth noting:

- The image callbacks carry no stale-response guard. A late callback for a replaced address still sets the flags (`StaleFailureWins`).
- Stored branding is read without error handling.
- No sent-email history is appended, cleared or exported. No mail-client hand-off, send status or attachment size/type check exists in the component.
- The file name replaces whitespace runs only. It does not replace other non-alphanumeric characters.

## Model

| member | source | states |
|---|---|---|
| OfferEmail.Render | src/App.tsx:61-159 | the rendered document, in any wording, begins with the wording's opening (doctype, head, header) and ends with its closing line |
| OfferEmail.RenderHTML | src/App.tsx:61-159 | the email the portal renders begins with the offer wording's opening and ends with its closing `</html>` line |
| OfferEmail.GreetingName | src/App.tsx:110 | the greeting's name is never empty, and it is the candidate's name exactly when that name is non-empty |
| OfferEmail.RoleLabel | src/App.tsx:117 | the role shown is never empty, and it is the selected role exactly when one is selected |
| OfferEmail.AttachmentNotice | src/App.tsx:121-124 | the notice is empty exactly when no document is attached, and otherwise opens with the styled box and the "Attachment Included" heading |
| OfferEmail.GreetingShowsCandidate | src/App.tsx:110 | the greeting holds the candidate name when it is non-empty, and `Candidate` when it is empty |
| OfferEmail.RoleBoxShowsRole | src/App.tsx:117 | the role title holds the role when one is selected, and `[Position Name]` otherwise |
| OfferEmail.CompanyNameShown | src/App.tsx:105-148 | the company name appears as the header title, after the role (`• Remote`), in the community sentence and in the sign-off |
| OfferEmail.LogoInHeaderAndFooter | src/App.tsx:104-152 | the logo address is the `src` of two image tags, the header's and a later, non-overlapping footer one |
| OfferEmail.FooterShowsYearAndCompany | src/App.tsx:153 | the copyright line holds the year's decimal text followed by the company name |
| OfferEmail.YearDeterminesRendering | src/App.tsx:153 | the year is really substituted: equal renderings imply equal years |
| OfferEmail.AttachmentNamed | src/App.tsx:121-124 | with a document attached, the email holds the attachment notice and the document's name verbatim inside `<em>` |
| OfferEmail.AttachmentNoticeIffAttached | src/App.tsx:121-124 | the email differs from the no-attachment email if and only if a document is attached |
| OfferEmail.AttachmentNoticeRemovable | src/App.tsx:121-124 | the notice block occurs in the email, and cutting it out yields exactly the no-attachment email |
| Decimal.YearText | src/App.tsx:153 | the year text is non-empty, starts with a minus sign exactly for negative years, and the rest is decimal digits that read back as the year's magnitude |
| Decimal.Digits | src/App.tsx:153 | the year's digits are non-empty decimal digits with no leading zero |
| Decimal.ValueOfDigits | src/App.tsx:153 | reading the printed digits back gives the number |
| Decimal.YearTextInjective | src/App.tsx:153 | two different years never print the same text |
| DownloadName.SkipWhitespace | src/App.tsx:172 | the greedy match of `\s+` removes a whitespace-only prefix and stops at a non-whitespace character |
| DownloadName.ReplaceWhitespaceRuns | src/App.tsx:172 | the rewritten name has no whitespace, is no longer than the name, and is empty exactly when the name is |
| DownloadName.DownloadFilename | src/App.tsx:172 | the name is `Offer_` + stem + `.html`; the stem has no whitespace and is `Candidate` for an empty name, or the rewritten name otherwise |
| DownloadName.ReplaceMatchesScan | src/App.tsx:172 | the greedy rewrite equals a character scan that emits `_` only at the start of each whitespace run |
| DownloadName.UnderscorePerRun | src/App.tsx:172 | the underscores in the result are those of the name plus exactly one per maximal whitespace run |
| DownloadName.ReplaceKeepsPlainText | src/App.tsx:172 | a name without whitespace is left unchanged |
| DownloadName.ReplaceIdempotent | src/App.tsx:172 | rewriting twice equals rewriting once |
| DownloadName.WhitespaceOnlyName | src/App.tsx:172 | a whitespace-only name becomes `_` and the file `Offer__.html`, not the `Candidate` fallback |
| LogoValidation.Step | src/App.tsx:44-54 | one event: `loading` is on afterwards exactly when the event is a remote address, or it was on and the event is no image callback; `error` is on exactly when an image failed, or it was on and the event neither loaded an image nor set a non-remote address |
| LogoValidation.Run | src/App.tsx:44-54 | events applied in arrival order; a flag that was off is on afterwards only if some event (a remote address, an image failure) can raise it |
| LogoValidation.LoadingIffPending | src/App.tsx:44-54 | after any events, `logoLoading` holds exactly when a load was started by a remote address with no image callback since, or was already pending with no callback at all |
| LogoValidation.ErrorIffFailureStands | src/App.tsx:44-54 | after any events, `logoError` holds exactly when an image failure has not been cleared since by a load or a non-remote address |
| LogoValidation.StaleFailureWins | src/App.tsx:48-49 | a failure reported for a replaced address, arriving after the current one loaded, leaves the error flag raised |
| LogoValidation.LoadingWithError | src/App.tsx:45-52 | a new remote address after a failure shows the spinner and the error together |
| Portal.LoadedSettings | src/App.tsx:39-40 | the branding at mount is the stored branding when the slot holds one, and the default otherwise |
| Portal.HiringPortal.constructor | src/App.tsx:9-54 | mounting gives an empty form, no attachment, the stored branding or the default, and runs the logo check for the default address and again for a different stored one, leaving the spinner on and no error |
| Portal.HiringPortal.CheckLogo | src/App.tsx:44-54 | the logo effect applies the URL-change transition for the current address and changes nothing else |
| Portal.HiringPortal.ShowSettings | src/App.tsx:54-57 | the branding is replaced, and the logo effect reruns only when the address changed |
| Portal.HiringPortal.SaveSettings | src/App.tsx:56-59 | the new branding is both the state and the stored slot afterwards; form and attachment are unchanged |
| Portal.HiringPortal.EditCompanyName | src/App.tsx:307 | only the company name changes, the logo address and flags are kept, and state equals storage |
| Portal.HiringPortal.EditLogoUrl | src/App.tsx:318 | only the logo address changes, it is stored, and a changed address triggers the URL-change transition |
| Portal.HiringPortal.EditCandidateName | src/App.tsx:229 | only the form's candidate name changes |
| Portal.HiringPortal.EditRole | src/App.tsx:235-242 | only the form's role changes, to one of the selector's values |
| Portal.HiringPortal.ChooseFile | src/App.tsx:254 | a chosen file is recorded by name; no file leaves the attachment as it was |
| Portal.HiringPortal.OnLogoLoad | src/App.tsx:48 | the load callback clears both flags |
| Portal.HiringPortal.OnLogoError | src/App.tsx:49 | the error callback clears loading and raises the error |
| Portal.HiringPortal.DownloadEmail | src/App.tsx:166-174 | the download's file name and content are the derived name and the rendered email for the current state |
| Portal.ReloadAfterSave | src/App.tsx:39-58 | saving branding and mounting again from the storage slot restores exactly that branding |

## Left out

- OfferEmail.AttachmentNoticeIffAttached: the "if and only if" compares with the no-attachment email. It does not say that the notice text is absent from that email, because the candidate, role and company strings may themselves contain it.
- The stylesheet rules and the long welcome and next-steps paragraphs have abbreviated wording in `OfferEmail.Offer`. No property depends on their characters, since every renderer lemma holds for any wording.
- Rendering the JSX, tab switching, the live-preview iframe and the icons are presentation.
- Creating the Blob, the object URL and the anchor click are browser I/O. Only the file name and the HTML content are modelled.
- Storage reads and writes are a plain field holding the decoded branding. JSON encoding and decoding are not modelled, and neither is the uncaught exception on malformed stored data.
- The stored sent-email list is only loaded by the component and never used, so it is not modelled.
- The `Image` object is not modelled. Its load and error callbacks are events supplied from outside, in arrival order, with no timeout or cancellation.
- The clock is not modelled. The year is a parameter.
- React's render batching and effect scheduling are simplified: a state change that alters the logo address runs the logo effect at once.
- The unused `handleFileUpload` and the "Max file size" text are not modelled, because neither enforces anything.
