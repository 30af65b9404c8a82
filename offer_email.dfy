/**
 * The offer-email template (`generateHTMLEmail`). The HTML document is the
 * template's fixed text with the form, the branding, the optional attachment
 * and the year substituted in. The template is kept as its lines in order:
 * the part before the conditional attachment block, the block, and the rest.
 * The year is a parameter, as the renderer reads no clock of its own.
 */
module OfferEmail {
  import opened Records
  import opened Text
  import Decimal

  /**
   * The fixed wording of the template: the text between the substituted
   * values that spans whole lines. The renderer is defined for any wording;
   * `Offer` is the wording the portal sends.
   */
  datatype Wording = Wording(
    opening: string,       // the doctype, head and stylesheet, up to the opening of the header
    headerClose: string,   // the header's subtitle and the opening of the content
    intro: string,         // the two welcome paragraphs and the opening of the role box
    roleBoxClose: string,  // the closing of the role box
    nextSteps: string,     // the three "What Happens Next?" steps
    building: string,      // the opening of the sentence about the company's community
    joinUs: string,        // the end of that sentence
    questions: string,     // the invitation to ask questions and "Warmly,"
    footerOpen: string,    // the closing of the content and the opening of the footer
    closing: string,       // the footer's last line and the end of the document
    noticeStyle: string,   // the styled opening of the attachment notice
    noticeMarker: string)  // the notice's bold heading

  /** The stylesheet; its rules only style the document. */
  const StyleSheet: string :=
    "  <style>\n    /* body, container, header, content, highlight box, next steps and footer rules */\n  </style>\n"

  const Offer: Wording := Wording(
    "<!DOCTYPE html>\n<html>\n<head>\n  <meta charset=\"utf-8\">\n" + StyleSheet
    + "</head>\n<body>\n  <div class=\"container\">\n    \n    <div class=\"header\">\n",
    "      <p>Official Employment Offer</p>\n    </div>\n\n    <div class=\"content\">\n",
    "      \n      <p>It is with genuine excitement that we welcome you to the team! …</p>\n      \n"
    + "      <p>We were incredibly impressed by your performance, … the position of:</p>\n\n"
    + "      <div class=\"highlight-box\">\n",
    "      </div>\n\n      ",
    "\n\n      <div class=\"steps-container\">\n        <span class=\"steps-title\">What Happens Next?</span>\n"
    + "        <div class=\"step-item\">…Review & Accept…</div>\n"
    + "        <div class=\"step-item\">…Workspace Setup…</div>\n"
    + "        <div class=\"step-item\">…Onboarding Kickoff…</div>\n"
    + "      </div>\n\n",
    "      <p style=\"margin-top: 30px;\">We are building a diverse and supportive ",
    " and we can't wait for you to be a part of it.</p>\n",
    "      <p>If you have any questions, please don't hesitate to reach out to our HR department.</p>\n"
    + "      <p>Warmly,</p>\n",
    "    </div>\n\n    <div class=\"footer\">\n",
    "      <p>100% Remote \U{2022} Equal Opportunity Employer</p>\n    </div>\n  </div>\n</body>\n</html>",
    "\n      <div style=\"background: #ecfdf5; border: 1px dashed #059669; padding: 12px; border-radius: 6px;"
    + " font-size: 14px; color: #065f46; margin-bottom: 20px;\">\n        ",
    "<strong>\U{1F4CE} Attachment Included:</strong>")

  /** The name in the greeting: the candidate's, or "Candidate" when the field is empty. */
  function GreetingName(candidateName: string): (name: string)
    ensures name != "" && (name == candidateName <==> candidateName != "")
  {
    if candidateName == "" then "Candidate" else candidateName
  }

  /** The role in the highlight box, or a bracketed placeholder when none is selected. */
  function RoleLabel(role: string): (shown: string)
    ensures shown != "" && (shown == role <==> role != "")
  {
    if role == "" then "[Position Name]" else role
  }

  // The substituted pieces of the template, each named once.

  function ImageTag(url: string): string { "<img src=\"" + url + "\"" }
  function HeaderTitle(companyName: string): string { "<h1>" + companyName + "</h1>" }
  function Greeting(candidateName: string): string { "Hello <strong>" + GreetingName(candidateName) + "</strong>," }
  function RoleTitle(role: string): string { "\U{2728} " + RoleLabel(role) + "</span>" }
  function RoleCompany(companyName: string): string { "<span>" + companyName + " \U{2022} Remote</span>" }
  function Community(companyName: string): string { "community here at " + companyName + "," }
  function SignOff(companyName: string): string { "<strong>The " + companyName + " Hiring Team</strong>" }
  function AttachmentName(name: string): string { "<em>" + name + "</em>" }
  function Copyright(year: int, companyName: string): string
  {
    "&copy; " + Decimal.YearText(year) + " " + companyName + ". All rights reserved."
  }

  /** The attachment notice: present only when a document is attached. */
  function AttachmentNotice(w: Wording, attachment: Option<AttachedDocument>): (notice: string)
    ensures notice == "" <==> attachment.None?
    ensures attachment.Some? ==> w.noticeStyle + w.noticeMarker <= notice
  {
    match attachment
    case None => ""
    case Some(doc) =>
      w.noticeStyle + w.noticeMarker + " Please review the attached " + AttachmentName(doc.name)
      + " for full details.\n      </div>"
  }

  /** The template up to the attachment block: header, greeting and role box. */
  function HeadParts(w: Wording, form: FormData, settings: CompanySettings): (parts: seq<string>)
    ensures |parts| == 9
  {
    [ w.opening,
      "      " + ImageTag(settings.logoUrl) + (" alt=\"" + settings.companyName + " Logo\">\n"),
      "      " + HeaderTitle(settings.companyName) + "\n",
      w.headerClose,
      "      <p class=\"greeting\">" + Greeting(form.candidateName) + "</p>\n",
      w.intro,
      "        <span class=\"role-title\">" + RoleTitle(form.role) + "\n",
      "        " + RoleCompany(settings.companyName) + "\n",
      w.roleBoxClose ]
  }

  /** The template after the attachment block: next steps, sign-off and footer. */
  function TailParts(w: Wording, settings: CompanySettings, year: int): (parts: seq<string>)
    ensures |parts| == 8
  {
    [ w.nextSteps,
      w.building + Community(settings.companyName) + w.joinUs,
      w.questions,
      "      <p>" + SignOff(settings.companyName) + "</p>\n",
      w.footerOpen,
      "      " + ImageTag(settings.logoUrl) + " alt=\"Logo\">\n",
      "      <p>" + Copyright(year, settings.companyName) + "</p>\n",
      w.closing ]
  }

  /** The offer email as an HTML document: the head, the attachment block, then the tail. */
  function Render(w: Wording, form: FormData, settings: CompanySettings, attachment: Option<AttachedDocument>, year: int)
    : (html: string)
    ensures w.opening <= html
    ensures EndsWith(html, w.closing)
  {
    var head, tail := HeadParts(w, form, settings), TailParts(w, settings, year);
    Framed(head, AttachmentNotice(w, attachment), tail);
    Join(head) + AttachmentNotice(w, attachment) + Join(tail)
  }

  /** The email the portal downloads: the template in the offer's wording. */
  function RenderHTML(form: FormData, settings: CompanySettings, attachment: Option<AttachedDocument>, year: int)
    : (html: string)
    ensures Offer.opening <= html
    ensures EndsWith(html, Offer.closing)
  {
    Render(Offer, form, settings, attachment, year)
  }

  /** A piece written inside part `k` of the head occurs in the rendered document. */
  lemma PieceInHead(w: Wording, form: FormData, settings: CompanySettings, attachment: Option<AttachedDocument>, year: int,
                    k: nat, x: string, piece: string, y: string)
    requires k < 9 && HeadParts(w, form, settings)[k] == x + piece + y
    ensures Contains(Render(w, form, settings, attachment, year), piece)
  {
    var head := HeadParts(w, form, settings);
    PieceOfPart(head, k, x, piece, y);
    var i := PartOffset(head, k) + |x|;
    OccursInPrefix(piece, Join(head), AttachmentNotice(w, attachment), i);
    OccursInPrefix(piece, Join(head) + AttachmentNotice(w, attachment), Join(TailParts(w, settings, year)), i);
  }

  /** A piece written inside part `k` of the tail occurs in the rendered document. */
  lemma PieceInTail(w: Wording, form: FormData, settings: CompanySettings, attachment: Option<AttachedDocument>, year: int,
                    k: nat, x: string, piece: string, y: string)
    requires k < 8 && TailParts(w, settings, year)[k] == x + piece + y
    ensures Contains(Render(w, form, settings, attachment, year), piece)
  {
    var tail := TailParts(w, settings, year);
    PieceOfPart(tail, k, x, piece, y);
    var front := Join(HeadParts(w, form, settings)) + AttachmentNotice(w, attachment);
    OccursInSuffix(piece, front, Join(tail), PartOffset(tail, k) + |x|);
  }

  /** The greeting names the candidate, or "Candidate" when the name is empty. */
  lemma GreetingShowsCandidate(w: Wording, form: FormData, settings: CompanySettings, attachment: Option<AttachedDocument>, year: int)
    ensures form.candidateName != "" ==>
      Contains(Render(w, form, settings, attachment, year), "Hello <strong>" + form.candidateName + "</strong>,")
    ensures form.candidateName == "" ==>
      Contains(Render(w, form, settings, attachment, year), "Hello <strong>" + "Candidate" + "</strong>,")
  {
    PieceInHead(w, form, settings, attachment, year, 4, "      <p class=\"greeting\">", Greeting(form.candidateName), "</p>\n");
  }

  /** The role box names the role, or "[Position Name]" when none is selected. */
  lemma RoleBoxShowsRole(w: Wording, form: FormData, settings: CompanySettings, attachment: Option<AttachedDocument>, year: int)
    ensures form.role != "" ==>
      Contains(Render(w, form, settings, attachment, year), "\U{2728} " + form.role + "</span>")
    ensures form.role == "" ==>
      Contains(Render(w, form, settings, attachment, year), "\U{2728} " + "[Position Name]" + "</span>")
  {
    PieceInHead(w, form, settings, attachment, year, 6, "        <span class=\"role-title\">", RoleTitle(form.role), "\n");
  }

  /** The company name titles the header, follows the role and signs the email. */
  lemma CompanyNameShown(w: Wording, form: FormData, settings: CompanySettings, attachment: Option<AttachedDocument>, year: int)
    ensures var html, c := Render(w, form, settings, attachment, year), settings.companyName;
      && Contains(html, "<h1>" + c + "</h1>")
      && Contains(html, "<span>" + c + " \U{2022} Remote</span>")
      && Contains(html, "community here at " + c + ",")
      && Contains(html, "<strong>The " + c + " Hiring Team</strong>")
  {
    var c := settings.companyName;
    PieceInHead(w, form, settings, attachment, year, 2, "      ", HeaderTitle(c), "\n");
    PieceInHead(w, form, settings, attachment, year, 7, "        ", RoleCompany(c), "\n");
    PieceInTail(w, form, settings, attachment, year, 1, w.building, Community(c), w.joinUs);
    PieceInTail(w, form, settings, attachment, year, 3, "      <p>", SignOff(c), "</p>\n");
  }

  lemma LogoInHead(w: Wording, form: FormData, settings: CompanySettings)
    ensures var head, i := HeadParts(w, form, settings), PartOffset(HeadParts(w, form, settings), 1) + 6;
      OccursAt(ImageTag(settings.logoUrl), Join(head), i) && i + |ImageTag(settings.logoUrl)| <= |Join(head)|
  {
    var head := HeadParts(w, form, settings);
    PieceOfPart(head, 1, "      ", ImageTag(settings.logoUrl), " alt=\"" + settings.companyName + " Logo\">\n");
    PartWithin(head, 1);
  }

  lemma LogoInTail(w: Wording, settings: CompanySettings, year: int)
    ensures OccursAt(ImageTag(settings.logoUrl), Join(TailParts(w, settings, year)), PartOffset(TailParts(w, settings, year), 5) + 6)
  {
    PieceOfPart(TailParts(w, settings, year), 5, "      ", ImageTag(settings.logoUrl), " alt=\"Logo\">\n");
  }

  /** The logo address is the source of an image in the header and, further on, of one in the footer. */
  lemma LogoInHeaderAndFooter(w: Wording, form: FormData, settings: CompanySettings, attachment: Option<AttachedDocument>, year: int)
    ensures var html, tag := Render(w, form, settings, attachment, year), "<img src=\"" + settings.logoUrl + "\"";
      exists i, j :: OccursAt(tag, html, i) && OccursAt(tag, html, j) && i + |tag| <= j
  {
    var head, tail := HeadParts(w, form, settings), TailParts(w, settings, year);
    var tag := ImageTag(settings.logoUrl);
    var front := Join(head) + AttachmentNotice(w, attachment);
    LogoInHead(w, form, settings);
    LogoInTail(w, settings, year);
    var i, j := PartOffset(head, 1) + 6, PartOffset(tail, 5) + 6;
    OccursInPrefix(tag, Join(head), AttachmentNotice(w, attachment), i);
    OccursInPrefix(tag, front, Join(tail), i);
    OccursInSuffix(tag, front, Join(tail), j);
    var html := Render(w, form, settings, attachment, year);
    assert OccursAt(tag, html, i) && OccursAt(tag, html, |front| + j) && i + |tag| <= |front| + j;
  }

  /** The footer's copyright line carries the year followed by the company name. */
  lemma FooterShowsYearAndCompany(w: Wording, form: FormData, settings: CompanySettings, attachment: Option<AttachedDocument>, year: int)
    ensures Contains(Render(w, form, settings, attachment, year),
      "&copy; " + Decimal.YearText(year) + " " + settings.companyName + ". All rights reserved.")
  {
    PieceInTail(w, form, settings, attachment, year, 6, "      <p>", Copyright(year, settings.companyName), "</p>\n");
  }

  /** The attachment notice names the attached file verbatim. */
  lemma AttachmentNamed(w: Wording, form: FormData, settings: CompanySettings, doc: AttachedDocument, year: int)
    ensures var html := Render(w, form, settings, Some(doc), year);
      Contains(html, w.noticeMarker) && Contains(html, "<em>" + doc.name + "</em>")
  {
    var head, notice, tail := Join(HeadParts(w, form, settings)), AttachmentNotice(w, Some(doc)), Join(TailParts(w, settings, year));
    var html := head + notice + tail;
    OccursBetween(head, notice, tail);
    var review, end := " Please review the attached ", " for full details.\n      </div>";
    var name := AttachmentName(doc.name);
    OccursAtEnd(w.noticeStyle, w.noticeMarker);
    OccursInPrefix(w.noticeMarker, w.noticeStyle + w.noticeMarker, review, |w.noticeStyle|);
    OccursInPrefix(w.noticeMarker, w.noticeStyle + w.noticeMarker + review, name, |w.noticeStyle|);
    OccursInPrefix(w.noticeMarker, w.noticeStyle + w.noticeMarker + review + name, end, |w.noticeStyle|);
    OccursWithin(w.noticeMarker, notice, html, |w.noticeStyle|, |head|);
    OccursBetween(w.noticeStyle + w.noticeMarker + review, name, end);
    OccursWithin(name, notice, html, |w.noticeStyle + w.noticeMarker + review|, |head|);
  }

  /**
   * The attachment block is there exactly when a document is attached:
   * the email equals the one without attachment if and only if none is attached.
   */
  lemma AttachmentNoticeIffAttached(w: Wording, form: FormData, settings: CompanySettings, attachment: Option<AttachedDocument>, year: int)
    ensures Render(w, form, settings, attachment, year) == Render(w, form, settings, None, year) <==> attachment.None?
  {
    if attachment.Some? {
      assert |AttachmentNotice(w, attachment)| > 0;
    }
  }

  /** Cutting the attachment block out of the email leaves the email without attachment. */
  lemma AttachmentNoticeRemovable(w: Wording, form: FormData, settings: CompanySettings, doc: AttachedDocument, year: int)
    ensures var html, notice := Render(w, form, settings, Some(doc), year), AttachmentNotice(w, Some(doc));
      exists k :: OccursAt(notice, html, k) && RemovedAt(html, k, |notice|, Render(w, form, settings, None, year))
  {
    var head, tail := Join(HeadParts(w, form, settings)), Join(TailParts(w, settings, year));
    var notice := AttachmentNotice(w, Some(doc));
    var html := head + notice + tail;
    OccursBetween(head, notice, tail);
    CutOut(head, notice, tail);
    assert html == Render(w, form, settings, Some(doc), year);
    assert OccursAt(notice, html, |head|) && RemovedAt(html, |head|, |notice|, Render(w, form, settings, None, year));
  }

  /** The copyright line of the footer determines the year. */
  lemma CopyrightLineFixesYear(companyName: string, year1: int, year2: int)
    requires "      <p>" + Copyright(year1, companyName) + "</p>\n" == "      <p>" + Copyright(year2, companyName) + "</p>\n"
    ensures year1 == year2
  {
    var c := companyName;
    CancelSuffix("      <p>" + Copyright(year1, c), "      <p>" + Copyright(year2, c), "</p>\n");
    CancelPrefix("      <p>", Copyright(year1, c), Copyright(year2, c));
    var y1, y2 := Decimal.YearText(year1), Decimal.YearText(year2);
    CancelSuffix("&copy; " + y1 + " " + c, "&copy; " + y2 + " " + c, ". All rights reserved.");
    CancelSuffix("&copy; " + y1 + " ", "&copy; " + y2 + " ", c);
    CancelSuffix("&copy; " + y1, "&copy; " + y2, " ");
    CancelPrefix("&copy; ", y1, y2);
    Decimal.YearTextInjective(year1, year2);
  }

  /** The part of the template after the attachment block determines the year. */
  lemma TailFixesYear(w: Wording, settings: CompanySettings, year1: int, year2: int)
    requires Join(TailParts(w, settings, year1)) == Join(TailParts(w, settings, year2))
    ensures year1 == year2
  {
    var t1, t2 := TailParts(w, settings, year1), TailParts(w, settings, year2);
    JoinAround(t1, 6);
    JoinAround(t2, 6);
    assert t1[..6] == t2[..6] && t1[7..] == t2[7..];
    var a, b := Join(t1[..6]), Join(t1[7..]);
    AppendAssoc(a, t1[6], b);
    AppendAssoc(a, t2[6], b);
    CancelPrefix(a, t1[6] + b, t2[6] + b);
    CancelSuffix(t1[6], t2[6], b);
    CopyrightLineFixesYear(settings.companyName, year1, year2);
  }

  /** The year is really substituted: renderings for two different years differ. */
  lemma YearDeterminesRendering(w: Wording, form: FormData, settings: CompanySettings, attachment: Option<AttachedDocument>,
                                year1: int, year2: int)
    requires Render(w, form, settings, attachment, year1) == Render(w, form, settings, attachment, year2)
    ensures year1 == year2
  {
    var front := Join(HeadParts(w, form, settings)) + AttachmentNotice(w, attachment);
    CancelPrefix(front, Join(TailParts(w, settings, year1)), Join(TailParts(w, settings, year2)));
    TailFixesYear(w, settings, year1, year2);
  }
}
