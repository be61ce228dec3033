/**
 * `EmailController.sendRoadmapEmail`: validate, build the roadmap document,
 * mail it, answer. The resource endpoint, the PDF renderer and the mail
 * service are passed in; the handler reports the documents it rendered and
 * the mails it handed to the mail service.
 */
module EmailHandler {
  import opened Wrappers
  import opened Records
  import opened Http
  import opened Roadmap

  newtype byte = b: int | 0 <= b < 256

  /** A request entry: absent or JSON null, present with the expected type, or present with another type. */
  datatype Field<T> = Missing | Present(value: T) | Mistyped

  datatype Request = Request(topic: Field<string>, email: Field<string>, skills: Field<seq<Skill>>)

  /** One call of `sendEmailWithAttachment`. */
  datatype Mail = Mail(to: string, subject: string, text: string, attachment: seq<byte>)

  /**
   * How `sendEmailWithAttachment` returns: normally, with a
   * `MessagingException`, or with any other (unchecked) exception.
   */
  datatype MailOutcome = Delivered | MessagingFailure(detail: string) | OtherFailure(detail: string)

  /** The response, the paragraph lists handed to the renderer, and the mails handed to the mail service. */
  datatype Handled = Handled(response: Response, documents: seq<seq<string>>, mails: seq<Mail>)

  const FieldsRequired: string := "Topic, email, and skills are required."
  const SendFailed: string := "Failed to send email. Please try again."
  const Unexpected: string := "An unexpected error occurred."
  const SubjectHead: string := "Your Roadmap for "
  const LetterHead: string := "Dear User,\n\nPlease find attached your roadmap for learning "
  const LetterTail: string := ".\n\nBest regards,\nTariq Team"
  const ConfirmationHead: string := "Roadmap sent to "

  function Subject(topic: string): string {
    SubjectHead + topic
  }

  function Letter(topic: string): string {
    LetterHead + topic + LetterTail
  }

  function Confirmation(email: string): string {
    ConfirmationHead + email
  }

  /** One of the three casts in `sendRoadmapEmail` throws `ClassCastException`. */
  predicate Mistyped(req: Request) {
    req.topic.Mistyped? || req.email.Mistyped? || req.skills.Mistyped?
  }

  /** All three entries present and non-empty. */
  predicate Complete(req: Request) {
    && req.topic.Present? && |req.topic.value| > 0
    && req.email.Present? && |req.email.value| > 0
    && req.skills.Present? && |req.skills.value| > 0
  }

  /** The document the handler builds for a complete request. */
  function Document(req: Request, endpoint: (nat, string) -> Response): seq<string>
    requires Complete(req)
  {
    Paragraphs(req.topic.value, Entries(req.skills.value, endpoint))
  }

  /** POST /api/v1/email/send-roadmap-email with body `{topic, email, skills}`. */
  function SendRoadmapEmail(
    req: Request,
    endpoint: (nat, string) -> Response,
    render: seq<string> -> Result<seq<byte>, string>,
    send: Mail -> MailOutcome
  ): (h: Handled)
    ensures h.response.status in {OK, BadRequest, InternalServerError}
    ensures h.response.status == BadRequest <==> !Mistyped(req) && !Complete(req)
    ensures h.response.status == BadRequest ==> h == Handled(Response(BadRequest, Text(FieldsRequired)), [], [])
    ensures |h.documents| <= 1 && |h.mails| <= |h.documents|
    ensures |h.documents| == 1 <==> !Mistyped(req) && Complete(req)
    ensures |h.documents| == 1 ==> h.documents[0] == Document(req, endpoint)
    ensures |h.mails| == 1 <==> |h.documents| == 1 && render(h.documents[0]).Success?
    ensures |h.mails| == 1 ==>
      h.mails[0] == Mail(req.email.value, Subject(req.topic.value), Letter(req.topic.value), render(h.documents[0]).value)
    ensures h.response.status == OK <==> |h.mails| == 1 && send(h.mails[0]).Delivered?
    ensures h.response.status == OK ==> h.response.body == Text(Confirmation(req.email.value))
    ensures h.response.body == Text(SendFailed) <==> |h.mails| == 1 && send(h.mails[0]).MessagingFailure?
    ensures h.response.status == InternalServerError ==> h.response.body in {Text(SendFailed), Text(Unexpected)}
  {
    if Mistyped(req) then
      Handled(Response(InternalServerError, Text(Unexpected)), [], [])
    else if !Complete(req) then
      Handled(Response(BadRequest, Text(FieldsRequired)), [], [])
    else
      var topic, email := req.topic.value, req.email.value;
      var doc := Document(req, endpoint);
      match render(doc)
      case Failure(_) => Handled(Response(InternalServerError, Text(Unexpected)), [doc], [])
      case Success(pdf) =>
        var mail := Mail(email, Subject(topic), Letter(topic), pdf);
        match send(mail)
        case Delivered =>
          assert Confirmation(email)[0] != SendFailed[0];
          Handled(Response(OK, Text(Confirmation(email))), [doc], [mail])
        case MessagingFailure(_) => Handled(Response(InternalServerError, Text(SendFailed)), [doc], [mail])
        case OtherFailure(_) => Handled(Response(InternalServerError, Text(Unexpected)), [doc], [mail])
  }

  /** The fixed templates carry the topic (or address) verbatim, so each determines it. */
  lemma TemplatesDetermineInput(t: string, t': string)
    ensures Subject(t)[|SubjectHead|..] == t
    ensures Letter(t)[|LetterHead| .. |Letter(t)| - |LetterTail|] == t
    ensures Confirmation(t)[|ConfirmationHead|..] == t
    ensures Subject(t) == Subject(t') <==> t == t'
    ensures Letter(t) == Letter(t') <==> t == t'
    ensures Confirmation(t) == Confirmation(t') <==> t == t'
  {
  }

  /** Two mail outcomes of the same kind, whatever their detail. */
  predicate SameKind(a: MailOutcome, b: MailOutcome) {
    (a.Delivered? && b.Delivered?) || (a.MessagingFailure? && b.MessagingFailure?) || (a.OtherFailure? && b.OtherFailure?)
  }

  /** The client never sees the mail failure's detail: only its kind decides the response. */
  lemma FailureDetailNotExposed(
    req: Request,
    endpoint: (nat, string) -> Response,
    render: seq<string> -> Result<seq<byte>, string>,
    send: Mail -> MailOutcome,
    send': Mail -> MailOutcome)
    requires forall m :: SameKind(send(m), send'(m))
    ensures SendRoadmapEmail(req, endpoint, render, send).response == SendRoadmapEmail(req, endpoint, render, send').response
  {
    var h := SendRoadmapEmail(req, endpoint, render, send);
    if |h.mails| == 1 {
      assert SameKind(send(h.mails[0]), send'(h.mails[0]));
    }
  }

  /** A document that cannot be rendered is never mailed and yields the generic error. */
  lemma RenderFailureSendsNothing(
    req: Request,
    endpoint: (nat, string) -> Response,
    render: seq<string> -> Result<seq<byte>, string>,
    send: Mail -> MailOutcome)
    requires !Mistyped(req) && Complete(req) && render(Document(req, endpoint)).Failure?
    ensures SendRoadmapEmail(req, endpoint, render, send)
            == Handled(Response(InternalServerError, Text(Unexpected)), [Document(req, endpoint)], [])
  {
  }

  /** The success path: one document rendered, one mail handed over, and only then the confirmation. */
  lemma DeliveredPath(
    req: Request,
    endpoint: (nat, string) -> Response,
    render: seq<string> -> Result<seq<byte>, string>,
    send: Mail -> MailOutcome)
    requires !Mistyped(req) && Complete(req) && render(Document(req, endpoint)).Success?
    requires send(Mail(req.email.value, Subject(req.topic.value), Letter(req.topic.value),
                       render(Document(req, endpoint)).value)) == Delivered
    ensures SendRoadmapEmail(req, endpoint, render, send)
            == Handled(Response(OK, Text(Confirmation(req.email.value))),
                       [Document(req, endpoint)],
                       [Mail(req.email.value, Subject(req.topic.value), Letter(req.topic.value),
                             render(Document(req, endpoint)).value)])
  {
  }

  const RustSkill: Skill := Skill(Some("Ownership"), Some("Who frees memory"))
  const RustBook: Resource := Resource(Some("Book"), Some("rust-lang.org"), Some("book"))
  const RustCourse: Resource := Resource(Some("Rustlings"), Some("rustlings.cool"), Some("course"))
  const RustRequest: Request := Request(Present("Rust"), Present("learner@example.org"), Present([RustSkill]))

  const RustListing: seq<string> :=
    [" - Book (book)", "   URL: rust-lang.org", " - Rustlings (course)", "   URL: rustlings.cool"]
  const RustSectionText: seq<string> :=
    ["Skill: Ownership", "Description: Who frees memory", "\nLearning Resources:"] + RustListing + ["\n"]

  lemma RustBookTexts()
    ensures ResourceLine(RustBook) == " - Book (book)"
    ensures UrlLine(RustBook) == "   URL: rust-lang.org"
  {
  }

  lemma RustCourseTexts()
    ensures ResourceLine(RustCourse) == " - Rustlings (course)"
    ensures UrlLine(RustCourse) == "   URL: rustlings.cool"
  {
  }

  lemma RustResourceLines()
    ensures ResourceLines([RustBook, RustCourse]) == RustListing
  {
    assert [RustBook, RustCourse][1..] == [RustCourse];
    assert ResourceLines([RustCourse]) == [ResourceLine(RustCourse), UrlLine(RustCourse)];
    RustBookTexts();
    RustCourseTexts();
  }

  lemma RustSkillTexts()
    ensures SkillLine(RustSkill) == "Skill: Ownership"
    ensures DescriptionLine(RustSkill) == "Description: Who frees memory"
  {
  }

  lemma RustSection()
    ensures Section(Entry(RustSkill, Some([RustBook, RustCourse]))) == RustSectionText
  {
    var e := Entry(RustSkill, Some([RustBook, RustCourse]));
    assert Section(e) == [SkillLine(RustSkill), DescriptionLine(RustSkill), ResourcesHeading]
                         + ResourceLines([RustBook, RustCourse]) + [Separator];
    RustResourceLines();
    RustSkillTexts();
  }

  lemma RustEntries(endpoint: (nat, string) -> Response)
    requires forall i, n :: endpoint(i, n) == Response(OK, ResourceList([RustBook, RustCourse]))
    ensures Entries([RustSkill], endpoint) == [Entry(RustSkill, Some([RustBook, RustCourse]))]
  {
    var es := Entries([RustSkill], endpoint);
    assert es[0] == Entry(RustSkill, FetchResourcesForSkill(Some("Ownership"), n => endpoint(0, n)));
  }

  /** The roadmap for topic "Rust" with one skill whose lookup found two resources. */
  lemma RustDocument(endpoint: (nat, string) -> Response)
    requires forall i, n :: endpoint(i, n) == Response(OK, ResourceList([RustBook, RustCourse]))
    ensures Document(RustRequest, endpoint) == ["Roadmap for: Rust", "\nSkills:"] + RustSectionText
  {
    var e := Entry(RustSkill, Some([RustBook, RustCourse]));
    RustEntries(endpoint);
    RustSection();
    assert Sections([e]) == Section(e) + Sections([]);
    assert TitleLine("Rust") == "Roadmap for: Rust";
  }

  /**
   * One skill, a lookup that finds two resources: the document holds the
   * title, the skill and exactly two resource lines, and exactly one mail
   * goes out, with the fixed subject and letter.
   */
  lemma RustScenario(
    endpoint: (nat, string) -> Response,
    render: seq<string> -> Result<seq<byte>, string>,
    send: Mail -> MailOutcome)
    requires forall i, n :: endpoint(i, n) == Response(OK, ResourceList([RustBook, RustCourse]))
    requires forall doc :: render(doc) == Success([37])
    requires forall m :: send(m) == Delivered
    ensures var h := SendRoadmapEmail(RustRequest, endpoint, render, send);
            && h.response == Response(OK, Text("Roadmap sent to learner@example.org"))
            && h.documents == [["Roadmap for: Rust", "\nSkills:"] + RustSectionText]
            && h.mails == [Mail("learner@example.org", "Your Roadmap for Rust", Letter("Rust"), [37])]
  {
    assert !Mistyped(RustRequest) && Complete(RustRequest);
    RustDocument(endpoint);
    DeliveredPath(RustRequest, endpoint, render, send);
    RustTemplates();
  }

  lemma RustTemplates()
    ensures Subject("Rust") == "Your Roadmap for Rust"
    ensures Confirmation("learner@example.org") == "Roadmap sent to learner@example.org"
  {
  }
}
