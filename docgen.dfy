/** The document generators of js/docgen.js. Each generator turns a record into the
    page margins, the ordered paragraphs of the single section, and the download file
    name. Paragraphs and runs are plain values here; serialising them to
    WordprocessingML and zipping the package is done by the docx.js library and is not
    part of this model. */
module DocGen {
  import opened Wrappers
  import opened Strings
  import opened JsValues

  // ---------------------------------------------------------------- document values

  /** Paragraph alignment; `Unset` when the source gives none. */
  datatype Alignment = Unset | Center | Right | Justified

  /** A text run; `size` is in half-points, as docx.js takes it. */
  datatype Run = Run(text: string, bold: bool, underline: bool, size: nat)

  /** A paragraph: alignment, spacing before and after (in twentieths of a point, absent
      when the source gives none), whether it carries a right tab stop at the right margin,
      and its runs. A paragraph without runs is a blank line. */
  datatype Paragraph = Paragraph(
    alignment: Alignment,
    spaceBefore: Option<nat>,
    spaceAfter: Option<nat>,
    rightTabAtMax: bool,
    runs: seq<Run>)

  /** Page margins in tenths of an inch (docx.js converts them to twips). */
  datatype Margins = Margins(top: nat, right: nat, bottom: nat, left: nat)

  datatype Document = Document(margins: Margins, body: seq<Paragraph>)

  /** What a generator hands to the download step: the document and its file name. */
  datatype Generated = Generated(doc: Document, filename: string)

  /** Errors a generation can end with. `NotAFunction` is the TypeError raised when a
      record field holds a value without the method the generator calls on it. */
  datatype GenError = InvalidDocumentType | NotAFunction(callee: string) | UndefinedToObject

  function Message(e: GenError): string
  {
    match e
    case InvalidDocumentType => "Invalid document type"
    case NotAFunction(callee) => callee + " is not a function"
    case UndefinedToObject => "Cannot convert undefined or null to object"
  }

  datatype DocKind = CertifiedCopy | Vakalatnama | NewPetition

  /** The `generators` table of `generateDocument`. */
  const GENERATORS: map<string, DocKind> :=
    map["certified-copy" := CertifiedCopy, "vakalatnama" := Vakalatnama, "new-petition" := NewPetition]

  const ELLIPSIS: char := '\U{2026}'
  const BULLET: char := '\U{2022}'

  function Plain(text: string, size: nat): Run { Run(text, false, false, size) }

  /** A paragraph with one run and no tab stop. */
  function Para(alignment: Alignment, before: Option<nat>, after: Option<nat>, run: Run): Paragraph
  {
    Paragraph(alignment, before, after, false, [run])
  }

  // ---------------------------------------------------------------- shared pieces

  /** `(data.Court || '').toUpperCase()`: a TypeError when Court holds a truthy non-string. */
  function CourtCaption(data: Record): (r: Result<string, GenError>)
    ensures r.Failure? <==> "Court" in data && Truthy(data["Court"]) && !data["Court"].Str?
    ensures r.Failure? ==> r.error == NotAFunction("toUpperCase")
    ensures r.Success? ==> r.value == AsciiUpper(Or(data, "Court", ""))
  {
    if "Court" in data && Truthy(data["Court"]) then
      if data["Court"].Str? then Success(AsciiUpper(data["Court"].s))
      else Failure(NotAFunction("toUpperCase"))
    else Success("")
  }

  /** The first paragraph of every template: the court, centred, bold, size 28. */
  function CourtHeading(caption: string, after: nat): Paragraph
  {
    Para(Center, None, Some(after), Run(caption, true, false, 28))
  }

  predicate IsCourtHeading(p: Paragraph, data: Record)
  {
    p.alignment == Center && |p.runs| == 1 && p.runs[0].bold && p.runs[0].size == 28
    && p.runs[0].text == AsciiUpper(Or(data, "Court", ""))
  }

  /** `data.Docs || []`, which the generator then maps over: a TypeError when Docs holds
      a truthy value that is not an array. */
  function DocsOf(data: Record): (r: Result<seq<Value>, GenError>)
    ensures "Docs" !in data || !Truthy(data["Docs"]) ==> r == Success([])
    ensures "Docs" in data && data["Docs"].List? ==> r == Success(data["Docs"].items)
    ensures r.Failure? <==> "Docs" in data && Truthy(data["Docs"]) && !data["Docs"].List?
    ensures r.Failure? ==> r.error == NotAFunction("map")
  {
    if "Docs" in data && Truthy(data["Docs"]) then
      if data["Docs"].List? then Success(data["Docs"].items) else Failure(NotAFunction("map"))
    else Success([])
  }

  /** Every paragraph holds exactly one run. */
  predicate SingleRuns(ps: seq<Paragraph>)
  {
    forall i :: 0 <= i < |ps| ==> |ps[i].runs| == 1
  }

  lemma SingleRunsConcat(a: seq<Paragraph>, b: seq<Paragraph>)
    requires SingleRuns(a) && SingleRuns(b)
    ensures SingleRuns(a + b)
  {
    forall i | 0 <= i < |a + b|
      ensures |(a + b)[i].runs| == 1
    {
      if i >= |a| {
        assert (a + b)[i] == b[i - |a|];
      }
    }
  }

  /** One requested document, as an indented bullet. */
  function Bullet(doc: Value): Paragraph
  {
    Para(Unset, None, Some(50), Plain("\t" + [BULLET] + " " + ToText(doc), 24))
  }

  function PlaceLine(data: Record, after: nat): Paragraph
  {
    Para(Unset, None, Some(after), Plain("Place: " + Or(data, "Place", ""), 24))
  }

  /** The date line; `today` is the browser's current date in its default locale. */
  function DateLine(data: Record, today: string, after: nat): Paragraph
  {
    Para(Unset, None, Some(after), Plain("Date: " + Or(data, "Date", today), 24))
  }

  // ---------------------------------------------------------------- certified copy

  const CERTIFIED_COPY_MARGINS: Margins := Margins(12, 10, 10, 20)

  const CERTIFIED_COPY_TITLE: string := "APPLICATION FOR CERTIFIED COPY"
  const APPLICANT_SUBMITS: string := "The Applicant above named most respectfully submits as under:"
  const DOCUMENTS_REQUIRED: string := "2.\tThat the Applicant requires a certified copy of the following document(s):"
  const COPY_PRAYER: string :=
    "3.\tThat the Applicant prays that this Hon'ble Court may be pleased to issue the certified copy/copies of "
    + "the aforesaid document(s) to the Applicant at the earliest."

  /** Item 1: the suit type, case number and year of the pending case. */
  function PendingCaseText(data: Record): string
  {
    "1.\tThat the Applicant is the Petitioner in the " + Or(data, "SuitType", "") + " bearing Case No. "
    + Or(data, "CaseNo", "") + " of " + Or(data, "Year", "") + " pending before this Hon'ble Court."
  }

  /** The caption, case number, parties, title, salutation and items 1 and 2. */
  function CertifiedCopyHead(data: Record): (head: seq<Paragraph>)
    requires CourtCaption(data).Success?
    ensures |head| == 9
    ensures SingleRuns(head)
    ensures IsCourtHeading(head[0], data)
    ensures head[1].runs[0].text == "Case No. " + Or(data, "CaseNo", "")
    ensures head[2].runs[0].text == Or(data, "Plaintiff", "") + "\t\t" + [ELLIPSIS] + "Petitioner"
    ensures head[3].runs[0].text == "VERSUS"
    ensures head[4].runs[0].text == Or(data, "Defendant", "") + "\t\t" + [ELLIPSIS] + "Respondent"
    ensures head[5].runs[0].text == CERTIFIED_COPY_TITLE && head[6].runs[0].text == APPLICANT_SUBMITS
    ensures head[7].runs[0].text == PendingCaseText(data)
    ensures head[8].runs[0].text == DOCUMENTS_REQUIRED
  {
    [ CourtHeading(CourtCaption(data).value, 200),
      Para(Right, None, Some(200), Plain("Case No. " + Or(data, "CaseNo", ""), 24)),
      Paragraph(Unset, None, None, true, [Plain(Or(data, "Plaintiff", "") + "\t\t" + [ELLIPSIS] + "Petitioner", 24)]),
      Para(Center, Some(100), Some(100), Plain("VERSUS", 24)),
      Paragraph(Unset, None, Some(300), true, [Plain(Or(data, "Defendant", "") + "\t\t" + [ELLIPSIS] + "Respondent", 24)]),
      Para(Center, Some(300), Some(300), Run(CERTIFIED_COPY_TITLE, true, true, 24)),
      Para(Unset, None, Some(200), Plain(APPLICANT_SUBMITS, 24)),
      Para(Unset, None, Some(150), Plain(PendingCaseText(data), 24)),
      Para(Unset, None, Some(100), Plain(DOCUMENTS_REQUIRED, 24)) ]
  }

  /** Item 3 and the signature block: place, date, applicant and mobile number. */
  function CertifiedCopyTail(data: Record, today: string): (tail: seq<Paragraph>)
    ensures |tail| == 5
    ensures SingleRuns(tail)
    ensures tail[0].runs[0].text == COPY_PRAYER
    ensures tail[1].runs[0].text == "Place: " + Or(data, "Place", "")
    ensures tail[2].runs[0].text == "Date: " + Or(data, "Date", today)
    ensures tail[3].runs[0].text == Or(data, "Applicant", "")
    ensures tail[4].runs[0].text == Or(data, "Mobile", "")
  {
    [ Para(Unset, Some(150), Some(300), Plain(COPY_PRAYER, 24)),
      PlaceLine(data, 50),
      DateLine(data, today, 150),
      Para(Right, None, Some(50), Plain(Or(data, "Applicant", ""), 24)),
      Paragraph(Right, None, None, false, [Plain(Or(data, "Mobile", ""), 24)]) ]
  }

  function Bullets(docs: seq<Value>): (bullets: seq<Paragraph>)
    ensures |bullets| == |docs| && SingleRuns(bullets)
    ensures forall k :: 0 <= k < |docs| ==> bullets[k] == Bullet(docs[k])
  {
    seq(|docs|, k requires 0 <= k < |docs| => Bullet(docs[k]))
  }

  /** The certified-copy layout: 14 fixed paragraphs, every one a single run, and one
      bullet per requested document, in order, between item 2 and item 3. */
  predicate CertifiedCopyLayout(body: seq<Paragraph>, data: Record, docs: seq<Value>, today: string)
  {
    CertifiedCopyShape(body, data, docs, today, DOCUMENTS_REQUIRED, COPY_PRAYER)
  }

  /** The certified-copy layout with the texts of items 2 and 3 left as parameters. */
  predicate CertifiedCopyShape(body: seq<Paragraph>, data: Record, docs: seq<Value>, today: string,
                               required: string, prayer: string)
  {
    && |body| == 14 + |docs|
    && SingleRuns(body)
    && IsCourtHeading(body[0], data)
    && body[1].runs[0].text == "Case No. " + Or(data, "CaseNo", "")
    && body[2].runs[0].text == Or(data, "Plaintiff", "") + "\t\t" + [ELLIPSIS] + "Petitioner"
    && body[3].runs[0].text == "VERSUS"
    && body[4].runs[0].text == Or(data, "Defendant", "") + "\t\t" + [ELLIPSIS] + "Respondent"
    && body[5].runs[0].text == CERTIFIED_COPY_TITLE
    && body[6].runs[0].text == APPLICANT_SUBMITS
    && body[7].runs[0].text == PendingCaseText(data)
    && body[8].runs[0].text == required
    && (forall k :: 0 <= k < |docs| ==> body[9 + k] == Bullet(docs[k]))
    && body[9 + |docs|].runs[0].text == prayer
    && body[10 + |docs|].runs[0].text == "Place: " + Or(data, "Place", "")
    && body[11 + |docs|].runs[0].text == "Date: " + Or(data, "Date", today)
    && body[12 + |docs|].runs[0].text == Or(data, "Applicant", "")
    && body[13 + |docs|].runs[0].text == Or(data, "Mobile", "")
  }

  function CertifiedCopyBody(data: Record, docs: seq<Value>, today: string): (body: seq<Paragraph>)
    requires CourtCaption(data).Success?
    ensures CertifiedCopyLayout(body, data, docs, today)
  {
    var head := CertifiedCopyHead(data);
    var tail := CertifiedCopyTail(data, today);
    CertifiedCopyAssembly(head, docs, tail, data, today, DOCUMENTS_REQUIRED, COPY_PRAYER);
    head + Bullets(docs) + tail
  }

  /** Placing the bullets between the fixed head and tail gives the certified-copy layout. */
  lemma CertifiedCopyAssembly(head: seq<Paragraph>, docs: seq<Value>, tail: seq<Paragraph>, data: Record, today: string,
                              required: string, prayer: string)
    requires |head| == 9 && SingleRuns(head)
    requires IsCourtHeading(head[0], data)
    requires head[1].runs[0].text == "Case No. " + Or(data, "CaseNo", "")
    requires head[2].runs[0].text == Or(data, "Plaintiff", "") + "\t\t" + [ELLIPSIS] + "Petitioner"
    requires head[3].runs[0].text == "VERSUS"
    requires head[4].runs[0].text == Or(data, "Defendant", "") + "\t\t" + [ELLIPSIS] + "Respondent"
    requires head[5].runs[0].text == CERTIFIED_COPY_TITLE && head[6].runs[0].text == APPLICANT_SUBMITS
    requires head[7].runs[0].text == PendingCaseText(data)
    requires head[8].runs[0].text == required
    requires |tail| == 5 && SingleRuns(tail)
    requires tail[0].runs[0].text == prayer
    requires tail[1].runs[0].text == "Place: " + Or(data, "Place", "")
    requires tail[2].runs[0].text == "Date: " + Or(data, "Date", today)
    requires tail[3].runs[0].text == Or(data, "Applicant", "")
    requires tail[4].runs[0].text == Or(data, "Mobile", "")
    ensures CertifiedCopyShape(head + Bullets(docs) + tail, data, docs, today, required, prayer)
  {
    var bullets := Bullets(docs);
    var n := |docs|;
    var hb := head + bullets;
    var body := hb + tail;
    SingleRunsConcat(head, bullets);
    SingleRunsConcat(hb, tail);
    assert body[0] == head[0] && body[1] == head[1] && body[2] == head[2];
    assert body[3] == head[3] && body[4] == head[4] && body[5] == head[5] && body[6] == head[6];
    assert body[7] == head[7] && body[8] == head[8];
    forall k | 0 <= k < n
      ensures body[9 + k] == Bullet(docs[k])
    {
      assert body[9 + k] == hb[9 + k] == bullets[k];
    }
    assert body[9 + n] == tail[0] && body[10 + n] == tail[1] && body[11 + n] == tail[2];
    assert body[12 + n] == tail[3] && body[13 + n] == tail[4];
  }

  /** `generateCertifiedCopy`: the caption, the parties, the numbered paragraphs with one
      bullet per requested document between items 2 and 3, and the signature block. */
  function GenerateCertifiedCopy(data: Record, today: string): (r: Result<Generated, GenError>)
    ensures r.Failure? <==> CourtCaption(data).Failure? || DocsOf(data).Failure?
    ensures r.Failure? ==> r.error == (if CourtCaption(data).Failure? then CourtCaption(data).error else DocsOf(data).error)
    ensures r.Success? ==> CertifiedCopyLayout(r.value.doc.body, data, DocsOf(data).value, today)
    ensures r.Success? ==> r.value.filename == "Certified_Copy_" + Or(data, "Applicant", "Application") + ".docx"
    ensures r.Success? ==> WellShaped(r.value, data)
  {
    match CourtCaption(data)
    case Failure(e) => Failure(e)
    case Success(_) =>
      match DocsOf(data)
      case Failure(e) => Failure(e)
      case Success(docs) =>
        DocxName("Certified_Copy_" + Or(data, "Applicant", "Application"));
        Success(Generated(
          Document(CERTIFIED_COPY_MARGINS, CertifiedCopyBody(data, docs, today)),
          "Certified_Copy_" + Or(data, "Applicant", "Application") + ".docx"))
  }

  // ---------------------------------------------------------------- vakalatnama

  const VAKALATNAMA_MARGINS: Margins := Margins(10, 10, 10, 15)

  const AUTHORITY_CLAUSE: string :=
    "I hereby authorize the said Advocate to file, sign and verify all applications, petitions, affidavits and "
    + "other documents, to appear and conduct the case on my behalf, to compromise, withdraw or otherwise deal with "
    + "the case as may be deemed fit, and to do all other acts, deeds and things necessary for the proper conduct of "
    + "the case."

  /** The appointing sentence, naming the client, the advocate, the case and the court. */
  function AppointmentText(data: Record): string
  {
    "I, " + Or(data, "Client", "") + ", son/daughter of " + Or(data, "ClientFather", "")
    + ", residing at " + Or(data, "ClientAddress", "") + ", do hereby appoint and authorize " + Or(data, "Advocate", "")
    + ", Advocate, practicing at " + Or(data, "AdvocateAddress", "") + ", to appear, act and plead for me in Case No. "
    + Or(data, "CaseNo", "") + " pending before the " + Or(data, "Court", "") + "."
  }

  /** The vakalatnama layout: twelve paragraphs, the ninth a blank spacer without runs
      and every other one a single run. */
  predicate VakalatnamaLayout(body: seq<Paragraph>, data: Record, today: string)
  {
    && |body| == 12
    && SingleRuns(body[..8]) && body[8].runs == [] && SingleRuns(body[9..])
    && IsCourtHeading(body[0], data)
    && body[1].runs[0].text == "VAKALATNAMA"
    && body[2].runs[0].text == AppointmentText(data)
    && body[3].runs[0].text == AUTHORITY_CLAUSE
    && body[4].runs[0].text == "Place: " + Or(data, "Place", "")
    && body[5].runs[0].text == "Date: " + Or(data, "Date", today)
    && body[6].runs[0].text == Or(data, "Client", "")
    && body[7].runs[0].text == "(Client)"
    && body[9].runs[0].text == "Accepted:"
    && body[10].runs[0].text == Or(data, "Advocate", "")
    && body[11].runs[0].text == "(Advocate)"
  }

  /** The caption, the title, the appointment and the authority clause. */
  function VakalatnamaOpening(data: Record): (o: seq<Paragraph>)
    requires CourtCaption(data).Success?
    ensures |o| == 4 && SingleRuns(o)
    ensures IsCourtHeading(o[0], data)
    ensures o[1].runs[0].text == "VAKALATNAMA"
    ensures o[2].runs[0].text == AppointmentText(data)
    ensures o[3].runs[0].text == AUTHORITY_CLAUSE
  {
    [ CourtHeading(CourtCaption(data).value, 200),
      Para(Center, Some(200), Some(300), Run("VAKALATNAMA", true, true, 28)),
      Para(Justified, None, Some(200), Plain(AppointmentText(data), 24)),
      Para(Justified, None, Some(300), Plain(AUTHORITY_CLAUSE, 24)) ]
  }

  /** Place, date and the client's signature. */
  function VakalatnamaSignature(data: Record, today: string): (g: seq<Paragraph>)
    ensures |g| == 4 && SingleRuns(g)
    ensures g[0].runs[0].text == "Place: " + Or(data, "Place", "")
    ensures g[1].runs[0].text == "Date: " + Or(data, "Date", today)
    ensures g[2].runs[0].text == Or(data, "Client", "")
    ensures g[3].runs[0].text == "(Client)"
  {
    [ PlaceLine(data, 50),
      DateLine(data, today, 200),
      Para(Right, None, Some(50), Plain(Or(data, "Client", ""), 24)),
      Para(Right, None, None, Plain("(Client)", 20)) ]
  }

  /** A blank spacer, then the advocate's acceptance. */
  function VakalatnamaAcceptance(data: Record): (c: seq<Paragraph>)
    ensures |c| == 4 && c[0].runs == [] && SingleRuns(c[1..])
    ensures c[1].runs[0].text == "Accepted:"
    ensures c[2].runs[0].text == Or(data, "Advocate", "")
    ensures c[3].runs[0].text == "(Advocate)"
  {
    [ Paragraph(Unset, Some(300), Some(100), false, []),
      Para(Unset, None, Some(200), Plain("Accepted:", 24)),
      Para(Right, None, Some(50), Plain(Or(data, "Advocate", ""), 24)),
      Para(Right, None, None, Plain("(Advocate)", 20)) ]
  }

  function VakalatnamaBody(data: Record, today: string): (body: seq<Paragraph>)
    requires CourtCaption(data).Success?
    ensures VakalatnamaLayout(body, data, today)
  {
    var o := VakalatnamaOpening(data);
    var g := VakalatnamaSignature(data, today);
    var c := VakalatnamaAcceptance(data);
    VakalatnamaAssembly(o, g, c, data, today, AppointmentText(data));
    o + g + c
  }

  /** The three parts in order give the vakalatnama layout. */
  lemma VakalatnamaAssembly(o: seq<Paragraph>, g: seq<Paragraph>, c: seq<Paragraph>, data: Record, today: string,
                            appointment: string)
    requires |o| == 4 && SingleRuns(o) && IsCourtHeading(o[0], data)
    requires o[1].runs[0].text == "VAKALATNAMA" && o[2].runs[0].text == appointment
    requires o[3].runs[0].text == AUTHORITY_CLAUSE
    requires |g| == 4 && SingleRuns(g)
    requires g[0].runs[0].text == "Place: " + Or(data, "Place", "")
    requires g[1].runs[0].text == "Date: " + Or(data, "Date", today)
    requires g[2].runs[0].text == Or(data, "Client", "") && g[3].runs[0].text == "(Client)"
    requires |c| == 4 && c[0].runs == [] && SingleRuns(c[1..])
    requires c[1].runs[0].text == "Accepted:" && c[2].runs[0].text == Or(data, "Advocate", "")
    requires c[3].runs[0].text == "(Advocate)"
    ensures var body := o + g + c;
      && |body| == 12
      && SingleRuns(body[..8]) && body[8].runs == [] && SingleRuns(body[9..])
      && IsCourtHeading(body[0], data)
      && body[1].runs[0].text == "VAKALATNAMA"
      && body[2].runs[0].text == appointment
      && body[3].runs[0].text == AUTHORITY_CLAUSE
      && body[4].runs[0].text == "Place: " + Or(data, "Place", "")
      && body[5].runs[0].text == "Date: " + Or(data, "Date", today)
      && body[6].runs[0].text == Or(data, "Client", "")
      && body[7].runs[0].text == "(Client)"
      && body[9].runs[0].text == "Accepted:"
      && body[10].runs[0].text == Or(data, "Advocate", "")
      && body[11].runs[0].text == "(Advocate)"
  {
    var body := o + g + c;
    assert body[..8] == o + g;
    assert body[9..] == c[1..];
    SingleRunsConcat(o, g);
    assert body[0] == o[0] && body[1] == o[1] && body[2] == o[2] && body[3] == o[3];
    assert body[4] == g[0] && body[5] == g[1] && body[6] == g[2] && body[7] == g[3];
    assert body[8] == c[0] && body[9] == c[1] && body[10] == c[2] && body[11] == c[3];
  }

  /** `generateVakalatnama`: the caption, the appointment of the advocate, the client's
      signature block and the advocate's acceptance. */
  function GenerateVakalatnama(data: Record, today: string): (r: Result<Generated, GenError>)
    ensures r.Failure? <==> CourtCaption(data).Failure?
    ensures r.Failure? ==> r.error == CourtCaption(data).error
    ensures r.Success? ==> VakalatnamaLayout(r.value.doc.body, data, today)
    ensures r.Success? ==> r.value.filename == "Vakalatnama_" + Or(data, "Client", "Document") + ".docx"
    ensures r.Success? ==> WellShaped(r.value, data)
  {
    match CourtCaption(data)
    case Failure(e) => Failure(e)
    case Success(_) =>
      DocxName("Vakalatnama_" + Or(data, "Client", "Document"));
      Success(Generated(
        Document(VAKALATNAMA_MARGINS, VakalatnamaBody(data, today)),
        "Vakalatnama_" + Or(data, "Client", "Document") + ".docx"))
  }

  // ---------------------------------------------------------------- new petition

  const PETITION_MARGINS: Margins := Margins(12, 10, 10, 20)

  const PETITIONER_SUBMITS: string := "The Petitioner above named most respectfully submits as under:"
  const RELIEF_PRAYER: string :=
    "In light of the above facts and circumstances, it is most respectfully prayed that this Hon'ble Court "
    + "may be pleased to: "

  function Heading(text: string): Paragraph
  {
    Para(Unset, None, Some(150), Run(text, true, true, 24))
  }

  /** The petition layout: seventeen single-run paragraphs; the title defaults to 'PETITION'
      and the parties are read from 'Petitioner' and 'Respondent'. */
  predicate PetitionLayout(body: seq<Paragraph>, data: Record, today: string)
  {
    && |body| == 17
    && SingleRuns(body)
    && IsCourtHeading(body[0], data)
    && body[1].runs[0].text == Or(data, "PetitionType", "PETITION")
    && body[2].runs[0].text == Or(data, "Subject", "")
    && body[3].runs[0].text == Or(data, "Petitioner", "") + "\t\t" + [ELLIPSIS] + "Petitioner"
    && body[4].runs[0].text == "VERSUS"
    && body[5].runs[0].text == Or(data, "Respondent", "") + "\t\t" + [ELLIPSIS] + "Respondent"
    && body[6].runs[0].text == PETITIONER_SUBMITS
    && body[7].runs[0].text == "BRIEF FACTS"
    && body[8].runs[0].text == Or(data, "Facts", "")
    && body[9].runs[0].text == "GROUNDS"
    && body[10].runs[0].text == Or(data, "Grounds", "")
    && body[11].runs[0].text == "PRAYER"
    && body[12].runs[0].text == RELIEF_PRAYER + Or(data, "Relief", "")
    && body[13].runs[0].text == "Place: " + Or(data, "Place", "")
    && body[14].runs[0].text == "Date: " + Or(data, "Date", today)
    && body[15].runs[0].text == Or(data, "Petitioner", "")
    && body[16].runs[0].text == "(Petitioner)"
  }

  /** The caption, title, subject, the parties and the opening sentence. */
  function PetitionCaption(data: Record): (p: seq<Paragraph>)
    requires CourtCaption(data).Success?
    ensures |p| == 7 && SingleRuns(p)
    ensures IsCourtHeading(p[0], data)
    ensures p[1].runs[0].text == Or(data, "PetitionType", "PETITION")
    ensures p[2].runs[0].text == Or(data, "Subject", "")
    ensures p[3].runs[0].text == Or(data, "Petitioner", "") + "\t\t" + [ELLIPSIS] + "Petitioner"
    ensures p[4].runs[0].text == "VERSUS"
    ensures p[5].runs[0].text == Or(data, "Respondent", "") + "\t\t" + [ELLIPSIS] + "Respondent"
    ensures p[6].runs[0].text == PETITIONER_SUBMITS
  {
    [ CourtHeading(CourtCaption(data).value, 300),
      Para(Center, None, Some(100), Run(Or(data, "PetitionType", "PETITION"), true, true, 26)),
      Para(Center, None, Some(300), Plain(Or(data, "Subject", ""), 24)),
      Para(Unset, None, Some(100), Plain(Or(data, "Petitioner", "") + "\t\t" + [ELLIPSIS] + "Petitioner", 24)),
      Para(Center, Some(100), Some(100), Plain("VERSUS", 24)),
      Para(Unset, None, Some(300), Plain(Or(data, "Respondent", "") + "\t\t" + [ELLIPSIS] + "Respondent", 24)),
      Para(Unset, None, Some(200), Plain(PETITIONER_SUBMITS, 24)) ]
  }

  /** The facts, the grounds and the prayer, each under its heading. */
  function PetitionSections(data: Record): (p: seq<Paragraph>)
    ensures |p| == 6 && SingleRuns(p)
    ensures p[0].runs[0].text == "BRIEF FACTS" && p[1].runs[0].text == Or(data, "Facts", "")
    ensures p[2].runs[0].text == "GROUNDS" && p[3].runs[0].text == Or(data, "Grounds", "")
    ensures p[4].runs[0].text == "PRAYER" && p[5].runs[0].text == RELIEF_PRAYER + Or(data, "Relief", "")
  {
    [ Heading("BRIEF FACTS"),
      Para(Justified, None, Some(200), Plain(Or(data, "Facts", ""), 24)),
      Heading("GROUNDS"),
      Para(Justified, None, Some(200), Plain(Or(data, "Grounds", ""), 24)),
      Heading("PRAYER"),
      Para(Justified, None, Some(300), Plain(RELIEF_PRAYER + Or(data, "Relief", ""), 24)) ]
  }

  /** Place, date and the petitioner's signature. */
  function PetitionSignature(data: Record, today: string): (p: seq<Paragraph>)
    ensures |p| == 4 && SingleRuns(p)
    ensures p[0].runs[0].text == "Place: " + Or(data, "Place", "")
    ensures p[1].runs[0].text == "Date: " + Or(data, "Date", today)
    ensures p[2].runs[0].text == Or(data, "Petitioner", "")
    ensures p[3].runs[0].text == "(Petitioner)"
  {
    [ PlaceLine(data, 50),
      DateLine(data, today, 200),
      Para(Right, None, Some(50), Plain(Or(data, "Petitioner", ""), 24)),
      Para(Right, None, None, Plain("(Petitioner)", 20)) ]
  }

  function PetitionBody(data: Record, today: string): (body: seq<Paragraph>)
    requires CourtCaption(data).Success?
    ensures PetitionLayout(body, data, today)
  {
    var c := PetitionCaption(data);
    var s := PetitionSections(data);
    var g := PetitionSignature(data, today);
    PetitionAssembly(c, s, g, data, today);
    c + s + g
  }

  /** The three parts in order give the petition layout. */
  lemma PetitionAssembly(c: seq<Paragraph>, s: seq<Paragraph>, g: seq<Paragraph>, data: Record, today: string)
    requires |c| == 7 && SingleRuns(c) && IsCourtHeading(c[0], data)
    requires c[1].runs[0].text == Or(data, "PetitionType", "PETITION")
    requires c[2].runs[0].text == Or(data, "Subject", "")
    requires c[3].runs[0].text == Or(data, "Petitioner", "") + "\t\t" + [ELLIPSIS] + "Petitioner"
    requires c[4].runs[0].text == "VERSUS"
    requires c[5].runs[0].text == Or(data, "Respondent", "") + "\t\t" + [ELLIPSIS] + "Respondent"
    requires c[6].runs[0].text == PETITIONER_SUBMITS
    requires |s| == 6 && SingleRuns(s)
    requires s[0].runs[0].text == "BRIEF FACTS" && s[1].runs[0].text == Or(data, "Facts", "")
    requires s[2].runs[0].text == "GROUNDS" && s[3].runs[0].text == Or(data, "Grounds", "")
    requires s[4].runs[0].text == "PRAYER" && s[5].runs[0].text == RELIEF_PRAYER + Or(data, "Relief", "")
    requires |g| == 4 && SingleRuns(g)
    requires g[0].runs[0].text == "Place: " + Or(data, "Place", "")
    requires g[1].runs[0].text == "Date: " + Or(data, "Date", today)
    requires g[2].runs[0].text == Or(data, "Petitioner", "") && g[3].runs[0].text == "(Petitioner)"
    ensures PetitionLayout(c + s + g, data, today)
  {
    var body := c + s + g;
    SingleRunsConcat(c, s);
    SingleRunsConcat(c + s, g);
    assert body[0] == c[0] && body[1] == c[1] && body[2] == c[2] && body[3] == c[3];
    assert body[4] == c[4] && body[5] == c[5] && body[6] == c[6];
    assert body[7] == s[0] && body[8] == s[1] && body[9] == s[2] && body[10] == s[3];
    assert body[11] == s[4] && body[12] == s[5];
    assert body[13] == g[0] && body[14] == g[1] && body[15] == g[2] && body[16] == g[3];
  }

  /** `generateNewPetition`: the caption, title, subject, parties, the three headed
      sections and the petitioner's signature block. */
  function GenerateNewPetition(data: Record, today: string): (r: Result<Generated, GenError>)
    ensures r.Failure? <==> CourtCaption(data).Failure?
    ensures r.Failure? ==> r.error == CourtCaption(data).error
    ensures r.Success? ==> PetitionLayout(r.value.doc.body, data, today)
    ensures r.Success? ==> r.value.filename == "Petition_" + Or(data, "Petitioner", "Document") + ".docx"
    ensures r.Success? ==> WellShaped(r.value, data)
  {
    match CourtCaption(data)
    case Failure(e) => Failure(e)
    case Success(_) =>
      DocxName("Petition_" + Or(data, "Petitioner", "Document"));
      Success(Generated(
        Document(PETITION_MARGINS, PetitionBody(data, today)),
        "Petition_" + Or(data, "Petitioner", "Document") + ".docx"))
  }

  // ---------------------------------------------------------------- dispatch

  /** Every generator fails only with a type error, and on success produces a document of
      at least twelve paragraphs under the court's caption, saved as a '.docx' file. */
  function Generate(kind: DocKind, data: Record, today: string): (r: Result<Generated, GenError>)
    ensures r.Failure? ==> r.error.NotAFunction?
    ensures r.Success? ==> WellShaped(r.value, data)
  {
    match kind
    case CertifiedCopy => GenerateCertifiedCopy(data, today)
    case Vakalatnama => GenerateVakalatnama(data, today)
    case NewPetition => GenerateNewPetition(data, today)
  }

  /** `generateDocument`, with the generator looked up among the table's own entries:
      every other document type is rejected before any generator runs. */
  function GenerateDocument(docType: string, data: Record, today: string): (r: Result<Generated, GenError>)
    ensures docType !in GENERATORS ==> r == Failure(InvalidDocumentType)
    ensures r.Failure? && r.error == InvalidDocumentType <==> docType !in GENERATORS
    ensures r.Failure? && r.error == InvalidDocumentType ==> Message(r.error) == "Invalid document type"
    ensures r.Success? ==> WellShaped(r.value, data)
  {
    if docType in GENERATORS then Generate(GENERATORS[docType], data, today)
    else Failure(InvalidDocumentType)
  }

  /** Each document type is handed to its own generator. */
  lemma CertifiedCopyDispatch(data: Record, today: string)
    ensures GenerateDocument("certified-copy", data, today) == GenerateCertifiedCopy(data, today)
  {
    GeneratorsTable();
  }

  lemma VakalatnamaDispatch(data: Record, today: string)
    ensures GenerateDocument("vakalatnama", data, today) == GenerateVakalatnama(data, today)
  {
    GeneratorsTable();
  }

  lemma NewPetitionDispatch(data: Record, today: string)
    ensures GenerateDocument("new-petition", data, today) == GenerateNewPetition(data, today)
  {
    GeneratorsTable();
  }


  lemma GeneratorsTable()
    ensures "certified-copy" in GENERATORS && GENERATORS["certified-copy"] == CertifiedCopy
    ensures "vakalatnama" in GENERATORS && GENERATORS["vakalatnama"] == Vakalatnama
    ensures "new-petition" in GENERATORS && GENERATORS["new-petition"] == NewPetition
  {
  }


  /** At least twelve paragraphs under the court's caption, saved as a '.docx' file. */
  predicate WellShaped(g: Generated, data: Record)
  {
    |g.doc.body| >= 12 && IsCourtHeading(g.doc.body[0], data) && IsDocxName(g.filename)
  }

  predicate IsDocxName(f: string)
  {
    |f| >= 5 && f[|f| - 5..] == ".docx"
  }

  lemma DocxName(stem: string)
    ensures IsDocxName(stem + ".docx")
  {
    var f := stem + ".docx";
    assert f[|stem|..] == ".docx";
  }


  /** The certified-copy layout of an empty record: no documents, every field blank. */
  lemma EmptyCertifiedCopyLayout(body: seq<Paragraph>, docs: seq<Value>, today: string)
    requires docs == [] && CertifiedCopyLayout(body, map[], docs, today)
    ensures |body| == 14
    ensures body[0].runs[0].text == "" && body[1].runs[0].text == "Case No. "
    ensures body[2].runs[0].text == "\t\t" + [ELLIPSIS] + "Petitioner"
    ensures body[4].runs[0].text == "\t\t" + [ELLIPSIS] + "Respondent"
    ensures body[10].runs[0].text == "Place: "
    ensures body[11].runs[0].text == "Date: " + today
    ensures body[12].runs[0].text == "" && body[13].runs[0].text == ""
  {
    assert AsciiUpper("") == "";
  }

  /** An empty record is a valid input: the certified copy is generated with no bullets
      and saved under the fallback file name. */
  lemma EmptyRecordCertifiedCopy(data: Record, today: string)
    requires data == map[]
    ensures var r := GenerateCertifiedCopy(data, today);
      && r.Success?
      && DocsOf(data) == Success([])
      && r.value.filename == "Certified_Copy_Application.docx"
  {
    assert CourtCaption(data).Success?;
    assert Or(data, "Applicant", "Application") == "Application";
  }

  /** A missing field is rendered as empty text, never as a placeholder: with none of
      the fields the certified copy reads, its case number line is bare, the date is
      today's, the applicant and mobile lines are empty, and the file name uses the
      fallback. */
  lemma CertifiedCopyOfEmptyRecord(data: Record, today: string)
    requires data == map[]
    ensures var r := GenerateCertifiedCopy(data, today);
      && r.Success?
      && |r.value.doc.body| == 14
      && r.value.doc.body[0].runs[0].text == ""
      && r.value.doc.body[1].runs[0].text == "Case No. "
      && r.value.doc.body[11].runs[0].text == "Date: " + today
      && r.value.doc.body[12].runs[0].text == ""
      && r.value.doc.body[13].runs[0].text == ""
      && r.value.filename == "Certified_Copy_Application.docx"
  {
    EmptyRecordCertifiedCopy(data, today);
    EmptyCertifiedCopyLayout(GenerateCertifiedCopy(data, today).value.doc.body, DocsOf(data).value, today);
  }

  // ---------------------------------------------------------------- the lookup as written

  /** The names every plain object literal inherits from Object.prototype. */
  const OBJECT_PROTOTYPE_NAMES: set<string> := {
    "constructor", "toString", "toLocaleString", "valueOf", "hasOwnProperty", "isPrototypeOf",
    "propertyIsEnumerable", "__proto__", "__defineGetter__", "__defineSetter__",
    "__lookupGetter__", "__lookupSetter__" }

  /** How a call of `generateDocument` settles when the lookup also sees inherited names. */
  datatype Outcome = Produced(g: Generated) | Threw(e: GenError) | ResolvedWithoutDocument

  /** `generateDocument` as written: `generators[docType]` also finds the inherited
      members of the object literal, which pass the `!generator` guard. `Object(data)`
      and `Object.prototype.toString` return normally, so the promise resolves with no
      document; `__proto__` is not callable; the remaining methods need a `this`. */
  function GenerateDocumentAsWritten(docType: string, data: Record, today: string): (o: Outcome)
    ensures docType in GENERATORS ==>
      o == (match GenerateDocument(docType, data, today)
            case Success(g) => Produced(g)
            case Failure(e) => Threw(e))
    ensures o == Threw(InvalidDocumentType) <==> docType !in GENERATORS && docType !in OBJECT_PROTOTYPE_NAMES
  {
    if docType in GENERATORS then
      match Generate(GENERATORS[docType], data, today)
      case Success(g) => Produced(g)
      case Failure(e) => Threw(e)
    else if docType !in OBJECT_PROTOTYPE_NAMES then Threw(InvalidDocumentType)
    else if docType == "constructor" || docType == "toString" then ResolvedWithoutDocument
    else if docType == "__proto__" then Threw(NotAFunction("generator"))
    else Threw(UndefinedToObject)
  }

  /** The discrepancy: 'toString' is not a document type, yet the call neither fails
      with 'Invalid document type' nor produces a document. */
  lemma AsWrittenResolvesForToString(data: Record, today: string)
    ensures "toString" !in GENERATORS
    ensures GenerateDocumentAsWritten("toString", data, today) == ResolvedWithoutDocument
    ensures GenerateDocument("toString", data, today) == Failure(InvalidDocumentType)
  {
  }
}
