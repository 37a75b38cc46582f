/** The path from a submitted form to a generated document: `handleFormSubmit` picks the
    collector for the document type, and `generateDocument` receives its record. The
    collectors and the generators name their keys independently, and the lemmas here
    state what a generator makes of each collector's record. */
module Submit {
  import opened Wrappers
  import opened Strings
  import opened JsValues
  import opened Forms
  import opened DocGen
  import opened FormLogic

  /** The record `handleFormSubmit` passes on: the collector's for a known type, `{}`
      otherwise. `petitioners` and `defendants` are the page's card counters and
      `formToday` is the current date in 'en-GB'. */
  function Collect(docType: string, form: Form, petitioners: nat, defendants: nat, formToday: string): (data: Record)
    ensures docType !in FORM_TYPES ==> data == map[]
  {
    if docType == "certified-copy" then CertifiedCopyRecord(form, formToday)
    else if docType == "vakalatnama" then VakalatnamaRecord(form, formToday)
    else if docType == "new-petition" then NewPetitionRecord(form, petitioners, defendants, formToday)
    else map[]
  }

  /** A submission: collect, then generate; `today` is the generator's own current date. */
  function SubmitForm(docType: string, form: Form, petitioners: nat, defendants: nat,
                      formToday: string, today: string): Result<Generated, GenError>
  {
    GenerateDocument(docType, Collect(docType, form, petitioners, defendants, formToday), today)
  }

  /** The three tables agree on the document types: every type with a form has a title and
      a generator, and no other type has either. */
  lemma TablesAgree()
    ensures GENERATORS.Keys == FORM_TYPES
    ensures DOCUMENT_TITLES.Keys == FORM_TYPES
  {
  }

  /** A submission of any other type is rejected with 'Invalid document type' by the
      own-property dispatch. With the lookup as written, the same holds exactly for the
      types that are not among the names every object inherits. */
  lemma UnknownTypeRejected(docType: string, form: Form, petitioners: nat, defendants: nat,
                            formToday: string, today: string)
    requires docType !in FORM_TYPES
    ensures SubmitForm(docType, form, petitioners, defendants, formToday, today) == Failure(InvalidDocumentType)
    ensures Message(InvalidDocumentType) == "Invalid document type"
    ensures GetDocumentTitle(docType) == "Document"
    ensures (GenerateDocumentAsWritten(docType, Collect(docType, form, petitioners, defendants, formToday), today)
             == Threw(InvalidDocumentType)) <==> docType !in OBJECT_PROTOTYPE_NAMES
  {
    TablesAgree();
  }

  /** A key holding a form field reads as the field's text, or the fallback when the field
      is missing or empty. */
  lemma OrOfField(data: Record, key: string, v: Option<string>, fallback: string)
    requires key in data && data[key] == FieldValue(v)
    ensures Or(data, key, fallback) == OrText(v, fallback)
  {
  }

  /** The court field is a string or null, so the caption never throws. */
  lemma CourtFieldCaption(data: Record, v: Option<string>)
    requires "Court" in data && data["Court"] == FieldValue(v)
    ensures CourtCaption(data) == Success(AsciiUpper(OrText(v, "")))
  {
    OrOfField(data, "Court", v, "");
  }

  /** A submission of a known type reaches that type's generator with that type's record. */
  lemma SubmitCertifiedCopy(form: Form, petitioners: nat, defendants: nat, formToday: string, today: string)
    ensures SubmitForm("certified-copy", form, petitioners, defendants, formToday, today)
         == GenerateCertifiedCopy(CertifiedCopyRecord(form, formToday), today)
  {
    CertifiedCopyDispatch(CertifiedCopyRecord(form, formToday), today);
  }

  lemma SubmitVakalatnama(form: Form, petitioners: nat, defendants: nat, formToday: string, today: string)
    ensures SubmitForm("vakalatnama", form, petitioners, defendants, formToday, today)
         == GenerateVakalatnama(VakalatnamaRecord(form, formToday), today)
  {
    VakalatnamaDispatch(VakalatnamaRecord(form, formToday), today);
  }

  lemma SubmitNewPetition(form: Form, petitioners: nat, defendants: nat, formToday: string, today: string)
    ensures SubmitForm("new-petition", form, petitioners, defendants, formToday, today)
         == GenerateNewPetition(NewPetitionRecord(form, petitioners, defendants, formToday), today)
  {
    NewPetitionDispatch(NewPetitionRecord(form, petitioners, defendants, formToday), today);
  }

  /** A certified-copy layout over a record holding the court, case number and applicant
      as form fields, for the given documents. */
  lemma CertifiedCopyLayoutOfFields(body: seq<Paragraph>, data: Record, today: string, court: Option<string>,
                                    caseNo: Option<string>, applicant: Option<string>, docs: seq<string>)
    requires CertifiedCopyLayout(body, data, TextList(docs).items, today)
    requires "Court" in data && data["Court"] == FieldValue(court)
    requires "CaseNo" in data && data["CaseNo"] == FieldValue(caseNo)
    requires "Applicant" in data && data["Applicant"] == FieldValue(applicant)
    ensures |body| == 14 + |docs|
    ensures body[0].runs[0].text == AsciiUpper(OrText(court, ""))
    ensures body[1].runs[0].text == "Case No. " + OrText(caseNo, "")
    ensures forall k :: 0 <= k < |docs| ==> body[9 + k] == Bullet(Str(docs[k]))
    ensures body[12 + |docs|].runs[0].text == OrText(applicant, "")
  {
    OrOfField(data, "Court", court, "");
    OrOfField(data, "CaseNo", caseNo, "");
    OrOfField(data, "Applicant", applicant, "");
  }

  /** A certified copy of any record holding the court, case number and applicant as form
      fields and the documents as an array of strings. */
  lemma CertifiedCopyOfFields(data: Record, today: string, court: Option<string>, caseNo: Option<string>,
                              applicant: Option<string>, docs: seq<string>)
    requires "Court" in data && data["Court"] == FieldValue(court)
    requires "CaseNo" in data && data["CaseNo"] == FieldValue(caseNo)
    requires "Applicant" in data && data["Applicant"] == FieldValue(applicant)
    requires "Docs" in data && data["Docs"] == TextList(docs)
    ensures var r := GenerateCertifiedCopy(data, today);
      && r.Success?
      && var body := r.value.doc.body;
      && |body| == 14 + |docs|
      && body[0].runs[0].text == AsciiUpper(OrText(court, ""))
      && body[1].runs[0].text == "Case No. " + OrText(caseNo, "")
      && (forall k :: 0 <= k < |docs| ==> body[9 + k] == Bullet(Str(docs[k])))
      && body[12 + |docs|].runs[0].text == OrText(applicant, "")
      && r.value.filename == "Certified_Copy_" + OrText(applicant, "Application") + ".docx"
  {
    CourtFieldCaption(data, court);
    OrOfField(data, "Applicant", applicant, "Application");
    assert DocsOf(data) == Success(TextList(docs).items);
    var r := GenerateCertifiedCopy(data, today);
    CertifiedCopyLayoutOfFields(r.value.doc.body, data, today, court, caseNo, applicant, docs);
  }

  /** The certified copy of a submitted form: the court's caption, one bullet per requested
      document in order, the case number, and a file named after the applicant. */
  lemma CertifiedCopyPipeline(form: Form, formToday: string, today: string)
    ensures var r := GenerateCertifiedCopy(CertifiedCopyRecord(form, formToday), today);
      && r.Success?
      && var body := r.value.doc.body;
      && var docs := RequestedDocs(form);
      && |body| == 14 + |docs|
      && body[0].runs[0].text == AsciiUpper(OrText(Get(form.entries, "Court"), ""))
      && body[1].runs[0].text == "Case No. " + OrText(Get(form.entries, "CaseNo"), "")
      && (forall k :: 0 <= k < |docs| ==> body[9 + k] == Bullet(Str(docs[k])))
      && body[12 + |docs|].runs[0].text == OrText(Get(form.entries, "Applicant"), "")
      && r.value.filename == "Certified_Copy_" + OrText(Get(form.entries, "Applicant"), "Application") + ".docx"
  {
    CertifiedCopyFieldsText(form, RequestedDocs(form), formToday);
    CertifiedCopyRecordDocs(form, formToday);
    CertifiedCopyOfFields(CertifiedCopyRecord(form, formToday), today, Get(form.entries, "Court"),
                          Get(form.entries, "CaseNo"), Get(form.entries, "Applicant"), RequestedDocs(form));
  }

  /** A vakalatnama layout over a record holding the court as a form field and lacking
      'Client', 'Advocate' and 'Date'. */
  lemma VakalatnamaLayoutOfFields(body: seq<Paragraph>, data: Record, today: string, court: Option<string>)
    requires VakalatnamaLayout(body, data, today)
    requires "Court" in data && data["Court"] == FieldValue(court)
    requires "Client" !in data && "Advocate" !in data && "Date" !in data
    ensures |body| == 12
    ensures body[0].runs[0].text == AsciiUpper(OrText(court, ""))
    ensures body[5].runs[0].text == "Date: " + today
    ensures body[6].runs[0].text == ""
    ensures body[10].runs[0].text == ""
  {
    OrOfField(data, "Court", court, "");
  }

  /** A vakalatnama of any record holding the court as a form field and lacking 'Client',
      'Advocate' and 'Date'. */
  lemma VakalatnamaOfFields(data: Record, today: string, court: Option<string>)
    requires "Court" in data && data["Court"] == FieldValue(court)
    requires "Client" !in data && "Advocate" !in data && "Date" !in data
    ensures var r := GenerateVakalatnama(data, today);
      && r.Success?
      && var body := r.value.doc.body;
      && |body| == 12
      && body[0].runs[0].text == AsciiUpper(OrText(court, ""))
      && body[5].runs[0].text == "Date: " + today
      && body[6].runs[0].text == ""
      && body[10].runs[0].text == ""
      && r.value.filename == "Vakalatnama_Document.docx"
  {
    CourtFieldCaption(data, court);
    var r := GenerateVakalatnama(data, today);
    VakalatnamaLayoutOfFields(r.value.doc.body, data, today, court);
  }

  /** The vakalatnama of a submitted form names neither client nor advocate and is saved
      as 'Vakalatnama_Document.docx': the collector writes 'ApplicantName' and 'Advocates'
      while the generator reads 'Client' and 'Advocate'. Its date is the generator's own,
      since the collector writes 'WitnessDate' only. */
  lemma VakalatnamaPipeline(form: Form, formToday: string, today: string)
    ensures var r := GenerateVakalatnama(VakalatnamaRecord(form, formToday), today);
      && r.Success?
      && var body := r.value.doc.body;
      && |body| == 12
      && body[0].runs[0].text == AsciiUpper(OrText(Get(form.entries, "Court"), ""))
      && body[5].runs[0].text == "Date: " + today
      && body[6].runs[0].text == ""
      && body[10].runs[0].text == ""
      && r.value.filename == "Vakalatnama_Document.docx"
  {
    var count := ExtraExecutantCount(form);
    var names := ExtraNames(form, LoopBound(count));
    VakalatnamaFieldsCourt(form, count, names, formToday);
    VakalatnamaRecordKeys(form, formToday);
    VakalatnamaOfFields(VakalatnamaFields(form, count, names, formToday), today, Get(form.entries, "Court"));
  }

  /** A petition layout over a record lacking 'Court', 'PetitionType', 'Petitioner',
      'Respondent' and 'Date'. */
  lemma PetitionLayoutWithoutKeys(body: seq<Paragraph>, data: Record, today: string)
    requires PetitionLayout(body, data, today)
    requires "Court" !in data && "PetitionType" !in data && "Petitioner" !in data
    requires "Respondent" !in data && "Date" !in data
    ensures |body| == 17
    ensures body[0].runs[0].text == ""
    ensures body[1].runs[0].text == "PETITION"
    ensures body[3].runs[0].text == "\t\t" + [ELLIPSIS] + "Petitioner"
    ensures body[5].runs[0].text == "\t\t" + [ELLIPSIS] + "Respondent"
    ensures body[14].runs[0].text == "Date: " + today
  {
    assert AsciiUpper("") == "";
  }

  /** A petition of any record lacking 'Court', 'PetitionType', 'Petitioner', 'Respondent'
      and 'Date'. */
  lemma PetitionWithoutKeys(data: Record, today: string)
    requires "Court" !in data && "PetitionType" !in data && "Petitioner" !in data
    requires "Respondent" !in data && "Date" !in data
    ensures var r := GenerateNewPetition(data, today);
      && r.Success?
      && var body := r.value.doc.body;
      && |body| == 17
      && body[0].runs[0].text == ""
      && body[1].runs[0].text == "PETITION"
      && body[3].runs[0].text == "\t\t" + [ELLIPSIS] + "Petitioner"
      && body[5].runs[0].text == "\t\t" + [ELLIPSIS] + "Respondent"
      && body[14].runs[0].text == "Date: " + today
      && r.value.filename == "Petition_Document.docx"
  {
    assert CourtCaption(data).Success?;
    var r := GenerateNewPetition(data, today);
    PetitionLayoutWithoutKeys(r.value.doc.body, data, today);
  }

  /** The petition of a submitted form has an empty caption, the default title, bare
      party lines and the file name 'Petition_Document.docx': the collector writes
      'court', 'petitioners', 'defendants' and 'date', and the generator reads 'Court',
      'Petitioner', 'Respondent' and 'Date'. */
  lemma NewPetitionPipeline(form: Form, petitioners: nat, defendants: nat, formToday: string, today: string)
    ensures var r := GenerateNewPetition(NewPetitionRecord(form, petitioners, defendants, formToday), today);
      && r.Success?
      && var body := r.value.doc.body;
      && |body| == 17
      && body[0].runs[0].text == ""
      && body[1].runs[0].text == "PETITION"
      && body[3].runs[0].text == "\t\t" + [ELLIPSIS] + "Petitioner"
      && body[5].runs[0].text == "\t\t" + [ELLIPSIS] + "Respondent"
      && body[14].runs[0].text == "Date: " + today
      && r.value.filename == "Petition_Document.docx"
  {
    var data := NewPetitionRecord(form, petitioners, defendants, formToday);
    NewPetitionRecordKeys(form, petitioners, defendants, formToday);
    PetitionWithoutKeys(data, today);
  }

  /** The collector reads the extra executants from exactly the fields the slider put on
      the page: with the slider at `k`, name `i` is the value of group `i`'s input. */
  lemma ExtraNamesReadSliderFields(form: Form, k: nat)
    ensures forall i :: 0 <= i < k ==>
      ExtraNames(form, k)[i] == OrText(Get(form.entries, StandardGroups(k)[i].field), "Executant " + NatToString(i + 2))
  {
  }
}
