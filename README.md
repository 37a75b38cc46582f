# Legal documents: form records and document generation

This project models the deterministic core of a small web application for drafting
Indian court documents. The application has three document types: a certified-copy
application, a vakalatnama (a power of attorney for advocates) and a new petition.
The model covers two parts.

- **forms.js**:
  - the page state kept between events: the open form, the petitioner and defendant
    counters with their person cards, and the extra-executant fields that the slider adds
    and removes;
  - the three collectors that turn a submitted form into a plain record;
  - `formatDate`, `getDocumentTitle` and `titleOptions`.
- **js/docgen.js**:
  - `generateDocument`, which looks the type up in its generators table;
  - the three generators. Each builds the page margins, the ordered paragraphs and the
    download file name from a record.

## Modules

- `Wrappers` holds `Option` and `Result`.
- `Strings` holds the JavaScript string built-ins the source relies on. These are
  `split` and `join` on a separator, ASCII `toUpperCase`, decimal text of integers, and
  `parseInt` without a radix. Lemmas tie them together, such as split-after-join and
  parse-after-print.
- `JsValues` holds the values that travel from collectors to generators: null, strings,
  numbers, NaN, arrays and objects. It also holds JavaScript truthiness, `String(v)` and
  the `x || fallback` idiom.
- `Forms` holds:
  - FormData, modelled as ordered entries plus the set of ticked checkboxes and the
    element values by name;
  - `formatDate`, the role lists, the requested-documents list, the extra-executant
    names, the party records and the three collector records.
  - The loops of the collectors are methods proved against the functions that specify
    them.
- `FormLogic` holds:
  - the page state as the class `FormSession`. Its methods are `addPersonForm`,
    `initFormLogic`, `openDocumentForm`, `updateExecSlider` and `collectNewPetitionData`,
    which reads the counters.
  - `getDocumentTitle` and `titleOptions`.
- `DocGen` holds:
  - paragraphs and runs as plain datatypes;
  - one layout predicate per template, stating the paragraph count, the position of the
    caption, of every paragraph that shows a record field, and of the bullets, and the
    `|| ''` fallbacks;
  - the generators and the dispatch. The generators are built from chunk functions whose
    contracts compose into the layout.
- `Submit` follows `handleFormSubmit` from collector to generator. The collectors and
  the generators name their keys independently. For example, the new-petition collector
  writes `court`, `petitioners` and `date`, but the generator reads `Court`, `Petitioner`
  and `Date`. The lemmas in `Submit` state what each generator makes of its collector's
  record, with the key names as the code writes them. The type dispatch they go through is
  the own-property lookup of `DocGen.GenerateDocument`; `Submit.UnknownTypeRejected` also
  states how the lookup as written treats the inherited names (see Findings).

## Model

| member | source | states |
|---|---|---|
| Forms.Get | forms.js:573-581 | `fd.get(name)`: when not null, the value of an entry with that name |
| Forms.GetNoneIffAbsent | forms.js:573-581 | `fd.get(name)` is null exactly when no entry has that name |
| Forms.GetAll | forms.js:552-553 | `fd.getAll(name)`: only values of entries with that name, no more of them than there are entries |
| Forms.GetAllConcat | forms.js:552-553 | `fd.getAll(name)` over consecutive parts of the form data is the parts' answers in the same order, each entry counted once |
| Forms.GetAllOfEntry | forms.js:552-553 | a single entry contributes its value exactly when it carries the name |
| Forms.GetAllComplete | forms.js:552-553 | `fd.getAll(name)` holds the value of every entry with that name |
| Forms.GetIsFirstOfGetAll | forms.js:552-581 | `get` is the head of `getAll`, and null exactly when `getAll` is empty |
| Forms.FormatDate | forms.js:642-643 | a missing or empty date gives today's date |
| Forms.FormatDateOfIsoDate | forms.js:642-646 | for `y-m-d` with hyphen-free parts, the result is `d/m/y` |
| Forms.FormatDateWithoutHyphen | forms.js:642-646 | a date with no hyphen gives `undefined/undefined/<date>`, as the destructuring leaves `m` and `d` undefined |
| Forms.RolesText | forms.js:575-577 | with no role ticked the text is the fallback ('Petitioner' or 'Respondent') |
| Forms.RolesTextGrows | forms.js:575-577 | one role reads as itself, and each further role appends ' / ' and itself |
| Forms.ItemText | forms.js:565-570 | a labelled entry is the label, plus one space and the value only when the value is non-empty |
| Forms.CheckedItemDocs | forms.js:557-571 | every listed entry is a ticked item's, and every ticked item's entry is listed |
| Forms.CheckedItemDocsConcat | forms.js:557-571 | the entries of consecutive parts of the table follow each other in table order |
| Forms.CheckedItemDocsOfItem | forms.js:565-570 | one item gives its entry when ticked and nothing otherwise |
| Forms.CheckedItemPosition | forms.js:557-571 | a ticked item's entry stands right after the entries of the ticked items before it |
| Forms.CheckedItemsInOrder | forms.js:557-571 | of two ticked items, the earlier one's entry is listed first |
| Forms.FixedDocs | forms.js:555-556 | only 'Plaint' and 'Written Statement', each exactly when its box is ticked, one entry per ticked box, and 'Plaint' first |
| Forms.RequestedDocs | forms.js:554-571 | at most nine entries, starting with the ticked fixed documents, and listing every ticked labelled document |
| Forms.RequestedDocsItems | forms.js:554-571 | each ticked labelled document stands after the fixed documents and the ticked items before it; every entry is a fixed document or a ticked item's |
| Forms.ItemTextIsNotFixed | forms.js:557-571 | no labelled entry can read 'Plaint' or 'Written Statement' |
| Forms.RequestedDocsFixedPart | forms.js:554-571 | the fixed documents are listed exactly when ticked, and always ahead of the labelled entries |
| Forms.AllItemsChecked | forms.js:565-571 | items that are all ticked, with empty or missing fields, are listed by their labels in table order |
| Forms.AllDocsRequested | forms.js:554-571 | with everything ticked and every field empty (as the page renders them) or missing, the list is the nine names in fixed order |
| Forms.CollectItemDocs | forms.js:557-571 | the `forEach` over the table pushes exactly the ticked items' entries, in order |
| Forms.CollectDocs | forms.js:554-571 | the pushes build exactly the requested-documents list |
| Forms.NonEmpty | forms.js:589 | `filter(Boolean)` keeps every non-empty advocate with its multiplicity, and drops every empty one |
| Forms.NonEmptyConcat | forms.js:589 | filtering keeps the order: the kept values of an earlier part of the list come before those of a later part |
| Forms.NonEmptyOfValue | forms.js:589 | a single value is kept exactly when it is non-empty |
| Forms.LoopBound | forms.js:590-592 | the loop runs `n` times for a non-negative count, and never for NaN or a count of at most 0 |
| Forms.ExtraName | forms.js:592 | the supplied name when it is non-empty, otherwise a non-empty default |
| Forms.ExtraNames | forms.js:591-592 | exactly `n` names, the i-th being the i-th field's value or `Executant i+2` |
| Forms.CollectExtraNames | forms.js:590-592 | the loop yields exactly the specified names for the parsed count |
| Forms.ExtraExecutantCountOf | forms.js:590 | a slider value written in decimal parses back to its count |
| Forms.VakalatnamaExtraNames | forms.js:590-602 | with the slider at k, the record holds `ExtraExecutants == k` and k names, name i being `ExtraName(i)` |
| Forms.PartyAt | forms.js:611-619 | each field is the typed text when non-empty, otherwise its default: 'Mr.', 'Son Of' and '30' for title, relation and age, '' for name, parent name, occupation and address |
| Forms.PartyValue | forms.js:611-619 | a party object has exactly the keys title, name, parent_relation, parent_name, age, occupation and address, each holding that field of the party |
| Forms.PartyList | forms.js:609-632 | one object per party, in order |
| Forms.Parties | forms.js:609-632 | exactly `n` parties, party i read from the fields suffixed `_i` |
| Forms.CollectParties | forms.js:609-632 | the loop yields exactly the specified parties for the counter |
| Forms.CertifiedCopyFields | forms.js:572-582 | the record has exactly the seventeen keys of the object literal |
| Forms.VakalatnamaFields | forms.js:593-604 | the record has exactly the sixteen keys of the object literal |
| Forms.NewPetitionFields | forms.js:633-639 | the record has exactly the seven lower-case keys of the object literal |
| Forms.CollectCertifiedCopyData | forms.js:550-583 | the collector returns the specified certified-copy record |
| Forms.CollectVakalatnamaData | forms.js:585-605 | the collector returns the specified vakalatnama record |
| Forms.CertifiedCopyFieldsRoles | forms.js:575-577 | with no role ticked, `PRole` is 'Petitioner' and `DRole` is 'Respondent' |
| Forms.VakalatnamaRecordKeys | forms.js:593-604 | the vakalatnama record has no 'Client', 'Advocate' or 'Date' key |
| Forms.NewPetitionRecordKeys | forms.js:633-639 | the new-petition record has none of 'Court', 'PetitionType', 'Petitioner', 'Respondent' and 'Date' |
| FormLogic.GetDocumentTitle | forms.js:68-75 | the table's title for a known type, and 'Document' exactly for the others |
| FormLogic.TitleOptions | forms.js:27-31 | one option per title in order, each selected exactly when it is the given title |
| FormLogic.TitleOptionsSelectOne | forms.js:27-31 | at most one option is selected, exactly one when the title is offered, and 'Mr.' by default |
| FormLogic.NewExecGroup | forms.js:509-513 | a new group's input is named `ExtraExec_i` |
| FormLogic.StandardGroups | forms.js:507-517 | the first `n` groups, group i being the slider's group for i |
| FormLogic.ResizedGroups | forms.js:506-517 | after a move to `n`: exactly `n` groups; the first `n` kept when shrinking; when growing, the old ones kept and new ones appended |
| FormLogic.ResizedGroupsStep | forms.js:508-514 | growing by one appends the group for that index |
| FormLogic.ResizedStandardGroups | forms.js:500-518 | resizing standard groups gives the standard groups of the new size |
| FormLogic.FormSession.constructor | forms.js:460-461 | the page starts with no form open and both counters at 0 |
| FormLogic.FormSession.AddPersonForm | forms.js:463-471 | a card numbered with its kind's counter is appended and only that counter grows; with no container, nothing changes |
| FormLogic.FormSession.InitFormLogic | forms.js:451-458 | for a new petition, both counters restart and end at 1 with one card each; other types change nothing |
| FormLogic.FormSession.OpenDocumentForm | forms.js:33-60 | a known type opens a fresh form and runs `initFormLogic`; an unknown type changes nothing; the page invariant is kept |
| FormLogic.FormSession.UpdateExecSlider | forms.js:500-518 | the label shows the parsed value, and the groups resize to `n`. NaN leaves them unchanged, and a negative value empties them and throws |
| FormLogic.FormSession.GrowGroups | forms.js:507-514 | the growing loop appends exactly the missing groups |
| FormLogic.FormSession.ShrinkGroups | forms.js:515-517 | the shrinking loop keeps the first `n` groups, or empties the list and throws for negative `n` |
| FormLogic.FormSession.CollectNewPetitionData | forms.js:607-640 | the record holds exactly as many petitioners and defendants as the counters say |
| DocGen.CourtCaption | js/docgen.js:39 | the upper-cased court, or '' when missing. It is a TypeError exactly when Court holds a truthy non-string |
| DocGen.DocsOf | js/docgen.js:149 | `data.Docs \|\| []`: the array's items, `[]` when missing or falsy, and a TypeError exactly for a truthy non-array |
| DocGen.CertifiedCopyHead | js/docgen.js:35-147 | nine single-run paragraphs, each stated: the court heading, 'Case No. ' with the case number, the plaintiff line, 'VERSUS', the defendant line, the title, the salutation, item 1 with suit type, case number and year, and item 2, each field read with its `\|\| ''` fallback |
| DocGen.Bullets | js/docgen.js:149-159 | one bullet per document, in order |
| DocGen.CertifiedCopyTail | js/docgen.js:161-214 | item 3, then the place, date (today's when missing), applicant and mobile lines |
| DocGen.CertifiedCopyAssembly | js/docgen.js:33-214 | head, bullets and tail compose into the certified-copy layout |
| DocGen.CertifiedCopyBody | js/docgen.js:33-214 | 14 + \|Docs\| single-run paragraphs, each fixed text and field line at its position with its fallback, and the bullets between item 2 and item 3 |
| DocGen.GenerateCertifiedCopy | js/docgen.js:18-218 | fails exactly on a bad Court or Docs, the Court error first; otherwise the layout, and the file `Certified_Copy_<Applicant or 'Application'>.docx` |
| DocGen.VakalatnamaOpening | js/docgen.js:236-282 | caption, title 'VAKALATNAMA', the appointment and the authority clause, each stated |
| DocGen.VakalatnamaSignature | js/docgen.js:283-323 | the place line, the date line (today's when missing) and the client line, then the caption '(Client)' |
| DocGen.VakalatnamaAcceptance | js/docgen.js:324-357 | a blank paragraph with no runs, then 'Accepted:', the advocate line and '(Advocate)' |
| DocGen.VakalatnamaAssembly | js/docgen.js:235-357 | the three chunks compose into the vakalatnama layout |
| DocGen.VakalatnamaBody | js/docgen.js:235-357 | exactly 12 paragraphs, the 9th with no runs and every other one's text stated at its position: the caption, title, appointment, authority clause, place, date, client, '(Client)', 'Accepted:', advocate and '(Advocate)' |
| DocGen.GenerateVakalatnama | js/docgen.js:220-364 | fails exactly on a bad Court; otherwise the layout, and the file `Vakalatnama_<Client or 'Document'>.docx` |
| DocGen.PetitionCaption | js/docgen.js:382-458 | caption, title (default 'PETITION'), subject, the petitioner line, 'VERSUS', the respondent line and the opening sentence |
| DocGen.PetitionSections | js/docgen.js:459-527 | the headings 'BRIEF FACTS', 'GROUNDS' and 'PRAYER', each followed by the facts, the grounds, and the prayer with the relief, each field read with its `\|\| ''` fallback |
| DocGen.PetitionSignature | js/docgen.js:528-567 | the place line, the date line (today's when missing) and the petitioner line, then the caption '(Petitioner)' |
| DocGen.PetitionAssembly | js/docgen.js:381-567 | the three chunks compose into the petition layout |
| DocGen.PetitionBody | js/docgen.js:381-567 | exactly 17 single-run paragraphs, every one's text stated at its position: the fixed texts and the title, subject, party, facts, grounds, relief, place, date and petitioner lines |
| DocGen.GenerateNewPetition | js/docgen.js:366-574 | fails exactly on a bad Court; otherwise the layout, and the file `Petition_<Petitioner or 'Document'>.docx` |
| DocGen.Generate | js/docgen.js:15 | every generator fails only with a TypeError; on success it gives at least 12 paragraphs under the court heading, in a '.docx' file |
| DocGen.GenerateDocument | js/docgen.js:3-16 | 'Invalid document type' exactly for types outside the table, and a well-shaped document on success |
| DocGen.CertifiedCopyDispatch | js/docgen.js:4-15 | 'certified-copy' runs the certified-copy generator |
| DocGen.VakalatnamaDispatch | js/docgen.js:4-15 | 'vakalatnama' runs the vakalatnama generator |
| DocGen.NewPetitionDispatch | js/docgen.js:4-15 | 'new-petition' runs the petition generator |
| DocGen.EmptyCertifiedCopyLayout | js/docgen.js:52-207 | over an empty record, the caption, the party lines, the place, applicant and mobile lines are bare and the date is today's |
| DocGen.EmptyRecordCertifiedCopy | js/docgen.js:18-218 | `{}` is generated without error, with no bullets, as 'Certified_Copy_Application.docx' |
| DocGen.CertifiedCopyOfEmptyRecord | js/docgen.js:18-218 | `{}` gives 14 paragraphs with bare field lines, today's date and 'Certified_Copy_Application.docx' |
| DocGen.GenerateDocumentAsWritten | js/docgen.js:3-16 | the lookup as written: known types behave as in the corrected dispatch, and 'Invalid document type' is thrown exactly for names that are neither table keys nor inherited |
| DocGen.AsWrittenResolvesForToString | js/docgen.js:10-15 | 'toString' passes the guard and resolves without a document |
| Strings.SplitOfJoin | forms.js:644 | splitting a join of separator-free parts returns the parts |
| Strings.ParseIntOfIntToString | forms.js:590 | `parseInt` of a decimal integer's text gives that integer (numbers as exact integers) |
| Strings.AsciiUpper | js/docgen.js:39 | upper-casing keeps the length, turns each letter a-z into its capital and keeps every other character |
| JsValues.Or | js/docgen.js:52 | `x \|\| fallback`: the fallback for a missing or falsy value, and a non-empty string itself |
| Submit.Collect | forms.js:530-533 | an unknown type submits the empty record `{}` |
| Submit.TablesAgree | forms.js:34-38 | the form, title and generator tables name the same three types |
| Submit.UnknownTypeRejected | forms.js:530-536 | another type is titled 'Document' and rejected with 'Invalid document type' by the own-property dispatch; the lookup as written rejects it exactly when it is not an inherited object name |
| Submit.SubmitCertifiedCopy | forms.js:531-536 | a certified-copy submission runs its generator on its collector's record |
| Submit.SubmitVakalatnama | forms.js:532-536 | a vakalatnama submission runs its generator on its collector's record |
| Submit.SubmitNewPetition | forms.js:533-536 | a new-petition submission runs its generator on its collector's record |
| Submit.CertifiedCopyOfFields | js/docgen.js:39-207 | a record with the form's Court, CaseNo, Applicant and Docs gives the caption, case number, one bullet per document, applicant line and file name |
| Submit.CertifiedCopyPipeline | forms.js:550-583 | the submitted certified copy shows the court, case number, requested documents and applicant as entered |
| Submit.VakalatnamaOfFields | js/docgen.js:240-363 | without Client, Advocate and Date, the client and advocate lines are blank, the date is today's, and the file is 'Vakalatnama_Document.docx' |
| Submit.VakalatnamaPipeline | forms.js:585-605 | the submitted vakalatnama names neither client nor advocate and is saved as 'Vakalatnama_Document.docx' |
| Submit.PetitionWithoutKeys | js/docgen.js:386-573 | without the capitalised keys, the court line is empty, the title is 'PETITION', the party lines are bare, and the file is 'Petition_Document.docx' |
| Submit.NewPetitionPipeline | forms.js:607-640 | the submitted petition has an empty caption, bare party lines and the file 'Petition_Document.docx' |
| Submit.ExtraNamesReadSliderFields | forms.js:590-592 | the collector reads exactly the inputs the slider created |

## Left out

- The docx.js library is not modelled: `Document`, `Paragraph`, `TextRun`, `Packer.toBlob`,
  `convertInchesToTwip` and tab stops. It is foreign code. Paragraphs are values, and
  margins are kept in tenths of an inch as the source writes them.
- `downloadBlob` is not modelled, because it is browser I/O. A generator's result is the
  document and the file name it would be saved under.
- The HTML builders are not modelled: `createCertifiedCopyForm`, `createVakalatnamaForm`,
  `createNewPetitionForm`, `personFormHTML`, `courtOptions` and the modal markup of
  `openDocumentForm`. They are markup. A container is represented by what it holds.
- `closeModal`, `toggleDocField`, `toggleNewLawyer` and `addNewLawyer` are not modelled.
  They only enable, clear or add DOM elements. An added advocate reaches the model as one
  more `Advocate` entry of the form.
- The asynchronous part of `handleFormSubmit` is not modelled: `setTimeout`, the promise,
  the button state and `alert`. A submission is its collector followed by
  `generateDocument`, and an error is the `Failure` value with its message.
- js/animations.js and particles.js are not modelled. They hold timers, floating-point
  animation and canvas drawing.
- The current date is a parameter (`today`). The browser's date and locale formatting are
  not modelled.
- Strings.AsciiUpper: upper-cases ASCII letters only. JavaScript's `toUpperCase` also maps
  non-ASCII letters, and some of them to several characters.
- Forms.FixedDocs: assumes the `doc_Plaint` and `doc_WS` checkboxes are always present,
  as they are in the form the page builds. Without them `querySelector` returns null and
  the collector throws, which the model does not represent.
- FormLogic.FormSession.OpenDocumentForm: inherited names such as 'toString' are treated as
  unknown types. The source's plain-object lookup would find `Object.prototype` members
  there too, as it does in `generateDocument` (see Findings).
- FormLogic.GetDocumentTitle: for a name inherited from `Object.prototype`, such as
  'toString', `titles[docType]` finds the inherited function, which `|| 'Document'` keeps.
  The model answers 'Document' for every type outside the table.
- Submit.UnknownTypeRejected: its rejection and 'Document' title hold for the own-property
  lookup. For the inherited names the code as written neither rejects nor titles the type
  that way; the lemma's last clause and `DocGen.GenerateDocumentAsWritten` state what it does.
- JsValues.Num: numbers are exact integers. JavaScript numbers are doubles: `parseInt`
  rounds beyond 2^53 (`parseInt('9007199254740993')` is 9007199254740992), and `String(n)`
  writes an exponent from 10^21 on. The slider keeps the count within 0-10.
- Strings.ParseIntOfIntToString: the round trip is proved for every integer of the model;
  with doubles it holds only up to 2^53 in magnitude. Forms.ExtraExecutantCountOf inherits
  this, within the slider's range.
- DocGen: a record field is rendered as its text `String(v)`. The source hands the raw
  `data.X || ''` value to docx.js, which the collectors only ever fill with strings.
- DocGen.Message: the messages of the inherited-name TypeErrors are approximated by one
  text. Browsers word them differently for each built-in.

## Findings

| source | as written | input that shows it | evidently intended | confidence | as-written member | corrected member |
|---|---|---|---|---|---|---|
| js/docgen.js:10-13 | `generators[docType]` is a plain object lookup, so names inherited from `Object.prototype` pass the `!generator` guard | `generateDocument('toString', {})` resolves without a document and without an error; `'hasOwnProperty'` throws a TypeError instead of 'Invalid document type' | every type outside the three table keys is rejected with 'Invalid document type' | low, not executed; the page only passes the three known types | DocGen.GenerateDocumentAsWritten | DocGen.GenerateDocument |
