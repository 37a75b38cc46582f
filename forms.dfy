/** The record builders of forms.js: what a submitted form's fields become before a
    generator reads them. A form is seen through `FormData` (its successful controls, in
    document order) and, for the certified-copy document list, through the checked state
    and current value of individual elements. */
module Forms {
  import opened Wrappers
  import opened Strings
  import opened JsValues

  // ---------------------------------------------------------------- the submitted form

  /** One name/value pair of `new FormData(form)`. */
  datatype Entry = Entry(name: string, value: string)

  /** A submitted form: the `FormData` entries in document order (checked boxes and
      enabled text controls only), the names or ids of the checkboxes that are checked,
      and the current value of each named text control, enabled or not. */
  datatype Form = Form(entries: seq<Entry>, checked: set<string>, fields: map<string, string>)

  /** `fd.getAll(name)`: the values of every entry with that name, in order. */
  function GetAll(entries: seq<Entry>, name: string): (vs: seq<string>)
    ensures |vs| <= |entries|
    ensures forall v :: v in vs ==> Entry(name, v) in entries
    decreases |entries|
  {
    if entries == [] then []
    else (if entries[0].name == name then [entries[0].value] else []) + GetAll(entries[1..], name)
  }

  /** `fd.get(name)`: the value of the first entry with that name, `None` for null. */
  function Get(entries: seq<Entry>, name: string): (v: Option<string>)
    ensures v.Some? ==> Entry(name, v.value) in entries
    decreases |entries|
  {
    if entries == [] then None
    else if entries[0].name == name then Some(entries[0].value)
    else Get(entries[1..], name)
  }

  /** `getAll` keeps the order and the multiplicity of the entries: the values from one
      part of the form data come before those from a later part, each entry counted once. */
  lemma {:induction false} GetAllConcat(a: seq<Entry>, b: seq<Entry>, name: string)
    ensures GetAll(a + b, name) == GetAll(a, name) + GetAll(b, name)
    decreases |a|
  {
    if a == [] {
      assert a + b == b;
    } else {
      var e, rest := a[0], a[1..];
      assert a == [e] + rest && a + b == [e] + (rest + b);
      GetAllConcat(rest, b, name);
      GetAllCons(e, rest + b, name);
      GetAllCons(e, rest, name);
    }
  }

  lemma GetAllCons(e: Entry, rest: seq<Entry>, name: string)
    ensures GetAll([e] + rest, name) == (if e.name == name then [e.value] else []) + GetAll(rest, name)
  {
    assert ([e] + rest)[0] == e && ([e] + rest)[1..] == rest;
  }

  /** A single entry contributes its value exactly when it has the name. */
  lemma GetAllOfEntry(e: Entry, name: string)
    ensures GetAll([e], name) == if e.name == name then [e.value] else []
  {
    assert [e][1..] == [];
  }

  /** `getAll` misses no entry with the name. */
  lemma {:induction false} GetAllComplete(entries: seq<Entry>, name: string)
    ensures forall e :: e in entries && e.name == name ==> e.value in GetAll(entries, name)
    decreases |entries|
  {
    if entries != [] {
      GetAllComplete(entries[1..], name);
      assert forall e :: e in entries ==> e == entries[0] || e in entries[1..];
    }
  }

  /** `get` answers null exactly when no entry has the name. */
  lemma {:induction false} GetNoneIffAbsent(entries: seq<Entry>, name: string)
    ensures Get(entries, name).None? <==> forall e :: e in entries ==> e.name != name
    decreases |entries|
  {
    if entries != [] && entries[0].name != name {
      GetNoneIffAbsent(entries[1..], name);
      assert forall e :: e in entries ==> e == entries[0] || e in entries[1..];
    }
  }

  /** `get` answers the first value `getAll` lists, and null exactly when there is none. */
  lemma {:induction false} GetIsFirstOfGetAll(entries: seq<Entry>, name: string)
    ensures Get(entries, name).None? <==> GetAll(entries, name) == []
    ensures Get(entries, name).Some? ==> Get(entries, name).value == GetAll(entries, name)[0]
    decreases |entries|
  {
    if entries != [] && entries[0].name != name {
      GetIsFirstOfGetAll(entries[1..], name);
    }
  }

  /** `fd.get(name) || fallback`: the value when there is one and it is not empty. */
  function OrText(v: Option<string>, fallback: string): (r: string)
    ensures v.None? || v.value == "" ==> r == fallback
    ensures v.Some? && v.value != "" ==> r == v.value
  {
    if v.Some? && v.value != "" then v.value else fallback
  }

  /** A `fd.get(name)` stored in a record as it is: a string, or null. */
  function FieldValue(v: Option<string>): (r: Value)
    ensures r.Null? <==> v.None?
    ensures v.Some? ==> r == Str(v.value)
  {
    if v.Some? then Str(v.value) else Null
  }

  // ---------------------------------------------------------------- formatDate

  function PartOr(parts: seq<string>, i: nat): string
  {
    if i < |parts| then parts[i] else "undefined"
  }

  /** `formatDate`: an empty or missing date becomes `today` (the current date as the
      'en-GB' locale writes it); any other text is split at '-' into year, month and day,
      a missing part reading 'undefined', and written back day first with '/'. */
  function FormatDate(dateStr: Option<string>, today: string): (r: string)
    ensures dateStr.None? || dateStr.value == "" ==> r == today
  {
    if dateStr.None? || dateStr.value == "" then today
    else
      var parts := Split(dateStr.value, '-');
      PartOr(parts, 2) + "/" + PartOr(parts, 1) + "/" + parts[0]
  }

  /** An ISO date `y-m-d` is written `d/m/y`. */
  lemma FormatDateOfIsoDate(y: string, m: string, d: string, today: string)
    requires '-' !in y && '-' !in m && '-' !in d
    ensures FormatDate(Some(y + "-" + m + "-" + d), today) == d + "/" + m + "/" + y
  {
    var parts := [y, m, d];
    assert parts[1..] == [m, d] && parts[1..][1..] == [d];
    assert Join([m, d], "-") == m + "-" + d;
    assert Join(parts, "-") == y + "-" + (m + "-" + d);
    var s := y + "-" + m + "-" + d;
    assert s == Join(parts, ['-']);
    SplitOfJoin(parts, '-');
    assert Split(s, '-') == parts;
    assert s != "";
  }

  /** Text without a hyphen is taken as the year, with month and day 'undefined'. */
  lemma FormatDateWithoutHyphen(s: string, today: string)
    requires s != "" && '-' !in s
    ensures FormatDate(Some(s), today) == "undefined/undefined/" + s
  {
    SplitOfPiece(s, '-');
  }

  // ---------------------------------------------------------------- party roles

  /** `roles.length ? roles.join(' / ') : fallback`. */
  function RolesText(roles: seq<string>, fallback: string): (r: string)
    ensures roles == [] ==> r == fallback
  {
    if |roles| > 0 then Join(roles, " / ") else fallback
  }

  /** One ticked role is the text itself; each further role is appended after ' / '. */
  lemma RolesTextGrows(roles: seq<string>, role: string, fallback: string)
    ensures RolesText([role], fallback) == role
    ensures roles != [] ==> RolesText(roles + [role], fallback) == RolesText(roles, fallback) + " / " + role
  {
    if roles != [] {
      JoinAppend(roles, " / ", role);
    }
  }

  // ---------------------------------------------------------------- certified copy documents

  /** One row of the labelled-document table: the checkbox id, the name of the text field
      holding its number or date, and the label. */
  datatype DocItem = DocItem(checkbox: string, field: string, caption: string)

  const DOC_ITEMS: seq<DocItem> := [
    DocItem("cb_App", "doc_App", "Application No."),
    DocItem("cb_IA", "doc_IA", "Interlocutory Application No."),
    DocItem("cb_Reply", "doc_Reply", "Reply to Application"),
    DocItem("cb_Order", "doc_Order", "Order dated"),
    DocItem("cb_Judg", "doc_Judg", "Judgment dated"),
    DocItem("cb_Evid", "doc_Evid", "Evidence of Witness"),
    DocItem("cb_Exh", "doc_Exh", "Exhibit No.")]

  /** The entry of a checked item: its label, then one space and the field's value when
      the field exists and is not empty. */
  function ItemText(form: Form, item: DocItem): (t: string)
    ensures item.caption <= t
    ensures t == item.caption <==> item.field !in form.fields || form.fields[item.field] == ""
    ensures t != item.caption ==> t == item.caption + " " + form.fields[item.field]
  {
    if item.field in form.fields && form.fields[item.field] != "" then
      item.caption + " " + form.fields[item.field]
    else item.caption
  }

  /** The entries of the checked items, in table order. */
  function CheckedItemDocs(form: Form, items: seq<DocItem>): (docs: seq<string>)
    ensures |docs| <= |items|
    ensures forall d :: d in docs ==> exists k :: 0 <= k < |items| && items[k].checkbox in form.checked && d == ItemText(form, items[k])
    ensures forall k :: 0 <= k < |items| && items[k].checkbox in form.checked ==> ItemText(form, items[k]) in docs
    decreases |items|
  {
    if items == [] then []
    else
      var last := items[|items| - 1];
      var front := CheckedItemDocs(form, items[..|items| - 1]);
      assert forall d :: d in front ==> exists k :: 0 <= k < |items| - 1 && items[k].checkbox in form.checked && d == ItemText(form, items[k]);
      if last.checkbox in form.checked then front + [ItemText(form, last)] else front
  }

  /** The entries of consecutive parts of the table follow each other: the list keeps the
      table's order and holds one entry per ticked item. */
  lemma {:induction false} CheckedItemDocsConcat(form: Form, a: seq<DocItem>, b: seq<DocItem>)
    ensures CheckedItemDocs(form, a + b) == CheckedItemDocs(form, a) + CheckedItemDocs(form, b)
    decreases |b|
  {
    if b == [] {
      assert a + b == a;
    } else {
      var front := b[..|b| - 1];
      assert (a + b)[..|a + b| - 1] == a + front;
      assert (a + b)[|a + b| - 1] == b[|b| - 1];
      CheckedItemDocsConcat(form, a, front);
    }
  }

  /** A single item gives its entry when ticked and nothing otherwise. */
  lemma CheckedItemDocsOfItem(form: Form, item: DocItem)
    ensures CheckedItemDocs(form, [item]) == if item.checkbox in form.checked then [ItemText(form, item)] else []
  {
    assert [item][..0] == [];
  }

  /** A ticked item's entry stands right after the entries of the ticked items before it. */
  lemma CheckedItemPosition(form: Form, items: seq<DocItem>, k: nat)
    requires k < |items| && items[k].checkbox in form.checked
    ensures var before := CheckedItemDocs(form, items[..k]);
      |before| < |CheckedItemDocs(form, items)| && CheckedItemDocs(form, items)[|before|] == ItemText(form, items[k])
  {
    var before := CheckedItemDocs(form, items[..k]);
    var rest := items[k + 1..];
    assert items[k..] == [items[k]] + rest;
    CheckedItemDocsConcat(form, [items[k]], rest);
    CheckedItemDocsOfItem(form, items[k]);
    assert CheckedItemDocs(form, items[k..]) == [ItemText(form, items[k])] + CheckedItemDocs(form, rest);
    assert items == items[..k] + items[k..];
    CheckedItemDocsConcat(form, items[..k], items[k..]);
    assert CheckedItemDocs(form, items) == before + ([ItemText(form, items[k])] + CheckedItemDocs(form, rest));
  }

  /** Of two ticked items, the earlier one's entry comes first. */
  lemma CheckedItemsInOrder(form: Form, items: seq<DocItem>, j: nat, k: nat)
    requires j < k <= |items| && items[j].checkbox in form.checked
    ensures |CheckedItemDocs(form, items[..j])| < |CheckedItemDocs(form, items[..k])|
  {
    CheckedItemPosition(form, items[..k], j);
    assert items[..k][..j] == items[..j];
  }

  /** 'Plaint' and 'Written Statement', each when its checkbox is ticked, in that order. */
  function FixedDocs(form: Form): (docs: seq<string>)
    ensures |docs| == (if "doc_Plaint" in form.checked then 1 else 0) + (if "doc_WS" in form.checked then 1 else 0)
    ensures forall d :: d in docs ==> d == "Plaint" || d == "Written Statement"
    ensures "Plaint" in docs <==> "doc_Plaint" in form.checked
    ensures "Written Statement" in docs <==> "doc_WS" in form.checked
    ensures "doc_Plaint" in form.checked ==> docs[0] == "Plaint"
    ensures "doc_WS" in form.checked ==> docs[|docs| - 1] == "Written Statement"
  {
    (if "doc_Plaint" in form.checked then ["Plaint"] else [])
    + (if "doc_WS" in form.checked then ["Written Statement"] else [])
  }

  /** The `Docs` list of the certified-copy record. */
  function RequestedDocs(form: Form): (docs: seq<string>)
    ensures |docs| <= 9
    ensures |FixedDocs(form)| <= |docs| && docs[..|FixedDocs(form)|] == FixedDocs(form)
    ensures forall k :: 0 <= k < |DOC_ITEMS| && DOC_ITEMS[k].checkbox in form.checked ==> ItemText(form, DOC_ITEMS[k]) in docs
  {
    FixedDocs(form) + CheckedItemDocs(form, DOC_ITEMS)
  }

  /** Every ticked labelled document is listed, after the fixed documents and the ticked
      items ahead of it in the table; every entry is a fixed document or a ticked item's. */
  lemma RequestedDocsItems(form: Form)
    ensures forall k :: 0 <= k < |DOC_ITEMS| && DOC_ITEMS[k].checkbox in form.checked ==>
      var at := |FixedDocs(form)| + |CheckedItemDocs(form, DOC_ITEMS[..k])|;
      at < |RequestedDocs(form)| && RequestedDocs(form)[at] == ItemText(form, DOC_ITEMS[k])
    ensures forall d :: d in RequestedDocs(form) ==>
      d in FixedDocs(form) || exists k :: 0 <= k < |DOC_ITEMS| && DOC_ITEMS[k].checkbox in form.checked && d == ItemText(form, DOC_ITEMS[k])
  {
    var fixed := FixedDocs(form);
    var items := CheckedItemDocs(form, DOC_ITEMS);
    forall k | 0 <= k < |DOC_ITEMS| && DOC_ITEMS[k].checkbox in form.checked
      ensures |fixed| + |CheckedItemDocs(form, DOC_ITEMS[..k])| < |fixed + items|
      ensures (fixed + items)[|fixed| + |CheckedItemDocs(form, DOC_ITEMS[..k])|] == ItemText(form, DOC_ITEMS[k])
    {
      CheckedItemPosition(form, DOC_ITEMS, k);
    }
  }

  /** Every labelled entry starts with a letter other than 'P' and 'W', so neither can be
      taken for one of the two fixed documents. */
  lemma ItemTextIsNotFixed(form: Form, k: nat)
    requires k < |DOC_ITEMS|
    ensures ItemText(form, DOC_ITEMS[k]) != "Plaint" && ItemText(form, DOC_ITEMS[k]) != "Written Statement"
  {
    var t := ItemText(form, DOC_ITEMS[k]);
    var caption := DOC_ITEMS[k].caption;
    assert t[0] == caption[0];
    assert caption[0] != 'P' && caption[0] != 'W';
  }

  /** 'Plaint' and 'Written Statement' are listed exactly when their boxes are ticked, and
      always ahead of every labelled entry. */
  lemma RequestedDocsFixedPart(form: Form)
    ensures "Plaint" in RequestedDocs(form) <==> "doc_Plaint" in form.checked
    ensures "Written Statement" in RequestedDocs(form) <==> "doc_WS" in form.checked
    ensures RequestedDocs(form)[..|FixedDocs(form)|] == FixedDocs(form)
  {
    var items := CheckedItemDocs(form, DOC_ITEMS);
    forall d | d in items
      ensures d != "Plaint" && d != "Written Statement"
    {
      var k :| 0 <= k < |DOC_ITEMS| && DOC_ITEMS[k].checkbox in form.checked && d == ItemText(form, DOC_ITEMS[k]);
      ItemTextIsNotFixed(form, k);
    }
  }

  function Captions(items: seq<DocItem>): (cs: seq<string>)
    ensures |cs| == |items| && forall k :: 0 <= k < |items| ==> cs[k] == items[k].caption
  {
    seq(|items|, k requires 0 <= k < |items| => items[k].caption)
  }

  /** Items that are all ticked, with empty or missing fields, are listed by their labels,
      in order. */
  lemma {:induction false} AllItemsChecked(form: Form, items: seq<DocItem>)
    requires forall item :: item in items ==>
      item.checkbox in form.checked && (item.field !in form.fields || form.fields[item.field] == "")
    ensures CheckedItemDocs(form, items) == Captions(items)
    decreases |items|
  {
    if items != [] {
      var front := items[..|items| - 1];
      AllItemsChecked(form, front);
      assert Captions(items) == Captions(front) + [items[|items| - 1].caption];
    }
  }

  /** With every box ticked and every field empty (as the page renders them) or missing,
      all nine documents are listed by name: the two fixed ones, then the labels in table
      order. */
  lemma AllDocsRequested(form: Form)
    requires "doc_Plaint" in form.checked && "doc_WS" in form.checked
    requires forall item :: item in DOC_ITEMS ==>
      item.checkbox in form.checked && (item.field !in form.fields || form.fields[item.field] == "")
    ensures RequestedDocs(form) == ["Plaint", "Written Statement"] + Captions(DOC_ITEMS)
    ensures |RequestedDocs(form)| == 9
  {
    var fixed := FixedDocs(form);
    assert fixed == ["Plaint", "Written Statement"];
    AllItemsChecked(form, DOC_ITEMS);
    assert RequestedDocs(form) == fixed + CheckedItemDocs(form, DOC_ITEMS);
  }

  /** The loop of `collectCertifiedCopyData` over the labelled-document table. */
  method CollectItemDocs(form: Form, items: seq<DocItem>) returns (docs: seq<string>)
    ensures docs == CheckedItemDocs(form, items)
  {
    docs := [];
    var i := 0;
    while i < |items|
      invariant 0 <= i <= |items|
      invariant docs == CheckedItemDocs(form, items[..i])
    {
      var item := items[i];
      assert items[..i + 1][..i] == items[..i];
      if item.checkbox in form.checked {
        docs := docs + [ItemText(form, item)];
      }
      i := i + 1;
    }
    assert items[..i] == items;
  }

  /** The documents `collectCertifiedCopyData` pushes: the two fixed ones, then the table's. */
  method CollectDocs(form: Form) returns (docs: seq<string>)
    ensures docs == RequestedDocs(form)
  {
    docs := [];
    if "doc_Plaint" in form.checked {
      docs := docs + ["Plaint"];
    }
    if "doc_WS" in form.checked {
      docs := docs + ["Written Statement"];
    }
    var items := CollectItemDocs(form, DOC_ITEMS);
    docs := docs + items;
  }

  // ---------------------------------------------------------------- advocates

  /** `filter(Boolean)` over strings: the non-empty ones, in order. */
  function NonEmpty(xs: seq<string>): (ys: seq<string>)
    ensures |ys| <= |xs|
    ensures "" !in ys
    ensures forall x :: x != "" ==> multiset(ys)[x] == multiset(xs)[x]
    decreases |xs|
  {
    if xs == [] then []
    else
      var front := NonEmpty(xs[..|xs| - 1]);
      assert xs == xs[..|xs| - 1] + [xs[|xs| - 1]];
      if xs[|xs| - 1] == "" then front else front + [xs[|xs| - 1]]
  }

  /** The filter keeps the order: what it keeps of an earlier part of the list comes before
      what it keeps of a later part. */
  lemma {:induction false} NonEmptyConcat(a: seq<string>, b: seq<string>)
    ensures NonEmpty(a + b) == NonEmpty(a) + NonEmpty(b)
    decreases |b|
  {
    if b == [] {
      assert a + b == a;
    } else {
      var front := b[..|b| - 1];
      assert (a + b)[..|a + b| - 1] == a + front;
      assert (a + b)[|a + b| - 1] == b[|b| - 1];
      NonEmptyConcat(a, front);
    }
  }

  /** A single value is kept exactly when it is not empty. */
  lemma NonEmptyOfValue(x: string)
    ensures NonEmpty([x]) == if x == "" then [] else [x]
  {
    assert [x][..0] == [];
  }

  // ---------------------------------------------------------------- extra executants

  /** `parseInt(fd.get('ExtraExecutants') || '0')`; `None` is NaN. */
  function ExtraExecutantCount(form: Form): Option<int>
  {
    ParseInt(OrText(Get(form.entries, "ExtraExecutants"), "0"))
  }

  /** How often `for (let i = 0; i < n; i++)` runs: never for NaN or n <= 0. */
  function LoopBound(n: Option<int>): (k: nat)
    ensures n.Some? && n.value >= 0 ==> k == n.value
    ensures n.None? || n.value <= 0 ==> k == 0
  {
    if n.Some? && n.value > 0 then n.value else 0
  }

  /** The name of the field for extra executant `i`, as the slider creates it. */
  function ExtraExecField(i: nat): string
  {
    "ExtraExec_" + NatToString(i)
  }

  /** Extra executant `i`: the supplied name, or 'Executant ' followed by i + 2. */
  function ExtraName(form: Form, i: nat): (name: string)
    ensures name != ""
    ensures Get(form.entries, ExtraExecField(i)).Some? && Get(form.entries, ExtraExecField(i)).value != ""
            ==> name == Get(form.entries, ExtraExecField(i)).value
  {
    OrText(Get(form.entries, ExtraExecField(i)), "Executant " + NatToString(i + 2))
  }

  /** The first `n` extra executant names. */
  function ExtraNames(form: Form, n: nat): (names: seq<string>)
    ensures |names| == n
    ensures forall i :: 0 <= i < n ==> names[i] == ExtraName(form, i)
    decreases n
  {
    if n == 0 then [] else ExtraNames(form, n - 1) + [ExtraName(form, n - 1)]
  }

  /** The loop of `collectVakalatnamaData` that pushes the extra executant names. */
  method CollectExtraNames(form: Form, count: Option<int>) returns (names: seq<string>)
    ensures names == ExtraNames(form, LoopBound(count))
  {
    names := [];
    var i := 0;
    while count.Some? && i < count.value
      invariant 0 <= i
      invariant count.Some? && count.value >= 0 ==> i <= count.value
      invariant names == ExtraNames(form, i)
      invariant i > 0 ==> count.Some? && i <= count.value
      decreases if count.Some? then count.value - i else 0
    {
      names := names + [ExtraName(form, i)];
      i := i + 1;
    }
  }

  // ---------------------------------------------------------------- petition parties

  /** One petitioner or defendant of the new-petition record. */
  datatype Party = Party(title: string, name: string, relation: string, parentName: string,
                         age: string, occupation: string, address: string)

  /** The name of field `what` of card `i` of the given kind, as `personFormHTML` writes it. */
  function PartyField(kind: string, what: string, i: nat): string
  {
    kind + "_" + what + "_" + NatToString(i)
  }

  /** `fd.get(name) || fallback` for field `what` of card `i`. */
  function PartyText(form: Form, kind: string, what: string, i: nat, fallback: string): string
  {
    OrText(Get(form.entries, PartyField(kind, what, i)), fallback)
  }

  /** `value` is what was typed into field `what` of card `i` when that is not empty, and
      `fallback` otherwise. */
  predicate TypedOr(form: Form, kind: string, what: string, i: nat, value: string, fallback: string)
  {
    var typed := Get(form.entries, PartyField(kind, what, i));
    if typed.Some? && typed.value != "" then value == typed.value else value == fallback
  }

  /** Party `i` of a kind: the fields of card `i`, with 'Mr.', 'Son Of' and '30' standing in
      for an empty title, relation and age, and '' for the other fields. */
  function PartyAt(form: Form, kind: string, i: nat): (p: Party)
    ensures TypedOr(form, kind, "title", i, p.title, "Mr.")
    ensures TypedOr(form, kind, "name", i, p.name, "")
    ensures TypedOr(form, kind, "relation", i, p.relation, "Son Of")
    ensures TypedOr(form, kind, "parent", i, p.parentName, "")
    ensures TypedOr(form, kind, "age", i, p.age, "30")
    ensures TypedOr(form, kind, "occupation", i, p.occupation, "")
    ensures TypedOr(form, kind, "address", i, p.address, "")
  {
    Party(PartyText(form, kind, "title", i, "Mr."), PartyText(form, kind, "name", i, ""),
          PartyText(form, kind, "relation", i, "Son Of"), PartyText(form, kind, "parent", i, ""),
          PartyText(form, kind, "age", i, "30"), PartyText(form, kind, "occupation", i, ""),
          PartyText(form, kind, "address", i, ""))
  }

  /** The record of a party, with the keys `collectNewPetitionData` gives it. */
  function PartyValue(p: Party): (v: Value)
    ensures v.Obj?
    ensures v.fields.Keys == {"title", "name", "parent_relation", "parent_name", "age", "occupation", "address"}
    ensures v.fields["title"] == Str(p.title) && v.fields["name"] == Str(p.name)
    ensures v.fields["parent_relation"] == Str(p.relation) && v.fields["parent_name"] == Str(p.parentName)
    ensures v.fields["age"] == Str(p.age) && v.fields["occupation"] == Str(p.occupation)
    ensures v.fields["address"] == Str(p.address)
  {
    var fields := map["title" := Str(p.title), "name" := Str(p.name), "parent_relation" := Str(p.relation),
      "parent_name" := Str(p.parentName), "age" := Str(p.age), "occupation" := Str(p.occupation),
      "address" := Str(p.address)];
    assert fields.Keys == {"title", "name", "parent_relation", "parent_name", "age", "occupation", "address"};
    Obj(fields)
  }

  /** An array of party records. */
  function PartyList(ps: seq<Party>): (v: Value)
    ensures v.List? && |v.items| == |ps|
    ensures forall i :: 0 <= i < |ps| ==> v.items[i] == PartyValue(ps[i])
  {
    List(seq(|ps|, i requires 0 <= i < |ps| => PartyValue(ps[i])))
  }

  /** The first `n` parties of a kind. */
  function Parties(form: Form, kind: string, n: nat): (ps: seq<Party>)
    ensures |ps| == n
    ensures forall i :: 0 <= i < n ==> ps[i] == PartyAt(form, kind, i)
    decreases n
  {
    if n == 0 then [] else Parties(form, kind, n - 1) + [PartyAt(form, kind, n - 1)]
  }

  /** One of the loops of `collectNewPetitionData`. */
  method CollectParties(form: Form, kind: string, count: nat) returns (ps: seq<Party>)
    ensures ps == Parties(form, kind, count)
  {
    ps := [];
    var i := 0;
    while i < count
      invariant 0 <= i <= count
      invariant ps == Parties(form, kind, i)
    {
      ps := ps + [PartyAt(form, kind, i)];
      i := i + 1;
    }
  }

  // ---------------------------------------------------------------- the records

  /** The keys of the three records. The certified copy and the vakalatnama name the
      client, the advocates and the date differently, and the new petition's keys are all
      lower case. */
  const CERTIFIED_COPY_KEYS: set<string> := {
    "Year", "P_Title", "Plaintiff", "D_Title", "Defendant", "ApplicantType", "SuitType",
    "SuitStatus", "Mobile", "Date", "Place", "Court", "CaseNo", "Applicant", "PRole", "DRole", "Docs"}

  const VAKALATNAMA_KEYS: set<string> := {
    "CaseNo", "P_Title", "Petitioner", "PRole", "D_Title", "Defendant", "DRole",
    "AppointmentType", "ApplicantName", "Address", "PartyTypeRole", "Advocates", "WitnessDate",
    "Court", "ExtraExecutants", "ExtraExecutantNames"}

  const NEW_PETITION_KEYS: set<string> := {
    "court", "case_no", "petition_text", "place", "date", "petitioners", "defendants"}

  function Field(form: Form, name: string): Value
  {
    FieldValue(Get(form.entries, name))
  }

  /** The object literal `collectCertifiedCopyData` returns, given the documents its loop
      collected; `today` is the current date in 'en-GB'. */
  function CertifiedCopyFields(form: Form, docs: seq<string>, today: string): (data: Record)
    ensures data.Keys == CERTIFIED_COPY_KEYS
  {
    map[
      "Year" := Field(form, "Year"),
      "P_Title" := Field(form, "P_Title"), "Plaintiff" := Field(form, "Plaintiff"),
      "D_Title" := Field(form, "D_Title"), "Defendant" := Field(form, "Defendant"),
      "ApplicantType" := Field(form, "ApplicantType"), "SuitType" := Field(form, "SuitType"),
      "SuitStatus" := Field(form, "SuitStatus"),
      "Mobile" := Field(form, "Mobile"),
      "Date" := Str(FormatDate(Get(form.entries, "Date"), today)),
      "Place" := Str(OrText(Get(form.entries, "Place"), "Margao")),
      "PRole" := Str(RolesText(GetAll(form.entries, "PRole"), "Petitioner")),
      "DRole" := Str(RolesText(GetAll(form.entries, "DRole"), "Respondent")),
      "Docs" := TextList(docs),
      "Court" := Field(form, "Court"), "CaseNo" := Field(form, "CaseNo"),
      "Applicant" := Field(form, "Applicant")]
  }

  /** The record `collectCertifiedCopyData` returns. */
  function CertifiedCopyRecord(form: Form, today: string): Record
  {
    CertifiedCopyFields(form, RequestedDocs(form), today)
  }

  /** The object literal `collectVakalatnamaData` returns, given the parsed executant count
      and the names its loop collected. */
  function VakalatnamaFields(form: Form, count: Option<int>, names: seq<string>, today: string): (data: Record)
    ensures data.Keys == VAKALATNAMA_KEYS
  {
    map[
      "CaseNo" := Field(form, "CaseNo"),
      "P_Title" := Field(form, "P_Title"), "Petitioner" := Field(form, "Petitioner"),
      "PRole" := Str(RolesText(GetAll(form.entries, "PRole"), "Petitioner")),
      "D_Title" := Field(form, "D_Title"), "Defendant" := Field(form, "Defendant"),
      "DRole" := Str(RolesText(GetAll(form.entries, "DRole"), "Respondent")),
      "AppointmentType" := Str(OrText(Get(form.entries, "AppointmentType"), "I")),
      "ApplicantName" := Field(form, "ApplicantName"), "Address" := Field(form, "Address"),
      "PartyTypeRole" := Str(OrText(Get(form.entries, "PartyTypeRole"), "Petitioner")),
      "Advocates" := TextList(NonEmpty(GetAll(form.entries, "Advocate"))),
      "WitnessDate" := Str(FormatDate(Get(form.entries, "WitnessDate"), today)),
      "Court" := Field(form, "Court"),
      "ExtraExecutants" := (if count.Some? then Num(count.value) else NaN),
      "ExtraExecutantNames" := TextList(names)]
  }

  /** The record `collectVakalatnamaData` returns. */
  function VakalatnamaRecord(form: Form, today: string): Record
  {
    var count := ExtraExecutantCount(form);
    VakalatnamaFields(form, count, ExtraNames(form, LoopBound(count)), today)
  }

  /** The object literal `collectNewPetitionData` returns, given the parties its loops
      collected. Its keys are lower case: 'court', 'case_no', 'petitioners', ... */
  function NewPetitionFields(form: Form, petitioners: seq<Party>, defendants: seq<Party>, today: string): (data: Record)
    ensures data.Keys == NEW_PETITION_KEYS
  {
    map[
      "court" := Field(form, "Court"), "case_no" := Field(form, "CaseNo"),
      "petition_text" := Str(OrText(Get(form.entries, "PetitionText"), "")),
      "place" := Str(OrText(Get(form.entries, "Place"), "Margao")),
      "date" := Str(FormatDate(Get(form.entries, "Date"), today)),
      "petitioners" := PartyList(petitioners),
      "defendants" := PartyList(defendants)]
  }

  /** The record `collectNewPetitionData` returns for the given numbers of petitioner and
      defendant cards. */
  function NewPetitionRecord(form: Form, petitioners: nat, defendants: nat, today: string): Record
  {
    NewPetitionFields(form, Parties(form, "petitioner", petitioners), Parties(form, "defendant", defendants), today)
  }

  /** `collectCertifiedCopyData`. */
  method CollectCertifiedCopyData(form: Form, today: string) returns (data: Record)
    ensures data == CertifiedCopyRecord(form, today)
  {
    var docs := CollectDocs(form);
    data := CertifiedCopyFields(form, docs, today);
  }

  /** `collectVakalatnamaData`. */
  method CollectVakalatnamaData(form: Form, today: string) returns (data: Record)
    ensures data == VakalatnamaRecord(form, today)
  {
    var count := ExtraExecutantCount(form);
    var names := CollectExtraNames(form, count);
    data := VakalatnamaFields(form, count, names, today);
  }

  // ---------------------------------------------------------------- record properties

  /** The certified copy lists the requested documents. */
  lemma CertifiedCopyRecordDocs(form: Form, today: string)
    ensures CertifiedCopyRecord(form, today)["Docs"] == TextList(RequestedDocs(form))
  {
  }

  /** The certified copy carries the court, case number and applicant fields as submitted. */
  lemma CertifiedCopyFieldsText(form: Form, docs: seq<string>, today: string)
    ensures var data := CertifiedCopyFields(form, docs, today);
      && "Court" in data && data["Court"] == Field(form, "Court")
      && "CaseNo" in data && data["CaseNo"] == Field(form, "CaseNo")
      && "Applicant" in data && data["Applicant"] == Field(form, "Applicant")
  {
  }

  /** The vakalatnama record carries the court field as submitted. */
  lemma VakalatnamaFieldsCourt(form: Form, count: Option<int>, names: seq<string>, today: string)
    ensures var data := VakalatnamaFields(form, count, names, today);
      "Court" in data && data["Court"] == Field(form, "Court")
  {
  }

  /** The vakalatnama record holds the parsed count and the names the loop collected. */
  lemma VakalatnamaFieldsExecutants(form: Form, count: Option<int>, names: seq<string>, today: string)
    ensures var data := VakalatnamaFields(form, count, names, today);
      && "ExtraExecutants" in data && data["ExtraExecutants"] == (if count.Some? then Num(count.value) else NaN)
      && "ExtraExecutantNames" in data && data["ExtraExecutantNames"] == TextList(names)
  {
  }

  /** A slider value written out in decimal parses back to itself. */
  lemma ExtraExecutantCountOf(form: Form, k: nat)
    requires Get(form.entries, "ExtraExecutants") == Some(NatToString(k))
    ensures ExtraExecutantCount(form) == Some(k)
  {
    var s := NatToString(k);
    assert s != "";
    ParseIntOfIntToString(k);
    assert IntToString(k) == s;
  }

  lemma KeyTables()
    ensures "Client" !in VAKALATNAMA_KEYS && "Advocate" !in VAKALATNAMA_KEYS && "Date" !in VAKALATNAMA_KEYS
    ensures "Court" !in NEW_PETITION_KEYS && "PetitionType" !in NEW_PETITION_KEYS && "Petitioner" !in NEW_PETITION_KEYS
    ensures "Respondent" !in NEW_PETITION_KEYS && "Date" !in NEW_PETITION_KEYS
  {
  }

  /** The new-petition record's keys are all lower case: it has none of 'Court',
      'PetitionType', 'Petitioner', 'Respondent' and 'Date'. */
  lemma NewPetitionRecordKeys(form: Form, petitioners: nat, defendants: nat, today: string)
    ensures var data := NewPetitionRecord(form, petitioners, defendants, today);
      && "Court" !in data && "PetitionType" !in data && "Petitioner" !in data
      && "Respondent" !in data && "Date" !in data
  {
    KeyTables();
    assert NewPetitionRecord(form, petitioners, defendants, today).Keys == NEW_PETITION_KEYS;
  }

  /** The vakalatnama record names the client 'ApplicantName', the advocates 'Advocates'
      and the date 'WitnessDate': it has no 'Client', 'Advocate' or 'Date'. */
  lemma VakalatnamaRecordKeys(form: Form, today: string)
    ensures var data := VakalatnamaRecord(form, today);
      "Client" !in data && "Advocate" !in data && "Date" !in data
  {
    KeyTables();
    assert VakalatnamaRecord(form, today).Keys == VAKALATNAMA_KEYS;
  }

  /** A role list with nothing ticked reads 'Petitioner' and 'Respondent'. */
  lemma CertifiedCopyFieldsRoles(form: Form, docs: seq<string>, today: string)
    ensures GetAll(form.entries, "PRole") == [] ==>
      CertifiedCopyFields(form, docs, today)["PRole"] == Str("Petitioner")
    ensures GetAll(form.entries, "DRole") == [] ==>
      CertifiedCopyFields(form, docs, today)["DRole"] == Str("Respondent")
  {
  }

  /** There is one extra executant name per counted executant: a slider value of k gives
      exactly k names, the i-th the supplied one or 'Executant i+2'; NaN gives none. */
  lemma VakalatnamaExtraNames(form: Form, today: string, k: nat)
    requires Get(form.entries, "ExtraExecutants") == Some(NatToString(k))
    ensures var data := VakalatnamaRecord(form, today);
      && data["ExtraExecutants"] == Num(k)
      && data["ExtraExecutantNames"].List?
      && |data["ExtraExecutantNames"].items| == k
      && forall i :: 0 <= i < k ==> data["ExtraExecutantNames"].items[i] == Str(ExtraName(form, i))
  {
    ExtraExecutantCountOf(form, k);
    VakalatnamaFieldsExecutants(form, Some(k), ExtraNames(form, k), today);
  }

}
