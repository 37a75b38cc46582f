/** The page state forms.js keeps between events: which form the modal shows, the
    module-level petitioner and defendant counters with the person cards they number,
    and the extra-executant fields the slider of the vakalatnama form adds and removes.
    The HTML markup itself is not modelled; a container is represented by what it holds. */
module FormLogic {
  import opened Wrappers
  import opened Strings
  import opened JsValues
  import opened Forms

  // ---------------------------------------------------------------- titles

  /** The `titles` table of `getDocumentTitle`. */
  const DOCUMENT_TITLES: map<string, string> :=
    map["certified-copy" := "Certified Copy Application", "vakalatnama" := "Vakalatnama",
        "new-petition" := "New Petition"]

  /** `getDocumentTitle`: the table's title, or 'Document' for any other type. */
  function GetDocumentTitle(docType: string): (title: string)
    ensures docType in DOCUMENT_TITLES ==> title == DOCUMENT_TITLES[docType]
    ensures title == "Document" <==> docType !in DOCUMENT_TITLES
  {
    if docType in DOCUMENT_TITLES then DOCUMENT_TITLES[docType] else "Document"
  }

  /** The person titles `titleOptions` offers, in order. */
  const TITLES: seq<string> := ["Mr.", "Mrs.", "Ms.", "Dr."]

  datatype TitleOption = TitleOption(value: string, selected: bool)

  /** `titleOptions(selected)`: one option per title, marked selected when it is the given
      one; 'Mr.' when no title is given. */
  function TitleOptions(selected: string := "Mr."): (opts: seq<TitleOption>)
    ensures |opts| == |TITLES|
    ensures forall i :: 0 <= i < |TITLES| ==> opts[i].value == TITLES[i]
    ensures forall i :: 0 <= i < |TITLES| ==> (opts[i].selected <==> TITLES[i] == selected)
  {
    seq(|TITLES|, i requires 0 <= i < |TITLES| => TitleOption(TITLES[i], TITLES[i] == selected))
  }

  /** At most one option is selected, exactly one when the title is offered, and by
      default the first. */
  lemma TitleOptionsSelectOne(selected: string)
    ensures forall i, j :: 0 <= i < j < |TITLES| && TitleOptions(selected)[i].selected ==> !TitleOptions(selected)[j].selected
    ensures (exists i :: 0 <= i < |TITLES| && TitleOptions(selected)[i].selected) <==> selected in TITLES
    ensures TitleOptions()[0].selected
  {
    var opts := TitleOptions(selected);
    if selected in TITLES {
      var i :| 0 <= i < |TITLES| && TITLES[i] == selected;
      assert opts[i].selected;
    }
  }

  // ---------------------------------------------------------------- extra executant fields

  /** One field group of `#extraExecFields`: its label and the name of its input. */
  datatype ExecGroup = ExecGroup(caption: string, field: string)

  /** The group the slider creates for extra executant `i`. */
  function NewExecGroup(i: nat): (g: ExecGroup)
    ensures g.field == ExtraExecField(i)
  {
    ExecGroup("Executant " + NatToString(i + 2) + " Name", ExtraExecField(i))
  }

  /** The groups for the first `n` extra executants. */
  function StandardGroups(n: nat): (gs: seq<ExecGroup>)
    ensures |gs| == n
    ensures forall i :: 0 <= i < n ==> gs[i] == NewExecGroup(i)
  {
    seq(n, i requires 0 <= i < n => NewExecGroup(i))
  }

  /** The groups left after the slider moves to `n`: the first `n` when there were at least
      that many, otherwise all of them followed by new groups up to `n`. */
  function ResizedGroups(groups: seq<ExecGroup>, n: nat): (r: seq<ExecGroup>)
    ensures |r| == n
    ensures n <= |groups| ==> r == groups[..n]
    ensures n > |groups| ==> r[..|groups|] == groups
    ensures forall i :: |groups| <= i < n ==> r[i] == NewExecGroup(i)
  {
    if n <= |groups| then groups[..n]
    else groups + seq(n - |groups|, j requires 0 <= j < n - |groups| => NewExecGroup(|groups| + j))
  }

  /** Growing by one more appends that one group. */
  lemma ResizedGroupsStep(groups: seq<ExecGroup>, n: nat)
    requires |groups| <= n
    ensures ResizedGroups(groups, n + 1) == ResizedGroups(groups, n) + [NewExecGroup(n)]
  {
    var r := ResizedGroups(groups, n + 1);
    var q := ResizedGroups(groups, n) + [NewExecGroup(n)];
    forall i | 0 <= i < n + 1
      ensures r[i] == q[i]
    {
      if i < |groups| {
        assert r[..|groups|][i] == groups[i];
        assert n == |groups| || ResizedGroups(groups, n)[..|groups|][i] == groups[i];
      }
    }
  }

  /** Resizing the standard groups gives the standard groups of the new size, so the field
      names on the page are always `ExtraExec_0` up to `ExtraExec_{n-1}`. */
  lemma ResizedStandardGroups(m: nat, n: nat)
    ensures ResizedGroups(StandardGroups(m), n) == StandardGroups(n)
  {
    var r := ResizedGroups(StandardGroups(m), n);
    forall i | 0 <= i < n
      ensures r[i] == NewExecGroup(i)
    {
      if i < m {
        if n <= m {
          assert r[i] == StandardGroups(m)[i];
        } else {
          assert r[..m][i] == StandardGroups(m)[i];
        }
      }
    }
  }

  /** The text of `#sliderLabel` for a parsed slider value; NaN reads 'NaN'. */
  function SliderText(n: Option<int>): string
  {
    "Extra Executant Signatures: " + (if n.Some? then IntToString(n.value) else "NaN")
  }

  // ---------------------------------------------------------------- person cards

  /** The form types `openDocumentForm` knows. */
  const FORM_TYPES: set<string> := {"certified-copy", "vakalatnama", "new-petition"}

  function Indices(n: nat): (s: seq<nat>)
    ensures |s| == n && forall i :: 0 <= i < n ==> s[i] == i
  {
    seq(n, i requires 0 <= i < n => i)
  }

  class FormSession {
    /** The form the modal shows, `None` before any form is opened. */
    var modal: Option<string>
    /** The module-level `petitionerCount` and `defendantCount`. */
    var petitionerCount: nat
    var defendantCount: nat
    /** The index of each card in `#petitionerForms` and `#defendantForms`, in page order. */
    var petitionerCards: seq<nat>
    var defendantCards: seq<nat>
    /** The text of `#sliderLabel` and the groups in `#extraExecFields`. */
    var sliderLabel: string
    var execGroups: seq<ExecGroup>

    /** The containers exist only in their own form; in the new-petition form the cards
        are numbered 0, 1, ... up to the counter; in the vakalatnama form the groups are
        the standard ones. */
    predicate Valid()
      reads this
    {
      && (modal == Some("new-petition") ==>
            petitionerCards == Indices(petitionerCount) && defendantCards == Indices(defendantCount))
      && (modal != Some("new-petition") ==> petitionerCards == [] && defendantCards == [])
      && (modal == Some("vakalatnama") ==> execGroups == StandardGroups(|execGroups|))
      && (modal != Some("vakalatnama") ==> execGroups == [] && sliderLabel == "")
    }

    /** The page as loaded: no form open and both counters at 0. */
    constructor ()
      ensures Valid()
      ensures modal == None && petitionerCount == 0 && defendantCount == 0
    {
      modal := None;
      petitionerCount := 0;
      defendantCount := 0;
      petitionerCards := [];
      defendantCards := [];
      sliderLabel := "";
      execGroups := [];
    }

    /** `addPersonForm(type)`: a card numbered with the counter of its kind is appended and
        that counter alone goes up; any type other than 'petitioner' counts as a defendant.
        Without the new-petition form there is no container and nothing changes. */
    method AddPersonForm(kind: string)
      modifies this
      ensures modal == Some("new-petition") && kind == "petitioner" ==>
        && petitionerCards == old(petitionerCards) + [old(petitionerCount)]
        && petitionerCount == old(petitionerCount) + 1
        && defendantCards == old(defendantCards) && defendantCount == old(defendantCount)
      ensures modal == Some("new-petition") && kind != "petitioner" ==>
        && defendantCards == old(defendantCards) + [old(defendantCount)]
        && defendantCount == old(defendantCount) + 1
        && petitionerCards == old(petitionerCards) && petitionerCount == old(petitionerCount)
      ensures modal != Some("new-petition") ==>
        && petitionerCards == old(petitionerCards) && petitionerCount == old(petitionerCount)
        && defendantCards == old(defendantCards) && defendantCount == old(defendantCount)
      ensures modal == old(modal) && sliderLabel == old(sliderLabel) && execGroups == old(execGroups)
      ensures old(Valid()) ==> Valid()
    {
      if kind == "petitioner" {
        if modal == Some("new-petition") {
          petitionerCards := petitionerCards + [petitionerCount];
          petitionerCount := petitionerCount + 1;
        }
      } else {
        if modal == Some("new-petition") {
          defendantCards := defendantCards + [defendantCount];
          defendantCount := defendantCount + 1;
        }
      }
    }

    /** `initFormLogic(docType)`: for the new-petition form both counters restart and one
        card of each kind is added; the counters end at 1 when the form's containers exist
        and at 0 otherwise. Other types change nothing. */
    method InitFormLogic(docType: string)
      modifies this
      ensures docType == "new-petition" && modal == Some("new-petition") ==>
        && petitionerCount == 1 && defendantCount == 1
        && petitionerCards == old(petitionerCards) + [0] && defendantCards == old(defendantCards) + [0]
      ensures docType == "new-petition" && modal != Some("new-petition") ==>
        && petitionerCount == 0 && defendantCount == 0
        && petitionerCards == old(petitionerCards) && defendantCards == old(defendantCards)
      ensures docType != "new-petition" ==>
        && petitionerCount == old(petitionerCount) && defendantCount == old(defendantCount)
        && petitionerCards == old(petitionerCards) && defendantCards == old(defendantCards)
      ensures modal == old(modal) && sliderLabel == old(sliderLabel) && execGroups == old(execGroups)
    {
      if docType == "new-petition" {
        petitionerCount := 0;
        defendantCount := 0;
        AddPersonForm("petitioner");
        AddPersonForm("defendant");
      }
    }

    /** `openDocumentForm(docType)` as far as the page state goes: a known type replaces the
        modal with a fresh form (empty containers, the slider label at 0) and runs
        `initFormLogic`; an unknown type changes nothing. */
    method OpenDocumentForm(docType: string)
      requires Valid()
      modifies this
      ensures Valid()
      ensures docType !in FORM_TYPES ==>
        && modal == old(modal) && petitionerCount == old(petitionerCount) && defendantCount == old(defendantCount)
        && petitionerCards == old(petitionerCards) && defendantCards == old(defendantCards)
        && sliderLabel == old(sliderLabel) && execGroups == old(execGroups)
      ensures docType in FORM_TYPES ==> modal == Some(docType) && execGroups == []
      ensures docType == "new-petition" ==>
        petitionerCount == 1 && defendantCount == 1 && petitionerCards == [0] && defendantCards == [0]
      ensures docType == "vakalatnama" ==> sliderLabel == SliderText(Some(0))
      ensures docType in FORM_TYPES && docType != "new-petition" ==>
        petitionerCount == old(petitionerCount) && defendantCount == old(defendantCount)
    {
      if docType !in FORM_TYPES {
        return;
      }
      modal := Some(docType);
      petitionerCards := [];
      defendantCards := [];
      execGroups := [];
      sliderLabel := if docType == "vakalatnama" then SliderText(Some(0)) else "";
      InitFormLogic(docType);
    }

    /** `updateExecSlider`: the label shows the parsed value, then the groups grow to `n` by
        appending new ones or shrink to `n` by removing from the end. NaN leaves the groups
        as they are; a negative value removes every group and then throws, reading past the
        start of the list. Without the vakalatnama form nothing changes. */
    method UpdateExecSlider(value: string) returns (threw: bool)
      modifies this
      ensures var n := ParseInt(value);
        && (old(modal) != Some("vakalatnama") ==> !threw && sliderLabel == old(sliderLabel) && execGroups == old(execGroups))
        && (old(modal) == Some("vakalatnama") ==>
              && sliderLabel == SliderText(n)
              && (n.None? ==> !threw && execGroups == old(execGroups))
              && (n.Some? && n.value >= 0 ==> !threw && execGroups == ResizedGroups(old(execGroups), n.value))
              && (n.Some? && n.value < 0 ==> threw && execGroups == []))
      ensures modal == old(modal) && petitionerCount == old(petitionerCount) && defendantCount == old(defendantCount)
      ensures petitionerCards == old(petitionerCards) && defendantCards == old(defendantCards)
      ensures old(Valid()) ==> Valid()
    {
      threw := false;
      var n := ParseInt(value);
      if modal != Some("vakalatnama") {
        return;
      }
      sliderLabel := SliderText(n);
      if n.None? {
        return;
      }
      ghost var before := execGroups;
      if n.value > |execGroups| {
        GrowGroups(n.value);
      } else {
        threw := ShrinkGroups(n.value);
      }
      if old(Valid()) && n.value >= 0 {
        ResizedStandardGroups(|before|, n.value);
      }
    }

    /** The growing loop of `updateExecSlider`: a new group for each index from the
        current length up to `target - 1`, appended in order. */
    method GrowGroups(target: nat)
      requires target > |execGroups|
      modifies this
      ensures execGroups == ResizedGroups(old(execGroups), target)
      ensures modal == old(modal) && sliderLabel == old(sliderLabel)
      ensures petitionerCount == old(petitionerCount) && defendantCount == old(defendantCount)
      ensures petitionerCards == old(petitionerCards) && defendantCards == old(defendantCards)
    {
      var i := |execGroups|;
      while i < target
        invariant |old(execGroups)| <= i <= target
        invariant execGroups == ResizedGroups(old(execGroups), i)
        invariant modal == old(modal) && sliderLabel == old(sliderLabel)
        invariant petitionerCount == old(petitionerCount) && defendantCount == old(defendantCount)
        invariant petitionerCards == old(petitionerCards) && defendantCards == old(defendantCards)
      {
        ResizedGroupsStep(old(execGroups), i);
        execGroups := execGroups + [NewExecGroup(i)];
        i := i + 1;
      }
    }

    /** The shrinking loop of `updateExecSlider`: groups are removed from the end down to
        index `target`; below index 0 the list has no element to remove and the call throws. */
    method ShrinkGroups(target: int) returns (threw: bool)
      requires target <= |execGroups|
      modifies this
      ensures target >= 0 ==> !threw && execGroups == old(execGroups)[..target]
      ensures target < 0 ==> threw && execGroups == []
      ensures modal == old(modal) && sliderLabel == old(sliderLabel)
      ensures petitionerCount == old(petitionerCount) && defendantCount == old(defendantCount)
      ensures petitionerCards == old(petitionerCards) && defendantCards == old(defendantCards)
    {
      threw := false;
      var i := |execGroups| - 1;
      while i >= target
        invariant -1 <= i < |old(execGroups)|
        invariant target - 1 <= i
        invariant execGroups == old(execGroups)[..i + 1]
        invariant modal == old(modal) && sliderLabel == old(sliderLabel)
        invariant petitionerCount == old(petitionerCount) && defendantCount == old(defendantCount)
        invariant petitionerCards == old(petitionerCards) && defendantCards == old(defendantCards)
        decreases i + 1
      {
        if i < 0 {
          threw := true;
          return;
        }
        execGroups := execGroups[..i];
        i := i - 1;
      }
    }

    /** `collectNewPetitionData`: one record per counted petitioner and defendant card. */
    method CollectNewPetitionData(form: Form, today: string) returns (data: Record)
      ensures data == NewPetitionRecord(form, petitionerCount, defendantCount, today)
    {
      var petitioners := CollectParties(form, "petitioner", petitionerCount);
      var defendants := CollectParties(form, "defendant", defendantCount);
      data := NewPetitionFields(form, petitioners, defendants, today);
    }
  }
}
