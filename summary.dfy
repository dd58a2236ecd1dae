/** The read-only summary shown after the last step: per step, the text
    displayed for each item, derived from the catalog and the answers. */
module Summary {
  import opened JsValues
  import opened Catalog
  import opened Answers
  import opened Scoring

  /** A listed item: checklist items show caption, answer text and
      description; planner fields show caption and the entered text. */
  datatype Line =
    | ItemLine(caption: string, shown: string, desc: string)
    | FieldLine(caption: string, text: string)

  /** The block for one step, headed "Step <number>: <name>". */
  datatype Section = Section(number: nat, name: string, lines: seq<Line>)

  const Selected: string := "\U{2714}\U{FE0F} Selected"
  const NotSelected: string := "\U{2014}"

  /** The answer text of a checklist item: Selected/— by truthiness on a
      multi-select step, otherwise Yes/No for "yes"/"no" and "Not answered"
      for anything else. */
  function Shown(multi: bool, v: JsValue): (text: string)
    ensures multi ==> (text == Selected <==> Truthy(v)) && (text == NotSelected <==> !Truthy(v))
    ensures !multi ==> (text == "Yes" <==> v == Str("yes")) && (text == "No" <==> v == Str("no")) &&
                       (text == "Not answered" <==> v != Str("yes") && v != Str("no"))
  {
    if multi then (if Truthy(v) then Selected else NotSelected)
    else if v == Str("yes") then "Yes"
    else if v == Str("no") then "No"
    else "Not answered"
  }

  /** What the page renders for a cell: a string's text, nothing otherwise. */
  function Render(v: JsValue): string {
    if v.Str? then v.s else ""
  }

  /** One line per checklist item, in catalog order. */
  function ChecklistLines(items: seq<Item>, row: Row, multi: bool): (lines: seq<Line>)
    ensures |lines| == |items|
    ensures forall j :: 0 <= j < |items| ==>
              lines[j] == ItemLine(items[j].caption, Shown(multi, At(row, j)), items[j].desc)
  {
    if items == [] then []
    else
      assert forall j :: 1 <= j < |items| ==> At(Rest(row), j - 1) == At(row, j);
      [ItemLine(items[0].caption, Shown(multi, At(row, 0)), items[0].desc)]
        + ChecklistLines(items[1..], Rest(row), multi)
  }

  /** One line per planner field whose text is non-empty, in catalog order;
      a field is listed exactly when its cell is truthy. */
  function FieldLines(fields: seq<Field>, row: Row): (lines: seq<Line>)
    ensures |lines| <= |fields|
    ensures forall l :: l in lines ==>
              exists j :: 0 <= j < |fields| && Truthy(At(row, j)) &&
                          l == FieldLine(fields[j].caption, Render(At(row, j)))
    ensures forall j :: 0 <= j < |fields| && Truthy(At(row, j)) ==>
              FieldLine(fields[j].caption, Render(At(row, j))) in lines
  {
    if fields == [] then []
    else
      var head := if Truthy(At(row, 0)) then [FieldLine(fields[0].caption, Render(At(row, 0)))] else [];
      var tail := FieldLines(fields[1..], Rest(row));
      assert forall j :: 1 <= j < |fields| ==> At(Rest(row), j - 1) == At(row, j) && fields[1..][j - 1] == fields[j];
      head + tail
  }

  /** The section of step number `k + 1`, built from that step's row. */
  function SectionOf(k: nat, s: Step, row: Row): (sec: Section)
    ensures sec.number == k + 1 && sec.name == s.name
    ensures !s.Planner? ==>
              |sec.lines| == |s.checklist| &&
              forall j :: 0 <= j < |s.checklist| ==>
                sec.lines[j] == ItemLine(s.checklist[j].caption, Shown(s.MultiSelect?, At(row, j)), s.checklist[j].desc)
    ensures s.Planner? ==> sec.lines == FieldLines(s.fields, row)
  {
    Section(k + 1, s.name,
      match s
      case SingleSelect(_, items) => ChecklistLines(items, row, false)
      case MultiSelect(_, items) => ChecklistLines(items, row, true)
      case Planner(_, fields) => FieldLines(fields, row))
  }

  /** The summary: one section per step of the catalog, in order. */
  function SummaryOf(catalog: seq<Step>, store: Store): (sections: seq<Section>)
    requires |store| == |catalog|
    ensures |sections| == |catalog|
    ensures forall k :: 0 <= k < |catalog| ==>
              sections[k].number == k + 1 && sections[k].name == catalog[k].name &&
              (!catalog[k].Planner? ==> |sections[k].lines| == MaxScore(catalog[k]))
    ensures forall k, j :: 0 <= k < |catalog| && !catalog[k].Planner? && 0 <= j < |catalog[k].checklist| ==>
              |sections[k].lines| == |catalog[k].checklist| &&
              sections[k].lines[j] ==
                ItemLine(catalog[k].checklist[j].caption, Shown(catalog[k].MultiSelect?, At(store[k], j)),
                         catalog[k].checklist[j].desc)
    ensures forall k :: 0 <= k < |catalog| && catalog[k].Planner? ==>
              sections[k].lines == FieldLines(catalog[k].fields, store[k])
  {
    seq(|catalog|, k requires 0 <= k < |catalog| => SectionOf(k, catalog[k], store[k]))
  }

  /** The number of item lines showing the given answer text. */
  function CountShown(lines: seq<Line>, text: string): nat {
    if lines == [] then 0
    else Ind(lines[0].ItemLine? && lines[0].shown == text) + CountShown(lines[1..], text)
  }

  lemma {:induction false} ChecklistCount(items: seq<Item>, row: Row, multi: bool)
    requires |row| == |items|
    ensures multi ==> CountShown(ChecklistLines(items, row, multi), Selected) == |Filter(row, Truthy)|
    ensures !multi ==> CountShown(ChecklistLines(items, row, multi), "Yes") == |Filter(row, IsYes)|
  {
    if items != [] {
      var lines := ChecklistLines(items, row, multi);
      assert lines[1..] == ChecklistLines(items[1..], row[1..], multi);
      ChecklistCount(items[1..], row[1..], multi);
      assert Selected != NotSelected;
    }
  }

  /** On a checklist step, the summary lines reading "Yes" (single-select) or
      "Selected" (multi-select) are exactly as many as the step's score. */
  lemma SectionCountMatchesScore(k: nat, s: Step, row: Row)
    requires !s.Planner? && |row| == MaxScore(s)
    ensures CountShown(SectionOf(k, s, row).lines, if s.MultiSelect? then Selected else "Yes") ==
            CalcScore(Some(row), s)
  {
    ChecklistCount(s.checklist, row, s.MultiSelect?);
  }

  /** In the assembled summary, section k of a checklist step shows as many
      "Yes" / "Selected" lines as step k's own row scores. */
  lemma SummaryCountMatchesScore(catalog: seq<Step>, store: Store, k: nat)
    requires |store| == |catalog| && k < |catalog|
    requires !catalog[k].Planner? && |store[k]| == MaxScore(catalog[k])
    ensures CountShown(SummaryOf(catalog, store)[k].lines, if catalog[k].MultiSelect? then Selected else "Yes") ==
            CalcScore(Some(store[k]), catalog[k])
  {
    assert SummaryOf(catalog, store)[k] == SectionOf(k, catalog[k], store[k]);
    SectionCountMatchesScore(k, catalog[k], store[k]);
  }

  /** On a planner step with a conforming row, the summary lists exactly as
      many lines as there are non-empty fields, and each shows non-empty
      text. */
  lemma {:induction false} PlannerSectionListsFilledFields(fields: seq<Field>, row: Row)
    requires |row| == |fields| && forall j :: 0 <= j < |row| ==> row[j].Str?
    ensures |FieldLines(fields, row)| == |Filter(row, Truthy)|
    ensures forall l :: l in FieldLines(fields, row) ==> l.FieldLine? && l.text != ""
  {
    if fields != [] {
      assert Rest(row) == row[1..];
      PlannerSectionListsFilledFields(fields[1..], row[1..]);
    }
  }

  /** The summary of a freshly initialised store shows every single-select
      item as "Not answered", every multi-select item as not selected, and
      no planner field. */
  lemma FreshSummary(catalog: seq<Step>)
    ensures var sections := SummaryOf(catalog, InitialAnswers(catalog));
            forall k :: 0 <= k < |catalog| ==>
              (catalog[k].SingleSelect? ==> forall l :: l in sections[k].lines ==> l.shown == "Not answered") &&
              (catalog[k].MultiSelect? ==> forall l :: l in sections[k].lines ==> l.shown == NotSelected) &&
              (catalog[k].Planner? ==> sections[k].lines == [])
  {
    var store := InitialAnswers(catalog);
    forall k | 0 <= k < |catalog|
      ensures catalog[k].Planner? ==> SummaryOf(catalog, store)[k].lines == []
    {
      if catalog[k].Planner? {
        var lines := FieldLines(catalog[k].fields, store[k]);
        if lines != [] {
          assert lines[0] in lines;
        }
      }
    }
  }
}
