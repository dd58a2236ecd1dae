/** The static step catalog: an ordered list of steps, each a single-select
    yes/no checklist, a multi-select checklist, or a free-text planner. */
module Catalog {

  datatype Item = Item(caption: string, desc: string)

  /** A planner field; `inputType` is the HTML input hint ("text"). */
  datatype Field = Field(caption: string, inputType: string)

  datatype Step =
    | SingleSelect(name: string, checklist: seq<Item>)
    | MultiSelect(name: string, checklist: seq<Item>)
    | Planner(name: string, fields: seq<Field>)

  /** `maxScore`: the number of checklist items, or of fields for a planner. */
  function MaxScore(s: Step): (max: nat)
    ensures !s.Planner? ==> max == |s.checklist|
    ensures s.Planner? ==> max == |s.fields|
  {
    match s
    case SingleSelect(_, items) => |items|
    case MultiSelect(_, items) => |items|
    case Planner(_, fields) => |fields|
  }

  /** The wizard's catalog: three yes/no checklists, one multi-select
      checklist and one planner. */
  const Steps: seq<Step> := [
    SingleSelect("Reuse Eligibility", [
      Item("Age of Data", "Was the data collected within the last 5 years?"),
      Item("Consent Scope", "The original consent included permission for future analysis or sharing?"),
      Item("Data Ownership & Access", "Do you have legal access and permission to use the data?"),
      Item("Data Integrity", "Is the dataset complete and well-documented?"),
      Item("Ethical Fitness", "Does the dataset avoid major ethical concerns?")
    ]),
    SingleSelect("Strategic Fit", [
      Item("Relevant Topic", "Does the dataset relate to a current or emerging research area?"),
      Item("Research Value", "Can this data help answer a new or complementary research question?"),
      Item("Richness", "Is the dataset rich enough (sample size, variable diversity) for meaningful analysis?"),
      Item("Knowledge Gap", "Could the data contribute to filling a knowledge gap or inform policy/practice?"),
      Item("Stakeholder Benefit", "Would other stakeholders benefit from findings from this data?")
    ]),
    SingleSelect("Readiness", [
      Item("Documentation", "Is there a complete codebook or variable guide?"),
      Item("De-identification", "Are all identifiers removed? No re-identification risk?"),
      Item("Data Quality", "Has the dataset been checked for missing values, outliers, or errors?"),
      Item("Ethics Approval", "Is secondary use approved in the original or new ethics application?"),
      Item("FAIR/CARE", "Does the dataset align with FAIR & CARE principles?")
    ]),
    MultiSelect("Reuse Pathway", [
      Item("Secondary Analysis", "Reanalyze data for new questions or extensions"),
      Item("Data Publication / Open Data", "Publish in a repository or as open data"),
      Item("Knowledge Translation", "Policy briefs, infographics, blogs, etc."),
      Item("Teaching/Training", "Use as a teaching or workshop dataset"),
      Item("Meta-analysis Contribution", "Pooled analysis or systematic review"),
      Item("Internal Learning", "Team evaluation, QI, or planning")
    ]),
    Planner("Action Planner", [
      Field("Selected Reuse Option(s)", "text"),
      Field("Specific Output(s) (e.g., policy brief, slide deck)", "text"),
      Field("Responsible Person(s)", "text"),
      Field("Required Resources (e.g., repository, ethics clearance)", "text"),
      Field("Timeline (draft, review, publish)", "text"),
      Field("Risks / Barriers", "text"),
      Field("Success Indicators (product, citation, uptake, etc.)", "text"),
      Field("Tracking Method (spreadsheet, meeting notes, etc.)", "text")
    ])
  ]

  /** The shape of the catalog: kinds and item counts of the five steps. */
  lemma StepsShape()
    ensures |Steps| == 5
    ensures Steps[0].SingleSelect? && MaxScore(Steps[0]) == 5
    ensures Steps[1].SingleSelect? && MaxScore(Steps[1]) == 5
    ensures Steps[2].SingleSelect? && MaxScore(Steps[2]) == 5
    ensures Steps[3].MultiSelect? && MaxScore(Steps[3]) == 6
    ensures Steps[4].Planner? && MaxScore(Steps[4]) == 8
  {
  }
}
