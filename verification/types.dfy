/** The records of src/types/index.ts. Optional properties are `Option`s. */
module Types {
  import opened Wrappers

  datatype User = User(
    id: string,
    name: string,
    email: string,
    role: string,
    avatar: Option<string>,
    lastInspectionDate: Option<string>,
    avatarUrl: Option<string>)

  datatype InspectionStatus = InspectionInProgress | Completed

  /** Exactly three values: 'open' | 'in-progress' | 'resolved'. */
  datatype IssueStatus = Open | InProgress | Resolved

  datatype Severity = Low | Medium | High | Critical

  datatype Issue = Issue(
    id: string,
    description: string,
    status: IssueStatus,
    severity: Severity,
    location: string,
    createdAt: string,
    updatedAt: string,
    assignedTo: Option<string>)

  datatype Inspection = Inspection(
    id: string,
    status: InspectionStatus,
    location: string,
    date: string,
    issueCount: int,
    completedBy: Option<string>)

  datatype Report = Report(
    id: string,
    title: string,
    location: string,
    date: string,
    thumbnail: Option<string>,
    issues: seq<Issue>,
    summary: Option<string>,
    recommendations: Option<string>)

  datatype FieldType = Text | Textarea | Select | Checkbox | Radio | Barcode | File | Location

  datatype FieldOption = FieldOption(value: string, labelText: string)

  /** A field of the inspection schema (`label` is `labelText`, a keyword in Dafny); an absent `required` reads as false. */
  datatype FormField = FormField(
    id: string,
    labelText: string,
    fieldType: FieldType,
    placeholder: Option<string>,
    required: bool,
    options: Option<seq<FieldOption>>)

  /** One device section of the inspection schema. */
  datatype FormSection = FormSection(id: string, title: string, fields: seq<FormField>)
}
