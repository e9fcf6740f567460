/** The card schemas of backend/models/a2ui_schemas.py: the records the
    frontend renders, their closed `Literal` enumerations, and the two helpers
    that build a VM request form and a ticket card. */
module Schemas {
  import opened Wrappers
  import opened Json

  // ---------------------------------------------------------------------------
  // Closed enumerations. Each one has its wire names and the validator that
  // accepts exactly those names.

  /** `FormField.type`. */
  datatype FieldType = TextField | TextArea | Select | Radio | Checkbox | Email | NumberField | Date | DateRange

  function FieldTypeName(t: FieldType): string
  {
    match t
    case TextField => "text"
    case TextArea => "textarea"
    case Select => "select"
    case Radio => "radio"
    case Checkbox => "checkbox"
    case Email => "email"
    case NumberField => "number"
    case Date => "date"
    case DateRange => "date_range"
  }

  const FieldTypeNames: set<string> :=
    {"text", "textarea", "select", "radio", "checkbox", "email", "number", "date", "date_range"}

  /** Validation of `FormField.type`: accepted exactly when it is one of the nine names. */
  function ParseFieldType(s: string): (r: Option<FieldType>)
    ensures r.Some? <==> s in FieldTypeNames
    ensures r.Some? ==> FieldTypeName(r.value) == s
  {
    if s == "text" then Some(TextField)
    else if s == "textarea" then Some(TextArea)
    else if s == "select" then Some(Select)
    else if s == "radio" then Some(Radio)
    else if s == "checkbox" then Some(Checkbox)
    else if s == "email" then Some(Email)
    else if s == "number" then Some(NumberField)
    else if s == "date" then Some(Date)
    else if s == "date_range" then Some(DateRange)
    else None
  }

  /** The style of a form, ticket or table action button. */
  datatype ActionStyle = Primary | Secondary | Danger | Link

  function ActionStyleName(a: ActionStyle): string
  {
    match a
    case Primary => "primary"
    case Secondary => "secondary"
    case Danger => "danger"
    case Link => "link"
  }

  const ActionStyleNames: set<string> := {"primary", "secondary", "danger", "link"}

  function ParseActionStyle(s: string): (r: Option<ActionStyle>)
    ensures r.Some? <==> s in ActionStyleNames
    ensures r.Some? ==> ActionStyleName(r.value) == s
  {
    if s == "primary" then Some(Primary)
    else if s == "secondary" then Some(Secondary)
    else if s == "danger" then Some(Danger)
    else if s == "link" then Some(Link)
    else None
  }

  /** `TicketCardContent.priority`. */
  datatype Priority = Low | Medium | High | Critical

  function PriorityName(p: Priority): string
  {
    match p
    case Low => "low"
    case Medium => "medium"
    case High => "high"
    case Critical => "critical"
  }

  const PriorityNames: set<string> := {"low", "medium", "high", "critical"}

  function ParsePriority(s: string): (r: Option<Priority>)
    ensures r.Some? <==> s in PriorityNames
    ensures r.Some? ==> PriorityName(r.value) == s
  {
    if s == "low" then Some(Low)
    else if s == "medium" then Some(Medium)
    else if s == "high" then Some(High)
    else if s == "critical" then Some(Critical)
    else None
  }

  /** The status of a status step and of a status card as a whole. */
  datatype Progress = Pending | InProgress | Complete | Failed

  function ProgressName(p: Progress): string
  {
    match p
    case Pending => "pending"
    case InProgress => "in_progress"
    case Complete => "complete"
    case Failed => "failed"
  }

  const ProgressNames: set<string> := {"pending", "in_progress", "complete", "failed"}

  function ParseProgress(s: string): (r: Option<Progress>)
    ensures r.Some? <==> s in ProgressNames
    ensures r.Some? ==> ProgressName(r.value) == s
  {
    if s == "pending" then Some(Pending)
    else if s == "in_progress" then Some(InProgress)
    else if s == "complete" then Some(Complete)
    else if s == "failed" then Some(Failed)
    else None
  }

  /** `ApprovalAction.type`. */
  datatype ApprovalKind = Approve | Reject | Defer

  function ApprovalKindName(k: ApprovalKind): string
  {
    match k
    case Approve => "success"
    case Reject => "danger"
    case Defer => "secondary"
  }

  const ApprovalKindNames: set<string> := {"success", "danger", "secondary"}

  function ParseApprovalKind(s: string): (r: Option<ApprovalKind>)
    ensures r.Some? <==> s in ApprovalKindNames
    ensures r.Some? ==> ApprovalKindName(r.value) == s
  {
    if s == "success" then Some(Approve)
    else if s == "danger" then Some(Reject)
    else if s == "secondary" then Some(Defer)
    else None
  }

  /** Every enumeration's names parse back to the value they name. */
  lemma EnumerationsRoundTrip(t: FieldType, a: ActionStyle, p: Priority, g: Progress, k: ApprovalKind)
    ensures ParseFieldType(FieldTypeName(t)) == Some(t)
    ensures ParseActionStyle(ActionStyleName(a)) == Some(a)
    ensures ParsePriority(PriorityName(p)) == Some(p)
    ensures ParseProgress(ProgressName(g)) == Some(g)
    ensures ParseApprovalKind(ApprovalKindName(k)) == Some(k)
  {
  }

  // ---------------------------------------------------------------------------
  // Records.

  /** One `{"value": ..., "label": ...}` option of a choice field. */
  // `caption` is the `label` of the Python models (`label` is a Dafny keyword).
  datatype Choice = Choice(value: string, caption: string)

  datatype FormField = FormField(
    id: string,
    fieldType: FieldType,
    caption: string,
    placeholder: Option<string>,
    required: bool,
    options: Option<seq<Choice>>,
    validation: Option<string>,
    min: Option<int>,
    max: Option<int>,
    defaultValue: Option<Json>,
    maxLength: Option<int>)

  /** A `FormField` given only its required arguments: not required, every
      optional attribute absent. */
  function Field(id: string, fieldType: FieldType, caption: string): (f: FormField)
    ensures f.id == id && f.fieldType == fieldType && f.caption == caption
    ensures !f.required
    ensures f.placeholder.None? && f.options.None? && f.validation.None?
    ensures f.min.None? && f.max.None? && f.defaultValue.None? && f.maxLength.None?
  {
    FormField(id, fieldType, caption, None, false, None, None, None, None, None, None)
  }

  datatype FormAction = FormAction(id: string, caption: string, style: ActionStyle, action: string)

  /** A `FormAction` whose `action` is left at its default, `"submit_form"`. */
  function Action(id: string, caption: string, style: ActionStyle): (a: FormAction)
    ensures a.id == id && a.caption == caption && a.style == style
    ensures a.action == "submit_form"
  {
    FormAction(id, caption, style, "submit_form")
  }

  datatype FormCardContent = FormCardContent(
    title: string,
    description: Option<string>,
    fields: seq<FormField>,
    actions: seq<FormAction>)

  datatype TimelineEvent = TimelineEvent(
    timestamp: string,
    status: string,
    actor: Option<string>,
    message: Option<string>)

  datatype TicketAction = TicketAction(
    id: string,
    caption: string,
    style: ActionStyle,
    url: Option<string>,
    action: Option<string>)

  datatype TicketCardContent = TicketCardContent(
    ticketId: string,
    title: string,
    status: string,
    priority: Priority,
    createdAt: string,
    createdBy: Option<string>,
    assignedTo: Option<string>,
    estimatedCompletion: Option<string>,
    details: Fields,
    timeline: seq<TimelineEvent>,
    actions: seq<TicketAction>,
    style: Option<seq<(string, string)>>)

  /** A `TicketCardContent` given only its required arguments: no creator,
      assignee, estimate or style, and empty details, timeline and actions. */
  function TicketContent(ticketId: string, title: string, status: string, priority: Priority,
                         createdAt: string): (t: TicketCardContent)
    ensures t.ticketId == ticketId && t.title == title && t.status == status
    ensures t.priority == priority && t.createdAt == createdAt
    ensures t.details == [] && t.timeline == [] && t.actions == []
    ensures t.createdBy.None? && t.assignedTo.None? && t.estimatedCompletion.None? && t.style.None?
  {
    TicketCardContent(ticketId, title, status, priority, createdAt, None, None, None, [], [], [], None)
  }

  datatype StatusStep = StatusStep(name: string, status: Progress, duration: Option<string>)

  datatype StatusCardContent = StatusCardContent(
    title: string,
    status: Progress,
    progress: Option<int>,
    currentStep: Option<string>,
    steps: seq<StatusStep>,
    metadata: Option<Fields>,
    style: Option<seq<(string, string)>>)

  datatype TableData = TableData(headers: seq<string>, rows: seq<seq<string>>)

  datatype TableAction = TableAction(
    id: string,
    caption: string,
    style: ActionStyle,
    url: Option<string>,
    action: Option<string>)

  datatype TableCardContent = TableCardContent(
    title: string,
    message: Option<string>,
    ticketReference: Option<string>,
    table: TableData,
    actions: seq<TableAction>,
    style: Option<seq<(string, string)>>)

  datatype TextCardContent = TextCardContent(text: string, metadata: Option<Fields>)

  datatype ApprovalAction = ApprovalAction(
    id: string,
    caption: string,
    kind: ApprovalKind,
    action: string,
    requiresComment: bool)

  datatype ApprovalCardContent = ApprovalCardContent(
    title: string,
    message: string,
    requestDetails: Fields,
    approver: Option<seq<(string, string)>>,
    actions: seq<ApprovalAction>,
    deadline: Option<string>,
    style: Option<seq<(string, string)>>)

  /** The six card models. Each carries a fixed `type` tag that the frontend
      dispatches on. */
  datatype CardKind = FormKind | TicketKind | StatusKind | TableKind | TextKind | ApprovalKindCard

  function KindTag(k: CardKind): string
  {
    match k
    case FormKind => "form_card"
    case TicketKind => "ticket_card"
    case StatusKind => "status_card"
    case TableKind => "table_card"
    case TextKind => "text_card"
    case ApprovalKindCard => "approval_card"
  }

  /** The card kind a `type` tag names, if any. */
  function ParseCardType(tag: string): (r: Option<CardKind>)
    ensures r.Some? ==> KindTag(r.value) == tag
  {
    if tag == "form_card" then Some(FormKind)
    else if tag == "ticket_card" then Some(TicketKind)
    else if tag == "status_card" then Some(StatusKind)
    else if tag == "table_card" then Some(TableKind)
    else if tag == "text_card" then Some(TextKind)
    else if tag == "approval_card" then Some(ApprovalKindCard)
    else None
  }

  datatype Card =
    | FormCard(id: string, form: FormCardContent)
    | TicketCard(id: string, ticket: TicketCardContent)
    | StatusCard(id: string, progress: StatusCardContent)
    | TableCard(id: string, table: TableCardContent)
    | TextCard(id: string, text: TextCardContent)
    | ApprovalCard(id: string, approval: ApprovalCardContent)
  {
    function Kind(): CardKind
    {
      match this
      case FormCard(_, _) => FormKind
      case TicketCard(_, _) => TicketKind
      case StatusCard(_, _) => StatusKind
      case TableCard(_, _) => TableKind
      case TextCard(_, _) => TextKind
      case ApprovalCard(_, _) => ApprovalKindCard
    }

    /** The card's `type` field. */
    function Type(): string
    {
      KindTag(Kind())
    }
  }

  /** The `type` tag determines the card kind: reading it back gives the kind,
      so two cards have the same tag exactly when they are of the same kind. */
  lemma TypeTagIdentifiesKind(a: Card, b: Card)
    ensures ParseCardType(a.Type()) == Some(a.Kind())
    ensures a.Type() == b.Type() <==> a.Kind() == b.Kind()
  {
  }

  /** A `TextCard` holding `text` and no metadata. */
  function TextCardOf(id: string, text: string): (c: Card)
    ensures c.TextCard? && c.id == id && c.text.text == text && c.text.metadata.None?
  {
    TextCard(id, TextCardContent(text, None))
  }

  // ---------------------------------------------------------------------------
  // Well-formedness of the forms and tickets the backend builds.

  /** A choice field (select, radio or checkbox). */
  predicate IsChoice(t: FieldType)
  {
    t == Select || t == Radio || t == Checkbox
  }

  /** Field ids and action ids are unique within a form. */
  predicate UniqueIds(f: FormCardContent)
  {
    Distinct(FieldIds(f)) && Distinct(ActionIds(f))
  }

  /** No string occurs twice. */
  predicate Distinct(ids: seq<string>)
  {
    forall i, j :: 0 <= i < j < |ids| ==> ids[i] != ids[j]
  }

  /** Every choice field offers at least one option. */
  predicate ChoicesOffered(f: FormCardContent)
  {
    forall i :: 0 <= i < |f.fields| && IsChoice(f.fields[i].fieldType) ==>
      f.fields[i].options.Some? && f.fields[i].options.value != []
  }

  /** A number field's bounds are ordered and admit its default. */
  predicate BoundsAdmitDefault(f: FormCardContent)
  {
    forall i :: 0 <= i < |f.fields| ==>
      var g := f.fields[i];
      && (g.min.Some? && g.max.Some? ==> g.min.value <= g.max.value)
      && (g.defaultValue.Some? && g.defaultValue.value.Num? ==>
            (g.min.Some? ==> g.min.value <= g.defaultValue.value.n) &&
            (g.max.Some? ==> g.defaultValue.value.n <= g.max.value))
  }

  /** A form the frontend can render and submit. */
  predicate ValidForm(f: FormCardContent)
  {
    UniqueIds(f) && ChoicesOffered(f) && BoundsAdmitDefault(f)
  }

  /** The ids of a form's fields, in order. */
  function FieldIds(f: FormCardContent): (ids: seq<string>)
    ensures |ids| == |f.fields| && forall i :: 0 <= i < |ids| ==> ids[i] == f.fields[i].id
  {
    seq(|f.fields|, i requires 0 <= i < |f.fields| => f.fields[i].id)
  }

  /** The ids of a form's actions, in order. */
  function ActionIds(f: FormCardContent): (ids: seq<string>)
    ensures |ids| == |f.actions| && forall i :: 0 <= i < |ids| ==> ids[i] == f.actions[i].id
  {
    seq(|f.actions|, i requires 0 <= i < |f.actions| => f.actions[i].id)
  }

  /** The field of a form with the given id, if any. */
  function FieldNamed(f: FormCardContent, id: string): (r: Option<FormField>)
    ensures r.Some? ==> r.value in f.fields && r.value.id == id
    ensures r.None? ==> forall g :: g in f.fields ==> g.id != id
  {
    FieldNamedIn(f.fields, id)
  }

  function FieldNamedIn(fields: seq<FormField>, id: string): (r: Option<FormField>)
    ensures r.Some? ==> r.value in fields && r.value.id == id
    ensures r.None? ==> forall g :: g in fields ==> g.id != id
  {
    if fields == [] then None
    else if fields[0].id == id then Some(fields[0])
    else FieldNamedIn(fields[1..], id)
  }

  /** The first field with an id is the one the lookup finds. */
  lemma {:induction false} FieldNamedFirst(fields: seq<FormField>, id: string, i: nat)
    requires i < |fields| && fields[i].id == id
    requires forall j :: 0 <= j < i ==> fields[j].id != id
    ensures FieldNamedIn(fields, id) == Some(fields[i])
  {
    if i > 0 {
      FieldNamedFirst(fields[1..], id, i - 1);
    }
  }

  // The VM form's field ids.
  const VmNameId := "vm_name"
  const VmSizeId := "vm_size"
  const OsTypeId := "os_type"
  const DiskSizeId := "disk_size"
  const EnvironmentId := "environment"
  const JustificationId := "justification"

  const VmSizeChoices := [
    Choice("Standard_B2s", "Standard B2s (2 vCPUs, 4 GB RAM)"),
    Choice("Standard_D4s_v3", "Standard D4s v3 (4 vCPUs, 16 GB RAM)"),
    Choice("Standard_E8s_v3", "Standard E8s v3 (8 vCPUs, 64 GB RAM)")]
  const OsTypeChoices := [
    Choice("ubuntu_22_04", "Ubuntu 22.04 LTS"),
    Choice("windows_server_2022", "Windows Server 2022"),
    Choice("rhel_9", "Red Hat Enterprise Linux 9")]
  const EnvironmentChoices := [
    Choice("dev", "Development"),
    Choice("staging", "Staging"),
    Choice("prod", "Production")]

  const VmFormTitle := "Virtual Machine Provisioning Request"
  const VmFormDescription := "Fill out the details below to request a new VM"
  const VmNamePlaceholder := "e.g., prod-web-server-01"
  const VmNamePattern := "^[a-z0-9-]+$"
  const JustificationPlaceholder := "Explain why this VM is needed..."

  /** The VM provisioning form; its id defaults to `"vm_form_001"`. */
  function VmProvisionForm(formId: string := "vm_form_001"): Card
  {
    FormCard(formId, FormCardContent(VmFormTitle, Some(VmFormDescription),
      [ Field(VmNameId, TextField, "VM Name").(required := true,
          placeholder := Some(VmNamePlaceholder), validation := Some(VmNamePattern)),
        Field(VmSizeId, Select, "VM Size").(required := true, options := Some(VmSizeChoices)),
        Field(OsTypeId, Radio, "Operating System").(required := true, options := Some(OsTypeChoices)),
        Field(DiskSizeId, NumberField, "Disk Size (GB)").(required := true,
          min := Some(30), max := Some(1024), defaultValue := Some(Num(128))),
        Field(EnvironmentId, Select, "Environment").(required := true, options := Some(EnvironmentChoices)),
        Field(JustificationId, TextArea, "Business Justification").(required := true,
          placeholder := Some(JustificationPlaceholder), maxLength := Some(500)) ],
      [ FormAction("submit_vm_request", "Submit Request", Primary, "submit_form"),
        FormAction("cancel", "Cancel", Secondary, "cancel") ]))
  }

  /** The VM form is a form card with the requested id, six fields, all of
      them required, and two actions. */
  lemma VmFormShape(formId: string)
    ensures var c := VmProvisionForm(formId);
      && c.FormCard? && c.id == formId
      && |c.form.fields| == 6 && |c.form.actions| == 2
      && forall g :: g in c.form.fields ==> g.required
  {
  }

  /** The VM form is well formed. */
  lemma VmFormValid(formId: string)
    ensures ValidForm(VmProvisionForm(formId).form)
  {
    VmFormUniqueIds(formId);
    VmFormChoicesAndBounds(formId);
  }

  lemma VmFormUniqueIds(formId: string)
    ensures UniqueIds(VmProvisionForm(formId).form)
  {
    var f := VmProvisionForm(formId).form;
    assert FieldIds(f) == [VmNameId, VmSizeId, OsTypeId, DiskSizeId, EnvironmentId, JustificationId];
    assert ActionIds(f) == ["submit_vm_request", "cancel"];
    VmFieldIdsDistinct();
  }

  lemma VmFieldIdsDistinct()
    ensures Distinct([VmNameId, VmSizeId, OsTypeId, DiskSizeId, EnvironmentId, JustificationId])
    ensures Distinct(["submit_vm_request", "cancel"])
  {
    var ids := [VmNameId, VmSizeId, OsTypeId, DiskSizeId, EnvironmentId, JustificationId];
    var heads := "vvodej";
    forall i, j | 0 <= i < j < |ids| ensures ids[i] != ids[j] {
      if i == 0 && j == 1 { assert ids[0][3] != ids[1][3]; }
      else { assert ids[i][0] == heads[i] && ids[j][0] == heads[j]; }
    }
  }

  lemma VmFormChoicesAndBounds(formId: string)
    ensures ChoicesOffered(VmProvisionForm(formId).form)
    ensures BoundsAdmitDefault(VmProvisionForm(formId).form)
  {
  }

  /** The disk size field of the VM form is a required number between 30 and
      1024 GB, 128 by default; the form submits through `submit_vm_request`
      and can be cancelled. */
  lemma VmFormDiskSize(formId: string)
    ensures var f := VmProvisionForm(formId).form;
      && FieldNamed(f, "disk_size").Some?
      && var d := FieldNamed(f, "disk_size").value;
      && d.fieldType == NumberField && d.required
      && d.min == Some(30) && d.max == Some(1024) && d.defaultValue == Some(Num(128))
      && f.actions[0].id == "submit_vm_request" && f.actions[0].style == Primary
      && f.actions[0].action == "submit_form"
      && f.actions[1].id == "cancel" && f.actions[1].style == Secondary && f.actions[1].action == "cancel"
  {
    var f := VmProvisionForm(formId).form;
    assert f.fields[0].id[0] != DiskSizeId[0] && f.fields[1].id[0] != DiskSizeId[0] && f.fields[2].id[0] != DiskSizeId[0];
    FieldNamedFirst(f.fields, DiskSizeId, 3);
  }

  /** A ticket card whose id names its ticket (`"ticket_" + ticket_id`), whose
      link actions carry a url, and whose priority badge, when present,
      matches its priority. */
  predicate ValidTicket(c: Card)
  {
    && c.TicketCard?
    && c.id == "ticket_" + c.ticket.ticketId
    && (forall a :: a in c.ticket.actions && a.style == Link ==> a.url.Some?)
    && (c.ticket.style.Some? ==> forall e :: e in c.ticket.style.value && e.0 == "priority_badge" ==>
          e.1 == PriorityName(c.ticket.priority))
  }

  /** `create_ticket_card`. The two `datetime.utcnow()` readings are the
      parameters `createdAt` and `submittedAt`. */
  function CreateTicketCard(ticketId: string, title: string, status: string, details: Fields,
                            createdAt: string, submittedAt: string): Card
  {
    TicketCard("ticket_" + ticketId, TicketCardContent(
      ticketId, title, status, Medium, createdAt, None, None, None, details,
      [TimelineEvent(submittedAt, "submitted", Some("system"), Some("Request submitted"))],
      [TicketAction("view_ticket", "View Full Ticket", Link, Some("/tickets/" + ticketId), None)],
      Some([("status_color", "#FFA500"), ("priority_badge", "medium"), ("icon", "ticket")])))
  }

  /** A created ticket is valid: its card id names the ticket, its single
      "View Full Ticket" action links to the ticket's page, and its priority
      badge agrees with its medium priority. It keeps the caller's ticket id,
      title, status, details and creation time, and its timeline holds the
      one "submitted" event. */
  lemma CreateTicketCardValid(ticketId: string, title: string, status: string, details: Fields,
                              createdAt: string, submittedAt: string)
    ensures var c := CreateTicketCard(ticketId, title, status, details, createdAt, submittedAt);
      && ValidTicket(c) && c.ticket.priority == Medium
      && c.ticket.ticketId == ticketId && c.ticket.title == title && c.ticket.status == status
      && c.ticket.details == details && c.ticket.createdAt == createdAt
      && c.ticket.timeline == [TimelineEvent(submittedAt, "submitted", Some("system"), Some("Request submitted"))]
      && |c.ticket.actions| == 1 && c.ticket.actions[0].style == Link
      && c.ticket.actions[0].url == Some("/tickets/" + ticketId)
  {
  }

  /** The ticket id can be read back from the card id and from the link url. */
  lemma TicketIdRecoverable(ticketId: string, title: string, status: string, details: Fields,
                            createdAt: string, submittedAt: string)
    ensures var c := CreateTicketCard(ticketId, title, status, details, createdAt, submittedAt);
      c.id[|"ticket_"|..] == ticketId && c.ticket.actions[0].url.value[|"/tickets/"|..] == ticketId
  {
  }
}
