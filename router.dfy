/** `AgentRouter` of backend/agents/router.py: picks the user's text for the
    request's modality, classifies it by ordered keyword rules into one of five
    intents, and dispatches to the handler that builds that intent's cards. */
module Router {
  import opened Wrappers
  import opened Json
  import opened Strings
  import opened Schemas
  import opened Multimodal

  /** The text a request carries: the typed text for a text request, the
      transcript for a voice request, and nothing otherwise. */
  function InputText(req: MultimodalRequest): (text: string)
    ensures req.modality == TextMode && req.textInput.Some? ==> text == req.textInput.value.text
    ensures req.modality == VoiceMode && req.voiceInput.Some? ==> text == req.voiceInput.value.transcript
    ensures (!(req.modality == TextMode && req.textInput.Some?) &&
             !(req.modality == VoiceMode && req.voiceInput.Some?)) ==> text == ""
  {
    if req.modality == TextMode && req.textInput.Some? then req.textInput.value.text
    else if req.modality == VoiceMode && req.voiceInput.Some? then req.voiceInput.value.transcript
    else ""
  }

  // ---------------------------------------------------------------------------
  // Classification.

  const VmKeywords: seq<string> := ["vm", "virtual machine", "provision", "server"]
  const SapKeywords: seq<string> := ["sap", "erp", "finance", "mm", "sd"]
  const RbacKeywords: seq<string> := ["rbac", "role", "access", "permission"]
  const WebappKeywords: seq<string> := ["webapp", "web app", "azure", "deploy"]

  /** `any(keyword in text for keyword in keywords)`. */
  predicate MentionsAny(text: string, keywords: seq<string>)
  {
    exists i | 0 <= i < |keywords| :: Contains(text, keywords[i])
  }

  /** The five handlers of the router's `handlers` table. */
  datatype Handler = VmProvisionHandler | SapAccessHandler | RbacAccessHandler | AzureWebappHandler | GeneralHandler

  /** The `handlers` table, built once and never changed. */
  const Handlers: map<string, Handler> := map[
    "vm_provision" := VmProvisionHandler,
    "sap_access" := SapAccessHandler,
    "rbac_access" := RbacAccessHandler,
    "azure_webapp" := AzureWebappHandler,
    "general" := GeneralHandler]

  /** The five intent names differ (they start with different letters), so
      the table has one entry per handler. */
  lemma HandlersTable()
    ensures Handlers.Keys == {"vm_provision", "sap_access", "rbac_access", "azure_webapp", "general"}
    ensures Handlers["vm_provision"] == VmProvisionHandler
    ensures Handlers["sap_access"] == SapAccessHandler
    ensures Handlers["rbac_access"] == RbacAccessHandler
    ensures Handlers["azure_webapp"] == AzureWebappHandler
    ensures Handlers["general"] == GeneralHandler
  {
    IntentNamesDistinct();
  }

  lemma IntentNamesDistinct()
    ensures "vm_provision" != "sap_access" && "vm_provision" != "rbac_access"
    ensures "vm_provision" != "azure_webapp" && "vm_provision" != "general"
    ensures "sap_access" != "rbac_access" && "sap_access" != "azure_webapp" && "sap_access" != "general"
    ensures "rbac_access" != "azure_webapp" && "rbac_access" != "general" && "azure_webapp" != "general"
  {
    assert "vm_provision"[0] == 'v' && "sap_access"[0] == 's' && "rbac_access"[0] == 'r';
    assert "azure_webapp"[0] == 'a' && "general"[0] == 'g';
  }

  /** `_determine_intent` on already lower-cased text. */
  function DetermineIntent(text: string): string
  {
    if MentionsAny(text, VmKeywords) then "vm_provision"
    else if MentionsAny(text, SapKeywords) then "sap_access"
    else if MentionsAny(text, RbacKeywords) then "rbac_access"
    else if MentionsAny(text, WebappKeywords) then "azure_webapp"
    else "general"
  }

  /** Every intent the classifier returns has a handler in the table. */
  lemma IntentHasHandler(text: string)
    ensures DetermineIntent(text) in Handlers
  {
    HandlersTable();
  }

  /** The classification rules in priority order. */
  const Rules: seq<(seq<string>, string)> := [
    (VmKeywords, "vm_provision"),
    (SapKeywords, "sap_access"),
    (RbacKeywords, "rbac_access"),
    (WebappKeywords, "azure_webapp")]

  /** A generic priority-ordered matcher: the intent of the first rule one of
      whose keywords occurs in the text, or `fallback` when none does. */
  function FirstMatch(rules: seq<(seq<string>, string)>, text: string, fallback: string): (intent: string)
    ensures intent == fallback || exists i :: 0 <= i < |rules| && intent == rules[i].1
  {
    if rules == [] then fallback
    else if MentionsAny(text, rules[0].0) then rules[0].1
    else FirstMatch(rules[1..], text, fallback)
  }

  /** `_determine_intent` is the first-match rule over `Rules` with `"general"`
      as the fallback. */
  lemma {:induction false} DetermineIntentIsFirstMatch(text: string)
    ensures DetermineIntent(text) == FirstMatch(Rules, text, "general")
  {
    var r1, r2, r3 := Rules[1..], Rules[2..], Rules[3..];
    assert Rules[0] == (VmKeywords, "vm_provision") && r1[1..] == r2;
    assert r1[0] == (SapKeywords, "sap_access") && r2[1..] == r3;
    assert r2[0] == (RbacKeywords, "rbac_access") && r3[0] == (WebappKeywords, "azure_webapp");
    assert r3[1..] == [];
    assert FirstMatch(r3, text, "general") ==
      if MentionsAny(text, WebappKeywords) then "azure_webapp" else FirstMatch([], text, "general");
    assert FirstMatch(r2, text, "general") ==
      if MentionsAny(text, RbacKeywords) then "rbac_access" else FirstMatch(r3, text, "general");
    assert FirstMatch(r1, text, "general") ==
      if MentionsAny(text, SapKeywords) then "sap_access" else FirstMatch(r2, text, "general");
    assert FirstMatch(Rules, text, "general") ==
      if MentionsAny(text, VmKeywords) then "vm_provision" else FirstMatch(r1, text, "general");
  }

  /** The priority of the rules, both directions: each intent is chosen
      exactly when one of its keywords occurs and none of a higher rule's. */
  lemma IntentPriority(text: string)
    ensures DetermineIntent(text) == "vm_provision" <==> MentionsAny(text, VmKeywords)
    ensures DetermineIntent(text) == "sap_access" <==>
      !MentionsAny(text, VmKeywords) && MentionsAny(text, SapKeywords)
    ensures DetermineIntent(text) == "rbac_access" <==>
      !MentionsAny(text, VmKeywords) && !MentionsAny(text, SapKeywords) && MentionsAny(text, RbacKeywords)
    ensures DetermineIntent(text) == "azure_webapp" <==>
      !MentionsAny(text, VmKeywords) && !MentionsAny(text, SapKeywords) &&
      !MentionsAny(text, RbacKeywords) && MentionsAny(text, WebappKeywords)
    ensures DetermineIntent(text) == "general" <==>
      !MentionsAny(text, VmKeywords) && !MentionsAny(text, SapKeywords) &&
      !MentionsAny(text, RbacKeywords) && !MentionsAny(text, WebappKeywords)
  {
    IntentNamesDistinct();
  }

  /** Text mentioning no keyword, the empty text included, is a general query. */
  lemma EmptyTextIsGeneral()
    ensures DetermineIntent("") == "general"
  {
    forall kws: seq<string>, i | 0 <= i < |kws| && kws[i] != ""
      ensures !Contains("", kws[i])
    {
    }
  }

  /** A request mentioning both a VM keyword and a SAP keyword is a VM
      request, such as "a vm for sap". */
  lemma VmBeforeSap(text: string)
    requires MentionsAny(text, VmKeywords) && MentionsAny(text, SapKeywords)
    ensures DetermineIntent(text) == "vm_provision"
  {
  }

  /** One such request. */
  lemma VmForSap()
    ensures DetermineIntent("a vm for sap") == "vm_provision"
  {
    assert OccursAt("a vm for sap", "vm", 2);
    assert Contains("a vm for sap", VmKeywords[0]);
  }

  /** The intent the router picks for a request's text. */
  function RouteIntent(text: string): string
  {
    DetermineIntent(Lower(text))
  }

  lemma LowerOfUpper(s: string)
    ensures Lower(Upper(s)) == Lower(s)
    ensures Lower(Lower(s)) == Lower(s)
  {
  }

  /** Classification ignores case: upper-casing or lower-casing the text first
      does not change the intent. This holds for the ASCII case mapping of
      `Lower` and `Upper`; Python's `upper()` also maps some other letters to
      ASCII ones (`"ſ".upper()` is `"S"`), which can change the intent. */
  lemma RouteIntentIgnoresCase(text: string)
    ensures RouteIntent(Upper(text)) == RouteIntent(text)
    ensures RouteIntent(Lower(text)) == RouteIntent(text)
  {
    LowerOfUpper(text);
  }

  // ---------------------------------------------------------------------------
  // Handlers.

  /** The dictionary a handler returns, `{"cards": [...]}`: every handler
      builds it with that one key. */
  datatype HandlerResult = HandlerResult(cards: seq<Card>)

  /** The exceptions a handler can raise: `request.metadata.get` on a request
      whose metadata is `None`, and a `form_data` that is not a dict for the
      ticket's `details`. */
  datatype RouteError = MetadataIsNone | DetailsNotADict

  /** `f"REQ-2025-{str(uuid.uuid4())[:5].upper()}"`. */
  function TicketId(uuid: string): (id: string)
    ensures 9 <= |id| <= 14 && id[..9] == "REQ-2025-"
  {
    "REQ-2025-" + Upper(Take(uuid, 5))
  }

  /** Whether the VM handler treats the request as a submitted form: the text
      says "submit" in any case, or the metadata holds a truthy `form_data`. */
  predicate IsSubmission(text: string, metadata: Fields)
  {
    Contains(Lower(text), "submit") || Truthy(GetOr(metadata, "form_data", Null))
  }

  function TicketMessage(ticketId: string): string
  {
    "I've created ticket " + ticketId
    + " for your VM provisioning request. It's now pending approval from your manager."
  }

  const VmIntroText := "I can help you provision a new virtual machine. Please fill out the form below with your requirements."

  /** `_handle_vm_provision`: a submission becomes a ticket announced by a text
      card; anything else gets an introduction and the VM form. */
  function HandleVmProvision(req: MultimodalRequest, text: string, uuid: string,
                             createdAt: string, submittedAt: string): Result<HandlerResult, RouteError>
  {
    if req.metadata.None? then Err(MetadataIsNone)
    else if IsSubmission(text, req.metadata.value) then
      match GetOr(req.metadata.value, "form_data", Obj([]))
      case Obj(details) =>
        var ticketId := TicketId(uuid);
        var ticket := CreateTicketCard(ticketId, "VM Provisioning Request", "pending_approval",
                                       details, createdAt, submittedAt);
        Ok(HandlerResult([TextCardOf("response_text", TicketMessage(ticketId)), ticket]))
      case _ => Err(DetailsNotADict)
    else
      Ok(HandlerResult([TextCardOf("intro_text", VmIntroText), VmProvisionForm()]))
  }

  /** A VM request without metadata raises; one that is not a submission gets
      the introduction followed by the VM form. */
  lemma HandleVmProvisionForm(req: MultimodalRequest, text: string, uuid: string,
                              createdAt: string, submittedAt: string)
    ensures var r := HandleVmProvision(req, text, uuid, createdAt, submittedAt);
      && (req.metadata.None? ==> r == Err(MetadataIsNone))
      && (req.metadata.Some? && !IsSubmission(text, req.metadata.value) ==>
            r == Ok(HandlerResult([TextCardOf("intro_text", VmIntroText), VmProvisionForm()])))
  {
  }

  /** A submission whose `form_data` is a dict (an empty one when absent)
      becomes a valid pending ticket whose id is announced by the first card
      and whose details are the form data; any other `form_data` raises. */
  lemma HandleVmProvisionTicket(req: MultimodalRequest, text: string, uuid: string,
                                createdAt: string, submittedAt: string)
    requires req.metadata.Some? && IsSubmission(text, req.metadata.value)
    ensures var r := HandleVmProvision(req, text, uuid, createdAt, submittedAt);
      var formData := GetOr(req.metadata.value, "form_data", Obj([]));
      && (formData.Obj? ==>
            && r.Ok? && |r.value.cards| == 2
            && r.value.cards[0] == TextCardOf("response_text", TicketMessage(TicketId(uuid)))
            && var ticket := r.value.cards[1];
            && ValidTicket(ticket) && ticket.ticket.ticketId == TicketId(uuid)
            && ticket.ticket.details == formData.fields && ticket.ticket.status == "pending_approval")
      && (!formData.Obj? ==> r == Err(DetailsNotADict))
  {
    var formData := GetOr(req.metadata.value, "form_data", Obj([]));
    if formData.Obj? {
      CreateTicketCardValid(TicketId(uuid), "VM Provisioning Request", "pending_approval",
                            formData.fields, createdAt, submittedAt);
    }
  }

  // The texts of the SAP, RBAC and web app forms.
  const SapFormTitle := "SAP System Access Request"
  const SapFormDescription := "Request access to SAP modules and transaction codes"
  const SapSystemChoices := [
    Choice("ERP_PROD", "ERP Production (S4P)"),
    Choice("ERP_QA", "ERP Quality Assurance (S4Q)"),
    Choice("BW_PROD", "BW Production (BWP)")]
  const SapModuleChoices := [
    Choice("FI", "Finance (FI)"),
    Choice("CO", "Controlling (CO)"),
    Choice("MM", "Materials Management (MM)"),
    Choice("SD", "Sales & Distribution (SD)")]
  const ManagerEmailCaption := "Manager Email (for approval)"
  const ManagerEmailPlaceholder := "manager@company.com"

  const RbacFormTitle := "Role-Based Access Control Request"
  const RbacFormDescription := "Request access to applications and resources"
  const ApplicationChoices := [
    Choice("azure_portal", "Azure Portal"),
    Choice("aws_console", "AWS Console"),
    Choice("github_enterprise", "GitHub Enterprise")]
  const RoleChoices := [
    Choice("reader", "Reader (View Only)"),
    Choice("contributor", "Contributor (Read/Write)"),
    Choice("admin", "Administrator (Full Access)")]

  const WebappFormTitle := "Azure Web App Deployment"
  const WebappFormDescription := "Deploy a new Azure Web Application"
  const RuntimeChoices := [
    Choice("node_18", "Node.js 18 LTS"),
    Choice("python_3_11", "Python 3.11"),
    Choice("dotnet_7", ".NET 7")]
  const PricingTierChoices := [
    Choice("F1", "F1 (Free)"),
    Choice("B1", "B1 (Basic)"),
    Choice("S1", "S1 (Standard)")]

  /** The SAP access form. */
  function SapAccessForm(): Card
  {
    FormCard("sap_access_form", FormCardContent(SapFormTitle, Some(SapFormDescription),
      [ Field("sap_system", Select, "SAP System").(required := true, options := Some(SapSystemChoices)),
        Field("modules", Checkbox, "Access Type").(required := true, options := Some(SapModuleChoices)),
        Field("manager_email", Email, ManagerEmailCaption).(required := true,
          placeholder := Some(ManagerEmailPlaceholder)) ],
      [ Action("submit_sap", "Submit for Approval", Primary) ]))
  }

  /** The role-based access form. */
  function RbacForm(): Card
  {
    FormCard("rbac_form", FormCardContent(RbacFormTitle, Some(RbacFormDescription),
      [ Field("application", Select, "Application/System").(required := true, options := Some(ApplicationChoices)),
        Field("role", Select, "Role").(required := true, options := Some(RoleChoices)),
        Field("justification", TextArea, "Business Justification").(required := true,
          maxLength := Some(300)) ],
      [ Action("submit_rbac", "Submit Request", Primary) ]))
  }

  /** The Azure web app deployment form. */
  function WebappForm(): Card
  {
    FormCard("webapp_form", FormCardContent(WebappFormTitle, Some(WebappFormDescription),
      [ Field("app_name", TextField, "App Name").(required := true,
          placeholder := Some("my-webapp"), validation := Some("^[a-z0-9-]+$")),
        Field("runtime", Select, "Runtime Stack").(required := true, options := Some(RuntimeChoices)),
        Field("pricing_tier", Select, "Pricing Tier").(required := true, options := Some(PricingTierChoices)) ],
      [ Action("deploy_webapp", "Deploy Application", Primary) ]))
  }

  /** Each of the three forms is a form card with its own id, three fields,
      every one of them required, and a single primary submit action. */
  lemma RouterFormsShape()
    ensures var c := SapAccessForm();
      c.FormCard? && c.id == "sap_access_form" && |c.form.fields| == 3 && (forall g :: g in c.form.fields ==> g.required)
      && |c.form.actions| == 1 && c.form.actions[0].style == Primary && c.form.actions[0].action == "submit_form"
    ensures var c := RbacForm();
      c.FormCard? && c.id == "rbac_form" && |c.form.fields| == 3 && (forall g :: g in c.form.fields ==> g.required)
      && |c.form.actions| == 1 && c.form.actions[0].style == Primary && c.form.actions[0].action == "submit_form"
    ensures var c := WebappForm();
      c.FormCard? && c.id == "webapp_form" && |c.form.fields| == 3 && (forall g :: g in c.form.fields ==> g.required)
      && |c.form.actions| == 1 && c.form.actions[0].style == Primary && c.form.actions[0].action == "submit_form"
  {
  }

  /** The three request forms the router offers are well formed. */
  lemma RouterFormsValid()
    ensures ValidForm(SapAccessForm().form)
    ensures ValidForm(RbacForm().form)
    ensures ValidForm(WebappForm().form)
  {
    SapFormValid();
    RbacFormValid();
    WebappFormValid();
  }

  lemma SapFormValid()
    ensures ValidForm(SapAccessForm().form)
  {
    var ids := ["sap_system", "modules", "manager_email"];
    assert FieldIds(SapAccessForm().form) == ids;
    assert ids[0][0] != ids[1][0] && ids[0][0] != ids[2][0] && ids[1][1] != ids[2][1];
  }

  lemma RbacFormValid()
    ensures ValidForm(RbacForm().form)
  {
    var ids := ["application", "role", "justification"];
    assert FieldIds(RbacForm().form) == ids;
    assert ids[0][0] != ids[1][0] && ids[0][0] != ids[2][0] && ids[1][0] != ids[2][0];
  }

  lemma WebappFormValid()
    ensures ValidForm(WebappForm().form)
  {
    var ids := ["app_name", "runtime", "pricing_tier"];
    assert FieldIds(WebappForm().form) == ids;
    assert ids[0][0] != ids[1][0] && ids[0][0] != ids[2][0] && ids[1][0] != ids[2][0];
  }

  const GeneralHelpText :=
    "I can help you with:\n• VM Provisioning\n• SAP Access Requests\n• RBAC Access Management\n• Azure WebApp Deployment\n\nWhat would you like to do?"
  const SapIntroText := "I can help you request SAP system access. Please fill out the form below."
  const RbacIntroText := "I can help you request role-based access. Please specify the application and role you need."
  const WebappIntroText := "I can help you deploy an Azure Web Application. Please provide the deployment details."

  /** The cards of the handlers that cannot fail: an introduction followed by
      the intent's form, or the single help text of a general query. */
  function FixedCards(h: Handler): seq<Card>
    requires h != VmProvisionHandler
  {
    match h
    case SapAccessHandler => [TextCardOf("sap_intro", SapIntroText), SapAccessForm()]
    case RbacAccessHandler => [TextCardOf("rbac_intro", RbacIntroText), RbacForm()]
    case AzureWebappHandler => [TextCardOf("webapp_intro", WebappIntroText), WebappForm()]
    case GeneralHandler => [TextCardOf("general_response", GeneralHelpText)]
  }

  /** A general query gets exactly the help text; the SAP, RBAC and web app
      handlers answer with their introduction followed by their form. */
  lemma FixedCardsShape(h: Handler)
    requires h != VmProvisionHandler
    ensures var cards := FixedCards(h);
      && (h == GeneralHandler ==>
            cards == [TextCardOf("general_response", GeneralHelpText)])
      && (h != GeneralHandler ==>
            |cards| == 2 && cards[0].TextCard? && cards[1].FormCard?)
      && (h == SapAccessHandler ==> cards[1] == SapAccessForm())
      && (h == RbacAccessHandler ==> cards[1] == RbacForm())
      && (h == AzureWebappHandler ==> cards[1] == WebappForm())
  {
  }

  /** Runs a handler on the request and its (original-case) text. */
  function Dispatch(h: Handler, req: MultimodalRequest, text: string, uuid: string,
                    createdAt: string, submittedAt: string): Result<HandlerResult, RouteError>
  {
    if h == VmProvisionHandler then HandleVmProvision(req, text, uuid, createdAt, submittedAt)
    else Ok(HandlerResult(FixedCards(h)))
  }

  /** `route_request`: classify the lower-cased text and run the handler the
      table names for that intent, the general one if it named none. */
  function RouteRequest(req: MultimodalRequest, uuid: string, createdAt: string, submittedAt: string)
    : (r: Result<HandlerResult, RouteError>)
    ensures RouteIntent(InputText(req)) == "vm_provision" ==>
      r == HandleVmProvision(req, InputText(req), uuid, createdAt, submittedAt)
  {
    HandlersTable();
    var text := InputText(req);
    var intent := DetermineIntent(Lower(text));
    var fallback := Handlers["general"];  // `.get`'s default is evaluated first
    var handler := if intent in Handlers then Handlers[intent] else fallback;
    Dispatch(handler, req, text, uuid, createdAt, submittedAt)
  }

  /** What `route_request` returns. Only the VM handler can fail; every result
      holds one or two cards and starts with a text card; a general query
      gets exactly the help text, and each of the SAP, RBAC and web app
      intents gets its own introduction followed by its own form. */
  lemma RouteRequestCards(req: MultimodalRequest, uuid: string, createdAt: string, submittedAt: string)
    ensures var intent := RouteIntent(InputText(req));
      var r := RouteRequest(req, uuid, createdAt, submittedAt);
      && (r.Err? ==> intent == "vm_provision")
      && (r.Ok? ==> 1 <= |r.value.cards| <= 2 && r.value.cards[0].TextCard?)
      && (intent == "general" ==> r == Ok(HandlerResult([TextCardOf("general_response", GeneralHelpText)])))
      && (intent == "sap_access" ==>
            r == Ok(HandlerResult([TextCardOf("sap_intro", SapIntroText), SapAccessForm()])))
      && (intent == "rbac_access" ==>
            r == Ok(HandlerResult([TextCardOf("rbac_intro", RbacIntroText), RbacForm()])))
      && (intent == "azure_webapp" ==>
            r == Ok(HandlerResult([TextCardOf("webapp_intro", WebappIntroText), WebappForm()])))
  {
    if RouteIntent(InputText(req)) == "vm_provision" {
      RouteRequestVm(req, uuid, createdAt, submittedAt);
    } else {
      RouteRequestFixed(req, uuid, createdAt, submittedAt);
    }
  }

  /** A VM request fails only as the VM handler does, and otherwise gets one
      or two cards, a text card first. */
  lemma RouteRequestVm(req: MultimodalRequest, uuid: string, createdAt: string, submittedAt: string)
    requires RouteIntent(InputText(req)) == "vm_provision"
    ensures var r := RouteRequest(req, uuid, createdAt, submittedAt);
      r.Ok? ==> 1 <= |r.value.cards| <= 2 && r.value.cards[0].TextCard?
  {
    var text := InputText(req);
    assert RouteRequest(req, uuid, createdAt, submittedAt) == HandleVmProvision(req, text, uuid, createdAt, submittedAt);
    HandleVmProvisionCards(req, text, uuid, createdAt, submittedAt);
  }

  /** Whatever the VM handler returns holds two cards, a text card first. */
  lemma HandleVmProvisionCards(req: MultimodalRequest, text: string, uuid: string,
                               createdAt: string, submittedAt: string)
    ensures var r := HandleVmProvision(req, text, uuid, createdAt, submittedAt);
      r.Ok? ==> |r.value.cards| == 2 && r.value.cards[0].TextCard?
  {
    if req.metadata.Some? && IsSubmission(text, req.metadata.value) {
      HandleVmProvisionTicket(req, text, uuid, createdAt, submittedAt);
    } else {
      HandleVmProvisionForm(req, text, uuid, createdAt, submittedAt);
    }
  }


  /** Any other request is answered by its fixed handler and cannot fail:
      a general query gets exactly the help text, and each of the SAP, RBAC
      and web app intents gets its own introduction followed by its own form. */
  lemma RouteRequestFixed(req: MultimodalRequest, uuid: string, createdAt: string, submittedAt: string)
    requires RouteIntent(InputText(req)) != "vm_provision"
    ensures var intent := RouteIntent(InputText(req));
      var r := RouteRequest(req, uuid, createdAt, submittedAt);
      && r.Ok? && 1 <= |r.value.cards| <= 2 && r.value.cards[0].TextCard?
      && (intent == "general" ==> r.value.cards == [TextCardOf("general_response", GeneralHelpText)])
      && (intent == "sap_access" ==> r.value.cards == [TextCardOf("sap_intro", SapIntroText), SapAccessForm()])
      && (intent == "rbac_access" ==> r.value.cards == [TextCardOf("rbac_intro", RbacIntroText), RbacForm()])
      && (intent == "azure_webapp" ==>
            r.value.cards == [TextCardOf("webapp_intro", WebappIntroText), WebappForm()])
  {
    var h := RouteFixedHandler(req, uuid, createdAt, submittedAt);
  }

  /** A request that is not a VM request is answered by the handler the table
      names for its intent, which is not the VM handler. */
  lemma RouteFixedHandler(req: MultimodalRequest, uuid: string, createdAt: string, submittedAt: string)
    returns (h: Handler)
    requires RouteIntent(InputText(req)) != "vm_provision"
    ensures RouteIntent(InputText(req)) in Handlers && h == Handlers[RouteIntent(InputText(req))]
    ensures h != VmProvisionHandler
    ensures RouteRequest(req, uuid, createdAt, submittedAt) == Ok(HandlerResult(FixedCards(h)))
    ensures var intent := RouteIntent(InputText(req));
      && (intent == "general" ==> h == GeneralHandler)
      && (intent == "sap_access" ==> h == SapAccessHandler)
      && (intent == "rbac_access" ==> h == RbacAccessHandler)
      && (intent == "azure_webapp" ==> h == AzureWebappHandler)
  {
    HandlersTable();
    var text := InputText(req);
    IntentHasHandler(Lower(text));
    h := Handlers[RouteIntent(text)];
  }
}
