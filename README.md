# A2UI inspector backend, modelled in Dafny

The backend of the A2UI inspector has two jobs. First, it answers user requests
with UI *cards*. Second, it turns the replies of remote A2A agents into A2UI
*envelopes*. An envelope is `{"surfaceUpdate": {"components": [...]}}`. Its
components form an adjacency list: a `root` Column names its children by id
in `children.explicitList`.

This project models the deterministic core of that backend. The model has
five parts:

- **The intent router** (`router.dfy`, for `backend/agents/router.py`).
  - It picks the text of a request according to its modality.
  - It lower-cases the text and classifies it by ordered keyword rules into
    one of five intents.
  - Through a fixed `handlers` table it runs the handler that builds that
    intent's cards.
  - The VM handler either opens a ticket or shows the VM provisioning form.
- **The request host** (`agents_host.dfy`, for `backend/agents/a2a_host.py`).
  It wraps the router's cards into a response for the session, or yields them
  one at a time.
- **The card schemas** (`schemas.dfy`, for `backend/models/a2ui_schemas.py`).
  - Datatypes for the six card models and their records.
  - Each closed `Literal` enumeration, with a validator that accepts exactly
    its names.
  - The fixed `type` tag of each card.
  - The two helpers `create_vm_provision_form` and `create_ticket_card`.
- **The envelope generator** (`generator.dfy`, for
  `backend/core/a2ui_generator.py`).
  - It builds the prompt.
  - It strips markdown fences from the language model's reply.
  - It backfills missing component ids.
  - It reads each component's type tag, in either wire shape.
  - It wraps the components in an envelope whose root lists their ids in
    order.
- **The agent host** (`core_host.dfy`, for `backend/core/a2a_host.py`).
  - The connection cache keyed by agent url, as a class with a `connections`
    map.
  - Capability reporting.
  - The flattening of an A2A `Message` or `Task` into text.
  - The two envelope builders.
  - The per-chunk loop of `stream_agent`.

Shared modules:

- `wrappers.dfy`: `Option` and `Result`. A raised exception is an `Err`.
- `strings.dfy`: the Python `str` operations the code uses, namely `in`,
  `find`, `lower`, `upper`, `strip` and slicing.
- `json.dfy`: JSON values. An object is an insertion-ordered list of entries,
  like a `dict`, with `get` and truthiness.
- `surface.dfy`: readers for the envelope and for both component shapes. The
  flat shape is `"component": "Column"`; the nested shape is
  `"component": {"Column": {...}}`.
- `multimodal.dfy`: the request and response records.

The following values are parameters of the model:

- uuids, as `uuid` or `uuidAt(i)` for the i-th draw;
- `datetime.utcnow()` readings, as timestamp strings;
- the language model's answer, as `llm`;
- `json.loads`, as `parse`;
- the agent card fetch, as `fetch`;
- Python's `str()` of a value, as `pyStr`.

The client deduplicates the root's children when it merges envelopes into
its scene graph. That merge is not part of this model. On the backend,
`create_root_component` lists the ids exactly as given, duplicates included,
as `CreateRootComponentReads` states.

## Model

| member | source | states |
|---|---|---|
| Json.GetAppended | backend/core/a2ui_generator.py:187-188 | Setting a key that a dict lacks makes it map to the new value and leaves every other key's value unchanged |
| Strings.Take | backend/core/a2ui_generator.py:147 | `s[:n]` is a prefix of `s` of length `min(n, len(s))`, and is all of `s` when it is short enough |
| Strings.Strip | backend/core/a2ui_generator.py:179 | The stripped text is a slice `s[a:b]` of the input with only whitespace outside it, and it neither starts nor ends with whitespace |
| Strings.StripIdempotent | backend/core/a2ui_generator.py:179 | Stripping twice is the same as stripping once |
| Strings.Lower | backend/agents/router.py:45 | `lower()` keeps the length and lower-cases each character |
| Surface.SurfaceEnvelopeReads | backend/core/a2ui_generator.py:260-264 | An envelope's `surfaceUpdate.components` reads back exactly the list it was built from |
| Schemas.ParseFieldType | backend/models/a2ui_schemas.py:13 | A field type is accepted exactly when it is one of the nine names, and it names the value it parses to |
| Schemas.ParseActionStyle | backend/models/a2ui_schemas.py:29 | A button style is accepted exactly when it is primary, secondary, danger or link |
| Schemas.ParsePriority | backend/models/a2ui_schemas.py:70 | A priority is accepted exactly when it is low, medium, high or critical |
| Schemas.ParseProgress | backend/models/a2ui_schemas.py:91 | A step status (and an overall status, line 98) is accepted exactly when it is pending, in_progress, complete or failed |
| Schemas.ParseApprovalKind | backend/models/a2ui_schemas.py:162 | An approval action type is accepted exactly when it is success, danger or secondary |
| Schemas.EnumerationsRoundTrip | backend/models/a2ui_schemas.py:10-30 | Every enumeration's wire name parses back to the value it names |
| Schemas.Field | backend/models/a2ui_schemas.py:10-22 | A form field given only id, type and label is not required, and every optional attribute is absent |
| Schemas.Action | backend/models/a2ui_schemas.py:25-30 | A form action's `action` defaults to `"submit_form"` |
| Schemas.TicketContent | backend/models/a2ui_schemas.py:65-78 | A ticket given only its required attributes has empty details, timeline and actions, and no creator, assignee, estimate or style |
| Schemas.ParseCardType | backend/models/a2ui_schemas.py:41-45 | A `type` tag names at most one card kind, and reading it gives that kind's tag back |
| Schemas.TypeTagIdentifiesKind | backend/models/a2ui_schemas.py:41-182 | Each of the six card kinds has its own fixed tag: two cards share a tag exactly when they are of the same kind |
| Schemas.TextCardOf | backend/models/a2ui_schemas.py:145-155 | A text card carries its id and text, and no metadata |
| Schemas.VmProvisionForm | backend/models/a2ui_schemas.py:186-224 | `create_vm_provision_form`, id defaulting to `vm_form_001`. Its contents are stated by `VmFormShape`, `VmFormValid`, `VmFormUniqueIds`, `VmFormChoicesAndBounds` and `VmFormDiskSize` |
| Schemas.VmFormShape | backend/models/a2ui_schemas.py:186-224 | The VM form is a form card with the requested id (default `vm_form_001`), six fields that are all required, and two actions |
| Schemas.VmFormValid | backend/models/a2ui_schemas.py:193-222 | The VM form is well formed: unique field and action ids, options on every choice field, and number bounds that admit the default |
| Schemas.VmFormUniqueIds | backend/models/a2ui_schemas.py:194-221 | No two fields of the VM form share an id, and neither do its two actions |
| Schemas.VmFormChoicesAndBounds | backend/models/a2ui_schemas.py:196-215 | Every choice field of the VM form offers options, and the disk size bounds are ordered and hold the default |
| Schemas.VmFormDiskSize | backend/models/a2ui_schemas.py:208-221 | `disk_size` is a required number with min 30, max 1024 and default 128; the form submits through `submit_vm_request` (primary) and cancels through `cancel` (secondary) |
| Schemas.CreateTicketCard | backend/models/a2ui_schemas.py:227-252 | `create_ticket_card`, with the two clock readings as parameters. Its contents are stated by `CreateTicketCardValid` and `TicketIdRecoverable` |
| Schemas.CreateTicketCardValid | backend/models/a2ui_schemas.py:227-252 | A created ticket is valid, has id `"ticket_" + ticket_id` and priority medium, and keeps the id, title, status and details. It has the one "submitted" timeline event by "system" and one link action to `"/tickets/" + ticket_id` |
| Schemas.TicketIdRecoverable | backend/models/a2ui_schemas.py:230-248 | The ticket id can be read back from both the card id and the link url |
| Router.InputText | backend/agents/router.py:37-42 | The text is the typed text for a text request that has one, the transcript for a voice request that has one, and `""` otherwise |
| Router.HandlersTable | backend/agents/router.py:18-24 | The handler table has exactly the five intents as keys, each mapped to its own handler |
| Router.IntentHasHandler | backend/agents/router.py:45-48 | Every intent the classifier returns is a key of the handler table |
| Router.DetermineIntent | backend/agents/router.py:51-70 | `_determine_intent` on lower-cased text: the four keyword rules in order, then `general`. Its meaning is stated by `DetermineIntentIsFirstMatch` and `IntentPriority` |
| Router.FirstMatch | backend/agents/router.py:61-70 | A priority matcher returns the fallback or the intent of one of its rules |
| Router.DetermineIntentIsFirstMatch | backend/agents/router.py:61-70 | Classification is the first-match rule over the four keyword lists, in order, with `"general"` as fallback |
| Router.IntentPriority | backend/agents/router.py:61-70 | Each intent is chosen exactly when one of its keywords occurs and none of a higher rule's does (both directions, all five intents) |
| Router.EmptyTextIsGeneral | backend/agents/router.py:69-70 | The empty text is a general query |
| Router.VmBeforeSap | backend/agents/router.py:61-64 | Every text that mentions both a VM keyword and a SAP keyword is a VM request |
| Router.VmForSap | backend/agents/router.py:61-64 | `"a vm for sap"` is a VM request |
| Router.RouteIntentIgnoresCase | backend/agents/router.py:45 | With the ASCII case mapping, upper-casing or lower-casing the text first does not change the intent |
| Router.TicketId | backend/agents/router.py:78 | A ticket id is `REQ-2025-` followed by at most five characters |
| Router.HandleVmProvision | backend/agents/router.py:72-111 | `_handle_vm_provision`: metadata `None` raises, a submission becomes a ticket, anything else the VM form. Its results are stated by `HandleVmProvisionForm`, `HandleVmProvisionTicket` and `HandleVmProvisionCards` |
| Router.HandleVmProvisionForm | backend/agents/router.py:72-111 | A VM request without metadata raises. One that is not a submission gets the introduction followed by the VM form |
| Router.HandleVmProvisionTicket | backend/agents/router.py:75-97 | A submission whose `form_data` is a dict (an empty one when absent) gets the ticket message, then a valid pending ticket whose details are that dict. Any other `form_data` raises |
| Router.HandleVmProvisionCards | backend/agents/router.py:72-111 | Whatever the VM handler returns holds two cards, a text card first |
| Router.RouterFormsShape | backend/agents/router.py:113-241 | The SAP, RBAC and web app forms each have their own id, three required fields and one primary submit action |
| Router.RouterFormsValid | backend/agents/router.py:117-229 | The SAP, RBAC and web app forms are well formed |
| Router.FixedCardsShape | backend/agents/router.py:113-254 | A general query gets exactly the help text, as `general_response`. The SAP, RBAC and web app handlers return their introduction followed by their own form |
| Router.RouteRequest | backend/agents/router.py:26-49 | A VM intent is answered by the VM handler, given the original-case text |
| Router.RouteFixedHandler | backend/agents/router.py:18-49 | Any other intent is a key of the table, its handler is not the VM handler, the request is answered with that handler's fixed cards, and each intent picks its own handler |
| Router.RouteRequestCards | backend/agents/router.py:26-49 | Only a VM request can fail, and every answer has one or two cards with a text card first. General gets exactly the help text; SAP, RBAC and web app each get exactly their own introduction and their own form |
| Router.RouteRequestVm | backend/agents/router.py:45-49 | A VM request that succeeds has one or two cards, a text card first |
| Router.RouteRequestFixed | backend/agents/router.py:45-49 | Any other request succeeds. A general query gets exactly the help text card; `sap_access`, `rbac_access` and `azure_webapp` each get exactly their own introduction followed by their own form |
| AgentsHost.ProcessRequest | backend/agents/a2a_host.py:17-46 | The response holds exactly the router's cards and the request's session id. Its metadata is exactly the request's modality and user id. It fails exactly when the router fails |
| AgentsHost.ResponseStartsWithText | backend/agents/a2a_host.py:33-37 | A response holds one or two cards, a text card first; only a VM request can fail |
| AgentsHost.YieldCards | backend/agents/a2a_host.py:67-68 | The loop yields the cards one by one, in list order, and nothing else |
| AgentsHost.ProcessStreamingRequest | backend/agents/a2a_host.py:48-68 | The stream yields exactly the response's cards, in order. A routing error is raised before anything is yielded |
| Generator.TargetId | backend/core/a2ui_generator.py:143 | The target id is the message id when one is given and non-empty, else `"msg_"` followed by a fresh uuid |
| Generator.BuildPrompt | backend/core/a2ui_generator.py:140-152 | The prompt holds the first 1500 characters of the text. Type, tool and role are the metadata's values when present, and default to `message`, `N/A` and `agent` when absent |
| Generator.Before | backend/core/a2ui_generator.py:175 | `split(sep)[0]` is the prefix that ends exactly at the first occurrence of the separator, and the whole text when there is none |
| Generator.SecondPiece | backend/core/a2ui_generator.py:175-177 | `split(sep)[1]` is the slice that starts right after the first separator, holds no separator and ends at the next one or at the end |
| Generator.StripFences | backend/core/a2ui_generator.py:173-177 | Content without a fence is left unchanged; otherwise the kept block contains no fence |
| Generator.StripFencesKeptBlock | backend/core/a2ui_generator.py:173-177 | With a ```` ```json ````, the kept block starts right after the first one and runs up to the first fence lying wholly before the next ```` ```json ````, or up to that ```` ```json ````, or the end. Without one, it starts right after the first plain fence and runs up to the next fence or the end, with no fence starting inside it |
| Generator.Sanitize | backend/core/a2ui_generator.py:173-179 | The cleaned content neither starts nor ends with whitespace, and content without a fence is only stripped (fenced content: the round trips below) |
| Generator.JsonFenceRoundTrip | backend/core/a2ui_generator.py:174-179 | A reply wrapped in a ```` ```json ```` fence gives back exactly the fenced body, and its strip after cleaning, when the opening fence is the first ```` ```json ````, the body holds no ```` ``` ```` and no backtick follows the closing fence; backticks elsewhere are allowed |
| Generator.InlineCodeAroundBlock | backend/core/a2ui_generator.py:174-175 | Inline code before the block and inside it does not disturb the cut |
| Generator.FenceRoundTrip | backend/core/a2ui_generator.py:176-179 | A reply wrapped in a plain ```` ``` ```` fence, with no ```` ```json ````, gives back exactly the fenced body when the opening fence is the first fence and the body holds no ```` ``` ```` |
| Generator.EnsureId | backend/core/a2ui_generator.py:187-188 | A component object without `"id"` gains one, and one that has it is unchanged. A string or list passes only the `in` test; anything else raises `TypeError` |
| Generator.TypeTagOf | backend/core/a2ui_generator.py:190-197 | The tag is `Unknown` without `"component"`, the first key of a nested object, or the string itself. An empty nested object raises `IndexError` |
| Generator.Checked | backend/core/a2ui_generator.py:186-197 | The loop succeeds exactly when every component passes, and then yields each checked component in place |
| Generator.CheckedComponentsHaveIds | backend/core/a2ui_generator.py:186-188 | After the loop every component has an id. One that had an id is unchanged. One that had none gets `"gen_" + uuid`, and its other entries are unchanged |
| Generator.ValidateComponents | backend/core/a2ui_generator.py:185-197 | The loop computes exactly `Checked` and collects one type tag per component |
| Generator.CheckedFirstError | backend/core/a2ui_generator.py:186-197 | The loop stops with the error of the first component that fails |
| Generator.ComponentsOf | backend/core/a2ui_generator.py:181-182 | A reply that does not parse raises a decode error, and a parsed non-object raises `AttributeError`. For an object, the result is its `"components"` list, `[]` when the key is absent, and a `TypeError` for a non-list |
| Generator.GenerateComponents | backend/core/a2ui_generator.py:120-207 | The method returns what `Generated` specifies, with one type tag per component |
| Generator.CreateRootComponent | backend/core/a2ui_generator.py:209-228 | `create_root_component`. What it builds is stated by `CreateRootComponentReads` and used in `GenerateEnvelope` |
| Generator.CreateRootComponentReads | backend/core/a2ui_generator.py:209-228 | The root has id `root` and type Column, and its `explicitList` is exactly the given ids, in order, duplicates kept |
| Generator.ComponentIds | backend/core/a2ui_generator.py:251 | The id list has one entry per component, in order. It exists exactly when every component has an id |
| Generator.CheckedObjectsHaveIds | backend/core/a2ui_generator.py:251 | After the loop, the id list of object components always exists |
| Generator.GenerateEnvelope | backend/core/a2ui_generator.py:230-266 | The components are the generated ones followed by one root. The root's children are the generated ids in order, one per component. Generation errors pass through |
| CoreHost.MessageText | backend/core/a2a_host.py:189-195 | The text of a message's parts. Its meaning is stated by `MessageTextAppend` and `NonTextPartAddsNothing`, and the loop `ConcatTextParts` is proved to compute it |
| CoreHost.MessageTextAppend | backend/core/a2a_host.py:189-194 | The text of two part lists side by side is their texts side by side |
| CoreHost.NonTextPartAddsNothing | backend/core/a2a_host.py:191-194 | A part that is not text adds nothing to the text, wherever it is |
| CoreHost.ConcatTextParts | backend/core/a2a_host.py:189-195 | The loop's text is the in-order concatenation of the text parts |
| CoreHost.ProcessResponse | backend/core/a2a_host.py:182-207 | A Message gives its text. A Task gives its last history message's text, or `"Task status: " + state` when the history is empty. Anything else gives its string form |
| CoreHost.OutputText | backend/core/a2a_host.py:245-251 | The text is `output["text"]` when the key is present, else `str(output)`; a dict output never raises, and a string output without `text` is shown as itself |
| CoreHost.TextComponentReads | backend/core/a2a_host.py:260-266 | The message component reads back its id, type Text and literal string |
| CoreHost.RootColumnReads | backend/core/a2a_host.py:267-273 | The root reads back as the Column `root` listing exactly the given ids |
| CoreHost.WithMetadataReads | backend/core/a2a_host.py:276 | Adding `metadata` keeps the components and makes `metadata` read back as given |
| CoreHost.ConvertToA2ui | backend/core/a2a_host.py:241-279 | `convert_to_a2ui`. Its envelope is stated by `ConvertToA2uiShape` and `ConvertOutputDict` |
| CoreHost.ConvertToA2uiShape | backend/core/a2a_host.py:241-279 | Exactly two components: the Text `"msg_" + uuid` showing the output's text, then the root listing only it. Metadata is copied, defaulting to `{}`. It raises only when the text lookup does |
| CoreHost.ConvertOutputDict | backend/core/a2a_host.py:245-249 | Converting `{"output": {"text": t}}` always succeeds, shows exactly `t` and has empty metadata |
| CoreHost.ErrorComponentReads | backend/core/a2a_host.py:229-236 | The error component reads back its id, type Text, literal string and the `error` usage hint |
| CoreHost.ConvertErrorToA2ui | backend/core/a2a_host.py:209-239 | `convert_error_to_a2ui`. Its envelope is stated by `ConvertErrorToA2uiShape` |
| CoreHost.ConvertErrorToA2uiShape | backend/core/a2a_host.py:209-239 | First the root listing exactly `"error_" + uuid`, then that Text component showing `"Error: "` and the error's `message` (else its string form), hinted `error` |
| CoreHost.CacheEntriesInsertedOnce | backend/core/a2a_host.py:54-69 | Over lookups that do not overlap in time, a cached url keeps its connection. A url is cached afterwards exactly when it was before or was looked up with its card fetched |
| CoreHost.A2AHost.constructor | backend/core/a2a_host.py:46-48 | The cache starts empty |
| CoreHost.A2AHost.GetOrCreateConnection | backend/core/a2a_host.py:50-69 | A cached url's connection is returned and the cache is unchanged. An uncached url gains exactly one entry built from its card. A failed fetch raises and changes nothing |
| CoreHost.A2AHost.GetAgentCapabilities | backend/core/a2a_host.py:71-85 | Streaming and polling are reported exactly for a cached url; push never is |
| CoreHost.A2AHost.StreamAgent | backend/core/a2a_host.py:133-180 | The connection is looked up first, and a failed fetch raises before anything is yielded. Otherwise the stream yields what `StreamItems` specifies |
| CoreHost.ChunkItem | backend/core/a2a_host.py:162-177 | What one chunk of the stream yields and whether the stream stops. Stated by `ChunkStopsOnlyWhenRaw` and `RawChunkItem`; `DispatchChunk` is proved to compute it |
| CoreHost.DispatchChunk | backend/core/a2a_host.py:162-177 | One chunk yields its item and tells whether the stream stops, as `ChunkItem` specifies |
| CoreHost.StreamChunks | backend/core/a2a_host.py:158-180 | The loop yields exactly `StreamItems`: each chunk's item in order, stopping at the first raw chunk, then one error envelope if the stream fails at the end |
| CoreHost.OneItemPerChunk | backend/core/a2a_host.py:159-177 | Without raw chunks, the stream yields exactly one item per chunk, in order, and an error chunk does not end it. A failure at the end adds one error envelope |
| CoreHost.RawChunkEndsStream | backend/core/a2a_host.py:159-180 | A chunk that is not a response ends the stream. It yields the items of the chunks before it, then its `AttributeError` envelope |
| CoreHost.ChunkStopsOnlyWhenRaw | backend/core/a2a_host.py:162-180 | Only a chunk that is not a response stops the stream |

## Left out

- The language model call (`acompletion`), `json.loads`, uuids and
  `datetime.utcnow()` are parameters. Only their use is modelled.
- The agent card fetch over HTTP (`httpx`, `A2ACardResolver`) and the
  connection object's own client are parameters as well.
  `RemoteAgentConnections` is reduced to its card and url.
- `call_agent` and `_call_with_push` are network calls through the SDK.
  `_call_with_push` has no body.
- CoreHost.A2AHost.GetOrCreateConnection: a lookup is one atomic step, and
  so is every lookup that CoreHost.CacheEntriesInsertedOnce chains. In the
  source the test for the url and the insert are separated by an `await` of
  the card fetch, and one `A2AHost` serves all requests. Two overlapping
  first lookups of a url both fetch a card, and the later insert replaces
  the connection the earlier one stored. Another url may also be inserted
  during the `await`. Interleaved lookups are not modelled.
- The SSE stream of `stream_agent` is given as the list of chunks it
  delivers. An exception that the stream raises after its last chunk is the
  `failure` parameter. An exception in the middle of the stream is not
  modelled separately, because it ends the stream in the same way.
- The FastAPI endpoints of `backend/main.py` are HTTP glue. Its line 133 reads
  a `cards` key that `convert_to_a2ui` never produces, and its line 171
  converts an already converted chunk again. Neither is modelled.
- The `get_generator` singleton depends on global configuration and the
  environment.
- The prompt template's text and its formatting are not modelled. The prompt
  is the record of the values substituted into it.
- Logging is not modelled, so the collected type tags are only returned.
- `model_dump()` is not modelled. Cards stay typed values rather than dicts.
- Strings.Lower: `str.lower()` and `str.upper()` are modelled on ASCII letters
  only. The only non-ASCII characters that lower-case to ASCII are U+0130
  (to "i̇") and U+212A (to "k"). No keyword contains `k` or ends in `i`, so
  classification is the same, but this is argued, not proved.
- Router.RouteIntentIgnoresCase: the upper-casing half holds only for the
  ASCII `Upper` of the model. Python's `upper()` maps some non-ASCII letters
  to ASCII ones (`"ſap".upper()` is `"SAP"`, `"ß".upper()` is `"SS"`), so
  upper-casing such a text first can change its intent.
- JSON numbers are integers. Floats are not modelled, and no modelled
  operation computes with numbers.
- Python's `str()` of a dict, list or other value is the parameter `pyStr`.
  Its exact text is not modelled. The same holds for the string form of a
  task's state and of an error.
- Generator.ComponentsOf: a `"components"` value that is not a list is
  reported as a `TypeError`. Python would iterate a string or a dict's keys
  and fail later, or not at all.
- Json.GetAppended: a dict is a list of entries, and `get` finds the first
  entry with a key. `json.loads` keeps the last of duplicate keys, so
  duplicate keys in the model's reply are not modelled.
- Router.RouteRequestCards: a handler's result is a one-key record, so
  `result.get("cards", [])` always finds the key, as every handler sets it.
- The isinstance branch at backend/core/a2a_host.py:171-173 is modelled as
  written, and so it is never reached. A raw dict or string chunk fails at
  `chunk.root` on line 163, so the `except` at lines 178-180 yields an error
  envelope and ends the stream (`RawChunkEndsStream`).
- The client's scene-graph merge is not part of this model; it is not among
  the backend files.
