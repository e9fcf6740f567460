/** `A2AHost` of backend/core/a2a_host.py: the connection cache keyed by agent
    url, the flattening of A2A results into `{"output": {"text": ...}}`, the
    two envelope builders, and the per-chunk loop of `stream_agent`. The agent
    card fetch, the SSE stream and uuids are parameters. */
module CoreHost {
  import opened Wrappers
  import opened Json
  import opened Surface
  import Strings

  // ---------------------------------------------------------------------------
  // A2A values.

  /** The kinds of `Part`: only text parts carry text the host keeps. */
  datatype Part = TextPart(text: string) | FilePart(uri: string) | DataPart(data: Fields)

  datatype Message = Message(parts: seq<Part>)

  /** What a response's `result` can be: a `Message`, a `Task` (with its
      history and the string form of its state), or anything else, given by
      its string form. */
  datatype AgentResult =
    | MessageResult(message: Message)
    | TaskResult(history: seq<Message>, stateText: string)
    | OtherResult(rendered: string)

  /** An error object: its string form and, when it has one, its `message`
      attribute. */
  datatype AgentError = AgentError(rendered: string, message: Option<string>)

  /** The agent card a url resolves to, and the connection built from it. */
  datatype AgentCard = AgentCard(name: string, description: string)
  datatype Connection = Connection(card: AgentCard, url: string)

  /** `get_agent_capabilities`'s dictionary. */
  datatype Capabilities = Capabilities(streaming: bool, polling: bool, push: bool)

  // ---------------------------------------------------------------------------
  // Flattening a result into text.

  function PartText(p: Part): string
  {
    if p.TextPart? then p.text else ""
  }

  /** The text of a message: its text parts, concatenated in order. */
  function MessageText(parts: seq<Part>): string
  {
    if parts == [] then "" else MessageText(parts[..|parts| - 1]) + PartText(parts[|parts| - 1])
  }

  /** The text of parts put side by side is the two texts side by side. */
  lemma {:induction false} MessageTextAppend(a: seq<Part>, b: seq<Part>)
    ensures MessageText(a + b) == MessageText(a) + MessageText(b)
    decreases |b|
  {
    if b == [] {
      assert a + b == a;
    } else {
      var n := |b| - 1;
      var ab := a + b;
      assert ab[..|ab| - 1] == a + b[..n];
      assert ab[|ab| - 1] == b[n];
      assert MessageText(ab) == MessageText(a + b[..n]) + PartText(b[n]);
      MessageTextAppend(a, b[..n]);
      assert MessageText(b) == MessageText(b[..n]) + PartText(b[n]);
    }
  }

  /** A part that is not text adds nothing, wherever it is. */
  lemma NonTextPartAddsNothing(a: seq<Part>, p: Part, b: seq<Part>)
    requires !p.TextPart?
    ensures MessageText(a + [p] + b) == MessageText(a + b)
  {
    MessageTextAppend(a + [p], b);
    MessageTextAppend(a, b);
    assert (a + [p])[..|a + [p]| - 1] == a;
  }

  /** The text `_process_response` extracts. */
  function ResponseText(result: AgentResult): string
  {
    match result
    case MessageResult(m) => MessageText(m.parts)
    case TaskResult(history, state) =>
      if history != [] then MessageText(history[|history| - 1].parts) else "Task status: " + state
    case OtherResult(rendered) => rendered
  }

  /** The internal `{"output": {"text": text}}` dictionary. */
  function OutputDict(text: string): Fields
  {
    [("output", Obj([("text", Str(text))]))]
  }

  /** Lines 189-194: `text += p.text` over the text parts. */
  method ConcatTextParts(parts: seq<Part>) returns (text: string)
    ensures text == MessageText(parts)
  {
    text := "";
    for i := 0 to |parts|
      invariant text == MessageText(parts[..i])
    {
      assert parts[..i + 1][..i] == parts[..i];
      if parts[i].TextPart? {
        text := text + parts[i].text;
      }
    }
    assert parts[..|parts|] == parts;
  }

  /** `_process_response`: a message's text, the last history message of a
      task, the task's state when its history is empty, otherwise the string
      form of the result. */
  method ProcessResponse(result: AgentResult) returns (out: Fields)
    ensures out == OutputDict(ResponseText(result))
    decreases if result.TaskResult? then 1 else 0
  {
    match result
    case MessageResult(m) =>
      var text := ConcatTextParts(m.parts);
      out := OutputDict(text);
    case TaskResult(history, state) =>
      if history != [] {
        out := ProcessResponse(MessageResult(history[|history| - 1]));
      } else {
        out := OutputDict("Task status: " + state);
      }
    case OtherResult(rendered) =>
      out := OutputDict(rendered);
  }

  // ---------------------------------------------------------------------------
  // Envelope builders.

  /** The exception `convert_to_a2ui` raises when `output` does not support
      the `"text" in output` test or the `output["text"]` subscript. */
  datatype ConvertError = TypeError

  /** The message component and the root of the adjacency-list envelope. */
  function TextComponent(id: string, text: Json): Json
  {
    Obj([("id", Str(id)), ("component", Str("Text")), ("text", Obj([("literalString", text)]))])
  }

  lemma TextComponentReads(id: string, text: Json)
    ensures var c := TextComponent(id, text);
      IdOf(c) == Some(Str(id)) && TypeName(c) == Some("Text") && LiteralString(c) == Some(text)
  {
    var fields := TextComponent(id, text).fields;
    KeyNamesDistinct();
    GetFirst(fields, "id", 0);
    GetFirst(fields, "component", 1);
    GetFirst(fields, "text", 2);
    GetFirst([("literalString", text)], "literalString", 0);
  }

  /** The keys of a component differ from each other. */
  lemma KeyNamesDistinct()
    ensures "id" != "component" && "id" != "text" && "id" != "children" && "id" != "usageHint"
    ensures "component" != "text" && "component" != "children" && "component" != "usageHint"
    ensures "text" != "usageHint"
  {
    assert "id"[0] == 'i' && "component"[0] == 'c' && "text"[0] == 't' && "usageHint"[0] == 'u';
    assert "component"[1] == 'o' && "children"[1] == 'h';
  }

  function RootColumn(childIds: seq<Json>): Json
  {
    Obj([("id", Str("root")), ("component", Str("Column")), ("children", Obj([("explicitList", Arr(childIds))]))])
  }

  lemma RootColumnReads(childIds: seq<Json>)
    ensures var c := RootColumn(childIds);
      IdOf(c) == Some(Str("root")) && TypeName(c) == Some("Column") && ExplicitList(c) == Some(childIds)
  {
    var fields := RootColumn(childIds).fields;
    KeyNamesDistinct();
    GetFirst(fields, "id", 0);
    GetFirst(fields, "component", 1);
    GetFirst(fields, "children", 2);
    GetFirst([("explicitList", Arr(childIds))], "explicitList", 0);
  }

  /** The text `convert_to_a2ui` shows for `output`: `output["text"]` when
      `"text" in output`, otherwise `str(output)`, which is the string itself
      for a string. */
  function OutputText(output: Json, pyStr: Json -> string): (r: Result<Json, ConvertError>)
    ensures output.Obj? && HasKey(output.fields, "text") ==>
      Get(output.fields, "text").Some? && r == Ok(Get(output.fields, "text").value)
    ensures output.Obj? && !HasKey(output.fields, "text") ==> r == Ok(Str(pyStr(output)))
    ensures output.Obj? ==> r.Ok?
    ensures output.Str? ==> r == if Strings.Contains(output.s, "text") then Err(TypeError) else Ok(output)
  {
    match output
    case Obj(fields) =>
      GetFinds(fields, "text");
      if HasKey(fields, "text") then Ok(Get(fields, "text").value) else Ok(Str(pyStr(output)))
    // `in` on a string is a substring test and on a list a membership test;
    // when it holds, the subscript by a string raises.
    case Str(s) => if Strings.Contains(s, "text") then Err(TypeError) else Ok(output)
    case Arr(items) => if Str("text") in items then Err(TypeError) else Ok(Str(pyStr(output)))
    case _ => Err(TypeError)
  }

  /** `convert_to_a2ui`. */
  function ConvertToA2ui(agentResponse: Fields, uuid: string, pyStr: Json -> string): Result<Json, ConvertError>
  {
    var output := GetOr(agentResponse, "output", Obj([]));
    match OutputText(output, pyStr)
    case Err(e) => Err(e)
    case Ok(text) =>
      var msgId := "msg_" + uuid;
      Ok(WithMetadata(SurfaceEnvelope([TextComponent(msgId, text), RootColumn([Str(msgId)])]),
                      GetOr(agentResponse, "metadata", Obj([]))))
  }

  /** `convert_to_a2ui` emits exactly two components, the Text message
      `"msg_" + uuid` showing the output's text first and then the root
      Column listing only it; the metadata is copied, defaulting to `{}`. It
      raises only when `output` does not support the text lookup. */
  lemma ConvertToA2uiShape(agentResponse: Fields, uuid: string, pyStr: Json -> string)
    ensures var r := ConvertToA2ui(agentResponse, uuid, pyStr);
      var output := GetOr(agentResponse, "output", Obj([]));
      && (r.Ok? <==> OutputText(output, pyStr).Ok?)
      && (r.Ok? ==>
            && SurfaceComponents(r.value).Some?
            && var comps := SurfaceComponents(r.value).value;
            && |comps| == 2
            && IdOf(comps[0]) == Some(Str("msg_" + uuid)) && TypeName(comps[0]) == Some("Text")
            && LiteralString(comps[0]) == Some(OutputText(output, pyStr).value)
            && IdOf(comps[1]) == Some(Str("root")) && TypeName(comps[1]) == Some("Column")
            && ExplicitList(comps[1]) == Some([Str("msg_" + uuid)])
            && Get(r.value.fields, "metadata") == Some(GetOr(agentResponse, "metadata", Obj([]))))
  {
    var output := GetOr(agentResponse, "output", Obj([]));
    if OutputText(output, pyStr).Ok? {
      var msgId := "msg_" + uuid;
      var text := OutputText(output, pyStr).value;
      var envelope := SurfaceEnvelope([TextComponent(msgId, text), RootColumn([Str(msgId)])]);
      assert "surfaceUpdate"[0] == 's' && "metadata"[0] == 'm';
      assert Get(envelope.fields, "metadata") == Get(envelope.fields[1..], "metadata") == None;
      WithMetadataReads(envelope, GetOr(agentResponse, "metadata", Obj([])));
      SurfaceEnvelopeReads([TextComponent(msgId, text), RootColumn([Str(msgId)])]);
      TextComponentReads(msgId, text);
      RootColumnReads([Str(msgId)]);
    }
  }

  /** An envelope with a `"metadata"` entry after its `"surfaceUpdate"`. */
  function WithMetadata(envelope: Json, metadata: Json): Json
  {
    if envelope.Obj? then Obj(envelope.fields + [("metadata", metadata)]) else envelope
  }

  lemma WithMetadataReads(envelope: Json, metadata: Json)
    requires envelope.Obj? && !HasKey(envelope.fields, "metadata")
    ensures var r := WithMetadata(envelope, metadata);
      r.Obj? && Get(r.fields, "metadata") == Some(metadata) && SurfaceComponents(r) == SurfaceComponents(envelope)
  {
    GetAppended(envelope.fields, "metadata", metadata, "surfaceUpdate");
    GetAppended(envelope.fields, "metadata", metadata, "metadata");
  }

  /** Converting an `{"output": {"text": text}}` dictionary, which is what
      `_process_response` returns, always succeeds and shows exactly `text`
      with empty metadata. */
  lemma ConvertOutputDict(text: string, uuid: string, pyStr: Json -> string)
    ensures var r := ConvertToA2ui(OutputDict(text), uuid, pyStr);
      && r.Ok?
      && SurfaceComponents(r.value).Some? && |SurfaceComponents(r.value).value| == 2
      && LiteralString(SurfaceComponents(r.value).value[0]) == Some(Str(text))
      && Get(r.value.fields, "metadata") == Some(Obj([]))
  {
    var d := OutputDict(text);
    var output := Obj([("text", Str(text))]);
    assert "output"[0] == 'o' && "metadata"[0] == 'm';
    assert Get(d, "output") == Some(output);
    assert Get(d, "metadata") == Get(d[1..], "metadata") == None;
    assert Get(output.fields, "text") == Some(Str(text));
    assert OutputText(output, pyStr) == Ok(Str(text));
    ConvertToA2uiShape(OutputDict(text), uuid, pyStr);
  }

  /** The text an error shows: its `message` attribute, else its string form. */
  function ErrorText(error: AgentError): string
  {
    if error.message.Some? then error.message.value else error.rendered
  }

  /** `convert_error_to_a2ui`. */
  function ConvertErrorToA2ui(error: AgentError, uuid: string): Json
  {
    var errorId := "error_" + uuid;
    SurfaceEnvelope([RootColumn([Str(errorId)]), ErrorComponent(errorId, "Error: " + ErrorText(error))])
  }

  /** `convert_error_to_a2ui` emits the root Column listing `"error_" + uuid`
      first, then that Text component showing `"Error: "` and the error's
      text, marked with the `"error"` usage hint. */
  lemma ConvertErrorToA2uiShape(error: AgentError, uuid: string)
    ensures SurfaceComponents(ConvertErrorToA2ui(error, uuid)).Some?
    ensures var comps := SurfaceComponents(ConvertErrorToA2ui(error, uuid)).value;
      && |comps| == 2
      && IdOf(comps[0]) == Some(Str("root")) && TypeName(comps[0]) == Some("Column")
      && ExplicitList(comps[0]) == Some([Str("error_" + uuid)])
      && IdOf(comps[1]) == Some(Str("error_" + uuid)) && TypeName(comps[1]) == Some("Text")
      && LiteralString(comps[1]) == Some(Str("Error: " + ErrorText(error)))
      && UsageHint(comps[1]) == Some(Str("error"))
  {
    var errorId := "error_" + uuid;
    SurfaceEnvelopeReads([RootColumn([Str(errorId)]), ErrorComponent(errorId, "Error: " + ErrorText(error))]);
    RootColumnReads([Str(errorId)]);
    ErrorComponentReads(errorId, "Error: " + ErrorText(error));
  }

  /** The flat-shape Text component of an error. */
  function ErrorComponent(id: string, text: string): Json
  {
    Obj([("id", Str(id)), ("component", Str("Text")),
         ("text", Obj([("literalString", Str(text))])),
         ("usageHint", Str("error"))])
  }

  lemma ErrorComponentReads(id: string, text: string)
    ensures IdOf(ErrorComponent(id, text)) == Some(Str(id))
    ensures TypeName(ErrorComponent(id, text)) == Some("Text")
    ensures LiteralString(ErrorComponent(id, text)) == Some(Str(text))
    ensures UsageHint(ErrorComponent(id, text)) == Some(Str("error"))
  {
    var fields := ErrorComponent(id, text).fields;
    KeyNamesDistinct();
    GetFirst(fields, "id", 0);
    GetFirst(fields, "component", 1);
    GetFirst(fields, "text", 2);
    GetFirst(fields, "usageHint", 3);
    GetFirst([("literalString", Str(text))], "literalString", 0);
  }

  // ---------------------------------------------------------------------------
  // The connection cache.

  /** The cache after `get_or_create_connection(url)` when fetching the card
      of `url` gives `fetch(url)`. */
  function CacheAfter(cache: map<string, Connection>, url: string,
                      fetch: string -> Result<AgentCard, AgentError>): map<string, Connection>
  {
    if url in cache then cache
    else match fetch(url)
      case Ok(card) => cache[url := Connection(card, url)]
      case Err(_) => cache
  }

  /** The cache after a sequence of lookups. */
  function CacheAfterAll(cache: map<string, Connection>, urls: seq<string>,
                         fetch: string -> Result<AgentCard, AgentError>): map<string, Connection>
    decreases |urls|
  {
    if urls == [] then cache
    else CacheAfterAll(CacheAfter(cache, urls[0], fetch), urls[1..], fetch)
  }

  /** Entries are inserted once: whatever lookups follow, a cached url keeps
      its connection, and a url is cached afterwards exactly when it was
      before or was looked up with a card fetched. */
  lemma {:induction false} CacheEntriesInsertedOnce(cache: map<string, Connection>, urls: seq<string>,
                                                    fetch: string -> Result<AgentCard, AgentError>)
    ensures var after := CacheAfterAll(cache, urls, fetch);
      && (forall u :: u in cache ==> u in after && after[u] == cache[u])
      && (forall u :: u in after <==> u in cache || (u in urls && fetch(u).Ok?))
      && (forall u :: u in after && u !in cache ==> after[u] == Connection(fetch(u).value, u))
    decreases |urls|
  {
    if urls != [] {
      var next := CacheAfter(cache, urls[0], fetch);
      CacheEntriesInsertedOnce(next, urls[1..], fetch);
      assert forall u :: u in urls <==> u == urls[0] || u in urls[1..];
    }
  }

  class A2AHost {
    /** Agent url -> connection. */
    var connections: map<string, Connection>

    constructor()
      ensures connections == map[]
    {
      connections := map[];
    }

    /** `get_or_create_connection`: a cached url is returned as it is; an
        uncached one gets one new entry built from its fetched card. A failed
        fetch raises and changes nothing. */
    method GetOrCreateConnection(url: string, fetch: string -> Result<AgentCard, AgentError>)
      returns (r: Result<Connection, AgentError>)
      modifies this
      ensures connections == CacheAfter(old(connections), url, fetch)
      ensures url in old(connections) ==> r == Ok(old(connections)[url])
      ensures url !in old(connections) ==>
        match fetch(url)
        case Ok(card) => r == Ok(Connection(card, url))
        case Err(e) => r == Err(e)
    {
      if url !in connections {
        var card := fetch(url);
        if card.Err? {
          return Err(card.error);
        }
        var conn := Connection(card.value, url);
        connections := connections[url := conn];
      }
      r := Ok(connections[url]);
    }

    /** `get_agent_capabilities`: streaming and polling without push for a
        cached url, nothing for any other. */
    function GetAgentCapabilities(url: string): (caps: Capabilities)
      reads this
      ensures caps.streaming <==> url in connections
      ensures caps.polling <==> url in connections
      ensures !caps.push
    {
      if url in connections then Capabilities(true, true, false) else Capabilities(false, false, false)
    }

    /** `stream_agent`: the connection is looked up first (a failed fetch
        raises before anything is yielded); then each chunk yields one item,
        as `StreamItems` says. */
    method StreamAgent(url: string, fetch: string -> Result<AgentCard, AgentError>,
                       chunks: seq<Chunk>, failure: Option<AgentError>,
                       uuidAt: nat -> string, pyStr: Json -> string)
      returns (r: Result<seq<Json>, AgentError>)
      modifies this
      ensures connections == CacheAfter(old(connections), url, fetch)
      ensures r.Err? <==> url !in old(connections) && fetch(url).Err?
      ensures r.Err? ==> r == Err(fetch(url).error)
      ensures r.Ok? ==> r.value == StreamItems(chunks, failure, uuidAt, pyStr)
    {
      var conn := GetOrCreateConnection(url, fetch);
      if conn.Err? {
        return Err(conn.error);
      }
      var items := StreamChunks(chunks, failure, uuidAt, pyStr);
      r := Ok(items);
    }
  }

  // ---------------------------------------------------------------------------
  // Streaming.

  /** A chunk of the stream: an error response, a success response with a
      result, a response with neither, or a raw value of the named Python
      type that is not a response at all. */
  datatype Chunk =
    | ErrorChunk(error: AgentError)
    | ResultChunk(result: AgentResult)
    | EmptyChunk
    | RawChunk(typeName: string)

  /** The `AttributeError` that `chunk.root` raises on a raw value. */
  function NoRootError(typeName: string): AgentError
  {
    AgentError("'" + typeName + "' object has no attribute 'root'", None)
  }

  /** What one chunk yields, and whether the stream stops after it. */
  function ChunkItem(chunk: Chunk, uuid: string, pyStr: Json -> string): (item: (Json, bool))
  {
    match chunk
    case ErrorChunk(e) => (ConvertErrorToA2ui(e, uuid), false)
    case ResultChunk(res) => (Obj(OutputDict(ResponseText(res))), false)
    case EmptyChunk =>
      ConvertOutputDict("", uuid, pyStr);
      (ConvertToA2ui(OutputDict(""), uuid, pyStr).value, false)
    case RawChunk(t) => (ConvertErrorToA2ui(NoRootError(t), uuid), true)
  }

  /** The items a loop yields that, at step `i`, yields `steps[i].0` and
      stops when `steps[i].1` holds; when it runs through every step, it ends
      with `last`. */
  function Yielded<T>(steps: seq<(T, bool)>, last: seq<T>, from: nat): seq<T>
    decreases |steps| - from
  {
    if from >= |steps| then last
    else [steps[from].0] + (if steps[from].1 then [] else Yielded(steps, last, from + 1))
  }

  /** Each chunk's item and stop flag; the uuid drawn for chunk `i` is `uuidAt(i)`. */
  function ChunkSteps(chunks: seq<Chunk>, uuidAt: nat -> string, pyStr: Json -> string): (steps: seq<(Json, bool)>)
    ensures |steps| == |chunks|
    ensures forall i :: 0 <= i < |chunks| ==> steps[i] == ChunkItem(chunks[i], uuidAt(i), pyStr)
  {
    seq(|chunks|, i requires 0 <= i < |chunks| => ChunkItem(chunks[i], uuidAt(i), pyStr))
  }

  /** The error envelope of a stream that fails after its last chunk. */
  function FailureItems(failure: Option<AgentError>, uuid: string): seq<Json>
  {
    if failure.Some? then [ConvertErrorToA2ui(failure.value, uuid)] else []
  }

  /** What `stream_agent` yields once its connection is open. */
  function StreamItems(chunks: seq<Chunk>, failure: Option<AgentError>,
                       uuidAt: nat -> string, pyStr: Json -> string): seq<Json>
  {
    Yielded(ChunkSteps(chunks, uuidAt, pyStr), FailureItems(failure, uuidAt(|chunks|)), 0)
  }

  /** Lines 162-177: what one chunk yields, and whether the stream stops
      after it. */
  method DispatchChunk(chunk: Chunk, uuid: string, pyStr: Json -> string) returns (item: Json, stop: bool)
    ensures (item, stop) == ChunkItem(chunk, uuid, pyStr)
  {
    stop := false;
    match chunk
    case ErrorChunk(e) =>
      item := ConvertErrorToA2ui(e, uuid);
    case ResultChunk(res) =>
      var out := ProcessResponse(res);
      item := Obj(out);
    case EmptyChunk =>
      ConvertOutputDict("", uuid, pyStr);
      var env := ConvertToA2ui(OutputDict(""), uuid, pyStr);
      item := env.value;
    case RawChunk(t) =>
      // `chunk.root` raises; the handler yields the error and the stream ends.
      item := ConvertErrorToA2ui(NoRootError(t), uuid);
      stop := true;
  }

  /** Lines 159-180: the loop over the chunks. */
  method StreamChunks(chunks: seq<Chunk>, failure: Option<AgentError>,
                      uuidAt: nat -> string, pyStr: Json -> string)
    returns (items: seq<Json>)
    ensures items == StreamItems(chunks, failure, uuidAt, pyStr)
  {
    ghost var steps := ChunkSteps(chunks, uuidAt, pyStr);
    ghost var last := FailureItems(failure, uuidAt(|chunks|));
    items := [];
    var i := 0;
    while i < |chunks|
      invariant 0 <= i <= |chunks|
      invariant items + Yielded(steps, last, i) == Yielded(steps, last, 0)
    {
      var item, stop := DispatchChunk(chunks[i], uuidAt(i), pyStr);
      YieldStep(steps, last, items, i, item, stop);
      if stop {
        return items + [item];
      }
      items := items + [item];
      i := i + 1;
    }
    if failure.Some? {
      items := items + [ConvertErrorToA2ui(failure.value, uuidAt(i))];
    }
  }

  /** One turn of a loop that yields `Yielded(steps, last, 0)`: after
      yielding step `i`'s item, the items so far and what the remaining steps
      yield still make up the whole. */
  lemma YieldStep<T>(steps: seq<(T, bool)>, last: seq<T>, items: seq<T>, i: nat, item: T, stop: bool)
    requires i < |steps| && steps[i] == (item, stop)
    requires items + Yielded(steps, last, i) == Yielded(steps, last, 0)
    ensures stop ==> items + [item] == Yielded(steps, last, 0)
    ensures !stop ==> (items + [item]) + Yielded(steps, last, i + 1) == Yielded(steps, last, 0)
  {
    assert Yielded(steps, last, i) == [item] + (if stop then [] else Yielded(steps, last, i + 1));
    if !stop {
      assert (items + [item]) + Yielded(steps, last, i + 1) == items + ([item] + Yielded(steps, last, i + 1));
    }
  }

  /** A loop whose steps do not stop yields one item per step, in order, and
      then `last`. */
  lemma {:induction false} YieldedWithoutStop<T>(steps: seq<(T, bool)>, last: seq<T>, from: nat)
    requires from <= |steps|
    requires forall i :: from <= i < |steps| ==> !steps[i].1
    ensures var items := Yielded(steps, last, from);
      && |items| == |steps| - from + |last|
      && (forall i :: 0 <= i < |steps| - from ==> items[i] == steps[from + i].0)
      && items[|steps| - from..] == last
    decreases |steps| - from
  {
    if from < |steps| {
      YieldedWithoutStop(steps, last, from + 1);
      var rest := Yielded(steps, last, from + 1);
      var items := Yielded(steps, last, from);
      assert items == [steps[from].0] + rest;
      forall i | 1 <= i < |steps| - from ensures items[i] == steps[from + i].0 {
        assert items[i] == rest[i - 1];
      }
      assert items[|steps| - from..] == rest[|steps| - (from + 1)..];
    }
  }

  /** A loop yields the items of the steps before its first stopping step,
      then that step's item, and nothing after. */
  lemma {:induction false} YieldedUntilStop<T>(steps: seq<(T, bool)>, last: seq<T>, from: nat, k: nat)
    requires from <= k < |steps| && steps[k].1
    requires forall i :: from <= i < k ==> !steps[i].1
    ensures var items := Yielded(steps, last, from);
      && |items| == k - from + 1
      && forall i :: 0 <= i <= k - from ==> items[i] == steps[from + i].0
    decreases k - from
  {
    if from < k {
      YieldedUntilStop(steps, last, from + 1, k);
      var rest := Yielded(steps, last, from + 1);
      var items := Yielded(steps, last, from);
      assert items == [steps[from].0] + rest;
      forall i | 1 <= i <= k - from ensures items[i] == steps[from + i].0 {
        assert items[i] == rest[i - 1];
      }
    }
  }

  /** Without raw chunks, the stream yields exactly one item per chunk, each
      the chunk's own item, then one error envelope if the stream fails at
      the end: an error chunk does not end the stream. */
  lemma OneItemPerChunk(chunks: seq<Chunk>, failure: Option<AgentError>,
                        uuidAt: nat -> string, pyStr: Json -> string)
    requires forall i :: 0 <= i < |chunks| ==> !chunks[i].RawChunk?
    ensures var items := StreamItems(chunks, failure, uuidAt, pyStr);
      && |items| == |chunks| + (if failure.Some? then 1 else 0)
      && (forall i :: 0 <= i < |chunks| ==> items[i] == ChunkItem(chunks[i], uuidAt(i), pyStr).0)
      && (failure.Some? ==> items[|chunks|] == ConvertErrorToA2ui(failure.value, uuidAt(|chunks|)))
  {
    var steps := ChunkSteps(chunks, uuidAt, pyStr);
    forall i | 0 <= i < |steps| ensures !steps[i].1 {
      ChunkStopsOnlyWhenRaw(chunks[i], uuidAt(i), pyStr);
    }
    var last := FailureItems(failure, uuidAt(|chunks|));
    YieldedWithoutStop(steps, last, 0);
    var items := Yielded(steps, last, 0);
    assert items == StreamItems(chunks, failure, uuidAt, pyStr);
    forall i | 0 <= i < |chunks| ensures items[i] == ChunkItem(chunks[i], uuidAt(i), pyStr).0 {
      assert items[i] == steps[i].0;
    }
    if failure.Some? {
      assert items[|chunks|] == items[|chunks|..][0] == last[0];
    }
  }

  /** A raw chunk ends the stream: the items are those of the chunks before
      it, then the `AttributeError` envelope, and nothing after. */
  lemma RawChunkEndsStream(chunks: seq<Chunk>, failure: Option<AgentError>,
                           uuidAt: nat -> string, pyStr: Json -> string, k: nat)
    requires k < |chunks| && chunks[k].RawChunk?
    requires forall i :: 0 <= i < k ==> !chunks[i].RawChunk?
    ensures var items := StreamItems(chunks, failure, uuidAt, pyStr);
      && |items| == k + 1
      && (forall i :: 0 <= i < k ==> items[i] == ChunkItem(chunks[i], uuidAt(i), pyStr).0)
      && items[k] == ConvertErrorToA2ui(NoRootError(chunks[k].typeName), uuidAt(k))
  {
    var steps := ChunkSteps(chunks, uuidAt, pyStr);
    var items := StreamItems(chunks, failure, uuidAt, pyStr);
    assert |items| == k + 1 && forall i :: 0 <= i <= k ==> items[i] == steps[i].0 by {
      forall i | 0 <= i <= k ensures steps[i].1 == chunks[i].RawChunk? {
        ChunkStopsOnlyWhenRaw(chunks[i], uuidAt(i), pyStr);
      }
      YieldedUntilStop(steps, FailureItems(failure, uuidAt(|chunks|)), 0, k);
    }
    RawChunkItem(chunks[k], uuidAt(k), pyStr);
  }

  lemma RawChunkItem(chunk: Chunk, uuid: string, pyStr: Json -> string)
    requires chunk.RawChunk?
    ensures ChunkItem(chunk, uuid, pyStr).0 == ConvertErrorToA2ui(NoRootError(chunk.typeName), uuid)
  {
  }

  lemma ChunkStopsOnlyWhenRaw(chunk: Chunk, uuid: string, pyStr: Json -> string)
    ensures ChunkItem(chunk, uuid, pyStr).1 <==> chunk.RawChunk?
  {
  }
}
