/** `A2UIGenerator` of backend/core/a2ui_generator.py: builds the prompt,
    cleans the model's reply, makes sure every generated component has an id,
    and wraps the components in an envelope whose root lists them in order.
    The model call and `json.loads` are parameters. */
module Generator {
  import opened Wrappers
  import opened Json
  import opened Strings
  import opened Surface

  // ---------------------------------------------------------------------------
  // The prompt.

  /** The values `USER_PROMPT_TEMPLATE.format(...)` substitutes into the prompt. */
  datatype Prompt = Prompt(textContent: string, msgType: Json, toolName: Json, role: Json, targetId: string)

  const PromptTextLimit: nat := 1500

  /** `message_id or f"msg_{uuid.uuid4()}"`: an absent or empty message id
      is replaced by a fresh one. */
  function TargetId(messageId: Option<string>, uuid: string): (id: string)
    ensures messageId.Some? && messageId.value != "" ==> id == messageId.value
    ensures messageId.None? || messageId.value == "" ==> id == "msg_" + uuid
  {
    if messageId.Some? && messageId.value != "" then messageId.value else "msg_" + uuid
  }

  /** The prompt of `generate_components`: the content cut to its first 1500
      characters, the metadata's type, tool and role with their defaults, and
      the target id. */
  function BuildPrompt(text: string, metadata: Fields, messageId: Option<string>, uuid: string): (p: Prompt)
    ensures |p.textContent| <= PromptTextLimit && |p.textContent| <= |text|
    ensures p.textContent == text[..|p.textContent|]
    ensures |text| <= PromptTextLimit ==> p.textContent == text
    ensures |text| >= PromptTextLimit ==> |p.textContent| == PromptTextLimit
    ensures !HasKey(metadata, "type") ==> p.msgType == Str("message")
    ensures !HasKey(metadata, "tool_name") ==> p.toolName == Str("N/A")
    ensures !HasKey(metadata, "role") ==> p.role == Str("agent")
    ensures HasKey(metadata, "type") ==> Some(p.msgType) == Get(metadata, "type")
    ensures HasKey(metadata, "tool_name") ==> Some(p.toolName) == Get(metadata, "tool_name")
    ensures HasKey(metadata, "role") ==> Some(p.role) == Get(metadata, "role")
    ensures p.targetId == TargetId(messageId, uuid)
  {
    GetFinds(metadata, "type");
    GetFinds(metadata, "tool_name");
    GetFinds(metadata, "role");
    Prompt(
      Take(text, PromptTextLimit),
      GetOr(metadata, "type", Str("message")),
      GetOr(metadata, "tool_name", Str("N/A")),
      GetOr(metadata, "role", Str("agent")),
      TargetId(messageId, uuid))
  }

  // ---------------------------------------------------------------------------
  // Cleaning the reply.

  const Fence := "```"
  const JsonFence := "```json"

  /** `s.split(sep)[0]`: `s` up to the first occurrence of `sep`. */
  function Before(s: string, sep: string): (r: string)
    requires sep != ""
    ensures |r| <= |s| && r == s[..|r|]
    ensures !Contains(r, sep)
    ensures Contains(s, sep) ==> Find(s, sep) == Some(|r|)
    ensures !Contains(s, sep) ==> r == s
  {
    match Find(s, sep)
    case Some(i) =>
      var r := s[..i];
      assert forall k :: OccursAt(r, sep, k) ==> OccursAt(s, sep, k) by {
        forall k | OccursAt(r, sep, k) ensures OccursAt(s, sep, k) {
          assert s[k..k + |sep|] == r[k..k + |sep|];
        }
      }
      r
    case None => s
  }

  /** `s.split(sep)[1]` for an `s` that contains `sep`: what follows the
      first occurrence of `sep`, up to the next one. */
  function Second(s: string, sep: string): string
    requires sep != "" && Contains(s, sep)
  {
    Before(s[Find(s, sep).value + |sep|..], sep)
  }

  /** `pat` occurs in a suffix `s[start..]` exactly where it occurs in `s`. */
  lemma OccursInSuffix(s: string, start: nat, pat: string, k: nat)
    requires start <= |s|
    ensures OccursAt(s[start..], pat, k) == OccursAt(s, pat, start + k)
  {
    if k + |pat| <= |s| - start {
      assert s[start..][k..k + |pat|] == s[start + k..start + k + |pat|];
    }
  }

  /** What `Second` is: the slice of `s` from just after the first `sep` to
      the next `sep` or the end, with no `sep` starting inside it. */
  lemma SecondPiece(s: string, sep: string)
    requires sep != "" && Contains(s, sep)
    ensures var start := Find(s, sep).value + |sep|;
      var r := Second(s, sep);
      && start + |r| <= |s| && r == s[start..start + |r|]
      && (forall k :: start <= k < start + |r| ==> !OccursAt(s, sep, k))
      && (start + |r| == |s| || OccursAt(s, sep, start + |r|))
  {
    var start := Find(s, sep).value + |sep|;
    assert Second(s, sep) == Before(s[start..], sep);
    SuffixPiece(s, start, sep);
  }

  /** A suffix of `s` cut at its first `sep` is a slice of `s` with no `sep`
      starting inside it, followed by `sep` or by the end of `s`. */
  lemma SuffixPiece(s: string, start: nat, sep: string)
    requires sep != "" && start <= |s|
    ensures var r := Before(s[start..], sep);
      && start + |r| <= |s| && r == s[start..start + |r|]
      && (forall k :: start <= k < start + |r| ==> !OccursAt(s, sep, k))
      && (start + |r| == |s| || OccursAt(s, sep, start + |r|))
  {
    var rest := s[start..];
    var r := Before(rest, sep);
    forall k | start <= k < start + |r| ensures !OccursAt(s, sep, k) {
      OccursInSuffix(s, start, sep, k - start);
    }
    if Contains(rest, sep) {
      OccursInSuffix(s, start, sep, |r|);
    }
  }

  /** The markdown-fence removal of `generate_components`. A reply with a
      fence keeps only the first fenced block, which holds no fence. */
  function StripFences(content: string): (r: string)
    ensures !Contains(content, Fence) ==> r == content
    ensures Contains(content, Fence) ==> !Contains(r, Fence)
  {
    if Contains(content, JsonFence) then
      assert Contains(content, Fence) by { JsonFenceIsFence(content); }
      Before(Second(content, JsonFence), Fence)
    else if Contains(content, Fence) then Before(Second(content, Fence), Fence)
    else content
  }

  /** Where an opening ```json occurs, a plain fence occurs too. */
  lemma JsonFenceStartsWithFence(s: string, k: int)
    ensures OccursAt(s, JsonFence, k) ==> OccursAt(s, Fence, k)
  {
    if OccursAt(s, JsonFence, k) {
      assert s[k..k + 3] == s[k..k + 7][..3];
    }
  }

  lemma JsonFenceIsFence(s: string)
    requires Contains(s, JsonFence)
    ensures Contains(s, Fence)
  {
    JsonFenceStartsWithFence(s, Find(s, JsonFence).value);
  }

  /** The block a reply keeps starts right after its first ```json, or after
      its first plain fence when it has no ```json.
      With a ```json, the block lies in the piece that ends at the next
      ```json or at the end (`j` below, see `SecondPiece`): it runs up to the
      first fence lying wholly inside that piece, or to the piece's end.
      Without one, it runs up to the next fence or to the end of the reply.
      In both cases no fence starts inside the kept part of the piece. */
  lemma StripFencesKeptBlock(content: string)
    ensures Contains(content, JsonFence) ==>
      var start := Find(content, JsonFence).value + |JsonFence|;
      var j := start + |Second(content, JsonFence)|;
      var r := StripFences(content);
      && start + |r| <= j && r == content[start..start + |r|]
      && (forall k :: start <= k < start + |r| && k + |Fence| <= j ==> !OccursAt(content, Fence, k))
      && (start + |r| == j || (start + |r| + |Fence| <= j && OccursAt(content, Fence, start + |r|)))
    ensures !Contains(content, JsonFence) && Contains(content, Fence) ==>
      var start := Find(content, Fence).value + |Fence|;
      var r := StripFences(content);
      && start + |r| <= |content| && r == content[start..start + |r|]
      && (forall k :: start <= k < start + |r| ==> !OccursAt(content, Fence, k))
      && (start + |r| == |content| || OccursAt(content, Fence, start + |r|))
  {
    if Contains(content, JsonFence) {
      KeptJsonBlock(content);
    } else if Contains(content, Fence) {
      KeptPlainBlock(content);
    }
  }

  lemma KeptJsonBlock(content: string)
    requires Contains(content, JsonFence)
    ensures var start := Find(content, JsonFence).value + |JsonFence|;
      var j := start + |Second(content, JsonFence)|;
      var r := StripFences(content);
      && start + |r| <= j && r == content[start..start + |r|]
      && (forall k :: start <= k < start + |r| && k + |Fence| <= j ==> !OccursAt(content, Fence, k))
      && (start + |r| == j || (start + |r| + |Fence| <= j && OccursAt(content, Fence, start + |r|)))
  {
    assert StripFences(content) == Before(Second(content, JsonFence), Fence) by {
      JsonFenceIsFence(content);
    }
    CutSecond(content, JsonFence);
  }

  lemma KeptPlainBlock(content: string)
    requires !Contains(content, JsonFence) && Contains(content, Fence)
    ensures var start := Find(content, Fence).value + |Fence|;
      var r := StripFences(content);
      && start + |r| <= |content| && r == content[start..start + |r|]
      && (forall k :: start <= k < start + |r| ==> !OccursAt(content, Fence, k))
      && (start + |r| == |content| || OccursAt(content, Fence, start + |r|))
  {
    assert StripFences(content) == Before(Second(content, Fence), Fence);
    SecondPiece(content, Fence);
    CutSecond(content, Fence);
  }

  /** What follows the first `sep`, cut at the next `sep` and then at the
      first fence. */
  lemma CutSecond(content: string, sep: string)
    requires sep != "" && Contains(content, sep)
    ensures var start := Find(content, sep).value + |sep|;
      var j := start + |Second(content, sep)|;
      var r := Before(Second(content, sep), Fence);
      && start + |r| <= j && r == content[start..start + |r|]
      && (forall k :: start <= k < start + |r| && k + |Fence| <= j ==> !OccursAt(content, Fence, k))
      && (start + |r| == j || (start + |r| + |Fence| <= j && OccursAt(content, Fence, start + |r|)))
  {
    var start := Find(content, sep).value + |sep|;
    SecondPiece(content, sep);
    var piece := Second(content, sep);
    CutInPiece(content, start, start + |piece|, piece);
  }

  /** The slice `content[start:j]` cut at its first fence ends at a fence
      lying wholly inside the slice, or at `j`; no fence lying wholly inside
      the slice starts before the cut. */
  lemma CutInPiece(content: string, start: nat, j: nat, piece: string)
    requires start <= j <= |content| && piece == content[start..j]
    ensures var r := Before(piece, Fence);
      && start + |r| <= j && r == content[start..start + |r|]
      && (forall k :: start <= k < start + |r| && k + |Fence| <= j ==> !OccursAt(content, Fence, k))
      && (start + |r| == j || (start + |r| + |Fence| <= j && OccursAt(content, Fence, start + |r|)))
  {
    var r := Before(piece, Fence);
    assert r == content[start..start + |r|];
    forall k | start <= k < start + |r| && k + |Fence| <= j ensures !OccursAt(content, Fence, k) {
      SliceOccurs(content, start, j, Fence, k - start);
    }
    if Contains(piece, Fence) {
      SliceOccurs(content, start, j, Fence, |r|);
    }
  }

  /** `pat` occurs in the slice `s[a:b]` at `k` exactly where it occurs in `s`
      at `a + k`, when it fits inside the slice. */
  lemma SliceOccurs(s: string, a: nat, b: nat, pat: string, k: nat)
    requires a <= b <= |s| && a + k + |pat| <= b
    ensures OccursAt(s[a..b], pat, k) == OccursAt(s, pat, a + k)
  {
    var x, y := s[a..b][k..k + |pat|], s[a + k..a + k + |pat|];
    assert forall i :: 0 <= i < |x| ==> x[i] == y[i];
    assert x == y;
  }

  /** The content `json.loads` receives: the fences removed, then stripped. */
  function Sanitize(content: string): (r: string)
    ensures !Contains(content, Fence) ==> r == Strip(content)
    ensures r == [] || (!IsSpace(r[0]) && !IsSpace(r[|r| - 1]))
  {
    Strip(StripFences(content))
  }

  /** `pat` occurs at the end of `s + pat`. */
  lemma OccursAtEnd(s: string, pat: string)
    ensures OccursAt(s + pat, pat, |s|)
  {
    assert (s + pat)[|s|..] == pat;
  }

  /** The first occurrence is at `i` when one is there and none is before it. */
  lemma FindAt(s: string, pat: string, start: nat, i: nat)
    requires start <= i && OccursAt(s, pat, i)
    requires forall k :: start <= k < i ==> !OccursAt(s, pat, k)
    ensures FindFrom(s, pat, start) == Some(i)
  {
  }

  /** A pattern first found in a prefix `w` of `c` is first found in `c` at
      the same place. */
  lemma FindInPrefix(c: string, w: string, pat: string)
    requires |w| <= |c| && c[..|w|] == w && Find(w, pat).Some?
    ensures Find(c, pat) == Find(w, pat)
  {
    var i := Find(w, pat).value;
    forall k | 0 <= k <= i ensures OccursAt(c, pat, k) == OccursAt(w, pat, k) {
      if k + |pat| <= |c| {
        var x, y := c[k..k + |pat|], w[k..k + |pat|];
        assert forall j :: 0 <= j < |x| ==> x[j] == y[j];
        assert x == y;
      }
    }
    FindAt(c, pat, 0, i);
  }

  /** After a body holding no fence and its closing fence, the first ```json
      starts right after the body or at least three characters past it, as
      long as no backtick follows the closing fence. */
  lemma NextJsonFence(t: string, body: string, post: string)
    requires t == body + Fence + post
    requires Find(body + Fence, Fence) == Some(|body|) && (post == [] || post[0] != '`')
    ensures Find(t, JsonFence).None? || Find(t, JsonFence).value == |body| ||
      Find(t, JsonFence).value >= |body| + 3
  {
    var b := |body|;
    assert t[..b + 3] == body + Fence;
    FindInPrefix(t, body + Fence, Fence);
    forall k | 0 <= k < b ensures !OccursAt(t, JsonFence, k) {
      JsonFenceStartsWithFence(t, k);
    }
    if post != [] {
      assert t[b + 3] == post[0];
    }
    forall k | k == b + 1 || k == b + 2 ensures !OccursAt(t, JsonFence, k) {
      if k + 7 <= |t| {
        assert t[k..k + 7][3 - (k - b)] == t[b + 3];
      }
    }
  }

  /** A segment that starts with a fence-free body and ends right there or
      goes on with a fence is cut at its first fence back to the body. */
  lemma CutAtFence(seg: string, body: string)
    requires Find(body + Fence, Fence) == Some(|body|) && |body| <= |seg| && seg[..|body|] == body
    requires |seg| == |body| || (|seg| >= |body| + 3 && seg[|body|..|body| + 3] == Fence)
    ensures Before(seg, Fence) == body
  {
    forall k | 0 <= k < |body| ensures !OccursAt(seg, Fence, k) {
      if k + 3 <= |seg| {
        assert forall j :: k <= j < k + 3 ==> seg[j] == (body + Fence)[j];
        assert seg[k..k + 3] == (body + Fence)[k..k + 3];
      }
      assert !OccursAt(body + Fence, Fence, k);
    }
    if |seg| == |body| {
      assert seg == body;
    } else {
      FindAt(seg, Fence, 0, |body|);
    }
  }

  /** A reply wrapped in a ```json fence gives back exactly the fenced body,
      whatever precedes and follows the block, when (1) the opening fence is
      the first ```json of the reply, (2) the body holds no ``` (not even one
      that runs into the closing fence), and (3) no backtick follows the
      closing fence. */
  lemma {:induction false} JsonFenceRoundTrip(pre: string, body: string, post: string)
    requires Find(pre + JsonFence, JsonFence) == Some(|pre|)
    requires Find(body + Fence, Fence) == Some(|body|)
    requires post == [] || post[0] != '`'
    ensures StripFences(pre + JsonFence + body + Fence + post) == body
    ensures Sanitize(pre + JsonFence + body + Fence + post) == Strip(body)
  {
    var t := body + Fence + post;
    var c := pre + JsonFence + body + Fence + post;
    assert c[..|pre| + 7] == pre + JsonFence;
    FindInPrefix(c, pre + JsonFence, JsonFence);
    assert c[|pre| + 7..] == t;
    assert Second(c, JsonFence) == Before(t, JsonFence);
    JsonBlockBody(t, body, post);
  }

  /** The text after the opening ```json, cut at the next ```json and then at
      the first fence, is the body. */
  lemma JsonBlockBody(t: string, body: string, post: string)
    requires t == body + Fence + post
    requires Find(body + Fence, Fence) == Some(|body|) && (post == [] || post[0] != '`')
    ensures Before(Before(t, JsonFence), Fence) == body
  {
    NextJsonFence(t, body, post);
    var seg := Before(t, JsonFence);
    assert seg == t[..|seg|];
    BlockBeforeFence(t, body, post, |seg|);
  }

  /** The block cut anywhere after the body's closing fence, or right at its
      end, is cut again at its first fence, which leaves the body. */
  lemma BlockBeforeFence(t: string, body: string, post: string, m: nat)
    requires t == body + Fence + post && Find(body + Fence, Fence) == Some(|body|)
    requires m == |body| || |body| + 3 <= m <= |t|
    ensures Before(t[..m], Fence) == body
  {
    var seg := t[..m];
    assert seg[..|body|] == body;
    if m > |body| {
      assert seg[|body|..|body| + 3] == t[|body|..|body| + 3] == Fence;
    }
    CutAtFence(seg, body);
  }

  /** A reply wrapped in a plain ``` fence gives back exactly the fenced body,
      whatever precedes and follows the block, when (1) the opening fence is
      the first ``` of the reply, (2) the body holds no ``` (not even one that
      runs into the closing fence), and (3) the reply holds no ```json. */
  lemma {:induction false} FenceRoundTrip(pre: string, body: string, post: string)
    requires Find(pre + Fence, Fence) == Some(|pre|)
    requires Find(body + Fence, Fence) == Some(|body|)
    requires !Contains(pre + Fence + body + Fence + post, JsonFence)
    ensures StripFences(pre + Fence + body + Fence + post) == body
    ensures Sanitize(pre + Fence + body + Fence + post) == Strip(body)
  {
    var c := pre + Fence + body + Fence + post;
    var t := body + Fence + post;
    assert c[..|pre| + 3] == pre + Fence;
    FindInPrefix(c, pre + Fence, Fence);
    assert c[|pre| + 3..] == t;
    assert t[..|body| + 3] == body + Fence;
    FindInPrefix(t, body + Fence, Fence);
    assert Second(c, Fence) == t[..|body|] == body;
    CutAtFence(body, body);
  }

  /** Inline code in the prose before the block and in the block itself
      does not disturb the cut: "`x` ```json`y` ```" keeps "`y` ". */
  lemma InlineCodeAroundBlock()
    ensures StripFences("`x` " + JsonFence + "`y` " + Fence) == "`y` "
  {
    var pre, body := "`x` ", "`y` ";
    forall k | 0 <= k < |pre| ensures !OccursAt(pre + JsonFence, JsonFence, k) {
      var j := if k % 2 == 0 then 1 else 0;
      assert (pre + JsonFence)[k..k + 7][j] != JsonFence[j];
    }
    OccursAtEnd(pre, JsonFence);
    FindAt(pre + JsonFence, JsonFence, 0, |pre|);
    forall k | 0 <= k < |body| ensures !OccursAt(body + Fence, Fence, k) {
      var j := if k % 2 == 0 then 1 else 0;
      assert (body + Fence)[k..k + 3][j] != Fence[j];
    }
    OccursAtEnd(body, Fence);
    FindAt(body + Fence, Fence, 0, |body|);
    JsonFenceRoundTrip(pre, body, "");
    assert pre + JsonFence + body + Fence + "" == "`x` " + JsonFence + "`y` " + Fence;
  }

  // ---------------------------------------------------------------------------
  // Checking the generated components.

  /** The exceptions `generate_components` and `generate_envelope` raise:
      the model call failing, `json.loads` failing, and the `AttributeError`,
      `TypeError`, `IndexError` and `KeyError` of their dictionary accesses. */
  datatype GenError = LlmFailed | DecodeError | AttributeError | TypeError | IndexError | KeyError

  /** The logged type of a component: a name, or Python's `str()` of a
      `"component"` value that is neither an object nor a string. */
  datatype TypeTag = Tag(name: string) | StrOf(value: Json)

  /** Python's `"id" in comp` for each kind of JSON value (`None` when the
      test itself raises). */
  function PyIn(key: string, comp: Json): Option<bool>
  {
    match comp
    case Obj(fields) => Some(HasKey(fields, key))
    case Str(s) => Some(Contains(s, key))
    case Arr(items) => Some(Str(key) in items)
    case _ => None
  }

  /** Lines 187-188: a component object without `"id"` gets
      `"gen_" + uuid`; a string or list that passes the `in` test is left as
      it is; anything else raises `TypeError`. */
  function EnsureId(comp: Json, uuid: string): (r: Result<Json, GenError>)
    ensures r.Ok? ==> PyIn("id", r.value) == Some(true)
    ensures r.Ok? && comp.Obj? ==> r.value.Obj?
    ensures r.Ok? && comp.Obj? && HasKey(comp.fields, "id") ==> r.value == comp
    ensures comp.Obj? ==> r.Ok?
    ensures r.Ok? && !comp.Obj? ==> r.value == comp
    ensures !comp.Obj? ==> (r.Ok? <==> PyIn("id", comp) == Some(true))
    ensures r.Err? ==> r.error == TypeError
  {
    match comp
    case Obj(fields) =>
      if HasKey(fields, "id") then Ok(comp)
      else
        assert (fields + [("id", Str("gen_" + uuid))])[|fields|].0 == "id";
        Ok(Obj(fields + [("id", Str("gen_" + uuid))]))
    case _ =>
      if PyIn("id", comp) == Some(true) then Ok(comp) else Err(TypeError)
  }

  /** Lines 191-197: the first key of a nested `"component"` object, the
      string itself for a string, `"Unknown"` when there is no `"component"`. */
  function TypeTagOf(comp: Json): (r: Result<TypeTag, GenError>)
    ensures PyIn("component", comp) == Some(false) ==> r == Ok(Tag("Unknown"))
    ensures comp.Obj? && Get(comp.fields, "component") == Some(Obj([])) ==> r == Err(IndexError)
    ensures comp.Obj? && r.Ok? && r.value.Tag? && Get(comp.fields, "component").Some? ==>
      TypeName(comp) == Some(r.value.name)
    ensures comp.Obj? && TypeName(comp).Some? ==> r == Ok(Tag(TypeName(comp).value))
  {
    match comp
    case Obj(fields) =>
      GetFinds(fields, "component");
      (match Get(fields, "component")
       case None => Ok(Tag("Unknown"))
       case Some(Obj(inner)) => if inner == [] then Err(IndexError) else Ok(Tag(inner[0].0))
       case Some(Str(name)) => Ok(Tag(name))
       case Some(other) => Ok(StrOf(other)))
    case _ =>
      // A string or list that contains "component" cannot be subscripted by it.
      if PyIn("component", comp) == Some(false) then Ok(Tag("Unknown")) else Err(TypeError)
  }

  /** One pass of the validation loop. */
  function CheckComponent(comp: Json, uuid: string): Result<(Json, TypeTag), GenError>
  {
    match EnsureId(comp, uuid)
    case Err(e) => Err(e)
    case Ok(c) =>
      match TypeTagOf(c)
      case Err(e) => Err(e)
      case Ok(tag) => Ok((c, tag))
  }

  /** The components after the validation loop, or the first exception it
      raises; the uuid drawn for component `i` is `uuidAt(i)`. */
  function Checked(comps: seq<Json>, uuidAt: nat -> string): (r: Result<seq<Json>, GenError>)
    ensures r.Ok? <==> forall i :: 0 <= i < |comps| ==> CheckComponent(comps[i], uuidAt(i)).Ok?
    ensures r.Ok? ==> (|r.value| == |comps| &&
      forall i :: 0 <= i < |comps| ==> r.value[i] == CheckComponent(comps[i], uuidAt(i)).value.0)
  {
    if comps == [] then Ok([])
    else
      var n := |comps| - 1;
      assert forall i :: 0 <= i < n ==> comps[..n][i] == comps[i];
      match Checked(comps[..n], uuidAt)
      case Err(e) => Err(e)
      case Ok(done) =>
        match CheckComponent(comps[n], uuidAt(n))
        case Err(e) => Err(e)
        case Ok(checked) => Ok(done + [checked.0])
  }

  /** After the validation loop every component has an id: a component object
      that had one keeps it and its other entries, one that had none gets
      `"gen_"` followed by its uuid, and the other entries are unchanged. */
  lemma CheckedComponentsHaveIds(comps: seq<Json>, uuidAt: nat -> string, i: nat, key: string)
    requires Checked(comps, uuidAt).Ok? && i < |comps|
    ensures var c := Checked(comps, uuidAt).value[i];
      && PyIn("id", c) == Some(true)
      && (comps[i].Obj? && HasKey(comps[i].fields, "id") ==> c == comps[i])
      && (comps[i].Obj? && !HasKey(comps[i].fields, "id") ==>
            c.Obj? && Get(c.fields, "id") == Some(Str("gen_" + uuidAt(i))) &&
            (key != "id" ==> Get(c.fields, key) == Get(comps[i].fields, key)))
      && (!comps[i].Obj? ==> c == comps[i])
  {
    if comps[i].Obj? && !HasKey(comps[i].fields, "id") {
      GetAppended(comps[i].fields, "id", Str("gen_" + uuidAt(i)), key);
    }
  }

  /** The validation loop of `generate_components`: adds missing ids in place
      and collects each component's type for the log. */
  method ValidateComponents(comps: seq<Json>, uuidAt: nat -> string)
    returns (r: Result<seq<Json>, GenError>, tags: seq<TypeTag>)
    ensures r == Checked(comps, uuidAt)
    ensures r.Ok? ==> (|tags| == |comps| &&
      forall i :: 0 <= i < |comps| ==> tags[i] == CheckComponent(comps[i], uuidAt(i)).value.1)
  {
    var done: seq<Json> := [];
    tags := [];
    var i := 0;
    while i < |comps|
      invariant 0 <= i <= |comps|
      invariant Checked(comps[..i], uuidAt) == Ok(done)
      invariant |tags| == i
      invariant forall k :: 0 <= k < i ==> tags[k] == CheckComponent(comps[k], uuidAt(k)).value.1
    {
      match CheckComponent(comps[i], uuidAt(i))
      case Err(e) =>
        CheckedFirstError(comps, uuidAt, i);
        return Err(e), tags;
      case Ok(checked) =>
        assert Checked(comps[..i + 1], uuidAt) == Ok(done + [checked.0]) by {
          assert comps[..i + 1][..i] == comps[..i];
          assert comps[..i + 1][i] == comps[i];
        }
        done := done + [checked.0];
        tags := tags + [checked.1];
      i := i + 1;
    }
    assert comps[..i] == comps;
    r := Ok(done);
  }

  /** The loop stops at the first component that fails, with its error. */
  lemma {:induction false} CheckedFirstError(comps: seq<Json>, uuidAt: nat -> string, i: nat)
    requires i < |comps| && CheckComponent(comps[i], uuidAt(i)).Err?
    requires forall j :: 0 <= j < i ==> CheckComponent(comps[j], uuidAt(j)).Ok?
    ensures Checked(comps, uuidAt) == Err(CheckComponent(comps[i], uuidAt(i)).error)
    decreases |comps|
  {
    var n := |comps| - 1;
    var prefix := comps[..n];
    if i < n {
      assert prefix[i] == comps[i];
      assert forall j :: 0 <= j < i ==> prefix[j] == comps[j];
      CheckedFirstError(prefix, uuidAt, i);
    } else {
      assert forall j :: 0 <= j < n ==> prefix[j] == comps[j];
    }
  }

  /** `json.loads` of the cleaned reply and `result.get("components", [])`.
      A `"components"` value that is not a list is reported as a `TypeError`. */
  function ComponentsOf(reply: string, parse: string -> Option<Json>): (r: Result<seq<Json>, GenError>)
    ensures parse(Sanitize(reply)).None? ==> r == Err(DecodeError)
    ensures parse(Sanitize(reply)).Some? && !parse(Sanitize(reply)).value.Obj? ==> r == Err(AttributeError)
    ensures parse(Sanitize(reply)).Some? && parse(Sanitize(reply)).value.Obj? ==>
      var f := parse(Sanitize(reply)).value.fields;
      && (!HasKey(f, "components") ==> r == Ok([]))
      && (Get(f, "components").Some? && Get(f, "components").value.Arr? ==>
            r == Ok(Get(f, "components").value.items))
      && (Get(f, "components").Some? && !Get(f, "components").value.Arr? ==> r == Err(TypeError))
  {
    var parsed := parse(Sanitize(reply));
    assert parsed.Some? && parsed.value.Obj? ==>
      (Get(parsed.value.fields, "components").Some? <==> HasKey(parsed.value.fields, "components")) by {
      if parsed.Some? && parsed.value.Obj? {
        GetFinds(parsed.value.fields, "components");
      }
    }
    match parsed
    case None => Err(DecodeError)
    case Some(Obj(fields)) =>
      (match GetOr(fields, "components", Arr([]))
       case Arr(comps) => Ok(comps)
       case _ => Err(TypeError))
    case Some(_) => Err(AttributeError)
  }

  /** What `generate_components` returns for the model's answer `llm(prompt)`
      (`None` when the call raises). */
  function Generated(text: string, metadata: Fields, messageId: Option<string>, uuid: string,
                     llm: Prompt -> Option<string>, parse: string -> Option<Json>,
                     uuidAt: nat -> string): Result<seq<Json>, GenError>
  {
    match llm(BuildPrompt(text, metadata, messageId, uuid))
    case None => Err(LlmFailed)
    case Some(reply) =>
      match ComponentsOf(reply, parse)
      case Err(e) => Err(e)
      case Ok(comps) => Checked(comps, uuidAt)
  }

  /** `generate_components`. */
  method GenerateComponents(text: string, metadata: Fields, messageId: Option<string>, uuid: string,
                            llm: Prompt -> Option<string>, parse: string -> Option<Json>,
                            uuidAt: nat -> string)
    returns (r: Result<seq<Json>, GenError>, tags: seq<TypeTag>)
    ensures r == Generated(text, metadata, messageId, uuid, llm, parse, uuidAt)
    ensures r.Ok? ==> |tags| == |r.value|
  {
    tags := [];
    var prompt := BuildPrompt(text, metadata, messageId, uuid);
    var reply := llm(prompt);
    if reply.None? {
      return Err(LlmFailed), tags;
    }
    var comps := ComponentsOf(reply.value, parse);
    if comps.Err? {
      return Err(comps.error), tags;
    }
    r, tags := ValidateComponents(comps.value, uuidAt);
  }

  // ---------------------------------------------------------------------------
  // The envelope.

  /** `create_root_component`: the nested-shape Column `"root"` whose children
      are exactly `childIds`, in order. */
  function CreateRootComponent(childIds: seq<Json>): Json
  {
    Obj([("id", Str("root")),
         ("component", Obj([("Column", Obj([("children", Obj([("explicitList", Arr(childIds))]))]))]))])
  }

  /** The root reads back as the Column `"root"` listing exactly `childIds`. */
  lemma CreateRootComponentReads(childIds: seq<Json>)
    ensures var root := CreateRootComponent(childIds);
      IdOf(root) == Some(Str("root")) && TypeName(root) == Some("Column")
      && ExplicitList(root) == Some(childIds)
  {
    var fields := CreateRootComponent(childIds).fields;
    assert "id"[0] != "component"[0];
    GetFirst(fields, "id", 0);
    GetFirst(fields, "component", 1);
    GetFirst([("children", Obj([("explicitList", Arr(childIds))]))], "children", 0);
    GetFirst([("explicitList", Arr(childIds))], "explicitList", 0);
  }

  /** `[comp["id"] for comp in components]`. */
  function ComponentIds(comps: seq<Json>): (r: Result<seq<Json>, GenError>)
    ensures r.Ok? ==> |r.value| == |comps| && forall i :: 0 <= i < |comps| ==> IdOf(comps[i]) == Some(r.value[i])
    ensures r.Ok? <==> forall i :: 0 <= i < |comps| ==> IdOf(comps[i]).Some?
  {
    if comps == [] then Ok([])
    else
      var first := match comps[0]
        case Obj(fields) => (match Get(fields, "id") case Some(id) => Ok(id) case None => Err(KeyError))
        case _ => Err(TypeError);
      match first
      case Err(e) => Err(e)
      case Ok(id) =>
        match ComponentIds(comps[1..])
        case Err(e) => Err(e)
        case Ok(rest) =>
          assert forall i :: 1 <= i < |comps| ==> comps[i] == comps[1..][i - 1];
          Ok([id] + rest)
  }

  /** Every component that passes the validation loop as an object has an id. */
  lemma CheckedObjectsHaveIds(comps: seq<Json>, uuidAt: nat -> string)
    requires Checked(comps, uuidAt).Ok?
    requires forall i :: 0 <= i < |comps| ==> comps[i].Obj?
    ensures ComponentIds(Checked(comps, uuidAt).value).Ok?
  {
    var out := Checked(comps, uuidAt).value;
    forall i | 0 <= i < |out| ensures IdOf(out[i]).Some? {
      CheckedComponentsHaveIds(comps, uuidAt, i, "id");
      GetFinds(out[i].fields, "id");
    }
  }

  /** `generate_envelope`: the generated components followed by one root whose
      children are the generated ids in order. */
  method GenerateEnvelope(text: string, metadata: Fields, messageId: Option<string>, uuid: string,
                          llm: Prompt -> Option<string>, parse: string -> Option<Json>,
                          uuidAt: nat -> string)
    returns (r: Result<Json, GenError>)
    ensures var g := Generated(text, metadata, messageId, uuid, llm, parse, uuidAt);
      && (g.Err? ==> r == Err(g.error))
      && (g.Ok? ==> r.Ok? == ComponentIds(g.value).Ok?)
      && (r.Ok? ==>
            && g.Ok?
            && var comps := g.value;
            && SurfaceComponents(r.value).Some?
            && var all := SurfaceComponents(r.value).value;
            && |all| == |comps| + 1 && all[..|comps|] == comps
            && var root := all[|comps|];
            && IdOf(root) == Some(Str("root")) && TypeName(root) == Some("Column")
            && ExplicitList(root).Some? && |ExplicitList(root).value| == |comps|
            && forall i :: 0 <= i < |comps| ==> IdOf(comps[i]) == Some(ExplicitList(root).value[i]))
  {
    var generated, tags := GenerateComponents(text, metadata, messageId, uuid, llm, parse, uuidAt);
    if generated.Err? {
      return Err(generated.error);
    }
    var components := generated.value;
    var ids := ComponentIds(components);
    if ids.Err? {
      return Err(ids.error);
    }
    var root := CreateRootComponent(ids.value);
    CreateRootComponentReads(ids.value);
    components := components + [root];
    r := Ok(SurfaceEnvelope(components));
    SurfaceEnvelopeReads(components);
    assert components[..|generated.value|] == generated.value;
  }
}
