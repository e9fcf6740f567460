/** Readers for the A2UI wire shapes the backend emits: an envelope
    `{"surfaceUpdate": {"components": [...]}}` whose components are either in the
    flat shape (`"component": "Column", "children": {...}`) or in the nested
    shape (`"component": {"Column": {"children": {...}}}`). */
module Surface {
  import opened Wrappers
  import opened Json

  /** The `"id"` of a component object. */
  function IdOf(comp: Json): (r: Option<Json>)
    ensures r.Some? ==> comp.Obj? && HasKey(comp.fields, "id")
  {
    if comp.Obj? then GetFinds(comp.fields, "id"); Get(comp.fields, "id") else None
  }

  /** The type name of a component in either shape: the string value of
      `"component"`, or the first key of its nested object. */
  function TypeName(comp: Json): Option<string>
  {
    if !comp.Obj? then None
    else match Get(comp.fields, "component")
      case Some(Str(name)) => Some(name)
      case Some(Obj(inner)) => if inner == [] then None else Some(inner[0].0)
      case _ => None
  }

  /** The properties of a component: the component object itself in the flat
      shape, the object under its type key in the nested shape. */
  function Props(comp: Json): Option<Fields>
  {
    if !comp.Obj? then None
    else match Get(comp.fields, "component")
      case Some(Str(_)) => Some(comp.fields)
      case Some(Obj(inner)) => if inner != [] && inner[0].1.Obj? then Some(inner[0].1.fields) else None
      case _ => None
  }

  /** `children.explicitList` of a container component. */
  function ExplicitList(comp: Json): Option<seq<Json>>
  {
    match Props(comp)
    case Some(props) =>
      (match Get(props, "children")
       case Some(Obj(children)) =>
         (match Get(children, "explicitList")
          case Some(Arr(ids)) => Some(ids)
          case _ => None)
       case _ => None)
    case None => None
  }

  /** `text.literalString` of a Text component. */
  function LiteralString(comp: Json): Option<Json>
  {
    match Props(comp)
    case Some(props) =>
      (match Get(props, "text")
       case Some(Obj(text)) => Get(text, "literalString")
       case _ => None)
    case None => None
  }

  /** `usageHint` of a Text component. */
  function UsageHint(comp: Json): Option<Json>
  {
    match Props(comp)
    case Some(props) => Get(props, "usageHint")
    case None => None
  }

  /** `surfaceUpdate.components` of an envelope. */
  function SurfaceComponents(envelope: Json): Option<seq<Json>>
  {
    if !envelope.Obj? then None
    else match Get(envelope.fields, "surfaceUpdate")
      case Some(Obj(update)) =>
        (match Get(update, "components")
         case Some(Arr(comps)) => Some(comps)
         case _ => None)
      case _ => None
  }

  /** The envelope `{"surfaceUpdate": {"components": comps}}`. */
  function SurfaceEnvelope(comps: seq<Json>): Json
  {
    Obj([("surfaceUpdate", Obj([("components", Arr(comps))]))])
  }

  /** An envelope's components are read back as they were put in. */
  lemma SurfaceEnvelopeReads(comps: seq<Json>)
    ensures SurfaceComponents(SurfaceEnvelope(comps)) == Some(comps)
  {
  }
}
