/** The tool catalog: the vendor's catalog entries, their normalisation into
    the tool descriptors that are offered to the completion service, and the
    lookup that turns a tool name chosen by the model into an action id. */
module Catalog {
  import opened Values

  /** The `function` part of a vendor catalog entry. */
  datatype FunctionSpec = FunctionSpec(name: string, description: string, parameters: Json)

  /** One entry of the vendor catalog: `{function: {...}, actionId}`; the
      `function` part is called `definition` here. The
      action id may be missing or empty in the vendor's answer. */
  datatype VendorTool = VendorTool(definition: FunctionSpec, actionId: Option<string>)

  /** A tool as offered to the completion service and kept for dispatch. */
  datatype ToolDescriptor = ToolDescriptor(
    kind: string,
    name: string,
    description: string,
    parameters: Json,
    actionId: Option<string>)

  /** The `type` tag of every descriptor. */
  const FunctionKind := "function"

  /** What the catalog fetch can come back with. `Http(false, _)` is a
      non-success status; `entries == None` is a success status whose body
      throws while being read or mapped: it is not JSON, it is not an array,
      or one of its entries has no `function` part. Entries that map without
      throwing but do not fit `VendorTool` (a missing description or
      parameters, a non-string action id) are not represented. */
  datatype CatalogReply =
    | NetworkFailure
    | Http(ok: bool, entries: Option<seq<VendorTool>>)

  /** Normalisation of one vendor entry. */
  function Describe(v: VendorTool): ToolDescriptor {
    ToolDescriptor(FunctionKind, v.definition.name, v.definition.description, v.definition.parameters, v.actionId)
  }

  /** The mapping of the vendor catalog into descriptors: same length, same
      order, every field copied verbatim and the kind fixed to "function". */
  function Normalise(vendor: seq<VendorTool>): (tools: seq<ToolDescriptor>)
    ensures |tools| == |vendor|
    ensures forall i :: 0 <= i < |vendor| ==>
              && tools[i].kind == FunctionKind
              && tools[i].name == vendor[i].definition.name
              && tools[i].description == vendor[i].definition.description
              && tools[i].parameters == vendor[i].definition.parameters
              && tools[i].actionId == vendor[i].actionId
  {
    seq(|vendor|, i requires 0 <= i < |vendor| => Describe(vendor[i]))
  }

  /** The vendor entry a descriptor came from. */
  function Restore(t: ToolDescriptor): VendorTool {
    VendorTool(FunctionSpec(t.name, t.description, t.parameters), t.actionId)
  }

  /** Normalisation loses nothing: the vendor catalog can be read back from
      the descriptors. */
  lemma NormaliseIsLossless(vendor: seq<VendorTool>)
    ensures seq(|vendor|, i requires 0 <= i < |vendor| => Restore(Normalise(vendor)[i])) == vendor
  {
  }

  /** The catalog fetch: any failure (network, status, body) yields `None`;
      a successful reply yields the normalised entries. */
  function GetFastnTools(reply: CatalogReply): (r: Option<seq<ToolDescriptor>>)
    ensures r.Some? <==> reply.Http? && reply.ok && reply.entries.Some?
    ensures r.Some? ==> r.value == Normalise(reply.entries.value)
  {
    match reply
    case NetworkFailure => None
    case Http(ok, entries) =>
      if !ok then None
      else match entries
        case None => None
        case Some(vendor) => Some(Normalise(vendor))
  }

  /** `Array.prototype.find` by name: the index of the FIRST descriptor with
      the given name, if any. */
  function FindTool(tools: seq<ToolDescriptor>, name: string): (r: Option<nat>)
    ensures r.Some? ==> r.value < |tools| && tools[r.value].name == name
    ensures r.Some? ==> forall j :: 0 <= j < r.value ==> tools[j].name != name
    ensures r.None? <==> forall j :: 0 <= j < |tools| ==> tools[j].name != name
  {
    if |tools| == 0 then None
    else if tools[0].name == name then Some(0)
    else match FindTool(tools[1..], name)
      case None => None
      case Some(k) => Some(k + 1)
  }

  /** The action id to execute for a tool name: the first descriptor with that
      name must exist and carry a truthy (present, non-empty) action id. A
      later descriptor with the same name is never consulted. */
  function ResolveAction(tools: seq<ToolDescriptor>, name: string): Option<string> {
    match FindTool(tools, name)
    case None => None
    case Some(i) => if TruthyString(tools[i].actionId) then tools[i].actionId else None
  }

  /** Resolution succeeds exactly when some descriptor has the name and the
      first one that does has a non-empty action id, which is the one used. */
  lemma ResolveActionCharacterised(tools: seq<ToolDescriptor>, name: string, i: nat)
    requires i < |tools| && tools[i].name == name
    requires forall j :: 0 <= j < i ==> tools[j].name != name
    ensures ResolveAction(tools, name).Some? <==> TruthyString(tools[i].actionId)
    ensures ResolveAction(tools, name).Some? ==> ResolveAction(tools, name) == tools[i].actionId
  {
  }

  /** An unknown name never resolves. */
  lemma UnknownNameUnresolved(tools: seq<ToolDescriptor>, name: string)
    requires forall j :: 0 <= j < |tools| ==> tools[j].name != name
    ensures ResolveAction(tools, name).None?
  {
  }
}
