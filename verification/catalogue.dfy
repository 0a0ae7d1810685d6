/** The tool catalogue: the server's tool list as the client stores it after
    connecting, and the advertisement the model is offered on each query. */
module Catalogue {
  import opened Wrappers
  import opened Json
  import opened Types

  /** A tool descriptor as the tool server lists it. */
  datatype ServerTool = ServerTool(name: string, description: Option<string>, inputSchema: InputSchema)

  /** The function part of an advertisement. */
  datatype FunctionDeclaration = FunctionDeclaration(name: string, description: Option<string>, parameters: InputSchema)

  /** `{type: "function", function: {name, description, parameters}}`. */
  datatype ToolDefinition = ToolDefinition(kind: string, declaration: FunctionDeclaration)

  /** The `type` every advertisement carries. */
  const FunctionKind: string := "function"

  /** The client's copy of the server's tool list: one tool per descriptor,
      in the same order, with name, description and schema carried over. */
  function AdoptTools(listed: seq<ServerTool>): (tools: seq<Tool>)
    ensures |tools| == |listed|
    ensures forall i :: 0 <= i < |listed| ==>
              && tools[i].name == listed[i].name
              && tools[i].description == listed[i].description
              && tools[i].inputSchema == listed[i].inputSchema
  {
    if |listed| == 0 then []
    else
      var d := listed[0];
      [Tool(d.name, d.description, d.inputSchema)] + AdoptTools(listed[1..])
  }

  /** The advertisement offered with the first model request: one function
      entry per tool, in the same order, each of kind `"function"` with the
      tool's name, description and schema. An empty catalogue gives an empty
      advertisement. */
  function Advertise(tools: seq<Tool>): (defs: seq<ToolDefinition>)
    ensures |defs| == |tools|
    ensures forall i :: 0 <= i < |tools| ==>
              && defs[i].kind == FunctionKind
              && defs[i].declaration.name == tools[i].name
              && defs[i].declaration.description == tools[i].description
              && defs[i].declaration.parameters == tools[i].inputSchema
  {
    if |tools| == 0 then []
    else
      var t := tools[0];
      [ToolDefinition(FunctionKind, FunctionDeclaration(t.name, t.description, t.inputSchema))] + Advertise(tools[1..])
  }

  /** Reads the tools back out of an advertisement. */
  function AdvertisedTools(defs: seq<ToolDefinition>): seq<Tool>
  {
    if |defs| == 0 then []
    else
      var f := defs[0].declaration;
      [Tool(f.name, f.description, f.parameters)] + AdvertisedTools(defs[1..])
  }

  /** Advertising loses nothing: the catalogue can be read back from it. */
  lemma {:induction false} AdvertiseRoundTrip(tools: seq<Tool>)
    ensures AdvertisedTools(Advertise(tools)) == tools
    decreases |tools|
  {
    if |tools| > 0 {
      AdvertiseRoundTrip(tools[1..]);
      assert Advertise(tools)[1..] == Advertise(tools[1..]);
      assert [tools[0]] + tools[1..] == tools;
    }
  }

  /** Advertising a catalogue is advertising its parts one after the other. */
  lemma {:induction false} AdvertiseAppend(a: seq<Tool>, b: seq<Tool>)
    ensures Advertise(a + b) == Advertise(a) + Advertise(b)
    decreases |a|
  {
    if |a| == 0 {
      assert a + b == b;
    } else {
      assert (a + b)[1..] == a[1..] + b;
      AdvertiseAppend(a[1..], b);
    }
  }

  /** Connecting and then advertising offers the model each listed tool
      under its listed name, description and schema, in listing order. */
  lemma CatalogueFromServer(listed: seq<ServerTool>, i: nat)
    requires i < |listed|
    ensures |Advertise(AdoptTools(listed))| == |listed|
    ensures Advertise(AdoptTools(listed))[i]
              == ToolDefinition(FunctionKind, FunctionDeclaration(listed[i].name, listed[i].description, listed[i].inputSchema))
  {
  }
}
