/** Helpers for MCP tool implementations (pkg/tools/tools.go): typed access to a tool
    call's arguments, the error result a tool returns, and registering tools on a
    server. Arguments are the values JSON decoding produces, tagged by kind, and the
    Go type parameter T is the kind the caller asks for. */
module Tools {
  import opened Base

  /** A decoded JSON argument: what `map[string]any` holds after json.Unmarshal. */
  datatype ArgValue =
    | JString(s: string)
    | JNumber(n: real)
    | JBool(b: bool)
    | JArray(items: seq<ArgValue>)
    | JObject(fields: map<string, ArgValue>)
    | JNull

  /** The type T a caller instantiates GetParam with: one of the dynamic types JSON
      decoding produces, or `any`. */
  datatype ArgType = StringType | Float64Type | BoolType | SliceType | MapType | AnyType

  /** Go's type assertion `v.(T)`: a nil value matches no type, not even `any`. */
  predicate Matches(v: ArgValue, t: ArgType)
  {
    match v
    case JNull => false
    case JString(_) => t == StringType || t == AnyType
    case JNumber(_) => t == Float64Type || t == AnyType
    case JBool(_) => t == BoolType || t == AnyType
    case JArray(_) => t == SliceType || t == AnyType
    case JObject(_) => t == MapType || t == AnyType
  }

  /** How `%q` prints a value: a string quoted, anything else as Go's bad-verb form. */
  function RenderQ(v: ArgValue): string
  {
    match v
    case JString(s) => Quote(s)
    case JBool(b) => "%!q(bool=" + (if b then "true" else "false") + ")"
    case JNull => "%!q(<nil>)"
    case JNumber(_) => "%!q(float64)"
    case JArray(_) => "%!q([]interface {})"
    case JObject(_) => "%!q(map[string]interface {})"
  }

  function MissingArgument(name: string): Error
  {
    Error("missing argument " + Quote(name))
  }

  function InvalidValue(v: ArgValue, name: string): Error
  {
    Error("invalid value " + RenderQ(v) + " type for argument " + Quote(name))
  }

  /** Models GetParam: the argument called `name`, which must be present and of type `want`. */
  function GetParam(args: map<string, ArgValue>, name: string, want: ArgType): (r: Result<ArgValue>)
    ensures r.Ok? <==> name in args && Matches(args[name], want)
    ensures r.Ok? ==> r.value == args[name]
    ensures name !in args ==> r == Err(MissingArgument(name))
    ensures name in args && !Matches(args[name], want) ==> r == Err(InvalidValue(args[name], name))
  {
    if name !in args then Err(MissingArgument(name))
    else if !Matches(args[name], want) then Err(InvalidValue(args[name], name))
    else Ok(args[name])
  }

  /** Models GetOptionalParam: like GetParam, except that an absent argument is neither
      a value nor an error (Ok(None)). */
  function GetOptionalParam(args: map<string, ArgValue>, name: string, want: ArgType): (r: Result<Option<ArgValue>>)
    ensures r == Ok(None) <==> name !in args
    ensures r.Ok? && r.value.Some? <==> name in args && Matches(args[name], want)
    ensures r.Ok? && r.value.Some? ==> r.value.value == args[name]
    ensures r.Err? ==> r.error == InvalidValue(args[name], name)
  {
    if name !in args then Ok(None)
    else if !Matches(args[name], want) then Err(InvalidValue(args[name], name))
    else Ok(Some(args[name]))
  }

  /** The two accessors agree on a present argument; they differ only on an absent one,
      which GetParam rejects and GetOptionalParam passes over. */
  lemma OptionalAgreesWhenPresent(args: map<string, ArgValue>, name: string, want: ArgType)
    ensures name in args ==>
      && (GetParam(args, name, want).Ok? <==> GetOptionalParam(args, name, want).Ok?)
      && (GetParam(args, name, want).Ok? ==> GetOptionalParam(args, name, want) == Ok(Some(GetParam(args, name, want).value)))
      && (GetParam(args, name, want).Err? ==> GetOptionalParam(args, name, want) == Err(GetParam(args, name, want).error))
    ensures name !in args ==> GetParam(args, name, want).Err? && GetOptionalParam(args, name, want) == Ok(None)
  {
  }

  /** Asking for `any` accepts every present argument except null. */
  lemma AnyAcceptsAllButNull(args: map<string, ArgValue>, name: string)
    requires name in args
    ensures GetParam(args, name, AnyType).Ok? <==> args[name] != JNull
  {
  }

  /** One item of a tool result's content. */
  datatype Content = TextContent(kind: string, text: string)

  datatype CallToolResult = CallToolResult(content: seq<Content>, isError: bool)

  /** The text TextContentError puts before the quoted error message. */
  const ErrorTextHead := "Error: "

  /** Models TextContentError: an error result holding one text item that shows the
      error's message, quoted. */
  function TextContentError(e: Error): (r: CallToolResult)
    ensures r.isError && |r.content| == 1
    ensures r.content[0].kind == "text"
    ensures HasPrefix(r.content[0].text, ErrorTextHead)
  {
    CallToolResult([TextContent("text", ErrorTextHead + Quote(e.msg))], true)
  }

  /** Reads the error message back out of an error result, or None when the result is
      not one TextContentError builds. */
  function ErrorMessage(r: CallToolResult): Option<string>
  {
    if r.isError && |r.content| == 1 && r.content[0].kind == "text" then
      var t := r.content[0].text;
      var head := ErrorTextHead + "\"";
      if |t| >= |head| + 1 && t[..|head|] == head && t[|t| - 1] == '"' then Some(t[|head|..|t| - 1])
      else None
    else None
  }

  /** The error result loses nothing: its message can be read back. */
  lemma ErrorMessageOfTextContentError(e: Error)
    ensures ErrorMessage(TextContentError(e)) == Some(e.msg)
  {
    var t := ErrorTextHead + Quote(e.msg);
    var head := ErrorTextHead + "\"";
    assert t == head + e.msg + "\"";
    assert t[..|head|] == head;
    assert t[|head|..|t| - 1] == e.msg;
  }

  /** A tool's definition as the server lists it. */
  datatype ToolSpec = ToolSpec(name: string, description: string)

  /** A Tool implementation: its Name(), and the outcome of its New(). Exec is the
      handler the server is given; it is identified by the tool itself. */
  datatype Tool = Tool(name: string, instance: Result<ToolSpec>)

  /** A tool definition the server holds, with the tool whose Exec handles its calls. */
  datatype Registration = Registration(spec: ToolSpec, handler: Tool)

  /** The part of server.MCPServer the helpers touch: the tools added to it, in order. */
  class MCPServer {
    var registered: seq<Registration>

    constructor ()
      ensures registered == []
    {
      registered := [];
    }

    method AddTool(spec: ToolSpec, handler: Tool)
      modifies this
      ensures registered == old(registered) + [Registration(spec, handler)]
    {
      registered := registered + [Registration(spec, handler)];
    }
  }

  /** The position of the first tool whose New() fails, |tools| when none does. */
  function FirstFailingTool(tools: seq<Tool>): (k: nat)
    ensures k <= |tools|
    ensures forall i :: 0 <= i < k ==> tools[i].instance.Ok?
    ensures k < |tools| ==> tools[k].instance.Err?
  {
    if tools == [] || tools[0].instance.Err? then 0 else 1 + FirstFailingTool(tools[1..])
  }

  /** The registrations of tools that were all built, in list order. */
  function Registrations(tools: seq<Tool>): seq<Registration>
    requires forall i :: 0 <= i < |tools| ==> tools[i].instance.Ok?
  {
    seq(|tools|, i requires 0 <= i < |tools| && tools[i].instance.Ok? => Registration(tools[i].instance.value, tools[i]))
  }

  /** The error ServerAddTools returns for the tool at `index`. */
  function NewFailure(tools: seq<Tool>, index: nat): Error
    requires index < |tools| && tools[index].instance.Err?
  {
    Wrap(tools[index].instance.error, "tools[" + Decimal(index) + ":" + tools[index].name + "].New()")
  }

  /** Models ServerAddTools: builds and adds the tools in list order and stops at the
      first New() that fails, with an error naming its position and name. Tools added
      before it stay added; later ones are not built. */
  method ServerAddTools(server: MCPServer, tools: seq<Tool>) returns (err: Option<Error>)
    modifies server
    ensures var k := FirstFailingTool(tools);
      && server.registered == old(server.registered) + Registrations(tools[..k])
      && (err.None? <==> k == |tools|)
      && (err.Some? ==> err.value == NewFailure(tools, k))
  {
    err := None;
    for index := 0 to |tools|
      invariant forall i :: 0 <= i < index ==> tools[i].instance.Ok?
      invariant server.registered == old(server.registered) + Registrations(tools[..index])
    {
      var tool := tools[index];
      if tool.instance.Err? {
        assert FirstFailingTool(tools) == index;
        return Some(Wrap(tool.instance.error, "tools[" + Decimal(index) + ":" + tool.name + "].New()"));
      }
      server.AddTool(tool.instance.value, tool);
      assert Registrations(tools[..index + 1]) == Registrations(tools[..index]) + [Registration(tool.instance.value, tool)];
    }
    assert tools[..|tools|] == tools;
    assert FirstFailingTool(tools) == |tools|;
  }

  /** All tools are registered exactly when every New() succeeds. */
  lemma {:induction false} NoFailureIffAllBuilt(tools: seq<Tool>)
    ensures FirstFailingTool(tools) == |tools| <==> forall t :: t in tools ==> t.instance.Ok?
  {
    if FirstFailingTool(tools) < |tools| {
      assert tools[FirstFailingTool(tools)] in tools;
    }
  }

  /** Tools with different positions fail with different errors, whatever their names. */
  lemma FailuresNamePosition(tools: seq<Tool>, i: nat, j: nat)
    requires i < |tools| && tools[i].instance.Err?
    requires j < |tools| && tools[j].instance.Err?
    requires i != j
    ensures NewFailure(tools, i) != NewFailure(tools, j)
  {
    var a := "tools[" + Decimal(i) + ":" + tools[i].name + "].New()";
    var b := "tools[" + Decimal(j) + ":" + tools[j].name + "].New()";
    var di, dj := Decimal(i), Decimal(j);
    var si := di + ":" + tools[i].name + "].New(): " + tools[i].instance.error.msg;
    var sj := dj + ":" + tools[j].name + "].New(): " + tools[j].instance.error.msg;
    assert NewFailure(tools, i).msg == "tools[" + si;
    assert NewFailure(tools, j).msg == "tools[" + sj;
    if |di| < |dj| {
      assert si[|di|] == ':' && IsDigit(sj[|di|]);
    } else if |dj| < |di| {
      assert sj[|dj|] == ':' && IsDigit(si[|dj|]);
    } else {
      DecimalInjective(i, j);
      assert si[..|di|] == di && sj[..|di|] == dj;
    }
    assert si != sj;
    assert ("tools[" + si)[6..] == si && ("tools[" + sj)[6..] == sj;
  }
}
