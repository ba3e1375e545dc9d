/** The tool-call envelope that the voice-agent runtime posts, its validation
    into typed records (the Pydantic models of shared/schemas.py), and the
    response shapes that the list routes emit. */
module Schemas {
  import opened Common

  /** A decoded JSON value. Numbers are integers only. */
  datatype Json =
    | JNull
    | JBool(b: bool)
    | JNum(n: int)
    | JStr(s: string)
    | JArr(items: seq<Json>)
    | JObj(fields: map<string, Json>)

  /** Python truthiness of a decoded JSON value. */
  predicate JsonTruthy(j: Json)
  {
    match j
    case JNull => false
    case JBool(b) => b
    case JNum(n) => n != 0
    case JStr(s) => s != ""
    case JArr(a) => a != []
    case JObj(m) => m != map[]
  }

  /** `arguments` is either a string still to be parsed or a string-keyed mapping. */
  datatype Arguments = Text(raw: string) | Fields(fields: map<string, Json>)

  /** `ToolCallFunction`; the Python attribute `function` is `func` here. */
  datatype ToolCallFunction = ToolCallFunction(name: string, arguments: Arguments)
  datatype ToolCall = ToolCall(id: string, func: ToolCallFunction)
  datatype Message = Message(toolCalls: seq<ToolCall>)
  datatype ToolRequest = ToolRequest(message: Message)

  /** Response shapes. None of them carries the remote back-reference. */
  datatype TodoResponse = TodoResponse(id: int, title: string, description: Option<string>, completed: bool)
  datatype ReminderResponse = ReminderResponse(id: int, reminderText: string, importance: string)
  datatype CalendarEventResponse =
    CalendarEventResponse(id: int, title: string, description: Option<string>, eventFrom: int, eventTo: int)

  // ---------------------------------------------------------------------------
  // Validation: a field is accepted only with the JSON kind its annotation
  // names; keys that the schema does not declare are ignored.
  // ---------------------------------------------------------------------------

  function ParseArguments(j: Json): (r: Option<Arguments>)
    ensures r.Some? <==> j.JStr? || j.JObj?
  {
    match j
    case JStr(s) => Some(Text(s))
    case JObj(m) => Some(Fields(m))
    case _ => None
  }

  /** `ToolCallFunction`: a required string `name` and a required `arguments`
      that is a string or a mapping; anything else fails validation. */
  function ParseFunction(j: Json): (r: Option<ToolCallFunction>)
    ensures r.Some? <==> j.JObj? && "name" in j.fields && j.fields["name"].JStr?
                         && "arguments" in j.fields
                         && (j.fields["arguments"].JStr? || j.fields["arguments"].JObj?)
    ensures r.Some? ==> r.value.name == j.fields["name"].s
    ensures r.Some? ==> Some(r.value.arguments) == ParseArguments(j.fields["arguments"])
  {
    if j.JObj? && "name" in j.fields && j.fields["name"].JStr? && "arguments" in j.fields then
      match ParseArguments(j.fields["arguments"])
      case Some(a) => Some(ToolCallFunction(j.fields["name"].s, a))
      case None => None
    else None
  }

  /** `ToolCall`: a required string `id` and a required `function` that
      validates as a `ToolCallFunction`. */
  function ParseToolCall(j: Json): (r: Option<ToolCall>)
    ensures r.Some? <==> j.JObj? && "id" in j.fields && j.fields["id"].JStr?
                         && "function" in j.fields && ParseFunction(j.fields["function"]).Some?
    ensures r.Some? ==> r.value.id == j.fields["id"].s
    ensures r.Some? ==> Some(r.value.func) == ParseFunction(j.fields["function"])
  {
    if j.JObj? && "id" in j.fields && j.fields["id"].JStr? && "function" in j.fields then
      match ParseFunction(j.fields["function"])
      case Some(f) => Some(ToolCall(j.fields["id"].s, f))
      case None => None
    else None
  }

  /** A list of tool calls validates exactly when every element does, and
      then element by element. */
  function ParseToolCalls(items: seq<Json>): (r: Option<seq<ToolCall>>)
    ensures r.Some? <==> forall i :: 0 <= i < |items| ==> ParseToolCall(items[i]).Some?
    ensures r.Some? ==> |r.value| == |items|
    ensures r.Some? ==> forall i :: 0 <= i < |items| ==> ParseToolCall(items[i]) == Some(r.value[i])
    decreases |items|
  {
    if items == [] then Some([])
    else
      match (ParseToolCall(items[0]), ParseToolCalls(items[1..]))
      case (Some(c), Some(cs)) =>
        assert forall i :: 1 <= i < |items| ==> items[i] == items[1..][i - 1];
        Some([c] + cs)
      case (None, _) => None
      case (Some(_), None) =>
        assert forall i :: 0 <= i < |items| - 1 ==> items[1..][i] == items[i + 1];
        None
  }

  /** `Message`: a required `toolCalls` list whose every element validates. */
  function ParseMessage(j: Json): (r: Option<Message>)
    ensures r.Some? <==> j.JObj? && "toolCalls" in j.fields && j.fields["toolCalls"].JArr?
                         && forall i :: 0 <= i < |j.fields["toolCalls"].items| ==>
                              ParseToolCall(j.fields["toolCalls"].items[i]).Some?
    ensures r.Some? ==> Some(r.value.toolCalls) == ParseToolCalls(j.fields["toolCalls"].items)
  {
    if j.JObj? && "toolCalls" in j.fields && j.fields["toolCalls"].JArr? then
      match ParseToolCalls(j.fields["toolCalls"].items)
      case Some(calls) => Some(Message(calls))
      case None => None
    else None
  }

  /** `ToolRequest(**json_data)` for an object body. */
  function ParseToolRequest(j: Json): (r: Option<ToolRequest>)
    ensures r.Some? ==> j.JObj? && "message" in j.fields && JsonTruthy(j)
    ensures r.Some? ==> ParseMessage(j.fields["message"]) == Some(r.value.message)
    // and every object whose `message` validates is accepted, whatever else it holds
    ensures j.JObj? && "message" in j.fields && ParseMessage(j.fields["message"]).Some? ==> r.Some?
  {
    if j.JObj? && "message" in j.fields then
      match ParseMessage(j.fields["message"])
      case Some(m) => Some(ToolRequest(m))
      case None => None
    else None
  }

  /** Keys a schema does not declare are ignored at every level: adding one
      never changes the outcome of validation. */
  lemma UndeclaredKeysIgnored(m: map<string, Json>, k: string, v: Json)
    ensures k != "message" ==> ParseToolRequest(JObj(m[k := v])) == ParseToolRequest(JObj(m))
    ensures k != "toolCalls" ==> ParseMessage(JObj(m[k := v])) == ParseMessage(JObj(m))
    ensures k != "id" && k != "function" ==> ParseToolCall(JObj(m[k := v])) == ParseToolCall(JObj(m))
    ensures k != "name" && k != "arguments" ==> ParseFunction(JObj(m[k := v])) == ParseFunction(JObj(m))
  {
  }

  // ---------------------------------------------------------------------------
  // The JSON form of an envelope, the partner of validation.
  // ---------------------------------------------------------------------------

  function EncodeArguments(a: Arguments): Json
  {
    match a
    case Text(s) => JStr(s)
    case Fields(m) => JObj(m)
  }

  function EncodeToolCall(c: ToolCall): Json
  {
    JObj(map[
      "id" := JStr(c.id),
      "function" := JObj(map["name" := JStr(c.func.name), "arguments" := EncodeArguments(c.func.arguments)])
    ])
  }

  function EncodeToolRequest(r: ToolRequest): Json
  {
    var calls := r.message.toolCalls;
    JObj(map["message" := JObj(map["toolCalls" := JArr(seq(|calls|, i requires 0 <= i < |calls| => EncodeToolCall(calls[i])))])])
  }

  lemma ParseEncodeToolCall(c: ToolCall)
    ensures ParseToolCall(EncodeToolCall(c)) == Some(c)
  {
  }

  /** Every envelope survives validation of its own JSON form unchanged. */
  lemma {:induction false} ParseEncodeToolRequest(r: ToolRequest)
    ensures ParseToolRequest(EncodeToolRequest(r)) == Some(r)
  {
    var calls := r.message.toolCalls;
    var items := seq(|calls|, i requires 0 <= i < |calls| => EncodeToolCall(calls[i]));
    forall i | 0 <= i < |items|
      ensures ParseToolCall(items[i]) == Some(calls[i])
    {
      ParseEncodeToolCall(calls[i]);
    }
    var parsed := ParseToolCalls(items);
    assert parsed.Some?;
    assert parsed.value == calls;
  }
}
