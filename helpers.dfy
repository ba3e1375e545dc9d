/** Selection of the one tool call a route handles (shared/helpers.py). */
module Helpers {
  import opened Common
  import opened Schemas

  /** How `get_validated_tool_call` ends: with the selected call, with an
      `abort(status)`, or with an exception that nothing catches (a server error).
      A selected call is its id, its name and its arguments as the handler
      reads them: a mapping as validated, or whatever the parser made of a
      string (no validation happens on that assignment, so any JSON value). */
  datatype Selection = Selected(id: string, name: string, arguments: Json) | Rejected(status: int) | Crashed

  /** The position of the first call named `name`, or `|calls|` if there is none. */
  function FirstIndex(calls: seq<ToolCall>, name: string): (k: nat)
    ensures k <= |calls|
    ensures forall j :: 0 <= j < k ==> calls[j].func.name != name
    ensures k < |calls| ==> calls[k].func.name == name
  {
    if calls == [] then 0
    else if calls[0].func.name == name then 0
    else 1 + FirstIndex(calls[1..], name)
  }

  /** The selected call after its string arguments, if any, have been replaced
      by what the parser returns. `loads` stands for the JSON parser; `None`
      means it raised. */
  function Normalized(call: ToolCall, loads: string -> Option<Json>): (r: Selection)
    ensures !r.Rejected?
    ensures r.Selected? ==> r.id == call.id && r.name == call.func.name
    // mapping arguments are passed on as they were validated
    ensures call.func.arguments.Fields? ==> r == Selected(call.id, call.func.name, JObj(call.func.arguments.fields))
    // string arguments become the parsed value, whatever its kind; a parser exception propagates
    ensures call.func.arguments.Text? ==> (r.Crashed? <==> loads(call.func.arguments.raw).None?)
    ensures call.func.arguments.Text? && r.Selected? ==> r.arguments == loads(call.func.arguments.raw).value
  {
    match call.func.arguments
    case Fields(m) => Selected(call.id, call.func.name, JObj(m))
    case Text(s) =>
      match loads(s)
      case Some(j) => Selected(call.id, call.func.name, j)
      case None => Crashed
  }

  /** `get_validated_tool_call(expected)` on the request body `body` (`None`
      when the request carries no JSON). */
  method GetValidatedToolCall(body: Option<Json>, expected: string, loads: string -> Option<Json>)
    returns (r: Selection)
    // a missing or falsy body
    ensures body.None? || !JsonTruthy(body.value) ==> r == Rejected(400)
    // `ToolRequest(**json_data)` on a truthy body that is not an object raises a TypeError
    ensures body.Some? && JsonTruthy(body.value) && !body.value.JObj? ==> r == Crashed
    // an object that does not validate
    ensures body.Some? && body.value.JObj? && ParseToolRequest(body.value).None? ==> r == Rejected(400)
    // a valid envelope: the first call with the expected name, or 400 when none has it
    ensures body.Some? && ParseToolRequest(body.value).Some? ==>
              var calls := ParseToolRequest(body.value).value.message.toolCalls;
              var k := FirstIndex(calls, expected);
              r == (if k < |calls| then Normalized(calls[k], loads) else Rejected(400))
    ensures r.Selected? ==> r.name == expected
    ensures r.Rejected? ==> r.status == 400
  {
    if body.None? || !JsonTruthy(body.value) {
      return Rejected(400);
    }
    if !body.value.JObj? {
      return Crashed;
    }
    var request := ParseToolRequest(body.value);
    if request.None? {
      return Rejected(400);
    }
    r := SelectToolCall(request.value.message.toolCalls, expected, loads);
  }

  /** The `for` loop of `get_validated_tool_call`: the first call named
      `expected`, in list order, with its arguments parsed; 400 when no call
      has that name. */
  method SelectToolCall(calls: seq<ToolCall>, expected: string, loads: string -> Option<Json>)
    returns (r: Selection)
    ensures var k := FirstIndex(calls, expected);
            r == (if k < |calls| then Normalized(calls[k], loads) else Rejected(400))
    ensures r.Selected? ==> r.name == expected
    ensures r.Rejected? ==> r.status == 400 && forall j :: 0 <= j < |calls| ==> calls[j].func.name != expected
  {
    var i := 0;
    while i < |calls|
      invariant 0 <= i <= |calls|
      invariant forall j :: 0 <= j < i ==> calls[j].func.name != expected
    {
      var call := calls[i];
      if call.func.name == expected {
        assert FirstIndex(calls, expected) == i;
        var arguments := EncodeArguments(call.func.arguments);
        if call.func.arguments.Text? {
          var parsed := loads(call.func.arguments.raw);
          if parsed.None? {
            return Crashed;
          }
          // the call's string arguments are overwritten with the parsed value
          arguments := parsed.value;
        }
        return Selected(call.id, call.func.name, arguments);
      }
      i := i + 1;
    }
    assert FirstIndex(calls, expected) == |calls|;
    return Rejected(400);
  }

  /** Only the first matching call can be selected: appending anything after
      it does not change the choice. */
  lemma {:induction false} FirstIndexIgnoresLaterCalls(calls: seq<ToolCall>, rest: seq<ToolCall>, name: string)
    requires FirstIndex(calls, name) < |calls|
    ensures FirstIndex(calls + rest, name) == FirstIndex(calls, name)
  {
    if calls[0].func.name != name {
      assert (calls + rest)[1..] == calls[1..] + rest;
      FirstIndexIgnoresLaterCalls(calls[1..], rest, name);
    }
  }

  /** Calls of other names in front of the list only shift the choice: the
      same call is selected, |prefix| places later. */
  lemma {:induction false} FirstIndexSkipsOtherNames(prefix: seq<ToolCall>, calls: seq<ToolCall>, name: string)
    requires forall i :: 0 <= i < |prefix| ==> prefix[i].func.name != name
    ensures FirstIndex(prefix + calls, name) == |prefix| + FirstIndex(calls, name)
  {
    if prefix == [] {
      assert prefix + calls == calls;
    } else {
      assert (prefix + calls)[0] == prefix[0];
      assert (prefix + calls)[1..] == prefix[1..] + calls;
      FirstIndexSkipsOtherNames(prefix[1..], calls, name);
    }
  }
}
