/** Chat completions replies and the Responses objects they are translated into. */
module ChatReplies {
  import opened Wrappers
  import NamespaceNames

  datatype Usage = Usage(prompt: int, completion: int, cached: Option<int>)

  datatype Call = Call(id: string, name: string, arguments: string)

  datatype ReplyChoice = ReplyChoice(index: int, role: string, content: Option<string>, calls: seq<Call>)

  datatype ChatReply = ChatReply(id: string, model: string, usage: Option<Usage>, choices: seq<ReplyChoice>)

  datatype Item = MessageItem(id: string, text: string) | CallItem(id: string, callId: string, name: string,
      arguments: string)

  datatype Totals = Totals(input: int, output: int, total: int, cached: Option<int>)

  datatype Response = Response(id: string, model: string, output: seq<Item>, usage: Option<Totals>)

  datatype Error =
    | BadChunk | IncompleteChunk | IdentityChanged | ChoiceIndex | FinishReason | Unfinished | NonContiguous | Truncated
    | WriteFailed | InvalidReply | InvalidCall | InvalidUsage | UnsupportedChoices | UnexpectedRole

  /** The sum of two token counts in 64-bit two's complement. */
  function Sum64(a: int, b: int): int {
    (a + b + 0x8000_0000_0000_0000) % 0x1_0000_0000_0000_0000 - 0x8000_0000_0000_0000
  }

  function CallItemOf(call: Call): Item {
    CallItem("fc_" + call.id, call.id, NamespaceNames.Decode(call.name), call.arguments)
  }

  predicate ValidCall(json: string -> bool, call: Call) { call.id != "" && call.name != "" && json(call.arguments) }

  predicate ValidCalls(json: string -> bool, calls: seq<Call>) {
    forall i :: 0 <= i < |calls| ==> ValidCall(json, calls[i])
  }

  function TextItems(id: string, content: string): seq<Item> {
    if content == "" then [] else [MessageItem("msg_" + id, content)]
  }

  function CallItems(calls: seq<Call>): seq<Item> { seq(|calls|, i requires 0 <= i < |calls| => CallItemOf(calls[i])) }

  lemma NoCalls(json: string -> bool, calls: seq<Call>)
    requires calls == []
    ensures ValidCalls(json, calls)
  {
  }

  lemma OneMoreValid(json: string -> bool, calls: seq<Call>, i: nat)
    requires i < |calls|
    ensures ValidCalls(json, calls[..i + 1]) <==> ValidCalls(json, calls[..i]) && ValidCall(json, calls[i])
    ensures ValidCalls(json, calls) ==> ValidCall(json, calls[i])
  {
    hide ValidCall;
    assert forall j :: 0 <= j <= i ==> calls[..i + 1][j] == calls[j];
    assert forall j :: 0 <= j < i ==> calls[..i][j] == calls[j];
  }

  lemma NoItems(calls: seq<Call>)
    requires calls == []
    ensures CallItems(calls) == []
  {
  }

  lemma OneMoreCall(calls: seq<Call>, i: nat)
    requires i < |calls|
    ensures CallItems(calls[..i + 1]) == CallItems(calls[..i]) + [CallItemOf(calls[i])]
  {
    hide CallItemOf;
    var all, init := CallItems(calls[..i + 1]), CallItems(calls[..i]);
    assert forall k :: 0 <= k <= i ==> all[k] == CallItemOf(calls[k]);
    assert forall k :: 0 <= k < i ==> init[k] == CallItemOf(calls[k]);
  }

  function Complete(json: string -> bool, id: string, model: string, usage: Option<Usage>, content: string,
      calls: seq<Call>)
    : Result<Response, Error>
  {
    if id == "" || model == "" then Err(InvalidReply)
    else if !ValidCalls(json, calls) then Err(InvalidCall)
    else if usage.Some? && (usage.value.prompt < 0 || usage.value.completion < 0) then Err(InvalidUsage)
    else
      Ok(Response("resp_" + id, model, TextItems(id, content) + CallItems(calls),
                  if usage.None? then None
                  else
                    var u := usage.value;
                    Some(Totals(u.prompt, u.completion, Sum64(u.prompt, u.completion), u.cached))))
  }

  /** The loop that builds the output. */
  method CompleteReply(json: string -> bool, id: string, model: string, usage: Option<Usage>, content: string,
      calls: seq<Call>)
    returns (r: Result<Response, Error>)
    ensures r == Complete(json, id, model, usage, content, calls)
  {
    hide CallItems, CallItemOf, TextItems, Sum64, ValidCall, ValidCalls;
    if model == "" || id == "" {
      return Err(InvalidReply);
    }
    var items: seq<Item> := [];
    NoItems(calls[..0]);
    NoCalls(json, calls[..0]);
    for i := 0 to |calls|
      invariant ValidCalls(json, calls[..i])
      invariant items == CallItems(calls[..i])
    {
      OneMoreValid(json, calls, i);
      if !ValidCall(json, calls[i]) {
        return Err(InvalidCall);
      }
      OneMoreCall(calls, i);
      items := items + [CallItemOf(calls[i])];
    }
    assert calls[..|calls|] == calls;
    if usage.Some? && (usage.value.prompt < 0 || usage.value.completion < 0) {
      return Err(InvalidUsage);
    }
    var totals := None;
    if usage.Some? {
      var u := usage.value;
      totals := Some(Totals(u.prompt, u.completion, Sum64(u.prompt, u.completion), u.cached));
    }
    r := Ok(Response("resp_" + id, model, TextItems(id, content) + items, totals));
  }

  /** The translation of a reply that was not streamed. */
  function TranslateResponse(json: string -> bool, reply: ChatReply): Result<Response, Error> {
    if |reply.choices| != 1 || reply.choices[0].index != 0 then Err(UnsupportedChoices)
    else if reply.choices[0].role != "assistant" then Err(UnexpectedRole)
    else
      var choice := reply.choices[0];
      Complete(json, reply.id, reply.model, reply.usage, if choice.content.Some? then choice.content.value
          else "", choice.calls)
  }

  // ---------------------------------------------------------------- what a response says

  ghost predicate IsInt64(x: int) { -0x8000_0000_0000_0000 <= x <= 0x7fff_ffff_ffff_ffff }

  /** The counts of a response are those of the reply; their sum is an int64, and wraps around. */
  ghost predicate CountsOf(usage: Usage, totals: Totals) {
    && totals.input == usage.prompt && totals.output == usage.completion && totals.cached == usage.cached
    && IsInt64(totals.total) && (totals.total - (usage.prompt + usage.completion)) % 0x1_0000_0000_0000_0000 == 0
  }

  /** The item of a call: its own id, name and arguments, the name as the client knows it. */
  ghost predicate ItemOf(call: Call, item: Item) {
    && item.CallItem? && item.callId == call.id && item.id == "fc_" + call.id && item.arguments == call.arguments
    && item.name == NamespaceNames.Decode(call.name)
  }

  /** The output of a response: its text first, if there is any, and then its calls in order. */
  ghost predicate Outputs(output: seq<Item>, id: string, content: string, calls: seq<Call>) {
    var first := if content == "" then 0 else 1;
    && |output| == first + |calls|
    && (content != "" ==> output[0] == MessageItem("msg_" + id, content))
    && forall i :: 0 <= i < |calls| ==> ItemOf(calls[i], output[first + i])
  }

  /** A reply becomes a response exactly if it is complete; otherwise the first thing that is wrong with it is named. */
  lemma CompleteExactlyWhen(json: string -> bool, id: string, model: string, usage: Option<Usage>, content: string,
                            calls: seq<Call>)
    ensures var r := Complete(json, id, model, usage, content, calls);
            var named := id != "" && model != "";
            var callable := forall i :: 0 <= i < |calls| ==>
                calls[i].id != "" && calls[i].name != "" && json(calls[i].arguments);
            var counted := usage.Some? ==> 0 <= usage.value.prompt && 0 <= usage.value.completion;
            && (r == Err(InvalidReply) <==> !named) && (r == Err(InvalidCall) <==> named && !callable)
            && (r == Err(InvalidUsage) <==> named && callable && !counted)
            && (r.Ok? <==> named && callable && counted)
            && (r.Ok? ==>
                  && r.value.id == "resp_" + id && r.value.model == model && Outputs(r.value.output, id, content, calls)
                  && (r.value.usage.Some? <==> usage.Some?)
                  && (usage.Some? ==> CountsOf(usage.value, r.value.usage.value)))
  {
    SumIsInt64(if usage.Some? then usage.value.prompt else 0, if usage.Some? then usage.value.completion else 0);
    OutputsAre(id, content, calls);
    hide Sum64, Outputs, TextItems, CallItems;
    assert ValidCalls(json, calls) <==>
        forall i :: 0 <= i < |calls| ==> calls[i].id != "" && calls[i].name != "" && json(calls[i].arguments);
  }

  lemma OutputsAre(id: string, content: string, calls: seq<Call>)
    ensures Outputs(TextItems(id, content) + CallItems(calls), id, content, calls)
  {
    hide NamespaceNames.Decode;
  }

  lemma SumIsInt64(a: int, b: int)
    ensures IsInt64(Sum64(a, b)) && (Sum64(a, b) - (a + b)) % 0x1_0000_0000_0000_0000 == 0
  {
  }

  /** A call of a declared tool, under the name it was sent with, is answered under the name that was declared. */
  lemma DeclaredCallsAreAnswered(call: Call, item: Item, tool: NamespaceNames.Tool)
    requires ItemOf(call, item) && NamespaceNames.Declarable(tool) && call.name == NamespaceNames.SentAs(tool)
    requires tool.Function? || NamespaceNames.EndsClean(tool.ns)
    ensures item.name == NamespaceNames.Known(tool)
  {
    NamespaceNames.DeclaredToolsComeBackExactlyWhen(tool);
  }

  /** A reply that was not streamed has one choice, the first, of the assistant; content that is missing is empty. */
  lemma TranslatedExactlyWhen(json: string -> bool, reply: ChatReply)
    ensures var r := TranslateResponse(json, reply);
            var one := |reply.choices| == 1 && reply.choices[0].index == 0;
            && (r == Err(UnsupportedChoices) <==> !one)
            && (r == Err(UnexpectedRole) <==> one && reply.choices[0].role != "assistant")
            && (one && reply.choices[0].role == "assistant" ==>
                  var choice := reply.choices[0];
                  var content := match choice.content case Some(text) => text case None => "";
                  r == Complete(json, reply.id, reply.model, reply.usage, content, choice.calls))
  {
  }
}
