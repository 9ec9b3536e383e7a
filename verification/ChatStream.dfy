/**
 The translation of a streamed Chat reply into Responses events.

 The stream is the sequence of its data lines; that it stops without `[DONE]` stands for every failure of the reader,
 cancellation and size limit. Any write may fail: `writes(n)` says whether the one after n others succeeds. What the
 stream says is defined by concatenation, the events by a protocol automaton, and the loop is proved against both.
 */
module ChatStream {
  import opened Wrappers
  import Sets
  import opened ChatReplies

  datatype Fragment = Fragment(index: int, id: string, name: string, arguments: string)

  datatype Choice = Choice(index: int, content: Option<string>, fragments: seq<Fragment>, finish: Option<string>)

  datatype Chunk = Chunk(id: string, model: string, usage: Option<Usage>, choices: seq<Choice>)

  datatype Data = Done | Malformed | Reply(chunk: Chunk)

  // ---------------------------------------------------------------- what a stream says

  function Text(cs: seq<Choice>): string {
    if cs == [] then ""
    else
      var last := cs[|cs| - 1];
      Text(cs[..|cs| - 1]) + if last.content.Some? then last.content.value else ""
  }

  /** Text deltas came, and every one of them was empty. */
  predicate OnlyEmptyText(cs: seq<Choice>) {
    HasText(cs) && forall i :: 0 <= i < |cs| && cs[i].content.Some? ==> cs[i].content.value == ""
  }

  lemma EmptyTextExactlyWhen(cs: seq<Choice>)
    ensures OnlyEmptyText(cs) <==> HasText(cs) && Text(cs) == ""
  {
    NoTextExactlyWhen(cs);
  }

  lemma {:induction false} NoTextExactlyWhen(cs: seq<Choice>)
    ensures Text(cs) == "" <==> forall i :: 0 <= i < |cs| && cs[i].content.Some? ==> cs[i].content.value == ""
    decreases |cs|
  {
    if cs == [] {
    } else {
      var init, last := cs[..|cs| - 1], cs[|cs| - 1];
      NoTextExactlyWhen(init);
      assert forall i :: 0 <= i < |cs| ==> cs[i] == if i < |init| then init[i] else last;
    }
  }

  function Fragments(cs: seq<Choice>): seq<Fragment> {
    if cs == [] then [] else Fragments(cs[..|cs| - 1]) + cs[|cs| - 1].fragments
  }

  predicate HasText(cs: seq<Choice>) { exists i :: 0 <= i < |cs| && cs[i].content.Some? }

  predicate HasFinished(cs: seq<Choice>) { exists i :: 0 <= i < |cs| && cs[i].finish.Some? }

  function AllChoices(chunks: seq<Chunk>): seq<Choice> {
    if chunks == [] then [] else AllChoices(chunks[..|chunks| - 1]) + chunks[|chunks| - 1].choices
  }

  function LastUsage(chunks: seq<Chunk>): Option<Usage> {
    if chunks == [] then None
    else
      var last := chunks[|chunks| - 1];
      if last.usage.Some? then last.usage else LastUsage(chunks[..|chunks| - 1])
  }

  /** The fragments of one call, in arrival order. */
  function Only(fs: seq<Fragment>, k: int): seq<Fragment> {
    if fs == [] then []
    else
      var last := fs[|fs| - 1];
      Only(fs[..|fs| - 1], k) + if last.index == k then [last] else []
  }

  /** A call that a fragment was added to. */
  function Grown(call: Call, f: Fragment): Call {
    Call(call.id + f.id, call.name + f.name, call.arguments + f.arguments)
  }

  function Joined(fs: seq<Fragment>): Call {
    if fs == [] then Call("", "", "")
    else
      Grown(Joined(fs[..|fs| - 1]), fs[|fs| - 1])
  }

  function Indices(fs: seq<Fragment>): set<int> { set i | 0 <= i < |fs| :: fs[i].index }

  /** Every call is the concatenation of its own fragments. */
  ghost predicate Assembles(calls: map<int, Call>, fs: seq<Fragment>) {
    calls.Keys == Indices(fs) && forall k :: k in calls ==> calls[k] == Joined(Only(fs, k))
  }

  predicate Contiguous(keys: set<int>) { forall i :: 0 <= i < |keys| ==> i in keys }

  predicate ValidChoice(c: Choice) {
    c.index == 0 && (c.finish.Some? ==> c.finish.value == "stop" || c.finish.value == "tool_calls")
  }

  predicate ValidChoices(cs: seq<Choice>) { forall i :: 0 <= i < |cs| ==> ValidChoice(cs[i]) }

  predicate ValidChunks(chunks: seq<Chunk>) {
    forall i :: 0 <= i < |chunks| ==>
      var c := chunks[i];
      c.id != "" && c.model != "" && c.id == chunks[0].id && c.model == chunks[0].model && ValidChoices(c.choices)
  }

  /** The chunks before `[DONE]`, if it comes and nothing before it is malformed. */
  function Body(input: seq<Data>): Option<seq<Chunk>> {
    if input == [] || input[0].Malformed? then None
    else if input[0].Done? then Some([])
    else
      var rest := Body(input[1..]);
      if rest.None? then None else Some([input[0].chunk] + rest.value)
  }

  /** The reply the same model would have sent in one piece. */
  function Assembled(chunks: seq<Chunk>): ChatReply
    requires chunks != [] && Contiguous(Indices(Fragments(AllChoices(chunks))))
  {
    var cs := AllChoices(chunks);
    var fs := Fragments(cs);
    ChatReply(chunks[0].id, chunks[0].model, LastUsage(chunks),
              [ReplyChoice(0, "assistant", Some(Text(cs)),
                  seq(|Indices(fs)|, k requires 0 <= k < |Indices(fs)| => Joined(Only(fs, k))))])
  }

  predicate Acceptable(json: string -> bool, input: seq<Data>) {
    && Body(input).Some?
    && var chunks := Body(input).value;
       && ValidChunks(chunks) && HasFinished(AllChoices(chunks)) && chunks != []
       && Contiguous(Indices(Fragments(AllChoices(chunks))))
       && TranslateResponse(json, Assembled(chunks)).Ok?
  }

  // ---------------------------------------------------------------- the event protocol

  datatype Event =
    | Created(id: string, model: string)
    | ItemAdded(index: nat, item: Item)
    | PartAdded(index: nat)
    | TextDelta(index: nat, delta: string)
    | TextDone(index: nat, text: string)
    | PartDone(index: nat, text: string)
    | ItemDone(index: nat, item: Item)
    | Completed(response: Response)

  datatype Phase =
    | Fresh
    | Items(id: string, model: string, items: seq<Item>)
    | TextItem(id: string, model: string)
    | Texting(id: string, model: string, text: string)
    | TextEnded(id: string, model: string, text: string)
    | PartEnded(id: string, model: string, text: string)
    | CallOpen(id: string, model: string, items: seq<Item>, item: Item)
    | Over(response: Response, items: seq<Item>)

  /** The items a completed response lists: all that were announced, except an empty message. */
  function Listed(items: seq<Item>): seq<Item> {
    if items != [] && items[0].MessageItem? && items[0].text == "" then items[1..] else items
  }

  function Next(p: Phase, e: Event): Option<Phase> {
    match (p, e)
    case (Fresh, Created(id, model)) => Some(Items(id, model, []))
    case (Items(id, model, items), ItemAdded(i, item)) =>
      if i != |items| then None
      else if item.CallItem? then Some(CallOpen(id, model, items, item))
      else if items == [] && item == MessageItem("msg_" + id, "") then Some(TextItem(id, model))
      else None
    case (TextItem(id, model), PartAdded(i)) => if i == 0 then Some(Texting(id, model, "")) else None
    case (Texting(id, model, text), TextDelta(i, delta)) => if i == 0 then Some(Texting(id, model, text + delta))
        else None
    case (Texting(id, model, text), TextDone(i, all)) => if i == 0 && all == text then Some(TextEnded(id, model, text))
        else None
    case (TextEnded(id, model, text), PartDone(i, all)) => if i == 0 && all == text then
        Some(PartEnded(id, model, text)) else None
    case (PartEnded(id, model, text), ItemDone(i, item)) =>
      if i == 0 && item == MessageItem("msg_" + id, text) then Some(Items(id, model, [item])) else None
    case (CallOpen(id, model, items, item), ItemDone(i, same)) =>
      if i == |items| && same == item then Some(Items(id, model, items + [item])) else None
    case (Items(id, model, items), Completed(response)) =>
      if response.id == "resp_" + id && response.model == model && response.output == Listed(items) then
          Some(Over(response, items))
      else None
    case _ => None
  }

  function PhaseOf(events: seq<Event>): Option<Phase> {
    if events == [] then Some(Fresh)
    else
      var before := PhaseOf(events[..|events| - 1]);
      if before.None? then None else Next(before.value, events[|events| - 1])
  }

  lemma OneMore(events: seq<Event>, e: Event)
    requires PhaseOf(events).Some?
    ensures PhaseOf(events + [e]) == Next(PhaseOf(events).value, e)
  {
  }

  // ---------------------------------------------------------------- the translation

  datatype State = State(id: string, model: string, usage: Option<Usage>, content: string, calls: map<int, Call>,
                         finished: bool, textStarted: bool)

  const START := State("", "", None, "", map[], false, false)

  function PhaseIn(s: State): Phase {
    if s.id == "" then Fresh
    else if s.textStarted then Texting(s.id, s.model, s.content)
    else Items(s.id, s.model, [])
  }

  // The events of a translation, spelled out.

  /** The text item and its part are announced before the first delta; every delta is sent as it comes. */
  ghost function Speech(id: string, begun: bool, content: Option<string>): seq<Event> {
    if content.None? then []
    else if begun then [TextDelta(0, content.value)]
    else [ItemAdded(0, MessageItem("msg_" + id, "")), PartAdded(0), TextDelta(0, content.value)]
  }

  ghost function Spoken(id: string, cs: seq<Choice>): seq<Event> {
    if cs == [] then []
    else
      var init, last := cs[..|cs| - 1], cs[|cs| - 1];
      Spoken(id, init) + Speech(id, HasText(init), last.content)
  }

  /** The text item ends three times over, each time with the whole text. */
  ghost function TextEnding(id: string, text: string): seq<Event> {
    [TextDone(0, text), PartDone(0, text), ItemDone(0, MessageItem("msg_" + id, text))]
  }

  /** Each call is added and done at once, in order, from place `first` on. */
  ghost function CallEvents(first: nat, calls: seq<Call>): seq<Event> {
    if calls == [] then []
    else
      var init, place, item := calls[..|calls| - 1], first + |calls| - 1, CallItemOf(calls[|calls| - 1]);
      CallEvents(first, init) + [ItemAdded(place, item), ItemDone(place, item)]
  }

  ghost function Opening(id: string, model: string): seq<Event> { if id == "" then [] else [Created(id, model)] }

  /** All events of a stream that was translated. */
  ghost function AllEvents(id: string, model: string, cs: seq<Choice>, calls: seq<Call>, response: Response)
    : seq<Event>
  {
    Opening(id, model) + Spoken(id, cs) + (if HasText(cs) then TextEnding(id, Text(cs)) else [])
    + CallEvents(if HasText(cs) then 1 else 0, calls) + [Completed(response)]
  }

  /** The state is what the choices seen so far say, and the events are what they are translated into. */
  ghost predicate Tracks(s: State, cs: seq<Choice>, events: seq<Event>) {
    && events == Opening(s.id, s.model) + Spoken(s.id, cs)
    && s.content == Text(cs) && s.textStarted == HasText(cs) && s.finished == HasFinished(cs)
    && Assembles(s.calls, Fragments(cs)) && PhaseOf(events) == Some(PhaseIn(s)) && (!s.textStarted ==> s.content == "")
  }

  /** All these events were written. */
  ghost predicate Sent(writes: nat -> bool, events: seq<Event>) { forall n :: 0 <= n < |events| ==> writes(n) }

  /** Sends one event, if the write of an event after so many others succeeds. */
  method Emit(writes: nat -> bool, events: seq<Event>, e: Event) returns (out: seq<Event>, ok: bool)
    requires Sent(writes, events) && PhaseOf(events).Some? && Next(PhaseOf(events).value, e).Some?
    ensures ok == writes(|events|) && Sent(writes, out)
    ensures out == if ok then events + [e] else events
    ensures PhaseOf(out) == if ok then Next(PhaseOf(events).value, e) else PhaseOf(events)
  {
    OneMore(events, e);
    ok := writes(|events|);
    out := if ok then events + [e] else events;
  }

  ghost predicate Interrupted(events: seq<Event>) { PhaseOf(events).Some? && !PhaseOf(events).value.Over? }

  lemma OneMoreFragment(fs: seq<Fragment>, f: Fragment, k: int)
    ensures Only(fs + [f], k) == Only(fs, k) + if f.index == k then [f] else []
    ensures Indices(fs + [f]) == Indices(fs) + {f.index}
    ensures Joined(fs + [f]) == Grown(Joined(fs), f)
  {
  }

  /** What a fragment adds to its own call, and that it adds nothing to the others. */
  lemma OneMoreForCall(fs: seq<Fragment>, f: Fragment, k: int)
    ensures Joined(Only(fs + [f], k)) == if k == f.index then Grown(Joined(Only(fs, k)), f) else Joined(Only(fs, k))
  {
    OneMoreFragment(fs, f, k);
    hide Only, Joined;
    if k == f.index {
      OneMoreFragment(Only(fs, k), f, k);
    } else {
      assert Only(fs, k) + [] == Only(fs, k);
    }
  }

  lemma AddFragment(calls: map<int, Call>, fs: seq<Fragment>, f: Fragment)
    requires Assembles(calls, fs)
    ensures Assembles(calls[f.index := Grown(if f.index in calls then calls[f.index] else Call("", "", ""), f)],
        fs + [f])
  {
    hide Only, Joined, Indices, Grown;
    NoneThere(fs, f.index);
    NothingJoined();
    OneMoreFragment(fs, f, f.index);
    forall k
      ensures Joined(Only(fs + [f], k)) == if k == f.index then Grown(Joined(Only(fs, k)), f) else Joined(Only(fs, k))
    {
      OneMoreForCall(fs, f, k);
    }
  }

  lemma NothingJoined()
    ensures Joined([]) == Call("", "", "")
  {
  }

  lemma {:induction false} NoneThere(fs: seq<Fragment>, k: int)
    ensures k !in Indices(fs) ==> Only(fs, k) == []
    decreases |fs|
  {
    if fs == [] {
    } else {
      NoneThere(fs[..|fs| - 1], k);
      assert fs[|fs| - 1].index in Indices(fs);
      assert Indices(fs[..|fs| - 1]) <= Indices(fs);
    }
  }

  method AddFragments(calls: map<int, Call>, fragments: seq<Fragment>, ghost fs: seq<Fragment>)
      returns (all: map<int, Call>)
    requires Assembles(calls, fs)
    ensures Assembles(all, fs + fragments)
  {
    hide Assembles;
    all := calls;
    assert fs + fragments[..0] == fs;
    for i := 0 to |fragments|
      invariant Assembles(all, fs + fragments[..i])
    {
      var f := fragments[i];
      AddFragment(all, fs + fragments[..i], f);
      assert fs + fragments[..i] + [f] == fs + fragments[..i + 1];
      var call := if f.index in all then all[f.index] else Call("", "", "");
      all := all[f.index := Grown(call, f)];
    }
    assert fragments[..|fragments|] == fragments;
  }

  lemma OneMoreChoice(cs: seq<Choice>, c: Choice)
    ensures Text(cs + [c]) == Text(cs) + if c.content.Some? then c.content.value else ""
    ensures Fragments(cs + [c]) == Fragments(cs) + c.fragments
    ensures HasText(cs + [c]) <==> HasText(cs) || c.content.Some?
    ensures HasFinished(cs + [c]) <==> HasFinished(cs) || c.finish.Some?
  {
  }

  lemma OneMoreSpoken(id: string, cs: seq<Choice>, c: Choice)
    ensures Spoken(id, cs + [c]) == Spoken(id, cs) + Speech(id, HasText(cs), c.content)
    ensures c.content.None? ==> Spoken(id, cs + [c]) == Spoken(id, cs)
  {
  }

  lemma NothingSpoken(id: string)
    ensures Spoken(id, []) == [] && Opening("", "") == []
  {
  }

  /** The text of one delta, if it has any. */
  method ApplyText(writes: nat -> bool, s: State, content: Option<string>, events: seq<Event>)
    returns (next: State, out: seq<Event>, ok: bool)
    requires Sent(writes, events) && s.id != "" && PhaseOf(events) == Some(PhaseIn(s))
    requires !s.textStarted ==> s.content == ""
    ensures ok ==>
              && next == (if content.None? then s
                          else s.(textStarted := true, content := s.content + content.value))
              && PhaseOf(out) == Some(PhaseIn(next)) && out == events + Speech(s.id, s.textStarted, content)
    ensures Interrupted(out) && Sent(writes, out) && (!ok ==> !writes(|out|))
  {
    next, out, ok := s, events, true;
    if content.None? {
      return;
    }
    if !s.textStarted {
      out, ok := Emit(writes, out, ItemAdded(0, MessageItem("msg_" + s.id, "")));
      if !ok { return; }
      out, ok := Emit(writes, out, PartAdded(0));
      if !ok { return; }
      next := next.(textStarted := true);
    }
    next := next.(content := next.content + content.value);
    out, ok := Emit(writes, out, TextDelta(0, content.value));
  }

  lemma TracksIsOpen(s: State, cs: seq<Choice>, events: seq<Event>)
    requires Tracks(s, cs, events)
    ensures Interrupted(events)
  {
  }

  method ApplyChoice(writes: nat -> bool, s: State, c: Choice, events: seq<Event>, ghost cs: seq<Choice>)
    returns (next: State, out: seq<Event>, error: Option<Error>)
    requires Sent(writes, events) && s.id != "" && Tracks(s, cs, events)
    ensures error.None? ==> Tracks(next, cs + [c], out) && ValidChoice(c)
    ensures error.None? ==> next.id == s.id && next.model == s.model && next.usage == s.usage
    ensures error.Some? ==> Interrupted(out) && (error.value == WriteFailed || !ValidChoice(c))
    ensures Sent(writes, out) && (error == Some(WriteFailed) ==> !writes(|out|))
  {
    hide PhaseOf, Assembles, HasText, HasFinished, Spoken, Speech, Opening, Text, Fragments, Interrupted;
    TracksIsOpen(s, cs, events);
    OneMoreChoice(cs, c);
    OneMoreSpoken(s.id, cs, c);
    next, out := s, events;
    if c.index != 0 {
      return next, out, Some(ChoiceIndex);
    }
    var ok;
    next, out, ok := ApplyText(writes, next, c.content, out);
    if !ok {
      return next, out, Some(WriteFailed);
    }
    var calls := AddFragments(next.calls, c.fragments, Fragments(cs));
    next := next.(calls := calls);
    if c.finish.Some? {
      if c.finish.value != "stop" && c.finish.value != "tool_calls" {
        return next, out, Some(FinishReason);
      }
      next := next.(finished := true);
    }
    error := None;
  }

  /** The choices of one chunk. */
  method ApplyChoices(writes: nat -> bool, s: State, choices: seq<Choice>, events: seq<Event>, ghost cs: seq<Choice>)
    returns (next: State, out: seq<Event>, error: Option<Error>)
    requires Sent(writes, events) && s.id != "" && Tracks(s, cs, events)
    ensures error.None? ==> Tracks(next, cs + choices, out) && ValidChoices(choices)
    ensures error.None? ==> next.id == s.id && next.model == s.model && next.usage == s.usage
    ensures error.Some? ==> Interrupted(out) && (error.value == WriteFailed || !ValidChoices(choices))
    ensures Sent(writes, out) && (error == Some(WriteFailed) ==> !writes(|out|))
  {
    hide Tracks, Interrupted;
    next, out := s, events;
    assert cs + choices[..0] == cs;
    for j := 0 to |choices|
      invariant Sent(writes, out) && Tracks(next, cs + choices[..j], out)
      invariant next.id == s.id && next.model == s.model && next.usage == s.usage
      invariant forall i :: 0 <= i < j ==> ValidChoice(choices[i])
    {
      next, out, error := ApplyChoice(writes, next, choices[j], out, cs + choices[..j]);
      if error.Some? {
        return;
      }
      assert cs + choices[..j] + [choices[j]] == cs + choices[..j + 1];
    }
    assert choices[..|choices|] == choices;
    error := None;
  }

  ghost predicate Reads(s: State, chunks: seq<Chunk>, events: seq<Event>) {
    && Tracks(s, AllChoices(chunks), events) && ValidChunks(chunks) && s.usage == LastUsage(chunks)
    && (if chunks == [] then s.id == "" && s.model == "" else s.id == chunks[0].id && s.model == chunks[0].model)
  }

  lemma OneMoreChunk(chunks: seq<Chunk>, c: Chunk)
    ensures AllChoices(chunks + [c]) == AllChoices(chunks) + c.choices
    ensures LastUsage(chunks + [c]) == if c.usage.Some? then c.usage else LastUsage(chunks)
    ensures ValidChunks(chunks + [c])
            <==> ValidChunks(chunks) && c.id != "" && c.model != "" && ValidChoices(c.choices)
                 && (chunks != [] ==> c.id == chunks[0].id && c.model == chunks[0].model)
  {
  }

  lemma NoChoices()
    ensures AllChoices([]) == [] && !HasText([])
  {
  }

  method ApplyChunk(writes: nat -> bool, s: State, c: Chunk, events: seq<Event>, ghost chunks: seq<Chunk>)
    returns (next: State, out: seq<Event>, error: Option<Error>)
    requires Sent(writes, events) && Reads(s, chunks, events)
    ensures error.None? ==> Reads(next, chunks + [c], out)
    ensures error.Some? ==> Interrupted(out) && (error.value == WriteFailed || !ValidChunks(chunks + [c]))
    ensures Sent(writes, out) && (error == Some(WriteFailed) ==> !writes(|out|))
  {
    hide Text, Fragments, Assembles, HasText, HasFinished, AllChoices, LastUsage, PhaseOf, ValidChoices;
    OneMoreChunk(chunks, c);
    next, out := s, events;
    if c.id == "" || c.model == "" {
      return next, out, Some(IncompleteChunk);
    }
    if s.id != "" && (s.id != c.id || s.model != c.model) {
      return next, out, Some(IdentityChanged);
    }
    next := next.(id := c.id, model := c.model);
    if s.id == "" {
      NoChoices();
      var ok;
      out, ok := Emit(writes, out, Created(c.id, c.model));
      if !ok {
        return next, out, Some(WriteFailed);
      }
    }
    if c.usage.Some? {
      next := next.(usage := c.usage);
    }
    next, out, error := ApplyChoices(writes, next, c.choices, out, AllChoices(chunks));
  }

  lemma {:induction false} BadStartStays(a: seq<Chunk>, b: seq<Chunk>)
    requires ValidChunks(a + b)
    ensures ValidChunks(a)
  {
    assert forall i :: 0 <= i < |a| ==> a[i] == (a + b)[i];
  }

  /** The events of the text item's end. */
  method EndText(writes: nat -> bool, s: State, events: seq<Event>) returns (out: seq<Event>, ok: bool)
    requires Sent(writes, events) && s.id != "" && PhaseOf(events) == Some(PhaseIn(s))
    ensures Interrupted(out) && Sent(writes, out) && (!ok ==> !writes(|out|))
    ensures var items := if s.textStarted then [MessageItem("msg_" + s.id, s.content)] else [];
            ok ==> PhaseOf(out) == Some(Items(s.id, s.model, items))
    ensures ok ==> out == events + if s.textStarted then TextEnding(s.id, s.content) else []
  {
    out, ok := events, true;
    if s.textStarted {
      out, ok := Emit(writes, out, TextDone(0, s.content));
      if !ok { return; }
      out, ok := Emit(writes, out, PartDone(0, s.content));
      if !ok { return; }
      out, ok := Emit(writes, out, ItemDone(0, MessageItem("msg_" + s.id, s.content)));
    }
  }

  method SendCall(writes: nat -> bool, index: nat, item: Item, events: seq<Event>, ghost id: string,
                  ghost model: string, ghost items: seq<Item>)
    returns (out: seq<Event>, ok: bool)
    requires Sent(writes, events) && PhaseOf(events) == Some(Items(id, model, items))
    requires index == |items| && item.CallItem?
    ensures Interrupted(out) && Sent(writes, out) && (!ok ==> !writes(|out|))
    ensures ok ==> PhaseOf(out) == Some(Items(id, model, items + [item]))
    ensures ok ==> out == events + [ItemAdded(index, item), ItemDone(index, item)]
  {
    hide PhaseOf;
    out, ok := Emit(writes, events, ItemAdded(index, item));
    if !ok { return; }
    out, ok := Emit(writes, out, ItemDone(index, item));
  }

  method SendCalls(writes: nat -> bool, textStarted: bool, calls: seq<Call>, events: seq<Event>, ghost id: string,
                   ghost model: string, ghost first: seq<Item>)
    returns (out: seq<Event>, ok: bool)
    requires |first| == if textStarted then 1 else 0
    requires Sent(writes, events) && PhaseOf(events) == Some(Items(id, model, first))
    ensures Interrupted(out) && Sent(writes, out) && (!ok ==> !writes(|out|))
    ensures ok ==> PhaseOf(out) == Some(Items(id, model, first + CallItems(calls)))
    ensures ok ==> out == events + CallEvents(|first|, calls)
  {
    hide PhaseOf, Next, CallItems, CallEvents;
    out, ok := events, true;
    NoCallEvents(|first|, calls[..0]);
    NoItems(calls[..0]);
    ghost var sent := first;
    for i := 0 to |calls|
      invariant sent == first + CallItems(calls[..i]) && |sent| == |first| + i
      invariant out == events + CallEvents(|first|, calls[..i])
      invariant Sent(writes, out) && PhaseOf(out) == Some(Items(id, model, sent))
    {
      var index, item := i, CallItemOf(calls[i]);
      if textStarted {
        index := index + 1;
      }
      out, ok := SendCall(writes, index, item, out, id, model, sent);
      if !ok { return; }
      OneMoreCall(calls, i);
      OneMoreCallEvent(|first|, calls, i);
      sent := sent + [item];
    }
    assert calls[..|calls|] == calls;
    ok := true;
  }

  lemma NoCallEvents(first: nat, calls: seq<Call>)
    requires calls == []
    ensures CallEvents(first, calls) == []
  {
  }

  lemma OneMoreCallEvent(first: nat, calls: seq<Call>, i: nat)
    requires i < |calls|
    ensures CallEvents(first, calls[..i + 1])
            == CallEvents(first, calls[..i])
               + [ItemAdded(first + i, CallItemOf(calls[i])), ItemDone(first + i, CallItemOf(calls[i]))]
  {
    hide CallItemOf;
    assert calls[..i + 1][..i] == calls[..i];
  }

  /** The calls in index order, when their indices leave no gap. */
  method InOrder(calls: map<int, Call>) returns (r: Option<seq<Call>>)
    ensures r.Some? <==> Contiguous(calls.Keys)
    ensures r.Some? ==> |r.value| == |calls| && forall i :: 0 <= i < |calls| ==> i in calls && r.value[i] == calls[i]
  {
    var ordered := [];
    for i := 0 to |calls|
      invariant |ordered| == i && forall j :: 0 <= j < i ==> j in calls && ordered[j] == calls[j]
    {
      if i !in calls {
        assert !Contiguous(calls.Keys);
        return None;
      }
      ordered := ordered + [calls[i]];
    }
    r := Some(ordered);
  }

  /** The events after the reply is known to be complete. */
  method SendEnding(writes: nat -> bool, s: State, calls: seq<Call>, response: Response, events: seq<Event>)
    returns (out: seq<Event>, ok: bool)
    requires Sent(writes, events)
    requires s.id != "" && PhaseOf(events) == Some(PhaseIn(s)) && (!s.textStarted ==> s.content == "")
    requires response.id == "resp_" + s.id && response.model == s.model
    requires response.output == TextItems(s.id, s.content) + CallItems(calls)
    ensures PhaseOf(out).Some? && (ok <==> PhaseOf(out).value.Over?)
    ensures Sent(writes, out) && (!ok ==> !writes(|out|))
    ensures ok ==> PhaseOf(out).value.response == response
    ensures ok ==> (PhaseOf(out).value.items == response.output <==> s.content != "" || !s.textStarted)
    ensures ok ==>
              out == events + (if s.textStarted then TextEnding(s.id, s.content) else [])
                     + CallEvents(if s.textStarted then 1 else 0, calls) + [Completed(response)]
  {
    hide PhaseOf, CallItems, PhaseIn, CallEvents, TextEnding;
    out, ok := EndText(writes, s, events);
    if !ok {
      return;
    }
    ghost var first := if s.textStarted then [MessageItem("msg_" + s.id, s.content)] else [];
    out, ok := SendCalls(writes, s.textStarted, calls, out, s.id, s.model, first);
    if !ok {
      return;
    }
    ListedIsOutput(s.id, s.content, s.textStarted, calls);
    out, ok := Emit(writes, out, Completed(response));
  }

  /** The part after `[DONE]`. */
  method Conclude(json: string -> bool, writes: nat -> bool, s: State, events: seq<Event>, ghost chunks: seq<Chunk>)
    returns (r: Result<Response, Error>, out: seq<Event>)
    requires Sent(writes, events) && Reads(s, chunks, events)
    ensures Sent(writes, out) && (r == Err(WriteFailed) ==> !writes(|out|))
    ensures PhaseOf(out).Some? && (r.Ok? <==> PhaseOf(out).value.Over?)
    ensures r.Ok? ==> Concluded(json, chunks, r, out)
    ensures r.Err? && r.error != WriteFailed ==>
              chunks == [] || !HasFinished(AllChoices(chunks)) || !Contiguous(Indices(Fragments(AllChoices(chunks))))
              || TranslateResponse(json, Assembled(chunks)).Err?
  {
    hide Text, Fragments, HasText, LastUsage, PhaseOf, AllChoices, ValidChunks, Complete, IndicesArePositions,
        OnlyEmptyText, Spoken, CallEvents, TextEnding, Opening;
    out := events;
    if !s.finished {
      return Err(Unfinished), out;
    }
    var ordered := InOrder(s.calls);
    if ordered.None? {
      return Err(NonContiguous), out;
    }
    var calls := ordered.value;
    r := CompleteReply(json, s.id, s.model, s.usage, s.content, calls);
    assert chunks != [] ==> calls == Assembled(chunks).choices[0].calls;
    if r.Err? {
      NoWriteNeeded(json, s.id, s.model, s.usage, s.content, calls);
      return;
    }
    CompleteNeedsId(json, s.id, s.model, s.usage, s.content, calls);
    var ok;
    out, ok := SendEnding(writes, s, calls, r.value, out);
    if !ok {
      return Err(WriteFailed), out;
    }
    IndicesArePositionsExactlyWhen(out);
    EmptyTextExactlyWhen(AllChoices(chunks));
  }

  /** The reply itself is made without a write. */
  lemma NoWriteNeeded(json: string -> bool, id: string, model: string, usage: Option<Usage>, content: string,
      calls: seq<Call>)
    ensures Complete(json, id, model, usage, content, calls) != Err(WriteFailed)
  {
  }

  lemma CompleteNeedsId(json: string -> bool, id: string, model: string, usage: Option<Usage>, content: string,
      calls: seq<Call>)
    requires Complete(json, id, model, usage, content, calls).Ok?
    ensures id != ""
    ensures var response := Complete(json, id, model, usage, content, calls).value;
            response.id == "resp_" + id && response.model == model
                && response.output == TextItems(id, content) + CallItems(calls)
  {
  }

  lemma ListedIsOutput(id: string, content: string, textStarted: bool, calls: seq<Call>)
    requires !textStarted ==> content == ""
    ensures var items := (if textStarted then [MessageItem("msg_" + id, content)] else []) + CallItems(calls);
            var output := TextItems(id, content) + CallItems(calls);
            Listed(items) == output && (items == output <==> content != "" || !textStarted)
  {
  }

  /** What a success means. */
  ghost predicate Concluded(json: string -> bool, chunks: seq<Chunk>, r: Result<Response, Error>, events: seq<Event>) {
    && chunks != [] && HasFinished(AllChoices(chunks)) && Contiguous(Indices(Fragments(AllChoices(chunks))))
    && r == TranslateResponse(json, Assembled(chunks)) && r.Ok?
    && PhaseOf(events).Some? && PhaseOf(events).value.Over? && PhaseOf(events).value.response == r.value
    && (IndicesArePositions(events, r.value.output) <==> !OnlyEmptyText(AllChoices(chunks)))
    && events == AllEvents(chunks[0].id, chunks[0].model, AllChoices(chunks), Assembled(chunks).choices[0].calls,
                           r.value)
  }

  /**
   A stream is translated exactly when it is acceptable and every write succeeds, and then into what the same reply in
   one piece is translated into. The events always follow the protocol, and it is over exactly on success; they are
   those written before the first write that fails, if one does.
   */
  method Translate(json: string -> bool, writes: nat -> bool, input: seq<Data>)
    returns (r: Result<Response, Error>, events: seq<Event>)
    ensures (forall n :: writes(n)) ==> (r.Ok? <==> Acceptable(json, input))
    ensures r != Err(WriteFailed) ==> (r.Ok? <==> Acceptable(json, input))
    ensures Sent(writes, events) && (r == Err(WriteFailed) ==> !writes(|events|))
    ensures r.Ok? ==> Acceptable(json, input) && Concluded(json, Body(input).value, r, events)
    ensures PhaseOf(events).Some? && (r.Ok? <==> PhaseOf(events).value.Over?)
  {
    hide Reads, PhaseOf, TranslateResponse, Assembled, AllChoices, Contiguous, Indices, Fragments, HasFinished,
        ValidChunks, Sent, Acceptable, Concluded;
    var s := START;
    events := [];
    ghost var seen: seq<Chunk> := [];
    StartReads(writes);
    assert input[0..] == input && forall rest: seq<Chunk> :: [] + rest == rest;
    var i := 0;
    while i < |input|
      invariant 0 <= i <= |input|
      invariant Sent(writes, events) && Reads(s, seen, events)
      invariant Body(input) == if Body(input[i..]).None? then None else Some(seen + Body(input[i..]).value)
    {
      assert input[i..][0] == input[i] && input[i..][1..] == input[i + 1..];
      ReadsIsOpen(s, seen, events);
      match input[i] {
        case Done =>
          assert seen + [] == seen;
          AcceptableWhen(json, input, seen);
          r, events := Conclude(json, writes, s, events, seen);
          return;
        case Malformed =>
          NoBody(json, input);
          return Err(BadChunk), events;
        case Reply(c) =>
          var error;
          s, events, error := ApplyChunk(writes, s, c, events, seen);
          if error.Some? {
            if error.value != WriteFailed {
              NotAcceptable(json, input, seen, c, Body(input[i + 1..]));
            }
            return Err(error.value), events;
          }
          ghost var rest := Body(input[i + 1..]);
          assert rest.Some? ==> seen + ([c] + rest.value) == seen + [c] + rest.value;
          seen := seen + [c];
      }
      i := i + 1;
    }
    ReadsIsOpen(s, seen, events);
    NoBody(json, input);
    r := Err(Truncated);
  }

  lemma AcceptableWhen(json: string -> bool, input: seq<Data>, chunks: seq<Chunk>)
    requires Body(input) == Some(chunks) && ValidChunks(chunks)
    ensures Acceptable(json, input) <==>
        chunks != [] && HasFinished(AllChoices(chunks)) && Contiguous(Indices(Fragments(AllChoices(chunks))))
        && TranslateResponse(json, Assembled(chunks)).Ok?
    ensures forall r, events :: Concluded(json, chunks, r, events) ==> r.Ok? && Acceptable(json, input)
  {
  }

  /** A stream with a bad beginning, or without an end. */
  lemma NotAcceptable(json: string -> bool, input: seq<Data>, seen: seq<Chunk>, c: Chunk, rest: Option<seq<Chunk>>)
    requires Body(input) == if rest.None? then None else Some(seen + ([c] + rest.value))
    requires !ValidChunks(seen + [c])
    ensures !Acceptable(json, input)
  {
    if rest.Some? && ValidChunks(Body(input).value) {
      assert seen + ([c] + rest.value) == seen + [c] + rest.value;
      BadStartStays(seen + [c], rest.value);
    }
  }

  lemma NoBody(json: string -> bool, input: seq<Data>)
    requires Body(input).None?
    ensures !Acceptable(json, input)
  {
  }

  lemma StartReads(writes: nat -> bool)
    ensures Reads(START, [], []) && Sent(writes, [])
  {
  }

  lemma ReadsIsOpen(s: State, chunks: seq<Chunk>, events: seq<Event>)
    requires Reads(s, chunks, events)
    ensures Interrupted(events) && ValidChunks(chunks)
  {
  }

  // ---------------------------------------------------------------- what follows

  function Upto(n: nat): (r: set<int>)
    ensures |r| == n && forall i :: i in r <==> 0 <= i < n
  {
    if n == 0 then {} else Upto(n - 1) + {n - 1}
  }

  /** No gap means the indices are 0 to n - 1 and nothing else, negative ones included. */
  lemma ContiguousIsRange(keys: set<int>)
    ensures Contiguous(keys) <==> keys == Upto(|keys|)
  {
    var range := Upto(|keys|);
    if Contiguous(keys) && keys != range {
      assert range <= keys;
      var extra :| extra in keys && extra !in range;
      Sets.SmallerSet(range, keys - {extra});
    }
  }

  /** What a call's fragments say one after the other is what they say together: the later text follows the earlier. */
  lemma {:induction false} JoinedAppends(fs: seq<Fragment>, gs: seq<Fragment>)
    ensures Joined(fs + gs).id == Joined(fs).id + Joined(gs).id
    ensures Joined(fs + gs).name == Joined(fs).name + Joined(gs).name
    ensures Joined(fs + gs).arguments == Joined(fs).arguments + Joined(gs).arguments
    decreases |gs|
  {
    hide Joined;
    if gs == [] {
      assert fs + gs == fs;
      NothingJoined();
    } else {
      var init, last := gs[..|gs| - 1], gs[|gs| - 1];
      JoinedAppends(fs, init);
      OneFragmentMore(fs + init, last);
      OneFragmentMore(init, last);
      assert fs + gs == fs + init + [last] && init + [last] == gs;
    }
  }

  lemma OneFragmentMore(fs: seq<Fragment>, f: Fragment)
    ensures Joined(fs + [f]).id == Joined(fs).id + f.id && Joined(fs + [f]).name == Joined(fs).name + f.name
    ensures Joined(fs + [f]).arguments == Joined(fs).arguments + f.arguments
  {
  }

  /** The fragments of one call, in the order in which they came. */
  lemma {:induction false} OnlyAppends(fs: seq<Fragment>, gs: seq<Fragment>, k: int)
    ensures Only(fs + gs, k) == Only(fs, k) + Only(gs, k)
    decreases |gs|
  {
    hide Only;
    if gs == [] {
      assert fs + gs == fs;
      NothingOnly(k);
    } else {
      var init, last := gs[..|gs| - 1], gs[|gs| - 1];
      OnlyAppends(fs, init, k);
      OneFragmentMoreOnly(fs + init, last, k);
      OneFragmentMoreOnly(init, last, k);
      assert fs + gs == fs + init + [last] && init + [last] == gs;
    }
  }

  lemma OneFragmentMoreOnly(fs: seq<Fragment>, f: Fragment, k: int)
    ensures Only(fs + [f], k) == Only(fs, k) + if f.index == k then [f] else []
  {
  }

  lemma NothingOnly(k: int)
    ensures Only([], k) == []
  {
  }

  /** What choices say one after the other: their text and their fragments follow each other. */
  lemma {:induction false} ChoicesAppend(cs: seq<Choice>, ds: seq<Choice>)
    ensures Text(cs + ds) == Text(cs) + Text(ds) && Fragments(cs + ds) == Fragments(cs) + Fragments(ds)
    decreases |ds|
  {
    hide Text, Fragments, HasText, HasFinished;
    if ds == [] {
      assert cs + ds == cs;
      NoChoiceSaysAnything();
    } else {
      var init, last := ds[..|ds| - 1], ds[|ds| - 1];
      ChoicesAppend(cs, init);
      OneMoreChoice(cs + init, last);
      OneMoreChoice(init, last);
      assert cs + ds == cs + init + [last] && init + [last] == ds;
    }
  }

  lemma NoChoiceSaysAnything()
    ensures Text([]) == "" && Fragments([]) == []
  {
  }

  /** One choice says its content, if it has one, and its fragments. */
  lemma OneChoiceSays(c: Choice)
    ensures Text([c]) == (match c.content case Some(text) => text case None => "") && Fragments([c]) == c.fragments
  {
    hide Text, Fragments, HasText, HasFinished;
    NoChoiceSaysAnything();
    OneMoreChoice([], c);
    assert [] + [c] == [c];
  }

  /** What chunks say one after the other: their choices follow each other, and the last usage that is given counts. */
  lemma {:induction false} ChunksAppend(a: seq<Chunk>, b: seq<Chunk>)
    ensures AllChoices(a + b) == AllChoices(a) + AllChoices(b)
    ensures LastUsage(a + b) == if LastUsage(b).Some? then LastUsage(b) else LastUsage(a)
    decreases |b|
  {
    hide AllChoices, LastUsage, ValidChunks;
    if b == [] {
      assert a + b == a;
      NoChunkSaysAnything();
    } else {
      var init, last := b[..|b| - 1], b[|b| - 1];
      ChunksAppend(a, init);
      OneMoreChunk(a + init, last);
      OneMoreChunk(init, last);
      assert a + b == a + init + [last] && init + [last] == b;
    }
  }

  lemma NoChunkSaysAnything()
    ensures AllChoices([]) == [] && LastUsage([]) == None
  {
  }

  lemma OneChunkSays(c: Chunk)
    ensures AllChoices([c]) == c.choices && LastUsage([c]) == c.usage
  {
    hide AllChoices, LastUsage, ValidChunks;
    NoChunkSaysAnything();
    OneMoreChunk([], c);
    assert [] + [c] == [c];
  }

  /** Only the order of fragments within one call matters: any interleaving that keeps it assembles the same calls. */
  lemma InterleavingIsIrrelevant(calls: map<int, Call>, fs: seq<Fragment>, gs: seq<Fragment>)
    requires forall k :: Only(fs, k) == Only(gs, k)
    ensures Assembles(calls, fs) <==> Assembles(calls, gs)
  {
    forall k
      ensures k in Indices(fs) <==> k in Indices(gs)
    {
      ThereExactlyWhen(fs, k);
      ThereExactlyWhen(gs, k);
    }
    assert Indices(fs) == Indices(gs);
  }

  lemma {:induction false} ThereExactlyWhen(fs: seq<Fragment>, k: int)
    ensures k in Indices(fs) <==> Only(fs, k) != []
    decreases |fs|
  {
    if fs == [] {
    } else {
      var init := fs[..|fs| - 1];
      ThereExactlyWhen(init, k);
      assert Indices(fs) == Indices(init) + {fs[|fs| - 1].index} by {
        assert forall i :: 0 <= i < |fs| ==> fs[i] == if i < |init| then init[i] else fs[|fs| - 1];
      }
    }
  }

  // ---------------------------------------------------------------- which streams are translated

  /** The stream is these chunks, and then its end. */
  ghost predicate Frames(input: seq<Data>, chunks: seq<Chunk>) {
    && |chunks| < |input| && input[|chunks|] == Done
    && forall i :: 0 <= i < |chunks| ==> input[i] == Reply(chunks[i])
  }

  lemma {:induction false} BodyExactlyWhen(input: seq<Data>, chunks: seq<Chunk>)
    ensures Body(input) == Some(chunks) <==> Frames(input, chunks)
    decreases |input|
  {
    if input == [] || !input[0].Reply? {
    } else if chunks == [] {
      assert input[0] != Done;
    } else {
      BodyExactlyWhen(input[1..], chunks[1..]);
      assert chunks == [chunks[0]] + chunks[1..];
      assert Frames(input, chunks) <==> input[0] == Reply(chunks[0]) && Frames(input[1..], chunks[1..]) by {
        if input[0] == Reply(chunks[0]) && Frames(input[1..], chunks[1..]) {
          assert forall i :: 1 <= i < |chunks| ==> input[i] == input[1..][i - 1] && chunks[i] == chunks[1..][i - 1];
        }
        if Frames(input, chunks) {
          assert forall i :: 0 <= i < |chunks| - 1 ==> input[1..][i] == input[i + 1] && chunks[1..][i] == chunks[i + 1];
        }
      }
    }
  }

  /** One model answers one request with one choice, which finishes in one of the two ways. */
  ghost predicate OneAnswer(chunks: seq<Chunk>) {
    && chunks != [] && chunks[0].id != "" && chunks[0].model != ""
    && (forall i :: 0 <= i < |chunks| ==> chunks[i].id == chunks[0].id && chunks[i].model == chunks[0].model)
    && (forall i, c :: 0 <= i < |chunks| && c in chunks[i].choices ==>
          c.index == 0 && (c.finish == None || c.finish == Some("stop") || c.finish == Some("tool_calls")))
    && exists i, c :: 0 <= i < |chunks| && c in chunks[i].choices && c.finish != None
  }

  lemma {:induction false} InSomeChunk(chunks: seq<Chunk>, c: Choice)
    ensures c in AllChoices(chunks) <==> exists i :: 0 <= i < |chunks| && c in chunks[i].choices
    decreases |chunks|
  {
    if chunks == [] {
    } else {
      var init, last := chunks[..|chunks| - 1], chunks[|chunks| - 1];
      InSomeChunk(init, c);
      assert forall i :: 0 <= i < |chunks| ==> chunks[i] == if i < |init| then init[i] else last;
    }
  }

  lemma OneAnswerExactlyWhen(chunks: seq<Chunk>)
    ensures OneAnswer(chunks) <==> chunks != [] && ValidChunks(chunks) && HasFinished(AllChoices(chunks))
  {
    hide AllChoices;
    forall c
      ensures c in AllChoices(chunks) <==> exists i :: 0 <= i < |chunks| && c in chunks[i].choices
    {
      InSomeChunk(chunks, c);
    }
    var all := AllChoices(chunks);
    if HasFinished(all) {
      var k :| 0 <= k < |all| && all[k].finish.Some?;
      assert all[k] in all;
    }
    if OneAnswer(chunks) {
      var i, c :| 0 <= i < |chunks| && c in chunks[i].choices && c.finish != None;
      assert c in all;
      forall j | 0 <= j < |chunks|
        ensures ValidChoices(chunks[j].choices)
      {
        assert forall m :: 0 <= m < |chunks[j].choices| ==> chunks[j].choices[m] in chunks[j].choices;
      }
    }
  }

  /** Calls that are numbered without a gap, each of its own fragments. */
  ghost predicate CallsOf(chunks: seq<Chunk>, calls: seq<Call>) {
    var fs := Fragments(AllChoices(chunks));
    && |calls| == |Indices(fs)| && (forall k :: 0 <= k < |calls| ==> calls[k] == Joined(Only(fs, k)))
  }

  /**
   A stream with an end is acceptable exactly if it is one answer, its calls are numbered from zero without a gap, and a
   reply with its text, calls and last usage can be answered; and that answer is what it is translated into.
   */
  lemma AcceptableExactlyWhen(json: string -> bool, input: seq<Data>, chunks: seq<Chunk>, calls: seq<Call>)
    requires Frames(input, chunks) && CallsOf(chunks, calls)
    ensures Acceptable(json, input) <==>
        && OneAnswer(chunks)
        && (forall f :: f in Fragments(AllChoices(chunks)) ==> 0 <= f.index < |calls|)
        && Complete(json, chunks[0].id, chunks[0].model, LastUsage(chunks), Text(AllChoices(chunks)), calls).Ok?
    ensures forall r, events :: Concluded(json, chunks, r, events) ==>
        r == Complete(json, chunks[0].id, chunks[0].model, LastUsage(chunks), Text(AllChoices(chunks)), calls)
  {
    hide AllChoices, Fragments, Complete, Text, LastUsage, ValidChunks, HasFinished, OneAnswer, Indices, Contiguous,
        Joined, Only, IndicesArePositions, PhaseOf;
    BodyExactlyWhen(input, chunks);
    OneAnswerExactlyWhen(chunks);
    var fs := Fragments(AllChoices(chunks));
    NumberedExactlyWhen(fs);
    if Contiguous(Indices(fs)) && chunks != [] {
      assert Assembled(chunks).choices[0].calls == calls;
    }
  }

  lemma NumberedExactlyWhen(fs: seq<Fragment>)
    ensures Contiguous(Indices(fs)) <==> forall f :: f in fs ==> 0 <= f.index < |Indices(fs)|
  {
    var keys := Indices(fs);
    ContiguousIsRange(keys);
    if forall f :: f in fs ==> 0 <= f.index < |keys| {
      assert keys <= Upto(|keys|);
      Sets.EqualSets(keys, Upto(|keys|));
    }
    if keys == Upto(|keys|) {
      forall f | f in fs
        ensures f.index in keys
      {
        var i :| 0 <= i < |fs| && fs[i] == f;
      }
    }
  }

  /** A stream that does not end, or is broken before its end, is not acceptable. */
  lemma EndlessIsNotAcceptable(json: string -> bool, input: seq<Data>)
    requires forall chunks :: !Frames(input, chunks)
    ensures !Acceptable(json, input)
  {
    if Body(input).Some? {
      BodyExactlyWhen(input, Body(input).value);
    }
  }

  // ---------------------------------------------------------------- what the protocol promises a client

  /** The items done so far. */
  function DoneItems(p: Phase): seq<Item> {
    match p
    case Items(_, _, items) => items
    case CallOpen(_, _, items, _) => items
    case Over(_, items) => items
    case _ => []
  }

  /** One event announces at most one item, under the number of items before it; after the first, only calls. */
  lemma OneEvent(p: Phase, e: Event)
    requires Next(p, e).Some?
    ensures DoneItems(Next(p, e).value) == DoneItems(p) + if e.ItemDone? then [e.item] else []
    ensures e.ItemDone? ==>
        e.index == |DoneItems(p)| && (e.index > 0 ==> Next(p, e).value.Items? && p.CallOpen? && p.item == e.item)
    ensures Next(p, e).value.CallOpen? ==> Next(p, e).value.item.CallItem?
  {
  }

  /** The items announced so far, the open one with the text it has. */
  function Announced(p: Phase): seq<Item> {
    match p
    case Fresh => []
    case Items(_, _, items) => items
    case TextItem(id, _) => [MessageItem("msg_" + id, "")]
    case Texting(id, _, text) => [MessageItem("msg_" + id, text)]
    case TextEnded(id, _, text) => [MessageItem("msg_" + id, text)]
    case PartEnded(id, _, text) => [MessageItem("msg_" + id, text)]
    case CallOpen(_, _, items, item) => items + [item]
    case Over(_, items) => items
  }

  /** The same item, but for the text a message gained since. */
  predicate SameItem(a: Item, b: Item) { a == b || (a.MessageItem? && b.MessageItem? && a.id == b.id) }

  /** The event's output index is where its item is in this list. */
  predicate InPlace(e: Event, items: seq<Item>) {
    match e
    case Created(_, _) => true
    case ItemAdded(i, item) => i < |items| && SameItem(items[i], item)
    case PartAdded(i) => i < |items| && items[i].MessageItem?
    case TextDelta(i, _) => i < |items| && items[i].MessageItem?
    case TextDone(i, _) => i < |items| && items[i].MessageItem?
    case PartDone(i, _) => i < |items| && items[i].MessageItem?
    case ItemDone(i, item) => i < |items| && SameItem(items[i], item)
    case Completed(_) => true
  }

  /** A new event is in place, and the events before it stay so. */
  lemma OneEventInPlace(p: Phase, e: Event, earlier: Event)
    requires Next(p, e).Some?
    ensures InPlace(e, Announced(Next(p, e).value))
    ensures InPlace(earlier, Announced(p)) ==> InPlace(earlier, Announced(Next(p, e).value))
  {
  }

  /** Every event of any kind carries the place of its item among those announced, and no later event moves it. */
  lemma {:induction false} AnnouncedInPlace(events: seq<Event>)
    requires PhaseOf(events).Some?
    ensures forall i :: 0 <= i < |events| ==> InPlace(events[i], Announced(PhaseOf(events).value))
    decreases |events|
  {
    if events == [] {
    } else {
      var init, last := events[..|events| - 1], events[|events| - 1];
      AnnouncedInPlace(init);
      hide Next, InPlace, Announced;
      forall i | 0 <= i < |events|
        ensures InPlace(events[i], Announced(PhaseOf(events).value))
      {
        assert i < |init| ==> events[i] == init[i];
        OneEventInPlace(PhaseOf(init).value, last, events[i]);
      }
    }
  }

  /** An item that is done is announced as it will stay. */
  lemma {:induction false} DoneInPlace(events: seq<Event>)
    requires PhaseOf(events).Some?
    ensures forall i :: 0 <= i < |events| && events[i].ItemDone? ==>
              var items := DoneItems(PhaseOf(events).value);
              events[i].index < |items| && items[events[i].index] == events[i].item
    decreases |events|
  {
    hide Next, DoneItems;
    if events == [] {
    } else {
      DoneInPlace(events[..|events| - 1]);
      OneEvent(PhaseOf(events[..|events| - 1]).value, events[|events| - 1]);
    }
  }

  lemma {:induction false} EveryItemIsAnnounced(events: seq<Event>, n: nat)
    requires PhaseOf(events).Some? && n < |DoneItems(PhaseOf(events).value)|
    ensures exists i :: 0 <= i < |events| && events[i] == ItemDone(n, DoneItems(PhaseOf(events).value)[n])
    decreases |events|
  {
    if events == [] {
    } else {
      var init, last := events[..|events| - 1], events[|events| - 1];
      OneEvent(PhaseOf(init).value, last);
      var before, after := DoneItems(PhaseOf(init).value), DoneItems(PhaseOf(events).value);
      hide Next, DoneItems, PhaseOf;
      if n < |before| {
        EveryItemIsAnnounced(init, n);
        var i :| 0 <= i < |init| && init[i] == ItemDone(n, before[n]);
        assert events[i] == ItemDone(n, after[n]);
      } else {
        assert events[|events| - 1] == ItemDone(n, after[n]);
      }
    }
  }

  /** Every event's output index is its item's position in the final output, and what is done is done as it is there. */
  ghost predicate IndicesArePositions(events: seq<Event>, output: seq<Item>) {
    forall i :: 0 <= i < |events| ==>
      InPlace(events[i], output) && (events[i].ItemDone? ==> output[events[i].index] == events[i].item)
  }

  /**
   In a finished stream every index is a position in the final output exactly when no announced item is left out of
   it.
   */
  lemma IndicesArePositionsExactlyWhen(events: seq<Event>)
    requires PhaseOf(events).Some? && PhaseOf(events).value.Over?
    ensures var p := PhaseOf(events).value;
        IndicesArePositions(events, p.response.output) <==> p.items == p.response.output
  {
    var p := PhaseOf(events).value;
    AnnouncedInPlace(events);
    DoneInPlace(events);
    OverLists(events);
    if p.items != p.response.output {
      EveryItemIsAnnounced(events, 0);
      var i :| 0 <= i < |events| && events[i] == ItemDone(0, p.items[0]);
      if |p.response.output| > 0 {
        OnlyFirstIsMessage(events);
        assert p.response.output[0] == p.items[1];
      }
    }
  }

  /** One chunk with an empty text delta and one call, and the end of the stream. */
  function EmptyTextStream(call: Call): seq<Data> {
    var fragment := Fragment(0, call.id, call.name, call.arguments);
    [Reply(Chunk("x", "m", None, [Choice(0, Some(""), [fragment], Some("stop"))])), Done]
  }

  lemma EmptyTextStreamSays(call: Call)
    ensures Body(EmptyTextStream(call)) == Some([EmptyTextStream(call)[0].chunk])
    ensures LastUsage([EmptyTextStream(call)[0].chunk]) == None
    ensures var cs := AllChoices([EmptyTextStream(call)[0].chunk]);
            && cs == EmptyTextStream(call)[0].chunk.choices && Text(cs) == "" && OnlyEmptyText(cs) && HasFinished(cs)
            && Fragments(cs) == [Fragment(0, call.id, call.name, call.arguments)]
  {
    var input := EmptyTextStream(call);
    var chunk := input[0].chunk;
    assert input[1..] == [Done] && [chunk] + [] == [chunk];
    assert LastUsage([]) == None && [chunk][|[chunk]| - 1].usage == None;
    assert [chunk][..0] == [] && [] + chunk.choices == chunk.choices;
    var c := chunk.choices[0];
    assert chunk.choices[..0] == [] && [] + c.fragments == c.fragments && "" + "" == "";
    assert chunk.choices[0].content == Some("") && chunk.choices[0].finish.Some?;
  }

  /** One fragment is its call, and no other call's. */
  lemma OneFragmentSays(f: Fragment)
    ensures Indices([f]) == {f.index} && Only([f], f.index) == [f] && Joined([f]) == Call(f.id, f.name, f.arguments)
    ensures forall k :: k != f.index ==> Only([f], k) == []
  {
    assert [f][..0] == [] && [] + [f] == [f] && [f][0].index == f.index;
    assert "" + f.id == f.id && "" + f.name == f.name && "" + f.arguments == f.arguments;
  }

  /**
   A stream whose only text delta is empty is acceptable, and no translation of it has indices that are positions: the
   message that was announced first is left out of the final output.
   */
  lemma EmptyTextShiftsIndices(json: string -> bool, call: Call)
    requires ValidCall(json, call)
    ensures Acceptable(json, EmptyTextStream(call))
    ensures forall r, events :: Concluded(json, Body(EmptyTextStream(call)).value, r, events) ==>
              !IndicesArePositions(events, r.value.output)
  {
    hide IndicesArePositions, PhaseOf, Text, LastUsage, AllChoices, Fragments, Joined, Only, Indices, HasFinished,
        OnlyEmptyText;
    EmptyTextStreamSays(call);
    OneFragmentSays(Fragment(0, call.id, call.name, call.arguments));
    var chunks := [EmptyTextStream(call)[0].chunk];
    var fs := Fragments(AllChoices(chunks));
    assert ValidChunks(chunks);
    assert Indices(fs) == {0};
    assert |Indices(fs)| == 1 && Contiguous(Indices(fs));
    var reply := Assembled(chunks);
    assert reply.choices[0].calls == [call];
    assert ValidCalls(json, reply.choices[0].calls);
  }

  /** The translation of that stream, when nothing else goes wrong. */
  method TranslateEmptyText(json: string -> bool, call: Call) returns (r: Result<Response, Error>, events: seq<Event>)
    requires ValidCall(json, call)
    ensures r.Ok? && !IndicesArePositions(events, r.value.output)
  {
    hide Concluded, IndicesArePositions;
    EmptyTextShiftsIndices(json, call);
    r, events := Translate(json, n => true, EmptyTextStream(call));
  }

  lemma OverLists(events: seq<Event>)
    requires PhaseOf(events).Some? && PhaseOf(events).value.Over?
    ensures PhaseOf(events).value.response.output == Listed(PhaseOf(events).value.items)
  {
  }

  lemma {:induction false} OnlyFirstIsMessage(events: seq<Event>)
    requires PhaseOf(events).Some?
    ensures forall n :: 0 < n < |DoneItems(PhaseOf(events).value)| ==> DoneItems(PhaseOf(events).value)[n].CallItem?
    ensures PhaseOf(events).value.CallOpen? ==> PhaseOf(events).value.item.CallItem?
    decreases |events|
  {
    hide Next, DoneItems;
    if events == [] {
      NothingDone();
    } else {
      OnlyFirstIsMessage(events[..|events| - 1]);
      OneEvent(PhaseOf(events[..|events| - 1]).value, events[|events| - 1]);
    }
  }

  lemma NothingDone()
    ensures DoneItems(Fresh) == []
  {
  }

  /** The text a client was sent piece by piece is the text of the final message item. */
  function Deltas(events: seq<Event>): string {
    if events == [] then ""
    else
      var last := events[|events| - 1];
      Deltas(events[..|events| - 1]) + if last.TextDelta? then last.delta else ""
  }

  ghost predicate TextIs(p: Phase, text: string) {
    match p
    case Fresh => text == ""
    case TextItem(_, _) => text == ""
    case Texting(_, _, t) => t == text
    case TextEnded(_, _, t) => t == text
    case PartEnded(_, _, t) => t == text
    case _ =>
      var items := DoneItems(p);
      if items != [] && items[0].MessageItem? then items[0].text == text else text == ""
  }

  lemma {:induction false} DeltasAreTheText(events: seq<Event>)
    requires PhaseOf(events).Some?
    ensures TextIs(PhaseOf(events).value, Deltas(events))
    decreases |events|
  {
    if events == [] {
    } else {
      DeltasAreTheText(events[..|events| - 1]);
      OnlyFirstIsMessage(events[..|events| - 1]);
    }
  }
}
