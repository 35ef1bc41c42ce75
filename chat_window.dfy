/** The chat window (`components/ChatWindow.tsx`): the structured turn of
    `sendMessage`, which posts the transcript, rebuilds the agent's tool
    calls as `system` step messages and reveals them one by one; the
    citation map filled by `onResponse` and looked up by `ChatMessages`; and
    the submit gate of `ChatInput`. */
module ChatWindow {
  import opened Wrappers
  import opened JsStrings
  import opened Json
  import IntermediateStep

  // ---------------------------------------------------------------------
  // Messages
  // ---------------------------------------------------------------------

  datatype Role = User | Assistant | System | Tool | OtherRole(name: string)

  /** A message of the `ai` package: `toolCalls` is `tool_calls`, empty when
      the property is absent. */
  datatype Message = Message(id: string, role: Role, content: string, toolCalls: seq<Json>)

  /** Every message sits at the index its id names. */
  predicate PositionalIds(ms: seq<Message>) {
    forall p :: 0 <= p < |ms| ==> ms[p].id == NatToString(p)
  }

  /** Positional ids are unique. */
  lemma PositionalIdsUnique(ms: seq<Message>)
    requires PositionalIds(ms)
    ensures forall p, q :: 0 <= p < |ms| && 0 <= q < |ms| && p != q ==> ms[p].id != ms[q].id
  {
    forall p, q | 0 <= p < |ms| && 0 <= q < |ms| && p != q
      ensures ms[p].id != ms[q].id
    {
      NatToStringInjective(p, q);
    }
  }

  // ---------------------------------------------------------------------
  // Filtering the agent's messages (lines 232-240)
  // ---------------------------------------------------------------------

  /** An assistant message with at least one tool call, or a tool result:
      every tool result is kept, and an assistant message exactly when it
      has a first tool call to make a step of. */
  predicate IsToolTraffic(m: Message)
    ensures IsToolTraffic(m) ==> m.role == Assistant || m.role == Tool
    ensures m.role == Tool ==> IsToolTraffic(m)
    ensures m.role == Assistant ==> (IsToolTraffic(m) <==> ActionOf(m).Some?)
  {
    (m.role == Assistant && |m.toolCalls| > 0) || m.role == Tool
  }

  /** The tool traffic among the response messages, in order. */
  function ToolCallMessages(response: seq<Message>): (f: seq<Message>)
    ensures |f| <= |response|
    ensures forall m :: m in f ==> m in response && IsToolTraffic(m)
    ensures forall m :: m in response && IsToolTraffic(m) ==> m in f
  {
    if response == [] then []
    else (if IsToolTraffic(response[0]) then [response[0]] else []) + ToolCallMessages(response[1..])
  }

  /** The filter works element by element: filtering a concatenation is
      concatenating the filtered parts, so the result is the order-preserving
      subsequence of tool traffic. */
  lemma {:induction false} ToolCallMessagesConcat(a: seq<Message>, b: seq<Message>)
    ensures ToolCallMessages(a + b) == ToolCallMessages(a) + ToolCallMessages(b)
  {
    if a != [] {
      assert (a + b)[0] == a[0];
      assert (a + b)[1..] == a[1..] + b;
      ToolCallMessagesConcat(a[1..], b);
    } else {
      assert a + b == b;
    }
  }

  lemma ToolCallMessagesSingle(m: Message)
    ensures ToolCallMessages([m]) == if IsToolTraffic(m) then [m] else []
  {
    assert [m][1..] == [];
  }

  // ---------------------------------------------------------------------
  // Step messages (lines 242-254)
  // ---------------------------------------------------------------------

  /** `aiMessage.tool_calls?.[0]`: the first tool call only. */
  function ActionOf(m: Message): (r: Option<Json>)
    ensures r.None? <==> m.toolCalls == []
    ensures r.Some? ==> r.value == m.toolCalls[0] && r.value in m.toolCalls
  {
    if |m.toolCalls| > 0 then Some(m.toolCalls[0]) else None
  }

  /** `{ action, observation }` as an object; `JSON.stringify` leaves out a
      member whose value is `undefined`. */
  function StepPayload(action: Option<Json>, observation: string): Json {
    Obj((if action.Some? then [Field("action", action.value)] else []) + [Field("observation", Str(observation))])
  }

  /** The payload object has an `observation` member holding the tool
      result, and an `action` member exactly when there is an action. */
  lemma StepPayloadMembers(action: Option<Json>, observation: string)
    ensures StepPayload(action, observation).Obj?
    ensures Get(StepPayload(action, observation).fields, "action") == action
    ensures Get(StepPayload(action, observation).fields, "observation") == Some(Str(observation))
  {
    var fields := StepPayload(action, observation).fields;
    if action.Some? {
      assert Get(fields[..1], "action") == Some(action.value);
    }
  }

  /** Step `k` built from filtered messages `2k` (the tool call) and `2k+1`
      (its result), numbered after the `base` messages already shown. */
  function StepMessage(f: seq<Message>, base: nat, k: nat): (m: Message)
    requires 2 * k + 1 < |f|
    ensures m.id == NatToString(base + k) && m.role == System && !IsToolTraffic(m)
  {
    Message(NatToString(base + k), System, Stringify(StepPayload(ActionOf(f[2 * k]), f[2 * k + 1].content), 0), [])
  }

  /** Only the first tool call of a message reaches its step: whatever
      follows it is dropped. */
  lemma LaterToolCallsDropped(f: seq<Message>, base: nat, k: nat, later: seq<Json>)
    requires 2 * k + 1 < |f| && |f[2 * k].toolCalls| > 0
    ensures var g := f[2 * k := f[2 * k].(toolCalls := [f[2 * k].toolCalls[0]] + later)];
      StepMessage(g, base, k) == StepMessage(f, base, k)
  {
    var g := f[2 * k := f[2 * k].(toolCalls := [f[2 * k].toolCalls[0]] + later)];
    assert g[2 * k + 1] == f[2 * k + 1];
    assert ActionOf(g[2 * k]) == ActionOf(f[2 * k]);
  }

  function Steps(f: seq<Message>, base: nat): (steps: seq<Message>)
    requires |f| % 2 == 0
    ensures |steps| == |f| / 2
    ensures forall k :: 0 <= k < |steps| ==> steps[k] == StepMessage(f, base, k)
  {
    seq(|f| / 2, k requires 0 <= k < |f| / 2 => StepMessage(f, base, k))
  }

  /** The step component reads back exactly the action and observation the
      chat window wrote. */
  lemma StepDecodes(f: seq<Message>, base: nat, k: nat)
    requires 2 * k + 1 < |f|
    ensures IntermediateStep.ReadPayload(StepMessage(f, base, k).content)
      == Ok(IntermediateStep.Payload(ActionOf(f[2 * k]), Some(Str(f[2 * k + 1].content))))
  {
    var action, observation := ActionOf(f[2 * k]), f[2 * k + 1].content;
    ParseStringify(StepPayload(action, observation), 0);
    StepPayloadMembers(action, observation);
  }

  /** What a step shows: the tool call's `name`, its `args` as an indented
      JSON text that reads back as `args`, and the tool result. A step whose
      filtered message `2k` carries no tool call (a tool result in that
      place) has no `action`, and rendering it throws. */
  lemma StepRendering(f: seq<Message>, base: nat, k: nat)
    requires 2 * k + 1 < |f|
    ensures var action := ActionOf(f[2 * k]);
      var view := IntermediateStep.Decode(StepMessage(f, base, k).content);
      if action.None? || action.value.Null? then
        view == Err(IntermediateStep.PropertyError(CannotReadProperty("name")))
      else
        && view.Ok?
        && view.value.name == Prop(action, "name").value
        && view.value.output == Some(Str(f[2 * k + 1].content))
        && view.value.input == IntermediateStep.InputText(Prop(action, "args").value)
        && (view.value.input.Some? <==> Prop(action, "args").value.Some?)
        && (view.value.input.Some? ==> Parse(view.value.input.value) == Prop(action, "args").value)
  {
    StepDecodes(f, base, k);
  }

  // ---------------------------------------------------------------------
  // The structured turn (lines 197-272)
  // ---------------------------------------------------------------------

  /** `chat.messages.concat(...)`: the history with the user's message,
      whose id is the history's length. */
  function WithUserMessage(history: seq<Message>, input: string): (r: seq<Message>)
    ensures |r| == |history| + 1 && r[..|history|] == history
    ensures r[|history|] == Message(NatToString(|history|), User, input, [])
  {
    history + [Message(NatToString(|history|), User, input, [])]
  }

  lemma WithUserMessageIds(history: seq<Message>, input: string)
    requires PositionalIds(history)
    ensures PositionalIds(WithUserMessage(history, input))
  {
    var r := WithUserMessage(history, input);
    forall p | 0 <= p < |r| ensures r[p].id == NatToString(p) {
      if p < |history| {
        assert r[p] == r[..|history|][p];
      }
    }
  }

  /** The HTTP result of the POST: `response.ok`, `json.error`, and
      `json.messages` (`None` when it is absent). */
  datatype Reply = Reply(ok: bool, error: Option<Json>, messages: Option<seq<Message>>)

  /** Where the rest of a structured turn throws a TypeError. */
  datatype Crash =
    | MissingMessages     // `json.messages` is absent: `.filter` of undefined
    | MissingToolResult   // odd tool traffic: `.content` of `toolCallMessages[n]`
    | NoFinalMessage      // empty response: `.content` of `responseMessages[-1]`

  datatype TurnOutcome =
    | Failed(error: Option<Json>)
    | Crashed(crash: Crash)
    | Completed(transcript: seq<Message>)

  /** What the rest of a turn publishes through `chat.setMessages`, in
      order, and how it ends. */
  datatype Turn = Turn(published: seq<seq<Message>>, outcome: TurnOutcome)

  /** The final assistant message: numbered after what is shown, with the
      content of the LAST response message whatever its role. */
  function FinalMessage(shown: seq<Message>, response: seq<Message>): (m: Message)
    requires |response| > 0
    ensures m.id == NatToString(|shown|) && m.role == Assistant && !IsToolTraffic(m)
    ensures m.content == response[|response| - 1].content
  {
    Message(NatToString(|shown|), Assistant, response[|response| - 1].content, [])
  }

  /** The transcripts the reveal loop publishes: one more step each time. */
  function Reveals(pending: seq<Message>, steps: seq<Message>): (r: seq<seq<Message>>)
    ensures |r| == |steps|
    ensures forall j :: 0 <= j < |steps| ==> r[j] == pending + steps[..j + 1]
  {
    seq(|steps|, j requires 0 <= j < |steps| => pending + steps[..j + 1])
  }

  /** The rest of the turn after the reply arrives, `pending` being the
      transcript with the user's message. */
  function TurnOf(pending: seq<Message>, reply: Reply): (t: Turn)
    ensures t.outcome.Failed? <==> !reply.ok
    ensures t.outcome.Failed? ==> t.outcome.error == reply.error && t.published == []
    ensures t.outcome == Crashed(MissingMessages) <==> reply.ok && reply.messages.None?
    ensures t.outcome == Crashed(MissingToolResult) ==> t.published == []
    ensures t.published != [] ==> reply.ok && reply.messages.Some?
  {
    if !reply.ok then Turn([], Failed(reply.error))
    else if reply.messages.None? then Turn([], Crashed(MissingMessages))
    else
      var response := reply.messages.value;
      var f := ToolCallMessages(response);
      if |f| % 2 == 1 then Turn([], Crashed(MissingToolResult))
      else Finish(pending, Steps(f, |pending|), response)
  }

  /** The reveal of the built steps and the final message; an empty
      response throws once the steps are shown. */
  function Finish(pending: seq<Message>, steps: seq<Message>, response: seq<Message>): (t: Turn)
    ensures t.outcome.Completed? <==> |response| > 0
    ensures t.outcome.Crashed? <==> |response| == 0
    ensures t.outcome.Crashed? ==> t.outcome.crash == NoFinalMessage && t.published == Reveals(pending, steps)
    ensures t.outcome.Completed? ==>
      && t.published == Reveals(pending, steps) + [t.outcome.transcript]
      && |t.outcome.transcript| == |pending| + |steps| + 1
      && t.outcome.transcript[..|pending| + |steps|] == pending + steps
      && t.outcome.transcript[|pending| + |steps|].role == Assistant
  {
    if |response| == 0 then Turn(Reveals(pending, steps), Crashed(NoFinalMessage))
    else
      var final := pending + steps + [FinalMessage(pending + steps, response)];
      Turn(Reveals(pending, steps) + [final], Completed(final))
  }

  /** A turn completes exactly when the reply is ok, carries messages, its
      tool traffic pairs up and it has a last message. */
  lemma TurnCompletes(pending: seq<Message>, reply: Reply)
    ensures TurnOf(pending, reply).outcome.Completed? <==>
      && reply.ok && reply.messages.Some?
      && |ToolCallMessages(reply.messages.value)| % 2 == 0
      && |reply.messages.value| > 0
    ensures !reply.ok ==> TurnOf(pending, reply) == Turn([], Failed(reply.error))
  {
  }

  /** A completed turn's transcript: the pending messages, one `system` step
      per tool-call/result pair, and one assistant message with the last
      response message's content; each published transcript is a prefix of
      it, one message longer than the one before. */
  lemma CompletedTranscript(pending: seq<Message>, reply: Reply)
    requires TurnOf(pending, reply).outcome.Completed?
    ensures var t := TurnOf(pending, reply);
      var response := reply.messages.value;
      var f := ToolCallMessages(response);
      var final := t.outcome.transcript;
      && |final| == |pending| + |f| / 2 + 1
      && final[..|pending|] == pending
      && (forall k :: 0 <= k < |f| / 2 ==> final[|pending| + k] == StepMessage(f, |pending|, k))
      && (forall p :: |pending| <= p < |final| - 1 ==> final[p].role == System)
      && final[|final| - 1].role == Assistant
      && final[|final| - 1].content == response[|response| - 1].content
      && |t.published| == |f| / 2 + 1
      && (forall j :: 0 <= j < |t.published| ==> t.published[j] == final[..|pending| + j + 1])
  {
    var t := TurnOf(pending, reply);
    var response := reply.messages.value;
    var f := ToolCallMessages(response);
    var steps := Steps(f, |pending|);
    var final := t.outcome.transcript;
    assert final == pending + steps + [FinalMessage(pending + steps, response)];
    forall k | 0 <= k < |f| / 2 ensures final[|pending| + k] == StepMessage(f, |pending|, k) {
      assert final[|pending| + k] == steps[k];
    }
    forall j | 0 <= j < |t.published| ensures t.published[j] == final[..|pending| + j + 1] {
      if j < |steps| {
        assert t.published[j] == Reveals(pending, steps)[j];
        assert final[..|pending| + j + 1] == pending + steps[..j + 1];
      } else {
        assert final[..|pending| + j + 1] == final;
      }
    }
  }

  /** Every message a completed turn appends is numbered by its position, so
      a transcript built only by such turns keeps unique ids. */
  lemma TurnIdsArePositions(pending: seq<Message>, reply: Reply)
    requires TurnOf(pending, reply).outcome.Completed?
    requires PositionalIds(pending)
    ensures PositionalIds(TurnOf(pending, reply).outcome.transcript)
  {
    CompletedTranscript(pending, reply);
    var final := TurnOf(pending, reply).outcome.transcript;
    forall p | 0 <= p < |final| ensures final[p].id == NatToString(p) {
      if p < |pending| {
        assert final[p] == final[..|pending|][p];
      } else if p < |final| - 1 {
        assert final[p] == StepMessage(ToolCallMessages(reply.messages.value), |pending|, p - |pending|);
      }
    }
  }

  /** What `chat.setMessages` was called with, and whether the turn was
      busy (`chat.isLoading || intermediateStepsLoading`) at that moment. */
  datatype Snapshot = Snapshot(messages: seq<Message>, busy: bool)

  function Snapshots(ts: seq<seq<Message>>, busy: bool): (r: seq<Snapshot>)
    ensures |r| == |ts| && forall i :: 0 <= i < |ts| ==> r[i] == Snapshot(ts[i], busy)
  {
    seq(|ts|, i requires 0 <= i < |ts| => Snapshot(ts[i], busy))
  }

  /** How `sendMessage` leaves the first half of a turn. */
  datatype TurnStart = Rejected | Delegated | Awaiting(pending: seq<Message>)

  // ---------------------------------------------------------------------
  // Citations (lines 33-46 and 177-188)
  // ---------------------------------------------------------------------

  /** The citation key of the message at index `i` of `count` messages: its
      distance from the end, in decimal. */
  function CitationKey(count: nat, i: nat): (key: string)
    requires i < count
    ensures AllDigits(key) && DigitsValue(key) == count - 1 - i
  {
    NatToStringRoundTrip(count - 1 - i);
    NatToString(count - 1 - i)
  }

  function Lookup(sources: map<string, Json>, key: string): Option<Json> {
    if key in sources then Some(sources[key]) else None
  }

  /** What `ChatMessages` renders for each message: a step for a `system`
      message (no citation lookup), otherwise a bubble with the sources
      stored under its citation key. */
  datatype Rendered = StepItem(message: Message) | Bubble(message: Message, sources: Option<Json>)

  function RenderTranscript(ms: seq<Message>, sources: map<string, Json>): (r: seq<Rendered>)
    ensures |r| == |ms|
    ensures forall i :: 0 <= i < |ms| ==> r[i].message == ms[i] && (r[i].StepItem? <==> ms[i].role == System)
    ensures forall i :: 0 <= i < |ms| && ms[i].role != System ==>
      r[i].Bubble? && r[i].sources == Lookup(sources, CitationKey(|ms|, i))
  {
    seq(|ms|, i requires 0 <= i < |ms| =>
      if ms[i].role == System then StepItem(ms[i]) else Bubble(ms[i], Lookup(sources, CitationKey(|ms|, i))))
  }

  /** Keys are distinct within one transcript, and the newest message has
      key "0". */
  lemma CitationKeysDistinct(count: nat, i: nat, j: nat)
    requires i < count && j < count
    ensures CitationKey(count, i) == CitationKey(count, j) <==> i == j
    ensures CitationKey(count, count - 1) == "0"
  {
    NatToStringInjective(count - 1 - i, count - 1 - j);
  }

  /** Appending messages shifts every existing message's key by the number
      appended, so with anything appended its old key no longer finds it. */
  lemma CitationKeyShift(ms: seq<Message>, extra: seq<Message>, i: nat)
    requires i < |ms|
    ensures CitationKey(|ms + extra|, i) == NatToString(|ms| - 1 - i + |extra|)
    ensures |extra| > 0 ==> CitationKey(|ms + extra|, i) != CitationKey(|ms|, i)
  {
    NatToStringInjective(|ms| - 1 - i + |extra|, |ms| - 1 - i);
  }

  /** Sources stored under key `h` are shown on the non-`system` message
      whose key is `h`, and every other bubble shows what it showed before. */
  lemma StoredSourcesShown(ms: seq<Message>, current: map<string, Json>, h: string, s: Json, i: nat)
    requires i < |ms| && ms[i].role != System
    ensures var r := RenderTranscript(ms, current[h := s]);
      && r[i].Bubble?
      && (CitationKey(|ms|, i) == h ==> r[i].sources == Some(s))
      && (CitationKey(|ms|, i) != h ==> r[i].sources == Lookup(current, CitationKey(|ms|, i)))
  {
  }

  /** Why `onResponse` throws: the decoded `x-sources` text is not JSON, or
      it is `null` and `.length` cannot be read. */
  datatype SourcesError = SourcesNotJson | SourcesPropertyError(error: PropError)

  /** The `sources` value: the empty list when the header is absent or
      empty, otherwise the header decoded from base64 to UTF-8 text
      (`base64Utf8`, which this model does not define) and parsed. */
  function DecodeSources(sourcesHeader: Option<string>, base64Utf8: string -> string): (r: Result<Json, SourcesError>)
    ensures sourcesHeader.None? || sourcesHeader.value == "" ==> r == Ok(Arr([]))
    ensures sourcesHeader.Some? && sourcesHeader.value != "" ==>
      (r.Ok? <==> Parse(base64Utf8(sourcesHeader.value)).Some?) &&
      (r.Ok? ==> Some(r.value) == Parse(base64Utf8(sourcesHeader.value))) &&
      (r.Err? ==> r.error == SourcesNotJson)
  {
    if sourcesHeader.None? || sourcesHeader.value == "" then Ok(Arr([]))
    else
      match Parse(base64Utf8(sourcesHeader.value))
      case None => Err(SourcesNotJson)
      case Some(v) => Ok(v)
  }

  /** JavaScript's `sources.length` being truthy. */
  predicate HasLength(sources: Json) {
    var len := Prop(Some(sources), "length");
    len.Ok? && len.value.Some? && Truthy(len.value.value)
  }

  /** The new citation map: `sources` stored under the `x-message-index`
      header when `sources.length` is truthy and the header is present;
      otherwise the map as it was. */
  function MergeSources(current: map<string, Json>, sourcesHeader: Option<string>, indexHeader: Option<string>,
                        base64Utf8: string -> string): (r: Result<map<string, Json>, SourcesError>)
    ensures r.Err? <==> DecodeSources(sourcesHeader, base64Utf8).Err? || DecodeSources(sourcesHeader, base64Utf8) == Ok(Null)
    ensures r.Ok? ==> forall k :: k in current && indexHeader != Some(k) ==> k in r.value && r.value[k] == current[k]
    ensures r.Ok? ==> forall k :: k in r.value && indexHeader != Some(k) ==> k in current
    ensures r.Ok? && r.value != current ==>
      indexHeader.Some? && r.value == current[indexHeader.value := DecodeSources(sourcesHeader, base64Utf8).value]
  {
    var sources :- DecodeSources(sourcesHeader, base64Utf8);
    match Prop(Some(sources), "length")
    case Err(e) => Err(SourcesPropertyError(e))
    case Ok(_) =>
      if HasLength(sources) && indexHeader.Some? then Ok(current[indexHeader.value := sources])
      else Ok(current)
  }

  /** For a list of sources: stored exactly when it is non-empty and the
      index header is present. An absent `x-sources` header changes nothing. */
  lemma MergeSourceList(current: map<string, Json>, sourcesHeader: Option<string>, indexHeader: Option<string>,
                        base64Utf8: string -> string, items: seq<Json>)
    requires DecodeSources(sourcesHeader, base64Utf8) == Ok(Arr(items))
    ensures MergeSources(current, sourcesHeader, indexHeader, base64Utf8) ==
      Ok(if |items| > 0 && indexHeader.Some? then current[indexHeader.value := Arr(items)] else current)
    ensures sourcesHeader.None? ==> MergeSources(current, sourcesHeader, indexHeader, base64Utf8) == Ok(current)
  {
  }

  // ---------------------------------------------------------------------
  // ChatInput (lines 61-73 and 87)
  // ---------------------------------------------------------------------

  datatype SubmitAction = CallOnStop | DoNothing | CallOnSubmit

  /** The form's submit handler: while loading, `onStop?.()`; otherwise
      `onSubmit`. */
  function OnFormSubmit(loading: bool, hasOnStop: bool): (r: SubmitAction)
    ensures r == CallOnSubmit <==> !loading
    ensures r == CallOnStop <==> loading && hasOnStop
  {
    if loading then (if hasOnStop then CallOnStop else DoNothing) else CallOnSubmit
  }

  /** The send button is disabled while loading without a stop handler, and
      whenever the trimmed input is empty. */
  function SubmitDisabled(loading: bool, hasOnStop: bool, value: string): (r: bool)
    ensures r <==> (loading && !hasOnStop) || AllWhitespace(value)
  {
    (loading && !hasOnStop) || Trim(value) == ""
  }

  /** The chat window passes no stop handler: while it is loading a submit
      does nothing and the button is disabled. */
  lemma ChatWindowInputGate(loading: bool, value: string)
    ensures loading ==> OnFormSubmit(loading, false) == DoNothing && SubmitDisabled(loading, false, value)
    ensures !loading ==> OnFormSubmit(loading, false) == CallOnSubmit
  {
  }

  // ---------------------------------------------------------------------
  // The component's state
  // ---------------------------------------------------------------------

  class ChatSession {
    var messages: seq<Message>                  // chat.messages
    var input: string                           // chat.input
    var isLoading: bool                         // chat.isLoading, set by useChat's own streaming
    var intermediateStepsLoading: bool
    var showIntermediateSteps: bool
    var sourcesForMessages: map<string, Json>
    var toasts: seq<Option<Json>>               // descriptions of the error toasts shown
    var delegated: nat                          // submissions handed to chat.handleSubmit
    const showIntermediateStepsToggle: bool     // props.showIntermediateStepsToggle
    ghost var published: seq<Snapshot>          // every chat.setMessages of a structured turn

    /** The busy gate shared by `sendMessage`, the input and the checkbox. */
    predicate Busy()
      reads this
    {
      isLoading || intermediateStepsLoading
    }

    constructor(showIntermediateStepsToggle: bool)
      ensures this.showIntermediateStepsToggle == showIntermediateStepsToggle
      ensures messages == [] && input == "" && !isLoading && !intermediateStepsLoading
      ensures showIntermediateSteps == showIntermediateStepsToggle
      ensures sourcesForMessages == map[] && toasts == [] && delegated == 0 && published == []
    {
      messages := [];
      input := "";
      isLoading := false;
      intermediateStepsLoading := false;
      this.showIntermediateStepsToggle := showIntermediateStepsToggle;
      showIntermediateSteps := showIntermediateStepsToggle;
      sourcesForMessages := map[];
      toasts := [];
      delegated := 0;
      published := [];
    }

    /** `sendMessage` up to its `await fetch`: rejected while busy,
        delegated to `handleSubmit` with the steps flag off, otherwise the
        optimistic append of the user's message with the busy flag set. */
    method SendMessage() returns (start: TurnStart)
      modifies this
      ensures old(Busy()) ==> start == Rejected && unchanged(this)
      ensures !old(Busy()) && !old(showIntermediateSteps) ==>
        && start == Delegated && delegated == old(delegated) + 1
        && messages == old(messages) && input == old(input) && published == old(published)
        && intermediateStepsLoading == old(intermediateStepsLoading)
      ensures !old(Busy()) && old(showIntermediateSteps) ==>
        && start == Awaiting(WithUserMessage(old(messages), old(input)))
        && messages == WithUserMessage(old(messages), old(input))
        && input == "" && intermediateStepsLoading
        && published == old(published) + [Snapshot(messages, true)]
        && delegated == old(delegated)
      ensures isLoading == old(isLoading) && showIntermediateSteps == old(showIntermediateSteps)
      ensures sourcesForMessages == old(sourcesForMessages) && toasts == old(toasts)
    {
      if isLoading || intermediateStepsLoading {
        return Rejected;
      }
      if !showIntermediateSteps {
        delegated := delegated + 1;
        return Delegated;
      }
      intermediateStepsLoading := true;
      var typed := input;
      input := "";
      var messagesWithUserReply := messages + [Message(NatToString(|messages|), User, typed, [])];
      messages := messagesWithUserReply;
      published := published + [Snapshot(messages, Busy())];
      start := Awaiting(messagesWithUserReply);
    }

    /** `sendMessage` after `await response.json()`: the busy flag is
        cleared first, then an error is reported, or the steps are built
        from the tool traffic, revealed one at a time (each pause is a
        no-op here) and followed by the final assistant message. */
    method ReceiveReply(pending: seq<Message>, reply: Reply) returns (outcome: TurnOutcome)
      modifies this
      ensures var t := TurnOf(pending, reply);
        && outcome == t.outcome
        && published == old(published) + Snapshots(t.published, old(isLoading))
        && messages == (if |t.published| == 0 then old(messages) else t.published[|t.published| - 1])
      ensures toasts == old(toasts) + (if reply.ok then [] else [reply.error])
      ensures !intermediateStepsLoading
      ensures input == old(input) && isLoading == old(isLoading) && showIntermediateSteps == old(showIntermediateSteps)
      ensures sourcesForMessages == old(sourcesForMessages) && delegated == old(delegated)
    {
      intermediateStepsLoading := false;
      if !reply.ok {
        toasts := toasts + [reply.error];
        return Failed(reply.error);
      }
      if reply.messages.None? {
        return Crashed(MissingMessages);
      }
      var responseMessages := reply.messages.value;
      var built := BuildSteps(ToolCallMessages(responseMessages), |pending|);
      if built.None? {
        return Crashed(MissingToolResult);
      }
      outcome := FinishTurn(pending, built.value, responseMessages);
    }

    /** The rest of a turn once its steps are built: reveal them, then
        append the final assistant message. */
    method FinishTurn(pending: seq<Message>, steps: seq<Message>, responseMessages: seq<Message>)
      returns (outcome: TurnOutcome)
      requires !intermediateStepsLoading
      modifies this
      ensures var t := Finish(pending, steps, responseMessages);
        && outcome == t.outcome
        && published == old(published) + Snapshots(t.published, old(isLoading))
        && messages == (if |t.published| == 0 then old(messages) else t.published[|t.published| - 1])
      ensures toasts == old(toasts) && !intermediateStepsLoading
      ensures input == old(input) && isLoading == old(isLoading) && showIntermediateSteps == old(showIntermediateSteps)
      ensures sourcesForMessages == old(sourcesForMessages) && delegated == old(delegated)
    {
      RevealSteps(pending, steps);
      if |responseMessages| == 0 {
        // responseMessages[-1] is undefined and reading its content throws
        return Crashed(NoFinalMessage);
      }
      var newMessages := pending + steps;
      var finalMessages := newMessages + [Message(
        NatToString(|newMessages|), Assistant, responseMessages[|responseMessages| - 1].content, [])];
      messages := finalMessages;
      published := published + [Snapshot(messages, Busy())];
      ghost var shown := Reveals(pending, steps);
      assert Snapshots(shown + [finalMessages], old(isLoading))
        == Snapshots(shown, old(isLoading)) + [Snapshot(finalMessages, old(isLoading))];
      outcome := Completed(finalMessages);
    }

    /** The loop building one `system` step per tool-call/result pair; a
        call without its result makes the source throw (`None` here). */
    method BuildSteps(toolCallMessages: seq<Message>, base: nat) returns (r: Option<seq<Message>>)
      ensures r.None? <==> |toolCallMessages| % 2 == 1
      ensures r.Some? ==> r.value == Steps(toolCallMessages, base)
    {
      var intermediateStepMessages: seq<Message> := [];
      var i := 0;
      while i < |toolCallMessages|
        invariant 0 <= i <= |toolCallMessages| && i % 2 == 0
        invariant |intermediateStepMessages| == i / 2
        invariant forall k :: 0 <= k < i / 2 ==>
          2 * k + 1 < |toolCallMessages| && intermediateStepMessages[k] == StepMessage(toolCallMessages, base, k)
      {
        if i + 1 == |toolCallMessages| {
          // toolCallMessages[i + 1] is undefined and reading its content throws
          return None;
        }
        var aiMessage := toolCallMessages[i];
        var toolMessage := toolCallMessages[i + 1];
        intermediateStepMessages := intermediateStepMessages + [Message(
          NatToString(base + i / 2), System,
          Stringify(StepPayload(ActionOf(aiMessage), toolMessage.content), 0), [])];
        i := i + 2;
      }
      return Some(intermediateStepMessages);
    }

    /** The reveal loop: each step is appended to what is shown and
        published in turn. */
    method RevealSteps(pending: seq<Message>, steps: seq<Message>)
      modifies this
      ensures published == old(published) + Snapshots(Reveals(pending, steps), old(Busy()))
      ensures messages == if steps == [] then old(messages) else pending + steps
      ensures intermediateStepsLoading == old(intermediateStepsLoading) && toasts == old(toasts)
      ensures input == old(input) && isLoading == old(isLoading) && showIntermediateSteps == old(showIntermediateSteps)
      ensures sourcesForMessages == old(sourcesForMessages) && delegated == old(delegated)
    {
      ghost var shown := Reveals(pending, steps);
      var newMessages := pending;
      var j := 0;
      while j < |steps|
        invariant 0 <= j <= |steps|
        invariant newMessages == pending + steps[..j]
        invariant published == old(published) + Snapshots(shown[..j], old(Busy()))
        invariant messages == if j == 0 then old(messages) else newMessages
        invariant intermediateStepsLoading == old(intermediateStepsLoading) && toasts == old(toasts)
        invariant input == old(input) && isLoading == old(isLoading) && showIntermediateSteps == old(showIntermediateSteps)
        invariant sourcesForMessages == old(sourcesForMessages) && delegated == old(delegated)
      {
        newMessages := newMessages + [steps[j]];
        assert steps[..j + 1] == steps[..j] + [steps[j]];
        messages := newMessages;
        published := published + [Snapshot(messages, Busy())];
        assert shown[..j + 1] == shown[..j] + [shown[j]];
        j := j + 1;
      }
      assert shown[..j] == shown;
      assert steps[..j] == steps;
    }

    /** `onResponse` of the streaming path: the merged map replaces the old
        one; when the handler throws, the map is left as it was. */
    method OnResponse(sourcesHeader: Option<string>, indexHeader: Option<string>, base64Utf8: string -> string)
      returns (r: Result<(), SourcesError>)
      modifies this
      ensures var merged := MergeSources(old(sourcesForMessages), sourcesHeader, indexHeader, base64Utf8);
        && (merged.Ok? ==> r == Ok(()) && sourcesForMessages == merged.value)
        && (merged.Err? ==> r == Err(merged.error) && sourcesForMessages == old(sourcesForMessages))
      ensures messages == old(messages) && input == old(input) && isLoading == old(isLoading)
      ensures intermediateStepsLoading == old(intermediateStepsLoading) && showIntermediateSteps == old(showIntermediateSteps)
      ensures toasts == old(toasts) && delegated == old(delegated) && published == old(published)
    {
      var merged := MergeSources(sourcesForMessages, sourcesHeader, indexHeader, base64Utf8);
      if merged.Err? {
        return Err(merged.error);
      }
      sourcesForMessages := merged.value;
      r := Ok(());
    }

    /** The "Show intermediate steps" checkbox, rendered only when the
        window is given the toggle, and disabled while busy. */
    method SetShowIntermediateSteps(checked: bool)
      requires showIntermediateStepsToggle
      modifies this
      ensures showIntermediateSteps == if old(Busy()) then old(showIntermediateSteps) else checked
      ensures messages == old(messages) && input == old(input) && isLoading == old(isLoading)
      ensures intermediateStepsLoading == old(intermediateStepsLoading) && sourcesForMessages == old(sourcesForMessages)
      ensures toasts == old(toasts) && delegated == old(delegated) && published == old(published)
    {
      if !(isLoading || intermediateStepsLoading) {
        showIntermediateSteps := checked;
      }
    }

    /** `chat.handleInputChange`: the input field's text. */
    method SetInput(value: string)
      modifies this
      ensures input == value
      ensures messages == old(messages) && isLoading == old(isLoading) && showIntermediateSteps == old(showIntermediateSteps)
      ensures intermediateStepsLoading == old(intermediateStepsLoading) && sourcesForMessages == old(sourcesForMessages)
      ensures toasts == old(toasts) && delegated == old(delegated) && published == old(published)
    {
      input := value;
    }

    /** `useChat`'s own request state, which this model takes as an input. */
    method SetChatLoading(loading: bool)
      modifies this
      ensures isLoading == loading
      ensures messages == old(messages) && input == old(input) && showIntermediateSteps == old(showIntermediateSteps)
      ensures intermediateStepsLoading == old(intermediateStepsLoading) && sourcesForMessages == old(sourcesForMessages)
      ensures toasts == old(toasts) && delegated == old(delegated) && published == old(published)
    {
      isLoading := loading;
    }
  }
}
