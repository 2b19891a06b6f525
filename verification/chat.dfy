/**
 The chat panel's message log. A send appends the user's message and
 schedules a canned reply; the reply is an explicit event rather than a
 timer. Every reply is scheduled with the same delay, so replies arrive in
 send order: the scheduled replies form a queue of the inputs captured at
 send time. Message ids come from the clock and are parameters here.
 */
module Chat {
  import opened JsBase
  import opened CodeFence

  datatype Sender = FromUser | FromAi

  datatype Message = Message(id: nat, sender: Sender, content: string)

  /**
   The component's state: the log, the text box, the loading flag, and the
   inputs whose replies are still scheduled (oldest first).
   */
  datatype State = State(messages: seq<Message>, input: string, isLoading: bool, pending: seq<string>)

  const Initial := State([], "", false, [])

  const ReplyIntro := "Here's your SQL query:\n\n"
  const QueryHead := "sql\nSELECT * FROM users WHERE name = '"
  const QueryTail := "';\n"

  /** The canned reply: the input spliced verbatim, unescaped, between the quotes of `name = '…'`. */
  function ReplyText(query: string): (r: string)
    ensures |r| == |query| + |ReplyIntro| + |QueryHead| + |QueryTail| + 2 * |Fence|
    ensures r[..|ReplyIntro| + |Fence|] == ReplyIntro + Fence
    ensures r[|r| - |Fence|..] == Fence
  {
    ReplyIntro + Fence + QueryHead + query + QueryTail + Fence
  }

  /** The contents of the messages from one sender, in log order. */
  function Contents(messages: seq<Message>, who: Sender): (r: seq<string>)
    ensures |r| <= |messages|
    decreases |messages|
  {
    if |messages| == 0 then []
    else
      var last := messages[|messages| - 1];
      Contents(messages[..|messages| - 1], who) + (if last.sender == who then [last.content] else [])
  }

  /** Appending a message extends the contents of its sender by its text and leaves the other sender's unchanged. */
  lemma ContentsAppend(messages: seq<Message>, m: Message, who: Sender)
    ensures Contents(messages + [m], who) == Contents(messages, who) + (if m.sender == who then [m.content] else [])
  {
    assert (messages + [m])[..|messages|] == messages;
  }

  /** The text box's `onChange`. */
  function Edit(st: State, text: string): (r: State)
    ensures r.input == text
    ensures r.messages == st.messages && r.isLoading == st.isLoading && r.pending == st.pending
  {
    st.(input := text)
  }

  /**
   `handleSend` at clock reading `id`: an input that is only whitespace changes
   nothing; otherwise the raw input becomes a user message, the box is cleared,
   loading starts and a reply carrying that input is scheduled.
   */
  function Send(st: State, id: nat): (r: State)
    ensures AllSpace(st.input) ==> r == st
    ensures !AllSpace(st.input) ==>
              && r.messages == st.messages + [Message(id, FromUser, st.input)]
              && r.input == ""
              && r.isLoading
              && r.pending == st.pending + [st.input]
  {
    TrimEmptyIffAllSpace(st.input);
    if Trim(st.input) == "" then st
    else State(st.messages + [Message(id, FromUser, st.input)], "", true, st.pending + [st.input])
  }

  /**
   The oldest scheduled reply fires at clock reading `id`: it appends the reply
   for the input captured at its send and clears the loading flag, even when
   later replies are still scheduled.
   */
  function Reply(st: State, id: nat): (r: State)
    requires |st.pending| > 0
    ensures |r.messages| == |st.messages| + 1 && r.messages[..|st.messages|] == st.messages
    ensures r.messages[|st.messages|] == Message(id, FromAi, ReplyText(st.pending[0]))
    ensures !r.isLoading && r.input == st.input && r.pending == st.pending[1..]
  {
    State(st.messages + [Message(id, FromAi, ReplyText(st.pending[0]))], st.input, false, st.pending[1..])
  }

  /** What can happen to the panel: typing, pressing send, or the oldest scheduled reply firing. */
  datatype Event = Typed(text: string) | SendPressed(id: nat) | ReplyFired(id: nat)

  /** One event. A reply fires only while one is scheduled; otherwise there is no such event and nothing changes. */
  function Step(st: State, e: Event): State {
    match e
    case Typed(text) => Edit(st, text)
    case SendPressed(id) => Send(st, id)
    case ReplyFired(id) => if |st.pending| > 0 then Reply(st, id) else st
  }

  /** A run of events from `st`, in order. */
  function Run(st: State, events: seq<Event>): State
    decreases |events|
  {
    if |events| == 0 then st else Step(Run(st, events[..|events| - 1]), events[|events| - 1])
  }

  /**
   The log's invariant: the user messages are the answered inputs followed by
   the scheduled ones, the k-th reply is the reply to the k-th input, and the
   loading flag is only up while some reply is scheduled.
   */
  predicate Inv(st: State) {
    var inputs := Contents(st.messages, FromUser);
    var replies := Contents(st.messages, FromAi);
    && |replies| + |st.pending| == |inputs|
    && inputs[|replies|..] == st.pending
    && (forall k :: 0 <= k < |replies| ==> replies[k] == ReplyText(inputs[k]))
    && (st.isLoading ==> |st.pending| > 0)
  }

  lemma InitialInv()
    ensures Inv(Initial)
  {
  }

  lemma SendKeepsInv(st: State, id: nat)
    requires Inv(st)
    ensures Inv(Send(st, id))
  {
    if !AllSpace(st.input) {
      var inputs, replies := Contents(st.messages, FromUser), Contents(st.messages, FromAi);
      ContentsAppend(st.messages, Message(id, FromUser, st.input), FromUser);
      ContentsAppend(st.messages, Message(id, FromUser, st.input), FromAi);
      assert (inputs + [st.input])[|replies|..] == inputs[|replies|..] + [st.input];
      assert forall k :: 0 <= k < |replies| ==> (inputs + [st.input])[k] == inputs[k];
    }
  }

  lemma ReplyKeepsInv(st: State, id: nat)
    requires Inv(st) && |st.pending| > 0
    ensures Inv(Reply(st, id))
  {
  }

  lemma StepKeepsInv(st: State, e: Event)
    requires Inv(st)
    ensures Inv(Step(st, e))
  {
    match e
    case Typed(_) =>
    case SendPressed(id) => SendKeepsInv(st, id);
    case ReplyFired(id) => if |st.pending| > 0 { ReplyKeepsInv(st, id); }
  }

  /** Every state reachable from the empty panel satisfies the invariant. */
  lemma {:induction false} RunKeepsInv(events: seq<Event>)
    ensures Inv(Run(Initial, events))
    decreases |events|
  {
    if |events| > 0 {
      RunKeepsInv(events[..|events| - 1]);
      StepKeepsInv(Run(Initial, events[..|events| - 1]), events[|events| - 1]);
    }
  }

  /** There are never more replies than sends, and the k-th reply embeds the k-th sent input. */
  lemma RepliesFollowSends(events: seq<Event>)
    ensures var st := Run(Initial, events);
            && |Contents(st.messages, FromAi)| <= |Contents(st.messages, FromUser)|
            && forall k :: 0 <= k < |Contents(st.messages, FromAi)| ==>
                 Contents(st.messages, FromAi)[k] == ReplyText(Contents(st.messages, FromUser)[k])
  {
    RunKeepsInv(events);
  }

  /** One event appends at most one message and leaves the earlier ones as they were. */
  lemma StepAppendOnly(st: State, e: Event)
    ensures var r := Step(st, e).messages;
            && |st.messages| <= |r| <= |st.messages| + 1
            && r[..|st.messages|] == st.messages
  {
  }

  /** The log only grows at its end, by at most one message per event. */
  lemma {:induction false} RunAppendOnly(st: State, events: seq<Event>)
    ensures var r := Run(st, events).messages;
            && |st.messages| <= |r| <= |st.messages| + |events|
            && r[..|st.messages|] == st.messages
    decreases |events|
  {
    if |events| > 0 {
      var before := Run(st, events[..|events| - 1]);
      RunAppendOnly(st, events[..|events| - 1]);
      StepAppendOnly(before, events[|events| - 1]);
      var r := Run(st, events).messages;
      assert r[..|st.messages|] == r[..|before.messages|][..|st.messages|];
    }
  }

  /** A reply clears the loading flag even while a later send still waits for its reply. */
  lemma FirstReplyClearsLoading(first: string, second: string, t1: nat, t2: nat, t3: nat)
    requires !AllSpace(first) && !AllSpace(second)
    ensures var st := Reply(Send(Edit(Send(Edit(Initial, first), t1), second), t2), t3);
            && !st.isLoading
            && st.pending == [second]
  {
  }

  /** The middle piece of the canned reply's split: the SQL code block. */
  function QueryBlock(query: string): string {
    QueryHead + query + QueryTail
  }

  /**
   For an input with no fence, the reply splits into the introduction, the
   SQL block (starting "sql\n" and holding the SELECT line with the input) and
   an empty tail.
   */
  lemma ReplySplitsInThree(query: string)
    requires NoFence(query)
    ensures Split(ReplyText(query)) == [ReplyIntro, QueryBlock(query), ""]
  {
    TemplateFenceFree();
    var block := QueryBlock(query);
    QueryBlockFenceFree(query);
    var tail := block + Fence + "";
    assert ReplyText(query) == ReplyIntro + Fence + tail;
    SplitAfterPlain(ReplyIntro, tail);
    SplitAfterPlain(block, "");
    assert Split("") == [""];
  }

  /** The SQL block opens with the "sql" language tag line, followed by the SELECT statement on the user table. */
  lemma QueryBlockStartsWithSelect(query: string)
    ensures |QueryBlock(query)| >= |QueryHead| && QueryBlock(query)[..|QueryHead|] == QueryHead
    ensures QueryBlock(query)[..4] == "sql\n"
  {
    var block := QueryBlock(query);
    assert block == QueryHead + (query + QueryTail);
    assert block[..|QueryHead|] == QueryHead;
    assert block[0] == 's' && block[1] == 'q' && block[2] == 'l' && block[3] == '\n';
  }

  /** The reply holds the input verbatim, with no escaping, directly between the two quotes of `name = '…'`. */
  lemma ReplyEmbedsInputVerbatim(query: string)
    ensures var start := |ReplyIntro| + |Fence| + |QueryHead|;
            && start + |query| < |ReplyText(query)|
            && ReplyText(query)[start..start + |query|] == query
            && ReplyText(query)[start - 1] == '\'' && ReplyText(query)[start + |query|] == '\''
  {
  }

  /** The reply to a fence-free input renders as prose, a code block, and an empty prose tail. */
  lemma ReplyRendersProseCodeProse(query: string)
    requires NoFence(query)
    ensures Render(ReplyText(query)) == [Prose(ReplyIntro), Code(QueryBlock(query)), Prose("")]
  {
    ReplySplitsInThree(query);
    var blocks := Render(ReplyText(query));
    assert |blocks| == 3;
    assert blocks[0] == Prose(ReplyIntro);
    assert blocks[1] == Code(QueryBlock(query));
    assert blocks[2] == Prose("");
  }

  /** The fixed pieces of the template hold no backtick. */
  lemma TemplateFenceFree()
    ensures NoFence(ReplyIntro) && ReplyIntro[|ReplyIntro| - 1] == '\n'
    ensures NoFence(QueryHead) && QueryHead[|QueryHead| - 1] == '\''
    ensures NoFence(QueryTail) && QueryTail[0] == '\''
  {
  }

  /** The SQL block of the reply to a fence-free input is fence-free and ends in a newline. */
  lemma QueryBlockFenceFree(query: string)
    requires NoFence(query)
    ensures NoFence(QueryBlock(query))
    ensures QueryBlock(query)[|QueryBlock(query)| - 1] == '\n'
  {
    TemplateFenceFree();
    NoFenceConcat(QueryHead, query);
    NoFenceConcat(QueryHead + query, QueryTail);
    assert QueryBlock(query) == (QueryHead + query) + QueryTail;
  }
}
