/**
 * The agent chat of ChatInterface.tsx: an append-only message log, an input
 * box with quick-action presets, a send handler that ignores blank input and
 * a canned AI reply that arrives after each send.
 */
module ChatInterface {
  import opened Text
  import opened Lists

  datatype Sender = User | Ai

  datatype ActionKind = Transaction | Update

  datatype Status = Pending | Completed | Failed

  /** An action result attached to a message; an absent `txHash` is `None`. */
  datatype Action = Action(kind: ActionKind, description: string, txHash: Option<string>, status: Status)

  /**
   * A chat message without its id and timestamp. A message without an
   * `actions` array and one with an empty array render alike, so both are `[]`.
   */
  datatype Message = Message(content: string, sender: Sender, actions: seq<Action>)

  const SeedTxHash: string := "0x742d35Cc6548Bb1067b3B0a1e0e2c7B5d3e8F9c4"

  /** The log on first render. */
  const SeedMessages: seq<Message> := [
    Message("Hello! I'm your ENS AI Agent. I can help you with payments, identity management, and blockchain interactions. What would you like to do?", Ai, []),
    Message("Send 5 USDC to kwame.agent.eth", User, []),
    Message("I'll send 5 USDC to kwame.agent.eth for you. Checking balances and initiating transaction...", Ai,
      [Action(Transaction, "Send 5 USDC to kwame.agent.eth", Some(SeedTxHash), Completed)]),
    Message("What credentials does Ama have?", User, []),
    Message("Based on ama.agent.eth's ENS records, she has the following verified credentials: Verified Vendor badge from Ghana DAO, Trusted Farmer certification from Agriculture Alliance, and a 5-star community rating with 78 reviews.", Ai, [])]

  /** The text of every simulated AI response. */
  const AiReply: string := "I understand your request. Let me process that for you..."

  /** The preset buttons under the input box. */
  const QuickActions: seq<string> := ["Send payment", "Check credentials", "Update records", "Join savings group"]

  function UserMessage(content: string): Message {
    Message(content, User, [])
  }

  const AiMessage: Message := Message(AiReply, Ai, [])

  /** The message is the canned AI reply. */
  predicate IsReply(m: Message) {
    m == AiMessage
  }

  /** The send button is enabled (`!newMessage.trim()` is false). */
  predicate SendEnabled(input: string) {
    Trim(input) != []
  }

  /** Sending is possible exactly when the input holds a character other than whitespace. */
  lemma SendEnabledIff(input: string)
    ensures SendEnabled(input) <==> exists i :: 0 <= i < |input| && !IsWhitespace(input[i])
  {
    TrimEmptyIff(input);
  }

  lemma StartsWithNonBlank(s: string)
    requires s != [] && !IsWhitespace(s[0])
    ensures SendEnabled(s)
  {
    SendEnabledIff(s);
  }

  /**
   * The presets start with 'S', 'C', 'U' and 'J'. The list comes in as a
   * parameter equal to `QuickActions`, so the solver does not unroll the literal.
   */
  lemma PresetInitials(qs: seq<string>)
    requires qs == QuickActions
    ensures |qs| == 4
    ensures qs[0] != [] && qs[1] != [] && qs[2] != [] && qs[3] != []
    ensures qs[0][0] == 'S' && qs[1][0] == 'C' && qs[2][0] == 'U' && qs[3][0] == 'J'
  {
  }

  /** Every quick-action preset can be sent as it is (`qs` as in `PresetInitials`). */
  lemma QuickActionsSendable(qs: seq<string>)
    requires qs == QuickActions
    ensures forall k :: 0 <= k < |qs| ==> SendEnabled(qs[k])
  {
    PresetInitials(qs);
    forall k | 0 <= k < |qs| ensures SendEnabled(qs[k]) {
      assert k == 0 || k == 1 || k == 2 || k == 3;
      StartsWithNonBlank(qs[k]);
    }
  }

  /** `s.slice(0, n)` for `n >= 0`: the first `n` characters, or all of a shorter string. */
  function SliceFirst(s: string, n: nat): (r: string)
    ensures r <= s && |r| == if |s| < n then |s| else n
  {
    if |s| < n then s else s[..n]
  }

  /** `s.slice(-n)` for `n > 0`: the last `n` characters, or all of a shorter string. */
  function SliceLast(s: string, n: nat): (r: string)
    requires n > 0
    ensures |r| == (if |s| < n then |s| else n) && r == s[|s| - |r|..]
  {
    if |s| < n then s else s[|s| - n..]
  }

  /** `txHash.slice(0, 10) + "..." + txHash.slice(-8)` */
  function Abbreviate(h: string): string {
    SliceFirst(h, 10) + "..." + SliceLast(h, 8)
  }

  /** The abbreviated hash shown under an action, absent when `txHash` is missing or empty. */
  function TxDisplay(a: Action): Option<string> {
    match a.txHash
    case Some(h) => if h != "" then Some(Abbreviate(h)) else None
    case None => None
  }

  /**
   * A hash of at least 18 characters is shown as its first 10, three dots and
   * its last 8: 21 characters.
   */
  lemma AbbreviateShape(h: string)
    requires |h| >= 18
    ensures |Abbreviate(h)| == 21
    ensures Abbreviate(h)[..10] == h[..10]
    ensures Abbreviate(h)[10..13] == "..."
    ensures Abbreviate(h)[13..] == h[|h| - 8..]
  {
  }

  /** Two long hashes look the same exactly when they agree on their first 10 and last 8 characters. */
  lemma AbbreviateSameIff(h: string, h': string)
    requires |h| >= 18 && |h'| >= 18
    ensures Abbreviate(h) == Abbreviate(h') <==> h[..10] == h'[..10] && h[|h| - 8..] == h'[|h'| - 8..]
  {
    AbbreviateShape(h);
    AbbreviateShape(h');
    if h[..10] == h'[..10] && h[|h| - 8..] == h'[|h'| - 8..] {
      assert Abbreviate(h) == h[..10] + "..." + h[|h| - 8..];
    }
  }

  /** A hash of exactly 18 characters loses nothing: both ends put back together give it back. */
  lemma AbbreviateShortHash(h: string)
    requires |h| == 18
    ensures Abbreviate(h)[..10] + Abbreviate(h)[13..] == h
  {
    AbbreviateShape(h);
    assert h == h[..10] + h[10..];
  }

  /** The seed transaction is shown as "0x742d35Cc...d3e8F9c4". */
  lemma SeedHashDisplay()
    ensures |SeedTxHash| == 42
    ensures TxDisplay(SeedMessages[2].actions[0]) == Some("0x742d35Cc...d3e8F9c4")
    ensures |TxDisplay(SeedMessages[2].actions[0]).value| == 21
  {
    var h := SeedTxHash;
    AbbreviateShape(h);
    assert h[..10] == "0x742d35Cc";
    assert h[|h| - 8..] == "d3e8F9c4";
    assert Abbreviate(h) == h[..10] + "..." + h[|h| - 8..];
    assert "0x742d35Cc" + "..." + "d3e8F9c4" == "0x742d35Cc...d3e8F9c4";
  }

  /** An empty hash is falsy and shows nothing; any other present hash is shown. */
  lemma TxDisplayIff(a: Action)
    ensures TxDisplay(a).Some? <==> a.txHash.Some? && a.txHash.value != ""
  {
  }

  datatype Variant = Default | Secondary | Destructive

  /** The status badge's variant. */
  function BadgeVariant(s: Status): Variant {
    if s == Completed then Default else if s == Pending then Secondary else Destructive
  }

  /** The status badge carries a check icon. */
  predicate ShowsCheck(s: Status) {
    s == Completed
  }

  /** Each status has its own variant, and the check icon goes with the default variant. */
  lemma BadgeVariantInjective(s: Status, s': Status)
    ensures BadgeVariant(s) == BadgeVariant(s') ==> s == s'
    ensures ShowsCheck(s) <==> BadgeVariant(s) == Default
    ensures BadgeVariant(s) == Destructive <==> s == Failed
  {
  }

  /** The component's state; `pendingReplies` counts scheduled replies that have not yet arrived. */
  datatype ChatState = ChatState(messages: seq<Message>, newMessage: string, pendingReplies: nat)

  const Start := ChatState(SeedMessages, "", 0)

  /** `sendMessage`: nothing for blank input, otherwise log the raw input, clear it and schedule a reply. */
  function SendState(st: ChatState): ChatState {
    if !SendEnabled(st.newMessage) then st
    else ChatState(st.messages + [UserMessage(st.newMessage)], "", st.pendingReplies + 1)
  }

  /** A scheduled reply arrives; with none scheduled nothing happens. */
  function ReplyState(st: ChatState): ChatState {
    if st.pendingReplies == 0 then st
    else st.(messages := st.messages + [AiMessage], pendingReplies := st.pendingReplies - 1)
  }

  datatype Event =
    | Type(text: string)       // the input's onChange
    | PickQuickAction(k: nat)  // the preset button at this position
    | Send                     // the send button or the Enter key
    | ReplyArrives             // a scheduled reply fires

  function Apply(st: ChatState, e: Event): ChatState {
    match e
    case Type(text) => st.(newMessage := text)
    case PickQuickAction(k) => if k < |QuickActions| then st.(newMessage := QuickActions[k]) else st
    case Send => SendState(st)
    case ReplyArrives => ReplyState(st)
  }

  function Run(st: ChatState, events: seq<Event>): ChatState
    decreases |events|
  {
    if events == [] then st else Run(Apply(st, events[0]), events[1..])
  }

  /** The number of messages from `sender`. */
  function CountFrom(msgs: seq<Message>, sender: Sender): nat {
    |Filter(msgs, (m: Message) => m.sender == sender)|
  }

  lemma CountAppend(msgs: seq<Message>, m: Message, sender: Sender)
    ensures CountFrom(msgs + [m], sender) == CountFrom(msgs, sender) + (if m.sender == sender then 1 else 0)
  {
    FilterConcat(msgs, [m], (x: Message) => x.sender == sender);
    assert [m][1..] == [];
  }

  /**
   * The log after the seed: every user message is sendable, every AI message
   * is the canned reply, each user message is answered by one reply that has
   * arrived or is pending, and no prefix holds more replies than sends.
   */
  ghost predicate WellFormedTail(tail: seq<Message>, pendingReplies: nat) {
    && (forall i :: 0 <= i < |tail| ==> Appendable(tail[i]))
    && CountFrom(tail, Ai) + pendingReplies == CountFrom(tail, User)
    && RepliesNeverLead(tail)
  }

  /** A message `sendMessage` or the reply callback can append. */
  predicate Appendable(m: Message) {
    && (m.sender == User ==> SendEnabled(m.content))
    && (m.sender == Ai ==> IsReply(m))
    && m.actions == []
  }

  /** No prefix of `tail` holds more AI messages than user messages. */
  ghost predicate RepliesNeverLead(tail: seq<Message>) {
    forall n :: 0 <= n <= |tail| ==> CountFrom(tail[..n], Ai) <= CountFrom(tail[..n], User)
  }

  /** The log starts with `seed` and what follows it is well formed. */
  ghost predicate Consistent(seed: seq<Message>, st: ChatState) {
    && |seed| <= |st.messages|
    && st.messages[..|seed|] == seed
    && WellFormedTail(st.messages[|seed|..], st.pendingReplies)
  }

  lemma StartConsistent()
    ensures Consistent(SeedMessages, Start)
  {
    assert Start.messages[|SeedMessages|..] == [];
  }

  lemma TailAppend(tail: seq<Message>, pendingReplies: nat, m: Message, pendingReplies': nat)
    requires WellFormedTail(tail, pendingReplies) && Appendable(m)
    requires m.sender == User ==> pendingReplies' == pendingReplies + 1
    requires m.sender == Ai ==> pendingReplies > 0 && pendingReplies' == pendingReplies - 1
    ensures WellFormedTail(tail + [m], pendingReplies')
  {
    var tail' := tail + [m];
    assert tail'[..|tail|] == tail;
    CountAppend(tail, m, Ai);
    CountAppend(tail, m, User);
    forall n | 0 <= n <= |tail'| ensures CountFrom(tail'[..n], Ai) <= CountFrom(tail'[..n], User) {
      if n <= |tail| {
        assert tail'[..n] == tail[..n];
      } else {
        assert tail'[..n] == tail';
        assert CountFrom(tail'[..n], Ai) == CountFrom(tail', Ai);
        assert CountFrom(tail'[..n], User) == CountFrom(tail', User);
      }
    }
  }

  /** Appending one message that `TailAppend` admits keeps the state consistent. */
  lemma AppendKeepsConsistent(seed: seq<Message>, st: ChatState, m: Message, st': ChatState)
    requires Consistent(seed, st) && Appendable(m)
    requires st'.messages == st.messages + [m]
    requires m.sender == User ==> st'.pendingReplies == st.pendingReplies + 1
    requires m.sender == Ai ==> st.pendingReplies > 0 && st'.pendingReplies == st.pendingReplies - 1
    ensures Consistent(seed, st')
  {
    var n := |seed|;
    var tail := st.messages[n..];
    TailAppend(tail, st.pendingReplies, m, st'.pendingReplies);
    assert st'.messages[n..] == tail + [m];
    assert st'.messages[..n] == st.messages[..n];
  }

  /** Every event keeps the state consistent, and the log only grows at its end. */
  lemma ApplyKeepsConsistent(seed: seq<Message>, st: ChatState, e: Event)
    requires Consistent(seed, st)
    ensures Consistent(seed, Apply(st, e))
    ensures st.messages <= Apply(st, e).messages
  {
    match e {
      case Send =>
        if SendEnabled(st.newMessage) {
          AppendKeepsConsistent(seed, st, UserMessage(st.newMessage), Apply(st, e));
        }
      case ReplyArrives =>
        if st.pendingReplies > 0 {
          AppendKeepsConsistent(seed, st, AiMessage, Apply(st, e));
        }
      case _ =>
    }
  }

  /**
   * From the first render, whatever the user does and whenever replies
   * arrive, the seed stays at the head of the log, earlier messages never
   * change, and the log keeps the consistency above.
   */
  lemma {:induction false} RunKeepsConsistent(seed: seq<Message>, st: ChatState, events: seq<Event>)
    requires Consistent(seed, st)
    ensures Consistent(seed, Run(st, events))
    ensures st.messages <= Run(st, events).messages
    decreases |events|
  {
    if events != [] {
      ApplyKeepsConsistent(seed, st, events[0]);
      RunKeepsConsistent(seed, Apply(st, events[0]), events[1..]);
    }
  }

  /** Once every scheduled reply has arrived, the log holds as many replies as sends after the seed. */
  lemma RepliesMatchSends(events: seq<Event>)
    ensures |SeedMessages| <= |Run(Start, events).messages|
    ensures var st := Run(Start, events);
      st.pendingReplies == 0 ==>
        CountFrom(st.messages[|SeedMessages|..], Ai) == CountFrom(st.messages[|SeedMessages|..], User)
  {
    StartConsistent();
    RunKeepsConsistent(SeedMessages, Start, events);
  }

  /** A blank input changes nothing; a sendable one appends it untrimmed, clears the box and schedules a reply. */
  lemma SendStateIff(st: ChatState)
    ensures SendState(st) == st <==> !SendEnabled(st.newMessage)
    ensures SendEnabled(st.newMessage) ==>
      |SendState(st).messages| == |st.messages| + 1
      && SendState(st).messages[..|st.messages|] == st.messages
      && SendState(st).messages[|st.messages|] == Message(st.newMessage, User, [])
      && SendState(st).newMessage == ""
  {
    if SendEnabled(st.newMessage) {
      assert (st.messages + [UserMessage(st.newMessage)])[..|st.messages|] == st.messages;
    }
  }

  /** Sending "  hi " keeps the surrounding blanks in the log; sending "  " does nothing. */
  lemma SendKeepsBlanks()
    ensures SendState(ChatState(SeedMessages, "  hi ", 0)).messages == SeedMessages + [UserMessage("  hi ")]
    ensures SendState(ChatState(SeedMessages, "  ", 0)) == ChatState(SeedMessages, "  ", 0)
  {
    SendEnabledIff("  hi ");
    assert !IsWhitespace("  hi "[2]);
    TrimEmptyIff("  ");
  }

  /** The component instance: the log, the input box and the replies still to come. */
  class Chat {
    var messages: seq<Message>
    var newMessage: string
    var pendingReplies: nat

    function State(): ChatState
      reads this
    {
      ChatState(messages, newMessage, pendingReplies)
    }

    constructor()
      ensures State() == Start
    {
      messages := SeedMessages;
      newMessage := "";
      pendingReplies := 0;
    }

    /** The input's `onChange`: `setNewMessage(e.target.value)`. */
    method SetNewMessage(value: string)
      modifies this
      ensures State() == old(State()).(newMessage := value)
    {
      newMessage := value;
    }

    /** A quick-action button: `setNewMessage(action)`. */
    method PickQuickAction(k: nat)
      requires k < |QuickActions|
      modifies this
      ensures State() == old(State()).(newMessage := QuickActions[k])
      ensures SendEnabled(newMessage)
    {
      newMessage := QuickActions[k];
      QuickActionsSendable(QuickActions);
    }

    /** `sendMessage`, from the send button or the Enter key. */
    method SendMessage()
      modifies this
      ensures State() == SendState(old(State()))
    {
      if Trim(newMessage) == [] {
        return;
      }
      var userMessage := UserMessage(newMessage);
      messages := messages + [userMessage];
      newMessage := "";
      pendingReplies := pendingReplies + 1;
    }

    /** The scheduled callback: append the canned AI reply. */
    method ReceiveReply()
      requires pendingReplies > 0
      modifies this
      ensures State() == ReplyState(old(State()))
      ensures messages == old(messages) + [AiMessage]
    {
      messages := messages + [AiMessage];
      pendingReplies := pendingReplies - 1;
    }

    /** Dispatches one event; consistent states stay consistent and the log only grows. */
    method Handle(e: Event)
      modifies this
      ensures State() == Apply(old(State()), e)
      ensures old(messages) <= messages
      ensures old(Consistent(SeedMessages, State())) ==> Consistent(SeedMessages, State())
    {
      ghost var before := State();
      match e {
        case Type(text) => SetNewMessage(text);
        case PickQuickAction(k) =>
          if k < |QuickActions| {
            PickQuickAction(k);
          }
        case Send => SendMessage();
        case ReplyArrives =>
          if pendingReplies > 0 {
            ReceiveReply();
          }
      }
      if Consistent(SeedMessages, before) {
        ApplyKeepsConsistent(SeedMessages, before, e);
      }
    }
  }
}
