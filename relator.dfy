/** The "Relator" chat screen (src/app/screens/dashboard/relator/Relator.tsx):
    the message list, the input box and the loading flag.  The clock
    (`Date.now()`) is a parameter and the one-second timer that answers is
    a separate handler, `Reply`, called with the text it was armed with. */
module Relator {
  import opened Common

  datatype Role = User | Assistant

  datatype Message = Message(id: string, role: Role, content: string)

  /** The React state the handlers change. */
  datatype ChatState = ChatState(messages: seq<Message>, input: string, isLoading: bool)

  const Empty := ChatState([], "", false)

  /** `!input.trim()`: nothing but blanks. */
  predicate Blank(text: string) {
    Trim(text) == ""
  }

  // The fixed text around the quoted message of `mockAIResponse`.
  const ReplyOpening := "Entendi sua solicitação sobre "
  const ReplyClosing := ". Vou analisar nossa base de dados do Depad/MDS e criar um relatório personalizado para você."

  /** `mockAIResponse`: a fixed sentence quoting the user's message. */
  function MockReply(userMessage: string): (r: string)
    ensures Contains(r, "\"" + userMessage + "\"")
  {
    var quoted := "\"" + userMessage + "\"";
    InfixContained(ReplyOpening, quoted, ReplyClosing);
    ReplyOpening + quoted + ReplyClosing
  }

  /** `handleSubmit` at time `now`: blank input changes nothing; otherwise
      the input becomes one more user message, the box is emptied and the
      answer is awaited. */
  function Submitted(s: ChatState, now: nat): (r: ChatState)
    ensures Blank(s.input) ==> r == s
    ensures !Blank(s.input) ==>
      && |r.messages| == |s.messages| + 1
      && r.messages[..|s.messages|] == s.messages
      && r.messages[|s.messages|] == Message(NatToDecimal(now), User, s.input)
      && r.input == "" && r.isLoading
  {
    if Blank(s.input) then s
    else
      var m := s.messages + [Message(NatToDecimal(now), User, s.input)];
      assert m[..|s.messages|] == s.messages;
      ChatState(m, "", true)
  }

  /** The timer armed by a submit of `submitted`, firing at `now`: one more
      assistant message quoting the text, and the wait is over. */
  function Replied(s: ChatState, submitted: string, now: nat): (r: ChatState)
    ensures |r.messages| == |s.messages| + 1
    ensures r.messages[..|s.messages|] == s.messages
    ensures r.messages[|s.messages|].role == Assistant
    ensures Contains(r.messages[|s.messages|].content, "\"" + submitted + "\"")
    ensures r.input == s.input && !r.isLoading
  {
    var m := s.messages + [Message(NatToDecimal(now + 1), Assistant, MockReply(submitted))];
    assert m[..|s.messages|] == s.messages;
    s.(messages := m, isLoading := false)
  }

  /** The input's `onChange`; the input is disabled while loading. */
  function Typed(s: ChatState, text: string): (r: ChatState)
    ensures r.messages == s.messages && r.isLoading == s.isLoading
    ensures r.input == (if s.isLoading then s.input else text)
  {
    if s.isLoading then s else s.(input := text)
  }

  /** `handleKeyPress`: Enter without Shift submits, any other key does not. */
  function KeyDown(s: ChatState, key: string, shiftKey: bool, now: nat): (r: ChatState)
    ensures key == "Enter" && !shiftKey ==> r == Submitted(s, now)
    ensures key != "Enter" || shiftKey ==> r == s
  {
    if key == "Enter" && !shiftKey then Submitted(s, now) else s
  }

  /** `disabled={isLoading || !input.trim()}` on the send button. */
  predicate SendDisabled(s: ChatState) {
    s.isLoading || Blank(s.input)
  }

  /** An enabled send button adds exactly the typed text as a user message. */
  lemma EnabledSendAppends(s: ChatState, now: nat)
    requires !SendDisabled(s)
    ensures var r := Submitted(s, now);
      && r.messages == s.messages + [Message(NatToDecimal(now), User, s.input)]
      && SendDisabled(r)
  {
    var r := Submitted(s, now);
    assert r.messages == r.messages[..|s.messages|] + [r.messages[|s.messages|]];
  }

  /** What happens to the screen: typing, submitting, a key press, or the
      timer of an earlier submit firing. */
  datatype Event =
    | TypeText(text: string)
    | Submit(now: nat)
    | Key(key: string, shiftKey: bool, at: nat)
    | TimerFired(submitted: string, firedAt: nat)

  /** `a` is a prefix of `b`. */
  predicate PrefixOf(a: seq<Message>, b: seq<Message>) {
    |a| <= |b| && b[..|a|] == a
  }

  /** One event never changes or removes a message already shown, and adds
      at most one. */
  function Apply(s: ChatState, e: Event): (r: ChatState)
    ensures PrefixOf(s.messages, r.messages)
    ensures |r.messages| <= |s.messages| + 1
  {
    match e
    case TypeText(text) => Typed(s, text)
    case Submit(now) => Submitted(s, now)
    case Key(key, shiftKey, at) => KeyDown(s, key, shiftKey, at)
    case TimerFired(submitted, firedAt) => Replied(s, submitted, firedAt)
  }

  /** The screen after a series of events.  The message list only grows:
      whatever happens, the messages shown before are still shown,
      unchanged and in the same places. */
  function Run(s: ChatState, events: seq<Event>): (r: ChatState)
    ensures PrefixOf(s.messages, r.messages)
    ensures |r.messages| <= |s.messages| + |events|
    decreases |events|
  {
    if events == [] then s
    else
      var t := Apply(s, events[0]);
      var r := Run(t, events[1..]);
      assert r.messages[..|s.messages|] == r.messages[..|t.messages|][..|s.messages|];
      r
  }

  /** A submit followed by its timer leaves the question and its answer as
      the two newest messages, and the screen ready for the next one. */
  lemma SubmitThenReply(s: ChatState, now: nat, later: nat)
    requires !Blank(s.input)
    ensures var r := Replied(Submitted(s, now), s.input, later);
      && |r.messages| == |s.messages| + 2
      && r.messages[..|s.messages|] == s.messages
      && r.messages[|s.messages|] == Message(NatToDecimal(now), User, s.input)
      && r.messages[|s.messages| + 1].role == Assistant
      && Contains(r.messages[|s.messages| + 1].content, "\"" + s.input + "\"")
      && r.input == "" && !r.isLoading
  {
    var t := Submitted(s, now);
    var r := Replied(t, s.input, later);
    assert r.messages[..|s.messages|] == r.messages[..|t.messages|][..|s.messages|];
    assert r.messages[|s.messages|] == r.messages[..|t.messages|][|s.messages|];
  }

  /** The screen as a component. */
  class Chat {
    var messages: seq<Message>
    var input: string
    var isLoading: bool

    function State(): ChatState
      reads this
    {
      ChatState(messages, input, isLoading)
    }

    constructor()
      ensures State() == Empty
    {
      messages := [];
      input := "";
      isLoading := false;
    }

    method Type(text: string)
      modifies this
      ensures State() == Typed(old(State()), text)
    {
      if !isLoading {
        input := text;
      }
    }

    /** `handleSubmit`; `pending` is the text the armed timer will quote,
        None when nothing was sent. */
    method Submit(now: nat) returns (pending: Option<string>)
      modifies this
      ensures State() == Submitted(old(State()), now)
      ensures pending == (if Blank(old(input)) then None else Some(old(input)))
    {
      if Blank(input) {
        return None;
      }
      pending := Some(input);
      messages := messages + [Message(NatToDecimal(now), User, input)];
      input := "";
      isLoading := true;
    }

    /** The timer's callback. */
    method Reply(submitted: string, now: nat)
      modifies this
      ensures State() == Replied(old(State()), submitted, now)
    {
      messages := messages + [Message(NatToDecimal(now + 1), Assistant, MockReply(submitted))];
      isLoading := false;
    }

    /** `handleKeyPress`. */
    method KeyPress(key: string, shiftKey: bool, now: nat) returns (pending: Option<string>)
      modifies this
      ensures State() == KeyDown(old(State()), key, shiftKey, now)
      ensures key != "Enter" || shiftKey ==> pending.None?
    {
      pending := None;
      if key == "Enter" && !shiftKey {
        pending := Submit(now);
      }
    }
  }
}
