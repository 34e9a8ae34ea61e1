/**
 * The turn-taking state machine of Code/recap/src/dm.ts: its states, the
 * commands its entry actions issue (speech sends and service calls), one
 * event step as a function, and the running actor as a class.
 */
module Machine {
  import opened Wrappers
  import opened DmTypes
  import opened Requests

  /** The children of the compound state Main. */
  datatype MainState = Prompt | SpeakPrompt | Ask | CheckContradiction | ChatCompletion | Speaking | Done

  /** The top-level states. */
  datatype State = Prepare | GetModels | Main(sub: MainState)

  /** What an entry action does outside the machine. */
  datatype Command =
    | SendPrepare                                  // speech subsystem: PREPARE
    | SendListen                                   // speech subsystem: LISTEN
    | SendSpeak(utterance: string)                 // speech subsystem: SPEAK
    | CallModels                                   // fetch the model catalog
    | CallClassifier(input: ContradictionInput)    // fetch a contradiction verdict
    | CallChat(messages: seq<Message>)             // fetch a chat completion

  /** The context the machine starts with. */
  const InitialContext: Context := Context([], [], None)

  /** The result of handling one event. */
  datatype Outcome = Outcome(state: State, ctx: Context, cmd: Option<Command>)

  /**
   * What holds in every state the machine can reach: before Main the
   * context is still the initial one; inside Main the history starts with
   * the greeting; Prompt and SpeakPrompt hold the greeting alone; Speaking
   * is entered only after an assistant turn; Done is never entered.
   */
  ghost predicate Inv(s: State, c: Context) {
    && (s == Prepare || s == GetModels ==> c == InitialContext)
    && (s.Main? ==> |c.messages| >= 1 && c.messages[0] == Greeting)
    && (s == Main(Prompt) || s == Main(SpeakPrompt) ==> c.messages == [Greeting])
    && (s == Main(Speaking) ==> c.messages[|c.messages| - 1].role == Assistant)
    && s != Main(Done)
  }

  /** The command issued when `s` is entered with context `c`. */
  function EntryCommand(s: State, c: Context): (r: Option<Command>)
    requires s == Main(SpeakPrompt) ==> |c.messages| > 0
    ensures r.None? <==> s == Main(Prompt) || s == Main(Done)
                         || (s == Main(Speaking) && SpokenReply(c.messages).None?)
  {
    match s
    case Prepare => Some(SendPrepare)
    case GetModels => Some(CallModels)
    case Main(Prompt) => None
    case Main(SpeakPrompt) => Some(SendSpeak(c.messages[0].content))
    case Main(Ask) => Some(SendListen)
    case Main(CheckContradiction) => Some(CallClassifier(BuildContradictionInput(c.messages)))
    case Main(ChatCompletion) => Some(CallChat(ChatRequest(c.lastContradiction, c.messages)))
    case Main(Speaking) =>
      (match SpokenReply(c.messages)
       case Some(u) => Some(SendSpeak(u))
       case None => None)
    case Main(Done) => None
  }

  /** Enters `s`: Prompt's entry assignment, then the entry command. */
  function Enter(s: State, c: Context): (o: Outcome)
    requires s == Main(SpeakPrompt) ==> |c.messages| > 0
    ensures o.state == s
  {
    if s == Main(Prompt) then
      Outcome(s, c.(messages := PrependPrompt(c.messages)), None)
    else
      Outcome(s, c, EntryCommand(s, c))
  }

  /** The events each state has a transition for. */
  predicate Accepts(s: State, e: Event) {
    match s
    case Prepare => e.AsrTtsReady?
    case GetModels => e.ModelsReplied?
    case Main(Prompt) => e.Click?
    case Main(SpeakPrompt) => e.SpeakComplete?
    case Main(Ask) => e.ListenComplete? || e.Recognised? || e.AsrNoInput?
    case Main(CheckContradiction) => e.ClassifierReplied? || e.ClassifierFailed?
    case Main(ChatCompletion) => e.ChatReplied?
    case Main(Speaking) => e.SpeakComplete?
    case Main(Done) => false
  }

  /** One event handled to completion: the transition of the current state for `e`, if any. */
  function Step(s: State, c: Context, e: Event): (o: Outcome)
    requires Inv(s, c)
  {
    match s
    case Prepare =>
      if e.AsrTtsReady? then Enter(GetModels, c) else Outcome(s, c, None)
    case GetModels =>
      if e.ModelsReplied? then Enter(Main(Prompt), c.(ollamaModels := ModelNames(e.models)))
      else Outcome(s, c, None)
    case Main(Prompt) =>
      if e.Click? then Enter(Main(SpeakPrompt), c) else Outcome(s, c, None)
    case Main(SpeakPrompt) =>
      if e.SpeakComplete? then Enter(Main(Ask), c) else Outcome(s, c, None)
    case Main(Ask) =>
      if e.ListenComplete? then Enter(Main(CheckContradiction), c)
      else if e.Recognised? then Outcome(s, c.(messages := AppendUser(c.messages, e.utterance)), None)
      else if e.AsrNoInput? then Enter(Main(CheckContradiction), c.(messages := AppendUser(c.messages, "")))
      else Outcome(s, c, None)
    case Main(CheckContradiction) =>
      if e.ClassifierReplied? then
        match ValidateReply(e.reply)
        case Ok(out) => Enter(Main(ChatCompletion), c.(lastContradiction := Some(out.prediction)))
        case Err(_) => Enter(Main(ChatCompletion), c)
      else if e.ClassifierFailed? then Enter(Main(ChatCompletion), c)
      else Outcome(s, c, None)
    case Main(ChatCompletion) =>
      if e.ChatReplied? then Enter(Main(Speaking), c.(messages := AppendAssistant(c.messages, e.content)))
      else Outcome(s, c, None)
    case Main(Speaking) =>
      if e.SpeakComplete? then Enter(Main(Ask), c) else Outcome(s, c, None)
    case Main(Done) => Outcome(s, c, None)
  }

  /** The machine starts in Prepare with the initial context. */
  lemma InitialInv()
    ensures Inv(Prepare, InitialContext)
  {
  }

  /** Every step keeps the invariant; in particular Done is never reached. */
  lemma StepPreservesInv(s: State, c: Context, e: Event)
    requires Inv(s, c)
    ensures Inv(Step(s, c, e).state, Step(s, c, e).ctx)
    ensures Step(s, c, e).state != Main(Done)
  {
  }

  /** Exactly the accepted events have an effect; every other event is ignored. */
  lemma UnhandledIgnored(s: State, c: Context, e: Event)
    requires Inv(s, c)
    ensures Step(s, c, e) == Outcome(s, c, None) <==> !Accepts(s, e)
  {
  }

  /** ChatCompletion and GetModels have no error transition: a failure changes nothing. */
  lemma ServiceFailureStaysPut(c: Context)
    ensures Inv(GetModels, c) ==> Step(GetModels, c, ModelsFailed) == Outcome(GetModels, c, None)
    ensures Inv(Main(ChatCompletion), c) ==>
      Step(Main(ChatCompletion), c, ChatFailed) == Outcome(Main(ChatCompletion), c, None)
  {
  }

  /**
   * The history is append-only: the old history is a prefix of the new
   * one, which is at most one message longer. (The greeting is prepended
   * only while the history is still empty.)
   */
  lemma HistoryGrows(s: State, c: Context, e: Event)
    requires Inv(s, c)
    ensures var m := Step(s, c, e).ctx.messages;
      c.messages <= m && |m| <= |c.messages| + 1
  {
  }

  /**
   * The catalog reply stores the model names and enters Prompt, whose
   * entry puts the greeting in front of the (empty) history.
   */
  lemma ModelsLoaded(c: Context, models: seq<ModelEntry>)
    requires Inv(GetModels, c)
    ensures var o := Step(GetModels, c, ModelsReplied(models));
      && o.state == Main(Prompt) && o.cmd == None
      && o.ctx.ollamaModels == ModelNames(models)
      && o.ctx.messages == [Greeting] + c.messages
      && o.ctx.lastContradiction == c.lastContradiction
  {
  }

  /** In Ask, a recognised utterance is appended as a user turn and the machine keeps listening. */
  lemma AskRecognised(c: Context, u: string)
    requires Inv(Main(Ask), c)
    ensures Step(Main(Ask), c, Recognised(u))
         == Outcome(Main(Ask), c.(messages := c.messages + [Message(User, u)]), None)
  {
  }

  /** In Ask, no input appends an empty user turn and asks the classifier. */
  lemma AskNoInput(c: Context)
    requires Inv(Main(Ask), c)
    ensures var m := c.messages + [Message(User, "")];
      var o := Step(Main(Ask), c, AsrNoInput);
      && o.state == Main(CheckContradiction)
      && o.ctx == c.(messages := m)
      && o.cmd == Some(CallClassifier(BuildContradictionInput(m)))
  {
  }

  /** In Ask, the end of listening asks the classifier without touching the history. */
  lemma AskListenComplete(c: Context)
    requires Inv(Main(Ask), c)
    ensures var o := Step(Main(Ask), c, ListenComplete);
      && o.state == Main(CheckContradiction)
      && o.ctx == c
      && o.cmd == Some(CallClassifier(BuildContradictionInput(c.messages)))
  {
  }

  /**
   * The classifier outcome: a valid reply stores its verdict; an invalid
   * reply or a failed call keeps the old one. Either way the machine moves
   * on to ChatCompletion and asks for a completion with the stored verdict.
   */
  lemma ClassifierOutcome(c: Context, e: Event)
    requires Inv(Main(CheckContradiction), c)
    requires e.ClassifierReplied? || e.ClassifierFailed?
    ensures var o := Step(Main(CheckContradiction), c, e);
      && o.state == Main(ChatCompletion)
      && o.ctx.messages == c.messages && o.ctx.ollamaModels == c.ollamaModels
      && (if e.ClassifierReplied? && ValidateReply(e.reply).Ok?
          then o.ctx.lastContradiction == Some(ValidateReply(e.reply).value.prediction)
          else o.ctx.lastContradiction == c.lastContradiction)
      && o.cmd == Some(CallChat(ChatRequest(o.ctx.lastContradiction, c.messages)))
  {
  }

  /** Only a valid classifier reply changes the stored verdict. */
  lemma VerdictChangesOnlyOnValidReply(s: State, c: Context, e: Event)
    requires Inv(s, c)
    requires Step(s, c, e).ctx.lastContradiction != c.lastContradiction
    ensures s == Main(CheckContradiction) && e.ClassifierReplied?
    ensures ValidateReply(e.reply).Ok?
    ensures Step(s, c, e).ctx.lastContradiction == Some(ValidateReply(e.reply).value.prediction)
  {
  }

  /** A chat reply is appended as the assistant's turn, and Speaking says it. */
  lemma ChatReplySpoken(c: Context, reply: string)
    requires Inv(Main(ChatCompletion), c)
    ensures Step(Main(ChatCompletion), c, ChatReplied(reply))
         == Outcome(Main(Speaking), c.(messages := c.messages + [Message(Assistant, reply)]),
                    Some(SendSpeak(reply)))
  {
    SpeaksAppendedReply(c.messages, reply);
  }

  /** In every reachable Speaking state the guard holds and the last message is said. */
  lemma SpeakingAlwaysSpeaks(c: Context)
    requires Inv(Main(Speaking), c)
    ensures EntryCommand(Main(Speaking), c) == Some(SendSpeak(c.messages[|c.messages| - 1].content))
  {
  }

  /** Handles a sequence of events in order. */
  function Run(s: State, c: Context, events: seq<Event>): (o: Outcome)
    requires Inv(s, c)
    ensures Inv(o.state, o.ctx)
    decreases |events|
  {
    if events == [] then Outcome(s, c, None)
    else
      var o := Step(s, c, events[0]);
      StepPreservesInv(s, c, events[0]);
      if |events| == 1 then o else Run(o.state, o.ctx, events[1..])
  }

  /** Over any run the old history stays a prefix, growing by at most one message per event. */
  lemma {:induction false} RunHistoryGrows(s: State, c: Context, events: seq<Event>)
    requires Inv(s, c)
    ensures var m := Run(s, c, events).ctx.messages;
      c.messages <= m && |m| <= |c.messages| + |events|
    decreases |events|
  {
    if events != [] {
      HistoryGrows(s, c, events[0]);
      StepPreservesInv(s, c, events[0]);
      var o := Step(s, c, events[0]);
      if |events| > 1 {
        RunHistoryGrows(o.state, o.ctx, events[1..]);
      }
    }
  }

  /** The running actor: the current state and context, changed one event at a time. */
  class DialogueManager {
    var state: State
    var ctx: Context

    ghost predicate Valid()
      reads this
    {
      Inv(state, ctx)
    }

    /** A fresh actor in Prepare with the initial context. */
    constructor ()
      ensures Valid()
      ensures state == Prepare && ctx == InitialContext
    {
      state := Prepare;
      ctx := InitialContext;
    }

    /** Starting the actor runs Prepare's entry action: PREPARE goes to the speech subsystem. */
    method Start() returns (cmd: Option<Command>)
      requires state == Prepare
      ensures cmd == Some(SendPrepare)
    {
      cmd := EntryCommand(state, ctx);
    }

    /** Delivers one event; returns the command its entry action issued, if any. */
    method Handle(e: Event) returns (cmd: Option<Command>)
      requires Valid()
      modifies this
      ensures Valid()
      ensures Outcome(state, ctx, cmd) == Step(old(state), old(ctx), e)
      ensures old(ctx.messages) <= ctx.messages
      ensures state != Main(Done)
    {
      StepPreservesInv(state, ctx, e);
      HistoryGrows(state, ctx, e);
      var o := Step(state, ctx, e);
      state, ctx, cmd := o.state, o.ctx, o.cmd;
    }
  }
}
