/**
 * The contract between the dialogue manager's classifier request
 * (Code/recap/src/dm.ts) and the contradiction server
 * (Code/rgm_inference.py): what the server makes of the request the
 * client builds, and what the client makes of the server's answer.
 */
module Protocol {
  import opened Wrappers
  import opened DmTypes
  import opened Requests
  import opened Inference
  import opened Machine

  /**
   * The client's request always splits the same way on the server: with
   * two or more user turns the context is the second-to-last turn and the
   * response the last, both normalized; with one the context is empty;
   * with none the target index -1 has nothing to point at and the server
   * raises an IndexError.
   */
  lemma {:induction false} RequestSplit(msgs: seq<Message>)
    ensures var users := UserMessages(msgs);
      var sp := SplitDialog(BuildContradictionInput(msgs));
      && (|users| >= 2 ==> sp == Ok(Split(Normalize(users[|users| - 2].content),
                                          Normalize(users[|users| - 1].content))))
      && (|users| == 1 ==> sp == Ok(Split("", Normalize(users[0].content))))
      && (|users| == 0 ==> sp == Err(BadIndex))
  {
    var users := UserMessages(msgs);
    var n := |users|;
    if n >= 2 {
      assert users == users[..n - 2] + [users[n - 2], users[n - 1]];
      SplitOfTwoTurns(msgs, users[..n - 2], users[n - 2], users[n - 1]);
    } else if n == 1 {
      assert users == [users[0]];
      SplitOfOneTurn(msgs, users[0]);
    } else {
      SplitOfNoTurn(msgs);
    }
  }

  /** Two or more user turns: the last two become (context, response). */
  lemma {:induction false} SplitOfTwoTurns(msgs: seq<Message>, earlier: seq<Message>, m1: Message, m2: Message)
    requires UserMessages(msgs) == earlier + [m1, m2]
    ensures SplitDialog(BuildContradictionInput(msgs))
         == Ok(Split(Normalize(m1.content), Normalize(m2.content)))
  {
    TwoUserTurnsRequest(msgs, earlier, m1, m2);
    SplitTwo(Normalize(m1.content), Normalize(m2.content), 0);
  }

  /** One user turn: the context is empty and the turn is the response. */
  lemma {:induction false} SplitOfOneTurn(msgs: seq<Message>, m: Message)
    requires UserMessages(msgs) == [m]
    ensures SplitDialog(BuildContradictionInput(msgs)) == Ok(Split("", Normalize(m.content)))
  {
    SingleUserTurnRequest(msgs, m);
    SplitOne(Normalize(m.content), 0);
  }

  /** No user turn: the server raises an IndexError. */
  lemma {:induction false} SplitOfNoTurn(msgs: seq<Message>)
    requires UserMessages(msgs) == []
    ensures SplitDialog(BuildContradictionInput(msgs)) == Err(BadIndex)
  {
    EmptyRequest(msgs);
    SplitNone(0);
  }

  /** Every label the server produces passes the client's check, as the matching verdict. */
  lemma ServerLabelAccepted(predictedClass: int)
    ensures ValidateReply(TruthyReply(Some(ClassLabel(predictedClass))))
         == Ok(ContradictionOutput(if predictedClass == 1 then Contradiction else NoContradiction))
  {
    ValidateLabel(if predictedClass == 1 then Contradiction else NoContradiction);
  }

  /**
   * What the client receives for a request: the `{"prediction": label}`
   * body when the server function returns, and a failed call when it
   * raises (the error response is not a JSON body the client can read).
   */
  function ServerAnswer(dialog: ContradictionInput, classify: (string, string) -> int): (e: Event)
    ensures e.ClassifierReplied? <==> SplitDialog(dialog).Ok?
    ensures e.ClassifierFailed? <==> SplitDialog(dialog).Err?
    ensures e.ClassifierReplied? ==> e.reply == TruthyReply(Some(PredictContradiction(dialog, classify).value))
  {
    match PredictContradiction(dialog, classify)
    case Ok(spelling) => ClassifierReplied(TruthyReply(Some(spelling)))
    case Err(_) => ClassifierFailed
  }

  /** A server label delivered to CheckContradiction is stored as the matching verdict. */
  lemma LabelStored(c: Context, predictedClass: int)
    requires Inv(Main(CheckContradiction), c)
    ensures var o := Step(Main(CheckContradiction), c, ClassifierReplied(TruthyReply(Some(ClassLabel(predictedClass)))));
      && o.state == Main(ChatCompletion)
      && o.ctx.lastContradiction == Some(if predictedClass == 1 then Contradiction else NoContradiction)
  {
    ServerLabelAccepted(predictedClass);
  }

  /**
   * The server's answer to any request, delivered to CheckContradiction:
   * when the split succeeds the stored verdict is the classifier's verdict
   * on that split; when the server raises the old verdict stays. Either
   * way the machine goes on to ChatCompletion.
   */
  lemma AnswerStored(c: Context, dialog: ContradictionInput, classify: (string, string) -> int)
    requires Inv(Main(CheckContradiction), c)
    ensures var o := Step(Main(CheckContradiction), c, ServerAnswer(dialog, classify));
      && o.state == Main(ChatCompletion)
      && (SplitDialog(dialog).Err? ==> o.ctx.lastContradiction == c.lastContradiction)
      && (SplitDialog(dialog).Ok? ==>
            var sp := SplitDialog(dialog).value;
            o.ctx.lastContradiction
            == Some(if classify(sp.context, sp.response) == 1 then Contradiction else NoContradiction))
  {
    var e := ServerAnswer(dialog, classify);
    if SplitDialog(dialog).Ok? {
      var sp := SplitDialog(dialog).value;
      var k := classify(sp.context, sp.response);
      assert e == ClassifierReplied(TruthyReply(Some(ClassLabel(k))));
      LabelStored(c, k);
    } else {
      assert e == ClassifierFailed;
      ClassifierOutcome(c, e);
    }
  }

  /**
   * One classification round trip from CheckContradiction: with at least
   * one user turn the stored verdict is the classifier's verdict on the
   * server's split of the latest user turns; with none the server raises
   * and the old verdict stays.
   */
  lemma ClassificationRoundTrip(c: Context, classify: (string, string) -> int)
    requires Inv(Main(CheckContradiction), c)
    ensures var r := BuildContradictionInput(c.messages);
      var o := Step(Main(CheckContradiction), c, ServerAnswer(r, classify));
      && o.state == Main(ChatCompletion)
      && (UserMessages(c.messages) == [] ==> o.ctx.lastContradiction == c.lastContradiction)
      && (UserMessages(c.messages) != [] ==>
            SplitDialog(r).Ok? &&
            var sp := SplitDialog(r).value;
            o.ctx.lastContradiction
            == Some(if classify(sp.context, sp.response) == 1 then Contradiction else NoContradiction))
  {
    RequestSplit(c.messages);
    AnswerStored(c, BuildContradictionInput(c.messages), classify);
  }

  /** "it is sunny" has no surrounding white space and only gains the period. */
  lemma SunnyNormalized()
    ensures Normalize("it is sunny") == "it is sunny."
  {
    var u := "it is sunny";
    assert u[0] == 'i' && u[|u| - 1] == 'y';
    NormalizeAddsPeriod(u);
  }

  /** The request after the single user turn "it is sunny": one utterance, pair [0, 0]. */
  lemma SunnyRequest()
    ensures BuildContradictionInput([Greeting, Message(User, "it is sunny")])
         == ContradictionInput(["it is sunny."], Some([0, 0]))
  {
    FirstUserTurn("it is sunny");
    SingleUserTurnRequest([Greeting, Message(User, "it is sunny")], Message(User, "it is sunny"));
    SunnyNormalized();
  }

  /** The chat request after that turn, with the verdict no_contradiction stored. */
  lemma SunnyChatRequest()
    ensures ChatRequest(Some(NoContradiction), [Greeting, Message(User, "it is sunny")])
         == [Message(System, "Note: The last user message is classified as no_contradiction."),
             Greeting, Message(User, "it is sunny")]
  {
    var note := "Note: The last user message is classified as ";
    assert Label(NoContradiction) == "no_contradiction";
    assert note + "no_contradiction" + "." == "Note: The last user message is classified as no_contradiction.";
  }

  /** The history after the first user turn has that turn as its only user message. */
  lemma {:induction false} FirstUserTurn(u: string)
    ensures UserMessages([Greeting, Message(User, u)]) == [Message(User, u)]
  {
    UserMessagesAppend([Greeting], [Message(User, u)]);
    UserMessagesSingle(Greeting);
    UserMessagesSingle(Message(User, u));
    assert [Greeting] + [Message(User, u)] == [Greeting, Message(User, u)];
  }

  /** The classifier request after the first user turn `u`: `u` alone, normalized, with pair `[0, 0]`. */
  lemma {:induction false} FirstRequest(u: string)
    ensures BuildContradictionInput([Greeting, Message(User, u)])
         == ContradictionInput([Normalize(u)], Some([0, 0]))
  {
    FirstUserTurn(u);
    SingleUserTurnRequest([Greeting, Message(User, u)], Message(User, u));
  }

  /**
   * The opening of a conversation: the actor starts, the speech subsystem
   * gets ready, the catalog lists `models`, the user clicks and hears the
   * greeting, and the machine starts listening.
   */
  method Opening(dm: DialogueManager, models: seq<ModelEntry>) returns (cmds: seq<Option<Command>>)
    requires dm.state == Prepare && dm.ctx == InitialContext
    modifies dm
    ensures dm.state == Main(Ask) && dm.ctx == Context([Greeting], ModelNames(models), None)
    ensures cmds == [Some(SendPrepare), Some(CallModels), None, Some(SendSpeak("Hello!")), Some(SendListen)]
  {
    var k0 := dm.Start();
    var k1 := dm.Handle(AsrTtsReady);
    assert dm.state == GetModels && dm.ctx == InitialContext && k1 == Some(CallModels);
    ModelsLoaded(InitialContext, models);
    var k2 := dm.Handle(ModelsReplied(models));
    assert dm.ctx.messages == [Greeting] + [];
    assert dm.state == Main(Prompt) && dm.ctx == Context([Greeting], ModelNames(models), None) && k2 == None;
    var k3 := dm.Handle(Click);
    assert dm.state == Main(SpeakPrompt) && k3 == Some(SendSpeak("Hello!"));
    var k4 := dm.Handle(SpeakComplete);
    cmds := [k0, k1, k2, k3, k4];
  }

  /**
   * The user's first turn, from Ask with the greeting alone in the
   * history: the user says `u` and stops, and the classifier is asked.
   */
  method UserSpeaks(dm: DialogueManager, u: string) returns (cmds: seq<Option<Command>>)
    requires dm.state == Main(Ask) && dm.ctx.messages == [Greeting]
    modifies dm
    ensures dm.state == Main(CheckContradiction)
    ensures dm.ctx == old(dm.ctx).(messages := [Greeting, Message(User, u)])
    ensures cmds == [None, Some(CallClassifier(BuildContradictionInput([Greeting, Message(User, u)])))]
  {
    ghost var c2 := dm.ctx.(messages := [Greeting, Message(User, u)]);
    assert [Greeting] + [Message(User, u)] == [Greeting, Message(User, u)];
    AskRecognised(dm.ctx, u);
    var k5 := dm.Handle(Recognised(u));
    assert dm.state == Main(Ask) && dm.ctx == c2 && k5 == None;
    AskListenComplete(c2);
    var k6 := dm.Handle(ListenComplete);
    cmds := [k5, k6];
  }

  /**
   * The system's answer: the classifier answers no_contradiction, the chat
   * model answers `reply`, which is said, and the machine listens again.
   */
  method SystemAnswers(dm: DialogueManager, reply: string) returns (cmds: seq<Option<Command>>)
    requires dm.Valid() && dm.state == Main(CheckContradiction)
    modifies dm
    ensures dm.state == Main(Ask)
    ensures dm.ctx.messages == old(dm.ctx.messages) + [Message(Assistant, reply)]
    ensures dm.ctx.lastContradiction == Some(NoContradiction)
    ensures cmds == [
      Some(CallChat(ChatRequest(Some(NoContradiction), old(dm.ctx.messages)))),
      Some(SendSpeak(reply)),
      Some(SendListen)]
  {
    ghost var c3 := dm.ctx.(lastContradiction := Some(NoContradiction));
    var answer := ClassifierReplied(TruthyReply(Some(Label(NoContradiction))));
    ValidateLabel(NoContradiction);
    ClassifierOutcome(dm.ctx, answer);
    var k7 := dm.Handle(answer);
    assert dm.state == Main(ChatCompletion) && dm.ctx == c3;
    ChatReplySpoken(c3, reply);
    var k8 := dm.Handle(ChatReplied(reply));
    var k9 := dm.Handle(SpeakComplete);
    cmds := [k7, k8, k9];
  }

  /**
   * A whole first turn on a fresh actor, returned phase by phase: the
   * opening, the user's turn and the system's answer. (FirstRequest states
   * the classifier request; SunnyRequest and SunnyChatRequest spell out
   * both requests for the utterance "it is sunny".)
   */
  method FirstTurn(models: seq<ModelEntry>, u: string, reply: string)
    returns (opening: seq<Option<Command>>, turn: seq<Option<Command>>, answer: seq<Option<Command>>,
             history: seq<Message>)
    ensures opening == [Some(SendPrepare), Some(CallModels), None, Some(SendSpeak("Hello!")), Some(SendListen)]
    ensures turn == [None, Some(CallClassifier(BuildContradictionInput([Greeting, Message(User, u)])))]
    ensures answer == [
      Some(CallChat(ChatRequest(Some(NoContradiction), [Greeting, Message(User, u)]))),
      Some(SendSpeak(reply)),
      Some(SendListen)]
    ensures history == [Greeting, Message(User, u), Message(Assistant, reply)]
  {
    var dm := new DialogueManager();
    opening := Opening(dm, models);
    turn := UserSpeaks(dm, u);
    assert dm.Valid();
    answer := SystemAnswers(dm, reply);
    history := dm.ctx.messages;
  }
}
