/**
 * The data model of the dialogue manager (Code/recap/src/types.ts):
 * messages, the dialogue context, the contradiction classifier's request
 * and reply, and the events the machine receives.
 */
module DmTypes {
  import opened Wrappers

  /** The three roles a chat message may have. */
  datatype Role = Assistant | User | System

  /** One entry of the conversation history. */
  datatype Message = Message(role: Role, content: string)

  /** The classifier's two verdicts. */
  datatype Verdict = Contradiction | NoContradiction

  /** The wire spelling of a verdict. */
  function Label(v: Verdict): (s: string)
    ensures s == "contradiction" || s == "no_contradiction"
  {
    match v
    case Contradiction => "contradiction"
    case NoContradiction => "no_contradiction"
  }

  /** Reads a wire spelling back; any other string is not a verdict. */
  function ParseVerdict(s: string): (r: Option<Verdict>)
    ensures r.Some? <==> (s == "contradiction" || s == "no_contradiction")
    ensures r.Some? ==> Label(r.value) == s
  {
    if s == "contradiction" then Some(Contradiction)
    else if s == "no_contradiction" then Some(NoContradiction)
    else None
  }

  /** Label and ParseVerdict are inverse: the two spellings are distinct. */
  lemma ParseLabel(v: Verdict)
    ensures ParseVerdict(Label(v)) == Some(v)
  {
    match v
    case Contradiction =>
    case NoContradiction =>
      assert Label(v)[0] == 'n';
  }

  /**
   * The dialogue context. `lastContradiction` is `None` when the source's
   * field is null or absent (both are treated alike wherever it is read).
   * The speech actor handle and the never-read scratch fields are not modelled.
   */
  datatype Context = Context(
    messages: seq<Message>,
    ollamaModels: seq<string>,
    lastContradiction: Option<Verdict>)

  /** The request sent to the contradiction classifier. */
  datatype ContradictionInput = ContradictionInput(
    utterances: seq<string>,
    annotationTargetPair: Option<seq<int>>)

  /** A validated classifier reply. */
  datatype ContradictionOutput = ContradictionOutput(prediction: Verdict)

  /**
   * The parsed JSON body the classifier endpoint answers with, as far as
   * the client inspects it: a falsy value (null, false, 0, ""), or a truthy
   * value whose `prediction` field is a string or is missing / not a string.
   */
  datatype ClassifierReply = FalsyReply | TruthyReply(prediction: Option<string>)

  /** An entry of the model catalog; only its name is read. */
  datatype ModelEntry = ModelEntry(name: string)

  /**
   * The events the machine can receive: the speech subsystem's callbacks,
   * the user's click, the extra event kinds the type admits, and the
   * resolution or failure of each of the three service calls.
   */
  datatype Event =
    | AsrTtsReady
    | SpeakComplete
    | ListenComplete
    | Recognised(utterance: string)
    | AsrNoInput
    | OtherSpeechEvent
    | Click
    | Says(value: string)
    | NextMove(value: string)
    | DoneEvent
    | ModelsReplied(models: seq<ModelEntry>)
    | ModelsFailed
    | ClassifierReplied(reply: ClassifierReply)
    | ClassifierFailed
    | ChatReplied(content: string)
    | ChatFailed
}
