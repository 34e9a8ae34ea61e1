/**
 * The pure parts of the dialogue manager (Code/recap/src/dm.ts): the
 * context updates made by its `assign` actions, the request builders of
 * its two invoked services, the classifier adapter's reply check and the
 * guard of the Speaking entry action.
 */
module Requests {
  import opened Wrappers
  import opened DmTypes

  // ---------------------------------------------------------------------
  // History updates
  // ---------------------------------------------------------------------

  /** The system message injected when the Prompt state is entered. */
  const Greeting: Message := Message(System, "Hello!")

  /** Entry of Prompt: the greeting goes in front of the history. */
  function PrependPrompt(msgs: seq<Message>): (r: seq<Message>)
    ensures |r| == |msgs| + 1
    ensures r[0] == Greeting && r[1..] == msgs
  {
    [Greeting] + msgs
  }

  /** A recognised utterance (or "" on no input) becomes a user turn at the end. */
  function AppendUser(msgs: seq<Message>, utterance: string): (r: seq<Message>)
    ensures |r| == |msgs| + 1
    ensures r[..|msgs|] == msgs && r[|msgs|] == Message(User, utterance)
  {
    msgs + [Message(User, utterance)]
  }

  /** The chat service's reply becomes an assistant turn at the end. */
  function AppendAssistant(msgs: seq<Message>, reply: string): (r: seq<Message>)
    ensures |r| == |msgs| + 1
    ensures r[..|msgs|] == msgs && r[|msgs|] == Message(Assistant, reply)
  {
    msgs + [Message(Assistant, reply)]
  }

  // ---------------------------------------------------------------------
  // String.prototype.trim and the period rule
  // ---------------------------------------------------------------------

  /**
   * The characters JavaScript's `trim` removes: the WhiteSpace and
   * LineTerminator code points of ECMAScript (section 12.2 and 12.3 of
   * ECMA-262), i.e. tab, line feed, vertical tab, form feed, carriage
   * return, space, no-break space, the byte order mark, the line and
   * paragraph separators and the other space separators.
   */
  predicate IsWhiteSpace(c: char) {
    c == '\t' || c == '\n' || c == '\U{000B}' || c == '\U{000C}' || c == '\r'
    || c == ' ' || c == '\U{00A0}' || c == '\U{1680}'
    || ('\U{2000}' <= c <= '\U{200A}')
    || c == '\U{2028}' || c == '\U{2029}' || c == '\U{202F}' || c == '\U{205F}'
    || c == '\U{3000}' || c == '\U{FEFF}'
  }

  /** Every character of `s` is white space. */
  predicate AllWhiteSpace(s: string) {
    forall k :: 0 <= k < |s| ==> IsWhiteSpace(s[k])
  }

  /** Drops leading white space. */
  function TrimStart(s: string): (r: string)
    ensures |r| <= |s| && r == s[|s| - |r|..]
    ensures AllWhiteSpace(s[..|s| - |r|])
    ensures r != [] ==> !IsWhiteSpace(r[0])
  {
    if |s| > 0 && IsWhiteSpace(s[0]) then
      var r := TrimStart(s[1..]);
      assert s[..|s| - |r|] == [s[0]] + s[1..][..|s| - 1 - |r|];
      r
    else s
  }

  /** Drops trailing white space. */
  function TrimEnd(s: string): (r: string)
    ensures |r| <= |s| && r == s[..|r|]
    ensures AllWhiteSpace(s[|r|..])
    ensures r != [] ==> !IsWhiteSpace(r[|r| - 1])
  {
    if |s| > 0 && IsWhiteSpace(s[|s| - 1]) then
      var r := TrimEnd(s[..|s| - 1]);
      assert s[|r|..] == s[..|s| - 1][|r|..] + [s[|s| - 1]];
      r
    else s
  }

  /** `trim`: the white space at both ends removed. */
  function Trim(s: string): (r: string)
    ensures |r| <= |s|
    ensures r != [] ==> !IsWhiteSpace(r[0]) && !IsWhiteSpace(r[|r| - 1])
  {
    var t := TrimStart(s);
    var r := TrimEnd(t);
    assert r != [] ==> r[0] == t[0];
    r
  }

  /** What `trim` returns: the infix of `s` that starts at `TrimOffset(s)`. */
  lemma {:induction false} TrimCharacterized(s: string)
    ensures TrimOffset(s) + |Trim(s)| <= |s|
    ensures Trim(s) == s[TrimOffset(s)..TrimOffset(s) + |Trim(s)|]
  {
    var t := TrimStart(s);
    var r := TrimEnd(t);
    assert Trim(s) == r;
    SuffixSlices(s, |s| - |t|, |r|);
  }

  /** Everything `trim` removes, before and after that infix, is white space. */
  lemma {:induction false} TrimRemovesWhiteSpace(s: string)
    ensures TrimOffset(s) + |Trim(s)| <= |s|
    ensures AllWhiteSpace(s[..TrimOffset(s)]) && AllWhiteSpace(s[TrimOffset(s) + |Trim(s)|..])
  {
    var t := TrimStart(s);
    var r := TrimEnd(t);
    var i := |s| - |t|;
    assert Trim(s) == r && TrimOffset(s) == i;
    assert AllWhiteSpace(s[..i]);
    SuffixSlices(s, i, |r|);
    assert AllWhiteSpace(t[|r|..]);
  }

  /** Slicing a suffix is slicing the whole. */
  lemma SuffixSlices(s: string, i: nat, n: nat)
    requires i + n <= |s|
    ensures s[i..][..n] == s[i..i + n] && s[i..][n..] == s[i + n..]
  {
  }

  /** `trim` gives the empty string exactly for text that is all white space. */
  lemma {:induction false} TrimEmptyIffBlank(s: string)
    ensures Trim(s) == [] <==> AllWhiteSpace(s)
  {
    var t := TrimStart(s);
    if Trim(s) == [] {
      assert AllWhiteSpace(t[0..]);
      assert s == s[..|s| - |t|] + t;
    }
  }

  /** Where the trimmed text starts inside `s`. */
  function TrimOffset(s: string): (i: nat)
    ensures i <= |s|
  {
    |s| - |TrimStart(s)|
  }

  /** `text.endsWith('.')`. */
  predicate EndsWithPeriod(t: string) {
    |t| > 0 && t[|t| - 1] == '.'
  }

  /** Appends a period unless the text already ends with one. */
  function EnsurePeriod(t: string): (r: string)
    ensures EndsWithPeriod(r)
    ensures r == t <==> EndsWithPeriod(t)
    ensures r != t ==> r == t + "."
  {
    if EndsWithPeriod(t) then t else t + "."
  }

  /** One contradiction utterance: the user text trimmed, ending in a period. */
  function Normalize(content: string): (r: string)
    ensures EndsWithPeriod(r)
  {
    EnsurePeriod(Trim(content))
  }

  /** An empty or blank user turn (ASR_NOINPUT's "") becomes ".". */
  lemma {:induction false} NormalizeBlank(content: string)
    requires AllWhiteSpace(content)
    ensures Normalize(content) == "."
  {
    TrimEmptyIffBlank(content);
  }

  /** Text already trimmed and ending in a period is sent unchanged. */
  lemma {:induction false} NormalizeKeepsPunctuated(content: string)
    requires Trim(content) == content && EndsWithPeriod(content)
    ensures Normalize(content) == content
  {
  }

  /** Trimming a text that has no white space at either end changes nothing. */
  lemma {:induction false} TrimOfTrimmed(t: string)
    requires t != [] ==> !IsWhiteSpace(t[0]) && !IsWhiteSpace(t[|t| - 1])
    ensures Trim(t) == t
  {
    assert TrimStart(t) == t;
    assert TrimEnd(t) == t;
  }

  /** Trimmed text without a final period gains exactly one. */
  lemma {:induction false} NormalizeAddsPeriod(content: string)
    requires content != [] && !IsWhiteSpace(content[0]) && !IsWhiteSpace(content[|content| - 1])
    requires content[|content| - 1] != '.'
    ensures Normalize(content) == content + "."
  {
    TrimOfTrimmed(content);
  }

  /** Normalizing twice is normalizing once. */
  lemma {:induction false} NormalizeIdempotent(content: string)
    ensures Normalize(Normalize(content)) == Normalize(content)
  {
    var t := Trim(content);
    var n := Normalize(content);
    assert n == t || n == t + ".";
    assert n[|n| - 1] == '.';
    assert !IsWhiteSpace('.');
    assert n[0] == if t == [] then '.' else t[0];
    TrimOfTrimmed(n);
  }

  // ---------------------------------------------------------------------
  // The contradiction request
  // ---------------------------------------------------------------------

  /** `messages.filter(m => m.role === "user")`. */
  function UserMessages(msgs: seq<Message>): (r: seq<Message>)
    ensures |r| <= |msgs|
    ensures forall i :: 0 <= i < |r| ==> r[i].role == User
  {
    if msgs == [] then []
    else (if msgs[0].role == User then [msgs[0]] else []) + UserMessages(msgs[1..])
  }

  /** Filtering distributes over concatenation: order is kept. */
  lemma {:induction false} UserMessagesAppend(a: seq<Message>, b: seq<Message>)
    ensures UserMessages(a + b) == UserMessages(a) + UserMessages(b)
  {
    if a == [] {
      assert a + b == b;
    } else {
      assert (a + b)[1..] == a[1..] + b;
      UserMessagesAppend(a[1..], b);
    }
  }

  /** A history with no user turn has no user messages; one turn is kept as is. */
  lemma UserMessagesSingle(m: Message)
    ensures UserMessages([m]) == if m.role == User then [m] else []
  {
    assert [m][1..] == [];
  }

  /** `slice(-2)`: the last two elements, or all of them when fewer exist. */
  function LastTwo<T>(s: seq<T>): (r: seq<T>)
    ensures |r| == if |s| < 2 then |s| else 2
    ensures r == s[|s| - |r|..]
  {
    if |s| <= 2 then s else s[|s| - 2..]
  }

  /**
   * The classifier input built on entry to CheckContradiction: the last
   * (up to) two user turns in history order, each normalized, with the
   * target pair `[0, n - 1]`.
   */
  function BuildContradictionInput(msgs: seq<Message>): (r: ContradictionInput)
    ensures |r.utterances| == |LastTwo(UserMessages(msgs))| <= 2
    ensures forall i :: 0 <= i < |r.utterances| ==>
      r.utterances[i] == Normalize(LastTwo(UserMessages(msgs))[i].content)
    ensures r.annotationTargetPair == Some([0, |r.utterances| - 1])
    ensures forall i :: 0 <= i < |r.utterances| ==> EndsWithPeriod(r.utterances[i])
  {
    var recent := LastTwo(UserMessages(msgs));
    ContradictionInput(Utterances(recent), Some([0, |recent| - 1]))
  }

  /** `recentMessages.map(...)`: each turn's content normalized, in order. */
  function Utterances(recent: seq<Message>): (r: seq<string>)
    ensures |r| == |recent|
    ensures forall i :: 0 <= i < |recent| ==> r[i] == Normalize(recent[i].content)
  {
    if recent == [] then [] else [Normalize(recent[0].content)] + Utterances(recent[1..])
  }

  /** With no user message the request is empty with target pair `[0, -1]`. */
  lemma {:induction false} EmptyRequest(msgs: seq<Message>)
    requires UserMessages(msgs) == []
    ensures BuildContradictionInput(msgs) == ContradictionInput([], Some([0, -1]))
  {
    assert LastTwo(UserMessages(msgs)) == [];
    assert Utterances([]) == [];
  }

  /** With no user turn the request is empty with target pair `[0, -1]`. */
  lemma {:induction false} NoUserTurnRequest(msgs: seq<Message>)
    requires forall i :: 0 <= i < |msgs| ==> msgs[i].role != User
    ensures BuildContradictionInput(msgs) == ContradictionInput([], Some([0, -1]))
  {
    if msgs != [] {
      assert msgs == [msgs[0]] + msgs[1..];
      UserMessagesAppend([msgs[0]], msgs[1..]);
      UserMessagesSingle(msgs[0]);
      NoUserTurnRequest(msgs[1..]);
    }
  }

  /** Appending a user turn appends it to the user messages. */
  lemma {:induction false} UserTurnAppended(msgs: seq<Message>, u: string)
    ensures UserMessages(AppendUser(msgs, u)) == UserMessages(msgs) + [Message(User, u)]
  {
    UserMessagesAppend(msgs, [Message(User, u)]);
    UserMessagesSingle(Message(User, u));
  }

  /** `slice(-2)` after one more element: that element, preceded by the old last one if any. */
  lemma {:induction false} LastTwoAppend<T>(s: seq<T>, x: T)
    ensures LastTwo(s + [x]) == if s == [] then [x] else [s[|s| - 1], x]
  {
    if s != [] {
      var t := s + [x];
      assert t[|t| - 2..] == [s[|s| - 1], x];
    }
  }

  /** The utterance of one turn, spelled out. */
  lemma {:induction false} UtterancesOne(m: Message)
    ensures Utterances([m]) == [Normalize(m.content)]
  {
    assert [m][1..] == [];
  }

  /** The utterances of two turns, spelled out. */
  lemma {:induction false} UtterancesTwo(m1: Message, m2: Message)
    ensures Utterances([m1, m2]) == [Normalize(m1.content), Normalize(m2.content)]
  {
    assert [m1, m2][1..] == [m2];
    UtterancesOne(m2);
  }

  /** With exactly one user turn the request holds that turn alone, with pair `[0, 0]`. */
  lemma {:induction false} SingleUserTurnRequest(msgs: seq<Message>, m: Message)
    requires UserMessages(msgs) == [m]
    ensures BuildContradictionInput(msgs) == ContradictionInput([Normalize(m.content)], Some([0, 0]))
  {
    assert LastTwo(UserMessages(msgs)) == [m];
    UtterancesOne(m);
  }

  /** With two or more user turns the request holds the last two, in order, with pair `[0, 1]`. */
  lemma {:induction false} TwoUserTurnsRequest(msgs: seq<Message>, earlier: seq<Message>, m1: Message, m2: Message)
    requires UserMessages(msgs) == earlier + [m1, m2]
    ensures BuildContradictionInput(msgs)
         == ContradictionInput([Normalize(m1.content), Normalize(m2.content)], Some([0, 1]))
  {
    LastTwoAppend(earlier + [m1], m2);
    assert earlier + [m1] + [m2] == earlier + [m1, m2];
    assert (earlier + [m1])[|earlier + [m1]| - 1] == m1;
    assert LastTwo(UserMessages(msgs)) == [m1, m2];
    UtterancesTwo(m1, m2);
  }

  /**
   * After a user turn `u` is appended, the request ends with `u`
   * normalized, preceded by the previous user turn if there is one.
   */
  lemma {:induction false} RequestAfterUserTurn(msgs: seq<Message>, u: string)
    ensures var prev := UserMessages(msgs);
      BuildContradictionInput(AppendUser(msgs, u))
      == if prev == [] then ContradictionInput([Normalize(u)], Some([0, 0]))
         else ContradictionInput([Normalize(prev[|prev| - 1].content), Normalize(u)], Some([0, 1]))
  {
    var prev := UserMessages(msgs);
    var m := Message(User, u);
    UserTurnAppended(msgs, u);
    LastTwoAppend(prev, m);
    if prev == [] {
      UtterancesOne(m);
    } else {
      UtterancesTwo(prev[|prev| - 1], m);
    }
  }

  /** The greeting and assistant turns never reach the classifier. */
  lemma {:induction false} RequestIgnoresOtherRoles(msgs: seq<Message>, reply: string)
    ensures BuildContradictionInput(PrependPrompt(msgs)) == BuildContradictionInput(msgs)
    ensures BuildContradictionInput(AppendAssistant(msgs, reply)) == BuildContradictionInput(msgs)
  {
    UserMessagesAppend([Greeting], msgs);
    UserMessagesSingle(Greeting);
    assert UserMessages(PrependPrompt(msgs)) == UserMessages(msgs);
    var a := Message(Assistant, reply);
    UserMessagesAppend(msgs, [a]);
    UserMessagesSingle(a);
    assert UserMessages(AppendAssistant(msgs, reply)) == UserMessages(msgs);
  }

  // ---------------------------------------------------------------------
  // The classifier adapter's reply check
  // ---------------------------------------------------------------------

  /** Why the classifier adapter rejected a reply. */
  datatype ReplyError = InvalidOutput

  /**
   * The check in the classifier adapter: a falsy reply, or one whose
   * `prediction` is not exactly one of the two wire spellings, is rejected.
   */
  function ValidateReply(reply: ClassifierReply): (r: Result<ContradictionOutput, ReplyError>)
    ensures r.Ok? <==> reply.TruthyReply? && reply.prediction.Some?
                       && (reply.prediction.value == "contradiction"
                           || reply.prediction.value == "no_contradiction")
    ensures r.Ok? ==> Label(r.value.prediction) == reply.prediction.value
  {
    match reply
    case FalsyReply => Err(InvalidOutput)
    case TruthyReply(p) =>
      if p.Some? && ParseVerdict(p.value).Some? then Ok(ContradictionOutput(ParseVerdict(p.value).value))
      else Err(InvalidOutput)
  }

  /** A well-formed reply for a verdict is accepted as that verdict. */
  lemma ValidateLabel(v: Verdict)
    ensures ValidateReply(TruthyReply(Some(Label(v)))) == Ok(ContradictionOutput(v))
  {
    ParseLabel(v);
  }

  // ---------------------------------------------------------------------
  // The chat request
  // ---------------------------------------------------------------------

  /** The system note chosen by the stored verdict. */
  function SystemNote(verdict: Option<Verdict>): (s: string)
    ensures verdict.Some? ==> s == "Note: The last user message is classified as " + Label(verdict.value) + "."
    ensures verdict.None? ==> s == "You are a helpful assistant."
  {
    match verdict
    case Some(v) => "Note: The last user message is classified as " + Label(v) + "."
    case None => "You are a helpful assistant."
  }

  /** Different verdicts (or none) give different notes. */
  lemma SystemNoteInjective(a: Option<Verdict>, b: Option<Verdict>)
    requires SystemNote(a) == SystemNote(b)
    ensures a == b
  {
  }

  /** The chat request: one system note, then the whole history unchanged. */
  function ChatRequest(verdict: Option<Verdict>, msgs: seq<Message>): (r: seq<Message>)
    ensures |r| == |msgs| + 1
    ensures r[0] == Message(System, SystemNote(verdict))
    ensures r[1..] == msgs
  {
    [Message(System, SystemNote(verdict))] + msgs
  }

  // ---------------------------------------------------------------------
  // The Speaking entry guard
  // ---------------------------------------------------------------------

  /** The utterance Speaking says: the last message, only if it is the assistant's. */
  function SpokenReply(msgs: seq<Message>): (r: Option<string>)
    ensures r.Some? <==> |msgs| > 0 && msgs[|msgs| - 1].role == Assistant
    ensures r.Some? ==> r.value == msgs[|msgs| - 1].content
  {
    if |msgs| > 0 && msgs[|msgs| - 1].role == Assistant then Some(msgs[|msgs| - 1].content) else None
  }

  /** What Speaking says right after a chat reply is that reply. */
  lemma {:induction false} SpeaksAppendedReply(msgs: seq<Message>, reply: string)
    ensures SpokenReply(AppendAssistant(msgs, reply)) == Some(reply)
  {
  }

  // ---------------------------------------------------------------------
  // The model catalog
  // ---------------------------------------------------------------------

  /** `models.map(x => x.name)`: the names, in catalog order. */
  function ModelNames(models: seq<ModelEntry>): (r: seq<string>)
    ensures |r| == |models|
    ensures forall i :: 0 <= i < |models| ==> r[i] == models[i].name
  {
    seq(|models|, i requires 0 <= i < |models| => models[i].name)
  }
}
