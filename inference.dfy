/**
 * The list and string logic of the contradiction server's
 * `predict_contradiction` (Code/rgm_inference.py): splitting the request
 * into a (context, response) pair and naming the predicted class. The
 * tokenizer and the neural classifier are a parameter (`classify`).
 */
module Inference {
  import opened Wrappers
  import opened DmTypes

  /** The exceptions the split can raise. */
  datatype SplitError =
    | MissingPair   // KeyError: the request has no annotation_target_pair
    | BadPairLength // ValueError: the pair does not unpack into exactly two values
    | BadIndex      // IndexError: the target index is outside the utterance list

  /** The classifier's two inputs. */
  datatype Split = Split(context: string, response: string)

  /** Python's `xs[t]`: negative indices count from the end; out of range raises. */
  function PyIndex<T>(xs: seq<T>, t: int): (r: Option<T>)
    ensures r.Some? <==> -|xs| <= t < |xs|
    ensures r.Some? && t >= 0 ==> r.value == xs[t]
    ensures r.Some? && t < 0 ==> r.value == xs[|xs| + t]
  {
    if 0 <= t < |xs| then Some(xs[t])
    else if -|xs| <= t < 0 then Some(xs[|xs| + t])
    else None
  }

  /** `[xs[i] for i in range(len(xs)) if i != t]`, with `t` counted from 0. */
  function ExceptAt<T>(xs: seq<T>, t: int): (r: seq<T>)
    ensures |r| <= |xs|
  {
    if xs == [] then []
    else (if t == 0 then [] else [xs[0]]) + ExceptAt(xs[1..], t - 1)
  }

  /**
   * The comprehension drops exactly the element at a valid non-negative
   * index; a negative or too-large index matches no position, so every
   * element is kept.
   */
  lemma {:induction false} ExceptAtSlices<T>(xs: seq<T>, t: int)
    ensures 0 <= t < |xs| ==> ExceptAt(xs, t) == xs[..t] + xs[t + 1..]
    ensures !(0 <= t < |xs|) ==> ExceptAt(xs, t) == xs
  {
    if xs != [] {
      ExceptAtSlices(xs[1..], t - 1);
      if t == 0 {
        assert xs[..0] + xs[1..] == xs[1..];
      } else if 0 < t < |xs| {
        assert xs[..t] == [xs[0]] + xs[1..][..t - 1];
        assert xs[t + 1..] == xs[1..][t..];
      } else {
        assert xs == [xs[0]] + xs[1..];
      }
    }
  }

  /** Python's `sep.join(parts)`. */
  function Join(parts: seq<string>, sep: string): (r: string)
    ensures parts == [] ==> r == ""
  {
    if parts == [] then ""
    else if |parts| == 1 then parts[0]
    else parts[0] + sep + Join(parts[1..], sep)
  }

  /** Joining one part gives that part; two parts are separated once. */
  lemma {:induction false} JoinSmall(a: string, b: string, sep: string)
    ensures Join([a], sep) == a
    ensures Join([a, b], sep) == a + sep + b
  {
    assert [a, b][1..] == [b];
  }

  /**
   * Lines 12 to 14 of `predict_contradiction`: the response is the
   * utterance at the second index of the pair, the context the
   * single-space join of all the others, in order. The first index is
   * unpacked but never used.
   */
  function SplitDialog(dialog: ContradictionInput): (r: Result<Split, SplitError>)
    ensures dialog.annotationTargetPair.None? ==> r == Err(MissingPair)
    ensures dialog.annotationTargetPair.Some? && |dialog.annotationTargetPair.value| != 2
            ==> r == Err(BadPairLength)
    ensures r.Ok? ==> var t := dialog.annotationTargetPair.value[1];
      && -|dialog.utterances| <= t < |dialog.utterances|
      && Some(r.value.response) == PyIndex(dialog.utterances, t)
      && r.value.context == Join(ExceptAt(dialog.utterances, t), " ")
    ensures dialog.annotationTargetPair.Some? && |dialog.annotationTargetPair.value| == 2 ==>
      && (r.Ok? <==> -|dialog.utterances| <= dialog.annotationTargetPair.value[1] < |dialog.utterances|)
      && (r.Err? ==> r == Err(BadIndex))
  {
    match dialog.annotationTargetPair
    case None => Err(MissingPair)
    case Some(pair) =>
      if |pair| != 2 then Err(BadPairLength)
      else
        var targetIdx := pair[1];
        var context := Join(ExceptAt(dialog.utterances, targetIdx), " ");
        match PyIndex(dialog.utterances, targetIdx)
        case None => Err(BadIndex)
        case Some(response) => Ok(Split(context, response))
  }

  /** Two utterances with target 1: the first is the context, the second the response. */
  lemma {:induction false} SplitTwo(a: string, b: string, contextIdx: int)
    ensures SplitDialog(ContradictionInput([a, b], Some([contextIdx, 1]))) == Ok(Split(a, b))
  {
    ExceptAtSlices([a, b], 1);
    assert [a, b][..1] + [a, b][2..] == [a];
  }

  /** One utterance with target 0: the context is empty and the utterance is the response. */
  lemma {:induction false} SplitOne(a: string, contextIdx: int)
    ensures SplitDialog(ContradictionInput([a], Some([contextIdx, 0]))) == Ok(Split("", a))
  {
    ExceptAtSlices([a], 0);
    assert [a][..0] + [a][1..] == [];
  }

  /** No utterance with target -1: indexing the empty list raises. */
  lemma SplitNone(contextIdx: int)
    ensures SplitDialog(ContradictionInput([], Some([contextIdx, -1]))) == Err(BadIndex)
  {
  }

  /** The context index has no influence on the split. */
  lemma {:induction false} ContextIndexIgnored(us: seq<string>, c1: int, c2: int, t: int)
    ensures SplitDialog(ContradictionInput(us, Some([c1, t])))
         == SplitDialog(ContradictionInput(us, Some([c2, t])))
  {
  }

  /** Line 21: class 1 is a contradiction; every other class is not. */
  function ClassLabel(predictedClass: int): (s: string)
    ensures s == "contradiction" <==> predictedClass == 1
    ensures s == "contradiction" || s == "no_contradiction"
  {
    if predictedClass == 1 then "contradiction" else "no_contradiction"
  }

  /** The whole server function, with the classifier abstracted as `classify`. */
  function PredictContradiction(dialog: ContradictionInput, classify: (string, string) -> int)
    : (r: Result<string, SplitError>)
    ensures r.Ok? <==> SplitDialog(dialog).Ok?
    ensures r.Ok? ==> var sp := SplitDialog(dialog).value;
      r.value == ClassLabel(classify(sp.context, sp.response))
  {
    match SplitDialog(dialog)
    case Err(e) => Err(e)
    case Ok(sp) => Ok(ClassLabel(classify(sp.context, sp.response)))
  }
}
