/** The streaming fold: the deltas of `run(question)` concatenated into one assistant answer. */
module Streaming {
  import opened Wrappers
  import opened Messages

  /** What iterating the model's output yields: the fragments in order, and then, when
      `failure` is `Some(e)`, the next pull raises an exception described by `e`;
      otherwise the iteration is exhausted. A failure with no fragments is a call that
      raised before yielding anything. */
  datatype Stream = Stream(deltas: seq<string>, failure: Option<string>)

  /** The result of pulling the next element of a stream. */
  datatype Pulled = Fragment(text: string) | Raised(description: string) | Exhausted

  function Pull(stream: Stream, i: nat): Pulled
  {
    if i < |stream.deltas| then Fragment(stream.deltas[i])
    else if stream.failure.Some? then Raised(stream.failure.value)
    else Exhausted
  }

  /** Left fold of string concatenation, as `response = "".join([response, str(delta)])`. */
  function Concat(parts: seq<string>): string
  {
    if parts == [] then "" else Concat(parts[..|parts| - 1]) + parts[|parts| - 1]
  }

  const ErrorPrefix := "Error: "

  /** The text recorded when the stream raised: `f"Error: {e}"`. */
  function ErrorText(description: string): string
  {
    ErrorPrefix + description
  }

  /** The answer a stream produces: the error text on failure, the concatenation otherwise. */
  function Answer(stream: Stream): string
  {
    match stream.failure
    case Some(e) => ErrorText(e)
    case None => Concat(stream.deltas)
  }

  lemma {:induction false} ConcatAppend(a: seq<string>, b: seq<string>)
    ensures Concat(a + b) == Concat(a) + Concat(b)
  {
    if b == [] {
      assert a + b == a;
    } else {
      var c := a + b;
      assert c[..|c| - 1] == a + b[..|b| - 1];
      assert c[|c| - 1] == b[|b| - 1];
      ConcatAppend(a, b[..|b| - 1]);
    }
  }

  /** Every intermediate render is a prefix of the concatenation of all fragments, which is
      the answer when the stream does not raise. */
  lemma ConcatPrefix(parts: seq<string>, i: nat)
    requires i <= |parts|
    ensures Concat(parts[..i]) <= Concat(parts)
  {
    assert parts == parts[..i] + parts[i..];
    ConcatAppend(parts[..i], parts[i..]);
  }

  /** No fragment is dropped or reordered: fragment i sits in the answer right after the
      concatenation of the fragments before it. */
  lemma FragmentInPlace(parts: seq<string>, i: nat)
    requires i < |parts|
    ensures var start := |Concat(parts[..i])|;
            start + |parts[i]| <= |Concat(parts)| &&
            Concat(parts)[start..start + |parts[i]|] == parts[i]
  {
    assert parts[..i + 1][..i] == parts[..i];
    assert Concat(parts[..i + 1]) == Concat(parts[..i]) + parts[i];
    ConcatPrefix(parts, i + 1);
  }

  /** The loop of the page: pull deltas until the stream is exhausted or raises. */
  method Respond(stream: Stream) returns (response: string)
    ensures stream.failure.None? ==> response == Concat(stream.deltas)
    ensures stream.failure.Some? ==> response == ErrorText(stream.failure.value)
  {
    response := "";
    var i := 0;
    var pulled := Pull(stream, 0);
    while pulled.Fragment?
      invariant 0 <= i <= |stream.deltas|
      invariant pulled == Pull(stream, i)
      invariant response == Concat(stream.deltas[..i])
      decreases |stream.deltas| - i
    {
      assert stream.deltas[..i + 1][..i] == stream.deltas[..i];
      response := response + pulled.text;
      i := i + 1;
      pulled := Pull(stream, i);
    }
    assert stream.deltas[..i] == stream.deltas;
    if pulled.Raised? {
      response := ErrorText(pulled.description);
    }
  }

  /** The transcript after the answer step: one assistant message holding the stream's
      answer is appended exactly when the last message has role "user". */
  function Answered(t: seq<Message>, stream: Stream): (t': seq<Message>)
    requires |t| > 0
    ensures t <= t'
    ensures |t'| == |t| + (if Last(t).role == UserRole then 1 else 0)
    ensures |t'| > |t| ==> Last(t') == Message(AssistantRole, Answer(stream))
  {
    if Last(t).role == UserRole then t + [Message(AssistantRole, Answer(stream))] else t
  }
}
