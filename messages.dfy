/** Chat messages, the transcript a turn starts from, and what the page renders of it. */
module Messages {
  import opened Wrappers

  /** One entry of the `messages` list: a dictionary with a role and a content. */
  datatype Message = Message(role: string, content: string)

  const UserRole := "user"
  const AssistantRole := "assistant"
  const SystemRole := "system"

  /** The message shown when the assistant's memory holds no chat history. */
  const Greeting := Message(AssistantRole, "Upload a file or ask me questions, how can I help you?")

  function Last(t: seq<Message>): Message
    requires |t| > 0
  {
    t[|t| - 1]
  }

  /** `chat_input` returns None when nothing was submitted; an empty string is falsy and is ignored too. */
  predicate Submitted(prompt: Option<string>)
  {
    prompt.Some? && prompt.value != ""
  }

  /** The transcript after turn setup: the stored chat history, or the greeting alone when
      that history is empty, followed by the submitted prompt as a user message. */
  function SetupTranscript(history: seq<Message>, prompt: Option<string>): (t: seq<Message>)
    ensures |t| > 0
    ensures |history| > 0 ==> history <= t
    ensures |history| == 0 ==> t[0] == Greeting
    ensures |t| == (if |history| > 0 then |history| else 1) + (if Submitted(prompt) then 1 else 0)
    ensures Submitted(prompt) ==> Last(t) == Message(UserRole, prompt.value)
  {
    var opening := if |history| > 0 then history else [Greeting];
    if Submitted(prompt) then opening + [Message(UserRole, prompt.value)] else opening
  }

  /** The messages the page draws, in order: every message whose role is not "system". */
  function Visible(msgs: seq<Message>): (shown: seq<Message>)
    ensures |shown| <= |msgs|
    ensures forall m :: m in shown <==> m in msgs && m.role != SystemRole
  {
    if msgs == [] then []
    else (if msgs[0].role == SystemRole then [] else [msgs[0]]) + Visible(msgs[1..])
  }

  /** Rendering visits the transcript in order: the rendering of a concatenation is the
      concatenation of the renderings. */
  lemma {:induction false} VisibleAppend(a: seq<Message>, b: seq<Message>)
    ensures Visible(a + b) == Visible(a) + Visible(b)
  {
    if a == [] {
      assert a + b == b;
    } else {
      assert (a + b)[0] == a[0];
      assert (a + b)[1..] == a[1..] + b;
      VisibleAppend(a[1..], b);
    }
  }

  /** A transcript without system messages is drawn exactly as it is. */
  lemma {:induction false} VisibleWithoutSystem(msgs: seq<Message>)
    requires forall i :: 0 <= i < |msgs| ==> msgs[i].role != SystemRole
    ensures Visible(msgs) == msgs
  {
    if msgs != [] {
      VisibleWithoutSystem(msgs[1..]);
    }
  }
}
