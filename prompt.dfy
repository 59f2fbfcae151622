/**
 * Prompt assembly: the message list handed to the chat-completion model,
 * built from the fixed persona prompt, one user/assistant pair per stored
 * history entry, and the newest user input.
 */
module PromptAssembly {
  import opened ChatStore

  datatype Role = System | User | Assistant

  datatype Message = Message(role: Role, content: string)

  /** The persona given to the model as its system message (the source joins its
      last two sentences without a space, and so does this constant). */
  const DEFAULT_PROMPT: string :=
    "You are an AI-powered call-handling assistant trained to respond to unknown callers. "
    + "Your goal is to keep the conversation going for as long as possible while sounding like a real human. "
    + "Ask follow-up questions, act slightly curious, and try to prolong the chat without revealing personal information."
    + "Don't ask too many questions in single turn. Response should be concise and engaging."

  /** The two messages one history entry contributes: what the other party said, then the bot. */
  function TurnPair(entry: Entry, userKey: string): (ms: seq<Message>)
  {
    [Message(User, Lookup(entry, userKey)), Message(Assistant, Lookup(entry, "bot"))]
  }

  /** The messages contributed by a whole history, in stored order. */
  function Pairs(history: seq<Entry>, userKey: string): (ms: seq<Message>)
    ensures |ms| == 2 * |history|
  {
    if history == [] then []
    else Pairs(history[..|history| - 1], userKey) + TurnPair(history[|history| - 1], userKey)
  }

  /** The message list generate_ai_response sends for `history` and the new `userInput`. */
  function Prompt(history: seq<Entry>, userKey: string, userInput: string): (ms: seq<Message>)
  {
    [Message(System, DEFAULT_PROMPT)] + Pairs(history, userKey) + [Message(User, userInput)]
  }

  /** Entry i of the history yields the messages at positions 2i and 2i+1 of its pairs. */
  lemma {:induction false} PairsAt(history: seq<Entry>, userKey: string, i: nat)
    requires i < |history|
    ensures Pairs(history, userKey)[2 * i] == Message(User, Lookup(history[i], userKey))
    ensures Pairs(history, userKey)[2 * i + 1] == Message(Assistant, Lookup(history[i], "bot"))
  {
    var n := |history| - 1;
    if i < n {
      PairsAt(history[..n], userKey, i);
    }
  }

  /** The pairs never contain a system message. */
  lemma {:induction false} PairsHaveNoSystem(history: seq<Entry>, userKey: string, j: nat)
    requires j < |Pairs(history, userKey)|
    ensures Pairs(history, userKey)[j].role != System
  {
    PairsAt(history, userKey, j / 2);
  }

  /**
   * Shape of the assembled prompt: exactly one system message, first, with the
   * persona; entry i of the history as a user message at 2i+1 and an assistant
   * message at 2i+2 (absent keys giving ""); the new input as the last message.
   */
  lemma PromptShape(history: seq<Entry>, userKey: string, userInput: string)
    ensures var p := Prompt(history, userKey, userInput);
      && |p| == 2 * |history| + 2
      && p[0] == Message(System, DEFAULT_PROMPT)
      && (forall j :: 0 < j < |p| ==> p[j].role != System)
      && (forall i :: 0 <= i < |history| ==>
            p[2 * i + 1] == Message(User, Lookup(history[i], userKey)) &&
            p[2 * i + 2] == Message(Assistant, Lookup(history[i], "bot")))
      && p[|p| - 1] == Message(User, userInput)
  {
    var p := Prompt(history, userKey, userInput);
    forall j | 0 < j < |p| - 1
      ensures p[j].role != System
    {
      PairsHaveNoSystem(history, userKey, j - 1);
    }
    forall i | 0 <= i < |history|
      ensures p[2 * i + 1] == Message(User, Lookup(history[i], userKey))
      ensures p[2 * i + 2] == Message(Assistant, Lookup(history[i], "bot"))
    {
      PairsAt(history, userKey, i);
    }
  }

  /**
   * The shape above determines the prompt: any message list with that shape
   * is the prompt, so the shape is a complete description of it.
   */
  lemma PromptDeterminedByShape(history: seq<Entry>, userKey: string, userInput: string, p: seq<Message>)
    requires |p| == 2 * |history| + 2
    requires p[0] == Message(System, DEFAULT_PROMPT)
    requires forall i :: 0 <= i < |history| ==>
      p[2 * i + 1] == Message(User, Lookup(history[i], userKey)) &&
      p[2 * i + 2] == Message(Assistant, Lookup(history[i], "bot"))
    requires p[|p| - 1] == Message(User, userInput)
    ensures p == Prompt(history, userKey, userInput)
  {
    var q := Prompt(history, userKey, userInput);
    PromptShape(history, userKey, userInput);
    assert |q| == |p|;
    forall j | 0 <= j < |p|
      ensures p[j] == q[j]
    {
      if 0 < j < |p| - 1 {
        var i := (j - 1) / 2;
        assert j == 2 * i + 1 || j == 2 * i + 2;
        assert p[2 * i + 1] == Message(User, Lookup(history[i], userKey));
      }
    }
  }

  /**
   * The message builder of generate_ai_response: starts from the system
   * message, appends one user and one assistant message per history entry,
   * then the new user input.
   */
  method BuildMessages(history: seq<Entry>, userKey: string, userInput: string) returns (messages: seq<Message>)
    ensures messages == Prompt(history, userKey, userInput)
  {
    messages := [Message(System, DEFAULT_PROMPT)];
    var i := 0;
    while i < |history|
      invariant 0 <= i <= |history|
      invariant messages == [Message(System, DEFAULT_PROMPT)] + Pairs(history[..i], userKey)
    {
      var entry := history[i];
      messages := messages + [Message(User, Lookup(entry, userKey))];
      messages := messages + [Message(Assistant, Lookup(entry, "bot"))];
      assert history[..i + 1][..i] == history[..i];
      i := i + 1;
    }
    assert history[..i] == history;
    messages := messages + [Message(User, userInput)];
  }
}
