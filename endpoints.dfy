/**
 * The two HTTP endpoints as transitions of the conversation store. The
 * speech-to-text, chat-completion and text-to-speech services are passed in
 * as functions: `transcribe` (audio to text), `complete` (message list to
 * reply) and `synthesize` (text to audio).
 */
module Endpoints {
  import opened ChatStore
  import opened PromptAssembly

  type Bytes = seq<bv8>

  /** JSON body returned by /handle-call/ (the audio is the raw synthesized bytes). */
  datatype CallResponse = CallResponse(callerNumber: string, transcribedText: string, botResponse: string, ttsAudio: Bytes)

  /** JSON body returned by /handle-sms/. */
  datatype SmsResponse = SmsResponse(callerNumber: string, userMessage: string, botResponse: string)

  /** The entry handle_call stores for one voice turn. */
  function CallEntry(transcribedText: string, botResponse: string): (e: Entry)
    ensures Lookup(e, "caller") == transcribedText && Lookup(e, "bot") == botResponse
    ensures e.Keys == {"caller", "bot"}
  {
    map["caller" := transcribedText, "bot" := botResponse]
  }

  /** The entry handle_sms stores for the incoming text. */
  function SmsUserEntry(message: string): (e: Entry)
    ensures Lookup(e, "user") == message && Lookup(e, "bot") == ""
    ensures e.Keys == {"user"}
  {
    map["user" := message]
  }

  /** The entry handle_sms stores for the bot's reply. */
  function SmsBotEntry(botResponse: string): (e: Entry)
    ensures Lookup(e, "user") == "" && Lookup(e, "bot") == botResponse
    ensures e.Keys == {"bot"}
  {
    map["bot" := botResponse]
  }

  /**
   * generate_ai_response: reads the caller's history under `field`, builds the
   * message list and returns the model's reply to it. Changes nothing.
   */
  method GenerateAiResponse(collection: Collection, userInput: string, callerNumber: string,
                            field: string, userKey: string, complete: seq<Message> -> string)
    returns (reply: string)
    ensures reply == complete(Prompt(ChatHistory(collection.docs, callerNumber, field), userKey, userInput))
  {
    var chatHistory := ChatHistory(collection.docs, callerNumber, field);
    var messages := BuildMessages(chatHistory, userKey, userInput);
    reply := complete(messages);
  }

  /**
   * /handle-call/: transcribe, answer from the history as it was before this
   * call, synthesize the answer, then append one {caller, bot} entry to the
   * caller's voice conversation.
   */
  method HandleCall(collection: Collection, callerNumber: string, audio: Bytes,
                    transcribe: Bytes -> string, complete: seq<Message> -> string, synthesize: string -> Bytes)
    returns (resp: CallResponse)
    requires collection.Valid()
    modifies collection
    ensures collection.Valid()
    ensures resp.callerNumber == callerNumber
    ensures resp.transcribedText == transcribe(audio)
    ensures resp.botResponse
         == complete(Prompt(old(ChatHistory(collection.docs, callerNumber, CONVERSATION)), "caller", resp.transcribedText))
    ensures resp.ttsAudio == synthesize(resp.botResponse)
    ensures callerNumber in collection.docs
    ensures ChatHistory(collection.docs, callerNumber, CONVERSATION)
         == old(ChatHistory(collection.docs, callerNumber, CONVERSATION)) + [CallEntry(resp.transcribedText, resp.botResponse)]
    ensures collection.docs[callerNumber] - {CONVERSATION} == old(DocumentOf(collection.docs, callerNumber)) - {CONVERSATION}
    ensures collection.docs - {callerNumber} == old(collection.docs) - {callerNumber}
  {
    var transcribedText := transcribe(audio);
    var botResponse := GenerateAiResponse(collection, transcribedText, callerNumber, CONVERSATION, "caller", complete);
    var ttsAudio := synthesize(botResponse);
    collection.UpdateOnePush(callerNumber, CONVERSATION, CallEntry(transcribedText, botResponse));
    resp := CallResponse(callerNumber, transcribedText, botResponse, ttsAudio);
  }

  /**
   * /handle-sms/: append the incoming {user} entry, answer from the history
   * that now ends with it, then append the {bot} entry with the answer.
   */
  method HandleSms(collection: Collection, callerNumber: string, message: string, complete: seq<Message> -> string)
    returns (resp: SmsResponse)
    requires collection.Valid()
    modifies collection
    ensures collection.Valid()
    ensures resp.callerNumber == callerNumber && resp.userMessage == message
    ensures resp.botResponse
         == complete(Prompt(old(ChatHistory(collection.docs, callerNumber, SMS_CONVERSATION)) + [SmsUserEntry(message)], "user", message))
    ensures callerNumber in collection.docs
    ensures ChatHistory(collection.docs, callerNumber, SMS_CONVERSATION)
         == old(ChatHistory(collection.docs, callerNumber, SMS_CONVERSATION)) + [SmsUserEntry(message), SmsBotEntry(resp.botResponse)]
    ensures collection.docs[callerNumber] - {SMS_CONVERSATION} == old(DocumentOf(collection.docs, callerNumber)) - {SMS_CONVERSATION}
    ensures collection.docs - {callerNumber} == old(collection.docs) - {callerNumber}
    ensures old(SmsAlternating(ChatHistory(collection.docs, callerNumber, SMS_CONVERSATION)))
        ==> SmsAlternating(ChatHistory(collection.docs, callerNumber, SMS_CONVERSATION))
  {
    ghost var before := ChatHistory(collection.docs, callerNumber, SMS_CONVERSATION);
    collection.UpdateOnePush(callerNumber, SMS_CONVERSATION, SmsUserEntry(message));
    var botResponse := GenerateAiResponse(collection, message, callerNumber, SMS_CONVERSATION, "user", complete);
    collection.UpdateOnePush(callerNumber, SMS_CONVERSATION, SmsBotEntry(botResponse));
    resp := SmsResponse(callerNumber, message, botResponse);
    if SmsAlternating(before) {
      SmsExchangeKeepsAlternating(before, message, botResponse);
    }
  }

  /**
   * The voice path reads the history before it appends. Let `after` be the
   * voice history once the call has stored {caller: t, bot: r}. The prompt
   * that was answered has two messages per stored entry of `after`, and it is
   * the prompt `after` itself would give with the new entry's (t, r) pair
   * taken out: after the older pairs it holds only t, as the final user
   * message.
   */
  lemma CallPromptOmitsNewTurn(before: seq<Entry>, transcribedText: string, botResponse: string)
    ensures var after := before + [CallEntry(transcribedText, botResponse)];
      var answered := Prompt(before, "caller", transcribedText);
      var appendFirst := Prompt(after, "caller", transcribedText);
      && |answered| == 2 * |after|
      && appendFirst[2 * |before| + 1..2 * |before| + 3]
         == [Message(User, transcribedText), Message(Assistant, botResponse)]
      && answered == appendFirst[..2 * |before| + 1] + [Message(User, transcribedText)]
  {
  }

  /**
   * The text path appends before it reads: the prompt is the one the stored
   * history would give, with the new message turned into a (message, "")
   * pair in front of the final user message.
   */
  lemma SmsPromptShape(history: seq<Entry>, message: string)
    ensures var p := Prompt(history + [SmsUserEntry(message)], "user", message);
      && |p| == 2 * |history| + 4
      && p[..2 * |history| + 1] == [Message(System, DEFAULT_PROMPT)] + Pairs(history, "user")
      && p[2 * |history| + 1..] == [Message(User, message), Message(Assistant, ""), Message(User, message)]
  {
  }

  /**
   * The two orderings compared: for the same stored history and the same new
   * text, appending first (SMS) yields a prompt two messages longer than
   * reading first (call), and the two agree on the system message and the
   * stored turns and on the final user message.
   */
  lemma SmsPromptExtendsReadFirstPrompt(history: seq<Entry>, message: string)
    ensures var readFirst := Prompt(history, "user", message);
      var appendFirst := Prompt(history + [SmsUserEntry(message)], "user", message);
      && |appendFirst| == |readFirst| + 2
      && appendFirst[..|readFirst| - 1] == readFirst[..|readFirst| - 1]
      && appendFirst[|appendFirst| - 1] == readFirst[|readFirst| - 1]
  {
  }

  /** An SMS history made only of whole exchanges: {user} at even positions, {bot} at odd ones. */
  predicate SmsAlternating(history: seq<Entry>)
  {
    && |history| % 2 == 0
    && forall i :: 0 <= i < |history| ==> history[i].Keys == (if i % 2 == 0 then {"user"} else {"bot"})
  }

  /** One sequential SMS exchange keeps the stored SMS history made of whole exchanges. */
  lemma SmsExchangeKeepsAlternating(history: seq<Entry>, message: string, botResponse: string)
    requires SmsAlternating(history)
    ensures SmsAlternating(history + [SmsUserEntry(message), SmsBotEntry(botResponse)])
  {
  }

  /**
   * Because the SMS path stores the text and the reply as separate entries,
   * each stored entry gives one message with content and one empty message:
   * a {user} entry an empty assistant message, a {bot} entry an empty user message.
   */
  lemma SmsPromptHasEmptyHalves(history: seq<Entry>, message: string, i: nat)
    requires SmsAlternating(history)
    requires i < |history|
    ensures var p := Prompt(history, "user", message);
      if i % 2 == 0 then p[2 * i + 1] == Message(User, history[i]["user"]) && p[2 * i + 2] == Message(Assistant, "")
      else p[2 * i + 1] == Message(User, "") && p[2 * i + 2] == Message(Assistant, history[i]["bot"])
  {
    PromptShape(history, "user", message);
    assert history[i].Keys == (if i % 2 == 0 then {"user"} else {"bot"});
  }
}
