/** components/Chat.tsx: the text chat. An append-only message log that starts with a
    greeting; a send guard; and the reply step after `getGeminiResponse`, which turns the
    missing-key sentinel into a warning and asks for speech only for real replies. The
    clock is a parameter, and the await splits a turn into `Send` and `Receive`. */
module Chat {
  import opened Wrappers
  import opened Types
  import opened Text
  import GeminiService

  const Greeting := "您好！我是小玲，今天想跟我聊点什么吗？"
  const NoKeyWarning := "⚠️ 您还没有配置 API 密钥。请回到首页，点击上方的“配置密钥”按钮并粘贴您的 Gemini 密钥。"

  /** The assistant text shown for a result: the warning for the sentinel, the result
      itself otherwise. */
  function DisplayedReply(result: string): (r: string)
    ensures result == GeminiService.ErrorNoKey ==> r == NoKeyWarning
    ensures result != GeminiService.ErrorNoKey ==> r == result
  {
    if result == GeminiService.ErrorNoKey then NoKeyWarning else result
  }

  /** Together with the service: without a key the chat shows the warning and speaks
      nothing, and whatever the model call did, the shown reply is never empty and never
      the raw sentinel. */
  lemma ReplyForServiceOutcome(key: string, outcome: GeminiService.GenerateOutcome)
    ensures DisplayedReply(GeminiService.GetGeminiResponse("", outcome)) == NoKeyWarning
    ensures !SpeaksReply(GeminiService.GetGeminiResponse("", outcome))
    ensures var shown := DisplayedReply(GeminiService.GetGeminiResponse(key, outcome));
      shown != "" && shown != GeminiService.ErrorNoKey
  {
    GeminiService.GeminiResponseMapping("", outcome);
    GeminiService.GeminiResponseMapping(key, outcome);
  }

  /** Whether a result is spoken aloud. */
  predicate SpeaksReply(result: string) {
    result != GeminiService.ErrorNoKey
  }

  /** The log alternates: the greeting at 0, then user messages at odd positions and
      assistant messages at even ones. */
  ghost predicate Alternates(messages: seq<Message>) {
    forall i :: 0 <= i < |messages| ==> messages[i].role == (if i % 2 == 1 then FromUser else FromAssistant)
  }

  class ChatScreen {
    var messages: seq<Message>
    var inputText: string
    var isLoading: bool
    /** The texts handed to `playTTS`, in order. */
    var spoken: seq<string>

    ghost predicate Valid()
      reads this
    {
      && |messages| >= 1 && messages[0].content == Greeting && messages[0].id == "1"
      && Alternates(messages)
      && (isLoading <==> |messages| % 2 == 0)
    }

    /** The initial log: the greeting alone. */
    constructor (now: int)
      ensures Valid() && messages == [Message("1", FromAssistant, Greeting, now)]
      ensures inputText == "" && !isLoading && spoken == []
    {
      messages := [Message("1", FromAssistant, Greeting, now)];
      inputText := "";
      isLoading := false;
      spoken := [];
    }

    /** The input's `onChange`. */
    method Type(text: string)
      requires Valid()
      modifies this
      ensures Valid() && inputText == text
      ensures messages == old(messages) && isLoading == old(isLoading) && spoken == old(spoken)
    {
      inputText := text;
    }

    /** `handleSendMessage` up to its await. Blank input, or a request in flight, changes
        nothing; otherwise the input as typed (not trimmed) is appended as a user message,
        the input is cleared and loading is set. */
    method Send(now: nat) returns (sent: bool)
      requires Valid()
      modifies this
      ensures Valid()
      ensures sent <==> !IsBlank(old(inputText)) && !old(isLoading)
      ensures !sent ==> messages == old(messages) && inputText == old(inputText) && isLoading == old(isLoading)
      ensures sent ==>
        messages == old(messages) + [Message(NatToString(now), FromUser, old(inputText), now)]
        && inputText == "" && isLoading
      ensures spoken == old(spoken)
    {
      TrimEmptyIffBlank(inputText);
      if Trim(inputText) == "" || isLoading {
        return false;
      }
      var userMsg := inputText;
      messages := messages + [Message(NatToString(now), FromUser, userMsg, now)];
      inputText := "";
      isLoading := true;
      sent := true;
    }

    /** The rest of `handleSendMessage`, once `getGeminiResponse` answered `result`:
        exactly one assistant message, loading cleared, and speech unless it was the
        sentinel. */
    method Receive(result: string, now: nat)
      requires Valid() && isLoading
      modifies this
      ensures Valid() && !isLoading
      ensures messages == old(messages) + [Message(NatToString(now + 1), FromAssistant, DisplayedReply(result), now)]
      ensures spoken == if SpeaksReply(result) then old(spoken) + [result] else old(spoken)
      ensures inputText == old(inputText)
    {
      var assistantContent := result;
      if result == GeminiService.ErrorNoKey {
        assistantContent := NoKeyWarning;
      }
      messages := messages + [Message(NatToString(now + 1), FromAssistant, assistantContent, now)];
      isLoading := false;
      if result != GeminiService.ErrorNoKey {
        spoken := spoken + [assistantContent];
      }
    }
  }

  /** A send during a request in flight is refused, and a whole turn adds exactly the
      user's message and one reply after the greeting. */
  method OneTurn(text: string, result: string, t0: int, t1: nat, t2: nat) returns (c: ChatScreen)
    requires !IsBlank(text)
    ensures |c.messages| == 3 && c.messages[0].content == Greeting
    ensures c.messages[1].role == FromUser && c.messages[1].content == text
    ensures c.messages[2].role == FromAssistant && c.messages[2].content == DisplayedReply(result)
    ensures !c.isLoading && c.inputText == text
  {
    c := new ChatScreen(t0);
    c.Type(text);
    var first := c.Send(t1);
    c.Type(text);
    var second := c.Send(t1);
    assert first && !second;
    c.Receive(result, t2);
  }
}
