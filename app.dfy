/**
 * The state of the `App` component and the event handlers that change it.
 * Each React `useState` pair is a field; each handler is a method that
 * assigns the fields its setters assign. The up-level handler awaits a
 * network call, so it is split into the step before the `await` and the
 * step after it; the answer of the call is a parameter of the second step.
 */
module App {
  import opened Wrappers
  import opened Chats
  import opened JsString

  /** What `axios.post('/api/uplevel', { prompt })` produced: `response.data.improvedPrompt`, or a thrown error. */
  datatype UpLevelResponse = Success(improvedPrompt: string) | Failure

  /**
   * The values an in-flight up-level handler closed over when it was
   * invoked: the handler reads `prompt` and `chats` from the render it was
   * created in, not from the state at the time the call returns.
   */
  datatype UpLevelCall = UpLevelCall(prompt: string, chats: seq<Chat>)

  /** What the follow-up handler did. `NoCurrentChat` is the `TypeError` of reading `messages` of `null`, thrown before any setter runs. */
  datatype FollowUpStatus = Skipped | Sent | NoCurrentChat

  class Session {
    var prompt: string
    var upLeveledPrompt: string
    var chats: seq<Chat>
    var currentChat: Option<Chat>
    var showChat: bool
    var followUpQuestion: string
    var isUpLeveling: bool
    /** The suspended up-level handler, if one is awaiting its response. */
    var inFlight: Option<UpLevelCall>

    /**
     * The current chat, when there is one, is an element of `chats`; the chat
     * view is shown exactly when there is a current chat; `isUpLeveling` is
     * set exactly while an up-level handler is suspended.
     */
    ghost predicate Valid()
      reads this
    {
      && (currentChat.Some? ==> currentChat.value in chats)
      && (showChat <==> currentChat.Some?)
      && (isUpLeveling <==> inFlight.Some?)
    }

    /** The initial values of the seven `useState` calls. */
    constructor ()
      ensures Valid()
      ensures prompt == "" && upLeveledPrompt == "" && chats == [] && currentChat == None
      ensures !showChat && followUpQuestion == "" && !isUpLeveling && inFlight == None
    {
      prompt, upLeveledPrompt, chats, currentChat := "", "", [], None;
      showChat, followUpQuestion, isUpLeveling, inFlight := false, "", false, None;
    }

    /** The prompt textarea's `onChange`. */
    method EditPrompt(text: string)
      requires Valid()
      modifies this
      ensures Valid() && prompt == text
      ensures upLeveledPrompt == old(upLeveledPrompt) && chats == old(chats) && currentChat == old(currentChat)
      ensures showChat == old(showChat) && followUpQuestion == old(followUpQuestion)
      ensures isUpLeveling == old(isUpLeveling) && inFlight == old(inFlight)
    {
      prompt := text;
    }

    /** The follow-up input's `onChange`. */
    method EditFollowUpQuestion(text: string)
      requires Valid()
      modifies this
      ensures Valid() && followUpQuestion == text
      ensures prompt == old(prompt) && upLeveledPrompt == old(upLeveledPrompt) && chats == old(chats)
      ensures currentChat == old(currentChat) && showChat == old(showChat)
      ensures isUpLeveling == old(isUpLeveling) && inFlight == old(inFlight)
    {
      followUpQuestion := text;
    }

    /**
     * `handleUpLevelPrompt` up to its `await`: sets `isUpLeveling` and sends
     * the current prompt, whatever it is (there is no blank check). The button
     * is disabled while `isUpLeveling`, hence the precondition.
     */
    method BeginUpLevel() returns (payload: string)
      requires Valid() && !isUpLeveling
      modifies this
      ensures Valid() && isUpLeveling
      ensures payload == old(prompt) && inFlight == Some(UpLevelCall(old(prompt), old(chats)))
      ensures prompt == old(prompt) && upLeveledPrompt == old(upLeveledPrompt) && chats == old(chats)
      ensures currentChat == old(currentChat) && showChat == old(showChat)
      ensures followUpQuestion == old(followUpQuestion)
    {
      isUpLeveling := true;
      inFlight := Some(UpLevelCall(prompt, chats));
      payload := prompt;
    }

    /**
     * `handleUpLevelPrompt` after its `await`. On success the new chat (with
     * the caller-supplied `freshId` standing in for `Date.now()`) is put in
     * front of the list the handler captured and becomes the current chat;
     * on failure nothing but `isUpLeveling` changes. Either way
     * `isUpLeveling` ends false.
     */
    method CompleteUpLevel(response: UpLevelResponse, freshId: int)
      requires Valid() && isUpLeveling
      modifies this
      ensures Valid() && !isUpLeveling && inFlight == None
      ensures prompt == old(prompt) && followUpQuestion == old(followUpQuestion)
      ensures response.Success? ==>
        var newChat := Chat(freshId, old(inFlight).value.prompt, response.improvedPrompt, []);
        && upLeveledPrompt == response.improvedPrompt
        && chats == Prepend(newChat, old(inFlight).value.chats)
        && currentChat == Some(newChat)
        && showChat
      ensures response.Failure? ==>
        && upLeveledPrompt == old(upLeveledPrompt) && chats == old(chats)
        && currentChat == old(currentChat) && showChat == old(showChat)
    {
      var call := inFlight.value;
      if response.Success? {
        var improvedPrompt := response.improvedPrompt;
        upLeveledPrompt := improvedPrompt;
        var newChat := Chat(freshId, call.prompt, improvedPrompt, []);
        chats := Prepend(newChat, call.chats);
        currentChat := Some(newChat);
        showChat := true;
      }
      isUpLeveling := false;
      inFlight := None;
    }

    /**
     * The whole up-level handler when nothing else happens during the
     * `await`: on success exactly one chat is added, at the front, for the
     * prompt as it was, and it becomes the current chat.
     */
    method UpLevelPrompt(response: UpLevelResponse, freshId: int)
      requires Valid() && !isUpLeveling
      modifies this
      ensures Valid() && !isUpLeveling && inFlight == None
      ensures prompt == old(prompt) && followUpQuestion == old(followUpQuestion)
      ensures response.Success? ==>
        var newChat := Chat(freshId, old(prompt), response.improvedPrompt, []);
        && upLeveledPrompt == response.improvedPrompt
        && chats == Prepend(newChat, old(chats))
        && currentChat == Some(newChat)
        && showChat
      ensures response.Failure? ==>
        && upLeveledPrompt == old(upLeveledPrompt) && chats == old(chats)
        && currentChat == old(currentChat) && showChat == old(showChat)
    {
      var _ := BeginUpLevel();
      CompleteUpLevel(response, freshId);
    }

    /** `handleNewChat`: back to the prompt view; no chat is removed. */
    method NewChat()
      requires Valid()
      modifies this
      ensures Valid()
      ensures prompt == "" && upLeveledPrompt == "" && currentChat == None && !showChat
      ensures chats == old(chats) && followUpQuestion == old(followUpQuestion)
      ensures isUpLeveling == old(isUpLeveling) && inFlight == old(inFlight)
    {
      prompt := "";
      upLeveledPrompt := "";
      currentChat := None;
      showChat := false;
    }

    /**
     * `handleSendFollowUp`. A blank question (`trim()` empty) changes nothing.
     * Otherwise the current chat gets the question appended as a user
     * message, every list entry with its id is replaced by the updated chat,
     * and the input is cleared. No reply is requested. With no current chat
     * the handler throws before changing anything; that cannot happen while
     * the chat view (the only place its button is rendered) is shown.
     */
    method SendFollowUp() returns (status: FollowUpStatus)
      requires Valid()
      modifies this
      ensures Valid()
      ensures status == Skipped <==> Trim(old(followUpQuestion)) == ""
      ensures status == NoCurrentChat <==> Trim(old(followUpQuestion)) != "" && old(currentChat).None?
      ensures old(showChat) ==> status != NoCurrentChat
      ensures status == Sent ==>
        var updated := WithUserMessage(old(currentChat).value, old(followUpQuestion));
        && currentChat == Some(updated)
        && chats == ReplaceById(old(chats), updated)
        && followUpQuestion == ""
      ensures status != Sent ==>
        currentChat == old(currentChat) && chats == old(chats) && followUpQuestion == old(followUpQuestion)
      ensures prompt == old(prompt) && upLeveledPrompt == old(upLeveledPrompt) && showChat == old(showChat)
      ensures isUpLeveling == old(isUpLeveling) && inFlight == old(inFlight)
    {
      if Trim(followUpQuestion) == "" {
        return Skipped;
      }
      if currentChat.None? {
        return NoCurrentChat;
      }
      var updatedChat := WithUserMessage(currentChat.value, followUpQuestion);
      FollowUpStaysListed(chats, currentChat.value, followUpQuestion);
      currentChat := Some(updatedChat);
      chats := ReplaceById(chats, updatedChat);
      followUpQuestion := "";
      status := Sent;
    }

    /** The sidebar entry's `onClick` for the chat at position `i` of the rendered list. */
    method SelectChat(i: nat)
      requires Valid() && i < |chats|
      modifies this
      ensures Valid()
      ensures currentChat == Some(old(chats)[i]) && showChat
      ensures chats == old(chats) && prompt == old(prompt) && upLeveledPrompt == old(upLeveledPrompt)
      ensures followUpQuestion == old(followUpQuestion)
      ensures isUpLeveling == old(isUpLeveling) && inFlight == old(inFlight)
    {
      currentChat := Some(chats[i]);
      showChat := true;
    }
  }

  /**
   * The sequence edit prompt, up-level, edit question, follow-up, starting
   * from the initial state: the list holds one chat for the original prompt,
   * and that chat carries the question as its only message.
   */
  method UpLevelThenFollowUpScenario(original: string, improved: string, question: string, id: int)
    requires Trim(question) != ""
  {
    var s := new Session();
    s.EditPrompt(original);
    s.UpLevelPrompt(Success(improved), id);
    var chat := Chat(id, original, improved, []);
    assert s.chats == [chat];
    s.EditFollowUpQuestion(question);
    var status := s.SendFollowUp();
    assert status == Sent;
    var updated := WithUserMessage(chat, question);
    assert updated.messages == [Message(question, User)];
    ReplaceByIdAt([chat], updated);
    assert s.chats == [updated] && s.currentChat == Some(updated) && s.followUpQuestion == "";
  }

  /**
   * A follow-up committed while an up-level is awaiting its response is
   * overwritten when a successful response arrives, because the up-level handler
   * prepends to the list it captured before the follow-up happened.
   */
  method FollowUpDuringUpLevelScenario(question: string)
    requires Trim(question) != ""
  {
    var s := new Session();
    s.UpLevelPrompt(Success("improved A"), 1);
    var first := Chat(1, "", "improved A", []);
    assert s.chats == [first];
    s.NewChat();
    s.EditPrompt("B");
    var _ := s.BeginUpLevel();
    s.SelectChat(0);
    s.EditFollowUpQuestion(question);
    assert s.currentChat == Some(first) && s.chats == [first];
    var status := s.SendFollowUp();
    assert status == Sent;
    var answered := WithUserMessage(first, question);
    ReplaceByIdAt([first], answered);
    assert s.chats == [answered];
    s.CompleteUpLevel(Success("improved B"), 2);
    assert s.chats == [Chat(2, "B", "improved B", []), first];
    assert answered !in s.chats;
  }
}
