/** The scripted help assistant of `components/HelpBot.tsx`. */
module HelpBot {
  import Text

  const Greeting := "Hi! I'm the Ember assistant. How can I help you use the app?"
  const ProfileAnswer := "You can edit your profile by clicking 'My Profile' in the navigation bar."
  const PostAnswer := "You can post an update for everyone to see on the 'Feed' page."
  const MessageAnswer := "You can message any user by going to their profile in the 'Directories' page and clicking 'Send Message'."
  const Fallback := "Sorry, I can only answer basic questions about how to use this app. Try asking about profiles, posts, or messages."

  datatype Sender = User | Bot
  datatype ChatMessage = ChatMessage(sender: Sender, text: string)

  predicate AsksProfile(lower: string) { Text.Contains(lower, "profile") || Text.Contains(lower, "edit") }
  predicate AsksPost(lower: string) { Text.Contains(lower, "post") || Text.Contains(lower, "update") }
  predicate AsksMessage(lower: string) { Text.Contains(lower, "message") || Text.Contains(lower, "chat") }

  /**
   * `getBotResponse`: the first rule whose keyword occurs in the lower-cased input,
   * profile before post before message, else the fallback.
   */
  function GetBotResponse(input: string): (r: string)
    ensures r in {ProfileAnswer, PostAnswer, MessageAnswer, Fallback}
    ensures r == ProfileAnswer <==> AsksProfile(Text.ToLower(input))
    ensures r == PostAnswer <==> !AsksProfile(Text.ToLower(input)) && AsksPost(Text.ToLower(input))
    ensures r == MessageAnswer <==>
      !AsksProfile(Text.ToLower(input)) && !AsksPost(Text.ToLower(input)) && AsksMessage(Text.ToLower(input))
  {
    var lower := Text.ToLower(input);
    if AsksProfile(lower) then ProfileAnswer
    else if AsksPost(lower) then PostAnswer
    else if AsksMessage(lower) then MessageAnswer
    else Fallback
  }

  /** The answer does not depend on letter case. */
  lemma ResponseIgnoresCase(input: string)
    ensures GetBotResponse(Text.ToUpper(input)) == GetBotResponse(input)
    ensures GetBotResponse(Text.ToLower(input)) == GetBotResponse(input)
  {
    Text.ToLowerOfUpper(input);
    Text.ToLowerIdempotent(input);
  }

  /** Priority: a question naming both editing and posts gets the profile answer, not the post answer. */
  lemma EditBeatsPost(input: string)
    requires Text.Contains(Text.ToLower(input), "edit") && Text.Contains(Text.ToLower(input), "post")
    ensures GetBotResponse(input) == ProfileAnswer && GetBotResponse(input) != PostAnswer
  {
  }

  /** An example of that priority: the mixed-case question "Edit my POST". */
  lemma EditMyPostGetsProfileAnswer(input: string)
    requires input == "Edit my POST"
    ensures GetBotResponse(input) == ProfileAnswer
  {
    var lower := Text.ToLower(input);
    assert lower[..4] == "edit" by {
      assert forall i :: 0 <= i < 4 ==> lower[i] == Text.LowerChar(input[i]);
    }
    assert Text.StartsWith(lower, "edit");
  }

  class BotState {
    var isOpen: bool
    var messages: seq<ChatMessage>
    var userInput: string

    constructor ()
      ensures !isOpen && messages == [] && userInput == ""
    {
      isOpen := false;
      messages := [];
      userInput := "";
    }

    /** The toggle button with its effect: opening shows only the greeting, closing empties the history. */
    method Toggle()
      modifies this`isOpen, this`messages
      ensures isOpen == !old(isOpen)
      ensures messages == if isOpen then [ChatMessage(Bot, Greeting)] else []
    {
      isOpen := !isOpen;
      messages := if isOpen then [ChatMessage(Bot, Greeting)] else [];
    }

    /** Typing into the input. */
    method SetInput(s: string)
      modifies this`userInput
      ensures userInput == s
    {
      userInput := s;
    }

    /**
     * `handleSend`: blank input does nothing; otherwise the question and its answer
     * are appended, in that order, and the input is cleared.
     */
    method HandleSend() returns (sent: bool)
      modifies this`messages, this`userInput
      ensures sent <==> !Text.IsBlank(old(userInput))
      ensures !sent ==> messages == old(messages) && userInput == old(userInput)
      ensures sent ==>
        && messages == old(messages) + [ChatMessage(User, old(userInput)), ChatMessage(Bot, GetBotResponse(old(userInput)))]
        && userInput == ""
    {
      if !Text.HasText(userInput) {
        return false;
      }
      messages := messages + [ChatMessage(User, userInput), ChatMessage(Bot, GetBotResponse(userInput))];
      userInput := "";
      sent := true;
    }
  }
}
