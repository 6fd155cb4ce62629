/**
 * The chat panel's own state: the text being typed and whether a suggestion
 * is being fetched. The page's thinking flag comes in as `isThinking`.
 */
module ChatInterface {
  import opened Wrappers
  import opened Text

  class ChatBox {
    var newMessage: string
    var isLoadingSuggestion: bool

    constructor()
      ensures newMessage == "" && !isLoadingSuggestion
    {
      newMessage := "";
      isLoadingSuggestion := false;
    }

    /** The send button is disabled while the page is thinking or when the
        input is blank after trimming. */
    predicate SendDisabled(isThinking: bool)
      reads this
    {
      isThinking || Trim(newMessage) == ""
    }

    /** The suggest button is disabled while the page is thinking or while a
        suggestion is being fetched. */
    predicate SuggestDisabled(isThinking: bool)
      reads this
    {
      isThinking || isLoadingSuggestion
    }

    /** Typing in the input. */
    method Type(text: string)
      modifies this
      ensures newMessage == text && isLoadingSuggestion == old(isLoadingSuggestion)
    {
      newMessage := text;
    }

    /** `handleSend`: a blank input sends nothing; otherwise the text, untrimmed,
        is handed to the page once and the input is cleared. The Enter key calls
        it without consulting the thinking flag. */
    method HandleSend() returns (sent: Option<string>)
      modifies this
      ensures Trim(old(newMessage)) == "" ==> sent == None && newMessage == old(newMessage)
      ensures Trim(old(newMessage)) != "" ==> sent == Some(old(newMessage)) && newMessage == ""
      ensures isLoadingSuggestion == old(isLoadingSuggestion)
    {
      if Trim(newMessage) == "" {
        return None;
      }
      sent := Some(newMessage);
      newMessage := "";
    }

    /** `handleSuggest` up to the await: the suggestion is loading. */
    method BeginSuggest()
      modifies this
      ensures isLoadingSuggestion && newMessage == old(newMessage)
    {
      isLoadingSuggestion := true;
    }

    /** `handleSuggest` after the await. The page's answer is `None` when it
        returned nothing; only a non-empty suggestion replaces the input. */
    method EndSuggest(suggestion: Option<string>)
      modifies this
      ensures Truthy(suggestion) ==> newMessage == suggestion.value
      ensures !Truthy(suggestion) ==> newMessage == old(newMessage)
      ensures !isLoadingSuggestion
    {
      if suggestion.Some? && suggestion.value != "" {
        newMessage := suggestion.value;
      }
      isLoadingSuggestion := false;
    }
  }

  /** A click on an enabled send button always hands the text over: an enabled
      button means the input is not blank. */
  method SendWhenEnabled(box: ChatBox, isThinking: bool) returns (sent: Option<string>)
    requires !box.SendDisabled(isThinking)
    modifies box
    ensures sent.Some? && Trim(sent.value) != "" && box.newMessage == ""
  {
    sent := box.HandleSend();
  }

  /** During a suggestion fetch the suggest button is disabled, and after it
      the button's state is the page's thinking flag alone. */
  method SuggestRoundTrip(box: ChatBox, isThinking: bool, suggestion: Option<string>) returns (during: bool, after: bool)
    modifies box
    ensures during
    ensures after == isThinking
  {
    box.BeginSuggest();
    during := box.SuggestDisabled(isThinking);
    box.EndSuggest(suggestion);
    after := box.SuggestDisabled(isThinking);
  }
}
