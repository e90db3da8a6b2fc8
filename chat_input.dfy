/**
 * The message box: its text and "typing" flag, the send guard, the Enter
 * key handling, the send button's enabled state, the character counter and
 * the textarea's height cap. The `sendMessage` callback is recorded as the
 * sequence of texts it was called with.
 */
module ChatInput {
  import opened Wrappers
  import opened Js

  /** The counter's denominator; it is only shown, never enforced. */
  const MaxLengthHint: nat := 4000
  const MaxTextareaHeight: nat := 120

  /**
   * The send button's `disabled={!text.trim()}`: disabled exactly for text
   * made only of white space, the empty text included.
   */
  function SendDisabled(text: string): (disabled: bool)
    ensures disabled <==> Blank(text)
  {
    TrimEmptyIffBlank(text);
    Trim(text) == ""
  }

  datatype Tier = Indigo | Yellow | Red

  /** The counter badge: the count, the 4000 shown beside it, and its colour. */
  datatype Counter = Counter(count: nat, limit: nat, tier: Tier)

  /** The counter under the box: hidden for empty text, red above 3500, yellow above 2000, indigo otherwise. */
  function CounterBadge(text: string): (c: Option<Counter>)
    ensures c.None? <==> text == ""
    ensures c.Some? ==> c.value.count == |text| && c.value.limit == MaxLengthHint
    ensures c.Some? ==> (c.value.tier == Red <==> |text| > 3500)
    ensures c.Some? ==> (c.value.tier == Yellow <==> 2000 < |text| <= 3500)
    ensures c.Some? ==> (c.value.tier == Indigo <==> 0 < |text| <= 2000)
  {
    if |text| == 0 then None
    else Some(Counter(|text|, MaxLengthHint,
                      if |text| > 3500 then Red else if |text| > 2000 then Yellow else Indigo))
  }

  /** The textarea's height: its content height, capped at 120 pixels. */
  function TextareaHeight(scrollHeight: nat): (h: nat)
    ensures h <= MaxTextareaHeight && h <= scrollHeight
    ensures h == scrollHeight || h == MaxTextareaHeight
  {
    Min(scrollHeight, MaxTextareaHeight)
  }

  class Composer {
    var text: string
    var isTyping: bool
    /** Every call made to the `sendMessage` callback, oldest first. */
    var sent: seq<string>

    constructor ()
      ensures text == "" && !isTyping && sent == []
    {
      text, isTyping, sent := "", false, [];
    }

    /** `handleTypingStart`: the flag is set afterwards whatever it was, so a second call changes nothing. */
    method HandleTypingStart()
      modifies this
      ensures isTyping
      ensures text == old(text) && sent == old(sent)
    {
      if !isTyping {
        isTyping := true;
      }
    }

    /** The textarea's `onChange`: takes the new value whatever its length, and starts typing. */
    method OnChange(value: string)
      modifies this
      ensures text == value && isTyping && sent == old(sent)
    {
      text := value;
      HandleTypingStart();
    }

    /** A quick-prompt button: replaces the text with its prompt; it does not start typing. */
    method UsePrompt(prompt: string)
      modifies this
      ensures text == prompt && isTyping == old(isTyping) && sent == old(sent)
    {
      text := prompt;
    }

    /**
     * `handleSend`: white-space-only text sends nothing and stays; other
     * text is handed to `sendMessage` once, untrimmed, and the box is cleared.
     */
    method HandleSend()
      modifies this
      ensures Trim(old(text)) == "" ==> text == old(text) && sent == old(sent)
      ensures Trim(old(text)) != "" ==> sent == old(sent) + [old(text)] && text == ""
      ensures isTyping == old(isTyping)
    {
      if Trim(text) == "" {
        return;
      }
      sent := sent + [text];
      text := "";
    }

    /** `handleKeyDown`: Enter without Shift prevents the newline and sends; any other key does nothing here. */
    method HandleKeyDown(key: string, shiftKey: bool) returns (prevented: bool)
      modifies this
      ensures prevented <==> key == "Enter" && !shiftKey
      ensures prevented && Trim(old(text)) != "" ==> sent == old(sent) + [old(text)] && text == ""
      ensures !(prevented && Trim(old(text)) != "") ==> sent == old(sent) && text == old(text)
      ensures isTyping == old(isTyping)
    {
      prevented := key == "Enter" && !shiftKey;
      if prevented {
        HandleSend();
      }
    }
  }
}
