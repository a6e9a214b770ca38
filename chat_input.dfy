/**
 * The message box of frontend/src/components/chat/ChatInput.tsx: the
 * button is disabled for a blank or over-long value or while an answer
 * streams, a submit sends the trimmed value and clears the box, Enter
 * without Shift submits, and a counter shows past 1800 characters.
 */
module ChatInput {
  import opened Wrappers
  import opened Text
  import ChatRoute

  const MaxChars: nat := 2000
  const CounterThreshold: nat := 1800

  /** `value.length > MAX_CHARS`, on the untrimmed value. */
  predicate TooLong(value: string) {
    |value| > MaxChars
  }

  /** `!value.trim() || isStreaming || tooLong`. */
  predicate Disabled(value: string, isStreaming: bool) {
    Trim(value) == "" || isStreaming || TooLong(value)
  }

  /** The counter is shown past 1800 characters. */
  predicate ShowCounter(value: string) {
    |value| > CounterThreshold
  }

  /** The counter's text, `${value.length}/2000`. */
  function CounterText(value: string): (t: string)
    ensures |t| > 5 && t[|t| - 5..] == "/2000"
    ensures forall i :: 0 <= i < |t| - 5 ==> IsDigit(t[i])
    ensures DecimalValue(t[..|t| - 5]) == |value|
  {
    var d := NatToDecimal(|value|);
    var t := d + "/2000";
    assert t[..|t| - 5] == d;
    t
  }

  /** An over-long value always shows the counter, so the reason for the disabled button is visible. */
  lemma TooLongShowsCounter(value: string)
    requires TooLong(value)
    ensures ShowCounter(value) && Disabled(value, false)
  {
  }

  class ChatInputBox {
    var value: string

    constructor ()
      ensures value == ""
    {
      value := "";
    }

    /** `handleChange`: the box holds what was typed. */
    method HandleChange(newValue: string)
      modifies this
      ensures value == newValue
    {
      value := newValue;
    }

    /**
     * `submit`: sends the trimmed value and clears the box exactly when the
     * button is enabled; otherwise nothing happens.
     */
    method Submit(isStreaming: bool) returns (sent: Option<string>)
      modifies this
      ensures sent.Some? <==> !Disabled(old(value), isStreaming)
      ensures sent.Some? ==> sent.value == Trim(old(value)) && value == ""
      ensures sent.None? ==> value == old(value)
    {
      var trimmed := Trim(value);
      if trimmed == "" || isStreaming || TooLong(value) {
        return None;
      }
      sent := Some(trimmed);
      value := "";
    }

    /** `handleKeyDown`: Enter without Shift submits; any other key leaves the box to the textarea. */
    method HandleKeyDown(key: string, shiftKey: bool, isStreaming: bool) returns (sent: Option<string>)
      modifies this
      ensures !(key == "Enter" && !shiftKey) ==> sent == None && value == old(value)
      ensures key == "Enter" && !shiftKey ==>
        && (sent.Some? <==> !Disabled(old(value), isStreaming))
        && (sent.Some? ==> sent.value == Trim(old(value)) && value == "")
        && (sent.None? ==> value == old(value))
    {
      sent := None;
      if key == "Enter" && !shiftKey {
        sent := Submit(isStreaming);
      }
    }
  }

  /**
   * What the box sends passes the chat route's message checks unchanged:
   * with a valid document id and a history, the route validates it to itself.
   */
  lemma SentMessagesPassValidation(value: string, documentId: string, history: seq<ChatRoute.Turn>)
    requires !Disabled(value, false)
    requires ChatRoute.IsUuid(documentId)
    ensures ChatRoute.Validate(ChatRoute.ChatBody(Some(documentId), Some(Trim(value)), Some(history)))
      == ChatRoute.Valid(documentId, Trim(value), history)
  {
    TrimIdempotent(value);
  }
}
