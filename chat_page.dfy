/**
 * `handleSubmit` of frontend/src/pages/Chat.tsx: the message list grows by
 * a user turn and an empty assistant turn, tokens from the event stream are
 * appended to the last message until the first `done`, an `error` item or
 * any other failure drops the assistant turn only if it is still empty, and
 * the exchange is persisted only when there is a user id and a non-empty answer.
 *
 * The session, `fetch`, the body reader and the database insert are inputs
 * and outputs of the method; the state updaters passed to `setMessages` are
 * the methods `StartExchange`, `AppendToken` and `DropEmptyAssistant`.
 */
module ChatPage {
  import opened Wrappers
  import opened Text
  import opened Stream
  import ChatRoute

  type Role = ChatRoute.Role

  /** `Message` of frontend/src/types/index.ts. */
  datatype Message = Message(role: Role, content: string)

  /** What `supabase.auth.getSession()` yields: the access token and the user id, each possibly absent. */
  datatype Session = Session(accessToken: Option<string>, userId: Option<string>)

  /**
   * What `fetch` yields: a rejection, or a response with its status, whether
   * it has a body, the decoded text of each successful `reader.read()`, and
   * whether the read after those rejects instead of reporting the end.
   */
  datatype FetchResult =
    | NetworkError
    | Response(ok: bool, status: nat, hasBody: bool, received: seq<string>, readFails: bool)

  /** The JSON body posted to `/chat`. */
  datatype ChatRequest = ChatRequest(documentId: string, message: string, history: seq<Message>)

  /** A row inserted into `chat_messages`. */
  datatype ChatRow = ChatRow(documentId: string, userId: string, role: Role, content: string)

  /** JavaScript truthiness of the optional fields the loop tests. */
  predicate ErrorSet(item: SseItem) { item.error.Some? && item.error.value != "" }
  predicate DoneSet(item: SseItem) { item.done == Some(true) }
  predicate TokenSet(item: SseItem) { item.token.Some? && item.token.value != "" }

  /** How consumption of the items stops. */
  datatype Ending = SawDone | SawError | RanOut

  /** The concatenated tokens read before consumption stopped, and why it stopped. */
  datatype Consumed = Consumed(text: string, ending: Ending)

  /** Item `i` is the first one that sets `error` or `done`. */
  predicate FirstStopAt(items: seq<SseItem>, i: int) {
    0 <= i < |items| && (ErrorSet(items[i]) || DoneSet(items[i]))
    && forall j :: 0 <= j < i ==> !ErrorSet(items[j]) && !DoneSet(items[j])
  }

  /**
   * The inner `for` loop's reading of the items: tokens accumulate until
   * the first item with `error` (checked first) or `done`.
   */
  function Consume(items: seq<SseItem>): Consumed {
    if items == [] then Consumed("", RanOut)
    else if ErrorSet(items[0]) then Consumed("", SawError)
    else if DoneSet(items[0]) then Consumed("", SawDone)
    else
      var rest := Consume(items[1..]);
      Consumed((if TokenSet(items[0]) then items[0].token.value else "") + rest.text, rest.ending)
  }

  /**
   * Consumption runs out exactly when no item sets `error` or `done`, and
   * otherwise ends on whichever of the two the first such item sets,
   * `error` taking precedence.
   */
  lemma {:induction false} ConsumeEnding(items: seq<SseItem>)
    ensures Consume(items).ending == RanOut
        <==> forall i :: 0 <= i < |items| ==> !ErrorSet(items[i]) && !DoneSet(items[i])
    ensures Consume(items).ending == SawError <==> exists i :: FirstStopAt(items, i) && ErrorSet(items[i])
    ensures Consume(items).ending == SawDone <==> exists i :: FirstStopAt(items, i) && !ErrorSet(items[i])
  {
    if items != [] && !ErrorSet(items[0]) && !DoneSet(items[0]) {
      var rest := items[1..];
      ConsumeEnding(rest);
      forall i | 0 <= i < |rest|
        ensures FirstStopAt(rest, i) <==> FirstStopAt(items, i + 1)
      {
        assert forall j :: 0 <= j < i ==> rest[j] == items[j + 1];
      }
      if exists i :: FirstStopAt(items, i) {
        var i :| FirstStopAt(items, i);
        assert i != 0;
        assert FirstStopAt(rest, i - 1);
      }
    } else if items != [] {
      assert FirstStopAt(items, 0);
      forall i | FirstStopAt(items, i)
        ensures i == 0
      {
      }
    }
  }

  /** Once consumption has stopped, further items change nothing; otherwise it continues on them. */
  lemma {:induction false} ConsumeAppend(a: seq<SseItem>, b: seq<SseItem>)
    ensures Consume(a).ending != RanOut ==> Consume(a + b) == Consume(a)
    ensures Consume(a).ending == RanOut ==>
      Consume(a + b) == Consumed(Consume(a).text + Consume(b).text, Consume(b).ending)
  {
    if a == [] {
      assert a + b == b;
    } else {
      assert (a + b)[0] == a[0];
      assert (a + b)[1..] == a[1..] + b;
      ConsumeAppend(a[1..], b);
    }
  }

  /** Every item of every read, each read parsed on its own by `parseSSEChunk`. */
  function AllItems(received: seq<string>, decode: string -> Option<SseItem>): seq<SseItem> {
    if received == [] then []
    else AllItems(received[..|received| - 1], decode) + ParseParts(SplitParts(received[|received| - 1]), decode)
  }

  /** The answer text the stream delivered, and whether `handleSubmit` ends in its `catch` block. */
  datatype Streamed = Streamed(text: string, failed: bool)

  function StreamResult(r: FetchResult, decode: string -> Option<SseItem>): Streamed {
    match r
    case NetworkError => Streamed("", true)
    case Response(ok, _, hasBody, received, readFails) =>
      if !ok || !hasBody then Streamed("", true)
      else
        var c := Consume(AllItems(received, decode));
        Streamed(c.text, c.ending == SawError || (c.ending == RanOut && readFails))
  }

  predicate Present(s: Option<string>) { s.Some? && s.value != "" }

  class ChatPage {
    var messages: seq<Message>
    var isStreaming: bool

    constructor (messages: seq<Message>)
      ensures this.messages == messages && !isStreaming
    {
      this.messages, isStreaming := messages, false;
    }

    /** `setMessages((prev) => [...prev, { user, text }, { assistant, "" }])`. */
    method StartExchange(text: string)
      modifies this
      ensures messages == old(messages) + [Message(ChatRoute.User, text), Message(ChatRoute.Assistant, "")]
      ensures isStreaming == old(isStreaming)
    {
      messages := messages + [Message(ChatRoute.User, text), Message(ChatRoute.Assistant, "")];
    }

    /** The updater for one token: the last message becomes an assistant message with the token appended. */
    method AppendToken(token: string)
      requires |messages| > 0
      modifies this
      ensures |messages| == |old(messages)|
      ensures messages[..|messages| - 1] == old(messages)[..|old(messages)| - 1]
      ensures messages[|messages| - 1] == Message(ChatRoute.Assistant, old(messages)[|old(messages)| - 1].content + token)
      ensures isStreaming == old(isStreaming)
    {
      var last := messages[|messages| - 1];
      messages := messages[..|messages| - 1] + [Message(ChatRoute.Assistant, last.content + token)];
    }

    /** The `catch` updater: drop the last message only if it is an assistant message with empty content. */
    method DropEmptyAssistant()
      modifies this
      ensures old(messages) != [] && old(messages)[|old(messages)| - 1] == Message(ChatRoute.Assistant, "") ==>
        messages == old(messages)[..|old(messages)| - 1]
      ensures !(old(messages) != [] && old(messages)[|old(messages)| - 1] == Message(ChatRoute.Assistant, "")) ==>
        messages == old(messages)
      ensures isStreaming == old(isStreaming)
    {
      if messages != [] && messages[|messages| - 1] == Message(ChatRoute.Assistant, "") {
        messages := messages[..|messages| - 1];
      }
    }

    /**
     * The `for (const item of items)` loop over the items of one read:
     * an `error` item stops it as a throw, a `done` item as a break, and
     * every non-empty token is appended to the answer and to the last message.
     */
    method ConsumeItems(items: seq<SseItem>, soFar: string, ghost before: seq<Message>)
      returns (fullResponse: string, ending: Ending)
      requires messages == before + [Message(ChatRoute.Assistant, soFar)]
      modifies this
      ensures fullResponse == soFar + Consume(items).text && ending == Consume(items).ending
      ensures messages == before + [Message(ChatRoute.Assistant, fullResponse)]
      ensures isStreaming == old(isStreaming)
    {
      fullResponse, ending := soFar, RanOut;
      var i := 0;
      while i < |items|
        invariant 0 <= i <= |items|
        invariant messages == before + [Message(ChatRoute.Assistant, fullResponse)]
        invariant isStreaming == old(isStreaming)
        invariant Consume(items[..i]).ending == RanOut
        invariant fullResponse == soFar + Consume(items[..i]).text
      {
        var item := items[i];
        ConsumeAppend(items[..i], [item]);
        assert items[..i + 1] == items[..i] + [item];
        assert [item][1..] == [];
        if ErrorSet(item) || DoneSet(item) {
          ending := if ErrorSet(item) then SawError else SawDone;
          ConsumeAppend(items[..i + 1], items[i + 1..]);
          assert items[..i + 1] + items[i + 1..] == items;
          return;
        }
        if TokenSet(item) {
          fullResponse := fullResponse + item.token.value;
          AppendToken(item.token.value);
        }
        i := i + 1;
      }
      assert items[..i] == items;
    }

    /**
     * The `while (!done)` loop: parse each read on its own, stop at the
     * first `done`, fail on an `error` item or on a read that rejects.
     */
    method ReadStream(received: seq<string>, readFails: bool, decode: string -> Option<SseItem>, ghost before: seq<Message>)
      returns (fullResponse: string, failed: bool)
      requires messages == before + [Message(ChatRoute.Assistant, "")]
      modifies this
      ensures var c := Consume(AllItems(received, decode));
        fullResponse == c.text && failed == (c.ending == SawError || (c.ending == RanOut && readFails))
      ensures messages == before + [Message(ChatRoute.Assistant, fullResponse)]
      ensures isStreaming == old(isStreaming)
    {
      fullResponse := "";
      var ending := RanOut;
      var r := 0;
      while ending == RanOut && r < |received|
        invariant 0 <= r <= |received|
        invariant messages == before + [Message(ChatRoute.Assistant, fullResponse)]
        invariant isStreaming == old(isStreaming)
        invariant ending == RanOut ==> Consume(AllItems(received[..r], decode)) == Consumed(fullResponse, RanOut)
        invariant ending != RanOut ==> Consume(AllItems(received, decode)) == Consumed(fullResponse, ending)
        decreases |received| - r, if ending == RanOut then 1 else 0
      {
        var items := ParseSseChunk(received[r], decode);
        ghost var seen := AllItems(received[..r], decode);
        AllItemsSnoc(received, r, decode);
        ConsumeAppend(seen, items);
        fullResponse, ending := ConsumeItems(items, fullResponse, before);
        if ending != RanOut {
          StoppedStaysStopped(received, r + 1, decode);
        }
        r := r + 1;
      }
      if ending == RanOut {
        assert received[..r] == received;
      }
      failed := ending == SawError || (ending == RanOut && readFails);
    }

    /**
     * `handleSubmit(text)`: ignored without a document id or while streaming;
     * otherwise posts the previous messages as history and streams the answer.
     */
    method HandleSubmit(docId: Option<string>, text: string, session: Session, response: FetchResult,
                        decode: string -> Option<SseItem>)
      returns (request: Option<ChatRequest>, persisted: seq<ChatRow>)
      modifies this
      ensures !Present(docId) || old(isStreaming) ==>
        request == None && persisted == [] && messages == old(messages) && isStreaming == old(isStreaming)
      ensures Present(docId) && !old(isStreaming) ==>
        var s := if Present(session.accessToken) then StreamResult(response, decode) else Streamed("", true);
        var full, failed := s.text, s.failed;
        && !isStreaming
        && request == (if Present(session.accessToken) then Some(ChatRequest(docId.value, text, old(messages))) else None)
        && messages == old(messages) + [Message(ChatRoute.User, text)]
                       + (if failed && full == "" then [] else [Message(ChatRoute.Assistant, full)])
        && persisted == (if !failed && Present(session.userId) && full != "" then
                           [ChatRow(docId.value, session.userId.value, ChatRoute.User, text),
                            ChatRow(docId.value, session.userId.value, ChatRoute.Assistant, full)]
                         else [])
    {
      request, persisted := None, [];
      if !Present(docId) || isStreaming {
        return;
      }
      var history := messages;
      StartExchange(text);
      isStreaming := true;

      var full, failed := "", true;
      if Present(session.accessToken) {
        request := Some(ChatRequest(docId.value, text, history));
        match response
        case NetworkError =>
        case Response(ok, _, hasBody, received, readFails) =>
          if ok && hasBody {
            full, failed := ReadStream(received, readFails, decode, history + [Message(ChatRoute.User, text)]);
          }
      }
      assert Streamed(full, failed) == (if Present(session.accessToken) then StreamResult(response, decode) else Streamed("", true));

      if !failed {
        if Present(session.userId) && full != "" {
          persisted := [ChatRow(docId.value, session.userId.value, ChatRoute.User, text),
                        ChatRow(docId.value, session.userId.value, ChatRoute.Assistant, full)];
        }
      } else {
        DropEmptyAssistant();
      }
      isStreaming := false;
    }
  }

  /** Once the items read so far have stopped consumption, all the items do too, with the same result. */
  lemma {:induction false} StoppedStaysStopped(received: seq<string>, r: nat, decode: string -> Option<SseItem>)
    requires r <= |received|
    requires Consume(AllItems(received[..r], decode)).ending != RanOut
    ensures Consume(AllItems(received, decode)) == Consume(AllItems(received[..r], decode))
    decreases |received| - r
  {
    if r < |received| {
      AllItemsSnoc(received, r, decode);
      ConsumeAppend(AllItems(received[..r], decode), ParseParts(SplitParts(received[r]), decode));
      StoppedStaysStopped(received, r + 1, decode);
    } else {
      assert received[..r] == received;
    }
  }

  /** One more read contributes exactly the items `parseSSEChunk` finds in it. */
  lemma AllItemsSnoc(received: seq<string>, r: nat, decode: string -> Option<SseItem>)
    requires r < |received|
    ensures AllItems(received[..r + 1], decode) == AllItems(received[..r], decode) + ParseParts(SplitParts(received[r]), decode)
  {
    assert received[..r + 1][..r] == received[..r];
  }

  /** The strings of `ss`, back to back. */
  function Concat(ss: seq<string>): string {
    if ss == [] then "" else ss[0] + Concat(ss[1..])
  }

  /** Items that each carry only a token are all read, and their tokens concatenated. */
  lemma {:induction false} ConsumeTokenRun(texts: seq<string>, items: seq<SseItem>)
    requires |items| == |texts|
    requires forall j :: 0 <= j < |items| ==> items[j] == TokenItem(texts[j])
    ensures Consume(items) == Consumed(Concat(texts), RanOut)
  {
    if items != [] {
      ConsumeTokenRun(texts[1..], items[1..]);
    }
  }

  /** The items of `groups`, back to back. */
  function Flatten(groups: seq<seq<SseItem>>): seq<SseItem> {
    if groups == [] then [] else Flatten(groups[..|groups| - 1]) + groups[|groups| - 1]
  }

  /** The reads the page receives when the server's frames arrive in `groups`, one group per read. */
  function Reads(encode: SseItem -> string, groups: seq<seq<SseItem>>): seq<string> {
    seq(|groups|, i requires 0 <= i < |groups| => Serialize(encode, groups[i]))
  }

  /**
   * However the frames are grouped into reads, as long as no frame is
   * cut across two reads, parsing every read gives back every frame in order.
   */
  lemma {:induction false} AllItemsOfReads(encode: SseItem -> string, decode: string -> Option<SseItem>,
                                           groups: seq<seq<SseItem>>)
    requires forall e :: decode(encode(e)) == Some(e)
    requires forall e :: '\n' !in encode(e)
    ensures AllItems(Reads(encode, groups), decode) == Flatten(groups)
  {
    if groups != [] {
      var n := |groups| - 1;
      assert Reads(encode, groups)[..n] == Reads(encode, groups[..n]);
      AllItemsOfReads(encode, decode, groups[..n]);
      WireRoundTrip(encode, decode, groups[n]);
    }
  }

  /**
   * End to end: when the event stream of the chat route arrives in any
   * number of reads, each holding whole frames, the page's answer is the
   * model's text deltas concatenated, ending in `done` when the provider
   * stream completed and in the `catch` block when it failed.
   */
  lemma ReadingTheChatStream(encode: SseItem -> string, decode: string -> Option<SseItem>,
                             events: seq<ChatRoute.ProviderEvent>, fails: bool, groups: seq<seq<SseItem>>)
    requires forall e :: decode(encode(e)) == Some(e)
    requires forall e :: '\n' !in encode(e)
    requires Flatten(groups) == ChatRoute.TokensOf(events) + [if fails then ErrorItem(ChatRoute.StreamFailed) else DoneItem()]
    ensures Consume(AllItems(Reads(encode, groups), decode))
      == Consumed(Concat(ChatRoute.DeltaTexts(events)), if fails then SawError else SawDone)
    ensures forall readFails: bool ::
      StreamResult(Response(true, 200, true, Reads(encode, groups), readFails), decode)
        == Streamed(Concat(ChatRoute.DeltaTexts(events)), fails)
  {
    var tokens := ChatRoute.TokensOf(events);
    var last := if fails then ErrorItem(ChatRoute.StreamFailed) else DoneItem();
    AllItemsOfReads(encode, decode, groups);
    ChatRoute.TokensAreTextDeltas(events);
    ConsumeTokenRun(ChatRoute.DeltaTexts(events), tokens);
    ConsumeAppend(tokens, [last]);
    assert [last][1..] == [];
  }
}
