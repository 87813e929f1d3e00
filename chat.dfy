/**
 * The embeddable chat assistant (artverse-archive/public/ChatWidget.js, class
 * NFTChatWidget): an open/closed panel, the conversation, and the one request
 * to the assistant webhook that may be in flight. `sendMessage` is split into
 * the call that posts the question and the completion that delivers the
 * webhook's outcome; the DOM is replaced by the state it shows.
 */
module ChatWidget {
  import opened Wrappers
  import opened Text

  const Greeting: string :=
    "Hi! I'm Sharon AI, your NFT assistant. I have access to your database and can help you find information about NFTs currently available. What would you like to know?"
  const UnprocessedReply: string := "I received your message but couldn't process it properly."
  const ErrorReply: string := "Sorry, I encountered an error processing your request. Please try again."
  const SessionId: string := "nft-chat-widget-session"
  const DefaultImageAlt: string := "NFT Image"
  const DefaultLinkTitle: string := "View NFT"

  datatype Sender = User | Ai

  /** An entry of a reply's `media` list, as the webhook sends it. */
  datatype MediaItem = MediaItem(kind: string, url: string, title: Option<string>, description: Option<string>)

  /** A bubble of the conversation; messages without media carry `[]`. */
  datatype ChatMessage = ChatMessage(content: string, sender: Sender, media: seq<MediaItem>)

  /** The JSON body posted to the webhook (its timestamp is not modelled). */
  datatype WebhookRequest = WebhookRequest(message: string, sessionId: string)

  /**
   * How the webhook call ended: `Failed` when `fetch` rejected, the status was
   * not ok, or the body was not JSON or was `null`; any other JSON value is
   * `Replied` with the fields it has (none for a string, a number or an array).
   */
  datatype WebhookOutcome =
    | Failed
    | Replied(message: Option<string>, text: Option<string>, media: Option<seq<MediaItem>>)

  /**
   * The assistant's bubble for an outcome: the reply's `message`, else its
   * `text`, else a stock apology for an unusable body; a failure gets the error
   * bubble without media.
   */
  function Reply(outcome: WebhookOutcome): (m: ChatMessage)
    ensures m.sender == Ai && m.content != ""
    ensures outcome.Failed? ==> m == ChatMessage(ErrorReply, Ai, [])
    ensures outcome.Replied? ==>
      && (Truthy(outcome.message) ==> m.content == outcome.message.value)
      && (!Truthy(outcome.message) && Truthy(outcome.text) ==> m.content == outcome.text.value)
      && (!Truthy(outcome.message) && !Truthy(outcome.text) ==> m.content == UnprocessedReply)
      && m.media == outcome.media.GetOr([])
  {
    match outcome
    case Failed => ChatMessage(ErrorReply, Ai, [])
    case Replied(message, text, media) =>
      ChatMessage(Or(message, Or(text, UnprocessedReply)), Ai, media.GetOr([]))
  }

  /** What one media entry shows: an image, a link card, or nothing for any other type. */
  datatype MediaView =
    | ImageView(src: string, alt: string)
    | LinkView(href: string, title: string, description: Option<string>)

  /** The media strip under a bubble: absent for an empty list, else the views in order. */
  datatype MediaPanel = NoPanel | Panel(views: seq<MediaView>)

  predicate Shown(item: MediaItem) {
    item.kind == "image" || item.kind == "link"
  }

  /** The view of one entry; captions fall back to a default when the title is missing or empty. */
  function ViewOf(item: MediaItem): (v: Option<MediaView>)
    ensures v.Some? <==> Shown(item)
    ensures item.kind == "image" ==> v == Some(ImageView(item.url, Or(item.title, DefaultImageAlt)))
    ensures item.kind == "link" ==>
      v == Some(LinkView(item.url, Or(item.title, DefaultLinkTitle),
                         if Truthy(item.description) then item.description else None))
    ensures v.Some? && v.value.ImageView? ==> v.value.alt != ""
    ensures v.Some? && v.value.LinkView? ==> v.value.title != "" && (v.value.description.Some? ==> v.value.description.value != "")
  {
    if item.kind == "image" then
      Some(ImageView(item.url, Or(item.title, DefaultImageAlt)))
    else if item.kind == "link" then
      Some(LinkView(item.url, Or(item.title, DefaultLinkTitle), if Truthy(item.description) then item.description else None))
    else
      None
  }

  /** The views of the entries, in list order, skipping the entries nothing is shown for. */
  function ViewsOf(items: seq<MediaItem>): seq<MediaView> {
    if items == [] then []
    else
      var last := items[|items| - 1];
      ViewsOf(items[..|items| - 1]) + (if Shown(last) then [ViewOf(last).value] else [])
  }

  /** How many entries are shown. */
  function ShownCount(items: seq<MediaItem>): nat {
    if items == [] then 0 else ShownCount(items[..|items| - 1]) + (if Shown(items[|items| - 1]) then 1 else 0)
  }

  /** `renderMedia`: the panel for a message's media, entry by entry. */
  method RenderMedia(media: seq<MediaItem>) returns (panel: MediaPanel)
    ensures media == [] <==> panel.NoPanel?
    ensures panel.Panel? ==> panel.views == ViewsOf(media)
  {
    if |media| == 0 {
      return NoPanel;
    }
    var views: seq<MediaView> := [];
    var i := 0;
    while i < |media|
      invariant 0 <= i <= |media|
      invariant views == ViewsOf(media[..i])
    {
      var item := media[i];
      assert media[..i + 1][..i] == media[..i];
      if item.kind == "image" {
        views := views + [ImageView(item.url, Or(item.title, DefaultImageAlt))];
      } else if item.kind == "link" {
        var description := if Truthy(item.description) then item.description else None;
        views := views + [LinkView(item.url, Or(item.title, DefaultLinkTitle), description)];
      }
      i := i + 1;
    }
    assert media[..i] == media;
    return Panel(views);
  }

  /** The views of a list followed by more entries are the views of each part, in turn. */
  lemma {:induction false} ViewsOfAppend(a: seq<MediaItem>, b: seq<MediaItem>)
    ensures ViewsOf(a + b) == ViewsOf(a) + ViewsOf(b)
    decreases |b|
  {
    if b == [] {
      assert a + b == a;
    } else {
      var b' := b[..|b| - 1];
      ViewsOfAppend(a, b');
      assert (a + b)[..|a + b| - 1] == a + b';
    }
  }

  /**
   * One view per shown entry, and every view is the view of an entry: no entry
   * is shown twice and none is invented.
   */
  lemma {:induction false} ViewsAreShownEntries(items: seq<MediaItem>)
    ensures |ViewsOf(items)| == ShownCount(items)
    ensures forall v :: v in ViewsOf(items) ==> exists i :: 0 <= i < |items| && Shown(items[i]) && ViewOf(items[i]) == Some(v)
  {
    if items != [] {
      var init := items[..|items| - 1];
      ViewsAreShownEntries(init);
      forall v | v in ViewsOf(items)
        ensures exists i :: 0 <= i < |items| && Shown(items[i]) && ViewOf(items[i]) == Some(v)
      {
        if v in ViewsOf(init) {
          var i :| 0 <= i < |init| && Shown(init[i]) && ViewOf(init[i]) == Some(v);
          assert items[i] == init[i];
        } else {
          assert ViewOf(items[|items| - 1]) == Some(v);
        }
      }
    }
  }

  /** A list of nothing but unknown entry types still opens an (empty) panel. */
  lemma UnknownKindsGiveEmptyPanel(items: seq<MediaItem>)
    requires items != [] && forall i :: 0 <= i < |items| ==> !Shown(items[i])
    ensures ViewsOf(items) == []
  {
    if |items| > 1 {
      UnknownKindsGiveEmptyPanel(items[..|items| - 1]);
    }
  }

  /** Who speaks at position `i` of a well-formed conversation: the assistant first, then turn about. */
  function SpeakerAt(i: nat): Sender {
    if i % 2 == 1 then User else Ai
  }

  /** The greeting opens the conversation, and questions and answers then alternate. */
  predicate Alternates(messages: seq<ChatMessage>) {
    && |messages| >= 1
    && messages[0] == ChatMessage(Greeting, Ai, [])
    && forall i :: 1 <= i < |messages| ==> messages[i].sender == SpeakerAt(i)
  }

  /** A message from whoever's turn it is keeps the conversation alternating. */
  lemma AlternatesAppend(messages: seq<ChatMessage>, m: ChatMessage)
    requires Alternates(messages) && m.sender == SpeakerAt(|messages|)
    ensures Alternates(messages + [m])
  {
    var longer := messages + [m];
    forall i | 1 <= i < |longer| ensures longer[i].sender == SpeakerAt(i) {
      if i < |messages| {
        assert longer[i] == messages[i];
      }
    }
  }

  class NFTChatWidget {
    var isOpen: bool
    var isLoading: bool
    var messages: seq<ChatMessage>

    /** The conversation alternates, and a request is in flight exactly when the last message is a question. */
    ghost predicate Valid()
      reads this
    {
      Alternates(messages) && (isLoading <==> |messages| % 2 == 0)
    }

    /** A closed widget, nothing in flight, and only the greeting. */
    constructor()
      ensures Valid()
      ensures !isOpen && !isLoading && messages == [ChatMessage(Greeting, Ai, [])]
    {
      isOpen := false;
      isLoading := false;
      messages := [ChatMessage(Greeting, Ai, [])];
    }

    /** `toggleWidget`: the floating button opens a closed panel and closes an open one. */
    method ToggleWidget()
      requires Valid()
      modifies this
      ensures Valid()
      ensures isOpen == !old(isOpen)
      ensures isLoading == old(isLoading) && messages == old(messages)
    {
      isOpen := !isOpen;
    }

    /** `closeWidget`: the header's close button. */
    method CloseWidget()
      requires Valid()
      modifies this
      ensures Valid()
      ensures !isOpen
      ensures isLoading == old(isLoading) && messages == old(messages)
    {
      isOpen := false;
    }

    /**
     * The first half of `sendMessage`: a non-blank input, with no request in
     * flight, is added as the user's bubble and posted, trimmed, to the webhook.
     */
    method BeginSend(input: string) returns (request: Option<WebhookRequest>)
      requires Valid()
      modifies this
      ensures Valid()
      ensures request.Some? <==> Trim(input) != "" && !old(isLoading)
      ensures request.Some? ==>
        && request.value == WebhookRequest(Trim(input), SessionId)
        && messages == old(messages) + [ChatMessage(Trim(input), User, [])]
        && isLoading
      ensures request.None? ==> messages == old(messages) && isLoading == old(isLoading)
      ensures isOpen == old(isOpen)
    {
      var message := Trim(input);
      if message == "" || isLoading {
        return None;
      }
      AlternatesAppend(messages, ChatMessage(message, User, []));
      messages := messages + [ChatMessage(message, User, [])];
      isLoading := true;
      request := Some(WebhookRequest(message, SessionId));
    }

    /** The rest of `sendMessage`: the answer (or the error bubble) is added and loading stops. */
    method CompleteSend(outcome: WebhookOutcome)
      requires Valid() && isLoading
      modifies this
      ensures Valid()
      ensures messages == old(messages) + [Reply(outcome)] && !isLoading
      ensures isOpen == old(isOpen)
    {
      AlternatesAppend(messages, Reply(outcome));
      messages := messages + [Reply(outcome)];
      isLoading := false;
    }
  }

  /**
   * A question padded with blanks is sent trimmed; a second question while the
   * first is in flight is ignored; a failed call is answered by the error bubble.
   */
  method ConversationScenario(question: string, other: string)
    requires question != [] && !IsSpace(question[0]) && !IsSpace(question[|question| - 1])
  {
    var widget := new NFTChatWidget();
    widget.ToggleWidget();
    TrimPadded("  ", question, "\n");
    var first := widget.BeginSend("  " + question + "\n");
    assert first == Some(WebhookRequest(question, SessionId));
    var second := widget.BeginSend(other);
    assert second.None?;
    widget.CompleteSend(Failed);
    assert widget.messages ==
      [ChatMessage(Greeting, Ai, []), ChatMessage(question, User, []), ChatMessage(ErrorReply, Ai, [])];
    assert widget.isOpen && !widget.isLoading;
  }
}
