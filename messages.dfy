/**
 * The shape of an inbound chat message as the socket library delivers it in a
 * `messages.upsert` batch, reduced to the fields the core reads. An empty string
 * stands for a field that is absent, null or empty: the source only ever tests
 * these fields for truthiness.
 */
module Messages {
  import opened Wrappers

  /** message.key */
  datatype MessageKey = MessageKey(remoteJid: string, participant: string, fromMe: bool)

  /** message.message: the plain `conversation` text and `extendedTextMessage.text`. */
  datatype Content = Content(conversation: string, extendedText: string)

  datatype Message = Message(key: Option<MessageKey>, content: Option<Content>, pushName: string)

  /** Text extraction of the query bot: conversation, else extended text, else ''. */
  function QueryText(c: Option<Content>): string {
    match c
    case None => ""
    case Some(m) => if m.conversation != "" then m.conversation else m.extendedText
  }

  const NonTextMarker: string := "[Non-text message]"

  /** Text extraction of the group listener: as above, but a message without text becomes the marker. */
  function ListingText(c: Option<Content>): string {
    match c
    case None => ""
    case Some(m) =>
      if m.conversation != "" then m.conversation
      else if m.extendedText != "" then m.extendedText
      else NonTextMarker
  }

  /** The two extractions agree on every message that carries text. */
  lemma ListingTextAgrees(c: Option<Content>)
    ensures QueryText(c) != "" ==> ListingText(c) == QueryText(c)
    ensures c.Some? && QueryText(c) == "" ==> ListingText(c) == NonTextMarker
    ensures c.None? ==> ListingText(c) == ""
  {
  }
}
