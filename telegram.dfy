/** The Telegram payloads the bridge reads. The Bot API hands them over as loosely
    typed JSON dictionaries; here each key the bridge consults is an explicit field,
    and a key that may be missing is an Option. */
module Telegram {
  import opened Optional

  /** The media keys the bridge looks for when a message has no text. */
  datatype MediaKind = Photo | Video | Audio | Sticker | Contact | Location | Venue | Voice | Game | Document

  /** The key of a media kind in a Telegram message. */
  function KindName(kind: MediaKind): string {
    match kind
    case Photo => "photo"
    case Video => "video"
    case Audio => "audio"
    case Sticker => "sticker"
    case Contact => "contact"
    case Location => "location"
    case Venue => "venue"
    case Voice => "voice"
    case Game => "game"
    case Document => "document"
  }

  /** The order in which the media keys are tried. */
  const MediaOrder: seq<MediaKind> :=
    [Photo, Video, Audio, Sticker, Contact, Location, Venue, Voice, Game, Document]

  /** The position of a kind in MediaOrder. */
  function Rank(kind: MediaKind): (r: nat)
    ensures r < |MediaOrder| && MediaOrder[r] == kind
  {
    match kind
    case Photo => 0
    case Video => 1
    case Audio => 2
    case Sticker => 3
    case Contact => 4
    case Location => 5
    case Venue => 6
    case Voice => 7
    case Game => 8
    case Document => 9
  }

  lemma RankOfOrder()
    ensures forall i :: 0 <= i < |MediaOrder| ==> Rank(MediaOrder[i]) == i
  {
  }

  /** The object found under a media key: whether Python finds it truthy (a non-empty
      list or dictionary), and its scalar fields, each as the text `str` gives it. */
  datatype Payload = Payload(truthy: bool, fields: map<string, string>)

  /** The `from` object of a message. */
  datatype User = User(id: Option<int>, firstName: Option<string>, lastName: Option<string>, username: Option<string>)

  /** The `chat` object of a message; an empty object reads like one without an id. */
  datatype Chat = Chat(id: Option<int>)

  /** A Telegram message: its text, its chat, its author (`from`) and the media keys present. */
  datatype Message = Message(text: Option<string>, chat: Option<Chat>, sender: Option<User>, media: map<MediaKind, Payload>)

  /** One entry of the update feed: its update id and the message it carries. */
  datatype Update = Update(id: int, message: Message)
}
