/** Turning a Telegram message into one line of text and an author name
    (plugin.py, `_tg_repr_message` and the helpers it calls, and `_tg_user_repr`). */
module Translation {
  import opened Optional
  import opened Text
  import opened Telegram

  /** A field as `str.format` renders what `dict.get` returns: the value, or "None" when the key is missing. */
  function FieldText(p: Payload, key: string): string {
    if key in p.fields then p.fields[key] else "None"
  }

  function Angled(s: string): string {
    "<" + s + ">"
  }

  /** `"<sticker {}>".format(sticker.get("emoji"))`. */
  function StickerText(p: Payload): (r: string)
    ensures "emoji" in p.fields ==> r == "<sticker " + p.fields["emoji"] + ">"
    ensures "emoji" !in p.fields ==> r == "<sticker None>"
  {
    Angled("sticker " + FieldText(p, "emoji"))
  }

  /** The Google Maps link for a place, centred on it at zoom level 17. */
  function MapsLink(lat: string, lon: string): string {
    "http://www.google.com/maps/place/" + lat + "," + lon + "/@" + lat + "," + lon + ",17z"
  }

  /** `_tg_repr_location`: the place's link, with "None" for a missing coordinate. */
  function LocationText(p: Payload): (r: string)
    ensures "latitude" in p.fields && "longitude" in p.fields ==>
              r == Angled("location " + MapsLink(p.fields["latitude"], p.fields["longitude"]))
    ensures "latitude" !in p.fields ==> r == Angled("location " + MapsLink("None", FieldText(p, "longitude")))
    ensures "longitude" !in p.fields ==> r == Angled("location " + MapsLink(FieldText(p, "latitude"), "None"))
  {
    Angled("location " + MapsLink(FieldText(p, "latitude"), FieldText(p, "longitude")))
  }

  /** `_tg_repr_contact`: first name, last name and phone number, separated by single
      spaces, each "None" when missing. */
  function ContactText(p: Payload): (r: string)
    ensures "first_name" in p.fields && "last_name" in p.fields && "phone_number" in p.fields ==>
              r == "<contact " + p.fields["first_name"] + " " + p.fields["last_name"] + " "
                   + p.fields["phone_number"] + ">"
    ensures "first_name" !in p.fields ==>
              r == "<contact " + "None" + " " + FieldText(p, "last_name") + " " + FieldText(p, "phone_number") + ">"
    ensures "last_name" !in p.fields ==>
              r == "<contact " + FieldText(p, "first_name") + " " + "None" + " " + FieldText(p, "phone_number") + ">"
    ensures "phone_number" !in p.fields ==>
              r == "<contact " + FieldText(p, "first_name") + " " + FieldText(p, "last_name") + " " + "None" + ">"
    ensures "first_name" !in p.fields && "last_name" !in p.fields && "phone_number" !in p.fields ==>
              r == "<contact None None None>"
  {
    "<contact " + FieldText(p, "first_name") + " " + FieldText(p, "last_name") + " " + FieldText(p, "phone_number") + ">"
  }

  /** The placeholder shown for a media payload of the given kind. */
  function MediaText(kind: MediaKind, p: Payload): (r: string)
    ensures 2 <= |r| && r[0] == '<' && r[|r| - 1] == '>'
    ensures kind != Sticker && kind != Location && kind != Contact ==> r == "<" + KindName(kind) + ">"
  {
    match kind
    case Sticker => StickerText(p)
    case Location => LocationText(p)
    case Contact => ContactText(p)
    case _ => Angled(KindName(kind))
  }

  /** The payload fields a placeholder may show. */
  const ShownFields: set<string> := {"emoji", "latitude", "longitude", "first_name", "last_name", "phone_number"}

  /** A placeholder depends on nothing but the kind and the shown fields: neither the
      truthiness flag nor any other field of the payload changes it. */
  lemma MediaTextReadsShownFields(kind: MediaKind, p: Payload, q: Payload)
    requires forall key :: key in ShownFields ==> FieldText(p, key) == FieldText(q, key)
    ensures MediaText(kind, p) == MediaText(kind, q)
  {
    assert "emoji" in ShownFields && "latitude" in ShownFields && "longitude" in ShownFields;
    assert "first_name" in ShownFields && "last_name" in ShownFields && "phone_number" in ShownFields;
  }

  /** Missing fields are shown as Python's None, not as empty text. */
  lemma MissingFieldsShowNone(p: Payload)
    requires p.fields == map[]
    ensures MediaText(Sticker, p) == "<sticker None>"
    ensures MediaText(Contact, p) == "<contact None None None>"
    ensures MediaText(Location, p) == Angled("location " + MapsLink("None", "None"))
  {
    assert FieldText(p, "emoji") == "None" && FieldText(p, "phone_number") == "None";
    assert FieldText(p, "first_name") == "None" && FieldText(p, "last_name") == "None";
  }

  /** A scenario: a sticker carrying an emoji is shown as that emoji. */
  lemma StickerShowsEmoji(emoji: string)
    ensures MediaText(Sticker, Payload(true, map["emoji" := emoji])) == "<sticker " + emoji + ">"
  {
  }

  /** A scenario: a contact carrying all three fields shows them in order. */
  lemma ContactShowsFields(first: string, last: string, phone: string)
    ensures MediaText(Contact, Payload(true, map["first_name" := first, "last_name" := last, "phone_number" := phone]))
            == "<contact " + first + " " + last + " " + phone + ">"
  {
    var p := Payload(true, map["first_name" := first, "last_name" := last, "phone_number" := phone]);
    assert p.fields["first_name"] == first && p.fields["last_name"] == last && p.fields["phone_number"] == phone;
  }

  /** A scenario: the usual contact, with a first name and a phone number but no last
      name, shows "None" in the last name's place. */
  lemma ContactWithoutLastName(first: string, phone: string)
    ensures MediaText(Contact, Payload(true, map["first_name" := first, "phone_number" := phone]))
            == "<contact " + first + " " + "None" + " " + phone + ">"
  {
    var p := Payload(true, map["first_name" := first, "phone_number" := phone]);
    assert p.fields["first_name"] == first && p.fields["phone_number"] == phone && "last_name" !in p.fields;
  }

  /** A scenario: a location carrying both coordinates links to that place, each
      coordinate appearing twice in the link. */
  lemma LocationShowsCoordinates(lat: string, lon: string)
    ensures MediaText(Location, Payload(true, map["latitude" := lat, "longitude" := lon]))
            == "<location " + MapsLink(lat, lon) + ">"
  {
    var p := Payload(true, map["latitude" := lat, "longitude" := lon]);
    assert p.fields["latitude"] == lat && p.fields["longitude"] == lon;
    var link := MapsLink(lat, lon);
    assert MediaText(Location, p) == "<" + ("location " + link) + ">";
  }

  /** Every kind without a template of its own is shown as its bare key, whatever its
      payload holds. */
  lemma PlainKindsShowName(p: Payload)
    ensures MediaText(Photo, p) == "<photo>" && MediaText(Video, p) == "<video>"
    ensures MediaText(Audio, p) == "<audio>" && MediaText(Venue, p) == "<venue>"
    ensures MediaText(Voice, p) == "<voice>" && MediaText(Game, p) == "<game>"
    ensures MediaText(Document, p) == "<document>"
  {
    assert Angled("photo") == "<photo>" && Angled("video") == "<video>";
    assert Angled("audio") == "<audio>" && Angled("venue") == "<venue>";
    assert Angled("voice") == "<voice>" && Angled("game") == "<game>";
    assert Angled("document") == "<document>";
  }

  /** Whether a media key is present and its payload truthy. */
  predicate Shown(media: map<MediaKind, Payload>, kind: MediaKind) {
    kind in media && media[kind].truthy
  }

  /** The placeholder of the first shown kind of `kinds`, or "" when none is shown. */
  function FirstShownText(media: map<MediaKind, Payload>, kinds: seq<MediaKind>): (r: string)
    ensures r == "" <==> forall i :: 0 <= i < |kinds| ==> !Shown(media, kinds[i])
    ensures forall i :: 0 <= i < |kinds| && Shown(media, kinds[i]) && (forall j :: 0 <= j < i ==> !Shown(media, kinds[j]))
                        ==> r == MediaText(kinds[i], media[kinds[i]])
    decreases |kinds|
  {
    if kinds == [] then ""
    else if Shown(media, kinds[0]) then MediaText(kinds[0], media[kinds[0]])
    else FirstShownText(media, kinds[1..])
  }

  /** The text of a message without text: the placeholder of the first shown kind in
      the fixed order photo, video, audio, sticker, contact, location, venue, voice,
      game, document; later kinds are ignored, and the result is "" when none is shown. */
  function NonTextRepr(media: map<MediaKind, Payload>): (r: string)
    ensures r == "" <==> forall kind :: !Shown(media, kind)
    ensures forall kind :: Shown(media, kind) && (forall other :: Rank(other) < Rank(kind) ==> !Shown(media, other))
                           ==> r == MediaText(kind, media[kind])
  {
    FirstShownInOrder(media);
    FirstShownText(media, MediaOrder)
  }

  lemma FirstShownInOrder(media: map<MediaKind, Payload>)
    ensures FirstShownText(media, MediaOrder) == "" <==> forall kind :: !Shown(media, kind)
    ensures forall kind :: Shown(media, kind) && (forall other :: Rank(other) < Rank(kind) ==> !Shown(media, other))
                           ==> FirstShownText(media, MediaOrder) == MediaText(kind, media[kind])
  {
    RankOfOrder();
    var r := FirstShownText(media, MediaOrder);
    if r == "" {
      forall kind ensures !Shown(media, kind) {
        assert MediaOrder[Rank(kind)] == kind;
      }
    }
    forall kind | Shown(media, kind) && (forall other :: Rank(other) < Rank(kind) ==> !Shown(media, other))
      ensures r == MediaText(kind, media[kind])
    {
      var i := Rank(kind);
      forall j | 0 <= j < i ensures !Shown(media, MediaOrder[j]) {
        assert Rank(MediaOrder[j]) == j;
      }
    }
  }

  predicate HasText(m: Message) {
    m.text.Some? && m.text.value != ""
  }

  /** The text relayed for a message: its text verbatim when present and non-empty,
      otherwise the media placeholder, or "" when there is neither. */
  function MessageText(m: Message): (r: string)
    ensures HasText(m) ==> r == m.text.value
    ensures !HasText(m) ==> r == NonTextRepr(m.media)
    ensures !HasText(m) ==> (r == "" <==> forall kind :: !Shown(m.media, kind))
  {
    if HasText(m) then m.text.value else NonTextRepr(m.media)
  }

  /** `str(user_id)` where a missing id reads "??". */
  function IdText(id: Option<int>): string {
    match id
    case None => "??"
    case Some(n) => IntToDecimal(n)
  }

  /** The first name, or the id's text when there is none. */
  function GivenName(u: User): string {
    match u.firstName
    case Some(f) => f
    case None => IdText(u.id)
  }

  /** The last name, or "" when there is none. */
  function FamilyName(u: User): string {
    match u.lastName
    case Some(l) => l
    case None => ""
  }

  /** The name a Telegram author is shown under on IRC. */
  function DisplayName(u: User): (name: string)
    ensures u.username.Some? ==> name == u.username.value
    ensures u.username.None? ==> name == GivenName(u) + FamilyName(u)
  {
    match u.username
    case Some(handle) => handle
    case None => GivenName(u) + FamilyName(u)
  }

  /** The author's id (None standing for "??") and display name. The two agree: an
      author with no username and no names is shown under a name that reads back as
      the returned id, so the id compared with the bot's is the one shown on IRC. */
  function UserRepr(u: User): (r: (Option<int>, string))
    ensures r.0 == u.id && r.1 == DisplayName(u)
    ensures u.username.None? && u.firstName.None? && u.lastName.None? ==> ParseInt(r.1) == r.0
  {
    if u.username.None? && u.firstName.None? && u.lastName.None? then
      AnonymousNameIsId(u);
      (u.id, DisplayName(u))
    else
      (u.id, DisplayName(u))
  }

  /** An author with neither username nor names is shown under the text of its id, which
      reads back as that id; a missing id is shown as "??", which reads as no number. */
  lemma AnonymousNameIsId(u: User)
    requires u.username.None? && u.firstName.None? && u.lastName.None?
    ensures ParseInt(DisplayName(u)) == u.id
  {
    if u.id.Some? {
      IntDecimalRoundTrip(u.id.value);
      assert GivenName(u) == IntToDecimal(u.id.value) && FamilyName(u) == "";
      assert DisplayName(u) == IntToDecimal(u.id.value);
    } else {
      assert DisplayName(u) == "??";
    }
  }
}
