/** The sealed `InputMedia` hierarchy: five attachment variants, the type tag each
    one derives from its variant, and the `GroupableMedia` marker. */
module Media {
  import opened Wrappers
  import opened Files

  /** Kotlin's `Int`. The model only carries these values, so the range is all it needs. */
  newtype int32 = x: int | -0x8000_0000 <= x < 0x8000_0000

  /** The constants of `InputMediaTypes`. Their string values are not part of this model;
      they are five distinct constants. */
  datatype MediaType = PHOTO | VIDEO | ANIMATION | AUDIO | DOCUMENT

  /** One attachment. Every variant has `media`, `caption` and `parseMode`; the rest are
      the variant's own optional fields. There is no `type` field: the tag is `TypeOf`. */
  datatype InputMedia =
    | Photo(media: TelegramFile, caption: Option<string>, parseMode: Option<string>)
    | Video(media: TelegramFile, caption: Option<string>, parseMode: Option<string>,
            thumb: Option<RawFileReference>, width: Option<int32>, height: Option<int32>,
            duration: Option<int32>, supportsStreaming: Option<bool>)
    | Animation(media: TelegramFile, caption: Option<string>, parseMode: Option<string>,
                thumb: Option<RawFileReference>, width: Option<int32>, height: Option<int32>,
                duration: Option<int32>)
    | Audio(media: TelegramFile, caption: Option<string>, parseMode: Option<string>,
            thumb: Option<RawFileReference>, duration: Option<int32>,
            performer: Option<string>, title: Option<string>)
    | Document(media: TelegramFile, caption: Option<string>, parseMode: Option<string>,
               thumb: Option<RawFileReference>)

  /** The `type` getter each variant overrides. */
  function TypeOf(m: InputMedia): MediaType
  {
    match m
    case Photo(_, _, _) => PHOTO
    case Video(_, _, _, _, _, _, _, _) => VIDEO
    case Animation(_, _, _, _, _, _, _) => ANIMATION
    case Audio(_, _, _, _, _, _, _) => AUDIO
    case Document(_, _, _, _) => DOCUMENT
  }

  /** Two attachments are built by the same constructor, whatever their fields. */
  predicate SameVariant(a: InputMedia, b: InputMedia)
  {
    && a.Photo? == b.Photo?
    && a.Video? == b.Video?
    && a.Animation? == b.Animation?
    && a.Audio? == b.Audio?
    && a.Document? == b.Document?
  }

  /** Each variant has its own tag, and each tag belongs to exactly one variant. */
  lemma TypeTagPerVariant(m: InputMedia)
    ensures m.Photo? <==> TypeOf(m) == PHOTO
    ensures m.Video? <==> TypeOf(m) == VIDEO
    ensures m.Animation? <==> TypeOf(m) == ANIMATION
    ensures m.Audio? <==> TypeOf(m) == AUDIO
    ensures m.Document? <==> TypeOf(m) == DOCUMENT
  {
  }

  /** The tag depends on the variant and on nothing else: two attachments share a tag
      exactly when they are of the same variant, whatever their field values. */
  lemma TypeTagIgnoresFields(a: InputMedia, b: InputMedia)
    ensures TypeOf(a) == TypeOf(b) <==> SameVariant(a, b)
  {
  }

  /** The variants that implement `GroupableMedia`. */
  predicate IsGroupable(m: InputMedia)
  {
    m.Photo? || m.Video? || m.Audio? || m.Document?
  }

  /** Animation is the one variant that cannot be put in a group. */
  lemma GroupableIffNotAnimation(m: InputMedia)
    ensures IsGroupable(m) <==> !m.Animation?
    ensures IsGroupable(m) <==> TypeOf(m) != ANIMATION
  {
  }

  /** A value of the Kotlin interface type `GroupableMedia`. */
  type GroupableMedia = m: InputMedia | IsGroupable(m) witness Photo(ByFileId(""), None, None)

  /** A value of the Kotlin class `InputMediaPhoto`. */
  type InputMediaPhoto = m: InputMedia | m.Photo? witness Photo(ByFileId(""), None, None)

  /** A value of the Kotlin class `InputMediaVideo`. */
  type InputMediaVideo = m: InputMedia | m.Video?
    witness Video(ByFileId(""), None, None, None, None, None, None, None)
}
