# InputMedia attachments in Dafny

A model of the media-attachment types of kotlin-telegram-bot, the Telegram Bot API
"InputMedia" objects (https://core.telegram.org/bots/api#inputmedia):

- `files.dfy`, module `Files`: the file reference `TelegramFile`. It has four kinds:
  `ByFileId`, `ByUrl`, `ByFile` (a local file) and `ByOther`, which stands for every other
  reference kind the library has. A thumbnail may only be a `ByFile`, so thumbnails use
  the subset type `RawFileReference`.
- `media.dfy`, module `Media`: the sealed `InputMedia` hierarchy as one datatype with five
  variants: Photo, Video, Animation, Audio and Document. It also holds:
  - the `type` getter, `TypeOf`, which is derived from the variant and is not a stored field;
  - the `GroupableMedia` marker interface, as the predicate `IsGroupable` and a subset type;
  - subset types for the classes `InputMediaPhoto` and `InputMediaVideo`.
- `media_group.dfy`, module `MediaGroups`: `MediaGroup`. Its private constructor checks the
  size, so `MediaGroup` is a subset type that only admits 2 to 10 members. `MediaGroup.from` is
  `From`, which returns `Result`. The thrown `IllegalArgumentException` becomes
  `Failure(IllegalArgument(message))`.
- `json.dfy`, module `Json`: Gson's `JsonObject` as an insertion-ordered list of key/value
  properties. `addProperty` is `Put`: re-adding a key replaces its value in place, and a new key
  goes at the end.
- `serialization.dfy`, module `Serialization`: the hand-written `toString` of
  `InputMediaPhoto` and `InputMediaVideo`. It covers:
  - `MediaValue`, the string put under `media`;
  - `PhotoToJson` and `VideoToJson`, the property lists those methods build before rendering.
- `wrappers.dfy`, module `Wrappers`: `Option` stands for Kotlin nullables; `Result` stands for
  the throwing constructor.

The string values of the `InputMediaTypes` constants are not part of this model. They are five
distinct constants of the datatype `MediaType`. In the JSON output they appear as
`TypeConstant(t)`, while every other value is `Text(s)`. Kotlin `Int` fields are the
newtype `int32`. Their values are only carried, never computed with.

Where the behaviour of the code differs from what the Bot API documentation suggests,
the model follows the code:
- A `ByFile` reference, or any other reference that is not an id or a url, serialises its
  `media` as the empty string. No upload placeholder is produced, so two different local
  files give the same value (`UnresolvedReferencesCollide`).
- `media` is empty not only for those references but also for an empty file id or url. So
  "non-empty exactly for ids and urls" holds only for non-empty ids and urls
  (`MediaValueEmptyIff`).
- `InputMediaVideo.toString` emits only `media` and `type`. It drops the caption, the parse
  mode and every video-specific field. `InputMediaPhoto.toString` drops the parse mode.

## Model

| member | source | states |
|---|---|---|
| Media.TypeTagPerVariant | telegram/src/main/kotlin/com/github/kotlintelegrambot/entities/inputmedia/InputMedia.kt:45-136 | each variant's `type` getter gives its own constant (PHOTO, VIDEO, ANIMATION, AUDIO, DOCUMENT), and each constant belongs to exactly one variant |
| Media.TypeTagIgnoresFields | telegram/src/main/kotlin/com/github/kotlintelegrambot/entities/inputmedia/InputMedia.kt:11-16 | two attachments have the same `type` exactly when they are the same variant, whatever their field values; the caller cannot set the tag |
| Media.GroupableIffNotAnimation | telegram/src/main/kotlin/com/github/kotlintelegrambot/entities/inputmedia/InputMedia.kt:18-22 | an attachment implements `GroupableMedia` exactly when it is not an animation, i.e. exactly when its tag is not ANIMATION |
| MediaGroups.From | telegram/src/main/kotlin/com/github/kotlintelegrambot/entities/inputmedia/InputMedia.kt:24-33 | `from` succeeds exactly when it is given 2 to 10 items; on success the group holds exactly those items in that order; otherwise it fails with the illegal-argument error "media groups must include 2-10 items" |
| MediaGroups.FromRoundTrip | telegram/src/main/kotlin/com/github/kotlintelegrambot/entities/inputmedia/InputMedia.kt:24-32 | every group that can exist is what `from` builds from its own members |
| MediaGroups.NoAnimationInGroup | telegram/src/main/kotlin/com/github/kotlintelegrambot/entities/inputmedia/InputMedia.kt:24 | no member of a group is an animation or carries the ANIMATION tag |
| MediaGroups.GroupSizeScenarios | telegram/src/main/kotlin/com/github/kotlintelegrambot/entities/inputmedia/InputMedia.kt:26-27 | a photo and a video form a valid mixed group; one item or eleven items are rejected with the size error |
| Json.Put | telegram/src/main/kotlin/com/github/kotlintelegrambot/entities/inputmedia/InputMedia.kt:53-56 | after adding a property its key maps to the new value, and every other key keeps the value it had |
| Json.PutKeys | telegram/src/main/kotlin/com/github/kotlintelegrambot/entities/inputmedia/InputMedia.kt:53-56 | adding a property keeps the key order: an existing key stays in its place, a new key goes at the end |
| Json.PutAppendsNewKey | telegram/src/main/kotlin/com/github/kotlintelegrambot/entities/inputmedia/InputMedia.kt:53-56 | adding a key that is not yet present appends exactly that property after the existing ones, which are unchanged |
| Json.PutKeepsKeysDistinct | telegram/src/main/kotlin/com/github/kotlintelegrambot/entities/inputmedia/InputMedia.kt:53-56 | adding properties never produces a duplicate key |
| Serialization.MediaValue | telegram/src/main/kotlin/com/github/kotlintelegrambot/entities/inputmedia/InputMedia.kt:50-53 | the `media` value is the file id of a `ByFileId`, the url of a `ByUrl`, and "" for any other reference |
| Serialization.MediaValueEmptyIff | telegram/src/main/kotlin/com/github/kotlintelegrambot/entities/inputmedia/InputMedia.kt:53 | the `media` value is empty exactly for a reference that is neither an id nor a url, or for an empty id or url |
| Serialization.UnresolvedReferencesCollide | telegram/src/main/kotlin/com/github/kotlintelegrambot/entities/inputmedia/InputMedia.kt:51-53 | any two references that are neither ids nor urls (e.g. two different local files) give the same value, "" |
| Serialization.MediaAndType | telegram/src/main/kotlin/com/github/kotlintelegrambot/entities/inputmedia/InputMedia.kt:79-83 | the two properties both serialisers write: keys exactly `media` then `type`; `media` holds the resolved reference and `type` the given constant |
| Serialization.MediaAndTypeList | telegram/src/main/kotlin/com/github/kotlintelegrambot/entities/inputmedia/InputMedia.kt:49-54 | those two properties are exactly the list media, then type, and nothing else |
| Serialization.PhotoToJson | telegram/src/main/kotlin/com/github/kotlintelegrambot/entities/inputmedia/InputMedia.kt:48-59 | a photo's keys are `media` then `type`, plus a third key `caption` exactly when the caption is set; `media` holds the resolved reference, `type` the PHOTO constant, `caption` the caption |
| Serialization.PhotoJsonDeterminedBy | telegram/src/main/kotlin/com/github/kotlintelegrambot/entities/inputmedia/InputMedia.kt:48-59 | two photos serialise identically exactly when their resolved media values and their captions agree |
| Serialization.PhotoIgnoresParseMode | telegram/src/main/kotlin/com/github/kotlintelegrambot/entities/inputmedia/InputMedia.kt:40-58 | photos that differ only in parse mode serialise identically |
| Serialization.VideoToJson | telegram/src/main/kotlin/com/github/kotlintelegrambot/entities/inputmedia/InputMedia.kt:77-88 | a video's keys are exactly `media` then `type`; `media` holds the resolved reference and `type` the VIDEO constant |
| Serialization.VideoJsonDeterminedBy | telegram/src/main/kotlin/com/github/kotlintelegrambot/entities/inputmedia/InputMedia.kt:77-85 | two videos serialise identically exactly when their resolved media values agree |
| Serialization.VideoIgnoresOptionalFields | telegram/src/main/kotlin/com/github/kotlintelegrambot/entities/inputmedia/InputMedia.kt:66-85 | caption, parse mode, thumb, width, height, duration and streaming flag do not change a video's serialisation |
| Serialization.PhotoScenario | telegram/src/main/kotlin/com/github/kotlintelegrambot/entities/inputmedia/InputMedia.kt:48-58 | a photo with file id "F1" and caption "hi" serialises to media "F1", type PHOTO, caption "hi", in that order |
| Serialization.VideoScenario | telegram/src/main/kotlin/com/github/kotlintelegrambot/entities/inputmedia/InputMedia.kt:77-88 | a video by url with a caption serialises to the url and the VIDEO type only |

## Left out

- Serialisation of Animation, Audio and Document. They have no hand-written `toString`. Gson
  serialises them by reflection from their `@SerializedName` annotations, and that library
  code is not part of this model.
- Rendering a `JsonObject` as JSON text, including string escaping. The output is modelled as
  the ordered key/value list that Gson would render.
- The string values of `InputMediaTypes` and `InputMediaFields`. They are not part of this
  model, so the type tags are five distinct constants.
- Uploading the bytes of a `ByFile` reference, and any placeholder scheme for it. No such
  code exists in the modelled file; the transport that sends requests is not part of this model.
- The rule that `thumb` must be a `ByFile`. It is encoded in the types (`RawFileReference`)
  only; no code acts on it.
- `MediaGroup.medias` is a Kotlin array, so its elements could be reassigned after
  construction. Its size cannot change. The model treats the group as immutable.
- The editMessageMedia integration test. It talks to a mock HTTP server and asserts nothing.
