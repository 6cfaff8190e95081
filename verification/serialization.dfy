/** The hand-written `toString` of `InputMediaPhoto` and `InputMediaVideo`: each builds a
    JSON object whose `media` is the resolved file reference and whose `type` is the tag. */
module Serialization {
  import opened Wrappers
  import opened Files
  import opened Media
  import opened Json

  /** A property value: a plain string, or one of the `InputMediaTypes` constants. */
  datatype JsonValue = Text(s: string) | TypeConstant(t: MediaType)

  /** The string put under `media`: the id of a `ByFileId`, the url of a `ByUrl`,
      and the empty string for any other reference kind. */
  function MediaValue(f: TelegramFile): (s: string)
    ensures f.ByFileId? ==> s == f.fileId
    ensures f.ByUrl? ==> s == f.url
    ensures !f.ByFileId? && !f.ByUrl? ==> s == ""
  {
    match f
    case ByFileId(id) => id
    case ByUrl(url) => url
    case _ => ""
  }

  /** The value is empty exactly when the reference is neither an id nor a url, or is an
      empty id or url; so a non-empty value always comes from an id or a url. */
  lemma MediaValueEmptyIff(f: TelegramFile)
    ensures MediaValue(f) == "" <==>
              (f.ByFileId? && f.fileId == "") || (f.ByUrl? && f.url == "")
              || (!f.ByFileId? && !f.ByUrl?)
  {
  }

  /** Local files are not told apart: any two of them (or any other non-id, non-url
      references) give the same `media` value, so no upload placeholder is produced. */
  lemma UnresolvedReferencesCollide(a: TelegramFile, b: TelegramFile)
    requires !a.ByFileId? && !a.ByUrl? && !b.ByFileId? && !b.ByUrl?
    ensures MediaValue(a) == MediaValue(b) == ""
  {
  }

  /** The two properties both hand-written serialisers start with: the resolved file
      reference under `media`, then the type constant under `type`. */
  function MediaAndType(f: TelegramFile, t: MediaType): (r: seq<Property<JsonValue>>)
    ensures Keys(r) == ["media", "type"]
    ensures Get(r, "media") == Some(Text(MediaValue(f)))
    ensures Get(r, "type") == Some(TypeConstant(t))
  {
    var withMedia := Put([], "media", Text(MediaValue(f)));
    PutKeys([], "media", Text(MediaValue(f)));
    PutKeys(withMedia, "type", TypeConstant(t));
    assert Keys(withMedia) == ["media"];
    Put(withMedia, "type", TypeConstant(t))
  }

  /** `InputMediaPhoto.toString`: `media`, then `type`, then `caption` when it is set. */
  function PhotoToJson(p: InputMediaPhoto): (r: seq<Property<JsonValue>>)
    ensures Keys(r) == ["media", "type"] + (if p.caption.Some? then ["caption"] else [])
    ensures Get(r, "media") == Some(Text(MediaValue(p.media)))
    ensures Get(r, "type") == Some(TypeConstant(PHOTO))
    ensures Get(r, "caption") == if p.caption.Some? then Some(Text(p.caption.value)) else None
  {
    var base := MediaAndType(p.media, TypeOf(p));
    assert "caption" !in Keys(base);
    if p.caption.Some? then
      PutKeys(base, "caption", Text(p.caption.value));
      Put(base, "caption", Text(p.caption.value))
    else
      base
  }

  /** `InputMediaVideo.toString`: exactly `media` then `type`. */
  function VideoToJson(v: InputMediaVideo): (r: seq<Property<JsonValue>>)
    ensures Keys(r) == ["media", "type"]
    ensures Get(r, "media") == Some(Text(MediaValue(v.media)))
    ensures Get(r, "type") == Some(TypeConstant(VIDEO))
  {
    MediaAndType(v.media, TypeOf(v))
  }

  /** A photo's JSON carries its resolved media value and its caption and nothing more:
      two photos serialise alike exactly when those two agree. */
  lemma PhotoJsonDeterminedBy(p1: InputMediaPhoto, p2: InputMediaPhoto)
    ensures PhotoToJson(p1) == PhotoToJson(p2) <==>
              MediaValue(p1.media) == MediaValue(p2.media) && p1.caption == p2.caption
  {
  }

  /** The parse mode never reaches a photo's JSON. */
  lemma PhotoIgnoresParseMode(p: InputMediaPhoto, parseMode: Option<string>)
    ensures PhotoToJson(Photo(p.media, p.caption, parseMode)) == PhotoToJson(p)
  {
  }

  /** A video's JSON carries its resolved media value and nothing more. */
  lemma VideoJsonDeterminedBy(v1: InputMediaVideo, v2: InputMediaVideo)
    ensures VideoToJson(v1) == VideoToJson(v2) <==> MediaValue(v1.media) == MediaValue(v2.media)
  {
  }

  /** Caption, parse mode, thumbnail, size, duration and streaming flag never reach a
      video's JSON. */
  lemma VideoIgnoresOptionalFields(v: InputMediaVideo, caption: Option<string>,
                                   parseMode: Option<string>, thumb: Option<RawFileReference>,
                                   width: Option<int32>, height: Option<int32>,
                                   duration: Option<int32>, supportsStreaming: Option<bool>)
    ensures VideoToJson(Video(v.media, caption, parseMode, thumb, width, height, duration,
                              supportsStreaming)) == VideoToJson(v)
  {
  }

  /** Both serialisers start from this two-property list. */
  lemma MediaAndTypeList(f: TelegramFile, t: MediaType)
    ensures MediaAndType(f, t)
            == [Property("media", Text(MediaValue(f))), Property("type", TypeConstant(t))]
  {
  }

  /** A photo by file id with a caption, written out in full. */
  lemma PhotoScenario()
    ensures PhotoToJson(Photo(ByFileId("F1"), Some("hi"), None))
            == [Property("media", Text("F1")), Property("type", TypeConstant(PHOTO)),
                Property("caption", Text("hi"))]
  {
  }

  /** A video by url: its caption is dropped. */
  lemma VideoScenario()
    ensures VideoToJson(Video(ByUrl("http://x/v.mp4"), Some("hi"), None, None, None, None,
                              None, None))
            == [Property("media", Text("http://x/v.mp4")), Property("type", TypeConstant(VIDEO))]
  {
  }
}
