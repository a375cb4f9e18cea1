/** The Telegram look-alike preview: which messages are drawn, whether a
    bubble is a poll, the media list a bubble shows and its grid, and the
    thumbnail of the notification view. */
module Preview {
  import opened Wrappers
  import opened Text
  import opened Messages
  import opened FrontEntities

  /** A message as the preview reads it. */
  datatype PreviewMsg = PreviewMsg(
    content: string,
    text: string,
    pollQuestion: string,
    kind: string,  // `type`, "" when absent
    media: MediaField)

  /** The `content` prop: one message object or an array of them. */
  datatype PreviewContent = OneMessage(msg: PreviewMsg) | MessageArray(msgs: seq<PreviewMsg>)

  /** `Array.isArray(content) ? content : [content]`. */
  function PreviewMessages(c: PreviewContent): (r: seq<PreviewMsg>)
    ensures c.OneMessage? ==> r == [c.msg]
    ensures c.MessageArray? ==> r == c.msgs
  {
    match c
    case OneMessage(m) => [m]
    case MessageArray(ms) => ms
  }

  /** One entry of a bubble's media list. */
  datatype BubbleMedia = BubbleMedia(src: string, kind: string, name: string, size: nat)

  /** A File's kind: MIME starting `video` or `image`, else a document. */
  function FileKind(mime: string): (r: string)
    ensures r == "video" <==> StartsWith(mime, "video")
    ensures r == "photo" <==> !StartsWith(mime, "video") && StartsWith(mime, "image")
    ensures r == "document" <==> !StartsWith(mime, "video") && !StartsWith(mime, "image")
  {
    if StartsWith(mime, "video") then "video"
    else if StartsWith(mime, "image") then "photo"
    else "document"
  }

  /** `/\.(mp4|mov|avi)$/i` on a URL. */
  predicate IsVideoUrl(url: string) {
    EndsWith(Lower(url), ".mp4") || EndsWith(Lower(url), ".mov") || EndsWith(Lower(url), ".avi")
  }

  function UrlKind(url: string): (r: string)
    ensures r == "video" <==> IsVideoUrl(url)
    ensures r == "photo" <==> !IsVideoUrl(url)
  {
    if IsVideoUrl(url) then "video" else "photo"
  }

  function FileMedia(f: FileBlob): BubbleMedia {
    BubbleMedia(ObjectUrl(f), FileKind(f.mime), f.name, f.size)
  }

  function UrlMedia(url: string): BubbleMedia {
    BubbleMedia(url, UrlKind(url), "", 0)
  }

  /** `m.preview || (file ? URL.createObjectURL(file) : null)`. */
  function ItemSource(it: MediaItem): string {
    OrElse(it.preview, if it.file.Some? then ObjectUrl(it.file.value) else "")
  }

  /** `m.type`, or the file's kind when the type is missing. */
  function ItemKind(it: MediaItem): string {
    if it.kind == [] && it.file.Some? then FileKind(it.file.value.mime) else it.kind
  }

  /** An item object's entry: kept only with a source or as a document. */
  function ItemMedia(it: MediaItem): (r: Option<BubbleMedia>)
    ensures r.Some? <==> ItemSource(it) != [] || ItemKind(it) == "document"
    ensures r.Some? ==> r.value.src == ItemSource(it) && r.value.kind == OrElse(ItemKind(it), "photo")
    ensures r.Some? && it.name != [] ==> r.value.name == it.name
  {
    var src := ItemSource(it);
    var kind := ItemKind(it);
    if src != [] || kind == "document" then
      var fileName := if it.file.Some? then it.file.value.name else "Unknown";
      var fileSize := if it.file.Some? then it.file.value.size else 0;
      Some(BubbleMedia(src, OrElse(kind, "photo"), OrElse(it.name, fileName), if it.size != 0 then it.size else fileSize))
    else None
  }

  /** The entries one element of a `media` array contributes. */
  function ElementMedia(v: MediaValue): (r: seq<BubbleMedia>)
    ensures |r| <= 1
    ensures !v.Item? ==> |r| == 1
  {
    match v
    case RawFile(f) => [FileMedia(f)]
    case Url(u) => [UrlMedia(u)]
    case Item(it) => if ItemMedia(it).Some? then [ItemMedia(it).value] else []
  }

  /** The entries of a `media` array, in array order. */
  function ElementsMedia(vs: seq<MediaValue>): (r: seq<BubbleMedia>)
    ensures |r| <= |vs|
  {
    if vs == [] then [] else ElementsMedia(vs[..|vs| - 1]) + ElementMedia(vs[|vs| - 1])
  }

  /** The media list of a bubble: a single File or URL gives one entry, an
      array one entry per kept element, and anything else none. */
  function BubbleMediaOf(media: MediaField): (r: seq<BubbleMedia>) {
    match media
    case NoMedia => []
    case Single(v) => if v.Item? then [] else ElementMedia(v)
    case List(vs) => ElementsMedia(vs)
  }

  /** `MessageBubble`'s `mediaList`, pushed element by element. */
  method BuildMediaList(media: MediaField) returns (list: seq<BubbleMedia>)
    ensures list == BubbleMediaOf(media)
  {
    list := [];
    match media {
      case NoMedia =>
      case Single(v) =>
        match v {
          case RawFile(f) => list := list + [FileMedia(f)];
          case Url(u) => list := list + [UrlMedia(u)];
          case Item(_) =>
        }
      case List(vs) =>
        var i := 0;
        while i < |vs|
          invariant 0 <= i <= |vs|
          invariant list == ElementsMedia(vs[..i])
        {
          assert vs[..i + 1][..i] == vs[..i];
          match vs[i] {
            case RawFile(f) => list := list + [FileMedia(f)];
            case Url(u) => list := list + [UrlMedia(u)];
            case Item(it) =>
              var src := ItemSource(it);
              var kind := ItemKind(it);
              if src != [] || kind == "document" {
                list := list + [ItemMedia(it).value];
              }
          }
          i := i + 1;
        }
        assert vs[..|vs|] == vs;
    }
  }

  /** An array of Files and URLs shows every element, in order, with its
      kind; items without a source that are not documents are dropped. */
  lemma {:induction false} PlainElementsAllShown(vs: seq<MediaValue>)
    requires forall k :: 0 <= k < |vs| ==> !vs[k].Item?
    ensures |ElementsMedia(vs)| == |vs|
    ensures forall k :: 0 <= k < |vs| ==> ElementsMedia(vs)[k] == ElementMedia(vs[k])[0]
  {
    if vs != [] {
      var init := vs[..|vs| - 1];
      assert forall k :: 0 <= k < |init| ==> init[k] == vs[k];
      PlainElementsAllShown(init);
    }
  }

  /** Appending an element appends its entries: the list follows the
      array's order. */
  lemma ElementsMediaAppend(vs: seq<MediaValue>, v: MediaValue)
    ensures ElementsMedia(vs + [v]) == ElementsMedia(vs) + ElementMedia(v)
  {
    assert (vs + [v])[..|vs|] == vs;
  }

  /** `gridClass`: one column for up to one entry, two beyond. */
  function GridClass(count: nat): (r: string)
    ensures r == "grid-cols-1" <==> count <= 1
    ensures r == "grid-cols-2" <==> count >= 2
  {
    if count == 2 then "grid-cols-2"
    else if count >= 3 then "grid-cols-2"
    else "grid-cols-1"
  }

  /** The type a bubble is drawn with: `msg.type || type`. */
  function BubbleType(m: PreviewMsg, outer: string): string {
    OrElse(m.kind, outer)
  }

  /** `isPoll`. */
  predicate IsPoll(m: PreviewMsg, outer: string) {
    BubbleType(m, outer) == "poll" || m.pollQuestion != []
  }

  /** A poll question alone makes a poll bubble, whatever the types say;
      without one, only the type `poll` does. */
  lemma IsPollIff(m: PreviewMsg, outer: string)
    ensures m.pollQuestion != [] ==> IsPoll(m, outer)
    ensures m.pollQuestion == [] ==> (IsPoll(m, outer) <==> (m.kind == "poll" || (m.kind == [] && outer == "poll")))
  {
  }

  /** Only messages with content, text or a poll question are drawn. */
  function Drawn(ms: seq<PreviewMsg>): (r: seq<PreviewMsg>)
    ensures |r| <= |ms|
  {
    if ms == [] then []
    else (if ms[0].content != [] || ms[0].text != [] || ms[0].pollQuestion != [] then [ms[0]] else [])
         + Drawn(ms[1..])
  }

  lemma {:induction false} DrawnMembers(ms: seq<PreviewMsg>)
    ensures forall m :: m in Drawn(ms) <==> m in ms && (m.content != [] || m.text != [] || m.pollQuestion != [])
  {
    if ms != [] {
      DrawnMembers(ms[1..]);
      assert ms == [ms[0]] + ms[1..];
    }
  }

  datatype Thumb = Thumb(src: string, kind: string)

  /** The thumbnail for one media value. */
  function TargetThumb(v: MediaValue): (r: Option<Thumb>)
    ensures r.Some? ==> r.value.src != []
  {
    match v
    case RawFile(f) => Some(Thumb(ObjectUrl(f), FileKind(f.mime)))
    case Url(u) => if u == [] then None else Some(Thumb(u, UrlKind(u)))
    case Item(it) =>
      var src := ItemSource(it);
      if src == [] then None else Some(Thumb(src, OrElse(it.kind, "photo")))
  }

  /** `getNotificationThumbnail(messages[0])`. */
  function NotificationThumb(msgs: seq<PreviewMsg>): Option<Thumb> {
    if msgs == [] then None
    else match msgs[0].media
      case NoMedia => None
      case Single(v) => TargetThumb(v)
      case List(vs) => if vs == [] then None else TargetThumb(vs[0])
  }

  /** The thumbnail depends only on the first media value of the first
      message: later messages and later media never change it. */
  lemma ThumbUsesFirstOnly(m: PreviewMsg, rest: seq<PreviewMsg>, vs: seq<MediaValue>, more: seq<MediaValue>)
    requires vs != [] && m.media == List(vs)
    ensures NotificationThumb([m] + rest) == NotificationThumb([m.(media := List(vs[..1] + more))])
    ensures NotificationThumb([m] + rest) == TargetThumb(vs[0])
  {
  }
}
