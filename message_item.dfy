/** The message card: a file selection becomes media items classified by
    MIME type and appended after the message's current media, and the
    message's `media` value is normalised into the card's item list. */
module MessageItem {
  import opened Wrappers
  import opened Text
  import opened Messages

  /** A MIME type under `image/` is a photo, under `video/` a video, anything else a document. */
  function SelectedKind(mime: string): (r: string)
    ensures r == "photo" <==> StartsWith(mime, "image/")
    ensures r == "video" <==> !StartsWith(mime, "image/") && StartsWith(mime, "video/")
    ensures r == "document" <==> !StartsWith(mime, "image/") && !StartsWith(mime, "video/")
  {
    if StartsWith(mime, "image/") then "photo"
    else if StartsWith(mime, "video/") then "video"
    else "document"
  }

  /** The item built for one selected file under a fresh id. */
  function NewItem(f: FileBlob, id: string): (r: MediaItem)
    ensures r.id == id && r.file == Some(f) && r.name == f.name && r.size == f.size
    ensures r.kind == SelectedKind(f.mime)
    ensures r.preview != [] <==> r.kind == "photo"
  {
    var kind := SelectedKind(f.mime);
    MediaItem(id, Some(f), if kind == "photo" then ObjectUrl(f) else "", kind, f.name, f.size)
  }

  /** `files.map(...)`, with the generated ids given. */
  function NewMedia(files: seq<FileBlob>, ids: seq<string>): (r: seq<MediaValue>)
    requires |ids| == |files|
    ensures |r| == |files|
    ensures forall k :: 0 <= k < |files| ==> r[k] == Item(NewItem(files[k], ids[k]))
  {
    seq(|files|, k requires 0 <= k < |files| => Item(NewItem(files[k], ids[k])))
  }

  /** `handleFileChange`: an empty selection changes nothing; otherwise the
      new items follow the current ones. */
  function FileChange(current: seq<MediaValue>, files: seq<FileBlob>, ids: seq<string>): (r: Option<seq<MediaValue>>)
    requires |ids| == |files|
    ensures r.None? <==> files == []
  {
    if files == [] then None else Some(current + NewMedia(files, ids))
  }

  /** The current media come first and unchanged, then one item per file in
      selection order, each carrying its file; only photos get a preview. */
  lemma FileChangeAppends(current: seq<MediaValue>, files: seq<FileBlob>, ids: seq<string>)
    requires |ids| == |files| && files != []
    ensures var r := FileChange(current, files, ids).value;
      |r| == |current| + |files| && r[..|current|] == current
      && forall k :: 0 <= k < |files| ==>
           r[|current| + k].Item? && r[|current| + k].item.file == Some(files[k])
           && (r[|current| + k].item.preview != [] <==> StartsWith(files[k].mime, "image/"))
  {
    var r := current + NewMedia(files, ids);
    assert r[..|current|] == current;
    forall k | 0 <= k < |files|
      ensures r[|current| + k] == Item(NewItem(files[k], ids[k]))
    {
    }
  }

  /** `"media-legacy-" + index`. */
  function LegacyId(index: nat): string {
    "media-legacy-" + NatToString(index)
  }

  /** The `TypeError` `URL.createObjectURL` throws for a value that is not
      a file. */
  const NotAFile := "Failed to execute 'createObjectURL' on 'URL': Overload resolution failed."

  /** `message.media` is falsy: no media, or the empty string. */
  predicate Falsy(media: MediaField) {
    media.NoMedia? || media == Single(Url(""))
  }

  /** The normalisation effect: an array as it is, a single value with an
      id as a one-element list, a raw file wrapped under the legacy id with
      its object URL as preview, and a falsy value (no media, the empty
      string) as `[]`. Any other single value (a non-empty URL string, an
      item without an id) has no `id` either and reaches
      `URL.createObjectURL`, which throws. */
  function Normalised(media: MediaField, index: nat): (r: Result<seq<MediaValue>, string>)
    ensures Falsy(media) ==> r == Ok([])
    ensures media.List? ==> r == Ok(media.values)
    ensures media.Single? && media.value.Item? && media.value.item.id != [] ==> r == Ok([media.value])
    ensures media.Single? && media.value.RawFile? ==>
              && r.Ok? && |r.value| == 1 && r.value[0].Item?
              && r.value[0].item.id == LegacyId(index) && r.value[0].item.file == Some(media.value.file)
              && r.value[0].item.preview == ObjectUrl(media.value.file) && r.value[0].item.preview != []
    ensures r.Err? <==> media.Single? && !Falsy(media) && !media.value.RawFile? && !(media.value.Item? && media.value.item.id != [])
    ensures r.Err? ==> r.error == NotAFile
  {
    match media
    case NoMedia => Ok([])
    case List(vs) => Ok(vs)
    case Single(v) =>
      if v == Url("") then Ok([])
      else if v.Item? && v.item.id != [] then Ok([v])
      else if v.RawFile? then Ok([Item(MediaItem(LegacyId(index), Some(v.file), ObjectUrl(v.file), "", "", 0))])
      else Err(NotAFile)
  }

  /** Normalising the list the card writes back changes nothing more: the
      card's items are a fixed point of the effect. */
  lemma NormalisedIsStable(media: MediaField, index: nat)
    requires Normalised(media, index).Ok?
    ensures Normalised(List(Normalised(media, index).value), index) == Normalised(media, index)
  {
  }
}
