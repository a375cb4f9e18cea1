/** The broadcast editor's messages and their media, shared by the message
    list, the message card, the media grid, the preview and the form the
    broadcast page posts. A JavaScript media value is a browser `File`, a
    URL string, or an item object `{ id, file, preview, type, name, size }`;
    a missing string field is the empty string. */
module Messages {
  import opened Wrappers

  /** A browser `File`: its name, MIME type and size in bytes. */
  datatype FileBlob = FileBlob(name: string, mime: string, size: nat)

  /** A media item object as the message card builds it. */
  datatype MediaItem = MediaItem(
    id: string,
    file: Option<FileBlob>,
    preview: string,  // an object URL, or "" for `null`
    kind: string,     // `type`: "photo", "video", "document" or ""
    name: string,
    size: nat)

  /** One element of a `media` array, or a `media` value on its own. */
  datatype MediaValue = RawFile(file: FileBlob) | Url(url: string) | Item(item: MediaItem)

  /** A message's `media`: `null`, a single value, or an array. */
  datatype MediaField = NoMedia | Single(value: MediaValue) | List(values: seq<MediaValue>)

  /** An editor message `{ id, content, media }`. */
  datatype Message = Message(id: string, content: string, media: MediaField)

  /** `URL.createObjectURL(f)`: some non-empty `blob:` URL. */
  function ObjectUrl(f: FileBlob): (r: string)
    ensures r != []
  {
    "blob:" + f.name
  }

  /** `m.id`, which only item objects carry. */
  function IdOf(v: MediaValue): Option<string> {
    if v.Item? then Some(v.item.id) else None
  }
}
