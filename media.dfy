/**
 * The persisted media row (backend/src/models/Media.js): the `type` column is
 * the enumeration {image, video}, `url` and `sourceUrl` are required text and
 * `altText` is nullable text. The auto-increment `id` and the `created_at`
 * timestamp are assigned by the database and are not part of the model.
 */
module Media {
  import opened Wrappers

  datatype MediaType = Image | Video

  /** The spelling of a media type in JSON, in queries and in the column. */
  function TypeName(t: MediaType): string {
    match t
    case Image => "image"
    case Video => "video"
  }

  datatype MediaRecord = MediaRecord(
    kind: MediaType,
    url: string,
    sourceUrl: string,
    altText: Option<string>)
}
