/** The per-feed configuration the muxer reads. */
module Config {

  datatype Option<T> = None | Some(value: T)

  /** One configured feed. `color` is optional here, as the muxer treats it
      when it builds the calendar header. */
  datatype FeedConfig = FeedConfig(
    endpoint: string,
    visualName: Option<string>,
    color: Option<string>,
    urls: seq<string>
  )
}
