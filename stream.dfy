/** The records the services exchange about a stream (stream/stream.go). */
module Streams {

  /** A published stream: its ffmpeg format, source URL, slug and publish
      time (Unix seconds). */
  datatype Stream = Stream(format: string, source: string, slug: string, publishedAt: int)

  /** A stream's settings: how it is ingested, its secret, whether it is
      public, and whether it is passed through untranscoded. */
  datatype Settings = Settings(slug: string, ingestType: string, secret: string, public: bool,
                               passthrough: bool)
}
