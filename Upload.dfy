/** What the two upload forms share: the file the user picks and how an
    upload request can end. */
module Upload {
  import opened Wrappers

  /** A chosen file: its name, its MIME type and its size in bytes. */
  datatype File = File(name: string, mime: string, size: nat)

  /** How an upload request ends: `fetch` (or reading the reply) throws
      with a message; the server refuses, with the `error` field of its
      body ("" when missing, None when the body is not JSON) and the HTTP
      status; or the server accepts, with the URL it reports. */
  datatype Response = Unreachable(message: string) | Refused(error: Option<string>, status: int) | Accepted(url: string)

  /** The `!token` test both upload handlers make on the stored token: a
      missing entry and an empty one both count as no token. */
  predicate HasToken(token: Option<string>) {
    token.Some? && token.value != ""
  }
}
