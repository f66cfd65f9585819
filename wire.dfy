/**
 * The values that cross the boundary between the in-process engine and the
 * Python binding client: the `{error_id, ...payload}` envelope of every
 * control-plane call, raw bytes for the data plane, and mount configurations.
 */
module Wire {
  import opened Wrappers

  type byte = x: int | 0 <= x < 256

  /** Metadata reported by a stat call. */
  datatype FileInfo = FileInfo(name: string, size: int, mode: int, modTime: string, isDir: bool)

  /** One row of the handle listing. */
  datatype HandleEntry = HandleEntry(handleId: int, path: string)

  /** The operation-specific part of a reply, beside `error_id`. */
  datatype Payload =
    | NoPayload
    | Message(text: string)
    | Data(bytes: seq<byte>)
    | BytesWritten(count: int)
    | Position(offset: int)
    | Stat(info: FileInfo)
    | HandleInfo(handleId: int, path: string, flags: int)
    | Handles(entries: seq<HandleEntry>)
    | LeaseRenewed(lease: int)

  /** A decoded reply: `errorId` is `None` when the document has no `error_id` field. */
  datatype Envelope = Envelope(errorId: Option<int>, payload: Payload)

  /** The reply `{"error_id": id}`. */
  function ErrorReply(id: int): Envelope {
    Envelope(Some(id), NoPayload)
  }

  /** A reply that carries a payload and no `error_id`. */
  function Reply(p: Payload): Envelope {
    Envelope(None, p)
  }

  /** A reply signals failure when `error_id` is present and non-zero. */
  predicate IsFailure(env: Envelope) {
    env.errorId.Some? && env.errorId.value != 0
  }

  /** A JSON scalar of a mount configuration. */
  datatype ConfigValue = Str(s: string) | Flag(b: bool) | Null

  type Config = map<string, ConfigValue>
}
