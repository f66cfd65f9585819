/**
 * The Python side of the in-process binding
 * (third_party/agfs/agfs-sdk/python/pyagfs/binding_client.py): the client
 * that turns each call into a call on the engine's library and decodes the
 * reply, and the stateful FileHandle that guards every operation with a local
 * closed flag.
 */
module BindingClient {
  import opened Wrappers
  import opened Wire
  import opened PyBinding

  /** AGFSClientError, AGFSNotSupportedError, and Python's ValueError. */
  datatype ClientError = AgfsError(msg: string) | NotSupported(msg: string) | InvalidValue(msg: string)

  /** How `handle_read` as written ends: the bytes it hands back, or a panic in the engine that aborts the process. */
  datatype RawRead = Aborted | Bytes(data: seq<byte>)

  const UnknownError := "Unknown error"
  const HandleClosed := "Handle is closed"
  const OpenFailed := "Failed to open handle"
  const SeekCur := 1

  /** The raised message: the engine's text, or "Unknown error" when it is empty. */
  function Reported(msg: string): (r: string)
    ensures r != ""
    ensures msg != "" ==> r == msg
  {
    if msg != "" then msg else UnknownError
  }

  /** The message that AGFS_GetLastError hands back for `id`, as reported. */
  function ErrorText(buffer: map<int, string>, id: int): string {
    Reported(if id in buffer then buffer[id] else "")
  }

  /** The octal value of one digit character, if it is one. */
  function OctalDigit(c: char): Option<nat> {
    if '0' <= c <= '7' then Some(c as int - '0' as int) else None
  }

  /**
   * `int(s, 8)` for a string of octal digits: `None` (a ValueError) for an
   * empty string or any other character.
   */
  function ParseOctal(s: string): (r: Option<nat>)
    ensures r.None? <==> s == [] || exists i :: 0 <= i < |s| && !('0' <= s[i] <= '7')
    decreases |s|
  {
    if s == [] then None
    else if |s| == 1 then OctalDigit(s[0])
    else match (ParseOctal(s[..|s| - 1]), OctalDigit(s[|s| - 1]))
      case (Some(high), Some(low)) => Some(high * 8 + low)
      case _ => None
  }

  /** The canonical octal spelling of `n`, the partner of ParseOctal. */
  function OctalText(n: nat): (s: string)
    ensures s != []
    decreases n
  {
    var last := ['0' + (n % 8) as char];
    if n < 8 then last else OctalText(n / 8) + last
  }

  /** Parsing the octal spelling of a number gives the number back. */
  lemma {:induction false} ParseOctalRoundTrip(n: nat)
    ensures ParseOctal(OctalText(n)) == Some(n)
  {
    var s := OctalText(n);
    if n >= 8 {
      ParseOctalRoundTrip(n / 8);
      assert s[..|s| - 1] == OctalText(n / 8);
    }
  }

  /** The default directory mode "755" is 493. */
  lemma DefaultModeIs493()
    ensures ParseOctal("755") == Some(493)
  {
    assert "755"[..2] == "75" && "75"[..1] == "7";
  }

  /** ctypes.c_uint: the value modulo 2^32. */
  function ToUint32(x: int): (r: int)
    ensures 0 <= r < 0x1_0000_0000
    ensures 0 <= x < 0x1_0000_0000 ==> r == x
  {
    x % 0x1_0000_0000
  }

  /** `has_offset` is 1 exactly when an offset was given. */
  function HasOffset(offset: Option<int>): (r: int)
    ensures r == 1 <==> offset.Some?
    ensures r == 0 <==> offset.None?
  {
    if offset.Some? then 1 else 0
  }

  /** The offset passed to the engine: the given one, or 0. */
  function OffsetValue(offset: Option<int>): (r: int)
    ensures offset.Some? ==> r == offset.value
    ensures offset.None? ==> r == 0
  {
    offset.GetOr(0)
  }

  /** `resp.get("bytes_written", 0)`. */
  function BytesWrittenOf(p: Payload): (r: int)
    ensures p.BytesWritten? ==> r == p.count
    ensures !p.BytesWritten? ==> r == 0
  {
    if p.BytesWritten? then p.count else 0
  }

  /** `data.get("position", 0)`. */
  function PositionOf(p: Payload): (r: int)
    ensures p.Position? ==> r == p.offset
    ensures !p.Position? ==> r == 0
  {
    if p.Position? then p.offset else 0
  }

  /** `renew_handle`: no engine call; the reply echoes the lease. */
  function RenewHandle(handleId: int, lease: int): (r: Payload)
    ensures r.LeaseRenewed? && r.lease == lease
  {
    LeaseRenewed(lease)
  }

  /** `grep` is not available in binding mode, whatever its arguments. */
  function Grep(path: string, pattern: string, recursive: bool, caseInsensitive: bool, stream: bool): (r: Result<Payload, ClientError>)
    ensures r.Failure? && r.error.NotSupported?
  {
    Failure(NotSupported("Grep not supported in binding mode"))
  }

  /** `digest` is not available in binding mode, whatever its arguments. */
  function Digest(path: string, algorithm: string): (r: Result<Payload, ClientError>)
    ensures r.Failure? && r.error.NotSupported?
  {
    Failure(NotSupported("Digest not supported in binding mode"))
  }

  /**
   * What ctypes hands back for a `c_char_p` result: the bytes up to the
   * first zero byte, which ends a C string.
   */
  function CString(bs: seq<byte>): (r: seq<byte>)
    ensures r <= bs && 0 !in r
    ensures 0 !in bs ==> r == bs
    ensures 0 in bs ==> |r| < |bs| && bs[|r|] == 0
  {
    if bs == [] || bs[0] == 0 then [] else [bs[0]] + CString(bs[1..])
  }

  /** Binary data with a zero byte in it comes back cut short. */
  lemma CStringCutsAtZero()
    ensures CString([65, 0, 66]) == [65]
  {
    assert [65, 0, 66][1..] == [0, 66];
  }

  /** The decimal digits of `n`, as ASCII bytes. */
  function DecimalBytes(n: nat): (r: seq<byte>)
    ensures r != [] && forall b | b in r :: 48 <= b <= 57
    decreases n
  {
    var last := [48 + n % 10];
    if n < 10 then last else DecimalBytes(n / 10) + last
  }

  /** The bytes of `{"error_id": `. */
  const ErrorIdOpen: seq<byte> := [123, 34, 101, 114, 114, 111, 114, 95, 105, 100, 34, 58, 32]

  /** The text of the reply `{"error_id": id}`, as the engine's C string holds it. */
  function ErrorIdText(id: nat): (r: seq<byte>)
    ensures r != [] && r[0] == 123 && 0 !in r
  {
    ErrorIdOpen + DecimalBytes(id) + [125]
  }

  /**
   * The panic behind `FileHandle.read()`: its default
   * size of -1 travels through `handle_read` unchanged, and AGFS_HandleRead
   * as written allocates a buffer of that size for any handle it holds.
   */
  method DefaultSizeReadPanics(h: FileHandle, reply: IoReply) returns (out: ReadOutcome)
    requires h.client.lib.Valid() && !h.closed && h.handleId in h.client.lib.handleMap
    modifies h.client.lib
    ensures out == Panicked
  {
    out := h.client.lib.HandleRead(h.handleId, -1, OffsetValue(None), HasOffset(None), reply);
  }

  /**
   * `handle_read` as written on a freshly loaded library, for an id it does
   * not hold: the "handle not found" error is stored under id 1, and its
   * `{"error_id": 1}` reply comes back to the caller as file content.
   */
  method FreshEngineReadReturnsErrorText(handleId: int) returns (r: RawRead)
    ensures r == Bytes(ErrorIdText(1))
  {
    var lib := new Engine();
    var client := new AgfsBindingClient(lib);
    r := client.HandleReadAsWritten(handleId, -1, None, IoReply([], None));
  }

  /**
   * What `cat` does with AGFS_Read's results as written: it raises only for
   * a negative status. No negative error id is ever stored, so the message it
   * would fetch is empty and reads "Unknown error".
   */
  function CatResultAsWritten(status: int, outData: Option<seq<byte>>): (r: Result<seq<byte>, ClientError>)
    ensures r.Failure? <==> status < 0
    ensures status >= 0 ==> r == Success(outData.GetOr([]))
  {
    if status < 0 then Failure(AgfsError(UnknownError))
    else if outData.Some? then Success(outData.value) else Success([])
  }

  /** A failed read (positive status, no data) reaches the caller as empty content. */
  lemma CatAsWrittenMasksFailure(status: int)
    requires status > 0
    ensures CatResultAsWritten(status, None) == Success([])
  {
  }

  class AgfsBindingClient {
    /** The engine library this client calls into (one per process). */
    const lib: Engine

    constructor (lib: Engine)
      ensures this.lib == lib
    {
      this.lib := lib;
    }

    /**
     * `_parse_response`: raises exactly when `error_id` is present and
     * non-zero, with the message fetched (and freed) from the engine;
     * otherwise hands back the payload unchanged.
     */
    method ParseResponse(env: Envelope) returns (r: Result<Payload, ClientError>)
      requires lib.Valid()
      modifies lib`errorBuffer
      ensures lib.Valid()
      ensures r.Failure? <==> IsFailure(env)
      ensures !IsFailure(env) ==> r == Success(env.payload) && lib.errorBuffer == old(lib.errorBuffer)
      ensures IsFailure(env) ==>
        r == Failure(AgfsError(ErrorText(old(lib.errorBuffer), env.errorId.value)))
        && lib.errorBuffer == old(lib.errorBuffer) - {env.errorId.value}
    {
      if IsFailure(env) {
        var msg := lib.GetAndClearError(env.errorId.value);
        return Failure(AgfsError(Reported(msg)));
      }
      r := Success(env.payload);
    }

    /**
     * `cat` as written: the engine's positive error id slips past the
     * `< 0` test, so a failed read returns empty content and its error entry
     * stays in the engine's buffer.
     */
    method CatAsWritten(path: string, offset: int, size: int, stream: bool, reply: IoReply)
      returns (r: Result<seq<byte>, ClientError>)
      requires lib.Valid()
      modifies lib`errorBuffer, lib`errorIdGen, lib`issuedErrorIds, lib`fsCalls
      ensures lib.Valid()
      ensures stream ==> r == Failure(NotSupported("Streaming not supported in binding mode")) && unchanged(lib)
      ensures !stream ==> lib.fsCalls == old(lib.fsCalls) + [ReadPath(path, offset, size)]
      ensures !stream && ReadFailed(reply.err) ==>
        r == Success([]) && lib.errorBuffer == old(lib.errorBuffer)[lib.errorIdGen := reply.err.value]
      ensures !stream && !ReadFailed(reply.err) ==> r == Success(reply.data) && lib.errorBuffer == old(lib.errorBuffer)
    {
      if stream {
        return Failure(NotSupported("Streaming not supported in binding mode"));
      }
      var status, outData := lib.Read(path, offset, size, reply);
      r := CatResultAsWritten(status, outData);
    }

    /**
     * `cat` with the status test the engine's convention calls for: any
     * non-zero status is an error id to fetch and raise.
     */
    method Cat(path: string, offset: int, size: int, stream: bool, reply: IoReply)
      returns (r: Result<seq<byte>, ClientError>)
      requires lib.Valid()
      modifies lib`errorBuffer, lib`errorIdGen, lib`issuedErrorIds, lib`fsCalls
      ensures lib.Valid()
      ensures stream ==> r == Failure(NotSupported("Streaming not supported in binding mode")) && unchanged(lib)
      ensures !stream ==> lib.fsCalls == old(lib.fsCalls) + [ReadPath(path, offset, size)]
      ensures !stream ==> lib.errorBuffer == old(lib.errorBuffer)
      ensures !stream && ReadFailed(reply.err) ==> r == Failure(AgfsError(Reported(reply.err.value)))
      ensures !stream && !ReadFailed(reply.err) ==> r == Success(reply.data)
    {
      if stream {
        return Failure(NotSupported("Streaming not supported in binding mode"));
      }
      var status, outData := lib.Read(path, offset, size, reply);
      if status != 0 {
        var msg := lib.GetAndClearError(status);
        return Failure(AgfsError(Reported(msg)));
      }
      r := Success(outData.GetOr([]));
    }

    /** `mkdir`: the mode string is read as octal; a malformed one raises before any engine call. */
    method Mkdir(path: string, mode: string, mkdirErr: Option<string>) returns (r: Result<Payload, ClientError>)
      requires lib.Valid()
      modifies lib`errorBuffer, lib`errorIdGen, lib`issuedErrorIds, lib`fsCalls
      ensures lib.Valid() && lib.errorBuffer == old(lib.errorBuffer)
      ensures ParseOctal(mode).None? ==> r.Failure? && r.error.InvalidValue? && unchanged(lib)
      ensures ParseOctal(mode).Some? ==>
        lib.fsCalls == old(lib.fsCalls) + [MakeDir(path, ToUint32(ParseOctal(mode).value))]
        && (r.Failure? <==> mkdirErr.Some?)
    {
      var m := ParseOctal(mode);
      if m.None? {
        return Failure(InvalidValue("invalid literal for int() with base 8"));
      }
      var env := lib.Mkdir(path, ToUint32(m.value), mkdirErr);
      r := ParseResponse(env);
    }

    /** `rm`: `recursive` is passed as 1 or 0. */
    method Rm(path: string, recursive: bool, rmErr: Option<string>) returns (r: Result<Payload, ClientError>)
      requires lib.Valid()
      modifies lib`errorBuffer, lib`errorIdGen, lib`issuedErrorIds, lib`fsCalls
      ensures lib.Valid() && lib.errorBuffer == old(lib.errorBuffer)
      ensures lib.fsCalls == old(lib.fsCalls) + [if recursive then RemoveAll(path) else Remove(path)]
      ensures r.Failure? <==> rmErr.Some?
    {
      var env := lib.Rm(path, if recursive then 1 else 0, rmErr);
      r := ParseResponse(env);
    }

    /** `mount`: the configuration always travels as a well-formed document. */
    method Mount(fstype: string, path: string, config: Config, pluginErr: Option<string>) returns (r: Result<Payload, ClientError>)
      requires lib.Valid()
      modifies lib`errorBuffer, lib`errorIdGen, lib`issuedErrorIds, lib`mounts
      ensures lib.Valid() && lib.errorBuffer == old(lib.errorBuffer)
      ensures r.Failure? <==> path in old(lib.mounts) || pluginErr.Some?
      ensures r.Failure? ==> lib.mounts == old(lib.mounts)
      ensures r.Success? ==> lib.mounts == old(lib.mounts)[path := MountEntry(fstype, config)]
    {
      var env := lib.Mount(fstype, path, Some(config), pluginErr);
      r := ParseResponse(env);
    }

    /** `unmount`. */
    method Unmount(path: string, refusal: Option<string>) returns (r: Result<Payload, ClientError>)
      requires lib.Valid()
      modifies lib`errorBuffer, lib`errorIdGen, lib`issuedErrorIds, lib`mounts
      ensures lib.Valid() && lib.errorBuffer == old(lib.errorBuffer)
      ensures r.Failure? <==> refusal.Some?
      ensures r.Failure? ==> lib.mounts == old(lib.mounts)
      ensures r.Success? ==> lib.mounts == old(lib.mounts) - {path}
    {
      var env := lib.Unmount(path, refusal);
      r := ParseResponse(env);
    }

    /** `open_handle`: a negative id raises; otherwise a new, open FileHandle. */
    method OpenHandle(path: string, flags: int, mode: int, lease: int, openErr: Option<string>)
      returns (r: Result<FileHandle, ClientError>)
      requires lib.Valid()
      modifies lib
      ensures lib.Valid() && lib.mounts == old(lib.mounts)
      ensures lib.fsCalls == old(lib.fsCalls) + [OpenFile(path, flags, ToUint32(mode))]
      ensures r.Failure? <==> openErr.Some?
      ensures r.Failure? ==> r.error == AgfsError(OpenFailed) && lib.handleMap == old(lib.handleMap)
      ensures r.Failure? ==> lib.ErrorAdded(old(lib.errorBuffer), old(lib.issuedErrorIds), old(lib.errorIdGen), lib.errorIdGen, openErr.value)
      ensures r.Success? ==> lib.errorBuffer == old(lib.errorBuffer)
      ensures r.Success? ==>
        fresh(r.value) && r.value.client == this && !r.value.closed
        && r.value.path == path && r.value.flags == flags && r.value.handleId !in old(lib.issuedHandleIds)
        && lib.handleMap == old(lib.handleMap)[r.value.handleId := EngineHandle(path, flags)]
    {
      var id := lib.OpenHandle(path, flags, ToUint32(mode), lease, openErr);
      if id < 0 {
        return Failure(AgfsError(OpenFailed));
      }
      var h := new FileHandle(this, id, path, flags);
      r := Success(h);
    }

    /** `close_handle`: closing an id the engine does not know is a success that changes nothing. */
    method CloseHandle(handleId: int, closeErr: Option<string>) returns (r: Result<Payload, ClientError>)
      requires lib.Valid()
      modifies lib`errorBuffer, lib`errorIdGen, lib`issuedErrorIds, lib`fsCalls, lib`handleMap
      ensures lib.Valid() && lib.errorBuffer == old(lib.errorBuffer)
      ensures handleId !in lib.handleMap
      ensures handleId !in old(lib.handleMap) ==> r.Success? && unchanged(lib)
      ensures handleId in old(lib.handleMap) ==>
        lib.handleMap == old(lib.handleMap) - {handleId}
        && lib.fsCalls == old(lib.fsCalls) + [CloseFile(handleId)]
        && (r.Failure? <==> closeErr.Some?)
    {
      var env := lib.CloseHandle(handleId, closeErr);
      r := ParseResponse(env);
    }

    /**
     * `handle_read`: `has_offset` and the offset follow whether an offset was
     * given; an error reply raises with the engine's message.
     */
    method HandleRead(handleId: int, size: int, offset: Option<int>, reply: IoReply) returns (r: Result<seq<byte>, ClientError>)
      requires lib.Valid()
      requires 0 <= size ==> |reply.data| <= size
      modifies lib`errorBuffer, lib`errorIdGen, lib`issuedErrorIds, lib`fsCalls
      ensures lib.Valid() && lib.errorBuffer == old(lib.errorBuffer)
      ensures handleId !in lib.handleMap ==> r == Failure(AgfsError(HandleNotFound)) && lib.fsCalls == old(lib.fsCalls)
      ensures handleId in lib.handleMap ==>
        lib.fsCalls == old(lib.fsCalls)
          + [if offset.Some? then ReadAt(handleId, size, offset.value) else ReadSequential(handleId, size)]
      ensures handleId in lib.handleMap && ReadFailed(reply.err) ==> r == Failure(AgfsError(Reported(reply.err.value)))
      ensures handleId in lib.handleMap && !ReadFailed(reply.err) ==> r == Success(reply.data)
    {
      var env, n, status := lib.HandleReadChecked(handleId, size, OffsetValue(offset), HasOffset(offset), reply);
      var parsed := ParseResponse(env);
      if parsed.Failure? {
        return Failure(parsed.error);
      }
      r := Success(if parsed.value.Data? then parsed.value.bytes else []);
    }

    /**
     * `handle_read` as written: AGFS_HandleRead is declared to return
     * `c_char_p`, so the result is always `bytes` and the first test hands
     * it back as the data. An error reply reaches the caller as the text
     * `{"error_id": id}`, never raised, and its entry stays in the engine's
     * buffer; data is cut at its first zero byte. A negative size (the
     * default -1) on a handle the engine holds panics in the engine.
     */
    method HandleReadAsWritten(handleId: int, size: int, offset: Option<int>, reply: IoReply) returns (r: RawRead)
      requires lib.Valid()
      requires 0 <= size ==> |reply.data| <= size
      modifies lib`errorBuffer, lib`errorIdGen, lib`issuedErrorIds, lib`fsCalls
      ensures lib.Valid()
      ensures handleId !in lib.handleMap ==>
        r == Bytes(ErrorIdText(lib.errorIdGen)) && lib.errorBuffer == old(lib.errorBuffer)[lib.errorIdGen := HandleNotFound]
      ensures handleId !in lib.handleMap ==>
        lib.ErrorAdded(old(lib.errorBuffer), old(lib.issuedErrorIds), old(lib.errorIdGen), lib.errorIdGen, HandleNotFound)
      ensures handleId in lib.handleMap && size < 0 ==> r == Aborted && unchanged(lib)
      ensures handleId in lib.handleMap && 0 <= size ==>
        lib.fsCalls == old(lib.fsCalls)
          + [if offset.Some? then ReadAt(handleId, size, offset.value) else ReadSequential(handleId, size)]
      ensures handleId in lib.handleMap && 0 <= size && ReadFailed(reply.err) ==>
        r == Bytes(ErrorIdText(lib.errorIdGen)) && lib.errorBuffer == old(lib.errorBuffer)[lib.errorIdGen := reply.err.value]
      ensures handleId in lib.handleMap && 0 <= size && !ReadFailed(reply.err) ==>
        r == Bytes(CString(reply.data)) && lib.errorBuffer == old(lib.errorBuffer)
    {
      var out := lib.HandleRead(handleId, size, OffsetValue(offset), HasOffset(offset), reply);
      if out.Panicked? {
        return Aborted;
      }
      if out.env.errorId.Some? {
        r := Bytes(ErrorIdText(lib.errorIdGen));
      } else {
        r := Bytes(if out.env.payload.Data? then CString(out.env.payload.bytes) else []);
      }
    }

    /** `handle_write`: returns `bytes_written`, or 0 when the reply lacks it. */
    method HandleWrite(handleId: int, data: seq<byte>, offset: Option<int>, reply: Result<int, string>) returns (r: Result<int, ClientError>)
      requires lib.Valid()
      modifies lib`errorBuffer, lib`errorIdGen, lib`issuedErrorIds, lib`fsCalls
      ensures lib.Valid() && lib.errorBuffer == old(lib.errorBuffer)
      ensures handleId !in lib.handleMap ==> r == Failure(AgfsError(HandleNotFound)) && lib.fsCalls == old(lib.fsCalls)
      ensures handleId in lib.handleMap ==>
        lib.fsCalls == old(lib.fsCalls)
          + [if offset.Some? then WriteAt(handleId, data, offset.value) else WriteSequential(handleId, data)]
      ensures handleId in lib.handleMap && reply.Failure? ==> r == Failure(AgfsError(Reported(reply.error)))
      ensures handleId in lib.handleMap && reply.Success? ==> r == Success(reply.value)
    {
      var env := lib.HandleWrite(handleId, data, OffsetValue(offset), HasOffset(offset), reply);
      var parsed := ParseResponse(env);
      if parsed.Failure? {
        return Failure(parsed.error);
      }
      r := Success(BytesWrittenOf(parsed.value));
    }

    /** `handle_seek`: returns `position`, or 0 when the reply lacks it. */
    method HandleSeek(handleId: int, offset: int, whence: int, reply: Result<int, string>) returns (r: Result<int, ClientError>)
      requires lib.Valid()
      modifies lib`errorBuffer, lib`errorIdGen, lib`issuedErrorIds, lib`fsCalls
      ensures lib.Valid() && lib.errorBuffer == old(lib.errorBuffer)
      ensures handleId !in lib.handleMap ==> r == Failure(AgfsError(HandleNotFound)) && lib.fsCalls == old(lib.fsCalls)
      ensures handleId in lib.handleMap ==> lib.fsCalls == old(lib.fsCalls) + [SeekFile(handleId, offset, whence)]
      ensures handleId in lib.handleMap && reply.Failure? ==> r == Failure(AgfsError(Reported(reply.error)))
      ensures handleId in lib.handleMap && reply.Success? ==> r == Success(reply.value)
    {
      var env := lib.HandleSeek(handleId, offset, whence, reply);
      var parsed := ParseResponse(env);
      if parsed.Failure? {
        return Failure(parsed.error);
      }
      r := Success(PositionOf(parsed.value));
    }

    /** `handle_sync`. */
    method HandleSync(handleId: int, syncErr: Option<string>) returns (r: Result<Payload, ClientError>)
      requires lib.Valid()
      modifies lib`errorBuffer, lib`errorIdGen, lib`issuedErrorIds, lib`fsCalls
      ensures lib.Valid() && lib.errorBuffer == old(lib.errorBuffer)
      ensures handleId !in lib.handleMap ==> r == Failure(AgfsError(HandleNotFound)) && lib.fsCalls == old(lib.fsCalls)
      ensures handleId in lib.handleMap ==>
        lib.fsCalls == old(lib.fsCalls) + [SyncFile(handleId)] && (r.Failure? <==> syncErr.Some?)
      ensures handleId in lib.handleMap && syncErr.Some? ==> r == Failure(AgfsError(Reported(syncErr.value)))
      ensures handleId in lib.handleMap && syncErr.None? ==> r == Success(Message("synced"))
    {
      var env := lib.HandleSync(handleId, syncErr);
      r := ParseResponse(env);
    }

    /** `handle_stat`. */
    method HandleStat(handleId: int, reply: Result<FileInfo, string>) returns (r: Result<Payload, ClientError>)
      requires lib.Valid()
      modifies lib`errorBuffer, lib`errorIdGen, lib`issuedErrorIds, lib`fsCalls
      ensures lib.Valid() && lib.errorBuffer == old(lib.errorBuffer)
      ensures handleId !in lib.handleMap ==> r == Failure(AgfsError(HandleNotFound)) && lib.fsCalls == old(lib.fsCalls)
      ensures handleId in lib.handleMap ==> lib.fsCalls == old(lib.fsCalls) + [StatFile(handleId)]
      ensures handleId in lib.handleMap && reply.Failure? ==> r == Failure(AgfsError(Reported(reply.error)))
      ensures handleId in lib.handleMap && reply.Success? ==> r == Success(Stat(reply.value))
    {
      var env := lib.HandleStat(handleId, reply);
      r := ParseResponse(env);
    }

    /** `get_handle_info`. */
    method GetHandleInfo(handleId: int) returns (r: Result<Payload, ClientError>)
      requires lib.Valid()
      modifies lib`errorBuffer, lib`errorIdGen, lib`issuedErrorIds
      ensures lib.Valid() && lib.errorBuffer == old(lib.errorBuffer)
      ensures handleId !in lib.handleMap ==> r == Failure(AgfsError(HandleNotFound))
      ensures handleId in lib.handleMap ==>
        r == Success(HandleInfo(handleId, lib.handleMap[handleId].path, lib.handleMap[handleId].flags))
    {
      var env := lib.GetHandleInfo(handleId);
      r := ParseResponse(env);
    }

    /** `list_handles`: exactly the ids the engine holds. */
    method ListHandles() returns (entries: seq<HandleEntry>)
      requires lib.Valid()
      modifies lib`errorBuffer
      ensures lib.Valid() && lib.errorBuffer == old(lib.errorBuffer)
      ensures ListsExactly(entries, lib.handleMap)
    {
      var env := lib.ListHandles();
      var parsed := ParseResponse(env);
      entries := parsed.value.entries;
    }
  }

  /**
   * A handle for stateful I/O: open until `close` succeeds, and afterwards
   * every operation raises "Handle is closed" without reaching the engine.
   */
  class FileHandle {
    const client: AgfsBindingClient
    const handleId: int
    const path: string
    const flags: int
    var closed: bool

    /** A new handle is open and records the id, path and flags it was given. */
    constructor (client: AgfsBindingClient, handleId: int, path: string, flags: int)
      ensures this.client == client && this.handleId == handleId && this.path == path && this.flags == flags
      ensures !closed
    {
      this.client := client;
      this.handleId := handleId;
      this.path := path;
      this.flags := flags;
      closed := false;
    }

    /** `read`: a sequential read, `has_offset` = 0. */
    method Read(size: int, reply: IoReply) returns (r: Result<seq<byte>, ClientError>)
      requires client.lib.Valid()
      requires 0 <= size ==> |reply.data| <= size
      modifies client.lib`errorBuffer, client.lib`errorIdGen, client.lib`issuedErrorIds, client.lib`fsCalls
      ensures client.lib.Valid() && client.lib.errorBuffer == old(client.lib.errorBuffer)
      ensures closed ==> r == Failure(AgfsError(HandleClosed)) && unchanged(client.lib)
      ensures !closed && handleId in client.lib.handleMap ==>
        client.lib.fsCalls == old(client.lib.fsCalls) + [ReadSequential(handleId, size)]
        && (ReadFailed(reply.err) ==> r == Failure(AgfsError(Reported(reply.err.value))))
        && (!ReadFailed(reply.err) ==> r == Success(reply.data))
      ensures !closed && handleId !in client.lib.handleMap ==> r == Failure(AgfsError(HandleNotFound))
    {
      if closed {
        return Failure(AgfsError(HandleClosed));
      }
      r := client.HandleRead(handleId, size, None, reply);
    }

    /** `read_at`: a positioned read, `has_offset` = 1 with the given offset. */
    method ReadAt(size: int, offset: int, reply: IoReply) returns (r: Result<seq<byte>, ClientError>)
      requires client.lib.Valid()
      requires 0 <= size ==> |reply.data| <= size
      modifies client.lib`errorBuffer, client.lib`errorIdGen, client.lib`issuedErrorIds, client.lib`fsCalls
      ensures client.lib.Valid() && client.lib.errorBuffer == old(client.lib.errorBuffer)
      ensures closed ==> r == Failure(AgfsError(HandleClosed)) && unchanged(client.lib)
      ensures !closed && handleId in client.lib.handleMap ==>
        client.lib.fsCalls == old(client.lib.fsCalls) + [PyBinding.ReadAt(handleId, size, offset)]
        && (ReadFailed(reply.err) ==> r == Failure(AgfsError(Reported(reply.err.value))))
        && (!ReadFailed(reply.err) ==> r == Success(reply.data))
      ensures !closed && handleId !in client.lib.handleMap ==> r == Failure(AgfsError(HandleNotFound))
    {
      if closed {
        return Failure(AgfsError(HandleClosed));
      }
      r := client.HandleRead(handleId, size, Some(offset), reply);
    }

    /** `write`: a sequential write, `has_offset` = 0. */
    method Write(data: seq<byte>, reply: Result<int, string>) returns (r: Result<int, ClientError>)
      requires client.lib.Valid()
      modifies client.lib`errorBuffer, client.lib`errorIdGen, client.lib`issuedErrorIds, client.lib`fsCalls
      ensures client.lib.Valid() && client.lib.errorBuffer == old(client.lib.errorBuffer)
      ensures closed ==> r == Failure(AgfsError(HandleClosed)) && unchanged(client.lib)
      ensures !closed && handleId in client.lib.handleMap ==>
        client.lib.fsCalls == old(client.lib.fsCalls) + [WriteSequential(handleId, data)]
        && (reply.Failure? ==> r == Failure(AgfsError(Reported(reply.error))))
        && (reply.Success? ==> r == Success(reply.value))
      ensures !closed && handleId !in client.lib.handleMap ==> r == Failure(AgfsError(HandleNotFound))
    {
      if closed {
        return Failure(AgfsError(HandleClosed));
      }
      r := client.HandleWrite(handleId, data, None, reply);
    }

    /** `write_at`: a positioned write, `has_offset` = 1 with the given offset. */
    method WriteAt(data: seq<byte>, offset: int, reply: Result<int, string>) returns (r: Result<int, ClientError>)
      requires client.lib.Valid()
      modifies client.lib`errorBuffer, client.lib`errorIdGen, client.lib`issuedErrorIds, client.lib`fsCalls
      ensures client.lib.Valid() && client.lib.errorBuffer == old(client.lib.errorBuffer)
      ensures closed ==> r == Failure(AgfsError(HandleClosed)) && unchanged(client.lib)
      ensures !closed && handleId in client.lib.handleMap ==>
        client.lib.fsCalls == old(client.lib.fsCalls) + [PyBinding.WriteAt(handleId, data, offset)]
        && (reply.Failure? ==> r == Failure(AgfsError(Reported(reply.error))))
        && (reply.Success? ==> r == Success(reply.value))
      ensures !closed && handleId !in client.lib.handleMap ==> r == Failure(AgfsError(HandleNotFound))
    {
      if closed {
        return Failure(AgfsError(HandleClosed));
      }
      r := client.HandleWrite(handleId, data, Some(offset), reply);
    }

    /** `seek`: returns the new absolute position. */
    method Seek(offset: int, whence: int, reply: Result<int, string>) returns (r: Result<int, ClientError>)
      requires client.lib.Valid()
      modifies client.lib`errorBuffer, client.lib`errorIdGen, client.lib`issuedErrorIds, client.lib`fsCalls
      ensures client.lib.Valid() && client.lib.errorBuffer == old(client.lib.errorBuffer)
      ensures closed ==> r == Failure(AgfsError(HandleClosed)) && unchanged(client.lib)
      ensures !closed && handleId in client.lib.handleMap ==>
        client.lib.fsCalls == old(client.lib.fsCalls) + [SeekFile(handleId, offset, whence)]
        && (reply.Failure? ==> r == Failure(AgfsError(Reported(reply.error))))
        && (reply.Success? ==> r == Success(reply.value))
      ensures !closed && handleId !in client.lib.handleMap ==> r == Failure(AgfsError(HandleNotFound))
    {
      if closed {
        return Failure(AgfsError(HandleClosed));
      }
      r := client.HandleSeek(handleId, offset, whence, reply);
    }

    /** `tell`: a seek by 0 from the current position, so it is guarded like `seek`. */
    method Tell(reply: Result<int, string>) returns (r: Result<int, ClientError>)
      requires client.lib.Valid()
      modifies client.lib`errorBuffer, client.lib`errorIdGen, client.lib`issuedErrorIds, client.lib`fsCalls
      ensures client.lib.Valid() && client.lib.errorBuffer == old(client.lib.errorBuffer)
      ensures closed ==> r == Failure(AgfsError(HandleClosed)) && unchanged(client.lib)
      ensures !closed && handleId in client.lib.handleMap ==>
        client.lib.fsCalls == old(client.lib.fsCalls) + [SeekFile(handleId, 0, SeekCur)]
        && (reply.Failure? ==> r == Failure(AgfsError(Reported(reply.error))))
        && (reply.Success? ==> r == Success(reply.value))
      ensures !closed && handleId !in client.lib.handleMap ==> r == Failure(AgfsError(HandleNotFound))
    {
      r := Seek(0, SeekCur, reply);
    }

    /** `sync`. */
    method Sync(syncErr: Option<string>) returns (r: Result<(), ClientError>)
      requires client.lib.Valid()
      modifies client.lib`errorBuffer, client.lib`errorIdGen, client.lib`issuedErrorIds, client.lib`fsCalls
      ensures client.lib.Valid() && client.lib.errorBuffer == old(client.lib.errorBuffer)
      ensures closed ==> r == Failure(AgfsError(HandleClosed)) && unchanged(client.lib)
      ensures !closed && handleId in client.lib.handleMap ==>
        client.lib.fsCalls == old(client.lib.fsCalls) + [SyncFile(handleId)]
        && (syncErr.Some? ==> r == Failure(AgfsError(Reported(syncErr.value))))
        && (syncErr.None? ==> r == Success(()))
      ensures !closed && handleId !in client.lib.handleMap ==> r == Failure(AgfsError(HandleNotFound))
    {
      if closed {
        return Failure(AgfsError(HandleClosed));
      }
      var res := client.HandleSync(handleId, syncErr);
      r := if res.Failure? then Failure(res.error) else Success(());
    }

    /** `stat`. */
    method Stat(reply: Result<FileInfo, string>) returns (r: Result<Payload, ClientError>)
      requires client.lib.Valid()
      modifies client.lib`errorBuffer, client.lib`errorIdGen, client.lib`issuedErrorIds, client.lib`fsCalls
      ensures client.lib.Valid() && client.lib.errorBuffer == old(client.lib.errorBuffer)
      ensures closed ==> r == Failure(AgfsError(HandleClosed)) && unchanged(client.lib)
      ensures !closed && handleId in client.lib.handleMap ==>
        client.lib.fsCalls == old(client.lib.fsCalls) + [StatFile(handleId)]
        && (reply.Failure? ==> r == Failure(AgfsError(Reported(reply.error))))
        && (reply.Success? ==> r == Success(Wire.Stat(reply.value)))
      ensures !closed && handleId !in client.lib.handleMap ==> r == Failure(AgfsError(HandleNotFound))
    {
      if closed {
        return Failure(AgfsError(HandleClosed));
      }
      r := client.HandleStat(handleId, reply);
    }

    /** `info`. */
    method Info() returns (r: Result<Payload, ClientError>)
      requires client.lib.Valid()
      modifies client.lib`errorBuffer, client.lib`errorIdGen, client.lib`issuedErrorIds, client.lib`fsCalls
      ensures client.lib.Valid() && client.lib.errorBuffer == old(client.lib.errorBuffer)
      ensures closed ==> r == Failure(AgfsError(HandleClosed)) && unchanged(client.lib)
      ensures client.lib.fsCalls == old(client.lib.fsCalls)
      ensures !closed && handleId in client.lib.handleMap ==>
        r == Success(HandleInfo(handleId, client.lib.handleMap[handleId].path, client.lib.handleMap[handleId].flags))
      ensures !closed && handleId !in client.lib.handleMap ==> r == Failure(AgfsError(HandleNotFound))
    {
      if closed {
        return Failure(AgfsError(HandleClosed));
      }
      r := client.GetHandleInfo(handleId);
    }

    /** `renew`: guarded like the others, and never reaches the engine. */
    method Renew(lease: int) returns (r: Result<Payload, ClientError>)
      ensures closed ==> r == Failure(AgfsError(HandleClosed))
      ensures !closed ==> r == Success(LeaseRenewed(lease))
    {
      if closed {
        return Failure(AgfsError(HandleClosed));
      }
      r := Success(RenewHandle(handleId, lease));
    }

    /**
     * `close`: a closed handle issues no call. Otherwise `close_handle` is
     * called and the handle is marked closed only when that call returns;
     * the engine forgets the id either way.
     */
    method Close(closeErr: Option<string>) returns (r: Result<(), ClientError>)
      requires client.lib.Valid()
      modifies this`closed, client.lib`errorBuffer, client.lib`errorIdGen, client.lib`issuedErrorIds, client.lib`fsCalls, client.lib`handleMap
      ensures client.lib.Valid() && client.lib.errorBuffer == old(client.lib.errorBuffer)
      ensures old(closed) ==> closed && r.Success? && unchanged(client.lib)
      ensures !old(closed) ==> handleId !in client.lib.handleMap && (closed <==> r.Success?)
      ensures !old(closed) && handleId in old(client.lib.handleMap) ==>
        client.lib.handleMap == old(client.lib.handleMap) - {handleId}
        && client.lib.fsCalls == old(client.lib.fsCalls) + [CloseFile(handleId)] && (r.Failure? <==> closeErr.Some?)
      ensures !old(closed) && handleId !in old(client.lib.handleMap) ==> closed && r.Success? && unchanged(client.lib)
    {
      if closed {
        return Success(());
      }
      var res := client.CloseHandle(handleId, closeErr);
      if res.Failure? {
        return Failure(res.error);
      }
      closed := true;
      r := Success(());
    }
  }

  /**
   * Closing an open handle twice, whatever each attempt's file system error: the handle ends
   * closed, the engine forgets it, and the file system sees at most one close.
   */
  method CloseTwice(h: FileHandle, firstErr: Option<string>, secondErr: Option<string>)
    requires h.client.lib.Valid() && !h.closed
    modifies h, h.client.lib
    ensures h.closed && h.handleId !in h.client.lib.handleMap
    ensures h.client.lib.fsCalls == old(h.client.lib.fsCalls)
      || h.client.lib.fsCalls == old(h.client.lib.fsCalls) + [CloseFile(h.handleId)]
  {
    var _ := h.Close(firstErr);
    var _ := h.Close(secondErr);
  }
}
