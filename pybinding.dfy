/**
 * The engine side of the in-process binding (third_party/agfs/agfs-server/cmd/pybinding/main.go).
 *
 * The Go library keeps process-wide tables: an error buffer from error id to
 * message and a handle table from handle id to open file, each with its own
 * id counter. Every exported call answers with an envelope; a failure is
 * reported as `{"error_id": id}` and the message waits in the error buffer
 * until the caller fetches it (which also frees it).
 *
 * The mountable file system behind the engine is not part of this model: each
 * method takes the file system's reply as a parameter, and the engine records
 * in `fsCalls` every request it issues to the file system. The mount table is
 * kept here as a map from prefix to plugin type and configuration.
 */
module PyBinding {
  import opened Wrappers
  import opened Wire

  /** What the engine knows of an open file: the path and flags it reports. */
  datatype EngineHandle = EngineHandle(path: string, flags: int)

  /** One request issued to the mountable file system. */
  datatype FsCall =
    | OpenFile(path: string, flags: int, mode: int)
    | CloseFile(handleId: int)
    | ReadSequential(handleId: int, size: int)
    | ReadAt(handleId: int, size: int, offset: int)
    | WriteSequential(handleId: int, data: seq<byte>)
    | WriteAt(handleId: int, data: seq<byte>, offset: int)
    | SeekFile(handleId: int, offset: int, whence: int)
    | SyncFile(handleId: int)
    | StatFile(handleId: int)
    | ReadPath(path: string, offset: int, size: int)
    | Remove(path: string)
    | RemoveAll(path: string)
    | MakeDir(path: string, mode: int)

  /** The file system's answer to a read: the bytes it delivered and its error, if any. */
  datatype IoReply = IoReply(data: seq<byte>, err: Option<string>)

  /** A plugin attached at a prefix. */
  datatype MountEntry = MountEntry(fstype: string, config: Config)

  /** How AGFS_HandleRead ends: it either returns its three results or the Go runtime panics. */
  datatype ReadOutcome = Panicked | Returned(env: Envelope, n: int, status: int)

  const HandleNotFound := "handle not found"
  const EndOfFile := "EOF"
  /** Stand-in for the mountable file system's message when a prefix is taken. */
  const PrefixOccupied := "mount point already in use"

  /** A read error other than end-of-file is a failure. */
  predicate ReadFailed(err: Option<string>) {
    err.Some? && err.value != EndOfFile
  }

  /** The handle listing names exactly the ids of `m`, each once, with its path. */
  ghost predicate ListsExactly(es: seq<HandleEntry>, m: map<int, EngineHandle>) {
    (forall i :: 0 <= i < |es| ==> es[i].handleId in m && es[i].path == m[es[i].handleId].path)
    && (forall id :: id in m ==> exists i :: 0 <= i < |es| && es[i].handleId == id)
    && (forall i, j :: 0 <= i < j < |es| ==> es[i].handleId != es[j].handleId)
  }

  class Engine {
    var errorBuffer: map<int, string>
    var errorIdGen: int
    var handleMap: map<int, EngineHandle>
    var handleIdGen: int
    var mounts: map<string, MountEntry>
    var fsCalls: seq<FsCall>
    /** Every error id and handle id handed out so far. */
    ghost var issuedErrorIds: set<int>
    ghost var issuedHandleIds: set<int>

    ghost predicate Valid()
      reads this
    {
      0 <= errorIdGen && 0 <= handleIdGen
      && errorBuffer.Keys <= issuedErrorIds && handleMap.Keys <= issuedHandleIds
      && (forall id :: id in issuedErrorIds ==> 0 < id <= errorIdGen)
      && (forall id :: id in issuedHandleIds ==> 0 < id <= handleIdGen)
    }

    /** The buffer now holds `msg` under a fresh id `id`, larger than every id issued before. */
    ghost predicate ErrorAdded(before: map<int, string>, issuedBefore: set<int>, genBefore: int, id: int, msg: string)
      reads this
    {
      id == genBefore + 1 && 0 < id && id == errorIdGen
      && (forall k :: k in issuedBefore ==> k < id)
      && errorBuffer == before[id := msg] && issuedErrorIds == issuedBefore + {id}
    }

    constructor ()
      ensures Valid()
      ensures errorBuffer == map[] && handleMap == map[] && mounts == map[] && fsCalls == []
      ensures issuedErrorIds == {} && issuedHandleIds == {}
      ensures errorIdGen == 0 && handleIdGen == 0
    {
      errorBuffer, errorIdGen := map[], 0;
      handleMap, handleIdGen := map[], 0;
      mounts, fsCalls := map[], [];
      issuedErrorIds, issuedHandleIds := {}, {};
    }

    /** storeError: no error gives id 0; an error is stored under a fresh, larger id. */
    method StoreError(err: Option<string>) returns (id: int)
      requires Valid()
      modifies this`errorBuffer, this`errorIdGen, this`issuedErrorIds
      ensures Valid()
      ensures err.None? ==> id == 0 && unchanged(this)
      ensures err.Some? ==> ErrorAdded(old(errorBuffer), old(issuedErrorIds), old(errorIdGen), id, err.value)
    {
      if err.None? {
        return 0;
      }
      errorIdGen := errorIdGen + 1;
      id := errorIdGen;
      errorBuffer := errorBuffer[id := err.value];
      issuedErrorIds := issuedErrorIds + {id};
    }

    /** Stores `msg` and answers `{"error_id": id}`. */
    method Fail(msg: string) returns (env: Envelope)
      requires Valid()
      modifies this`errorBuffer, this`errorIdGen, this`issuedErrorIds
      ensures Valid()
      ensures env == ErrorReply(errorIdGen) && ErrorAdded(old(errorBuffer), old(issuedErrorIds), old(errorIdGen), errorIdGen, msg)
    {
      var id := StoreError(Some(msg));
      env := ErrorReply(id);
    }

    /** getAndClearError (also AGFS_GetLastError): fetch the message and free the entry. */
    method GetAndClearError(id: int) returns (msg: string)
      requires Valid()
      modifies this`errorBuffer
      ensures Valid()
      ensures id == 0 ==> msg == "" && errorBuffer == old(errorBuffer)
      ensures id != 0 ==> msg == (if id in old(errorBuffer) then old(errorBuffer)[id] else "")
      ensures id != 0 ==> errorBuffer == old(errorBuffer) - {id} && id !in errorBuffer
    {
      if id == 0 {
        return "";
      }
      msg := if id in errorBuffer then errorBuffer[id] else "";
      errorBuffer := errorBuffer - {id};
    }

    /** storeHandle: the handle gets a fresh id of at least 1, never issued before. */
    method StoreHandle(h: EngineHandle) returns (id: int)
      requires Valid()
      modifies this`handleMap, this`handleIdGen, this`issuedHandleIds
      ensures Valid()
      ensures 1 <= id && id !in old(issuedHandleIds) && (forall k :: k in old(issuedHandleIds) ==> k < id)
      ensures id == old(handleIdGen) + 1 && handleIdGen == id
      ensures handleMap == old(handleMap)[id := h] && issuedHandleIds == old(issuedHandleIds) + {id}
    {
      handleIdGen := handleIdGen + 1;
      id := handleIdGen;
      handleMap := handleMap[id := h];
      issuedHandleIds := issuedHandleIds + {id};
    }

    /** getHandle: the stored handle, or nothing (Go's nil) for an absent id. */
    function GetHandle(id: int): (r: Option<EngineHandle>)
      reads this
      ensures r.None? <==> id !in handleMap
      ensures r.Some? ==> r.value == handleMap[id]
    {
      Lookup(handleMap, id)
    }

    /** removeHandle: only the given id leaves the table. */
    method RemoveHandle(id: int)
      requires Valid()
      modifies this`handleMap
      ensures Valid()
      ensures handleMap == old(handleMap) - {id} && id !in handleMap
    {
      handleMap := handleMap - {id};
    }

    /**
     * AGFS_OpenHandle: -1 on failure (the stored error id is dropped, so that
     * entry is never fetched), a fresh positive id on success. The lease
     * argument plays no part.
     */
    method OpenHandle(path: string, flags: int, mode: int, lease: int, openErr: Option<string>) returns (id: int)
      requires Valid()
      modifies this
      ensures Valid() && mounts == old(mounts)
      ensures fsCalls == old(fsCalls) + [OpenFile(path, flags, mode)]
      ensures openErr.Some? ==> id == -1 && handleMap == old(handleMap) && issuedHandleIds == old(issuedHandleIds)
      ensures openErr.Some? ==> ErrorAdded(old(errorBuffer), old(issuedErrorIds), old(errorIdGen), errorIdGen, openErr.value)
      ensures openErr.None? ==> 0 < id && id !in old(issuedHandleIds)
      ensures openErr.None? ==> handleMap == old(handleMap)[id := EngineHandle(path, flags)]
      ensures openErr.None? ==> errorBuffer == old(errorBuffer) && issuedErrorIds == old(issuedErrorIds)
    {
      fsCalls := fsCalls + [OpenFile(path, flags, mode)];
      if openErr.Some? {
        var _ := StoreError(openErr);
        return -1;
      }
      id := StoreHandle(EngineHandle(path, flags));
    }

    /**
     * AGFS_CloseHandle: an unknown id answers `{"error_id": 0}` and changes
     * nothing; a known id is removed from the table even when closing fails.
     */
    method CloseHandle(handleId: int, closeErr: Option<string>) returns (env: Envelope)
      requires Valid()
      modifies this`errorBuffer, this`errorIdGen, this`issuedErrorIds, this`fsCalls, this`handleMap
      ensures Valid()
      ensures handleId !in old(handleMap) ==> env == ErrorReply(0) && unchanged(this)
      ensures handleId in old(handleMap) ==> handleMap == old(handleMap) - {handleId}
      ensures handleId in old(handleMap) ==> fsCalls == old(fsCalls) + [CloseFile(handleId)]
      ensures handleId in old(handleMap) && closeErr.None? ==>
        env == Reply(Message("handle closed")) && errorBuffer == old(errorBuffer) && issuedErrorIds == old(issuedErrorIds)
      ensures handleId in old(handleMap) && closeErr.Some? ==>
        env == ErrorReply(errorIdGen) && ErrorAdded(old(errorBuffer), old(issuedErrorIds), old(errorIdGen), errorIdGen, closeErr.value)
    {
      if GetHandle(handleId).None? {
        return ErrorReply(0);
      }
      fsCalls := fsCalls + [CloseFile(handleId)];
      RemoveHandle(handleId);
      if closeErr.Some? {
        env := Fail(closeErr.value);
      } else {
        env := Reply(Message("handle closed"));
      }
    }

    /**
     * AGFS_HandleRead as written: the buffer is allocated with the requested
     * size before the read, so a negative size makes the Go runtime panic.
     */
    method HandleRead(handleId: int, size: int, offset: int, hasOffset: int, reply: IoReply) returns (out: ReadOutcome)
      requires Valid()
      requires 0 <= size ==> |reply.data| <= size
      modifies this`errorBuffer, this`errorIdGen, this`issuedErrorIds, this`fsCalls
      ensures Valid()
      ensures handleId !in handleMap ==> fsCalls == old(fsCalls) && out == Returned(ErrorReply(errorIdGen), 0, -1)
      ensures handleId !in handleMap ==> ErrorAdded(old(errorBuffer), old(issuedErrorIds), old(errorIdGen), errorIdGen, HandleNotFound)
      ensures handleId in handleMap && size < 0 ==> out == Panicked && unchanged(this)
      ensures handleId in handleMap && 0 <= size ==>
        fsCalls == old(fsCalls) + [if hasOffset != 0 then ReadAt(handleId, size, offset) else ReadSequential(handleId, size)]
      ensures handleId in handleMap && 0 <= size && ReadFailed(reply.err) ==>
        out == Returned(ErrorReply(errorIdGen), 0, -1) && ErrorAdded(old(errorBuffer), old(issuedErrorIds), old(errorIdGen), errorIdGen, reply.err.value)
      ensures handleId in handleMap && 0 <= size && !ReadFailed(reply.err) ==>
        out == Returned(Reply(Data(reply.data)), |reply.data|, 0) && errorBuffer == old(errorBuffer)
    {
      if GetHandle(handleId).None? {
        var env := Fail(HandleNotFound);
        return Returned(env, 0, -1);
      }
      if size < 0 {
        return Panicked;
      }
      out := ReadAfterLookup(handleId, size, offset, hasOffset, reply);
    }

    /**
     * AGFS_HandleRead without the panic: a negative size is passed on to the
     * file system as a request for everything up to the end of the file.
     */
    method HandleReadChecked(handleId: int, size: int, offset: int, hasOffset: int, reply: IoReply)
      returns (env: Envelope, n: int, status: int)
      requires Valid()
      requires 0 <= size ==> |reply.data| <= size
      modifies this`errorBuffer, this`errorIdGen, this`issuedErrorIds, this`fsCalls
      ensures Valid()
      ensures status == 0 || status == -1
      ensures handleId !in handleMap ==> fsCalls == old(fsCalls) && env == ErrorReply(errorIdGen) && n == 0 && status == -1
      ensures handleId !in handleMap ==> ErrorAdded(old(errorBuffer), old(issuedErrorIds), old(errorIdGen), errorIdGen, HandleNotFound)
      ensures handleId in handleMap ==>
        fsCalls == old(fsCalls) + [if hasOffset != 0 then ReadAt(handleId, size, offset) else ReadSequential(handleId, size)]
      ensures handleId in handleMap && ReadFailed(reply.err) ==>
        env == ErrorReply(errorIdGen) && n == 0 && status == -1
        && ErrorAdded(old(errorBuffer), old(issuedErrorIds), old(errorIdGen), errorIdGen, reply.err.value)
      ensures handleId in handleMap && !ReadFailed(reply.err) ==>
        env == Reply(Data(reply.data)) && n == |reply.data| && status == 0 && errorBuffer == old(errorBuffer)
    {
      if GetHandle(handleId).None? {
        env := Fail(HandleNotFound);
        return env, 0, -1;
      }
      var out := ReadAfterLookup(handleId, size, offset, hasOffset, reply);
      env, n, status := out.env, out.n, out.status;
    }

    /** The part of AGFS_HandleRead after the handle was found and the buffer allocated. */
    method ReadAfterLookup(handleId: int, size: int, offset: int, hasOffset: int, reply: IoReply) returns (out: ReadOutcome)
      requires Valid() && handleId in handleMap
      modifies this`errorBuffer, this`errorIdGen, this`issuedErrorIds, this`fsCalls
      ensures Valid() && out.Returned?
      ensures fsCalls == old(fsCalls) + [if hasOffset != 0 then ReadAt(handleId, size, offset) else ReadSequential(handleId, size)]
      ensures ReadFailed(reply.err) ==>
        out == Returned(ErrorReply(errorIdGen), 0, -1) && ErrorAdded(old(errorBuffer), old(issuedErrorIds), old(errorIdGen), errorIdGen, reply.err.value)
      ensures !ReadFailed(reply.err) ==>
        out == Returned(Reply(Data(reply.data)), |reply.data|, 0) && errorBuffer == old(errorBuffer)
    {
      if hasOffset != 0 {
        fsCalls := fsCalls + [ReadAt(handleId, size, offset)];
      } else {
        fsCalls := fsCalls + [ReadSequential(handleId, size)];
      }
      if ReadFailed(reply.err) {
        var env := Fail(reply.err.value);
        return Returned(env, 0, -1);
      }
      out := Returned(Reply(Data(reply.data)), |reply.data|, 0);
    }

    /** AGFS_HandleWrite: `has_offset` selects a positioned write; the reply reports the byte count. */
    method HandleWrite(handleId: int, data: seq<byte>, offset: int, hasOffset: int, reply: Result<int, string>)
      returns (env: Envelope)
      requires Valid()
      modifies this`errorBuffer, this`errorIdGen, this`issuedErrorIds, this`fsCalls
      ensures Valid()
      ensures handleId !in handleMap ==> fsCalls == old(fsCalls) && env == ErrorReply(errorIdGen)
      ensures handleId !in handleMap ==> ErrorAdded(old(errorBuffer), old(issuedErrorIds), old(errorIdGen), errorIdGen, HandleNotFound)
      ensures handleId in handleMap ==>
        fsCalls == old(fsCalls) + [if hasOffset != 0 then WriteAt(handleId, data, offset) else WriteSequential(handleId, data)]
      ensures handleId in handleMap && reply.Failure? ==>
        env == ErrorReply(errorIdGen) && ErrorAdded(old(errorBuffer), old(issuedErrorIds), old(errorIdGen), errorIdGen, reply.error)
      ensures handleId in handleMap && reply.Success? ==>
        env == Reply(BytesWritten(reply.value)) && errorBuffer == old(errorBuffer)
    {
      if GetHandle(handleId).None? {
        env := Fail(HandleNotFound);
        return;
      }
      if hasOffset != 0 {
        fsCalls := fsCalls + [WriteAt(handleId, data, offset)];
      } else {
        fsCalls := fsCalls + [WriteSequential(handleId, data)];
      }
      if reply.Failure? {
        env := Fail(reply.error);
      } else {
        env := Reply(BytesWritten(reply.value));
      }
    }

    /** AGFS_HandleSeek: the reply carries the new absolute position. */
    method HandleSeek(handleId: int, offset: int, whence: int, reply: Result<int, string>) returns (env: Envelope)
      requires Valid()
      modifies this`errorBuffer, this`errorIdGen, this`issuedErrorIds, this`fsCalls
      ensures Valid()
      ensures handleId !in handleMap ==> fsCalls == old(fsCalls) && env == ErrorReply(errorIdGen)
      ensures handleId !in handleMap ==> ErrorAdded(old(errorBuffer), old(issuedErrorIds), old(errorIdGen), errorIdGen, HandleNotFound)
      ensures handleId in handleMap ==> fsCalls == old(fsCalls) + [SeekFile(handleId, offset, whence)]
      ensures handleId in handleMap && reply.Failure? ==>
        env == ErrorReply(errorIdGen) && ErrorAdded(old(errorBuffer), old(issuedErrorIds), old(errorIdGen), errorIdGen, reply.error)
      ensures handleId in handleMap && reply.Success? ==>
        env == Reply(Position(reply.value)) && errorBuffer == old(errorBuffer)
    {
      if GetHandle(handleId).None? {
        env := Fail(HandleNotFound);
        return;
      }
      fsCalls := fsCalls + [SeekFile(handleId, offset, whence)];
      if reply.Failure? {
        env := Fail(reply.error);
      } else {
        env := Reply(Position(reply.value));
      }
    }

    /** AGFS_HandleSync. */
    method HandleSync(handleId: int, syncErr: Option<string>) returns (env: Envelope)
      requires Valid()
      modifies this`errorBuffer, this`errorIdGen, this`issuedErrorIds, this`fsCalls
      ensures Valid()
      ensures handleId !in handleMap ==> fsCalls == old(fsCalls) && env == ErrorReply(errorIdGen)
      ensures handleId !in handleMap ==> ErrorAdded(old(errorBuffer), old(issuedErrorIds), old(errorIdGen), errorIdGen, HandleNotFound)
      ensures handleId in handleMap ==> fsCalls == old(fsCalls) + [SyncFile(handleId)]
      ensures handleId in handleMap && syncErr.Some? ==>
        env == ErrorReply(errorIdGen) && ErrorAdded(old(errorBuffer), old(issuedErrorIds), old(errorIdGen), errorIdGen, syncErr.value)
      ensures handleId in handleMap && syncErr.None? ==>
        env == Reply(Message("synced")) && errorBuffer == old(errorBuffer)
    {
      if GetHandle(handleId).None? {
        env := Fail(HandleNotFound);
        return;
      }
      fsCalls := fsCalls + [SyncFile(handleId)];
      if syncErr.Some? {
        env := Fail(syncErr.value);
      } else {
        env := Reply(Message("synced"));
      }
    }

    /** AGFS_HandleStat. */
    method HandleStat(handleId: int, reply: Result<FileInfo, string>) returns (env: Envelope)
      requires Valid()
      modifies this`errorBuffer, this`errorIdGen, this`issuedErrorIds, this`fsCalls
      ensures Valid()
      ensures handleId !in handleMap ==> fsCalls == old(fsCalls) && env == ErrorReply(errorIdGen)
      ensures handleId !in handleMap ==> ErrorAdded(old(errorBuffer), old(issuedErrorIds), old(errorIdGen), errorIdGen, HandleNotFound)
      ensures handleId in handleMap ==> fsCalls == old(fsCalls) + [StatFile(handleId)]
      ensures handleId in handleMap && reply.Failure? ==>
        env == ErrorReply(errorIdGen) && ErrorAdded(old(errorBuffer), old(issuedErrorIds), old(errorIdGen), errorIdGen, reply.error)
      ensures handleId in handleMap && reply.Success? ==>
        env == Reply(Stat(reply.value)) && errorBuffer == old(errorBuffer)
    {
      if GetHandle(handleId).None? {
        env := Fail(HandleNotFound);
        return;
      }
      fsCalls := fsCalls + [StatFile(handleId)];
      if reply.Failure? {
        env := Fail(reply.error);
      } else {
        env := Reply(Stat(reply.value));
      }
    }

    /** AGFS_GetHandleInfo: id, path and flags of a known handle, without asking the file system. */
    method GetHandleInfo(handleId: int) returns (env: Envelope)
      requires Valid()
      modifies this`errorBuffer, this`errorIdGen, this`issuedErrorIds
      ensures Valid()
      ensures handleId !in handleMap ==>
        env == ErrorReply(errorIdGen) && ErrorAdded(old(errorBuffer), old(issuedErrorIds), old(errorIdGen), errorIdGen, HandleNotFound)
      ensures handleId in handleMap ==>
        env == Reply(HandleInfo(handleId, handleMap[handleId].path, handleMap[handleId].flags)) && unchanged(this)
    {
      var h := GetHandle(handleId);
      if h.None? {
        env := Fail(HandleNotFound);
      } else {
        env := Reply(HandleInfo(handleId, h.value.path, h.value.flags));
      }
    }

    /** AGFS_ListHandles: one entry per id in the handle table, in no particular order. */
    method ListHandles() returns (env: Envelope)
      requires Valid()
      ensures env.errorId.None? && env.payload.Handles?
      ensures ListsExactly(env.payload.entries, handleMap)
    {
      var remaining := handleMap.Keys;
      var entries: seq<HandleEntry> := [];
      while remaining != {}
        invariant remaining <= handleMap.Keys
        invariant forall i :: 0 <= i < |entries| ==>
          entries[i].handleId in handleMap && entries[i].handleId !in remaining
          && entries[i].path == handleMap[entries[i].handleId].path
        invariant forall id :: id in handleMap && id !in remaining ==>
          exists i :: 0 <= i < |entries| && entries[i].handleId == id
        invariant forall i, j :: 0 <= i < j < |entries| ==> entries[i].handleId != entries[j].handleId
        decreases remaining
      {
        if forall k :: k !in remaining {
          assert false;  // a non-empty set has an element
        }
        var id :| id in remaining;
        ghost var before := entries;
        entries := entries + [HandleEntry(id, handleMap[id].path)];
        remaining := remaining - {id};
        forall k | k in handleMap && k !in remaining
          ensures exists i :: 0 <= i < |entries| && entries[i].handleId == k
        {
          if k == id {
            assert entries[|before|].handleId == k;
          } else {
            var i :| 0 <= i < |before| && before[i].handleId == k;
            assert entries[i].handleId == k;
          }
        }
      }
      env := Reply(Handles(entries));
    }

    /**
     * AGFS_Read: end-of-file is not a failure; any other error answers with
     * the (positive) error id and leaves the output pointer untouched; empty
     * data gives no pointer, size 0 and status 0.
     */
    method Read(path: string, offset: int, size: int, reply: IoReply) returns (status: int, outData: Option<seq<byte>>)
      requires Valid()
      modifies this`errorBuffer, this`errorIdGen, this`issuedErrorIds, this`fsCalls
      ensures Valid()
      ensures fsCalls == old(fsCalls) + [ReadPath(path, offset, size)]
      ensures ReadFailed(reply.err) ==>
        status > 0 && outData.None? && ErrorAdded(old(errorBuffer), old(issuedErrorIds), old(errorIdGen), status, reply.err.value)
      ensures !ReadFailed(reply.err) ==> status == 0 && errorBuffer == old(errorBuffer)
      ensures !ReadFailed(reply.err) && reply.data == [] ==> outData.None?
      ensures !ReadFailed(reply.err) && reply.data != [] ==> outData == Some(reply.data)
    {
      fsCalls := fsCalls + [ReadPath(path, offset, size)];
      if ReadFailed(reply.err) {
        status := StoreError(reply.err);
        return status, None;
      }
      status := 0;
      outData := if |reply.data| > 0 then Some(reply.data) else None;
    }

    /** The envelope of a path operation: the stored error, or `ok`. */
    method Respond(err: Option<string>, ok: Payload) returns (env: Envelope)
      requires Valid()
      modifies this`errorBuffer, this`errorIdGen, this`issuedErrorIds
      ensures Valid()
      ensures err.Some? ==> env == ErrorReply(errorIdGen) && ErrorAdded(old(errorBuffer), old(issuedErrorIds), old(errorIdGen), errorIdGen, err.value)
      ensures err.None? ==> env == Reply(ok) && unchanged(this)
    {
      if err.Some? {
        env := Fail(err.value);
      } else {
        env := Reply(ok);
      }
    }

    /** AGFS_Rm: RemoveAll exactly when `recursive` is non-zero. */
    method Rm(path: string, recursive: int, rmErr: Option<string>) returns (env: Envelope)
      requires Valid()
      modifies this`errorBuffer, this`errorIdGen, this`issuedErrorIds, this`fsCalls
      ensures Valid()
      ensures |fsCalls| == |old(fsCalls)| + 1 && fsCalls[..|old(fsCalls)|] == old(fsCalls)
      ensures fsCalls[|old(fsCalls)|].RemoveAll? <==> recursive != 0
      ensures fsCalls[|old(fsCalls)|] in {Remove(path), RemoveAll(path)}
      ensures rmErr.Some? ==> env == ErrorReply(errorIdGen) && ErrorAdded(old(errorBuffer), old(issuedErrorIds), old(errorIdGen), errorIdGen, rmErr.value)
      ensures rmErr.None? ==> env == Reply(Message("deleted")) && errorBuffer == old(errorBuffer)
    {
      if recursive != 0 {
        fsCalls := fsCalls + [RemoveAll(path)];
      } else {
        fsCalls := fsCalls + [Remove(path)];
      }
      env := Respond(rmErr, Message("deleted"));
    }

    /** AGFS_Mkdir. */
    method Mkdir(path: string, mode: int, mkdirErr: Option<string>) returns (env: Envelope)
      requires Valid()
      modifies this`errorBuffer, this`errorIdGen, this`issuedErrorIds, this`fsCalls
      ensures Valid()
      ensures fsCalls == old(fsCalls) + [MakeDir(path, mode)]
      ensures mkdirErr.Some? ==> env == ErrorReply(errorIdGen) && ErrorAdded(old(errorBuffer), old(issuedErrorIds), old(errorIdGen), errorIdGen, mkdirErr.value)
      ensures mkdirErr.None? ==> env == Reply(Message("directory created")) && errorBuffer == old(errorBuffer)
    {
      fsCalls := fsCalls + [MakeDir(path, mode)];
      env := Respond(mkdirErr, Message("directory created"));
    }

    /**
     * AGFS_Mount: a configuration document that does not decode becomes the
     * empty configuration. Mounting fails at an occupied prefix or when the
     * plugin cannot be set up (`pluginErr`).
     */
    method Mount(fstype: string, path: string, configJson: Option<Config>, pluginErr: Option<string>) returns (env: Envelope)
      requires Valid()
      modifies this`errorBuffer, this`errorIdGen, this`issuedErrorIds, this`mounts
      ensures Valid()
      ensures IsFailure(env) <==> path in old(mounts) || pluginErr.Some?
      ensures path in old(mounts) ==>
        mounts == old(mounts) && env == ErrorReply(errorIdGen)
        && ErrorAdded(old(errorBuffer), old(issuedErrorIds), old(errorIdGen), errorIdGen, PrefixOccupied)
      ensures path !in old(mounts) && pluginErr.Some? ==>
        mounts == old(mounts) && env == ErrorReply(errorIdGen)
        && ErrorAdded(old(errorBuffer), old(issuedErrorIds), old(errorIdGen), errorIdGen, pluginErr.value)
      ensures path !in old(mounts) && pluginErr.None? ==>
        errorBuffer == old(errorBuffer)
        && mounts == old(mounts)[path := MountEntry(fstype, configJson.GetOr(map[]))]
        && env == Reply(Message("mounted " + fstype + " at " + path))
    {
      var config := if configJson.Some? then configJson.value else map[];
      if path in mounts {
        env := Fail(PrefixOccupied);
      } else if pluginErr.Some? {
        env := Fail(pluginErr.value);
      } else {
        mounts := mounts[path := MountEntry(fstype, config)];
        env := Reply(Message("mounted " + fstype + " at " + path));
      }
    }

    /** AGFS_Unmount: unless the file system refuses, whatever owns the prefix is detached. */
    method Unmount(path: string, refusal: Option<string>) returns (env: Envelope)
      requires Valid()
      modifies this`errorBuffer, this`errorIdGen, this`issuedErrorIds, this`mounts
      ensures Valid()
      ensures refusal.Some? ==>
        mounts == old(mounts) && env == ErrorReply(errorIdGen)
        && ErrorAdded(old(errorBuffer), old(issuedErrorIds), old(errorIdGen), errorIdGen, refusal.value)
      ensures refusal.None? ==>
        mounts == old(mounts) - {path} && errorBuffer == old(errorBuffer) && env == Reply(Message("unmounted"))
    {
      if refusal.Some? {
        env := Fail(refusal.value);
      } else {
        mounts := mounts - {path};
        env := Reply(Message("unmounted"));
      }
    }
  }
}
