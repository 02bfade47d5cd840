/** The file utility: decoding READ/WRITE flags into a C `fopen` mode
    string, the open/closed state of a file handle, and the result rules of
    whole-buffer reads and writes. `fopen`, `fread` and `fwrite` are not
    modelled; their outcomes are inputs. */
module Filesystem {
  import opened Common

  /** `file_modes`. */
  const FileModeRead: bv32 := 0x1
  const FileModeWrite: bv32 := 0x2

  /** An open C stream; opaque. */
  datatype FileId = FileId(id: nat)

  /** `file_handle`: the stream pointer (`None` is null) and the validity flag. */
  datatype FileHandle = FileHandle(handle: Option<FileId>, isValid: bool)

  /** The handle `filesystem_open` starts from and leaves on failure. */
  const ClosedHandle: FileHandle := FileHandle(None, false)

  datatype OpenResult = OpenResult(ok: bool, handle: FileHandle)

  /** `bytesTransferred` is `None` when the out-parameter is not written. */
  datatype TransferResult = TransferResult(ok: bool, bytesTransferred: Option<nat>)

  predicate Reads(mode: bv32)
  {
    mode & FileModeRead != 0
  }

  predicate Writes(mode: bv32)
  {
    mode & FileModeWrite != 0
  }

  /** What a C `fopen` mode string does, as section 7.21.5.3 of the C11
      standard defines the modes this module produces: whether the stream
      reads and writes, whether opening truncates the file to zero length
      (creating it when missing) rather than failing when the file does
      not exist, and whether it is a binary stream. */
  datatype Access = Access(read: bool, write: bool, truncates: bool, binary: bool)

  function FopenAccess(mode: string): Option<Access>
  {
    if mode == "r" then Some(Access(true, false, false, false))
    else if mode == "rb" then Some(Access(true, false, false, true))
    else if mode == "w" then Some(Access(false, true, true, false))
    else if mode == "wb" then Some(Access(false, true, true, true))
    else if mode == "w+" then Some(Access(true, true, true, false))
    else if mode == "w+b" then Some(Access(true, true, true, true))
    else None
  }

  /** The `fopen` mode string for `mode`, or `None` when neither flag is
      set. Every mode that writes truncates, so asking for READ and WRITE
      together empties the file before anything can be read from it. */
  function ModeString(mode: bv32, binary: bool): (r: Option<string>)
    ensures r.None? <==> !Reads(mode) && !Writes(mode)
    ensures r.Some? ==> FopenAccess(r.value) == Some(Access(Reads(mode), Writes(mode), Writes(mode), binary))
  {
    if Reads(mode) && Writes(mode) then Some(if binary then "w+b" else "w+")
    else if Reads(mode) && !Writes(mode) then Some(if binary then "rb" else "r")
    else if !Reads(mode) && Writes(mode) then Some(if binary then "wb" else "w")
    else None
  }

  /** Different requests never share a mode string. */
  lemma ModeStringInjective(mode1: bv32, binary1: bool, mode2: bv32, binary2: bool)
    requires ModeString(mode1, binary1).Some?
    requires ModeString(mode1, binary1) == ModeString(mode2, binary2)
    ensures Reads(mode1) == Reads(mode2) && Writes(mode1) == Writes(mode2) && binary1 == binary2
  {
  }

  /** Opening for reading and writing discards the file's contents. */
  lemma ReadWriteTruncates(binary: bool)
    ensures var mode := ModeString(FileModeRead | FileModeWrite, binary);
            mode.Some? && FopenAccess(mode.value).Some?
            && FopenAccess(mode.value).value.read && FopenAccess(mode.value).value.truncates
  {
  }

  /** `filesystem_open`. `fopen` stands for the C library call: the stream
      it opens for a path and mode string, or `None` when it fails. */
  function Open(path: string, mode: bv32, binary: bool, fopen: (string, string) -> Option<FileId>): (r: OpenResult)
    ensures r.ok <==> ModeString(mode, binary).Some? && fopen(path, ModeString(mode, binary).value).Some?
    ensures r.ok ==> r.handle == FileHandle(fopen(path, ModeString(mode, binary).value), true)
    ensures r.ok ==> r.handle.handle.Some? && r.handle.isValid
    ensures !r.ok ==> r.handle == ClosedHandle
  {
    match ModeString(mode, binary)
    case None => OpenResult(false, ClosedHandle)
    case Some(modeString) =>
      match fopen(path, modeString)
      case None => OpenResult(false, ClosedHandle)
      case Some(file) => OpenResult(true, FileHandle(Some(file), true))
  }

  /** `filesystem_close`: an open handle becomes null and invalid; a null
      handle is left as it is. */
  function Close(h: FileHandle): (r: FileHandle)
    ensures r.handle.None?
    ensures h.handle.Some? ==> r == ClosedHandle
    ensures h.handle.None? ==> r == h
  {
    if h.handle.Some? then FileHandle(None, false) else h
  }

  lemma CloseIdempotent(h: FileHandle)
    ensures Close(Close(h)) == Close(h)
  {
  }

  /** Whatever `filesystem_open` returns, closing it leaves the same
      handle as a failed open. */
  lemma CloseAfterOpen(path: string, mode: bv32, binary: bool, fopen: (string, string) -> Option<FileId>)
    ensures Close(Open(path, mode, binary, fopen).handle) == ClosedHandle
  {
  }

  /** `filesystem_read` of `dataSize` bytes into a buffer that is present
      when `hasBuffer`; `transferred` is what `fread` returns. */
  function Read(h: FileHandle, dataSize: nat, hasBuffer: bool, transferred: nat): (r: TransferResult)
    requires transferred <= dataSize
    ensures h.handle.None? || !hasBuffer ==> r == TransferResult(false, None)
    ensures h.handle.Some? && hasBuffer ==> r.bytesTransferred == Some(transferred)
    ensures r.ok <==> h.handle.Some? && hasBuffer && transferred == dataSize
  {
    if h.handle.Some? && hasBuffer then TransferResult(transferred == dataSize, Some(transferred))
    else TransferResult(false, None)
  }

  /** `filesystem_write` of `dataSize` bytes; `transferred` is what
      `fwrite` returns. Unlike a read, the data pointer is not checked. */
  function Write(h: FileHandle, dataSize: nat, transferred: nat): (r: TransferResult)
    requires transferred <= dataSize
    ensures h.handle.None? ==> r == TransferResult(false, None)
    ensures h.handle.Some? ==> r.bytesTransferred == Some(transferred)
    ensures r.ok <==> h.handle.Some? && transferred == dataSize
  {
    if h.handle.Some? then TransferResult(transferred == dataSize, Some(transferred))
    else TransferResult(false, None)
  }

  /** A closed handle neither reads nor writes. */
  lemma ClosedHandleTransfersNothing(h: FileHandle, dataSize: nat, hasBuffer: bool, transferred: nat)
    requires transferred <= dataSize
    ensures !Read(Close(h), dataSize, hasBuffer, transferred).ok
    ensures !Write(Close(h), dataSize, transferred).ok
  {
  }
}
