/**
 * What both upload components see of a browser `File`, and the shared shape of
 * their client-side validators: a MIME-type allow-list checked first, then a
 * size limit in bytes.
 */
module Files {
  import opened Wrappers

  /** The parts of a selected file the components read: its name, MIME type and byte size. */
  datatype FileInfo = FileInfo(name: string, mimeType: string, size: nat)

  /** Why a validator refused a file; the message text (and its float MB figure) is not modelled. */
  datatype FileError = BadType(mimeType: string) | TooLarge(size: nat)

  /**
   * A validator over an allow-list and a limit: `None` means the file is accepted.
   * A file that fails both tests is reported as a type error.
   */
  function CheckFile(allowed: seq<string>, limit: nat, f: FileInfo): (r: Option<FileError>)
    ensures r == None <==> f.mimeType in allowed && f.size <= limit
    ensures r == Some(BadType(f.mimeType)) <==> f.mimeType !in allowed
    ensures r == Some(TooLarge(f.size)) <==> f.mimeType in allowed && limit < f.size
  {
    if f.mimeType !in allowed then Some(BadType(f.mimeType))
    else if f.size > limit then Some(TooLarge(f.size))
    else None
  }
}
