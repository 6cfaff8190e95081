/** The ways a media attachment can point at a file (the library's `TelegramFile`). */
module Files {

  /** A file on the caller's disk; only its identity matters here, its bytes are never read. */
  datatype LocalFile = LocalFile(path: string)

  /** A file reference. `ByFileId` names a file already on the server, `ByUrl` a file the
      server fetches, `ByFile` a local file to upload. `ByOther` stands for every further
      reference kind of the library, whose shape this model does not need. */
  datatype TelegramFile =
    | ByFileId(fileId: string)
    | ByUrl(url: string)
    | ByFile(file: LocalFile)
    | ByOther(handle: nat)

  /** The type of the `thumb` fields: only a local file may be given as a thumbnail. */
  type RawFileReference = f: TelegramFile | f.ByFile? witness ByFile(LocalFile(""))
}
