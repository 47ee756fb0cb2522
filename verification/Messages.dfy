/** The Remote Execution API v2 messages the tools build, and the digest that addresses them. */
module Messages {
  import opened Names

  newtype byte = x: int | 0 <= x < 256

  type Bytes = seq<byte>

  /** Pieces of data, put together. */
  function Joined(pieces: seq<Bytes>): Bytes {
    if pieces == [] then [] else Joined(pieces[..|pieces| - 1]) + pieces[|pieces| - 1]
  }

  datatype Digest = Digest(hash: string, size: int)

  datatype FileNode = FileNode(name: string, digest: Option<Digest>, exec: bool)

  datatype DirectoryNode = DirectoryNode(name: string, digest: Option<Digest>)

  datatype SymlinkNode = SymlinkNode(name: string, target: string)

  datatype Directory = Directory(
    files: seq<FileNode>, directories: seq<DirectoryNode>, symlinks: seq<SymlinkNode>)

  /** A root directory and every directory below it, flattened into one message. */
  datatype TreeMessage = TreeMessage(root: Option<Directory>, children: seq<Directory>)

  datatype Command = Command(arguments: seq<string>, outputPaths: seq<string>)

  datatype Action = Action(commandDigest: Digest, inputRoot: Digest, doNotCache: bool)

  datatype OutputFile = OutputFile(path: string, digest: Option<Digest>, exec: bool)

  datatype OutputDirectory = OutputDirectory(
    path: string, treeDigest: Option<Digest>, rootDigest: Option<Digest>)

  datatype ActionResult = ActionResult(
    exitCode: int,
    stdoutRaw: Bytes, stdoutDigest: Option<Digest>,
    stderrRaw: Bytes, stderrDigest: Option<Digest>,
    outputFiles: seq<OutputFile>, outputDirectories: seq<OutputDirectory>)

  datatype Status = Status(code: int, message: string)

  datatype Error =
    | Rpc
    | MalformedResponse
    | BlobStatus(hash: string)
    | Decode
    | MalformedTree
    | MalformedActionResult
    | InvalidPath
    | MissingOutput
    | UnsupportedOutput
    | WrongSize
    | WrongHash
    | Io

  /** Content together with the digest that addresses it. */
  datatype Blob = Blob(digest: Digest, data: Bytes)

  function FileName(n: FileNode): string { n.name }
  function DirectoryName(n: DirectoryNode): string { n.name }
  function SymlinkName(n: SymlinkNode): string { n.name }

  /** The hash function and the message encoding, as parameters of everything else. */
  datatype Codec = Codec(
    hash: Bytes -> string,
    encodeDirectory: Directory -> Bytes,
    decodeDirectory: Bytes -> Option<Directory>,
    encodeTree: TreeMessage -> Bytes,
    decodeTree: Bytes -> Option<TreeMessage>,
    encodeCommand: Command -> Bytes,
    decodeCommand: Bytes -> Option<Command>,
    encodeAction: Action -> Bytes,
    decodeAction: Bytes -> Option<Action>)
  {
    function DigestOf(data: Bytes): Digest { Digest(hash(data), |data|) }

    function BlobOf(data: Bytes): Blob { Blob(DigestOf(data), data) }

    /** Decoding undoes encoding. */
    ghost predicate Lawful() {
      && (forall m :: decodeDirectory(encodeDirectory(m)) == Some(m))
      && (forall m :: decodeTree(encodeTree(m)) == Some(m))
      && (forall m :: decodeCommand(encodeCommand(m)) == Some(m))
      && (forall m :: decodeAction(encodeAction(m)) == Some(m))
    }

    /** No two different blobs of a finite set share a hash. */
    ghost predicate NoCollision(blobs: set<Bytes>) {
      forall a, b :: a in blobs && b in blobs && hash(a) == hash(b) ==> a == b
    }
  }
}
