/** The log library: one live log `<id>.log` per check, compressed archives `<id>.gz.b64`,
    all in one directory modelled as a map from file name to text. */
module Logs {
  import opened Js

  function LogName(file: string): string { file + ".log" }

  function ArchiveName(fileId: string): string { fileId + ".gz.b64" }

  /** A live log name and an archive name never coincide: they end in different characters. */
  lemma LiveAndArchiveNamesDiffer(a: string, b: string)
    ensures LogName(a) != ArchiveName(b)
  {
    var x, y := LogName(a), ArchiveName(b);
    assert x[|x| - 1] == 'g' && y[|y| - 1] == '4';
  }

  /** zlib.gzip followed by Buffer.toString('base64'), and Buffer.from(…, 'base64') followed by
      zlib.unzip: an opaque pair of functions of which only their inverse law is known. */
  datatype Codec = Codec(gzipBase64: string -> string, unzipBase64: string -> Option<string>)

  /** Decoding an encoded text gives it back, and an encoding is never the empty text. */
  ghost predicate Inverse(c: Codec) {
    forall s {:trigger c.gzipBase64(s)} ::
      c.gzipBase64(s) != "" && c.unzipBase64(c.gzipBase64(s)) == Some(s)
  }

  /** The directory after an operation, with the error (if any) its callback received. */
  datatype DirChange = DirChange(err: Option<string>, files: map<string, string>)

  /** What decompress hands to its callback: (false, text), (err), or, for an empty archive
      file, (null) with no text at all. */
  datatype Inflate = Inflated(text: string) | InflateFailed(err: string) | NothingRead

  const NoSuchFile := "ENOENT"
  const FileExists := "EEXIST"
  const NotGzip := "Z_DATA_ERROR"

  /** `append(file, str)`: `<file>.log` is created when absent and ends with `str` and a
      newline; every other file is unchanged. */
  function AppendSpec(files: map<string, string>, file: string, str: string): (r: map<string, string>)
    ensures r.Keys == files.Keys + {LogName(file)}
    ensures r[LogName(file)] ==
              (if LogName(file) in files then files[LogName(file)] else "") + str + "\n"
    ensures forall n :: n in files && n != LogName(file) ==> r[n] == files[n]
  {
    var name := LogName(file);
    files[name := (if name in files then files[name] else "") + str + "\n"]
  }

  /** `compress(logId, newFileId)`. The archive is opened with flag 'wx', so an existing
      archive is never overwritten; the source is only read; an empty source writes nothing
      and reports no error. */
  function CompressSpec(files: map<string, string>, logId: string, newFileId: string, codec: Codec)
    : (r: DirChange)
    ensures r.err.None? <==>
              LogName(logId) in files &&
              (files[LogName(logId)] == "" || ArchiveName(newFileId) !in files)
    ensures r.err.Some? ==> r.files == files
    ensures ArchiveName(newFileId) in files ==> r.files == files
    ensures LogName(logId) in files && files[LogName(logId)] == "" ==> r == DirChange(None, files)
    ensures forall n :: n in files ==> n in r.files && r.files[n] == files[n]
    ensures r.files.Keys <= files.Keys + {ArchiveName(newFileId)}
    ensures r.err.None? && files[LogName(logId)] != "" ==>
              r.files == files[ArchiveName(newFileId) := codec.gzipBase64(files[LogName(logId)])]
  {
    var source, destination := LogName(logId), ArchiveName(newFileId);
    if source !in files then DirChange(Some(NoSuchFile), files)
    else if files[source] == "" then DirChange(None, files)
    else if destination in files then DirChange(Some(FileExists), files)
    else DirChange(None, files[destination := codec.gzipBase64(files[source])])
  }

  /** `decompress(fileId)` reads `<fileId>.gz.b64` and decodes it. */
  function DecompressSpec(files: map<string, string>, fileId: string, codec: Codec): (r: Inflate)
    ensures ArchiveName(fileId) !in files ==> r == InflateFailed(NoSuchFile)
    ensures ArchiveName(fileId) in files && files[ArchiveName(fileId)] == "" ==> r == NothingRead
    ensures r.Inflated? <==>
              ArchiveName(fileId) in files && files[ArchiveName(fileId)] != ""
              && codec.unzipBase64(files[ArchiveName(fileId)]).Some?
    ensures r.Inflated? ==> codec.unzipBase64(files[ArchiveName(fileId)]) == Some(r.text)
    ensures (ArchiveName(fileId) in files && files[ArchiveName(fileId)] != ""
             && codec.unzipBase64(files[ArchiveName(fileId)]).None?) ==> r == InflateFailed(NotGzip)
  {
    var name := ArchiveName(fileId);
    if name !in files then InflateFailed(NoSuchFile)
    else if files[name] == "" then NothingRead
    else match codec.unzipBase64(files[name])
      case Some(text) => Inflated(text)
      case None => InflateFailed(NotGzip)
  }

  /** `truncate(logId)`: `<logId>.log` becomes empty and nothing else changes; a missing log
      is an error. */
  function TruncateSpec(files: map<string, string>, logId: string): (r: DirChange)
    ensures r.err.None? <==> LogName(logId) in files
    ensures r.files.Keys == files.Keys
    ensures LogName(logId) in files ==> r.files[LogName(logId)] == ""
    ensures forall n :: n in files && n != LogName(logId) ==> r.files[n] == files[n]
  {
    var name := LogName(logId);
    if name in files then DirChange(None, files[name := ""]) else DirChange(Some(NoSuchFile), files)
  }

  /** Truncating twice is truncating once, and truncating an empty log succeeds. */
  lemma TruncateIdempotent(files: map<string, string>, logId: string)
    ensures var once := TruncateSpec(files, logId);
            TruncateSpec(once.files, logId) == once
  {
  }

  /** Decompressing the archive that compress wrote gives back the original log text. */
  lemma CompressRoundTrip(files: map<string, string>, logId: string, newFileId: string, codec: Codec)
    requires Inverse(codec)
    requires CompressSpec(files, logId, newFileId, codec).err.None?
    requires files[LogName(logId)] != ""
    ensures DecompressSpec(CompressSpec(files, logId, newFileId, codec).files, newFileId, codec)
            == Inflated(files[LogName(logId)])
  {
    var text := files[LogName(logId)];
    assert codec.unzipBase64(codec.gzipBase64(text)) == Some(text);
  }

  // ---------------------------------------------------------------------------
  // list

  /** What one directory entry contributes to `list`: a name containing ".log" without its
      first ".log", then, when compressed logs are wanted, a name containing ".gz.b64" without
      its first ".gz.b64". */
  function ListedName(name: string, includeCompressedLogs: bool): seq<string> {
    (if Contains(name, ".log") then [ReplaceFirst(name, ".log", "")] else [])
    + (if Contains(name, ".gz.b64") && includeCompressedLogs then [ReplaceFirst(name, ".gz.b64", "")] else [])
  }

  function LogNames(names: seq<string>, includeCompressedLogs: bool): seq<string> {
    if names == [] then []
    else LogNames(names[..|names| - 1], includeCompressedLogs) + ListedName(names[|names| - 1], includeCompressedLogs)
  }

  /** Listing keeps directory order: the listing of two runs of entries is the listing of the
      first followed by that of the second. */
  lemma {:induction false} LogNamesAppend(a: seq<string>, b: seq<string>, includeCompressedLogs: bool)
    ensures LogNames(a + b, includeCompressedLogs)
            == LogNames(a, includeCompressedLogs) + LogNames(b, includeCompressedLogs)
    decreases |b|
  {
    if b == [] {
      assert a + b == a;
    } else {
      var b' := b[..|b| - 1];
      assert (a + b)[..|a + b| - 1] == a + b';
      LogNamesAppend(a, b', includeCompressedLogs);
    }
  }

  /** A live log `<id>.log` is listed as `<id>` whatever the flag. */
  lemma LiveLogListed(id: string, includeCompressedLogs: bool)
    requires '.' !in id
    ensures ListedName(LogName(id), includeCompressedLogs) == [id]
  {
    StripExtension(id, ".log");
    var s := LogName(id);
    var i := IndexOf(s, ".gz.b64");
    if i != -1 {
      if i < |id| {
        NoDotNoEarlyOccurrence(id, ".log", ".gz.b64", i);
      }
    }
  }

  /** An archive `<id>.gz.b64` is listed as `<id>` only when compressed logs are wanted. */
  lemma ArchiveListed(id: string, includeCompressedLogs: bool)
    requires '.' !in id
    ensures ListedName(ArchiveName(id), includeCompressedLogs) == if includeCompressedLogs then [id] else []
  {
    StripExtension(id, ".gz.b64");
    NoLogInArchiveName(id);
  }

  lemma NoLogInArchiveName(id: string)
    requires '.' !in id
    ensures !Contains(ArchiveName(id), ".log")
  {
    var s := ArchiveName(id);
    forall i | 0 <= i < |id|
      ensures !OccursAt(s, ".log", i)
    {
      NoDotNoEarlyOccurrence(id, ".gz.b64", ".log", i);
    }
    forall i | |id| <= i
      ensures !OccursAt(s, ".log", i)
    {
      if i + 4 <= |s| {
        assert s[i + 1] == ".gz.b64"[i + 1 - |id|];
        assert s[i..i + 4][1] == s[i + 1];
      }
    }
  }

  /** `list(includeCompressedLogs)`: a failed or empty readdir is handed on unchanged;
      otherwise the listed names of the entries, in directory order. */
  method List(dir: DirRead, includeCompressedLogs: bool) returns (r: DirRead)
    ensures dir.ReadDirFailed? || dir.names == [] ==> r == dir
    ensures dir.DirEntries? && dir.names != [] ==> r == DirEntries(LogNames(dir.names, includeCompressedLogs))
  {
    if dir.ReadDirFailed? || |dir.names| == 0 {
      return dir;
    }
    var data := dir.names;
    var trimmedFileNames: seq<string> := [];
    var i := 0;
    while i < |data|
      invariant 0 <= i <= |data|
      invariant trimmedFileNames == LogNames(data[..i], includeCompressedLogs)
    {
      var fileName := data[i];
      if Contains(fileName, ".log") {
        trimmedFileNames := trimmedFileNames + [ReplaceFirst(fileName, ".log", "")];
      }
      if Contains(fileName, ".gz.b64") && includeCompressedLogs {
        trimmedFileNames := trimmedFileNames + [ReplaceFirst(fileName, ".gz.b64", "")];
      }
      assert data[..i + 1][..i] == data[..i];
      i := i + 1;
    }
    assert data[..i] == data;
    r := DirEntries(trimmedFileNames);
  }

  /** The log directory. The callbacks' I/O failures other than a missing or existing file
      are not modelled. */
  class LogDir {
    var files: map<string, string>
    const codec: Codec

    constructor (initial: map<string, string>, codec: Codec)
      ensures files == initial && this.codec == codec
    {
      files := initial;
      this.codec := codec;
    }

    method Append(file: string, str: string)
      modifies this
      ensures files == AppendSpec(old(files), file, str)
    {
      var name := LogName(file);
      var current := if name in files then files[name] else "";
      files := files[name := current + str + "\n"];
    }

    method Compress(logId: string, newFileId: string) returns (err: Option<string>)
      modifies this
      ensures DirChange(err, files) == CompressSpec(old(files), logId, newFileId, codec)
    {
      var sourceFile, destinationFile := LogName(logId), ArchiveName(newFileId);
      if sourceFile !in files || files[sourceFile] == "" {
        err := if sourceFile in files then None else Some(NoSuchFile);
        return;
      }
      var inputString := files[sourceFile];
      if destinationFile in files {
        err := Some(FileExists);
        return;
      }
      files := files[destinationFile := codec.gzipBase64(inputString)];
      err := None;
    }

    /** `decompress(fileId)` on this directory; it changes nothing. */
    function Decompress(fileId: string): (r: Inflate)
      reads this
      ensures ArchiveName(fileId) !in files ==> r == InflateFailed(NoSuchFile)
      ensures ArchiveName(fileId) in files && files[ArchiveName(fileId)] == "" ==> r == NothingRead
      ensures r.Inflated? <==>
                ArchiveName(fileId) in files && files[ArchiveName(fileId)] != ""
                && codec.unzipBase64(files[ArchiveName(fileId)]).Some?
      ensures r.Inflated? ==> codec.unzipBase64(files[ArchiveName(fileId)]) == Some(r.text)
      ensures (ArchiveName(fileId) in files && files[ArchiveName(fileId)] != ""
               && codec.unzipBase64(files[ArchiveName(fileId)]).None?) ==> r == InflateFailed(NotGzip)
    {
      DecompressSpec(files, fileId, codec)
    }

    method Truncate(logId: string) returns (err: Option<string>)
      modifies this
      ensures DirChange(err, files) == TruncateSpec(old(files), logId)
    {
      var name := LogName(logId);
      if name in files {
        files := files[name := ""];
        err := None;
      } else {
        err := Some(NoSuchFile);
      }
    }
  }
}
