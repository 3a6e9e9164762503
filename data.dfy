/** The flat-file key/value store: one JSON file `<dir>/<file>.json` per record. */
module Data {
  import opened Js

  /** A record's place in the store: its directory ("users", "checks") and its key. */
  datatype Path = Path(dir: string, file: string)

  /** The text of a stored file: the JSON serialisation of a value, or text that
      parseJsonToObject cannot parse (the empty file among them). */
  datatype FileText = Json(value: JsValue) | Unparsable(text: string)

  /** What `read` hands to its callback: (false, parsed data), (err, undefined) for a
      missing file, or (null, "") for an empty one, where both arguments are falsy. */
  datatype ReadResult = Loaded(data: JsValue) | Missing | Empty

  /** `read`: a present, non-empty file yields its parsed content (an object with no
      properties when it does not parse); a missing file yields the error. */
  function ReadFile(files: map<Path, FileText>, p: Path): (r: ReadResult)
    ensures r.Missing? <==> p !in files
    ensures p in files && files[p].Json? ==> r == Loaded(files[p].value)
    ensures r.Empty? <==> p in files && files[p] == Unparsable("")
    ensures p in files && files[p].Unparsable? && files[p].text != "" ==> r == Loaded(Obj(map[]))
  {
    if p !in files then Missing
    else match files[p]
      case Json(v) => Loaded(v)
      case Unparsable(t) => if t == "" then Empty else Loaded(Obj(map[]))
  }

  const CreateError := "Could not create new file, file may already exist"
  const UpdateError := "Could not open file, it may not exist yet"
  const DeleteError := "Error deleting file"

  class FileStore {
    var files: map<Path, FileText>

    constructor (initial: map<Path, FileText>)
      ensures files == initial
    {
      files := initial;
    }

    /** `read` on this store. */
    function Read(dir: string, file: string): ReadResult
      reads this
    {
      ReadFile(files, Path(dir, file))
    }

    /** `create` opens with flag 'wx': an existing key is an error and nothing changes;
        a fresh key gets exactly the serialised data and nothing else changes. */
    method Create(dir: string, file: string, data: JsValue) returns (err: Option<string>)
      modifies this
      ensures Path(dir, file) in old(files) ==> err == Some(CreateError) && files == old(files)
      ensures Path(dir, file) !in old(files) ==>
                err == None && files == old(files)[Path(dir, file) := Json(data)]
    {
      var p := Path(dir, file);
      if p in files {
        err := Some(CreateError);
      } else {
        files := files[p := Json(data)];
        err := None;
      }
    }

    /** `update` opens with flag 'r+', truncates and rewrites: a missing key is an error and
        nothing changes; otherwise the whole value is replaced and nothing else changes. */
    method Update(dir: string, file: string, data: JsValue) returns (err: Option<string>)
      modifies this
      ensures Path(dir, file) !in old(files) ==> err == Some(UpdateError) && files == old(files)
      ensures Path(dir, file) in old(files) ==>
                err == None && files == old(files)[Path(dir, file) := Json(data)]
    {
      var p := Path(dir, file);
      if p !in files {
        err := Some(UpdateError);
      } else {
        files := files[p := Json(data)];
        err := None;
      }
    }

    /** `delete` unlinks the file: exactly that key disappears; a missing key is an error. */
    method Delete(dir: string, file: string) returns (err: Option<string>)
      modifies this
      ensures Path(dir, file) !in old(files) ==> err == Some(DeleteError) && files == old(files)
      ensures Path(dir, file) in old(files) ==>
                err == None && files == old(files) - {Path(dir, file)}
    {
      var p := Path(dir, file);
      if p !in files {
        err := Some(DeleteError);
      } else {
        files := files - {p};
        err := None;
      }
    }
  }

  /** The names `list` reports for directory entries: each with its first ".json" removed. */
  function KeysOfNames(names: seq<string>): (keys: seq<string>)
    ensures |keys| == |names|
    ensures forall i :: 0 <= i < |names| ==> keys[i] == ReplaceFirst(names[i], ".json", "")
  {
    seq(|names|, i requires 0 <= i < |names| => ReplaceFirst(names[i], ".json", ""))
  }

  /** The entry names of a directory holding the given keys. */
  function JsonNames(keys: seq<string>): (names: seq<string>)
    ensures |names| == |keys| && forall i :: 0 <= i < |keys| ==> names[i] == keys[i] + ".json"
  {
    seq(|keys|, i requires 0 <= i < |keys| => keys[i] + ".json")
  }

  /** `list` gives back the keys of a directory it lists, in readdir order, as long as no
      key itself contains a dot. */
  lemma ListRecoversKeys(keys: seq<string>)
    requires forall i :: 0 <= i < |keys| ==> '.' !in keys[i]
    ensures KeysOfNames(JsonNames(keys)) == keys
  {
    forall i | 0 <= i < |keys|
      ensures KeysOfNames(JsonNames(keys))[i] == keys[i]
    {
      StripExtension(keys[i], ".json");
    }
  }

  /** `list(dir)`: a failed or empty readdir is handed on unchanged; otherwise every entry,
      in order and unfiltered, with its first ".json" removed. */
  method List(dir: DirRead) returns (r: DirRead)
    ensures dir.ReadDirFailed? || dir.names == [] ==> r == dir
    ensures dir.DirEntries? && dir.names != [] ==> r == DirEntries(KeysOfNames(dir.names))
  {
    if dir.ReadDirFailed? || |dir.names| == 0 {
      return dir;
    }
    var data := dir.names;
    var trimmed: seq<string> := [];
    var i := 0;
    while i < |data|
      invariant 0 <= i <= |data|
      invariant trimmed == KeysOfNames(data[..i])
    {
      trimmed := trimmed + [ReplaceFirst(data[i], ".json", "")];
      i := i + 1;
    }
    assert data[..i] == data;
    r := DirEntries(trimmed);
  }
}
