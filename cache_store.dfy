/** The per-user cache directory `~/.email_deliverability` with one JSON file
    per resource, and the Python file operations the repair scripts use on it. */
module CacheStore {
  import opened JsonValue

  /** The Python exceptions that reading a resource file or inspecting its
      contents can raise. */
  datatype PyError =
    | JSONDecodeError     // the text is not valid JSON
    | IOError             // the file exists but cannot be opened or read
    | UnicodeDecodeError  // the bytes are not text in the locale encoding
    | RecursionError      // the document nests deeper than the interpreter's recursion limit
    | ValueError          // an integer literal longer than the interpreter's digit limit
    | TypeError           // `len` of a value that has no length

  /** What a file's bytes amount to when they are read as JSON text. */
  datatype Contents =
    | NotText              // not text in the locale encoding
    | Malformed            // text, but not valid JSON
    | TooDeep              // valid JSON nested too deep to decode
    | LongInteger          // valid JSON with an integer too long to convert
    | Document(value: Json)

  /** Contents whose decoding raises something other than `JSONDecodeError`. */
  predicate DecodeEscapes(c: Contents) {
    c == NotText || c == TooDeep || c == LongInteger
  }

  /** The state of one path: absent, or a file with its contents and whether
      this process may read it. Opening with 'w' replaces the contents and
      keeps the permissions, so a write-only file stays unreadable. */
  datatype FileState =
    | Absent
    | File(readable: bool, contents: Contents)

  /** How a Python function call ends: a returned boolean or an exception that
      escapes it. */
  datatype Outcome = Returned(fixed: bool) | Raised(error: PyError)

  /** The cache directory as a value: whether the directory exists, and the
      file under each name in it. */
  datatype Snapshot = Snapshot(dirPresent: bool, files: map<string, FileState>)

  /** The new state of the cache directory after one repair call, and how the
      call ended. */
  datatype Run = Run(after: Snapshot, result: Outcome)

  /** A real directory listing: a file lives in an existing directory, and a
      name listed in it is not absent. */
  ghost predicate WellFormed(s: Snapshot) {
    forall name :: name in s.files ==> s.dirPresent && s.files[name] != Absent
  }

  /** The state of the path `name` in the cache directory; `os.path.exists`
      is `Lookup(s, name) != Absent`. */
  function Lookup(s: Snapshot, name: string): (f: FileState)
    ensures WellFormed(s) ==> (f != Absent <==> name in s.files)
    ensures f != Absent ==> name in s.files && s.files[name] == f
  {
    if name in s.files then s.files[name] else Absent
  }

  /** A file that exists but cannot be opened for reading. */
  predicate IsUnreadable(f: FileState) {
    f.File? && !f.readable
  }

  datatype Result = Loaded(value: Json) | Failed(error: PyError)

  /** What `open(path, 'r')` followed by `json.load` produces for a file. */
  function LoadOf(f: FileState): (r: Result)
    ensures r.Loaded? <==> f.File? && f.readable && f.contents.Document?
    ensures r.Loaded? ==> r.value == f.contents.value
    ensures f == Absent || IsUnreadable(f) ==> r == Failed(IOError)
    ensures f == File(true, Malformed) ==> r == Failed(JSONDecodeError)
    ensures f == File(true, NotText) ==> r == Failed(UnicodeDecodeError)
    ensures f == File(true, TooDeep) ==> r == Failed(RecursionError)
    ensures f == File(true, LongInteger) ==> r == Failed(ValueError)
  {
    match f
    case Absent => Failed(IOError)
    case File(readable, contents) =>
      if !readable then Failed(IOError)
      else match contents
        case NotText => Failed(UnicodeDecodeError)
        case TooDeep => Failed(RecursionError)
        case LongInteger => Failed(ValueError)
        case Malformed => Failed(JSONDecodeError)
        case Document(v) => Loaded(v)
  }

  /** The scripts' `except (json.JSONDecodeError, IOError)` clause: every
      other exception escapes it. */
  predicate Caught(e: PyError)
    ensures !Caught(e) <==> e in {UnicodeDecodeError, RecursionError, ValueError, TypeError}
  {
    e == JSONDecodeError || e == IOError
  }

  /** `os.makedirs(cache_dir, exist_ok=True)`. */
  function WithDirectory(s: Snapshot): (r: Snapshot)
    ensures r.dirPresent && r.files == s.files
  {
    s.(dirPresent := true)
  }

  /** `json.dump(v, open(path, 'w'))`: the file under `name` is created or
      truncated and now holds `v`. A new file is readable; an existing one
      keeps its permissions. */
  function Save(s: Snapshot, name: string, v: Json): (r: Snapshot)
    ensures Lookup(r, name).File? && Lookup(r, name).contents == Document(v)
    ensures Lookup(r, name).readable == (Lookup(s, name) == Absent || Lookup(s, name).readable)
    ensures forall other :: other != name ==> Lookup(r, other) == Lookup(s, other)
    ensures r.dirPresent == s.dirPresent
  {
    var readable := match Lookup(s, name) case Absent => true case File(rd, _) => rd;
    s.(files := s.files[name := File(readable, Document(v))])
  }

  /** The repair scripts' overwrite: `os.makedirs` first when the file is
      absent, then `json.dump` of `v` under `name`. */
  function Overwrite(s: Snapshot, name: string, v: Json): (r: Snapshot)
    ensures Lookup(r, name).File? && Lookup(r, name).contents == Document(v)
    ensures Lookup(r, name).readable == (Lookup(s, name) == Absent || Lookup(s, name).readable)
    ensures forall other :: other != name ==> Lookup(r, other) == Lookup(s, other)
    ensures r.dirPresent == (s.dirPresent || Lookup(s, name) == Absent)
  {
    Save(if Lookup(s, name) == Absent then WithDirectory(s) else s, name, v)
  }

  /** Overwrites of two different files do not interfere. */
  lemma OverwritesCommute(s: Snapshot, a: string, va: Json, b: string, vb: Json)
    requires a != b
    ensures Overwrite(Overwrite(s, a, va), b, vb) == Overwrite(Overwrite(s, b, vb), a, va)
  {
    var ra := Lookup(s, a) == Absent || Lookup(s, a).readable;
    var rb := Lookup(s, b) == Absent || Lookup(s, b).readable;
    assert s.files[a := File(ra, Document(va))][b := File(rb, Document(vb))]
        == s.files[b := File(rb, Document(vb))][a := File(ra, Document(va))];
  }

  /** What a call that comes right after the call `first` on the file `name`
      produces: the same exception if `first` raised one; otherwise `True`
      when the file cannot be read (the caught `IOError` leads to another
      rewrite) and `False` when it can; the directory stays as `first` left it. */
  function NextCall(first: Run, name: string): (r: Run) {
    Run(first.after,
        if first.result.Raised? then first.result
        else Returned(IsUnreadable(Lookup(first.after, name))))
  }

  /** The cache directory on disk. */
  class CacheDir {
    var dirPresent: bool
    var files: map<string, FileState>

    constructor (dirPresent: bool, files: map<string, FileState>)
      requires WellFormed(Snapshot(dirPresent, files))
      ensures Model() == Snapshot(dirPresent, files)
      ensures WellFormed(Model())
    {
      this.dirPresent := dirPresent;
      this.files := files;
    }

    /** The directory's current state as a value. */
    function Model(): (m: Snapshot)
      reads this
    {
      Snapshot(dirPresent, files)
    }

    /** `os.path.exists(os.path.join(cache_dir, name))`. */
    method Exists(name: string) returns (b: bool)
      requires WellFormed(Model())
      ensures b <==> Lookup(Model(), name) != Absent
      ensures b ==> dirPresent
    {
      b := Lookup(Model(), name) != Absent;
    }

    /** `json.load(open(os.path.join(cache_dir, name), 'r'))`: the decoded
        document, or the exception that opening, reading or decoding raises. */
    method Load(name: string) returns (r: Result)
      ensures r.Loaded? <==> Lookup(Model(), name).File? && Lookup(Model(), name).readable
                             && Lookup(Model(), name).contents.Document?
      ensures r.Loaded? ==> Lookup(Model(), name).contents == Document(r.value)
      ensures r.Failed? ==> r == LoadOf(Lookup(Model(), name))
    {
      r := LoadOf(Lookup(Model(), name));
    }

    /** `json.dump(v, open(os.path.join(cache_dir, name), 'w'), indent=2)`:
        the file is created or overwritten in place; no other file changes. */
    method Write(name: string, v: Json)
      requires dirPresent
      modifies this
      ensures Model() == Save(old(Model()), name, v)
    {
      var readable := match Lookup(Model(), name) case Absent => true case File(rd, _) => rd;
      files := files[name := File(readable, Document(v))];
    }

    /** `os.makedirs(cache_dir, exist_ok=True)`. */
    method MakeDirs()
      modifies this
      ensures Model() == WithDirectory(old(Model()))
    {
      dirPresent := true;
    }
  }
}
