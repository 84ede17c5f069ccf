/**
 * `POST /api/upload`: the listing photos of a form, checked and stored one by
 * one in the `listing-photos` bucket. The checks run inside the loop, so the
 * files before the first refused one are already stored when the refusal is
 * answered.
 */
module Upload {
  import opened Wrappers
  import opened Text
  import opened Http
  import opened Files
  import opened Waitlist

  const PhotoBucket: string := "listing-photos"

  /**
   * What the outside world decides for the file at each position: the
   * `${Date.now()}-${random}` stem of its stored name, and whether storage
   * answers the upload with an error (a name already taken included).
   */
  datatype UploadIo = UploadIo(stem: nat -> string, fails: nat -> bool)

  /**
   * A value of the form under `files`. `getAll` returns text values alongside
   * the files, and the route's `as File[]` checks nothing.
   */
  datatype FormEntry = FileEntry(file: FileInfo) | TextEntry(text: string)

  /** The entries of a form whose every `files` value is a file. */
  function FileEntries(files: seq<FileInfo>): (r: seq<FormEntry>)
    ensures |r| == |files|
    ensures forall j :: 0 <= j < |r| ==> r[j] == FileEntry(files[j])
  {
    seq(|files|, j requires 0 <= j < |files| => FileEntry(files[j]))
  }

  /** A file the route lets through: at most 5 MB and an image type. */
  predicate Acceptable(f: FileInfo) {
    f.size <= MaxBytes && IsImage(f)
  }

  /** The entry at position `j` is a file that is checked and stored without error. */
  predicate Passes(files: seq<FormEntry>, io: UploadIo, j: nat)
    requires j < |files|
  {
    files[j].FileEntry? && Acceptable(files[j].file) && !io.fails(j)
  }

  /** The name a passing file is stored under: the stem, a dot, and the text after the last dot of its name. */
  function StoredName(files: seq<FormEntry>, io: UploadIo, j: nat): string
    requires j < |files| && Passes(files, io, j)
  {
    io.stem(j) + "." + Extension(files[j].file.name)
  }

  /** `getPublicUrl(filename)`: the public object URL under the Supabase project URL. */
  function PublicUrl(projectUrl: string, name: string): string {
    projectUrl + "/storage/v1/object/public/" + PhotoBucket + "/" + name
  }

  /** The first position at or after `i` whose entry does not pass, or `|files|` when all do. */
  function FirstStop(files: seq<FormEntry>, io: UploadIo, i: nat): (n: nat)
    requires i <= |files|
    ensures i <= n <= |files|
    ensures forall j :: i <= j < n ==> Passes(files, io, j)
    ensures n < |files| ==> !Passes(files, io, n)
    decreases |files| - i
  {
    if i == |files| || !Passes(files, io, i) then i
    else FirstStop(files, io, i + 1)
  }

  /** The objects stored for positions `lo` up to `hi`, in order. */
  function Stores(files: seq<FormEntry>, io: UploadIo, lo: nat, hi: nat): (r: seq<Effect>)
    requires lo <= hi <= |files| && forall j :: lo <= j < hi ==> Passes(files, io, j)
    ensures |r| == hi - lo
    ensures forall k :: 0 <= k < |r| ==> r[k] == ObjectStored(PhotoBucket, StoredName(files, io, lo + k))
  {
    seq(hi - lo, k requires 0 <= k < hi - lo => ObjectStored(PhotoBucket, StoredName(files, io, lo + k)))
  }

  /** The public URLs of positions `lo` up to `hi`, in order. */
  function Urls(projectUrl: string, files: seq<FormEntry>, io: UploadIo, lo: nat, hi: nat): (r: seq<string>)
    requires lo <= hi <= |files| && forall j :: lo <= j < hi ==> Passes(files, io, j)
    ensures |r| == hi - lo
    ensures forall k :: 0 <= k < |r| ==> r[k] == PublicUrl(projectUrl, StoredName(files, io, lo + k))
  {
    seq(hi - lo, k requires 0 <= k < hi - lo => PublicUrl(projectUrl, StoredName(files, io, lo + k)))
  }

  /**
   * The answer for an entry that does not pass: size first, then type, then
   * the upload error. A text entry has no `size`, so the size test is false,
   * and reading `type.startsWith` of it throws: the catch answers "Upload failed".
   */
  function Refusal(e: FormEntry): (r: Response)
    ensures r.status == 400 <==> e.FileEntry? && !Acceptable(e.file)
    ensures r.status == 500 <==> e.TextEntry? || Acceptable(e.file)
    ensures e.TextEntry? ==> r == ServerError("Upload failed")
  {
    match e
    case TextEntry(_) => ServerError("Upload failed")
    case FileEntry(f) =>
      if f.size > MaxBytes then BadRequest(Failed("File " + f.name + " exceeds 5MB limit"))
      else if !IsImage(f) then BadRequest(Failed("File " + f.name + " is not an image"))
      else ServerError("Failed to upload " + f.name)
  }

  /**
   * The route. `form` is `None` when the request is not a form; without the
   * Supabase settings creating the client throws. Both answer "Upload failed".
   */
  function UploadPhotos(env: Env, db: Db, form: Option<seq<FormEntry>>, io: UploadIo): (r: (Db, Response))
    ensures r.0.demand == db.demand && r.0.supply == db.supply && r.0.painPoints == db.painPoints
    ensures Evolves(db, r.0)
    ensures r.1.status == 200 <==>
              && form.Some? && 1 <= |form.value| <= MaxFiles && StoreReady(env)
              && forall j :: 0 <= j < |form.value| ==> Passes(form.value, io, j)
  {
    if form.None? then (db, ServerError("Upload failed"))
    else
      var files := form.value;
      if |files| == 0 then (db, BadRequest(Failed("No files provided")))
      else if |files| > MaxFiles then (db, BadRequest(Failed("Maximum 5 files allowed")))
      else if !StoreReady(env) then (db, ServerError("Upload failed"))
      else
        var n := FirstStop(files, io, 0);
        var db' := db.(journal := db.journal + Stores(files, io, 0, n));
        assert db'.journal[..|db.journal|] == db.journal;
        if n == |files| then (db', Ok(Uploaded(Urls(env.projectUrl.value, files, io, 0, n))))
        else (db', Refusal(files[n]))
  }

  /** An empty form or one with more than five files is refused before anything is stored. */
  lemma CountCheckedFirst(env: Env, db: Db, files: seq<FormEntry>, io: UploadIo)
    requires |files| == 0 || |files| > MaxFiles
    ensures UploadPhotos(env, db, Some(files), io).0 == db
    ensures UploadPhotos(env, db, Some(files), io).1
         == BadRequest(Failed(if |files| == 0 then "No files provided" else "Maximum 5 files allowed"))
  {
  }

  /**
   * When the entry at `k` is the first one that does not pass, the answer is
   * its refusal and the files before it stay stored.
   */
  lemma FirstBadFileAnswers(env: Env, db: Db, files: seq<FormEntry>, io: UploadIo, k: nat)
    requires 1 <= |files| <= MaxFiles && StoreReady(env)
    requires k < |files| && !Passes(files, io, k)
    requires forall j :: 0 <= j < k ==> Passes(files, io, j)
    ensures var (db', resp) := UploadPhotos(env, db, Some(files), io);
            && resp == Refusal(files[k])
            && db'.journal == db.journal + Stores(files, io, 0, k)
  {
    assert FirstStop(files, io, 0) == k;
  }

  /** A successful upload answers one URL per file, in the order of the form, each naming the stored object. */
  lemma OneUrlPerFile(env: Env, db: Db, files: seq<FormEntry>, io: UploadIo)
    requires UploadPhotos(env, db, Some(files), io).1.status == 200
    ensures var (db', resp) := UploadPhotos(env, db, Some(files), io);
            && resp.reply.Uploaded?
            && |resp.reply.urls| == |files| == |db'.journal| - |db.journal|
            && forall j :: 0 <= j < |files| ==>
                 && resp.reply.urls[j] == PublicUrl(env.projectUrl.value, StoredName(files, io, j))
                 && db'.journal[|db.journal| + j] == ObjectStored(PhotoBucket, StoredName(files, io, j))
  {
    assert FirstStop(files, io, 0) == |files|;
  }

  /** A file of exactly 5 MB with an image type passes the checks; one byte more is refused naming it. */
  lemma SizeLimitInclusive(name: string, mime: string)
    requires StartsWith(mime, "image/")
    ensures Acceptable(FileInfo(name, MaxBytes, mime))
    ensures Refusal(FileEntry(FileInfo(name, MaxBytes + 1, mime)))
         == BadRequest(Failed("File " + name + " exceeds 5MB limit"))
  {
  }

  /** The stored name keeps the file's extension: `photo.final.JPG` is stored as `<stem>.JPG`. */
  lemma StoredNameKeepsExtension(files: seq<FormEntry>, io: UploadIo, j: nat, base: string, ext: string)
    requires j < |files| && Passes(files, io, j) && files[j].file.name == base + "." + ext && '.' !in ext
    ensures StoredName(files, io, j) == io.stem(j) + "." + ext
  {
    ExtensionAfterLastDot(base, ext);
  }

  /**
   * A text value under `files` whose earlier entries all passed: the route
   * throws on it, answers 500 "Upload failed", and the files before it stay
   * stored.
   */
  lemma TextEntryFails(env: Env, db: Db, files: seq<FormEntry>, io: UploadIo, k: nat)
    requires 1 <= |files| <= MaxFiles && StoreReady(env)
    requires k < |files| && files[k].TextEntry?
    requires forall j :: 0 <= j < k ==> Passes(files, io, j)
    ensures UploadPhotos(env, db, Some(files), io)
         == (db.(journal := db.journal + Stores(files, io, 0, k)), ServerError("Upload failed"))
  {
    FirstBadFileAnswers(env, db, files, io, k);
  }
}
