/**
 * Uploaded files as the photo routes and the supply form see them, and the
 * limits both sides apply to them.
 */
module Files {
  import opened Text

  /** A `File` of a multipart form: its name, its size in bytes and its MIME type. */
  datatype FileInfo = FileInfo(name: string, size: nat, mime: string)

  /** The per-file size limit, 5 MB. */
  const MaxBytes: nat := 5 * 1024 * 1024

  /** The most files one upload may carry. */
  const MaxFiles: nat := 5

  /** `file.type.startsWith("image/")`. */
  predicate IsImage(f: FileInfo) {
    StartsWith(f.mime, "image/")
  }

  /** The last element of a non-empty sequence (`Array.prototype.pop`'s result). */
  function Last<T>(xs: seq<T>): T
    requires |xs| >= 1
  {
    xs[|xs| - 1]
  }

  /** `name.split(".").pop()`: the text after the last dot, or the whole name when there is none. */
  function Extension(name: string): (r: string)
    ensures '.' !in r
    ensures |r| <= |name|
  {
    var pieces := SplitOn(name, '.');
    JoinSplit(name, '.');
    LastPieceWithin(pieces, '.');
    Last(pieces)
  }

  /** The last piece of a split is no longer than the joined text. */
  lemma {:induction false} LastPieceWithin(xs: seq<string>, c: char)
    requires |xs| >= 1
    ensures |Last(xs)| <= |Join(xs, [c])|
  {
    if |xs| > 1 {
      LastPieceWithin(xs[1..], c);
      assert Last(xs[1..]) == Last(xs);
    }
  }

  /** The piece after the last separator of `x + [c] + b` is `b`. */
  lemma {:induction false} LastPieceAfterSeparator(x: string, b: string, c: char)
    requires c !in b
    ensures |SplitOn(x + [c] + b, c)| >= 2
    ensures Last(SplitOn(x + [c] + b, c)) == b
  {
    SplitPrefix(b, "", c);
    assert b + "" == b;
    if x == [] {
      assert x + [c] + b == [c] + b;
      assert ([c] + b)[1..] == b;
    } else {
      LastPieceAfterSeparator(x[1..], b, c);
      assert (x + [c] + b)[1..] == x[1..] + [c] + b;
    }
  }

  /** A name of the form `stem.ext` whose `ext` has no dot has extension `ext`. */
  lemma ExtensionAfterLastDot(stem: string, ext: string)
    requires '.' !in ext
    ensures Extension(stem + "." + ext) == ext
  {
    LastPieceAfterSeparator(stem, ext, '.');
  }

  /** A name without a dot is its own extension. */
  lemma ExtensionWithoutDot(name: string)
    requires '.' !in name
    ensures Extension(name) == name
  {
    SplitPrefix(name, "", '.');
    assert name + "" == name;
  }
}
