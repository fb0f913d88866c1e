/** The part of the file system that Record.download touches: directories, the bytes of each
    file, open(target, 'wb') and outfile.write(chunk). */
module Files {
  import opened Paths

  type Bytes = seq<bv8>

  /** The chunks laid end to end, in the order they came. */
  function Concat(chunks: seq<Bytes>): Bytes {
    if chunks == [] then []
    else Concat(chunks[..|chunks| - 1]) + chunks[|chunks| - 1]
  }

  /** Concatenation distributes over splitting the chunk sequence anywhere. */
  lemma {:induction false} ConcatAppend(a: seq<Bytes>, b: seq<Bytes>)
    ensures Concat(a + b) == Concat(a) + Concat(b)
  {
    if b != [] {
      var n := |b| - 1;
      assert (a + b)[..|a + b| - 1] == a + b[..n];
      ConcatAppend(a, b[..n]);
    } else {
      assert a + b == a;
    }
  }

  /** Chunk i sits in the concatenation right after the bytes of the chunks before it. */
  lemma ChunkAt(chunks: seq<Bytes>, i: nat)
    requires i < |chunks|
    ensures var off := |Concat(chunks[..i])|;
      && off + |chunks[i]| <= |Concat(chunks)|
      && Concat(chunks)[off..off + |chunks[i]|] == chunks[i]
  {
    assert chunks == chunks[..i] + [chunks[i]] + chunks[i + 1..];
    ConcatAppend(chunks[..i] + [chunks[i]], chunks[i + 1..]);
    ConcatAppend(chunks[..i], [chunks[i]]);
    assert Concat([chunks[i]]) == chunks[i] by {
      assert [chunks[i]][..0] == [];
    }
  }

  class FileSystem {
    var dirs: set<Path>
    var files: map<Path, Bytes>

    constructor (dirs: set<Path>, files: map<Path, Bytes>)
      ensures this.dirs == dirs && this.files == files
    {
      this.dirs := dirs;
      this.files := files;
    }

    /** open(p, 'wb') succeeds when p names an entry inside an existing directory and is not
        itself a directory. */
    predicate CanCreate(p: Path)
      reads this
    {
      p.parts != [] && Parent(p) in dirs && p !in dirs
    }

    /** open(p, 'wb'): creates p, or truncates it when it exists. */
    method Open(p: Path) returns (ok: bool)
      modifies this
      ensures ok == old(CanCreate(p))
      ensures !ok ==> unchanged(this)
      ensures ok ==> dirs == old(dirs) && files == old(files)[p := []]
    {
      ok := CanCreate(p);
      if ok {
        files := files[p := []];
      }
    }

    /** outfile.write(chunk) on the file opened at p: appends the chunk. */
    method Write(p: Path, chunk: Bytes)
      requires p in files
      modifies this
      ensures dirs == old(dirs)
      ensures files == old(files)[p := old(files)[p] + chunk]
    {
      files := files[p := files[p] + chunk];
    }
  }
}
