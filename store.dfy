/** The filesystem the service keeps its state in, as a value: the files
    (path to contents) and the directories that exist. */
module Store {
  import opened Paths

  /** What a file holds: text (DOT source or anything else that reads as
      text), a raster image rendered from DOT source, or a PDF document with
      a rendered flowchart embedded in it. */
  datatype Blob = Text(text: string) | Image(source: string) | Document(flowchart: string)

  datatype FS = FS(files: map<string, Blob>, dirs: set<string>) {

    /** `Path.exists()`: a file or a directory. */
    predicate Exists(p: string) {
      p in files || p in dirs
    }

    /** `Path.write_text`: creates or overwrites the file. */
    function WriteText(p: string, t: string): FS {
      FS(files[p := Text(t)], dirs)
    }

    /** A foreign writer (the renderer, the PDF library) saving a file. */
    function Put(p: string, b: Blob): FS {
      FS(files[p := b], dirs)
    }

    /** `Path.unlink`. */
    function Unlink(p: string): FS {
      FS(files - {p}, dirs)
    }

    /** `Path.mkdir(parents=True, exist_ok=True)`. */
    function MakeDirs(p: string): FS {
      FS(files, dirs + {p} + Parents(p))
    }
  }

  /** The proper ancestors of a relative path, one per `/` in it. */
  function Parents(p: string): set<string> {
    set i | 0 < i < |p| && p[i] == '/' :: p[..i]
  }

  /** The shape every store the service works on has: no directory name
      contains a dot (so a path ending in `.dot`, `.png` or `.pdf` exists
      only as a file), and every file under the session directory is text. */
  predicate WellFormed(fs: FS) {
    && (forall d :: d in fs.dirs ==> '.' !in d)
    && (forall p :: p in fs.files && Under(SessionDir, p) ==> fs.files[p].Text?)
  }

  /** Creating a dot-free directory keeps a store well formed. */
  lemma MakeDirsKeepsWellFormed(fs: FS, p: string)
    requires WellFormed(fs) && '.' !in p
    ensures WellFormed(fs.MakeDirs(p))
  {
    forall d | d in Parents(p)
      ensures '.' !in d
    {
      var i :| 0 < i < |p| && p[i] == '/' && d == p[..i];
      assert forall j :: 0 <= j < i ==> d[j] == p[j];
    }
  }

  /** Creating a directory twice is the same as creating it once. */
  lemma MakeDirsIdempotent(fs: FS, p: string)
    ensures fs.MakeDirs(p).MakeDirs(p) == fs.MakeDirs(p)
  {
  }
}
