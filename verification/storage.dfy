/** Output files: the parquet tables and the JSON dictionary the scrapers write, and
    POSIX `os.path.join`. */
module Storage {
  import opened PyJson

  /** One row of a written table: column name to value. */
  type Record = map<string, Json>

  datatype Content =
    | Table(rows: seq<Record>)                // a parquet file
    | JsonDict(entries: map<string, string>)  // a JSON object of strings

  /** The file system, as a map from path to content; a write replaces a file outright. */
  class Disk {
    var files: map<string, Content>

    constructor (files: map<string, Content>)
      ensures this.files == files
    {
      this.files := files;
    }

    method Write(path: string, content: Content)
      modifies this
      ensures files == old(files)[path := content]
    {
      files := files[path := content];
    }
  }

  /** `os.path.join(a, b)` on POSIX: an absolute `b` replaces `a`; otherwise a separator
      is inserted unless `a` is empty or already ends with one. */
  function Join(a: string, b: string): string {
    if b != [] && b[0] == '/' then b
    else if a == [] || a[|a| - 1] == '/' then a + b
    else a + "/" + b
  }

  /** A path component that `Join` keeps as it is and separates from its neighbours. */
  predicate PlainComponent(s: string) {
    s != [] && '/' !in s
  }
}
