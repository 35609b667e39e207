/**
 * The file system as the log tools see it. Path queries (`is_dir`,
 * `access`, `resolve`) are abstract answers handed to each call; file
 * contents live in a `Disk`, keyed by path, which writes change in place.
 */
module Files {

  /** Answer of `Path.is_dir()`; `Denied` when its `stat` raised `PermissionError`. */
  datatype Probe = Yes | No | Denied

  /**
   * What the file system answers about one log path: is the path a
   * directory, its resolved parent `dir`, is that a directory, and does
   * `os.access` grant the mode the caller checks on it.
   */
  datatype PathFacts = PathFacts(fileIsDir: Probe, dir: string, dirIsDir: Probe, dirAccess: bool)

  /** The regular files that exist and their text. */
  class Disk {
    var files: map<string, string>

    constructor (files: map<string, string>)
      ensures this.files == files
    {
      this.files := files;
    }

    /** The text at `path`, empty when there is no file. */
    function Text(path: string): string
      reads this
    {
      if path in files then files[path] else ""
    }

    /** `open(path, "a").write(text)`: creates the file when missing. */
    method Append(path: string, text: string)
      modifies this
      ensures files == old(files)[path := old(Text(path)) + text]
    {
      files := files[path := Text(path) + text];
    }

    /** `open(path, "w")` closed at once: the file exists and is empty. */
    method Truncate(path: string)
      modifies this
      ensures files == old(files)[path := ""]
    {
      files := files[path := ""];
    }
  }
}
