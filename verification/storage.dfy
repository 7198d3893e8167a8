/**
 * The files the tool touches. helpers.rs wraps `std::fs`; here the disk is an
 * object with the database (the serialized collection) and a map from path to
 * text for every other file: content files, the temporary document and files
 * given to `add`. Every helper panics on a missing path, except writing, which
 * creates or truncates.
 */
module Storage {
  import opened Wrappers
  import opened Faults
  import opened TipRecord

  /** The configured paths (config.rs, passed in instead of a global). */
  datatype Config = Config(dataDir: string, tmpFile: string)

  /** How an invocation ends, and the database and files it leaves behind. */
  datatype Effect = Effect(exit: Exit, db: seq<Tip>, files: map<string, string>)

  /** `read_to_string`: the file's text, or a panic naming the missing path. */
  function ReadFile(files: map<string, string>, path: string): (r: Result<string, Fault>)
    ensures r.Success? <==> path in files
    ensures r.Success? ==> r.value == files[path]
    ensures r.Failure? ==> r.error == MissingFile(path)
  {
    if path in files then Success(files[path]) else Failure(MissingFile(path))
  }

  /** The content of a tip, read from its content file (`Tip::get_data`). */
  function GetData(files: map<string, string>, dataDir: string, tip: Tip): Result<string, Fault> {
    ReadFile(files, DataPath(dataDir, tip.data))
  }

  class Disk {
    /** The database file. */
    var db: seq<Tip>
    /** Every other file, by path. */
    var files: map<string, string>

    constructor (db: seq<Tip>, files: map<string, string>)
      ensures this.db == db && this.files == files
    {
      this.db := db;
      this.files := files;
    }

    /** `helpers::read_to_string`. */
    method Read(path: string) returns (r: Result<string, Fault>)
      ensures r == ReadFile(files, path)
    {
      if path in files {
        r := Success(files[path]);
      } else {
        r := Failure(MissingFile(path));
      }
    }

    /** `helpers::write_to_file`: creates the file or replaces its text. */
    method Write(path: string, text: string)
      modifies this
      ensures files == old(files)[path := text] && db == old(db)
    {
      files := files[path := text];
    }

    /** `helpers::remove_file`. */
    method Remove(path: string) returns (r: Result<(), Fault>)
      modifies this
      ensures r.Success? <==> path in old(files)
      ensures r.Failure? ==> r.error == MissingFile(path)
      ensures files == old(files) - {path} && db == old(db)
    {
      if path in files {
        r := Success(());
      } else {
        r := Failure(MissingFile(path));
      }
      files := files - {path};
    }
  }

  /**
   * The external editor, run on `path` until it exits: it leaves in the file
   * whatever the user made of the text it found there.
   */
  method RunEditor(disk: Disk, path: string, edit: string -> string)
    requires path in disk.files
    modifies disk
    ensures disk.files == old(disk.files)[path := edit(old(disk.files)[path])]
    ensures disk.db == old(disk.db)
  {
    disk.Write(path, edit(disk.files[path]));
  }
}
