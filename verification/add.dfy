/**
 * add.rs: a new tip is written as the starter template plus its content to
 * the temporary document, edited, read back and, unless the template part was
 * left as it was, split into metadata and content. The content goes to a new
 * content file and the tip, numbered by `next_id`, is appended to the database.
 */
module AddCommand {
  import opened Wrappers
  import opened Faults
  import opened Text
  import opened Meta
  import opened TipRecord
  import opened Storage
  import opened Codec
  import opened Collection

  /** Where the content of the new tip comes from. */
  datatype Input = File(path: string) | Stdin(text: string) | Interactive

  /** What `add_tip` gets out of the edited document before numbering it. */
  datatype Draft = Draft(metadata: Metadata, content: string)

  const REPLACE_ME: string := "<replace me>"
  const ABORT_MESSAGE: string := "Aborting. Contents no different from template."

  /** `get_tip_data`. */
  function TipData(files: map<string, string>, input: Input): Result<string, Fault> {
    match input
    case File(path) => ReadFile(files, path)
    case Stdin(text) => Success(text)
    case Interactive => Success(REPLACE_ME)
  }

  /**
   * The abort test of `add_tip` as written: the first `|TEMPLATE|` characters
   * are sliced out and compared with the template, so a shorter text panics
   * before any comparison.
   */
  function TemplateUnchanged(contents: string): (r: Result<bool, Fault>)
    ensures r.Failure? <==> |contents| < |TEMPLATE|
    ensures r.Failure? ==> r.error == TemplateSliceOutOfRange
    ensures r.Success? ==> (r.value <==> TEMPLATE <= contents)
  {
    if |contents| < |TEMPLATE| then Failure(TemplateSliceOutOfRange)
    else Success(contents[..|TEMPLATE|] == TEMPLATE)
  }

  /** `create` without its write: the split, then the metadata block deserialized. */
  function ParseDraft(contents: string, yaml: Yaml): Result<Draft, Fault> {
    match Split(contents)
    case Failure(f) => Failure(f)
    case Success(parts) =>
      match yaml.parseMetadata(parts.metadata)
      case None => Failure(InvalidMetadata(parts.metadata))
      case Some(md) => Success(Draft(md, parts.content))
  }

  /**
   * Everything `add_tip` does, from the disk it starts on: the database and
   * files it leaves and how it ends. `uuid` is the value `Uuid::new_v4` returns.
   */
  function AddEffect(db: seq<Tip>, files: map<string, string>, cfg: Config, input: Input,
                     edit: string -> string, yaml: Yaml, uuid: Uuid): (r: Effect)
    ensures r.exit.Completed? ==> |r.db| == |db| + 1 && r.db[..|db|] == db && r.db[|db|].data == uuid
    ensures !r.exit.Completed? ==> r.db == db
    ensures r.exit.Exited? ==> r.exit == Exited(1, ABORT_MESSAGE)
  {
    match TipData(files, input)
    case Failure(f) => Effect(Panicked(f), db, files)
    case Success(data) =>
      var contents := edit(StarterDocument(data));
      var rest := files - {cfg.tmpFile};
      match TemplateUnchanged(contents)
      case Failure(f) => Effect(Panicked(f), db, rest)
      case Success(same) =>
        if same then Effect(Exited(1, ABORT_MESSAGE), db, rest)
        else
          match ParseDraft(contents, yaml)
          case Failure(f) => Effect(Panicked(f), db, rest)
          case Success(draft) =>
            var stored := rest[DataPath(cfg.dataDir, uuid) := draft.content];
            match NextId(db)
            case Failure(f) => Effect(Panicked(f), db, stored)
            case Success(id) => Effect(Completed, db + [Tip(draft.metadata.(id := Some(id)), uuid)], stored)
  }

  /** `get_tip_data`: the file's text (a missing file panics), the piped text, or a placeholder. */
  method GetTipData(disk: Disk, input: Input) returns (r: Result<string, Fault>)
    ensures r == TipData(disk.files, input)
  {
    match input
    case File(path) =>
      r := disk.Read(path);
    case Stdin(text) =>
      r := Success(text);
    case Interactive =>
      r := Success(REPLACE_ME);
  }

  /** `write_template`: the temporary document becomes the template followed by the content. */
  method WriteTemplate(disk: Disk, cfg: Config, input: Input) returns (r: Result<string, Fault>)
    modifies disk
    ensures r == TipData(old(disk.files), input)
    ensures disk.db == old(disk.db)
    ensures r.Failure? ==> disk.files == old(disk.files)
    ensures r.Success? ==> disk.files == old(disk.files)[cfg.tmpFile := StarterDocument(r.value)]
  {
    r := GetTipData(disk, input);
    if r.Failure? {
      return;
    }
    var template := TEMPLATE;
    template := template + r.value;
    disk.Write(cfg.tmpFile, template);
  }

  /**
   * `create`: find the first separator, cut the document there, drop the
   * separator and the character after it from the rest, deserialize the
   * metadata block and write the rest to the content file of the new uuid.
   */
  method Create(disk: Disk, cfg: Config, contents: string, yaml: Yaml, uuid: Uuid) returns (r: Result<Tip, Fault>)
    modifies disk
    ensures r.Failure? <==> ParseDraft(contents, yaml).Failure?
    ensures r.Failure? ==> r.error == ParseDraft(contents, yaml).error && disk.files == old(disk.files)
    ensures r.Success? ==> r.value == Tip(ParseDraft(contents, yaml).value.metadata, uuid)
    ensures r.Success? ==> disk.files == old(disk.files)[DataPath(cfg.dataDir, uuid) := ParseDraft(contents, yaml).value.content]
    ensures disk.db == old(disk.db)
  {
    var found := FindFirst(contents, SEPARATOR);
    if found.None? {
      return Failure(NoSeparator);
    }
    var byteIndex := found.value;
    assert OccursAt(contents, SEPARATOR, byteIndex);
    var metadata, data := contents[..byteIndex], contents[byteIndex..];
    data := data[|SEPARATOR|..];
    if data == [] {
      return Failure(NothingAfterSeparator);
    }
    data := data[1..];
    assert Split(contents) == Success(Parts(metadata, data));
    var md := yaml.parseMetadata(metadata);
    if md.None? {
      return Failure(InvalidMetadata(metadata));
    }
    disk.Write(DataPath(cfg.dataDir, uuid), data);
    return Success(Tip(md.value, uuid));
  }

  /**
   * `add_tip`: write the starter document, run the editor, read the document
   * back and remove it, abort when the template part is unchanged, otherwise
   * create the tip, number it with `next_id` and append it.
   */
  method AddTip(disk: Disk, cfg: Config, input: Input, edit: string -> string, yaml: Yaml, uuid: Uuid)
    returns (exit: Exit)
    modifies disk
    ensures Effect(exit, disk.db, disk.files) == AddEffect(old(disk.db), old(disk.files), cfg, input, edit, yaml, uuid)
  {
    var data := WriteTemplate(disk, cfg, input);
    if data.Failure? {
      return Panicked(data.error);
    }
    RunEditor(disk, cfg.tmpFile, edit);
    var contents := disk.Read(cfg.tmpFile);
    assert contents == Success(edit(StarterDocument(data.value)));
    var _ := disk.Remove(cfg.tmpFile);
    assert disk.files == old(disk.files) - {cfg.tmpFile};
    var same := TemplateUnchanged(contents.value);
    if same.Failure? {
      return Panicked(same.error);
    }
    if same.value {
      return Exited(1, ABORT_MESSAGE);
    }
    var tip := Create(disk, cfg, contents.value, yaml, uuid);
    if tip.Failure? {
      return Panicked(tip.error);
    }
    var tips := Load(disk);
    var next := NextId(tips.tips);
    if next.Failure? {
      return Panicked(next.error);
    }
    var numbered := tip.value.(metadata := tip.value.metadata.(id := Some(next.value)));
    Add(disk, numbered);
    return Completed;
  }

  // ---------------------------------------------------------------- properties

  /**
   * The run aborts with status 1 exactly when the content could be read and
   * the edited text starts with the whole template; it then leaves the
   * database and every file but the temporary document as they were.
   */
  lemma AddAbortsIff(db: seq<Tip>, files: map<string, string>, cfg: Config, input: Input,
                     edit: string -> string, yaml: Yaml, uuid: Uuid)
    ensures var e := AddEffect(db, files, cfg, input, edit, yaml, uuid);
            e.exit == Exited(1, ABORT_MESSAGE) <==>
              TipData(files, input).Success? && TEMPLATE <= edit(StarterDocument(TipData(files, input).value))
    ensures var e := AddEffect(db, files, cfg, input, edit, yaml, uuid);
            e.exit.Exited? ==> e.db == db && e.files == files - {cfg.tmpFile}
  {
  }

  /**
   * Saving the document with only the content below the separator changed,
   * or not changed at all, never creates a tip.
   */
  lemma ContentOnlyEditAborts(db: seq<Tip>, files: map<string, string>, cfg: Config, input: Input,
                              edit: string -> string, yaml: Yaml, uuid: Uuid, below: string)
    requires TipData(files, input).Success?
    requires edit(StarterDocument(TipData(files, input).value)) == TEMPLATE + below
    ensures AddEffect(db, files, cfg, input, edit, yaml, uuid) == Effect(Exited(1, ABORT_MESSAGE), db, files - {cfg.tmpFile})
  {
    assert (TEMPLATE + below)[..|TEMPLATE|] == TEMPLATE;
  }

  const SHORT_METADATA: string := "subject: x\ntags: []\n"
  /** A well-formed document shorter than the template: 54 characters. */
  const SHORT_DOCUMENT: string := SHORT_METADATA + SEPARATOR + "\nhi"

  /** The short document is well formed: it splits into its metadata block and the content `hi`. */
  lemma SplitShortDocument()
    ensures |SHORT_DOCUMENT| == 54
    ensures Split(SHORT_DOCUMENT) == Success(Parts(SHORT_METADATA, "hi"))
  {
    var m := SHORT_METADATA;
    assert SHORT_DOCUMENT == m + SEPARATOR + ['\n'] + "hi";
    assert SHORT_DOCUMENT[10] == m[10] == '\n' && SHORT_DOCUMENT[19] == m[19] == '\n';
    forall j | 0 <= j < |m|
      ensures !OccursAt(SHORT_DOCUMENT, SEPARATOR, j)
    {
      if j < 11 {
        NewlineBlocksSeparator(SHORT_DOCUMENT, 10, j);
      } else {
        NewlineBlocksSeparator(SHORT_DOCUMENT, 19, j);
      }
    }
    SplitUnique(m, '\n', "hi");
  }

  /**
   * The abort test slices before it compares: a complete, well-formed
   * document shorter than the template panics instead of being added.
   */
  lemma ShortDocumentPanics(db: seq<Tip>, files: map<string, string>, cfg: Config, input: Input,
                            edit: string -> string, yaml: Yaml, uuid: Uuid)
    requires TipData(files, input).Success?
    requires edit(StarterDocument(TipData(files, input).value)) == SHORT_DOCUMENT
    ensures Split(SHORT_DOCUMENT).Success?
    ensures AddEffect(db, files, cfg, input, edit, yaml, uuid) == Effect(Panicked(TemplateSliceOutOfRange), db, files - {cfg.tmpFile})
  {
    SplitShortDocument();
    TemplateShape();
  }

  /**
   * A completed add appends exactly one tip at the end, numbered one past the
   * last tip, carrying the deserialized subject, tags and extension and the
   * new uuid, and stores the content below the separator under that uuid;
   * nothing else changes but the removed temporary document.
   */
  lemma AddCompleted(db: seq<Tip>, files: map<string, string>, cfg: Config, input: Input,
                     edit: string -> string, yaml: Yaml, uuid: Uuid)
    requires AddEffect(db, files, cfg, input, edit, yaml, uuid).exit == Completed
    ensures var e := AddEffect(db, files, cfg, input, edit, yaml, uuid);
            var contents := edit(StarterDocument(TipData(files, input).value));
            var parts := Split(contents).value;
            var md := yaml.parseMetadata(parts.metadata).value;
            && !(TEMPLATE <= contents)
            && db != [] && db[|db| - 1].metadata.id.Some?
            && |e.db| == |db| + 1 && e.db[..|db|] == db
            && e.db[|db|] == Tip(Metadata(md.subject, Some(db[|db| - 1].metadata.id.value + 1), md.tags, md.dataExtension), uuid)
            && e.files == (files - {cfg.tmpFile})[DataPath(cfg.dataDir, uuid) := parts.content]
  {
    var e := AddEffect(db, files, cfg, input, edit, yaml, uuid);
    assert e.db[..|db|] == db;
  }

  /** Appending through `add` keeps ids strictly increasing, and so unique. */
  lemma AddKeepsIdsIncreasing(db: seq<Tip>, files: map<string, string>, cfg: Config, input: Input,
                              edit: string -> string, yaml: Yaml, uuid: Uuid)
    requires IdsIncreasing(db)
    ensures IdsIncreasing(AddEffect(db, files, cfg, input, edit, yaml, uuid).db)
    ensures IdsUnique(AddEffect(db, files, cfg, input, edit, yaml, uuid).db)
  {
    var e := AddEffect(db, files, cfg, input, edit, yaml, uuid);
    if e.exit == Completed {
      AddCompleted(db, files, cfg, input, edit, yaml, uuid);
      AppendNextIdKeepsIncreasing(db, e.db[|db|]);
      assert e.db == db + [e.db[|db|]];
    }
    IncreasingIdsAreUnique(e.db);
  }

  /**
   * The content file is written before `next_id` runs: on an empty database
   * the add panics and leaves a content file no tip refers to.
   */
  lemma EmptyDatabaseLeavesOrphan(files: map<string, string>, cfg: Config, input: Input,
                                  edit: string -> string, yaml: Yaml, uuid: Uuid)
    requires TipData(files, input).Success?
    requires var contents := edit(StarterDocument(TipData(files, input).value));
             TemplateUnchanged(contents) == Success(false) && ParseDraft(contents, yaml).Success?
    ensures var e := AddEffect([], files, cfg, input, edit, yaml, uuid);
            e.exit == Panicked(EmptyCollection) && e.db == [] && DataPath(cfg.dataDir, uuid) in e.files
  {
  }

  /**
   * With a uuid whose content file does not exist yet, every file the add
   * leaves besides the temporary document keeps its text.
   */
  lemma AddKeepsOtherFiles(db: seq<Tip>, files: map<string, string>, cfg: Config, input: Input,
                           edit: string -> string, yaml: Yaml, uuid: Uuid)
    requires DataPath(cfg.dataDir, uuid) !in files
    ensures var e := AddEffect(db, files, cfg, input, edit, yaml, uuid);
            forall p :: p in files && p != cfg.tmpFile ==> p in e.files && e.files[p] == files[p]
  {
  }
}
