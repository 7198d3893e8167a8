/**
 * update.rs: the tip with the given id is written out as a document, edited,
 * read back and split; the content file is rewritten when the content
 * changed, and subject and tags are taken over when the deserialized tip
 * differs. The database is then stored again.
 */
module UpdateCommand {
  import opened Wrappers
  import opened Faults
  import opened Text
  import opened Meta
  import opened TipRecord
  import opened Storage
  import opened Codec
  import opened Collection

  /**
   * `get_tip_with_id`: the index of the first tip with the id (the slot its
   * mutable reference points into); no such tip panics, and so does an
   * id-less tip met before it.
   */
  function TipWithId(tips: seq<Tip>, id: nat): (r: Result<nat, Fault>)
    ensures r.Success? ==>
              r.value < |tips| && tips[r.value].metadata.id == Some(id)
              && forall j :: 0 <= j < r.value ==> tips[j].metadata.id.Some? && tips[j].metadata.id != Some(id)
    ensures r == Failure(IdNotFound(id)) ==> forall j :: 0 <= j < |tips| ==> tips[j].metadata.id.Some? && tips[j].metadata.id != Some(id)
    ensures r.Failure? ==> r.error == IdNotFound(id) || r.error == IdMissing
    ensures r == Failure(IdMissing) ==>
              exists k :: 0 <= k < |tips| && tips[k].metadata.id.None?
                          && forall j :: 0 <= j < k ==> tips[j].metadata.id.Some? && tips[j].metadata.id != Some(id)
  {
    match ScanFrom(tips, ById(id), 0)
    case Failure(f) =>
      assert exists k :: 0 <= k < |tips| && tips[k].metadata.id.None?
                         && forall j :: 0 <= j < k ==> tips[j].metadata.id.Some? && tips[j].metadata.id != Some(id) by {
        var k :| 0 <= k < |tips| && tips[k].metadata.id.None? && ScanPassed(tips, ById(id), 0, k);
        assert forall j :: 0 <= j < k ==> PassedOver(tips[j], ById(id));
      }
      Failure(f)
    case Success(None) => Failure(IdNotFound(id))
    case Success(Some(i)) => Success(i)
  }

  /**
   * The tip after `update_metadata` found `parsed` in the metadata block:
   * subject and tags are taken from it when the two tips differ at all.
   */
  function Merge(tip: Tip, parsed: Tip): Tip {
    if !TipEq(tip, parsed) then
      tip.(metadata := tip.metadata.(subject := parsed.metadata.subject, tags := parsed.metadata.tags))
    else tip
  }

  /**
   * The merge is the same as copying subject and tags unconditionally: id,
   * extension and content uuid of the stored tip never change, whatever the
   * edited metadata says about them.
   */
  lemma MergeCopiesSubjectAndTags(tip: Tip, parsed: Tip)
    ensures Merge(tip, parsed) ==
            Tip(Metadata(parsed.metadata.subject, tip.metadata.id, parsed.metadata.tags, tip.metadata.dataExtension), tip.data)
  {
  }

  /**
   * Everything `update` does, from the disk it starts on, for the id argument
   * `arg` as typed.
   */
  function UpdateEffect(db: seq<Tip>, files: map<string, string>, cfg: Config, arg: string,
                        edit: string -> string, yaml: Yaml): (r: Effect)
    ensures |r.db| == |db| && !r.exit.Exited?
    ensures !r.exit.Completed? ==> r.db == db
  {
    match ParseUsize(arg)
    case None => Effect(Panicked(BadIdArgument(arg)), db, files)
    case Some(id) =>
      match TipWithId(db, id)
      case Failure(f) => Effect(Panicked(f), db, files)
      case Success(i) =>
        var path := DataPath(cfg.dataDir, db[i].data);
        if path !in files then Effect(Panicked(MissingFile(path)), db, files)
        else
          var contents := edit(Document(yaml.serializeTip(db[i]), files[path]));
          EditEffect(db, i, files - {cfg.tmpFile}, cfg, contents, yaml)
  }

  /**
   * The second half of `update`, once the edited document has been read and
   * removed: split it, update the content, merge the metadata into slot `i`.
   */
  function EditEffect(db: seq<Tip>, i: nat, files: map<string, string>, cfg: Config, contents: string, yaml: Yaml): (r: Effect)
    requires i < |db|
    ensures |r.db| == |db| && !r.exit.Exited?
    ensures forall j :: 0 <= j < |db| && j != i ==> r.db[j] == db[j]
    ensures r.db[i].data == db[i].data && r.db[i].metadata.id == db[i].metadata.id
  {
    var path := DataPath(cfg.dataDir, db[i].data);
    match Split(contents)
    case Failure(f) => Effect(Panicked(f), db, files)
    case Success(parts) =>
      match ReadFile(files, path)
      case Failure(f) => Effect(Panicked(f), db, files)
      case Success(stored) =>
        var written := if parts.content != stored then files[path := parts.content] else files;
        match yaml.parseTip(parts.metadata)
        case None => Effect(Panicked(InvalidMetadata(parts.metadata)), db, written)
        case Some(parsed) => Effect(Completed, db[i := Merge(db[i], parsed)], written)
  }

  /** `get_tip_with_id`, on the loaded collection. */
  method GetTipWithId(tips: Tips, id: nat) returns (r: Result<nat, Fault>)
    ensures r == TipWithId(tips.tips, id)
  {
    var index := tips.GetTipIndex(id);
    match index
    case Failure(f) =>
      r := Failure(f);
    case Success(None) =>
      r := Failure(IdNotFound(id));
    case Success(Some(i)) =>
      r := Success(i);
  }

  /**
   * `extrace_metadata_data`: cut at the first separator, then drop the
   * separator and the character after it from the rest.
   */
  method ExtractMetadataData(contents: string) returns (r: Result<Parts, Fault>)
    ensures r == Split(contents)
  {
    var found := FindFirst(contents, SEPARATOR);
    if found.None? {
      return Failure(NoSeparator);
    }
    var byteIndex := found.value;
    assert OccursAt(contents, SEPARATOR, byteIndex);
    var metadata, data := contents[..byteIndex], contents[byteIndex..];
    data := data[|SEPARATOR|..];
    if data == [] {
      return Failure(NothingAfterSeparator);
    }
    data := data[1..];
    return Success(Parts(metadata, data));
  }

  /**
   * `update_data`: the content file is rewritten only when the new content
   * differs from what it holds; either way it ends up holding the new
   * content. A missing content file panics.
   */
  method UpdateData(disk: Disk, cfg: Config, tip: Tip, data: string) returns (r: Result<(), Fault>)
    modifies disk
    ensures var path := DataPath(cfg.dataDir, tip.data);
            && (r.Success? <==> path in old(disk.files))
            && (r.Failure? ==> r.error == MissingFile(path) && disk.files == old(disk.files))
            && (r.Success? ==> disk.files == old(disk.files)[path := data])
            && (r.Success? && old(disk.files)[path] == data ==> disk.files == old(disk.files))
    ensures disk.db == old(disk.db)
  {
    var stored := disk.Read(DataPath(cfg.dataDir, tip.data));
    if stored.Failure? {
      return Failure(stored.error);
    }
    if data != stored.value {
      disk.Write(DataPath(cfg.dataDir, tip.data), data);
    }
    assert disk.files == old(disk.files)[DataPath(cfg.dataDir, tip.data) := data];
    return Success(());
  }

  /**
   * `update_metadata` on the tip in slot `index`: the block is deserialized as
   * a whole tip (failure panics) and merged into the slot.
   */
  method UpdateMetadata(tips: Tips, index: nat, metadata: string, yaml: Yaml) returns (r: Result<(), Fault>)
    requires index < |tips.tips|
    modifies tips
    ensures r.Failure? <==> yaml.parseTip(metadata).None?
    ensures r.Failure? ==> r.error == InvalidMetadata(metadata) && tips.tips == old(tips.tips)
    ensures r.Success? ==> tips.tips == old(tips.tips)[index := Merge(old(tips.tips)[index], yaml.parseTip(metadata).value)]
  {
    var parsed := yaml.parseTip(metadata);
    if parsed.None? {
      return Failure(InvalidMetadata(metadata));
    }
    var tip := tips.tips[index];
    if !TipEq(tip, parsed.value) {
      tip := tip.(metadata := tip.metadata.(subject := parsed.value.metadata.subject));
      tip := tip.(metadata := tip.metadata.(tags := parsed.value.metadata.tags));
    }
    tips.tips := tips.tips[index := tip];
    return Success(());
  }

  /**
   * `update`: parse the id, load the database, find the tip, write it out as
   * a document, run the editor, read the document back and remove it, split
   * it, update content and metadata, store the database.
   */
  method Update(disk: Disk, cfg: Config, arg: string, edit: string -> string, yaml: Yaml) returns (exit: Exit)
    modifies disk
    ensures Effect(exit, disk.db, disk.files) == UpdateEffect(old(disk.db), old(disk.files), cfg, arg, edit, yaml)
  {
    var id := ParseUsize(arg);
    if id.None? {
      return Panicked(BadIdArgument(arg));
    }
    var tips := Load(disk);
    var index := GetTipWithId(tips, id.value);
    if index.Failure? {
      return Panicked(index.error);
    }
    var tip := tips.tips[index.value];
    var shown := ToFile(disk, cfg, tip, cfg.tmpFile, yaml);
    if shown.Failure? {
      return Panicked(shown.error);
    }
    RunEditor(disk, cfg.tmpFile, edit);
    var contents := disk.Read(cfg.tmpFile);
    assert contents.Success?;
    var _ := disk.Remove(cfg.tmpFile);
    assert disk.files == old(disk.files) - {cfg.tmpFile};
    exit := ApplyEdit(disk, cfg, tips, index.value, contents.value, yaml);
  }

  /** The end of `update`: split, `update_data`, `update_metadata`, `store`. */
  method ApplyEdit(disk: Disk, cfg: Config, tips: Tips, index: nat, contents: string, yaml: Yaml) returns (exit: Exit)
    requires tips.tips == disk.db && index < |tips.tips|
    modifies disk, tips
    ensures Effect(exit, disk.db, disk.files) == EditEffect(old(disk.db), index, old(disk.files), cfg, contents, yaml)
  {
    var tip := tips.tips[index];
    var container := ExtractMetadataData(contents);
    if container.Failure? {
      return Panicked(container.error);
    }
    var dataUpdated := UpdateData(disk, cfg, tip, container.value.content);
    if dataUpdated.Failure? {
      return Panicked(dataUpdated.error);
    }
    var metadataUpdated := UpdateMetadata(tips, index, container.value.metadata, yaml);
    if metadataUpdated.Failure? {
      return Panicked(metadataUpdated.error);
    }
    tips.Store(disk);
    return Completed;
  }

  // ---------------------------------------------------------------- properties

  /**
   * A completed update replaces only the tip with the id: length and order
   * are kept, every other tip is untouched, and the updated tip keeps its id,
   * extension and content uuid.
   */
  lemma UpdateChangesOnlyThatTip(db: seq<Tip>, files: map<string, string>, cfg: Config, arg: string,
                                 edit: string -> string, yaml: Yaml)
    requires UpdateEffect(db, files, cfg, arg, edit, yaml).exit == Completed
    ensures ParseUsize(arg).Some? && TipWithId(db, ParseUsize(arg).value).Success?
    ensures var e := UpdateEffect(db, files, cfg, arg, edit, yaml);
            var i := TipWithId(db, ParseUsize(arg).value).value;
            && |e.db| == |db|
            && (forall j :: 0 <= j < |db| && j != i ==> e.db[j] == db[j])
            && e.db[i].metadata.id == db[i].metadata.id == ParseUsize(arg)
            && e.db[i].metadata.dataExtension == db[i].metadata.dataExtension
            && e.db[i].data == db[i].data
  {
    var i := TipWithId(db, ParseUsize(arg).value).value;
    var path := DataPath(cfg.dataDir, db[i].data);
    var contents := edit(Document(yaml.serializeTip(db[i]), files[path]));
    assert UpdateEffect(db, files, cfg, arg, edit, yaml) == EditEffect(db, i, files - {cfg.tmpFile}, cfg, contents, yaml);
    EditCompleted(db, i, files - {cfg.tmpFile}, cfg, contents, yaml);
    MergeCopiesSubjectAndTags(db[i], yaml.parseTip(Split(contents).value.metadata).value);
  }

  /** A completed edit merges the deserialized tip into slot `i` and changes no other slot. */
  lemma EditCompleted(db: seq<Tip>, i: nat, files: map<string, string>, cfg: Config, contents: string, yaml: Yaml)
    requires i < |db| && EditEffect(db, i, files, cfg, contents, yaml).exit == Completed
    ensures Split(contents).Success? && yaml.parseTip(Split(contents).value.metadata).Some?
    ensures EditEffect(db, i, files, cfg, contents, yaml).db ==
            db[i := Merge(db[i], yaml.parseTip(Split(contents).value.metadata).value)]
  {
  }

  /** The ids of the database are the same after any update, so the id invariant is kept. */
  lemma UpdateKeepsIdsIncreasing(db: seq<Tip>, files: map<string, string>, cfg: Config, arg: string,
                                 edit: string -> string, yaml: Yaml)
    requires IdsIncreasing(db)
    ensures IdsIncreasing(UpdateEffect(db, files, cfg, arg, edit, yaml).db)
  {
    var e := UpdateEffect(db, files, cfg, arg, edit, yaml);
    if e.exit == Completed {
      UpdateChangesOnlyThatTip(db, files, cfg, arg, edit, yaml);
    }
  }

  /**
   * Saving the document without edits changes nothing but removes the
   * temporary document, given that serde reads back the tip it wrote and
   * that the serialized tip holds no separator.
   */
  lemma UneditedUpdateIsNoOp(db: seq<Tip>, files: map<string, string>, cfg: Config, arg: string,
                             edit: string -> string, yaml: Yaml)
    requires ParseUsize(arg).Some? && TipWithId(db, ParseUsize(arg).value).Success?
    requires var tip := db[TipWithId(db, ParseUsize(arg).value).value];
             var path := DataPath(cfg.dataDir, tip.data);
             && path in files && path != cfg.tmpFile
             && (forall s :: edit(s) == s)
             && (forall j :: !OccursAt(yaml.serializeTip(tip), SEPARATOR, j))
             && yaml.parseTip(yaml.serializeTip(tip) + "\n") == Some(tip)
    ensures UpdateEffect(db, files, cfg, arg, edit, yaml) == Effect(Completed, db, files - {cfg.tmpFile})
  {
    var i := TipWithId(db, ParseUsize(arg).value).value;
    var path := DataPath(cfg.dataDir, db[i].data);
    SplitDocument(yaml.serializeTip(db[i]), files[path]);
    assert db[i := Merge(db[i], db[i])] == db;
  }

  /**
   * The content file is written before the metadata block is deserialized: a
   * bad block panics after the new content has replaced the old one.
   */
  lemma BadMetadataKeepsNewContent(db: seq<Tip>, files: map<string, string>, cfg: Config, arg: string,
                                   edit: string -> string, yaml: Yaml)
    requires ParseUsize(arg).Some? && TipWithId(db, ParseUsize(arg).value).Success?
    requires var tip := db[TipWithId(db, ParseUsize(arg).value).value];
             var path := DataPath(cfg.dataDir, tip.data);
             && path in files && path != cfg.tmpFile
             && var contents := edit(Document(yaml.serializeTip(tip), files[path]));
             && Split(contents).Success?
             && yaml.parseTip(Split(contents).value.metadata).None?
    ensures var e := UpdateEffect(db, files, cfg, arg, edit, yaml);
            var tip := db[TipWithId(db, ParseUsize(arg).value).value];
            var path := DataPath(cfg.dataDir, tip.data);
            var contents := edit(Document(yaml.serializeTip(tip), files[path]));
            && e.exit.Panicked? && e.db == db
            && path in e.files && e.files[path] == Split(contents).value.content
  {
  }
}
