/**
 * The editable document: composing it (the starter template plus content in
 * add.rs, `Tip::to_file` in tip.rs) and splitting it at the first separator
 * (`create` in add.rs, `extrace_metadata_data` in update.rs).
 */
module Codec {
  import opened Wrappers
  import opened Faults
  import opened Text
  import opened Meta
  import opened TipRecord
  import opened Storage

  /**
   * serde_yaml, seen only through what the core calls: serializing a Tip and
   * deserializing a Tip or a Metadata, which may fail.
   */
  datatype Yaml = Yaml(
    serializeTip: Tip -> string,
    parseTip: string -> Option<Tip>,
    parseMetadata: string -> Option<Metadata>)

  /** The two blocks of an edited document (`MetadataAndData` in update.rs). */
  datatype Parts = Parts(metadata: string, content: string)

  /**
   * Split at the first separator: the metadata is everything before it, the
   * content everything after it less one more character (the newline that
   * should follow it). The document is malformed without a separator or with
   * nothing after it.
   */
  function Split(doc: string): (r: Result<Parts, Fault>)
    ensures r == Failure(NoSeparator) ==> forall j :: !OccursAt(doc, SEPARATOR, j)
    ensures r.Failure? ==> r.error == NoSeparator || r.error == NothingAfterSeparator
    ensures r == Failure(NothingAfterSeparator) ==>
              OccursAt(doc, SEPARATOR, |doc| - |SEPARATOR|)
              && forall j :: 0 <= j < |doc| - |SEPARATOR| ==> !OccursAt(doc, SEPARATOR, j)
    ensures r.Success? ==>
              var m := r.value.metadata;
              |doc| > |m| + |SEPARATOR|
              && doc == m + SEPARATOR + [doc[|m| + |SEPARATOR|]] + r.value.content
              && OccursAt(doc, SEPARATOR, |m|)
              && forall j :: 0 <= j < |m| ==> !OccursAt(doc, SEPARATOR, j)
  {
    match FindFirst(doc, SEPARATOR)
    case None => Failure(NoSeparator)
    case Some(i) =>
      var rest := doc[i..][|SEPARATOR|..];
      assert rest == doc[i + |SEPARATOR|..];
      if rest == [] then Failure(NothingAfterSeparator)
      else
        CutAround(doc, i, |SEPARATOR|);
        Success(Parts(doc[..i], rest[1..]))
  }

  /** A text is its prefix, the `n` characters from `i`, one more character and the rest. */
  lemma CutAround(doc: string, i: nat, n: nat)
    requires i + n < |doc|
    ensures doc == doc[..i] + doc[i..i + n] + [doc[i + n]] + doc[i + n + 1..]
  {
    assert doc == doc[..i] + doc[i..];
    assert doc[i..] == doc[i..i + n] + doc[i + n..];
    assert doc[i + n..] == [doc[i + n]] + doc[i + n + 1..];
  }

  /**
   * Any way of writing the document as metadata, separator, one character and
   * content, with no separator starting inside the metadata, is the split.
   */
  lemma SplitUnique(m: string, c: char, t: string)
    requires forall j :: 0 <= j < |m| ==> !OccursAt(m + SEPARATOR + [c] + t, SEPARATOR, j)
    ensures Split(m + SEPARATOR + [c] + t) == Success(Parts(m, t))
  {
    var doc := m + SEPARATOR + [c] + t;
    assert doc[|m|..|m| + |SEPARATOR|] == SEPARATOR;
    assert OccursAt(doc, SEPARATOR, |m|);
    assert doc[|m|..][|SEPARATOR|..] == [c] + t;
    assert doc[..|m|] == m;
  }

  /**
   * A metadata block that ends in a newline and holds no separator cannot
   * start one: the separator has no newline to span.
   */
  lemma NoSeparatorBefore(m: string, rest: string)
    requires |m| > 0 && m[|m| - 1] == '\n'
    requires forall j :: !OccursAt(m, SEPARATOR, j)
    ensures forall j :: 0 <= j < |m| ==> !OccursAt(m + rest, SEPARATOR, j)
  {
    forall j | 0 <= j < |m|
      ensures !OccursAt(m + rest, SEPARATOR, j)
    {
      if j + |SEPARATOR| <= |m| {
        assert (m + rest)[j..j + |SEPARATOR|] == m[j..j + |SEPARATOR|];
        assert !OccursAt(m, SEPARATOR, j);
      } else {
        NewlineBlocksSeparator(m + rest, |m| - 1, j);
      }
    }
  }

  /** The temporary document `add` writes: the starter template, then the content. */
  function StarterDocument(data: string): string {
    TEMPLATE + data
  }

  /**
   * Splitting an unedited starter document gives back the template's metadata
   * part and exactly the content that was put in, whatever it is.
   */
  lemma SplitStarter(data: string)
    ensures Split(StarterDocument(data)) == Success(Parts(TEMPLATE_HEAD, data))
  {
    TemplateShape();
    assert StarterDocument(data) == TEMPLATE_HEAD + SEPARATOR + ['\n'] + data;
    assert forall j :: !OccursAt(TEMPLATE_HEAD, SEPARATOR, j);
    NoSeparatorBefore(TEMPLATE_HEAD, SEPARATOR + ['\n'] + data);
    assert TEMPLATE_HEAD + (SEPARATOR + ['\n'] + data) == TEMPLATE_HEAD + SEPARATOR + ['\n'] + data;
    SplitUnique(TEMPLATE_HEAD, '\n', data);
  }

  /** The text `to_file` writes: serialized tip, newline, separator, newline, content. */
  function Document(serialized: string, content: string): string {
    serialized + "\n" + SEPARATOR + "\n" + content
  }

  /**
   * Round trip of `to_file` and the split: when the serialized tip holds no
   * separator, the split gives it back (with the newline `to_file` added) and
   * gives back the content exactly.
   */
  lemma SplitDocument(serialized: string, content: string)
    requires forall j :: !OccursAt(serialized, SEPARATOR, j)
    ensures Split(Document(serialized, content)) == Success(Parts(serialized + "\n", content))
  {
    var m := serialized + "\n";
    forall j | true
      ensures !OccursAt(m, SEPARATOR, j)
    {
      if 0 <= j && j + |SEPARATOR| <= |serialized| {
        assert m[j..j + |SEPARATOR|] == serialized[j..j + |SEPARATOR|];
        assert !OccursAt(serialized, SEPARATOR, j);
      } else if 0 <= j && j + |SEPARATOR| == |m| {
        NewlineBlocksSeparator(m, |m| - 1, j);
      }
    }
    NoSeparatorBefore(m, SEPARATOR + ['\n'] + content);
    assert Document(serialized, content) == m + SEPARATOR + ['\n'] + content;
    assert m + (SEPARATOR + ['\n'] + content) == m + SEPARATOR + ['\n'] + content;
    SplitUnique(m, '\n', content);
  }

  /**
   * `Tip::to_file`: serialize the tip, read its content (panicking when the
   * content file is missing), build the document by three insertions at the
   * front of an empty string, and write it to `outfile`.
   */
  method ToFile(disk: Disk, cfg: Config, tip: Tip, outfile: string, yaml: Yaml) returns (r: Result<(), Fault>)
    modifies disk
    ensures disk.db == old(disk.db)
    ensures r == (if DataPath(cfg.dataDir, tip.data) in old(disk.files) then Success(())
                  else Failure(MissingFile(DataPath(cfg.dataDir, tip.data))))
    ensures r.Failure? ==> disk.files == old(disk.files)
    ensures r.Success? ==> disk.files == old(disk.files)[outfile :=
              Document(yaml.serializeTip(tip), old(disk.files)[DataPath(cfg.dataDir, tip.data)])]
  {
    var serialized := yaml.serializeTip(tip);
    var separator := "\n" + SEPARATOR + "\n";
    var contents := disk.Read(DataPath(cfg.dataDir, tip.data));
    if contents.Failure? {
      return Failure(contents.error);
    }
    var data := "";
    data := contents.value + data;
    data := separator + data;
    data := serialized + data;
    assert data == Document(serialized, contents.value);
    disk.Write(outfile, data);
    return Success(());
  }
}
