/**
 * tip.rs, its pure part: the Tip record, the starter template and the
 * separator, the hand-written equality, the id and tag cells of a summary row,
 * and the path of a tip's content file.
 */
module TipRecord {
  import opened Wrappers
  import opened Faults
  import opened Text
  import opened Meta

  /** The hyphenated text of a tip's uuid, which names its content file. */
  type Uuid = string

  /** A tip: its metadata, and the uuid of the file that holds its content. */
  datatype Tip = Tip(metadata: Metadata, data: Uuid)

  /** The line that separates the metadata block from the content in an edited document. */
  const SEPARATOR: string := "----- TIP BELOW THIS LINE -----"

  /** The starter template written for a new tip, before its content. */
  const TEMPLATE: string := "subject:\ntags:\n  - notag\n----- TIP BELOW THIS LINE -----\n"

  /** The metadata part of the starter template. */
  const TEMPLATE_HEAD: string := "subject:\ntags:\n  - notag\n"

  lemma SeparatorHasNoNewline()
    ensures forall i :: 0 <= i < |SEPARATOR| ==> SEPARATOR[i] != '\n'
  {
  }

  /** No occurrence of the separator can span a newline. */
  lemma NewlineBlocksSeparator(s: string, k: int, j: int)
    requires 0 <= k < |s| && s[k] == '\n'
    requires j <= k < j + |SEPARATOR|
    ensures !OccursAt(s, SEPARATOR, j)
  {
    SeparatorHasNoNewline();
    if 0 <= j && j + |SEPARATOR| <= |s| {
      assert s[j..j + |SEPARATOR|][k - j] == s[k];
    }
  }

  lemma TemplateHead()
    ensures |TEMPLATE| == 57 && TEMPLATE[..25] == TEMPLATE_HEAD
  {
  }

  lemma TemplateTailLeft()
    ensures |TEMPLATE| == 57 && TEMPLATE[25..41] == "----- TIP BELOW "
  {
    assert forall k :: 0 <= k < 16 ==> TEMPLATE[25..41][k] == TEMPLATE[25 + k];
  }

  lemma TemplateTailRight()
    ensures |TEMPLATE| == 57 && TEMPLATE[41..] == "THIS LINE -----\n"
  {
  }

  lemma TemplateTailText()
    ensures |TEMPLATE| == 57 && TEMPLATE[25..] == "----- TIP BELOW THIS LINE -----\n"
  {
    TemplateTailLeft();
    TemplateTailRight();
    assert TEMPLATE[25..] == TEMPLATE[25..41] + TEMPLATE[41..];
  }

  lemma SeparatorLine()
    ensures "----- TIP BELOW THIS LINE -----\n" == SEPARATOR + "\n"
  {
  }

  lemma TemplateTail()
    ensures |TEMPLATE| == 57 && TEMPLATE[25..] == SEPARATOR + "\n"
  {
    TemplateTailText();
    SeparatorLine();
  }

  /** The template is its metadata part, then the separator, then a newline. */
  lemma TemplateParts()
    ensures TEMPLATE == TEMPLATE_HEAD + SEPARATOR + "\n"
    ensures |TEMPLATE_HEAD| == 25 && |SEPARATOR| == 31 && |TEMPLATE| == 57
  {
    TemplateHead();
    TemplateTail();
    assert TEMPLATE == TEMPLATE[..25] + TEMPLATE[25..];
  }

  /**
   * The template is its metadata part, then the separator, then a newline, and
   * the separator occurs in it exactly once.
   */
  lemma TemplateShape()
    ensures TEMPLATE == TEMPLATE_HEAD + SEPARATOR + "\n"
    ensures |TEMPLATE_HEAD| == 25 && |SEPARATOR| == 31 && |TEMPLATE| == 57
    ensures forall j :: OccursAt(TEMPLATE, SEPARATOR, j) <==> j == |TEMPLATE_HEAD|
  {
    TemplateParts();
    var t := TEMPLATE_HEAD + SEPARATOR + "\n";
    assert t[25..56] == SEPARATOR;
    assert OccursAt(t, SEPARATOR, 25);
    assert t[24] == TEMPLATE_HEAD[24] == '\n';
    assert t[56] == '\n';
    forall j | j != 25
      ensures !OccursAt(t, SEPARATOR, j)
    {
      if 0 <= j < 25 {
        NewlineBlocksSeparator(t, 24, j);
      } else if j == 26 {
        NewlineBlocksSeparator(t, 56, j);
      }
    }
  }

  /** The hand-written `PartialEq` of Tip: equal metadata and equal content uuid. */
  function TipEq(a: Tip, b: Tip): (r: bool)
    ensures r <==> a == b
  {
    MetadataEq(a.metadata, b.metadata) && a.data == b.data
  }

  /** `format!("{}/{}", data_dir, uuid)`: where a tip's content lives. */
  function DataPath(dataDir: string, uuid: Uuid): string {
    dataDir + "/" + uuid
  }

  /** Different uuids name different content files. */
  lemma DataPathInjective(dataDir: string, u1: Uuid, u2: Uuid)
    ensures DataPath(dataDir, u1) == DataPath(dataDir, u2) <==> u1 == u2
  {
    assert DataPath(dataDir, u1)[|dataDir| + 1..] == u1;
    assert DataPath(dataDir, u2)[|dataDir| + 1..] == u2;
  }

  /** The text of the id cell, `format!("{}", id.unwrap())`: it panics on a missing id. */
  function IdCellText(tip: Tip): (r: Result<string, Fault>)
    ensures r.Failure? <==> tip.metadata.id.None?
    ensures r.Failure? ==> r.error == IdMissing
    ensures r.Success? ==> AllDigits(r.value) && DigitsValue(r.value) == tip.metadata.id.value
  {
    match tip.metadata.id
    case None => Failure(IdMissing)
    case Some(n) => DecimalValue(n); Success(Decimal(n))
  }

  /** The text of the tags cell, specified from the end: the last tag is printed first. */
  function TagsLine(tags: seq<string>): string {
    if |tags| == 0 then "" else tags[|tags| - 1] + " " + TagsLine(tags[..|tags| - 1])
  }

  /**
   * The loop of `tags_cell`: each tag, then a space, is inserted at the front of
   * the string built so far.
   */
  method TagsCellText(tip: Tip) returns (text: string)
    ensures text == TagsLine(tip.metadata.tags)
  {
    var tags := tip.metadata.tags;
    text := "";
    for i := 0 to |tags|
      invariant text == TagsLine(tags[..i])
    {
      text := " " + text;
      text := tags[i] + text;
      assert tags[..i + 1][..i] == tags[..i];
    }
    assert tags[..|tags|] == tags;
  }

  function Reverse(s: seq<string>): (r: seq<string>)
    ensures |r| == |s|
  {
    if s == [] then [] else Reverse(s[1..]) + [s[0]]
  }

  /** Every tag followed by one space, in the given order. */
  function Spaced(tags: seq<string>): string {
    if tags == [] then "" else tags[0] + " " + Spaced(tags[1..])
  }

  lemma {:induction false} SpacedAppend(a: seq<string>, b: seq<string>)
    ensures Spaced(a + b) == Spaced(a) + Spaced(b)
    decreases |a|
  {
    if a != [] {
      assert (a + b)[1..] == a[1..] + b;
      SpacedAppend(a[1..], b);
    } else {
      assert a + b == b;
    }
  }

  lemma {:induction false} ReverseLast(s: seq<string>)
    requires s != []
    ensures Reverse(s) == [s[|s| - 1]] + Reverse(s[..|s| - 1])
    decreases |s|
  {
    if |s| > 1 {
      ReverseLast(s[1..]);
      assert s[1..][..|s| - 2] == s[..|s| - 1][1..];
    }
  }

  /**
   * The tags cell lists the tags in reverse order, each followed by a space;
   * no tags give the empty text.
   */
  lemma {:induction false} TagsLineReversed(tags: seq<string>)
    ensures TagsLine(tags) == Spaced(Reverse(tags))
    decreases |tags|
  {
    if tags != [] {
      var n := |tags|;
      TagsLineReversed(tags[..n - 1]);
      ReverseLast(tags);
      SpacedAppend([tags[n - 1]], Reverse(tags[..n - 1]));
    }
  }

  /** The cells of a tip's summary row (`header_cells`): id, subject and tags. */
  datatype Header = Header(id: string, subject: string, tags: string)

  /**
   * The summary row of a tip: its id in decimal (a missing id panics), its
   * subject as it is, and its tags in reverse order, each followed by a space.
   */
  function HeaderCells(tip: Tip): (r: Result<Header, Fault>)
    ensures r.Failure? <==> tip.metadata.id.None?
    ensures r.Failure? ==> r.error == IdMissing
    ensures r.Success? ==>
              && AllDigits(r.value.id) && DigitsValue(r.value.id) == tip.metadata.id.value
              && r.value.subject == tip.metadata.subject
              && r.value.tags == Spaced(Reverse(tip.metadata.tags))
  {
    match IdCellText(tip)
    case Failure(f) => Failure(f)
    case Success(id) =>
      TagsLineReversed(tip.metadata.tags);
      Success(Header(id, tip.metadata.subject, TagsLine(tip.metadata.tags)))
  }

  /** `header_cells`: the id cell, the subject cell, then the tags cell built by its loop. */
  method HeaderRow(tip: Tip) returns (r: Result<Header, Fault>)
    ensures r == HeaderCells(tip)
  {
    var id := IdCellText(tip);
    if id.Failure? {
      return Failure(id.error);
    }
    var tags := TagsCellText(tip);
    return Success(Header(id.value, tip.metadata.subject, tags));
  }
}
