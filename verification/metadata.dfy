/** metadata.rs: the metadata of a tip, its equality and its `Display` text. */
module Meta {
  import opened Wrappers
  import opened Text

  /**
   * The fields metadata.rs declares. `id` is `None` only between parsing a new
   * tip and giving it the next id; `tags` keeps order and duplicates.
   */
  datatype Metadata = Metadata(
    subject: string,
    id: Option<nat>,
    tags: seq<string>,
    dataExtension: Option<string>)

  /** The hand-written `PartialEq`: it compares every field, so it is structural equality. */
  function MetadataEq(a: Metadata, b: Metadata): (r: bool)
    ensures r <==> a == b
  {
    a.subject == b.subject && a.id == b.id && a.tags == b.tags && a.dataExtension == b.dataExtension
  }

  /** `Display` prints a missing id as 0. */
  function IdOrZero(m: Metadata): nat {
    match m.id
    case Some(n) => n
    case None => 0
  }

  /** The elements of `{:?}` of a `Vec<String>`: quoted items separated by ", ". */
  function DebugItems(items: seq<string>): string
    decreases |items|
  {
    if |items| == 0 then ""
    else if |items| == 1 then Quoted(items[0])
    else Quoted(items[0]) + ", " + DebugItems(items[1..])
  }

  /** `{:?}` of an `Option<String>`. */
  function DebugOption(o: Option<string>): string {
    match o
    case None => "None"
    case Some(s) => "Some(" + Quoted(s) + ")"
  }

  /** The line that begins every `Display` text, up to the rendered id. */
  function DisplayHead(m: Metadata): string {
    "subject: " + m.subject + "\nid: "
  }

  /** What follows the rendered id: the tags (with the format string's stray "]") and the extension. */
  function DisplayTail(m: Metadata): (r: string)
    ensures |r| > 0 && r[0] == '\n'
  {
    "\ntags: [" + DebugItems(m.tags) + "]]\ncode_extension: " + DebugOption(m.dataExtension)
  }

  /** `Display`: it begins with the subject line and then the id line. */
  function Display(m: Metadata): (r: string)
    ensures |r| > |DisplayHead(m)| && r[..|DisplayHead(m)|] == DisplayHead(m)
  {
    DisplayHead(m) + Decimal(IdOrZero(m)) + DisplayTail(m)
  }

  /** A missing id and id 0 print the same. */
  lemma DisplayNoneAsZero(m: Metadata)
    ensures Display(m.(id := None)) == Display(m.(id := Some(0)))
  {
  }

  /**
   * The id line of `Display` reads back as the id, a missing id as 0: after the
   * head come digits that parse to that id, then a newline.
   */
  lemma DisplayIdLine(m: Metadata)
    requires IdOrZero(m) < USIZE_LIMIT
    ensures exists d, q :: Display(m) == DisplayHead(m) + d + q && AllDigits(d) && |q| > 0 && q[0] == '\n'
                           && ParseUsize(d) == Some(IdOrZero(m))
  {
    var d, q := Decimal(IdOrZero(m)), DisplayTail(m);
    ParseDecimal(IdOrZero(m));
    assert Display(m) == DisplayHead(m) + d + q;
  }

  lemma NewlineEndsDigits(d: string, q: string, k: int)
    requires AllDigits(d) && |q| > 0 && q[0] == '\n' && 0 <= k <= |d|
    ensures (d + q)[k] == '\n' <==> k == |d|
  {
    if k < |d| {
      assert (d + q)[k] == d[k];
    }
  }

  lemma DropHead(h: string, x: string, y: string)
    ensures (h + x + y)[|h|..] == x + y
  {
  }

  /** A run of digits ended by a newline is read back unambiguously. */
  lemma DigitsBeforeNewline(d1: string, q1: string, d2: string, q2: string)
    requires AllDigits(d1) && AllDigits(d2)
    requires |q1| > 0 && q1[0] == '\n' && |q2| > 0 && q2[0] == '\n'
    requires d1 + q1 == d2 + q2
    ensures d1 == d2
  {
    var m := if |d1| <= |d2| then |d1| else |d2|;
    NewlineEndsDigits(d1, q1, m);
    NewlineEndsDigits(d2, q2, m);
    assert |d1| == |d2|;
    assert d1 == (d1 + q1)[..|d1|];
    assert d2 == (d2 + q2)[..|d2|];
  }

  /**
   * For one subject, the `Display` text determines the printed id: only a
   * missing id and id 0 are confused (DisplayNoneAsZero).
   */
  lemma DisplayDeterminesId(a: Metadata, b: Metadata)
    requires a.subject == b.subject
    ensures Display(a) == Display(b) ==> IdOrZero(a) == IdOrZero(b)
  {
    if Display(a) == Display(b) {
      var h := DisplayHead(a);
      assert h == DisplayHead(b);
      var da, db := Decimal(IdOrZero(a)), Decimal(IdOrZero(b));
      var qa, qb := DisplayTail(a), DisplayTail(b);
      assert Display(a) == h + da + qa;
      assert Display(b) == h + db + qb;
      DropHead(h, da, qa);
      DropHead(h, db, qb);
      DigitsBeforeNewline(da, qa, db, qb);
      DecimalInjective(IdOrZero(a), IdOrZero(b));
    }
  }
}
