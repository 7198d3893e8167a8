/**
 * query.rs: does a tip match a regular expression, searched in its subject,
 * its content, its tags, or all three in turn?
 */
module Query {
  import opened Wrappers
  import opened Faults
  import opened Text
  import opened Meta
  import opened TipRecord
  import opened Storage

  /** The parts of a tip a search can look at. */
  datatype Component = Subject | Data | Tag | All

  /**
   * The `regex` crate, seen only through what the core asks of it: whether a
   * pattern compiles, and whether a compiled pattern has a match in a text.
   */
  datatype RegexEngine = RegexEngine(compiles: string -> bool, finds: (string, string) -> bool)

  /**
   * The loop over the tags in `find`: a tag hits when the pattern is found in
   * its `{:?}` rendering, quotes and escapes included.
   */
  function TagHit(engine: RegexEngine, pattern: string, tags: seq<string>): (r: bool)
    ensures r <==> exists i :: 0 <= i < |tags| && engine.finds(pattern, Quoted(tags[i]))
  {
    if tags == [] then false
    else if engine.finds(pattern, Quoted(tags[0])) then
      assert engine.finds(pattern, Quoted(tags[0]));
      true
    else
      var rest := TagHit(engine, pattern, tags[1..]);
      assert forall i :: 1 <= i < |tags| ==> tags[i] == tags[1..][i - 1];
      rest
  }

  function Rank(component: Component): nat {
    if component == All then 1 else 0
  }

  /**
   * `find`: the tip itself when the component matches, `None` otherwise. The
   * content is read from its file, which panics when the file is missing;
   * `All` tries subject, content and tags in that order and stops at the
   * first hit.
   */
  function Find(engine: RegexEngine, pattern: string, tip: Tip, component: Component,
                files: map<string, string>, dataDir: string): (r: Result<Option<Tip>, Fault>)
    ensures r.Success? && r.value.Some? ==> r.value.value == tip
    ensures r.Failure? ==> r.error == MissingFile(DataPath(dataDir, tip.data))
    decreases Rank(component)
  {
    match component
    case Subject =>
      Success(if engine.finds(pattern, tip.metadata.subject) then Some(tip) else None)
    case Data =>
      (match GetData(files, dataDir, tip)
       case Failure(f) => Failure(f)
       case Success(content) => Success(if engine.finds(pattern, content) then Some(tip) else None))
    case Tag =>
      Success(if TagHit(engine, pattern, tip.metadata.tags) then Some(tip) else None)
    case All =>
      var bySubject := Find(engine, pattern, tip, Subject, files, dataDir);
      if bySubject.Success? && bySubject.value.Some? then bySubject
      else
        var byData := Find(engine, pattern, tip, Data, files, dataDir);
        if byData.Failure? || byData.value.Some? then byData
        else Find(engine, pattern, tip, Tag, files, dataDir)
  }

  /**
   * `search`: a pattern that does not compile panics; otherwise the result of
   * `find`, which is no tip or the very tip searched.
   */
  function Search(engine: RegexEngine, pattern: string, tip: Tip, component: Component,
                  files: map<string, string>, dataDir: string): (r: Result<Option<Tip>, Fault>)
    ensures !engine.compiles(pattern) ==> r == Failure(InvalidPattern(pattern))
    ensures engine.compiles(pattern) ==> r == Find(engine, pattern, tip, component, files, dataDir)
    ensures r.Success? ==> r.value == None || r.value == Some(tip)
  {
    if !engine.compiles(pattern) then Failure(InvalidPattern(pattern))
    else match Find(engine, pattern, tip, component, files, dataDir)
      case Failure(f) => Failure(f)
      case Success(Some(hit)) => Success(Some(hit))
      case Success(None) => Success(None)
  }

  // ---------------------------------------------------------------- properties

  /**
   * What each single component matches: the raw subject, the content file's
   * text (missing file: panic), or the quoted rendering of some tag.
   */
  lemma SingleComponents(engine: RegexEngine, pattern: string, tip: Tip, files: map<string, string>, dataDir: string)
    ensures Find(engine, pattern, tip, Subject, files, dataDir).Success?
    ensures Find(engine, pattern, tip, Subject, files, dataDir).value.Some? <==> engine.finds(pattern, tip.metadata.subject)
    ensures Find(engine, pattern, tip, Data, files, dataDir).Failure? <==> DataPath(dataDir, tip.data) !in files
    ensures Find(engine, pattern, tip, Data, files, dataDir).Success? ==>
              (Find(engine, pattern, tip, Data, files, dataDir).value.Some? <==>
                 engine.finds(pattern, files[DataPath(dataDir, tip.data)]))
    ensures Find(engine, pattern, tip, Tag, files, dataDir).Success?
    ensures Find(engine, pattern, tip, Tag, files, dataDir).value.Some? <==>
              exists i :: 0 <= i < |tip.metadata.tags| && engine.finds(pattern, Quoted(tip.metadata.tags[i]))
  {
  }

  /** A tip without tags is never found by a tag search. */
  lemma NoTagsNoTagHit(engine: RegexEngine, pattern: string, tip: Tip, files: map<string, string>, dataDir: string)
    requires tip.metadata.tags == []
    ensures Find(engine, pattern, tip, Tag, files, dataDir) == Success(None)
  {
  }

  /**
   * `All` is the disjunction of the three components, evaluated from the
   * subject on: a subject hit matches without reading the content, so only a
   * subject miss with a missing content file panics.
   */
  lemma AllIsDisjunction(engine: RegexEngine, pattern: string, tip: Tip, files: map<string, string>, dataDir: string)
    ensures var all := Find(engine, pattern, tip, All, files, dataDir);
            var path := DataPath(dataDir, tip.data);
            && (all.Failure? <==> !engine.finds(pattern, tip.metadata.subject) && path !in files)
            && (all.Success? ==>
                  (all.value.Some? <==>
                     || engine.finds(pattern, tip.metadata.subject)
                     || engine.finds(pattern, files[path])
                     || TagHit(engine, pattern, tip.metadata.tags)))
  {
  }

  /**
   * Tags are searched in their quoted form: the tag `a` is searched as the
   * three characters `"a"`.
   */
  lemma TagSearchSeesQuotes(engine: RegexEngine, pattern: string, tip: Tip, files: map<string, string>, dataDir: string)
    requires tip.metadata.tags == ["a"]
    ensures Find(engine, pattern, tip, Tag, files, dataDir).value.Some? <==> engine.finds(pattern, "\"a\"")
  {
    assert Quoted("a") == "\"a\"" by {
      assert Escape("a") == "a";
    }
  }
}
