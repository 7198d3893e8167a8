/**
 * list.rs (with `Tips::summary` of tips.rs): the summary rows of every tip,
 * or of the tips a pattern matches in the chosen part, in collection order.
 */
module ListCommand {
  import opened Wrappers
  import opened Faults
  import opened Text
  import opened Meta
  import opened TipRecord
  import opened Storage
  import opened Collection
  import opened Query

  /** How a listing ends, and the rows it presents (none unless it completes). */
  datatype Listing = Listing(exit: Exit, rows: seq<Header>)

  const NOT_FOUND_PREFIX: string := "No t(ips) found using pattern: "

  /** The `part` argument of `match_pattern`; anything else panics. */
  function ComponentOf(part: string): (r: Result<Component, Fault>)
    ensures r.Success? <==> part == "subject" || part == "tag" || part == "data" || part == "all"
    ensures r.Failure? ==> r.error == UnknownPart(part)
    ensures part == "subject" ==> r == Success(Subject)
    ensures part == "tag" ==> r == Success(Tag)
    ensures part == "data" ==> r == Success(Data)
    ensures part == "all" ==> r == Success(All)
  {
    match part
    case "subject" => Success(Subject)
    case "tag" => Success(Tag)
    case "data" => Success(Data)
    case "all" => Success(All)
    case _ => Failure(UnknownPart(part))
  }

  /** The summary rows of all `tips`, in order; a tip without id panics. */
  function AllHeaders(tips: seq<Tip>): (r: Result<seq<Header>, Fault>)
    ensures r.Failure? <==> exists k :: 0 <= k < |tips| && tips[k].metadata.id.None?
    ensures r.Success? ==> |r.value| == |tips| && forall k :: 0 <= k < |tips| ==> HeaderCells(tips[k]) == Success(r.value[k])
  {
    if tips == [] then Success([])
    else
      var n := |tips| - 1;
      var init := AllHeaders(tips[..n]);
      assert forall k :: 0 <= k < n ==> tips[..n][k] == tips[k];
      match init
      case Failure(f) => Failure(f)
      case Success(rows) =>
        match HeaderCells(tips[n])
        case Failure(f) => Failure(f)
        case Success(h) => Success(rows + [h])
  }

  /**
   * The rows the loop of `match_pattern` pushes for `tips`: the summary row
   * of every tip the search returns, in order; the first panic of a search
   * or of a row stops it.
   */
  function Matches(engine: RegexEngine, pattern: string, component: Component, tips: seq<Tip>,
                   files: map<string, string>, dataDir: string): Result<seq<Header>, Fault>
  {
    if tips == [] then Success([])
    else
      var n := |tips| - 1;
      match Matches(engine, pattern, component, tips[..n], files, dataDir)
      case Failure(f) => Failure(f)
      case Success(rows) =>
        match Search(engine, pattern, tips[n], component, files, dataDir)
        case Failure(f) => Failure(f)
        case Success(None) => Success(rows)
        case Success(Some(hit)) =>
          match HeaderCells(hit)
          case Failure(f) => Failure(f)
          case Success(h) => Success(rows + [h])
  }

  /** The tips a search finds, as a subsequence of the collection (independent of panics). */
  function Selected(engine: RegexEngine, pattern: string, component: Component, tips: seq<Tip>,
                    files: map<string, string>, dataDir: string): seq<Tip>
  {
    if tips == [] then []
    else
      var n := |tips| - 1;
      Selected(engine, pattern, component, tips[..n], files, dataDir)
      + (if Search(engine, pattern, tips[n], component, files, dataDir) == Success(Some(tips[n])) then [tips[n]] else [])
  }

  /** What `Tips::summary` presents: every row, or the first panic. */
  function SummaryEffect(db: seq<Tip>): (r: Listing)
    ensures r.exit.Completed? || r.exit.Panicked?
    ensures r.exit.Completed? ==> |r.rows| == |db|
    ensures r.exit.Panicked? ==> r.rows == []
  {
    match AllHeaders(db)
    case Failure(f) => Listing(Panicked(f), [])
    case Success(rows) => Listing(Completed, rows)
  }

  /** Everything `list` does, for the `pattern` and `part` arguments (clap defaults both to `all`). */
  function ListEffect(db: seq<Tip>, files: map<string, string>, dataDir: string, engine: RegexEngine,
                      pattern: string, part: string): (r: Listing)
    ensures !r.exit.Completed? ==> r.rows == []
    ensures r.exit.Exited? ==> r.exit == Exited(1, NOT_FOUND_PREFIX + pattern) && pattern != "all"
    ensures r.exit.Completed? && pattern != "all" ==> r.rows != []
  {
    if pattern == "all" then SummaryEffect(db)
    else
      match ComponentOf(part)
      case Failure(f) => Listing(Panicked(f), [])
      case Success(component) =>
        match Matches(engine, pattern, component, db, files, dataDir)
        case Failure(f) => Listing(Panicked(f), [])
        case Success(rows) =>
          if |rows| == 0 then Listing(Exited(1, NOT_FOUND_PREFIX + pattern), [])
          else Listing(Completed, rows)
  }

  /** `Tips::summary`: the loop pushing the summary row of every tip. */
  method Summary(disk: Disk) returns (l: Listing)
    ensures l == SummaryEffect(disk.db)
  {
    var tips := Load(disk);
    var rows := [];
    for i := 0 to |tips.tips|
      invariant tips.tips == disk.db
      invariant AllHeaders(tips.tips[..i]) == Success(rows)
    {
      var row := HeaderRow(tips.tips[i]);
      assert tips.tips[..i + 1][..i] == tips.tips[..i];
      if row.Failure? {
        AllHeadersFailure(tips.tips, i + 1);
        return Listing(Panicked(row.error), []);
      }
      rows := rows + [row.value];
    }
    assert tips.tips[..|tips.tips|] == tips.tips;
    return Listing(Completed, rows);
  }

  /**
   * `match_pattern`: map the part to a component, push the summary row of
   * every tip the search returns, then exit with status 1 when there is none.
   */
  method MatchPattern(disk: Disk, dataDir: string, engine: RegexEngine, pattern: string, part: string)
    returns (l: Listing)
    requires pattern != "all"
    ensures l == ListEffect(disk.db, disk.files, dataDir, engine, pattern, part)
  {
    var tips := Load(disk);
    var component := ComponentOf(part);
    if component.Failure? {
      return Listing(Panicked(component.error), []);
    }
    var rows := CollectRows(tips, disk.files, dataDir, engine, pattern, component.value);
    if rows.Failure? {
      return Listing(Panicked(rows.error), []);
    }
    if |rows.value| == 0 {
      return Listing(Exited(1, NOT_FOUND_PREFIX + pattern), []);
    }
    return Listing(Completed, rows.value);
  }

  /** The loop of `match_pattern`: the rows it pushes, or the first panic of a search or a row. */
  method CollectRows(tips: Tips, files: map<string, string>, dataDir: string, engine: RegexEngine,
                     pattern: string, component: Component) returns (r: Result<seq<Header>, Fault>)
    ensures r == Matches(engine, pattern, component, tips.tips, files, dataDir)
  {
    var ts := tips.tips;
    var rows := [];
    for i := 0 to |ts|
      invariant Matches(engine, pattern, component, ts[..i], files, dataDir) == Success(rows)
    {
      var tip := ts[i];
      var hit := Search(engine, pattern, tip, component, files, dataDir);
      MatchesStep(engine, pattern, component, ts, files, dataDir, i);
      if hit.Failure? {
        MatchesFailure(engine, pattern, component, ts, files, dataDir, i + 1);
        return Failure(hit.error);
      }
      if hit.value.Some? {
        var row := HeaderRow(hit.value.value);
        if row.Failure? {
          MatchesFailure(engine, pattern, component, ts, files, dataDir, i + 1);
          return Failure(row.error);
        }
        rows := rows + [row.value];
      }
    }
    assert ts[..|ts|] == ts;
    return Success(rows);
  }

  /** `list`: the pattern `all` lists everything; any other pattern is matched. */
  method List(disk: Disk, dataDir: string, engine: RegexEngine, pattern: string, part: string) returns (l: Listing)
    ensures l == ListEffect(disk.db, disk.files, dataDir, engine, pattern, part)
  {
    if pattern == "all" {
      l := Summary(disk);
    } else {
      l := MatchPattern(disk, dataDir, engine, pattern, part);
    }
  }

  // ---------------------------------------------------------------- loop lemmas

  /** A panic on a prefix is the panic of the whole listing. */
  lemma {:induction false} AllHeadersFailure(tips: seq<Tip>, k: nat)
    requires k <= |tips| && AllHeaders(tips[..k]).Failure?
    ensures AllHeaders(tips) == AllHeaders(tips[..k])
    decreases |tips| - k
  {
    if k < |tips| {
      var t := tips[..k + 1];
      assert t[..k] == tips[..k];
      AllHeadersFailure(tips, k + 1);
    } else {
      assert tips[..k] == tips;
    }
  }

  /** One more tip for the match loop: its search, then its row when the search returns it. */
  lemma MatchesStep(engine: RegexEngine, pattern: string, component: Component, tips: seq<Tip>,
                    files: map<string, string>, dataDir: string, i: nat)
    requires i < |tips|
    ensures Matches(engine, pattern, component, tips[..i + 1], files, dataDir) ==
            match Matches(engine, pattern, component, tips[..i], files, dataDir)
            case Failure(f) => Failure(f)
            case Success(rows) =>
              match Search(engine, pattern, tips[i], component, files, dataDir)
              case Failure(f) => Failure(f)
              case Success(None) => Success(rows)
              case Success(Some(hit)) =>
                match HeaderCells(hit)
                case Failure(f) => Failure(f)
                case Success(h) => Success(rows + [h])
  {
    assert tips[..i + 1][..i] == tips[..i];
  }

  /** A panic on a prefix is the panic of the whole loop. */
  lemma {:induction false} MatchesFailure(engine: RegexEngine, pattern: string, component: Component, tips: seq<Tip>,
                                          files: map<string, string>, dataDir: string, k: nat)
    requires k <= |tips| && Matches(engine, pattern, component, tips[..k], files, dataDir).Failure?
    ensures Matches(engine, pattern, component, tips, files, dataDir) == Matches(engine, pattern, component, tips[..k], files, dataDir)
    decreases |tips| - k
  {
    if k < |tips| {
      var t := tips[..k + 1];
      assert t[..k] == tips[..k];
      MatchesFailure(engine, pattern, component, tips, files, dataDir, k + 1);
    } else {
      assert tips[..k] == tips;
    }
  }

  // ---------------------------------------------------------------- properties

  /**
   * When the loop completes, its rows are exactly the summary rows of the
   * selected tips, in the same order.
   */
  lemma {:induction false} MatchesAreSelected(engine: RegexEngine, pattern: string, component: Component, tips: seq<Tip>,
                                              files: map<string, string>, dataDir: string)
    requires Matches(engine, pattern, component, tips, files, dataDir).Success?
    ensures var rows := Matches(engine, pattern, component, tips, files, dataDir).value;
            var sel := Selected(engine, pattern, component, tips, files, dataDir);
            |rows| == |sel| && forall k :: 0 <= k < |sel| ==> HeaderCells(sel[k]) == Success(rows[k])
    decreases |tips|
  {
    if tips != [] {
      var n := |tips| - 1;
      MatchesAreSelected(engine, pattern, component, tips[..n], files, dataDir);
    }
  }

  /** A tip is selected exactly when it is in the collection and the search returns it. */
  lemma {:induction false} SelectedMembers(engine: RegexEngine, pattern: string, component: Component, tips: seq<Tip>,
                                           files: map<string, string>, dataDir: string, tip: Tip)
    ensures tip in Selected(engine, pattern, component, tips, files, dataDir) <==>
            tip in tips && Search(engine, pattern, tip, component, files, dataDir) == Success(Some(tip))
    decreases |tips|
  {
    if tips != [] {
      var n := |tips| - 1;
      SelectedMembers(engine, pattern, component, tips[..n], files, dataDir, tip);
      assert tips == tips[..n] + [tips[n]];
    }
  }

  /** Selection distributes over concatenation: the collection order is kept. */
  lemma {:induction false} SelectedAppend(engine: RegexEngine, pattern: string, component: Component, a: seq<Tip>, b: seq<Tip>,
                                          files: map<string, string>, dataDir: string)
    ensures Selected(engine, pattern, component, a + b, files, dataDir) ==
            Selected(engine, pattern, component, a, files, dataDir) + Selected(engine, pattern, component, b, files, dataDir)
    decreases |b|
  {
    if b == [] {
      assert a + b == a;
    } else {
      var n := |b| - 1;
      var c, t := b[..n], b[n];
      assert b == c + [t];
      assert a + b == (a + c) + [t];
      SelectedSnoc(engine, pattern, component, c, t, files, dataDir);
      SelectedSnoc(engine, pattern, component, a + c, t, files, dataDir);
      SelectedAppend(engine, pattern, component, a, c, files, dataDir);
    }
  }

  /** Selecting from a collection one tip longer adds that tip exactly when its search returns it. */
  lemma SelectedSnoc(engine: RegexEngine, pattern: string, component: Component, s: seq<Tip>, t: Tip,
                     files: map<string, string>, dataDir: string)
    ensures Selected(engine, pattern, component, s + [t], files, dataDir) ==
            Selected(engine, pattern, component, s, files, dataDir)
            + (if Search(engine, pattern, t, component, files, dataDir) == Success(Some(t)) then [t] else [])
  {
    assert (s + [t])[..|s|] == s;
  }

  /**
   * The pattern `all` lists every tip, whatever the part, and completes even on
   * an empty database; it panics only on a tip without id.
   */
  lemma ListAllIsEverything(db: seq<Tip>, files: map<string, string>, dataDir: string, engine: RegexEngine, part: string)
    requires forall k :: 0 <= k < |db| ==> db[k].metadata.id.Some?
    ensures var l := ListEffect(db, files, dataDir, engine, "all", part);
            l.exit == Completed && |l.rows| == |db|
            && forall k :: 0 <= k < |db| ==> HeaderCells(db[k]) == Success(l.rows[k])
  {
  }

  /**
   * Any other pattern lists the summary rows of the selected tips, in order,
   * and exits with status 1 when there are none.
   */
  lemma ListPatternIsSelection(db: seq<Tip>, files: map<string, string>, dataDir: string, engine: RegexEngine,
                               pattern: string, part: string)
    requires pattern != "all" && ComponentOf(part).Success?
    requires Matches(engine, pattern, ComponentOf(part).value, db, files, dataDir).Success?
    ensures var l := ListEffect(db, files, dataDir, engine, pattern, part);
            var sel := Selected(engine, pattern, ComponentOf(part).value, db, files, dataDir);
            && (sel == [] <==> l.exit == Exited(1, NOT_FOUND_PREFIX + pattern))
            && (sel != [] ==>
                  l.exit == Completed && |l.rows| == |sel|
                  && forall k :: 0 <= k < |sel| ==> HeaderCells(sel[k]) == Success(l.rows[k]))
  {
    MatchesAreSelected(engine, pattern, ComponentOf(part).value, db, files, dataDir);
  }

  /**
   * On an empty database a search never runs, so even a pattern that does not
   * compile ends in "No t(ips) found" rather than a panic.
   */
  lemma EmptyDatabaseNeverSearches(files: map<string, string>, dataDir: string, engine: RegexEngine,
                                   pattern: string, part: string)
    requires pattern != "all" && ComponentOf(part).Success?
    ensures ListEffect([], files, dataDir, engine, pattern, part) == Listing(Exited(1, NOT_FOUND_PREFIX + pattern), [])
  {
  }
}
