/**
 * remove.rs: the first tip whose id, printed in decimal, equals the argument
 * text is shown and, when the typed answer is `y` or `Y`, its content file is
 * deleted and the tip removed from the database.
 */
module RemoveCommand {
  import opened Wrappers
  import opened Faults
  import opened Text
  import opened Meta
  import opened TipRecord
  import opened Storage
  import opened Collection

  /** The tip chosen for removal: its index and its content file (`RemoveTip`). */
  datatype RemoveTip = RemoveTip(index: nat, data: string)

  /** How `confirm_removal` ends. */
  datatype Decision =
    | Confirmed(target: RemoveTip)   // returns the tip to remove
    | Declined                       // "Aborted by user", exit status 1
    | NoMatch                        // returns `None`
    | Crashed(fault: Fault)          // an id-less tip met before a match

  const DECLINED_MESSAGE: string := "Aborted by user"

  function NoMatchMessage(id: string): string {
    "No tip with id: " + id + " found"
  }

  /** The typed answer confirms when, trimmed, it is exactly `y` or `Y`. */
  predicate Accepted(answer: string) {
    Trim(answer) == "y" || Trim(answer) == "Y"
  }

  /** `answer` is the character `c` with nothing but whitespace around it. */
  ghost predicate PaddedLetter(answer: string, c: char) {
    exists w1, w2 :: AllWhitespace(w1) && AllWhitespace(w2) && answer == w1 + [c] + w2
  }

  lemma TrimmedToLetter(answer: string, c: char)
    requires Trim(answer) == [c]
    ensures PaddedLetter(answer, c)
  {
    var i := |answer| - |TrimStart(answer)|;
    assert answer == answer[..i] + [c] + answer[i + 1..];
  }

  lemma LetterTrimsTo(answer: string, c: char)
    requires PaddedLetter(answer, c) && !IsWhitespace(c)
    ensures Trim(answer) == [c]
  {
    var w1, w2 :| AllWhitespace(w1) && AllWhitespace(w2) && answer == w1 + [c] + w2;
    TrimPadded(w1, [c], w2);
  }

  /** An answer is accepted exactly when it is `y` or `Y` padded by whitespace. */
  lemma AcceptedIff(answer: string)
    ensures Accepted(answer) <==> PaddedLetter(answer, 'y') || PaddedLetter(answer, 'Y')
  {
    if Trim(answer) == "y" {
      TrimmedToLetter(answer, 'y');
    }
    if Trim(answer) == "Y" {
      TrimmedToLetter(answer, 'Y');
    }
    if PaddedLetter(answer, 'y') {
      LetterTrimsTo(answer, 'y');
    }
    if PaddedLetter(answer, 'Y') {
      LetterTrimsTo(answer, 'Y');
    }
  }

  /**
   * What `confirm_removal` decides: the scan stops at the first tip whose
   * decimal id is the argument text, and the answer then decides.
   */
  function ConfirmDecision(tips: seq<Tip>, id: string, answer: string, dataDir: string): (d: Decision)
    ensures d.Confirmed? || d.Declined? ==>
              ScanFrom(tips, ByText(id), 0).Success? && ScanFrom(tips, ByText(id), 0).value.Some?
    ensures d.Confirmed? <==> ScanFrom(tips, ByText(id), 0).Success? && ScanFrom(tips, ByText(id), 0).value.Some? && Accepted(answer)
    ensures d.Confirmed? ==>
              var i := d.target.index;
              i < |tips| && tips[i].metadata.id.Some? && Decimal(tips[i].metadata.id.value) == id
              && d.target.data == DataPath(dataDir, tips[i].data)
              && forall j :: 0 <= j < i ==> tips[j].metadata.id.Some? && Decimal(tips[j].metadata.id.value) != id
    ensures d.Confirmed? ==> ScanFrom(tips, ByText(id), 0) == Success(Some(d.target.index))
    ensures d.Declined? <==> ScanFrom(tips, ByText(id), 0).Success? && ScanFrom(tips, ByText(id), 0).value.Some? && !Accepted(answer)
    ensures d.NoMatch? <==> ScanFrom(tips, ByText(id), 0) == Success(None)
    ensures d.Crashed? <==> ScanFrom(tips, ByText(id), 0).Failure?
    ensures d.Crashed? ==> d.fault == IdMissing
  {
    match ScanFrom(tips, ByText(id), 0)
    case Failure(f) => Crashed(f)
    case Success(None) => NoMatch
    case Success(Some(i)) =>
      if Accepted(answer) then Confirmed(RemoveTip(i, DataPath(dataDir, tips[i].data))) else Declined
  }

  /**
   * `confirm_removal`: the enumerate loop, returning at the first tip whose
   * decimal id is the argument; `answer` is the line typed at the prompt.
   */
  method ConfirmRemoval(tips: Tips, id: string, answer: string, dataDir: string) returns (d: Decision)
    ensures d == ConfirmDecision(tips.tips, id, answer, dataDir)
  {
    var idx := 0;
    while idx < |tips.tips|
      invariant 0 <= idx <= |tips.tips|
      invariant ScanFrom(tips.tips, ByText(id), 0) == ScanFrom(tips.tips, ByText(id), idx)
    {
      var tip := tips.tips[idx];
      if tip.metadata.id.None? {
        return Crashed(IdMissing);
      }
      if Decimal(tip.metadata.id.value) == id {
        var trimmed := Trim(answer);
        if trimmed == "y" || trimmed == "Y" {
          return Confirmed(RemoveTip(idx, DataPath(dataDir, tip.data)));
        }
        return Declined;
      }
      idx := idx + 1;
    }
    return NoMatch;
  }

  /** Everything `remove` does, from the disk it starts on. */
  function RemoveEffect(db: seq<Tip>, files: map<string, string>, cfg: Config, id: string, answer: string): (r: Effect)
    ensures r.exit.Completed? ==> |r.db| + 1 == |db| && |r.files| + 1 == |files|
    ensures !r.exit.Completed? ==> r.db == db && r.files == files
    ensures r.exit.Exited? ==> r.exit.code == 1
  {
    match ConfirmDecision(db, id, answer, cfg.dataDir)
    case Crashed(f) => Effect(Panicked(f), db, files)
    case Declined => Effect(Exited(1, DECLINED_MESSAGE), db, files)
    case NoMatch => Effect(Exited(1, NoMatchMessage(id)), db, files)
    case Confirmed(target) =>
      if target.data !in files then Effect(Panicked(MissingFile(target.data)), db, files)
      else Effect(Completed, db[..target.index] + db[target.index + 1..], files - {target.data})
  }

  /**
   * `remove`: load the database, decide, then delete the content file,
   * remove the tip from the vector and store the database.
   */
  method Remove(disk: Disk, cfg: Config, id: string, answer: string) returns (exit: Exit)
    modifies disk
    ensures Effect(exit, disk.db, disk.files) == RemoveEffect(old(disk.db), old(disk.files), cfg, id, answer)
  {
    var tips := Load(disk);
    var decision := ConfirmRemoval(tips, id, answer, cfg.dataDir);
    match decision
    case Crashed(f) =>
      return Panicked(f);
    case Declined =>
      return Exited(1, DECLINED_MESSAGE);
    case NoMatch =>
      return Exited(1, NoMatchMessage(id));
    case Confirmed(target) =>
      var removed := disk.Remove(target.data);
      if removed.Failure? {
        return Panicked(removed.error);
      }
      tips.RemoveAt(target.index);
      tips.Store(disk);
      return Completed;
  }

  // ---------------------------------------------------------------- properties

  /**
   * Only a completed removal changes anything; declining, or naming an id no
   * tip has, exits with status 1 and leaves database and files as they were.
   */
  lemma OnlyConfirmedRemovalChanges(db: seq<Tip>, files: map<string, string>, cfg: Config, id: string, answer: string)
    ensures var e := RemoveEffect(db, files, cfg, id, answer);
            e.exit != Completed ==> e.db == db && e.files == files
    ensures var e := RemoveEffect(db, files, cfg, id, answer);
            e.exit == Exited(1, DECLINED_MESSAGE) <==>
              ScanFrom(db, ByText(id), 0).Success? && ScanFrom(db, ByText(id), 0).value.Some? && !Accepted(answer)
    ensures var e := RemoveEffect(db, files, cfg, id, answer);
            e.exit == Exited(1, NoMatchMessage(id)) <==> ScanFrom(db, ByText(id), 0) == Success(None)
  {
    assert NoMatchMessage(id) != DECLINED_MESSAGE by {
      assert NoMatchMessage(id)[0] == 'N' && DECLINED_MESSAGE[0] == 'A';
    }
    var e := RemoveEffect(db, files, cfg, id, answer);
    match ConfirmDecision(db, id, answer, cfg.dataDir)
    case Crashed(f) =>
      assert e == Effect(Panicked(f), db, files);
    case Declined =>
      assert e == Effect(Exited(1, DECLINED_MESSAGE), db, files);
    case NoMatch =>
      assert e == Effect(Exited(1, NoMatchMessage(id)), db, files);
    case Confirmed(target) =>
      assert e.exit.Panicked? || e.exit == Completed;
  }

  /**
   * A completed removal deletes the content file of the first tip whose
   * decimal id is the argument and drops that one tip: the others keep their
   * order and their ids, nothing is renumbered.
   */
  lemma RemoveCompleted(db: seq<Tip>, files: map<string, string>, cfg: Config, id: string, answer: string)
    requires RemoveEffect(db, files, cfg, id, answer).exit == Completed
    ensures ScanFrom(db, ByText(id), 0).Success? && ScanFrom(db, ByText(id), 0).value.Some?
    ensures var e := RemoveEffect(db, files, cfg, id, answer);
            var i := ScanFrom(db, ByText(id), 0).value.value;
            && Accepted(answer)
            && i < |db| && Decimal(db[i].metadata.id.value) == id
            && e.files == files - {DataPath(cfg.dataDir, db[i].data)}
            && e.db == db[..i] + db[i + 1..]
            && |e.db| == |db| - 1
            && (forall j :: 0 <= j < i ==> e.db[j] == db[j])
            && (forall j :: i <= j < |e.db| ==> e.db[j] == db[j + 1])
  {
    var d := ConfirmDecision(db, id, answer, cfg.dataDir);
    ConfirmedWhenCompleted(db, files, cfg, id, answer);
    var i := d.target.index;
    assert ScanFrom(db, ByText(id), 0).value.value == i;
    assert d.target.data == DataPath(cfg.dataDir, db[i].data);
    DropAt(db, i);
  }

  /** A completed removal is a confirmed decision whose content file exists. */
  lemma ConfirmedWhenCompleted(db: seq<Tip>, files: map<string, string>, cfg: Config, id: string, answer: string)
    requires RemoveEffect(db, files, cfg, id, answer).exit == Completed
    ensures var d := ConfirmDecision(db, id, answer, cfg.dataDir);
            && d.Confirmed? && d.target.data in files
            && RemoveEffect(db, files, cfg, id, answer)
               == Effect(Completed, db[..d.target.index] + db[d.target.index + 1..], files - {d.target.data})
  {
  }

  /** Dropping the element at `i` shifts the later ones down by one. */
  lemma DropAt(s: seq<Tip>, i: nat)
    requires i < |s|
    ensures var rest := s[..i] + s[i + 1..];
            && |rest| == |s| - 1
            && (forall j :: 0 <= j < i ==> rest[j] == s[j])
            && (forall j :: i <= j < |rest| ==> rest[j] == s[j + 1])
  {
  }

  /** Removal keeps the id invariant. */
  lemma RemoveKeepsIdsIncreasing(db: seq<Tip>, files: map<string, string>, cfg: Config, id: string, answer: string)
    requires IdsIncreasing(db)
    ensures IdsIncreasing(RemoveEffect(db, files, cfg, id, answer).db)
  {
    var e := RemoveEffect(db, files, cfg, id, answer);
    if e.exit == Completed {
      RemoveCompleted(db, files, cfg, id, answer);
      RemoveKeepsIncreasing(db, ScanFrom(db, ByText(id), 0).value.value);
    }
  }

  /**
   * An argument with a leading zero, or with a sign, is never the decimal
   * form of an id, so it never selects a tip, although `update` reads the
   * same text as a number.
   */
  lemma PaddedIdNeverMatches(id: string)
    requires (|id| > 1 && id[0] == '0') || (|id| > 0 && id[0] == '+')
    ensures forall n: nat :: !KeyMatches(ByText(id), n)
  {
    forall n: nat
      ensures Decimal(n) != id
    {
      if id[0] == '+' {
        assert !IsDigit(id[0]);
      } else if Decimal(n)[0] == '0' {
        assert Decimal(n) == "0";
      }
    }
  }

  /** `07`: `update` finds tip 7, `remove` finds nothing. */
  lemma ZeroPaddedId(db: seq<Tip>, files: map<string, string>, cfg: Config, answer: string)
    ensures ParseUsize("07") == Some(7)
    ensures RemoveEffect(db, files, cfg, "07", answer).db == db
  {
    assert DigitsValue("0") == 0;
    assert DigitsValue("07") == 7;
    ParseUsizeAccepts("07", false);
    PaddedIdNeverMatches("07");
    NeverMatchedScan(db, ByText("07"), 0);
  }

  /** A key no id matches never stops the scan at a tip. */
  lemma {:induction false} NeverMatchedScan(tips: seq<Tip>, key: Key, i: nat)
    requires i <= |tips|
    requires forall n: nat :: !KeyMatches(key, n)
    ensures ScanFrom(tips, key, i).Failure? || ScanFrom(tips, key, i) == Success(None)
    decreases |tips| - i
  {
    if i < |tips| && tips[i].metadata.id.Some? {
      NeverMatchedScan(tips, key, i + 1);
    }
  }
}
