/** The decision logic of the Technion adapter: renaming of the caller's subject names,
    the core-subject rows with their 4-unit English/Mathematics gate, the electives
    that are left over, the trailing number of the result heading, the threshold
    table scan, and the way `run` turns all of it into the response. The calculator
    page and the threshold table are inputs. */
module Technion {
  import opened Wrappers
  import opened Text
  import opened PyData
  import opened Admissions

  const ResultsUrl := "https://admissions.technion.ac.il/sechem-for-admission/sekem/"
  const CannotComputeMessage := "לא ניתן לחשב את הסכם שלך"
  const FormErrorMessage := "שגיאה בחישוב הסכם - אירעה בעיה בטעינת הטופס"
  const CheckErrorPrefix := "שגיאה בבדיקת הקבלה: "
  /** The elective dropdown entry used when a subject has no entry of its own. */
  const OtherSubjectOption := "מקצוע אחר שאינו ברשימה"

  /** The unit-shortfall message for English or Mathematics. */
  function ShortfallMessage(subject: string): string {
    "דחייה בגלל מספר יחידות לא מספק ב" + subject + ". בטכניון נדרש מינימום 4 יחידות."
  }

  /** The "degree does not exist at the Technion" message. */
  function NotExistMessage(requested: string): string {
    "תואר " + requested + " לא קיים בטכניון"
  }

  // ---------------------------------------------------------------------------
  // Name tables

  /** Request degree names to the names in the threshold table; `None` marks a degree
      the Technion does not offer. */
  const DegreeAlternativeNames: map<string, Option<string>> := map[
    "הנדסה אזרחית" := Some("הנדסה אזרחית"),
    "הנדסה ביוטכנולוגית" := Some("הנדסה ביוטכנולוגית ומזון"),
    "הנדסה ביורפואית" := Some("הנדסה ביו-רפואית"),
    "הנדסה תעשייה וניהול" := Some("הנדסת תעשיה וניהול"),
    "חינוך והוראה" := None,
    "מנהל עסקים" := None,
    "משפטים" := None,
    "עבודה סוציאלית" := None,
    "רפואה" := Some("מדעי הרפואה-מגמת רפואה")
  ]

  /** Caller subject names to the calculator's names. Two pairs of caller names share
      a calculator name. */
  const SubjectNames: map<string, string> := map[
    "עברית: הבנה, הבעה ולשון" := "עברית (הבעה)",
    "היסטוריה" := "היסטוריה / תולדות עם ישראל",
    "ספרות" := "ספרות עברית",
    "אזרחות" := "אזרחות",
    "תנ\"ך" := "תנ\"ך",
    "ביולוגיה" := "ביולוגיה",
    "כימיה" := "כימיה",
    "פיזיקה" := "פיזיקה",
    "מדעי המחשב" := "מדעי המחשב",
    "היסטוריה של עם ישראל" := "היסטוריה / תולדות עם ישראל",
    "גיאוגרפיה" := "גיאוגרפיה",
    "סוציולוגיה" := "סוציולוגיה",
    "פסיכולוגיה" := "פסיכולוגיה",
    "מדעי החברה" := "מדעי החברה",
    "ערבית (ליהודים)" := "ערבית",
    "צרפתית" := "צרפתית",
    "רוסית" := "רוסית",
    "אמנות חזותית" := "אמנות",
    "מוזיקה" := "מוזיקה",
    "תיאטרון" := "תיאטרון",
    "קולנוע" := "קולנוע",
    "מחול" := "מחול",
    "חינוך גופני" := "חינוך גופני",
    "מחשבת ישראל" := "מחשבת ישראל",
    "תושב\"ע" := "תלמוד / תושב\"ע",
    "תלמוד" := "תלמוד / תושב\"ע"
  ]

  /** A caller subject's calculator name: the table's entry, or the name itself. */
  function TechnionSubject(s: string): (r: string)
    ensures s in SubjectNames ==> r == SubjectNames[s]
    ensures s !in SubjectNames ==> r == s
  {
    if s in SubjectNames then SubjectNames[s] else s
  }

  // ---------------------------------------------------------------------------
  // Building `hs_dict`

  /** `hs_dict` after the entries of `d` were written in order under their calculator
      names. */
  function MappedScores(d: Dict<Grade>): Dict<Grade>
    decreases |d|
  {
    if d == [] then [] else Put(MappedScores(d[..|d| - 1]), TechnionSubject(d[|d| - 1].0), d[|d| - 1].1)
  }

  /** The value of the last entry of `d` whose calculator name is `x`. */
  function LastMappedTo(d: Dict<Grade>, x: string): Option<Grade>
    decreases |d|
  {
    if d == [] then None
    else if TechnionSubject(d[|d| - 1].0) == x then Some(d[|d| - 1].1)
    else LastMappedTo(d[..|d| - 1], x)
  }

  method BuildHsDict(original: Dict<Grade>) returns (hs: Dict<Grade>)
    ensures hs == MappedScores(original)
  {
    hs := [];
    for i := 0 to |original|
      invariant hs == MappedScores(original[..i])
    {
      assert original[..i + 1][..i] == original[..i];
      var (subject, values) := original[i];
      hs := Put(hs, TechnionSubject(subject), values);
    }
    assert original[..|original|] == original;
  }

  /** Under each calculator name, `hs_dict` holds the value of the last caller entry
      renamed to it; the names are distinct. */
  lemma {:induction false} MappedScoresGet(d: Dict<Grade>, x: string)
    ensures Get(MappedScores(d), x) == LastMappedTo(d, x)
    ensures DistinctKeys(MappedScores(d))
    decreases |d|
  {
    if d != [] {
      MappedScoresGet(d[..|d| - 1], x);
      GetPut(MappedScores(d[..|d| - 1]), TechnionSubject(d[|d| - 1].0), d[|d| - 1].1, x);
      DistinctPut(MappedScores(d[..|d| - 1]), TechnionSubject(d[|d| - 1].0), d[|d| - 1].1);
    }
  }

  /** A name the table does not rename, and that no other caller name is renamed to,
      passes through with its value. */
  lemma PassThrough(d: Dict<Grade>, x: string)
    requires DistinctKeys(d) && x !in SubjectNames
    requires forall i :: 0 <= i < |d| && d[i].0 in SubjectNames ==> SubjectNames[d[i].0] != x
    ensures Get(MappedScores(d), x) == Get(d, x)
  {
    MappedScoresGet(d, x);
    LastMappedToUnique(d, x);
  }

  lemma {:induction false} LastMappedToUnique(d: Dict<Grade>, x: string)
    requires DistinctKeys(d) && x !in SubjectNames
    requires forall i :: 0 <= i < |d| && d[i].0 in SubjectNames ==> SubjectNames[d[i].0] != x
    ensures LastMappedTo(d, x) == Get(d, x)
    decreases |d|
  {
    if d != [] {
      var p := d[..|d| - 1];
      LastMappedToUnique(p, x);
      GetSnoc(p, d[|d| - 1], x);
      assert d == p + [d[|d| - 1]];
      if d[|d| - 1].0 == x {
        GetSomeIffKey(p, x);
      }
    }
  }

  lemma {:induction false} GetSnoc<V>(p: Dict<V>, e: (string, V), x: string)
    ensures Get(p + [e], x) == if Get(p, x).Some? then Get(p, x) else if e.0 == x then Some(e.1) else None
    decreases |p|
  {
    if p != [] {
      assert (p + [e])[1..] == p[1..] + [e];
      GetSnoc(p[1..], e, x);
    }
  }

  /** Two caller names sharing a calculator name: the later entry's value wins. */
  lemma HistoryCollision(g1: Grade, g2: Grade)
    ensures MappedScores([("היסטוריה", g1), ("היסטוריה של עם ישראל", g2)]) == [("היסטוריה / תולדות עם ישראל", g2)]
  {
    var d := [("היסטוריה", g1), ("היסטוריה של עם ישראל", g2)];
    var h := "היסטוריה / תולדות עם ישראל";
    assert TechnionSubject("היסטוריה") == h && TechnionSubject("היסטוריה של עם ישראל") == h;
    assert d[..1] == [("היסטוריה", g1)];
    assert d[..1][..0] == [];
    assert MappedScores(d[..1]) == [(h, g1)];
  }

  // ---------------------------------------------------------------------------
  // The core-subject rows

  /** One row of the core tables as the adapter sees it: its `th` text (`None` when
      the row has none), whether it has at least two `td` cells, whether the first of
      them holds a units dropdown, whether the dropdown offers the requested units,
      and whether the second cell holds a grade input. */
  datatype CoreRow = CoreRow(header: Option<string>, hasCells: bool, hasDropdown: bool,
                             unitsOffered: bool, hasInput: bool)

  /** How the core rows end: filled, with the subjects left for the electives; a unit
      shortfall in English or Mathematics; or a row that called `self.exit`. After
      `exit` the browser session is gone: every later row raises and is skipped, and
      the elective section raises in turn, so nothing a later row holds matters. */
  datatype CoreResult = Filled(remaining: Dict<Grade>) | UnitShortfall(subject: string) | SessionClosed

  predicate IsGated(subject: string) {
    subject == "אנגלית" || subject == "מתמטיקה"
  }

  /** The row has all of its cells, its dropdown and its input. */
  predicate Intact(row: CoreRow) {
    row.hasCells && row.hasDropdown && row.hasInput
  }

  /** The row names `subject` and reaches the units dropdown. */
  predicate Reaches(row: CoreRow, subject: string) {
    row.header.Some? && Strip(row.header.value) == subject && row.hasCells && row.hasDropdown
  }

  /** The row fails the 4-unit gate for a subject with value `g`. */
  predicate GateFails(row: CoreRow, subject: string, g: Grade) {
    Reaches(row, subject) && IsGated(subject) && PyInt(g.units).Some? && PyInt(g.units).value < 4
  }

  /** The row passes the gate (or has none) for a subject with value `g`. */
  predicate GatePasses(subject: string, g: Grade) {
    IsGated(subject) ==> PyInt(g.units).Some? && PyInt(g.units).value >= 4
  }

  /** The row is filled for a subject with value `g` (and the subject deleted). */
  predicate Fills(row: CoreRow, subject: string, g: Grade) {
    Reaches(row, subject) && row.unitsOffered && row.hasInput && GatePasses(subject, g)
  }

  /** The row calls `self.exit` for a subject with value `g`: fewer than two cells, no
      dropdown, or no input once the units were chosen. */
  predicate Exits(row: CoreRow, subject: string, g: Grade) {
    row.header.Some? && Strip(row.header.value) == subject
    && (!row.hasCells || !row.hasDropdown || (row.unitsOffered && !row.hasInput && GatePasses(subject, g)))
  }

  /** One row for the subjects `hs` still holds. An exception inside the row (no
      header, units that are no integer, units the dropdown does not offer) skips it
      and keeps the subject. */
  function CoreStep(hs: Dict<Grade>, row: CoreRow): (r: CoreResult)
    ensures r.UnitShortfall? ==>
      row.header.Some? && r.subject == Strip(row.header.value) && Get(hs, r.subject).Some?
      && GateFails(row, r.subject, Get(hs, r.subject).value)
  {
    if row.header.None? then Filled(hs)
    else
      var name := Strip(row.header.value);
      if Get(hs, name).None? then Filled(hs)
      else if !row.hasCells || !row.hasDropdown then SessionClosed
      else if IsGated(name) && PyInt(Get(hs, name).value.units).None? then Filled(hs)
      else if IsGated(name) && PyInt(Get(hs, name).value.units).value < 4 then UnitShortfall(name)
      else if !row.unitsOffered then Filled(hs)
      else if !row.hasInput then SessionClosed
      else Filled(Remove(hs, name))
  }

  function ConsumeCore(hs: Dict<Grade>, rows: seq<CoreRow>): CoreResult
    decreases |rows|
  {
    if rows == [] then Filled(hs)
    else match CoreStep(hs, rows[0])
      case UnitShortfall(s) => UnitShortfall(s)
      case SessionClosed => SessionClosed
      case Filled(next) => ConsumeCore(next, rows[1..])
  }

  /** The row loop of `get_tech_match_score`. Once a row has called `self.exit` the
      outcome is settled (every later row raises), so the loop stops there. */
  method ConsumeCoreRows(hs0: Dict<Grade>, rows: seq<CoreRow>) returns (r: CoreResult)
    ensures r == ConsumeCore(hs0, rows)
  {
    var hs := hs0;
    for i := 0 to |rows|
      invariant ConsumeCore(hs, rows[i..]) == ConsumeCore(hs0, rows)
    {
      assert rows[i..][1..] == rows[i + 1..];
      var row := rows[i];
      if row.header.None? {
        continue;
      }
      var name := Strip(row.header.value);
      var entry := Get(hs, name);
      if entry.None? {
        continue;
      }
      if !row.hasCells || !row.hasDropdown {
        return SessionClosed;
      }
      if IsGated(name) {
        var units := PyInt(entry.value.units);
        if units.None? {
          continue;
        }
        if units.value < 4 {
          return UnitShortfall(name);
        }
      }
      if !row.unitsOffered {
        continue;
      }
      if !row.hasInput {
        return SessionClosed;
      }
      hs := Remove(hs, name);
    }
    r := Filled(hs);
  }

  /** The row deletes its subject from `hs`. */
  predicate Removes(hs: Dict<Grade>, row: CoreRow) {
    row.header.Some? && Get(hs, Strip(row.header.value)).Some?
    && Fills(row, Strip(row.header.value), Get(hs, Strip(row.header.value)).value)
  }

  /** The row calls `self.exit` for a subject `hs` still holds. */
  predicate ExitsOn(hs: Dict<Grade>, row: CoreRow) {
    row.header.Some? && Get(hs, Strip(row.header.value)).Some?
    && Exits(row, Strip(row.header.value), Get(hs, Strip(row.header.value)).value)
  }

  /** A row either deletes its subject, leaves `hs` as it was, stops on the gate or
      closes the session, and it closes the session exactly when it calls `exit`. */
  lemma CoreStepShape(hs: Dict<Grade>, row: CoreRow)
    ensures CoreStep(hs, row).Filled? && Removes(hs, row) ==> CoreStep(hs, row).remaining == Remove(hs, Strip(row.header.value))
    ensures CoreStep(hs, row).Filled? && !Removes(hs, row) ==> CoreStep(hs, row).remaining == hs
    ensures CoreStep(hs, row).SessionClosed? <==> ExitsOn(hs, row)
  {
  }

  /** The core rows taken in two runs: the second run starts from what the first one
      left, unless the first one already ended. */
  lemma {:induction false} ConsumeCoreAppend(hs: Dict<Grade>, a: seq<CoreRow>, b: seq<CoreRow>)
    ensures ConsumeCore(hs, a + b) ==
      if ConsumeCore(hs, a).Filled? then ConsumeCore(ConsumeCore(hs, a).remaining, b) else ConsumeCore(hs, a)
    decreases |a|
  {
    if a == [] {
      assert a + b == b;
    } else {
      assert (a + b)[0] == a[0] && (a + b)[1..] == a[1..] + b;
      if CoreStep(hs, a[0]).Filled? {
        ConsumeCoreAppend(CoreStep(hs, a[0]).remaining, a[1..], b);
      }
    }
  }

  /** A row that calls `self.exit`, reached while its subject is still present, ends
      the core rows with the session closed, whatever the rows after it hold. */
  lemma ExitEndsRows(hs: Dict<Grade>, rows: seq<CoreRow>, i: nat)
    requires i < |rows| && ConsumeCore(hs, rows[..i]).Filled?
    requires ExitsOn(ConsumeCore(hs, rows[..i]).remaining, rows[i])
    ensures ConsumeCore(hs, rows) == SessionClosed
  {
    assert rows == rows[..i] + rows[i..];
    ConsumeCoreAppend(hs, rows[..i], rows[i..]);
    CoreStepShape(ConsumeCore(hs, rows[..i]).remaining, rows[i]);
  }

  /** A subject left after the core rows kept its value, and a subject disappears
      exactly when some row fills it. */
  lemma {:induction false} ConsumeCoreRemaining(hs: Dict<Grade>, rows: seq<CoreRow>, x: string)
    requires DistinctKeys(hs)
    requires ConsumeCore(hs, rows).Filled?
    ensures DistinctKeys(ConsumeCore(hs, rows).remaining)
    ensures Get(ConsumeCore(hs, rows).remaining, x).Some? ==> Get(ConsumeCore(hs, rows).remaining, x) == Get(hs, x)
    ensures Get(hs, x).Some? ==>
      (Get(ConsumeCore(hs, rows).remaining, x).None? <==> exists i :: 0 <= i < |rows| && Fills(rows[i], x, Get(hs, x).value))
    ensures Get(hs, x).None? ==> Get(ConsumeCore(hs, rows).remaining, x).None?
    decreases |rows|
  {
    if rows != [] {
      var row := rows[0];
      var tail := rows[1..];
      assert forall i :: 1 <= i < |rows| ==> rows[i] == tail[i - 1];
      CoreStepShape(hs, row);
      var next := CoreStep(hs, row).remaining;
      if Removes(hs, row) {
        var name := Strip(row.header.value);
        DistinctRemove(hs, name);
        GetRemove(hs, name, x);
        ConsumeCoreRemaining(next, tail, x);
        if x == name {
          assert Fills(rows[0], x, Get(hs, x).value);
        }
      } else {
        ConsumeCoreRemaining(hs, tail, x);
        if Get(hs, x).Some? {
          assert !Fills(rows[0], x, Get(hs, x).value);
        }
      }
    }
  }

  /** When some row fails the gate for a subject of `hs` and every row before it is
      complete, the core rows end in a unit shortfall (this one or an earlier one). */
  lemma {:induction false} ShortfallWins(hs: Dict<Grade>, rows: seq<CoreRow>, i: nat, x: string)
    requires DistinctKeys(hs) && i < |rows| && Get(hs, x).Some? && GateFails(rows[i], x, Get(hs, x).value)
    requires forall j :: 0 <= j < i ==> Intact(rows[j])
    ensures ConsumeCore(hs, rows).UnitShortfall?
    decreases |rows|
  {
    var row := rows[0];
    if i > 0 && CoreStep(hs, row).Filled? {
      var next := CoreStep(hs, row).remaining;
      if next != hs {
        var name := Strip(row.header.value);
        assert name != x;
        DistinctRemove(hs, name);
        GetRemove(hs, name, x);
      }
      assert rows[1..][i - 1] == rows[i];
      assert forall j :: 0 <= j < i - 1 ==> rows[1..][j] == rows[j + 1];
      ShortfallWins(next, rows[1..], i - 1, x);
    }
  }

  lemma {:induction false} ShortfallShape(hs: Dict<Grade>, rows: seq<CoreRow>)
    requires DistinctKeys(hs) && ConsumeCore(hs, rows).UnitShortfall?
    ensures IsGated(ConsumeCore(hs, rows).subject)
    ensures exists i :: 0 <= i < |rows| && Reaches(rows[i], ConsumeCore(hs, rows).subject)
    decreases |rows|
  {
    if CoreStep(hs, rows[0]).Filled? {
      var next := CoreStep(hs, rows[0]).remaining;
      if next != hs {
        DistinctRemove(hs, Strip(rows[0].header.value));
      }
      ShortfallShape(next, rows[1..]);
      var j :| 0 <= j < |rows[1..]| && Reaches(rows[1..][j], ConsumeCore(hs, rows).subject);
      assert rows[j + 1] == rows[1..][j];
    } else {
      assert Reaches(rows[0], ConsumeCore(hs, rows).subject);
    }
  }

  // ---------------------------------------------------------------------------
  // The electives

  /** An elective row filled at form index `index` with the dropdown entry `option`. */
  datatype Elective = Elective(index: nat, subject: string, option: string, grade: Grade)

  /** The entry an elective is typed as, when the dropdown offers one. */
  function ElectiveOption(subject: string, offered: set<string>): Option<string> {
    if subject in offered then Some(subject)
    else if OtherSubjectOption in offered then Some(OtherSubjectOption)
    else None
  }

  /** The electives filled from the left-over subjects, starting at form index `idx`;
      a subject with no entry of its own and no "other" entry is skipped. */
  function Electives(rest: Dict<Grade>, offered: set<string>, idx: nat): (r: seq<Elective>)
    ensures |r| <= |rest|
    ensures forall j :: 0 <= j < |r| ==> r[j].option in offered
    decreases |rest|
  {
    if rest == [] then []
    else match ElectiveOption(rest[0].0, offered)
      case None => Electives(rest[1..], offered, idx)
      case Some(option) => [Elective(idx, rest[0].0, option, rest[0].1)] + Electives(rest[1..], offered, idx + 1)
  }

  method FillElectives(rest: Dict<Grade>, offered: set<string>) returns (filled: seq<Elective>)
    ensures filled == Electives(rest, offered, 1)
  {
    filled := [];
    var idx := 1;
    for i := 0 to |rest|
      invariant idx == |filled| + 1
      invariant filled + Electives(rest[i..], offered, idx) == Electives(rest, offered, 1)
    {
      assert rest[i..][1..] == rest[i + 1..];
      var (subject, values) := rest[i];
      var option := ElectiveOption(subject, offered);
      if option.None? {
        continue;
      }
      filled := filled + [Elective(idx, subject, option.value, values)];
      idx := idx + 1;
    }
  }

  /** The electives take the form indices `idx, idx + 1, ...` in order, one per subject
      for which the dropdown has an entry, each with that subject's grade. */
  lemma {:induction false} ElectivesShape(rest: Dict<Grade>, offered: set<string>, idx: nat)
    ensures forall j :: 0 <= j < |Electives(rest, offered, idx)| ==> Electives(rest, offered, idx)[j].index == idx + j
    ensures forall j :: 0 <= j < |Electives(rest, offered, idx)| ==>
      (Electives(rest, offered, idx)[j].subject, Electives(rest, offered, idx)[j].grade) in rest
    ensures forall j :: 0 <= j < |Electives(rest, offered, idx)| ==>
      Electives(rest, offered, idx)[j].option ==
        if Electives(rest, offered, idx)[j].subject in offered then Electives(rest, offered, idx)[j].subject
        else OtherSubjectOption
    ensures OtherSubjectOption in offered ==> |Electives(rest, offered, idx)| == |rest|
    decreases |rest|
  {
    if rest != [] {
      ElectivesShape(rest[1..], offered, idx + 1);
      ElectivesShape(rest[1..], offered, idx);
    }
  }

  // ---------------------------------------------------------------------------
  // The result heading

  /** The longest suffix of `s` made of digits and dots. */
  function TrailingNumberChars(s: string): (r: string)
    ensures |r| <= |s| && r == s[|s| - |r|..]
    ensures forall i :: 0 <= i < |r| ==> IsNumberChar(r[i])
    ensures |r| < |s| ==> !IsNumberChar(s[|s| - |r| - 1])
    decreases |s|
  {
    if |s| > 0 && IsNumberChar(s[|s| - 1]) then
      var init := s[..|s| - 1];
      var run := TrailingNumberChars(init);
      var r := run + [s[|s| - 1]];
      assert s[|s| - |r|..] == init[|init| - |run|..] + [s[|s| - 1]];
      assert forall i :: 0 <= i < |run| ==> r[i] == run[i];
      assert |r| < |s| ==> s[|s| - |r| - 1] == init[|init| - |run| - 1];
      r
    else []
  }

  /** `re.search(r"([\d.]+)$", text)`: the match is the maximal run of digits and dots
      ending the text, or ending just before its final newline. */
  function TrailingNumber(text: string): (r: Option<string>)
    ensures r.Some? ==> |r.value| > 0 && forall i :: 0 <= i < |r.value| ==> IsNumberChar(r.value[i])
  {
    var body := if |text| > 0 && text[|text| - 1] == '\n' then text[..|text| - 1] else text;
    var run := TrailingNumberChars(body);
    if run == [] then None else Some(run)
  }

  /** What `get_tech_match_score` hands back: the score, or the message that takes its
      place. */
  datatype SumResult = SumResult(sum: Option<real>, error: Option<string>)

  /** The score from the result heading. */
  function ScoreFromHeading(text: string): (r: SumResult)
    ensures TrailingNumber(text).None? ==> r == SumResult(None, Some(CannotComputeMessage))
    ensures r.sum.Some? <==> TrailingNumber(text).Some? && ParseDecimal(TrailingNumber(text).value).Some?
    ensures r.sum.Some? ==> r.error == None && r.sum == ParseDecimal(TrailingNumber(text).value)
    ensures r.sum.None? ==> r.error.Some?
  {
    match TrailingNumber(text)
    case None => SumResult(None, Some(CannotComputeMessage))
    case Some(run) =>
      match ParseDecimal(run)
      case None => SumResult(None, Some(FormErrorMessage))
      case Some(x) => SumResult(Some(x), None)
  }

  lemma HeadingExample()
    ensures ScoreFromHeading("סכם: 92") == SumResult(Some(92.0), None)
  {
    HeadingNumberExample();
    assert AllDigits("92");
    assert DigitsValue("92") == 92 by {
      assert "92"[..1] == "9";
    }
    assert ParseDecimal("92") == Some(92.0);
  }

  lemma HeadingNumberExample()
    ensures TrailingNumber("סכם: 92") == Some("92")
  {
    var t := "סכם: 92";
    assert t[..|t| - 1] == "סכם: 9";
    assert "סכם: 9"[..5] == "סכם: ";
    assert TrailingNumberChars("סכם: ") == [];
    assert TrailingNumberChars("סכם: 9") == "9";
    assert TrailingNumberChars(t) == "92";
  }

  lemma HeadingWithoutNumber()
    ensures ScoreFromHeading("סכם:") == SumResult(None, Some(CannotComputeMessage))
  {
    assert !IsNumberChar("סכם:"[3]);
  }

  // ---------------------------------------------------------------------------
  // The calculator page

  /** The calculator as the adapter sees it, once it loaded: the core rows, the entries
      of the elective dropdowns, and the result heading (`None` when a later step
      raises: an elective's units, the psychometric field, the calculate button, the
      results page). */
  datatype CalculatorPage = CalculatorPage(coreRows: seq<CoreRow>, electiveOptions: set<string>, heading: Option<string>)

  /** `get_tech_match_score` after the request checks. `page` is `None` when the form
      itself fails to load. */
  function MatchScore(scores: Dict<Grade>, page: Option<CalculatorPage>): (r: SumResult)
    ensures r.sum.None? ==> r.error.Some?
    ensures r.sum.Some? ==> r.error.None?
  {
    if page.None? then SumResult(None, Some(FormErrorMessage))
    else match ConsumeCore(MappedScores(scores), page.value.coreRows)
      case UnitShortfall(s) => SumResult(None, Some(ShortfallMessage(s)))
      case SessionClosed => SumResult(None, Some(FormErrorMessage))
      case Filled(_) =>
        if page.value.heading.None? then SumResult(None, Some(FormErrorMessage))
        else ScoreFromHeading(page.value.heading.value)
  }

  /** An English or Mathematics row with fewer than four units ends the calculation
      with the shortfall message. */
  lemma MatchScoreShortfall(scores: Dict<Grade>, page: CalculatorPage, i: nat, x: string)
    requires i < |page.coreRows| && Get(MappedScores(scores), x).Some?
    requires GateFails(page.coreRows[i], x, Get(MappedScores(scores), x).value)
    requires forall j :: 0 <= j < i ==> Intact(page.coreRows[j])
    ensures MatchScore(scores, Some(page)).sum == None
    ensures exists s :: IsGated(s) && MatchScore(scores, Some(page)).error == Some(ShortfallMessage(s))
  {
    MappedScoresGet(scores, x);
    ShortfallWins(MappedScores(scores), page.coreRows, i, x);
    ShortfallShape(MappedScores(scores), page.coreRows);
  }

  /** A row that calls `self.exit` ends the calculation on the form-loading error,
      whatever the later rows and the result heading hold. */
  lemma MatchScoreExit(scores: Dict<Grade>, page: CalculatorPage, i: nat)
    requires i < |page.coreRows| && ConsumeCore(MappedScores(scores), page.coreRows[..i]).Filled?
    requires ExitsOn(ConsumeCore(MappedScores(scores), page.coreRows[..i]).remaining, page.coreRows[i])
    ensures MatchScore(scores, Some(page)) == SumResult(None, Some(FormErrorMessage))
  {
    ExitEndsRows(MappedScores(scores), page.coreRows, i);
  }

  /** A Mathematics row without its dropdown comes before an English row with too few
      units: the session is already closed, so the answer is the form error and not
      the shortfall. */
  lemma ExitBeforeShortfallExample()
    ensures var scores := [("מתמטיקה", Grade(JInt(90), JStr("5"))), ("אנגלית", Grade(JInt(90), JStr("3")))];
      var rows := [CoreRow(Some("מתמטיקה"), true, false, true, true), CoreRow(Some("אנגלית"), true, true, true, true)];
      MatchScore(scores, Some(CalculatorPage(rows, {}, Some("סכם: 92")))) == SumResult(None, Some(FormErrorMessage))
  {
    var scores := [("מתמטיקה", Grade(JInt(90), JStr("5"))), ("אנגלית", Grade(JInt(90), JStr("3")))];
    var rows := [CoreRow(Some("מתמטיקה"), true, false, true, true), CoreRow(Some("אנגלית"), true, true, true, true)];
    MappedMathEnglish(Grade(JInt(90), JStr("5")), Grade(JInt(90), JStr("3")));
    assert Strip("מתמטיקה") == "מתמטיקה";
    assert rows[..0] == [];
    MatchScoreExit(scores, CalculatorPage(rows, {}, Some("סכם: 92")), 0);
  }

  /** Mathematics and English keep their names in `hs_dict`. */
  lemma MappedMathEnglish(math: Grade, english: Grade)
    ensures MappedScores([("מתמטיקה", math), ("אנגלית", english)]) == [("מתמטיקה", math), ("אנגלית", english)]
  {
    var scores := [("מתמטיקה", math), ("אנגלית", english)];
    assert scores[..1] == [scores[0]] && scores[..1][..0] == [];
    assert TechnionSubject("מתמטיקה") == "מתמטיקה" && TechnionSubject("אנגלית") == "אנגלית";
    assert MappedScores(scores[..1]) == [scores[0]];
    assert Put([scores[0]], "אנגלית", english) == [scores[0]] + Put([], "אנגלית", english);
  }

  // ---------------------------------------------------------------------------
  // The threshold table

  /** One row of the threshold table: the text of its first cell (`None` when it has
      no cells: `IndexError`), and its required sum as a number or the text of the
      exception reading it raised. */
  datatype ThresholdRow = ThresholdRow(firstCell: Option<string>, requiredSum: Outcome<real>)

  /** The table as the adapter sees it: `opens` is the exception text when the
      accordion label is missing, `rows` the rows or the exception text when the panel
      is missing. */
  datatype ThresholdPage = ThresholdPage(opens: Option<string>, rows: Outcome<seq<ThresholdRow>>)

  /** `check_if_accepted`'s pair `(verdict, message)`. */
  datatype Decision = Decision(verdict: Option<Verdict>, message: Option<string>)

  /** Python's type name of a hashable value. */
  function TypeName(j: Json): string {
    match j
    case JNull => "NoneType"
    case JBool(_) => "bool"
    case JInt(_) => "int"
    case JStr(_) => "str"
    case JList(_) => "list"
    case JObj(_) => "dict"
  }

  /** The scan for the first row mentioning `degree`; `Raised` carries the text of an
      exception raised on a row. */
  function Scan(degree: Json, rows: seq<ThresholdRow>, sum: real): Outcome<Option<Verdict>>
    decreases |rows|
  {
    if rows == [] then Done(None)
    else if rows[0].firstCell.None? then Raised("list index out of range")
    else if !degree.JStr? then Raised("'in <string>' requires string as left operand, not " + TypeName(degree))
    else if Contains(rows[0].firstCell.value, degree.s) then
      match rows[0].requiredSum
      case Raised(e) => Raised(e)
      case Done(required) => Done(Some(if required > sum then Reject else Accept))
    else Scan(degree, rows[1..], sum)
  }

  /** The degree to look for, or the decision when there is none. */
  function TableDegree(requested: Json): Outcome<Option<Json>> {
    if !Hashable(requested) then Raised("unhashable type: '" + TypeName(requested) + "'")
    else if requested.JStr? && requested.s in DegreeAlternativeNames then
      match DegreeAlternativeNames[requested.s]
      case None => Done(None)
      case Some(name) => Done(Some(JStr(name)))
    else Done(Some(requested))
  }

  /** `check_if_accepted(calculated_sum, inputJson)` */
  function CheckIfAccepted(sum: Option<real>, fields: map<string, Json>, table: ThresholdPage): (r: Decision)
    ensures r.verdict.Some? <==> r.message.None?
    ensures sum.None? ==> r == Decision(None, Some(CannotComputeMessage))
  {
    if sum.None? then Decision(None, Some(CannotComputeMessage))
    else if table.opens.Some? then Decision(None, Some(CheckErrorPrefix + table.opens.value))
    else if "requested_degree" !in fields then Decision(None, Some(CheckErrorPrefix + "'requested_degree'"))
    else
      var requested := fields["requested_degree"];
      match TableDegree(requested)
      case Raised(e) => Decision(None, Some(CheckErrorPrefix + e))
      case Done(None) => Decision(None, Some(NotExistMessage(ScalarText(requested))))
      case Done(Some(degree)) =>
        if table.rows.Raised? then Decision(None, Some(CheckErrorPrefix + table.rows.error))
        else match Scan(degree, table.rows.value, sum.value)
          case Raised(e) => Decision(None, Some(CheckErrorPrefix + e))
          case Done(None) => Decision(None, Some(NotExistMessage(ScalarText(requested))))
          case Done(Some(v)) => Decision(Some(v), None)
  }

  /** The row scan of `check_if_accepted`, with its `found` flag. */
  method ScanRows(degree: Json, rows: seq<ThresholdRow>, sum: real) returns (r: Outcome<Option<Verdict>>)
    ensures r == Scan(degree, rows, sum)
  {
    var found := false;
    var i := 0;
    while i < |rows|
      invariant 0 <= i <= |rows|
      invariant !found
      invariant Scan(degree, rows[i..], sum) == Scan(degree, rows, sum)
    {
      assert rows[i..][1..] == rows[i + 1..];
      var row := rows[i];
      if row.firstCell.None? {
        return Raised("list index out of range");
      }
      if !degree.JStr? {
        return Raised("'in <string>' requires string as left operand, not " + TypeName(degree));
      }
      if Contains(row.firstCell.value, degree.s) {
        if row.requiredSum.Raised? {
          return Raised(row.requiredSum.error);
        }
        found := true;
        if row.requiredSum.value > sum {
          return Done(Some(Reject));
        } else {
          return Done(Some(Accept));
        }
      }
      i := i + 1;
    }
    if !found {
      r := Done(None);
    }
  }

  /** The first row whose first cell mentions the degree decides: acceptance exactly
      when the computed sum reaches the required one. */
  lemma {:induction false} FirstRowDecides(degree: string, rows: seq<ThresholdRow>, sum: real, i: nat)
    requires i < |rows|
    requires forall j :: 0 <= j < i ==> rows[j].firstCell.Some? && !Contains(rows[j].firstCell.value, degree)
    requires rows[i].firstCell.Some? && Contains(rows[i].firstCell.value, degree) && rows[i].requiredSum.Done?
    ensures Scan(JStr(degree), rows, sum) == Done(Some(if sum >= rows[i].requiredSum.value then Accept else Reject))
    decreases i
  {
    if i > 0 {
      assert forall j :: 0 <= j < i - 1 ==> rows[1..][j] == rows[j + 1];
      FirstRowDecides(degree, rows[1..], sum, i - 1);
    }
  }

  /** A scan over rows none of which mentions the degree reports it missing. */
  lemma {:induction false} NoRowMissing(degree: string, rows: seq<ThresholdRow>, sum: real)
    requires forall j :: 0 <= j < |rows| ==> rows[j].firstCell.Some? && !Contains(rows[j].firstCell.value, degree)
    ensures Scan(JStr(degree), rows, sum) == Done(None)
    decreases |rows|
  {
    if rows != [] {
      NoRowMissing(degree, rows[1..], sum);
    }
  }

  /** A degree the table marks `None` is reported missing whatever the threshold table
      holds; other degrees are looked up under their table name, or verbatim. */
  lemma DegreeNames(fields: map<string, Json>, sum: real, table: ThresholdPage)
    requires table.opens.None? && "requested_degree" in fields && fields["requested_degree"].JStr?
    ensures var d := fields["requested_degree"].s;
      d in DegreeAlternativeNames && DegreeAlternativeNames[d].None? ==>
        CheckIfAccepted(Some(sum), fields, table) == Decision(None, Some(NotExistMessage(d)))
    ensures var d := fields["requested_degree"].s;
      d !in DegreeAlternativeNames && table.rows.Done? && Scan(JStr(d), table.rows.value, sum) == Done(None) ==>
        CheckIfAccepted(Some(sum), fields, table) == Decision(None, Some(NotExistMessage(d)))
  {
  }

  /** 92 against a required 91 is accepted; 90 against 91 is rejected. */
  lemma CutoffExample()
    ensures Scan(JStr("רפואה"), [ThresholdRow(Some("רפואה"), Done(91.0))], 92.0) == Done(Some(Accept))
    ensures Scan(JStr("רפואה"), [ThresholdRow(Some("רפואה"), Done(91.0))], 90.0) == Done(Some(Reject))
  {
    FirstRowDecides("רפואה", [ThresholdRow(Some("רפואה"), Done(91.0))], 92.0, 0);
    FirstRowDecides("רפואה", [ThresholdRow(Some("רפואה"), Done(91.0))], 90.0, 0);
  }

  // ---------------------------------------------------------------------------
  // The whole response

  /** The request with `requested_degree` taken from `degree` when only that is given. */
  function WithRequestedDegree(fields: map<string, Json>): (r: map<string, Json>)
    ensures "requested_degree" in fields ==> r == fields
    ensures "requested_degree" !in fields && "degree" in fields ==> r == fields["requested_degree" := fields["degree"]]
    ensures "requested_degree" !in fields && "degree" !in fields ==> r == fields
  {
    if "requested_degree" !in fields && "degree" in fields then fields["requested_degree" := fields["degree"]] else fields
  }

  /** `run(data)`: `scores` is `highschool_scores` (`None` when absent), `page` the
      calculator (`None` when it does not load) and `table` the threshold table. */
  function Run(fields: map<string, Json>, scores: Option<Dict<Grade>>, page: Option<CalculatorPage>,
               table: ThresholdPage): (r: Outcome<Admission>)
    ensures r.Raised? <==> "psycho_score" !in fields || scores.None?
    ensures r.Done? ==> r.value.url == ResultsUrl
    ensures r.Done? && MatchScore(scores.value, page).error.Some? ==>
      r.value == Admission(None, ResultsUrl, MatchScore(scores.value, page).error)
  {
    if "psycho_score" !in fields || scores.None? then Raised("KeyError")
    else
      var score := MatchScore(scores.value, page);
      if score.error.Some? then Done(Admission(None, ResultsUrl, score.error))
      else
        var decision := CheckIfAccepted(score.sum, WithRequestedDegree(fields), table);
        Done(Admission(decision.verdict, ResultsUrl, decision.message))
  }

  /** A verdict is only ever given by the threshold table: every other path, the unit
      shortfall included, answers `null`. */
  lemma RunVerdictFromTable(fields: map<string, Json>, scores: Option<Dict<Grade>>, page: Option<CalculatorPage>,
                            table: ThresholdPage)
    requires Run(fields, scores, page, table).Done? && Run(fields, scores, page, table).value.isAccepted.Some?
    ensures MatchScore(scores.value, page).sum.Some?
    ensures var fs := WithRequestedDegree(fields);
      "requested_degree" in fs && table.opens.None? && table.rows.Done?
      && TableDegree(fs["requested_degree"]).Done? && TableDegree(fs["requested_degree"]).value.Some?
      && Scan(TableDegree(fs["requested_degree"]).value.value, table.rows.value, MatchScore(scores.value, page).sum.value)
         == Done(Run(fields, scores, page, table).value.isAccepted)
  {
    CheckVerdictFromTable(MatchScore(scores.value, page).sum, WithRequestedDegree(fields), table);
  }

  /** `check_if_accepted` gives a verdict only as the result of the row scan. */
  lemma CheckVerdictFromTable(sum: Option<real>, fields: map<string, Json>, table: ThresholdPage)
    requires CheckIfAccepted(sum, fields, table).verdict.Some?
    ensures sum.Some? && "requested_degree" in fields && table.opens.None? && table.rows.Done?
    ensures TableDegree(fields["requested_degree"]).Done? && TableDegree(fields["requested_degree"]).value.Some?
    ensures Scan(TableDegree(fields["requested_degree"]).value.value, table.rows.value, sum.value)
         == Done(CheckIfAccepted(sum, fields, table).verdict)
  {
  }

  /** A request giving only `degree` is judged under that degree. */
  lemma RunUsesDegree(fields: map<string, Json>, scores: Dict<Grade>, page: Option<CalculatorPage>, table: ThresholdPage)
    requires "psycho_score" in fields && "requested_degree" !in fields && "degree" in fields
    ensures Run(fields, Some(scores), page, table) == Run(fields["requested_degree" := fields["degree"]], Some(scores), page, table)
  {
  }
}
