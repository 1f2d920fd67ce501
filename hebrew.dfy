/** The Hebrew University adapter: the matriculation calculator (core rows, the English
    unit gate, extra subjects), the psychometric emphasis transform typed into the
    admission-chances form, the classification of the chances page's verdict, and the
    message the adapter object keeps between requests. */
module Hebrew {
  import opened Wrappers
  import opened Text
  import opened PyData
  import opened Admissions

  const HujiUrl := "https://go.huji.ac.il/?locale=he"
  const English := "אנגלית"
  const EnglishUnitsMessage := "כמות היחידות באנגלית נמוכה מדי. נדרש מינימום של 4 יחידות."
  /** The phrase of the chances page that means rejection. */
  const RejectionPhrase := "לא תתאפשר קבלה"

  function UnknownDegreeMessage(degree: string): string {
    "התואר '" + degree + "' לא קיים במערכת הקבלה של האוניברסיטה העברית. יש לבדוק את המידע באתר האוניברסיטה."
  }

  // ---------------------------------------------------------------------------
  // The static tables

  const CoreSubjects: seq<string> :=
    ["אזרחות", "עברית: הבנה, הבעה ולשון", "אנגלית", "מתמטיקה", "ספרות", "היסטוריה", "תנ\"ך"]

  /** One entry of the degree table: the caller's name, the name searched for on the
      chances site, and the track chosen there. */
  datatype DegreeEntry = DegreeEntry(userInput: string, siteOption1: string, siteOption2: string)

  const DegreesData: seq<DegreeEntry> := [
    DegreeEntry("מדעי המחשב", "מדעי המחשב", "מדעי המחשב, חד-חוגי"),
    DegreeEntry("חינוך והוראה", "חינוך", "חינוך, דו-חוגי"),
    DegreeEntry("מנהל עסקים", "מנהל עסקים", "מנהל עסקים, דו-חוגי"),
    DegreeEntry("סיעוד", "אחיוּת (סיעוד)", "אחיות (סיעוד), חד-חוגי, שלוחת קפלן"),
    DegreeEntry("הנדסת חשמל", "הנדסת חשמל ומדעי המחשב", "הנדסת חשמל ומדעי המחשב, חד-חוגי"),
    DegreeEntry("משפטים", "משפטים", "משפטים, חד-חוגי"),
    DegreeEntry("פסיכולוגיה", "פסיכולוגיה", "פסיכולוגיה, דו-חוגי"),
    DegreeEntry("כלכלה", "כלכלה", "כלכלה, דו-חוגי"),
    DegreeEntry("רפואה", "רפואה", "רפואה, חד-חוגי, לימודים פרה קליניים"),
    DegreeEntry("עבודה סוציאלית", "עבודה סוציאלית", "עבודה סוציאלית, חד-חוגי"),
    DegreeEntry("מתמטיקה", "מתמטיקה", "מתמטיקה, חד-חוגי"),
    DegreeEntry("פיזיקה", "פיסיקה", "פיסיקה, חד-חוגי"),
    DegreeEntry("מדעי המוח וקוגניציה", "מדעי הקוגניציה והמוח", "מדעי הקוגניציה והמוח, דו-חוגי"),
    DegreeEntry("ריפוי בעיסוק", "ריפוי בעיסוק", "ריפוי בעיסוק, חג-חוגי")
  ]

  /** Calculator row titles to the caller's subject names. */
  const SubjectNameMap: map<string, string> := map[
    "תנ\"ך" := "תנ\"ך", "תנך" := "תנ\"ך", "עברית" := "עברית: הבנה, הבעה ולשון",
    "ספרות" := "ספרות", "אנגלית" := "אנגלית", "היסטוריה" := "היסטוריה",
    "אזרחות" := "אזרחות", "מתמטיקה" := "מתמטיקה"
  ]

  /** The caller's names of extra subjects to the names typed into the calculator. */
  const SubjectNameMapping: map<string, string> := map[
    "מערכות מידע" := "מערכות מידע וידע", "עיצוב פנים" := "עיצוב", "עיצוב גרפי" := "עיצוב",
    "תרבות ומורשת האסלאם" := "מורשת ודת האסלאם", "תושב\"ע" := "תושב\"ע",
    "מורשת ודת נוצרית" := "מורשת דת נוצרית", "פיזיקה" := "פיסיקה", "מוזיקה" := "מוסיקה",
    "מערכות בקרה" := "מערכות בקרה ממוחשבות", "הנדסת תוכנה" := "מדעי המחשב",
    "ערבית (ליהודים)" := "ערבית", "גיאוגרפיה" := "גאוגרפיה אדם וסביבה"
  ]

  const NotExistingSubjects: seq<string> := ["חינוך פיננסי", "הנדסת מכונות", "קולנוע", "היסטוריה של עם ישראל"]

  /** `dict.get(k, k)` on a name table. */
  function MapOr(table: map<string, string>, k: string): (r: string)
    ensures k !in table ==> r == k
  {
    if k in table then table[k] else k
  }

  // ---------------------------------------------------------------------------
  // Degree options

  /** The first entry of `table` for `userInput`. */
  function FirstDegree(table: seq<DegreeEntry>, userInput: string): (r: Option<nat>)
    ensures r.Some? ==> r.value < |table| && table[r.value].userInput == userInput
                        && forall j :: 0 <= j < r.value ==> table[j].userInput != userInput
    ensures r.None? <==> forall j :: 0 <= j < |table| ==> table[j].userInput != userInput
    decreases |table|
  {
    if table == [] then None
    else if table[0].userInput == userInput then Some(0)
    else match FirstDegree(table[1..], userInput)
      case None => None
      case Some(j) => Some(j + 1)
  }

  /** The two site names for a degree: those of its first entry, or the name itself
      twice. */
  function DegreeOptions(userInput: string): (string, string) {
    match FirstDegree(DegreesData, userInput)
    case Some(j) => (DegreesData[j].siteOption1, DegreesData[j].siteOption2)
    case None => (userInput, userInput)
  }

  /** `get_site_degree_options`: a linear search with early return. */
  method SiteDegreeOptions(userInput: string) returns (option1: string, option2: string)
    ensures (option1, option2) == DegreeOptions(userInput)
    ensures FirstDegree(DegreesData, userInput).None? ==> option1 == userInput && option2 == userInput
  {
    var table := DegreesData;
    for i := 0 to |table|
      invariant forall j :: 0 <= j < i ==> table[j].userInput != userInput
    {
      if table[i].userInput == userInput {
        FirstDegreeAt(table, userInput, i);
        return table[i].siteOption1, table[i].siteOption2;
      }
    }
    return userInput, userInput;
  }

  /** The first matching position is the one `FirstDegree` finds. */
  lemma {:induction false} FirstDegreeAt(table: seq<DegreeEntry>, userInput: string, i: nat)
    requires i < |table| && table[i].userInput == userInput
    requires forall j :: 0 <= j < i ==> table[j].userInput != userInput
    ensures FirstDegree(table, userInput) == Some(i)
    decreases i
  {
    if i > 0 {
      FirstDegreeAt(table[1..], userInput, i - 1);
    }
  }

  /** `degree in [d["user_input"] for d in DEGREES_DATA]`. */
  predicate KnownDegree(degree: Json) {
    degree.JStr? && exists j :: 0 <= j < |DegreesData| && DegreesData[j].userInput == degree.s
  }

  lemma KnownDegreeOptions(degree: Json)
    requires KnownDegree(degree)
    ensures FirstDegree(DegreesData, degree.s).Some?
  {
  }

  /** Example: nursing is searched for under its site name and track. */
  lemma DegreeOptionsExample()
    ensures DegreeOptions("סיעוד") == ("אחיוּת (סיעוד)", "אחיות (סיעוד), חד-חוגי, שלוחת קפלן")
  {
    assert DegreesData[3].userInput == "סיעוד";
    assert |DegreesData[0].userInput| == 10 && |DegreesData[1].userInput| == 12 && |DegreesData[2].userInput| == 10;
    FirstDegreeAt(DegreesData, "סיעוד", 3);
  }

  // ---------------------------------------------------------------------------
  // The psychometric emphases

  datatype Weights = Weights(verbal: real, quant: real, english: real)

  /** One of the three emphases: its key in the result, and its weights. */
  datatype Emphasis = Emphasis(key: string, weights: Weights)

  const VerbalEmphasis := Emphasis("verbal_emphasis", Weights(0.6, 0.2, 0.2))
  const QuantEmphasis := Emphasis("quant_emphasis", Weights(0.2, 0.6, 0.2))
  const MultiEmphasis := Emphasis("multi_emphasis", Weights(0.4, 0.4, 0.2))
  const Emphases: seq<Emphasis> := [VerbalEmphasis, QuantEmphasis, MultiEmphasis]
  const CorrectionFactor: real := 5.33

  /** Python's `round` on an exact value: to the nearest integer, ties to even. */
  function RoundHalfEven(x: real): (r: int)
    ensures x - 0.5 <= r as real <= x + 0.5
    ensures x - 0.5 < r as real < x + 0.5 || r % 2 == 0
  {
    var f := x.Floor;
    if x - f as real < 0.5 then f
    else if x - f as real > 0.5 then f + 1
    else if f % 2 == 0 then f else f + 1
  }

  /** Rounding keeps integers and order. */
  lemma RoundHalfEvenInt(n: int)
    ensures RoundHalfEven(n as real) == n
  {
  }

  lemma RoundHalfEvenMonotone(x: real, y: real)
    requires x <= y
    ensures RoundHalfEven(x) <= RoundHalfEven(y)
  {
    if x < y {
      var rx, ry := RoundHalfEven(x), RoundHalfEven(y);
      assert rx as real <= x + 0.5 && y - 0.5 <= ry as real;
    }
  }

  /** `max(200, min(800, x))` */
  function Clamp(x: int): (r: int)
    ensures 200 <= r <= 800
    ensures 200 <= x <= 800 ==> r == x
    ensures x < 200 ==> r == 200
    ensures x > 800 ==> r == 800
  {
    if x < 200 then 200 else if x > 800 then 800 else x
  }

  /** What an emphasis adds to the total before rounding: the weighted section score
      against the plain average of the three sections, scaled by the correction
      factor. */
  function Delta(verbal: int, quant: int, english: int, w: Weights): real {
    var score := RoundHalfEven(verbal as real * w.verbal + quant as real * w.quant + english as real * w.english);
    (score as real - (verbal + quant + english) as real / 3.0) * CorrectionFactor
  }

  /** One emphasis score: the total moved by the emphasis's delta, rounded, kept in
      [200, 800]. */
  function EmphasisScore(total: int, verbal: int, quant: int, english: int, w: Weights): (r: int)
    ensures 200 <= r <= 800
  {
    Clamp(RoundHalfEven(total as real + Delta(verbal, quant, english, w)))
  }

  /** With all three sections equal every emphasis is the total itself, kept in
      [200, 800]. */
  lemma EmphasisOfEvenSections(total: int, s: int, e: Emphasis)
    requires e in Emphases
    ensures EmphasisScore(total, s, s, s, e.weights) == Clamp(total)
  {
    var w := e.weights;
    assert s as real * w.verbal + s as real * w.quant + s as real * w.english == s as real;
    RoundHalfEvenInt(s);
    assert Delta(s, s, s, w) == 0.0;
    RoundHalfEvenInt(total);
  }

  /** A higher total never gives a lower emphasis score. */
  lemma EmphasisMonotone(t1: int, t2: int, verbal: int, quant: int, english: int, w: Weights)
    requires t1 <= t2
    ensures EmphasisScore(t1, verbal, quant, english, w) <= EmphasisScore(t2, verbal, quant, english, w)
  {
    var d := Delta(verbal, quant, english, w);
    RoundHalfEvenMonotone(t1 as real + d, t2 as real + d);
  }

  /** `calculate_psychometric_emphases(total, verbal, quantitative, english)`: one
      score per emphasis, keyed by the emphasis. */
  method CalculateEmphases(total: int, verbal: int, quant: int, english: int) returns (results: map<string, int>)
    ensures results.Keys == {"verbal_emphasis", "quant_emphasis", "multi_emphasis"}
    ensures forall k :: k in results ==> 200 <= results[k] <= 800
    ensures forall i :: 0 <= i < |Emphases| ==>
      results[Emphases[i].key] == EmphasisScore(total, verbal, quant, english, Emphases[i].weights)
  {
    results := map[];
    for i := 0 to |Emphases|
      invariant forall k :: k in results ==> k == "verbal_emphasis" || k == "quant_emphasis" || k == "multi_emphasis"
      invariant forall j :: 0 <= j < i ==> Emphases[j].key in results
      invariant forall j :: 0 <= j < i ==>
        results[Emphases[j].key] == EmphasisScore(total, verbal, quant, english, Emphases[j].weights)
    {
      var emphasisScore := EmphasisScore(total, verbal, quant, english, Emphases[i].weights);
      EmphasisKeysDistinct(i);
      results := results[Emphases[i].key := emphasisScore];
    }
    assert Emphases[0].key in results && Emphases[1].key in results && Emphases[2].key in results;
  }

  /** The emphases have distinct keys. */
  lemma EmphasisKeysDistinct(i: nat)
    requires i < |Emphases|
    ensures forall j :: 0 <= j < |Emphases| && j != i ==> Emphases[j].key != Emphases[i].key
  {
  }

  /** Example: total 650 with sections quantitative 120, verbal 130, English 110. */
  lemma EmphasisExample()
    ensures EmphasisScore(650, 130, 120, 110, VerbalEmphasis.weights) == 671
    ensures EmphasisScore(650, 130, 120, 110, QuantEmphasis.weights) == 650
    ensures EmphasisScore(650, 130, 120, 110, MultiEmphasis.weights) == 661
  {
    assert RoundHalfEven(130.0 * 0.6 + 120.0 * 0.2 + 110.0 * 0.2) == 124;
    assert RoundHalfEven(650.0 + Delta(130, 120, 110, VerbalEmphasis.weights)) == 671;
    assert RoundHalfEven(130.0 * 0.2 + 120.0 * 0.6 + 110.0 * 0.2) == 120;
    RoundHalfEvenInt(650);
    assert RoundHalfEven(130.0 * 0.4 + 120.0 * 0.4 + 110.0 * 0.2) == 122;
    assert RoundHalfEven(650.0 + Delta(130, 120, 110, MultiEmphasis.weights)) == 661;
  }

  // ---------------------------------------------------------------------------
  // Filling the psychometric fields

  /** `int(x)` arithmetic operands: a number or a boolean; anything else raises. */
  function PyNumber(j: Json): Option<int> {
    match j
    case JInt(i) => Some(i)
    case JBool(b) => Some(if b then 1 else 0)
    case _ => None
  }

  /** The values typed into the fields, by position: quantitative, verbal, then
      multi-domain emphasis. */
  function EmphasisValues(total: int, verbal: int, quant: int, english: int): (vs: seq<string>) {
    [IntToString(EmphasisScore(total, verbal, quant, english, QuantEmphasis.weights)),
     IntToString(EmphasisScore(total, verbal, quant, english, VerbalEmphasis.weights)),
     IntToString(EmphasisScore(total, verbal, quant, english, MultiEmphasis.weights))]
  }

  /** How many leading fields get a value: at most three, and the filling stops at the
      first field without an input (the exception is caught and printed). */
  function FilledCount(fields: seq<bool>, i: nat): (n: nat)
    requires i <= |fields|
    ensures i <= n <= |fields| && (n == i || n <= 3)
    decreases |fields| - i
  {
    if i >= |fields| || i >= 3 || !fields[i] then i else FilledCount(fields, i + 1)
  }

  /** `fill_psychometric_fields(fields, [total, quant, verbal, english])`: what is typed
      into the fields, in order; nothing when a value is not a number. */
  function PsychometricTyped(fields: seq<bool>, psycho: seq<Json>): (typed: seq<string>)
    requires |psycho| == 4
  {
    var t, q, v, e := PyNumber(psycho[0]), PyNumber(psycho[1]), PyNumber(psycho[2]), PyNumber(psycho[3]);
    if t.None? || q.None? || v.None? || e.None? then []
    else EmphasisValues(t.value, v.value, q.value, e.value)[..FilledCount(fields, 0)]
  }

  /** Each typed field holds the emphasis of its position, at most three are typed,
      and every field with an input up to the third is typed. */
  lemma PsychometricByPosition(fields: seq<bool>, psycho: seq<Json>)
    requires |psycho| == 4
    requires forall k :: 0 <= k < 4 ==> PyNumber(psycho[k]).Some?
    ensures var typed := PsychometricTyped(fields, psycho);
      var vs := EmphasisValues(PyNumber(psycho[0]).value, PyNumber(psycho[2]).value,
                               PyNumber(psycho[1]).value, PyNumber(psycho[3]).value);
      |typed| <= 3 && |typed| <= |fields|
      && (forall i :: 0 <= i < |typed| ==> typed[i] == vs[i])
      && ((forall i :: 0 <= i < |fields| && i < 3 ==> fields[i]) ==> |typed| == if |fields| < 3 then |fields| else 3)
  {
    FilledCountShape(fields, 0);
  }

  lemma {:induction false} FilledCountShape(fields: seq<bool>, i: nat)
    requires i <= |fields|
    ensures var n := FilledCount(fields, i);
      i <= n <= |fields| && (n <= 3 || n == i)
      && (forall j :: i <= j < n ==> fields[j])
      && (n < |fields| && n < 3 ==> !fields[n])
    decreases |fields| - i
  {
    if !(i >= |fields| || i >= 3 || !fields[i]) {
      FilledCountShape(fields, i + 1);
    }
  }

  /** The values `fill_psychometric_fields` reads from the emphasis scores, in field
      order. */
  lemma EmphasisLookup(results: map<string, int>, total: int, verbal: int, quant: int, english: int)
    requires results.Keys == {"verbal_emphasis", "quant_emphasis", "multi_emphasis"}
    requires forall i :: 0 <= i < |Emphases| ==>
      results[Emphases[i].key] == EmphasisScore(total, verbal, quant, english, Emphases[i].weights)
    ensures EmphasisValues(total, verbal, quant, english)
      == [IntToString(results["quant_emphasis"]), IntToString(results["verbal_emphasis"]),
          IntToString(results["multi_emphasis"])]
  {
    assert results[Emphases[0].key] == EmphasisScore(total, verbal, quant, english, Emphases[0].weights);
    assert results[Emphases[1].key] == EmphasisScore(total, verbal, quant, english, Emphases[1].weights);
    assert results[Emphases[2].key] == EmphasisScore(total, verbal, quant, english, Emphases[2].weights);
  }

  /** The filling loop of `fill_psychometric_fields`. */
  method FillPsychometricFields(fields: seq<bool>, psycho: seq<Json>) returns (typed: seq<string>)
    requires |psycho| == 4
    ensures typed == PsychometricTyped(fields, psycho)
  {
    var t, q, v, e := PyNumber(psycho[0]), PyNumber(psycho[1]), PyNumber(psycho[2]), PyNumber(psycho[3]);
    if t.None? || q.None? || v.None? || e.None? {
      return [];
    }
    var emphases := CalculateEmphases(t.value, v.value, q.value, e.value);
    var emphasisValues := [emphases["quant_emphasis"], emphases["verbal_emphasis"], emphases["multi_emphasis"]];
    ghost var vs := EmphasisValues(t.value, v.value, q.value, e.value);
    EmphasisLookup(emphases, t.value, v.value, q.value, e.value);
    typed := TypeValues(fields, emphasisValues);
    assert typed == vs[..FilledCount(fields, 0)];
  }

  /** The loop of `fill_psychometric_fields`: value `i` goes into field `i` while there
      are values left and the field has an input. */
  method TypeValues(fields: seq<bool>, values: seq<int>) returns (typed: seq<string>)
    requires |values| == 3
    ensures |typed| == FilledCount(fields, 0)
    ensures forall k :: 0 <= k < |typed| ==> typed[k] == IntToString(values[k])
  {
    typed := [];
    var i := 0;
    while i < |fields|
      invariant 0 <= i <= |fields| && i <= 3
      invariant FilledCount(fields, i) == FilledCount(fields, 0)
      invariant |typed| == i && forall k :: 0 <= k < i ==> typed[k] == IntToString(values[k])
      decreases |fields| - i
    {
      if i >= |values| {
        break;
      }
      if !fields[i] {
        break;
      }
      typed := typed + [IntToString(values[i])];
      i := i + 1;
    }
    assert FilledCount(fields, i) == i;
  }

  // ---------------------------------------------------------------------------
  // The matriculation calculator

  /** A calculator row: whether it has an input (is a subject row), and the text of its
      title. */
  datatype CalcLine = CalcLine(hasInput: bool, title: string)

  /** Row `line` got the units and grade of `subject`. */
  datatype RowFill = RowFill(line: nat, subject: string, value: Grade)

  /** An added row: the name typed, and the units and grade entered. */
  datatype ExtraRow = ExtraRow(typed: string, value: Grade)

  datatype CalcOutcome = EnglishShortfall | Filled(rows: seq<RowFill>, extras: seq<ExtraRow>)

  /** The caller's subject name for a calculator row title. */
  function RowSubject(title: string): string {
    RowSubjectWith(SubjectNameMap, title)
  }

  /** What the rows from `i` on do: fill the rows whose subject the caller has; stop at
      an English row with fewer than four units (`None`). */
  function CoreRows(scores: Dict<Grade>, lines: seq<CalcLine>, i: nat): Outcome<Option<seq<RowFill>>>
    requires i <= |lines|
  {
    CoreRowsWith(scores, lines, i, SubjectNameMap, English)
  }

  /** Whether some subject row from `i` on is the English row. */
  predicate HasEnglishRow(lines: seq<CalcLine>, i: nat)
    requires i <= |lines|
  {
    HasRowFor(lines, i, SubjectNameMap, English)
  }

  /** Every row of `rows` is a subject row from `i` on, filled with its subject's own
      value, in row order. */
  predicate RowsFaithful(scores: Dict<Grade>, lines: seq<CalcLine>, i: nat, rows: seq<RowFill>) {
    RowsFaithfulWith(scores, lines, i, rows, SubjectNameMap)
  }

  /** The English gate: the calculator pass fails exactly when there is an English row
      and English has non-numeric units, and stops exactly when it has fewer than four. */
  lemma CoreRowsGate(scores: Dict<Grade>, lines: seq<CalcLine>, i: nat)
    requires i <= |lines|
    ensures var eng := HasEnglishRow(lines, i) && Get(scores, English).Some?;
      (CoreRows(scores, lines, i).Raised? <==> eng && PyInt(Get(scores, English).value.units).None?)
      && (CoreRows(scores, lines, i) == Done(None) <==>
            eng && PyInt(Get(scores, English).value.units).Some? && PyInt(Get(scores, English).value.units).value < 4)
  {
    CoreRowsGateWith(scores, lines, i, SubjectNameMap, English);
  }

  /** Otherwise every filled row carries its subject's own value, in row order, and
      every subject row whose subject the caller has is filled. */
  lemma CoreRowsFilled(scores: Dict<Grade>, lines: seq<CalcLine>, i: nat)
    requires i <= |lines|
    ensures CoreRows(scores, lines, i).Done? && CoreRows(scores, lines, i).value.Some? ==>
      RowsFaithful(scores, lines, i, CoreRows(scores, lines, i).value.value)
    ensures CoreRows(scores, lines, i).Done? && CoreRows(scores, lines, i).value.Some? ==>
      RowsComplete(scores, lines, i, CoreRows(scores, lines, i).value.value)
  {
    CoreRowsFilledWith(scores, lines, i, SubjectNameMap, English);
    CoreRowsCompleteWith(scores, lines, i, SubjectNameMap, English);
  }

  /** Every subject row from `i` on whose subject the caller has appears in `rows`. */
  predicate RowsComplete(scores: Dict<Grade>, lines: seq<CalcLine>, i: nat, rows: seq<RowFill>) {
    RowsCompleteWith(scores, lines, i, rows, SubjectNameMap)
  }

  // The calculator rows over a given title table and English subject name.

  function RowSubjectWith(names: map<string, string>, title: string): string {
    MapOr(names, Strip(title))
  }

  function CoreRowsWith(scores: Dict<Grade>, lines: seq<CalcLine>, i: nat, names: map<string, string>, english: string)
    : Outcome<Option<seq<RowFill>>>
    requires i <= |lines|
    decreases |lines| - i
  {
    if i == |lines| then Done(Some([]))
    else
      var subject := RowSubjectWith(names, lines[i].title);
      if !lines[i].hasInput || Get(scores, subject).None? then CoreRowsWith(scores, lines, i + 1, names, english)
      else
        var value := Get(scores, subject).value;
        if subject == english && PyInt(value.units).None? then Raised(IntError(value.units))
        else if subject == english && PyInt(value.units).value < 4 then Done(None)
        else match CoreRowsWith(scores, lines, i + 1, names, english)
          case Done(Some(rest)) => Done(Some([RowFill(i, subject, value)] + rest))
          case other => other
  }

  predicate HasRowFor(lines: seq<CalcLine>, i: nat, names: map<string, string>, subject: string)
    requires i <= |lines|
  {
    exists j :: i <= j < |lines| && lines[j].hasInput && RowSubjectWith(names, lines[j].title) == subject
  }

  predicate RowsFaithfulWith(scores: Dict<Grade>, lines: seq<CalcLine>, i: nat, rows: seq<RowFill>, names: map<string, string>) {
    forall k :: 0 <= k < |rows| ==>
      i <= rows[k].line < |lines| && lines[rows[k].line].hasInput
      && rows[k].subject == RowSubjectWith(names, lines[rows[k].line].title)
      && Get(scores, rows[k].subject) == Some(rows[k].value)
      && (k + 1 < |rows| ==> rows[k].line < rows[k + 1].line)
  }

  lemma {:induction false} CoreRowsGateWith(scores: Dict<Grade>, lines: seq<CalcLine>, i: nat,
                                            names: map<string, string>, english: string)
    requires i <= |lines|
    ensures var eng := HasRowFor(lines, i, names, english) && Get(scores, english).Some?;
      (CoreRowsWith(scores, lines, i, names, english).Raised? <==> eng && PyInt(Get(scores, english).value.units).None?)
      && (CoreRowsWith(scores, lines, i, names, english) == Done(None) <==>
            eng && PyInt(Get(scores, english).value.units).Some? && PyInt(Get(scores, english).value.units).value < 4)
    decreases |lines| - i
  {
    if i < |lines| {
      CoreRowsGateWith(scores, lines, i + 1, names, english);
      var subject := RowSubjectWith(names, lines[i].title);
      if lines[i].hasInput && subject == english {
        assert HasRowFor(lines, i, names, english);
      } else if HasRowFor(lines, i, names, english) {
        var j :| i <= j < |lines| && lines[j].hasInput && RowSubjectWith(names, lines[j].title) == english;
        assert j != i;
        assert HasRowFor(lines, i + 1, names, english);
      }
    }
  }

  lemma {:induction false} CoreRowsFilledWith(scores: Dict<Grade>, lines: seq<CalcLine>, i: nat,
                                              names: map<string, string>, english: string)
    requires i <= |lines|
    ensures var o := CoreRowsWith(scores, lines, i, names, english);
      o.Done? && o.value.Some? ==> RowsFaithfulWith(scores, lines, i, o.value.value, names)
    decreases |lines| - i
  {
    if i < |lines| {
      CoreRowsFilledWith(scores, lines, i + 1, names, english);
      var subject := RowSubjectWith(names, lines[i].title);
      var next := CoreRowsWith(scores, lines, i + 1, names, english);
      var here := CoreRowsWith(scores, lines, i, names, english);
      if !lines[i].hasInput || Get(scores, subject).None? {
        assert here == next;
        if next.Done? && next.value.Some? {
          var rows := next.value.value;
          forall k | 0 <= k < |rows| ensures i <= rows[k].line {
          }
        }
      } else if here.Done? && here.value.Some? {
        var rest := next.value.value;
        var rows := here.value.value;
        assert rows == [RowFill(i, subject, Get(scores, subject).value)] + rest;
        forall k | 0 <= k < |rows|
          ensures i <= rows[k].line < |lines| && lines[rows[k].line].hasInput
          && rows[k].subject == RowSubjectWith(names, lines[rows[k].line].title)
          && Get(scores, rows[k].subject) == Some(rows[k].value)
          && (k + 1 < |rows| ==> rows[k].line < rows[k + 1].line)
        {
          if k > 0 {
            assert rows[k] == rest[k - 1];
          }
          if k + 1 < |rows| {
            assert rows[k + 1] == rest[k];
          }
        }
      }
    }
  }

  predicate RowsCompleteWith(scores: Dict<Grade>, lines: seq<CalcLine>, i: nat, rows: seq<RowFill>, names: map<string, string>) {
    forall j :: i <= j < |lines| && lines[j].hasInput && Get(scores, RowSubjectWith(names, lines[j].title)).Some? ==>
      exists k :: 0 <= k < |rows| && rows[k].line == j
  }

  lemma {:induction false} CoreRowsCompleteWith(scores: Dict<Grade>, lines: seq<CalcLine>, i: nat,
                                                names: map<string, string>, english: string)
    requires i <= |lines|
    ensures var o := CoreRowsWith(scores, lines, i, names, english);
      o.Done? && o.value.Some? ==> RowsCompleteWith(scores, lines, i, o.value.value, names)
    decreases |lines| - i
  {
    if i < |lines| {
      CoreRowsCompleteWith(scores, lines, i + 1, names, english);
      var subject := RowSubjectWith(names, lines[i].title);
      var next := CoreRowsWith(scores, lines, i + 1, names, english);
      var here := CoreRowsWith(scores, lines, i, names, english);
      if !lines[i].hasInput || Get(scores, subject).None? {
        assert here == next;
      } else if here.Done? && here.value.Some? {
        var rest := next.value.value;
        var rows := here.value.value;
        assert rows == [RowFill(i, subject, Get(scores, subject).value)] + rest;
        forall j | i <= j < |lines| && lines[j].hasInput && Get(scores, RowSubjectWith(names, lines[j].title)).Some?
          ensures exists k :: 0 <= k < |rows| && rows[k].line == j
        {
          if j == i {
            assert rows[0].line == j;
          } else {
            var k :| 0 <= k < |rest| && rest[k].line == j;
            assert rows[k + 1] == rest[k];
          }
        }
      }
    }
  }

  /** `rows` put in front of the rows an outcome fills. */
  function Prepend(rows: seq<RowFill>, o: Outcome<Option<seq<RowFill>>>): Outcome<Option<seq<RowFill>>> {
    match o
    case Done(Some(rest)) => Done(Some(rows + rest))
    case other => other
  }

  lemma PrependTwice(a: seq<RowFill>, b: seq<RowFill>, o: Outcome<Option<seq<RowFill>>>)
    ensures Prepend(a, Prepend(b, o)) == Prepend(a + b, o)
  {
    if o.Done? && o.value.Some? {
      assert a + (b + o.value.value) == (a + b) + o.value.value;
    }
  }

  /** The loop over the calculator rows of `secondPageOfCalculator`. */
  method FillCoreRows(scores: Dict<Grade>, lines: seq<CalcLine>) returns (r: Outcome<Option<seq<RowFill>>>)
    ensures r == CoreRows(scores, lines, 0)
  {
    var rows: seq<RowFill> := [];
    assert Prepend([], CoreRows(scores, lines, 0)) == CoreRows(scores, lines, 0) by {
      if CoreRows(scores, lines, 0).Done? && CoreRows(scores, lines, 0).value.Some? {
        assert [] + CoreRows(scores, lines, 0).value.value == CoreRows(scores, lines, 0).value.value;
      }
    }
    for i := 0 to |lines|
      invariant CoreRows(scores, lines, 0) == Prepend(rows, CoreRows(scores, lines, i))
    {
      if !lines[i].hasInput {
        continue;
      }
      var subject := RowSubject(lines[i].title);
      var found := Get(scores, subject);
      if found.None? {
        continue;
      }
      var value := found.value;
      if subject == English {
        var units := PyInt(value.units);
        if units.None? {
          return Raised(IntError(value.units));
        }
        if units.value < 4 {
          return Done(None);
        }
      }
      PrependTwice(rows, [RowFill(i, subject, value)], CoreRows(scores, lines, i + 1));
      rows := rows + [RowFill(i, subject, value)];
    }
    r := Done(Some(rows));
    assert rows + [] == rows;
  }

  /** The extra subjects: every key of the caller's subjects that is neither a core
      subject nor one the calculator lacks, in key order, typed under its calculator
      name. */
  function ExtraRows(scores: Dict<Grade>): (extras: seq<ExtraRow>)
    ensures |extras| <= |scores|
  {
    ExtraRowsWith(scores, CoreSubjects, NotExistingSubjects, SubjectNameMapping)
  }

  /** `ExtraRows` over the given tables. */
  function ExtraRowsWith(scores: Dict<Grade>, core: seq<string>, missing: seq<string>, names: map<string, string>)
    : (extras: seq<ExtraRow>)
    ensures |extras| <= |scores|
    decreases |scores|
  {
    if scores == [] then []
    else
      var k := scores[0].0;
      var rest := ExtraRowsWith(scores[1..], core, missing, names);
      if k !in core && k !in missing then [ExtraRow(MapOr(names, k), scores[0].1)] + rest
      else rest
  }

  /** The entries the extra rows come from, in order. */
  function ExtraKeys(scores: Dict<Grade>): (r: Dict<Grade>)
    ensures forall i :: 0 <= i < |r| ==> r[i] in scores && r[i].0 !in CoreSubjects && r[i].0 !in NotExistingSubjects
  {
    ExtraKeysWith(scores, CoreSubjects, NotExistingSubjects)
  }

  function ExtraKeysWith(scores: Dict<Grade>, core: seq<string>, missing: seq<string>): (r: Dict<Grade>)
    ensures forall i :: 0 <= i < |r| ==> r[i] in scores && r[i].0 !in core && r[i].0 !in missing
    decreases |scores|
  {
    if scores == [] then []
    else if scores[0].0 !in core && scores[0].0 !in missing then [scores[0]] + ExtraKeysWith(scores[1..], core, missing)
    else ExtraKeysWith(scores[1..], core, missing)
  }

  /** Exactly one extra row per such entry, in order, with that entry's value, and
      every such entry has one. */
  lemma ExtraRowsShape(scores: Dict<Grade>)
    ensures |ExtraRows(scores)| == |ExtraKeys(scores)|
    ensures forall i :: 0 <= i < |ExtraRows(scores)| ==>
      ExtraRows(scores)[i] == ExtraRow(MapOr(SubjectNameMapping, ExtraKeys(scores)[i].0), ExtraKeys(scores)[i].1)
    ensures forall k, v :: (k, v) in scores && k !in CoreSubjects && k !in NotExistingSubjects ==> (k, v) in ExtraKeys(scores)
  {
    ExtraRowsWithShape(scores, CoreSubjects, NotExistingSubjects, SubjectNameMapping);
    ExtraKeysWithComplete(scores, CoreSubjects, NotExistingSubjects);
  }

  lemma {:induction false} ExtraRowsWithShape(scores: Dict<Grade>, core: seq<string>, missing: seq<string>,
                                               names: map<string, string>)
    ensures |ExtraRowsWith(scores, core, missing, names)| == |ExtraKeysWith(scores, core, missing)|
    ensures forall i :: 0 <= i < |ExtraRowsWith(scores, core, missing, names)| ==>
      ExtraRowsWith(scores, core, missing, names)[i]
      == ExtraRow(MapOr(names, ExtraKeysWith(scores, core, missing)[i].0), ExtraKeysWith(scores, core, missing)[i].1)
    decreases |scores|
  {
    if scores != [] {
      ExtraRowsWithShape(scores[1..], core, missing, names);
      var rows, keys := ExtraRowsWith(scores, core, missing, names), ExtraKeysWith(scores, core, missing);
      var rows', keys' := ExtraRowsWith(scores[1..], core, missing, names), ExtraKeysWith(scores[1..], core, missing);
      if scores[0].0 !in core && scores[0].0 !in missing {
        assert rows == [ExtraRow(MapOr(names, scores[0].0), scores[0].1)] + rows';
        assert keys == [scores[0]] + keys';
        forall i | 0 < i < |rows| ensures rows[i] == rows'[i - 1] && keys[i] == keys'[i - 1] {
        }
      }
    }
  }

  lemma {:induction false} ExtraKeysWithComplete(scores: Dict<Grade>, core: seq<string>, missing: seq<string>)
    ensures forall k, v :: (k, v) in scores && k !in core && k !in missing ==> (k, v) in ExtraKeysWith(scores, core, missing)
    decreases |scores|
  {
    if scores != [] {
      ExtraKeysWithComplete(scores[1..], core, missing);
      forall k, v | (k, v) in scores && k !in core && k !in missing
        ensures (k, v) in ExtraKeysWith(scores, core, missing)
      {
        if (k, v) != scores[0] {
          assert (k, v) in scores[1..];
        }
      }
    }
  }

  /** The loop adding the extra subjects. */
  method AddExtraSubjects(scores: Dict<Grade>) returns (extras: seq<ExtraRow>)
    ensures extras == ExtraRows(scores)
  {
    extras := AddExtraSubjectsWith(scores, CoreSubjects, NotExistingSubjects, SubjectNameMapping);
  }

  /** That loop over the given tables. */
  method AddExtraSubjectsWith(scores: Dict<Grade>, core: seq<string>, missing: seq<string>, names: map<string, string>)
    returns (extras: seq<ExtraRow>)
    ensures extras == ExtraRowsWith(scores, core, missing, names)
  {
    extras := [];
    var keys := KeysOf(scores);
    for i := 0 to |keys|
      invariant extras + ExtraRowsWith(scores[i..], core, missing, names) == ExtraRowsWith(scores, core, missing, names)
    {
      assert scores[i..][1..] == scores[i + 1..];
      var name := keys[i];
      ghost var rest := ExtraRowsWith(scores[i + 1..], core, missing, names);
      if name !in core && name !in missing {
        var mapped := MapOr(names, name);
        assert ExtraRowsWith(scores[i..], core, missing, names) == [ExtraRow(mapped, scores[i].1)] + rest;
        assert (extras + [ExtraRow(mapped, scores[i].1)]) + rest == extras + ([ExtraRow(mapped, scores[i].1)] + rest);
        extras := extras + [ExtraRow(mapped, scores[i].1)];
      } else {
        assert ExtraRowsWith(scores[i..], core, missing, names) == rest;
      }
    }
    assert scores[|keys|..] == [];
  }

  /** What a pass over the calculator yields. */
  function CalculatorPass(scores: Dict<Grade>, lines: seq<CalcLine>): (r: Outcome<CalcOutcome>)
    ensures var eng := HasEnglishRow(lines, 0) && Get(scores, English).Some?;
      (r.Raised? <==> eng && PyInt(Get(scores, English).value.units).None?)
      && (r == Done(EnglishShortfall) <==>
            eng && PyInt(Get(scores, English).value.units).Some? && PyInt(Get(scores, English).value.units).value < 4)
    ensures r.Done? && r.value.Filled? ==>
      RowsFaithful(scores, lines, 0, r.value.rows) && RowsComplete(scores, lines, 0, r.value.rows)
      && r.value.extras == ExtraRows(scores)
  {
    CoreRowsGate(scores, lines, 0);
    CoreRowsFilled(scores, lines, 0);
    match CoreRows(scores, lines, 0)
    case Raised(e) => Raised(e)
    case Done(None) => Done(EnglishShortfall)
    case Done(Some(rows)) => Done(Filled(rows, ExtraRows(scores)))
  }

  // ---------------------------------------------------------------------------
  // The chances site

  /** `"לא תתאפשר קבלה" in text`: rejection; anything else is acceptance. */
  function ClassifyResult(text: string): (v: Verdict)
    ensures v == Reject <==> Contains(text, RejectionPhrase)
    ensures v == Accept <==> !Contains(text, RejectionPhrase)
  {
    if Contains(text, RejectionPhrase) then Reject else Accept
  }

  /** What is entered on the chances site: the search text, the track, the matriculation
      average, and the psychometric fields. */
  datatype ChancesForm = ChancesForm(search: string, track: string, bagrut: string, psychometric: seq<string>)

  /** `float(s)` for the average text: digits with at most one dot. */
  function PyFloat(s: string): Option<real> {
    if forall i :: 0 <= i < |s| ==> IsNumberChar(s[i]) then ParseDecimal(s) else None
  }

  /** `str(int(float(average)))`: the integer part of the average. */
  function BagrutText(average: string): (r: Option<string>)
    ensures r.Some? <==> PyFloat(average).Some?
  {
    match PyFloat(average)
    case None => None
    case Some(x) => Some(IntToString(x.Floor))
  }

  /** The two sites, as what they return:
      - `calcLines`: the rows of the calculator's grade page;
      - `average`: the average text the calculator shows for what was entered;
      - `petFields`: the psychometric fields of the chances form (whether each has an
        input);
      - `chances`: the result text and url for what was entered on the chances form;
      - `reprOf`: Python's `str` of a list or dict request value. */
  datatype HujiSite = HujiSite(
    calcLines: seq<CalcLine>,
    average: (seq<RowFill>, seq<ExtraRow>) -> Outcome<string>,
    petFields: seq<bool>,
    chances: ChancesForm -> Outcome<(string, string)>,
    reprOf: Json -> string)

  function DegreeText(degree: Json, site: HujiSite): string {
    if Hashable(degree) then ScalarText(degree) else site.reprOf(degree)
  }

  predicate HasRequestKeys(fields: map<string, Json>) {
    "highschool_scores" in fields && "subject" in fields && "psycho_math" in fields
    && "psycho_score" in fields && "psycho_hebrew" in fields && "psycho_english" in fields
  }

  function PsychoScores(fields: map<string, Json>): (r: seq<Json>)
    requires HasRequestKeys(fields)
    ensures |r| == 4
  {
    [fields["psycho_score"], fields["psycho_math"], fields["psycho_hebrew"], fields["psycho_english"]]
  }

  /** The chances site for a known degree, after the calculator: the form entered and
      its classified verdict. */
  function CheckChances(degree: string, averageText: string, psycho: seq<Json>, site: HujiSite): (r: Outcome<Admission>)
    requires |psycho| == 4
    ensures PyFloat(Strip(averageText)).None? ==> r == Raised("ValueError")
    ensures r.Done? ==>
      var form := ChancesForm(DegreeOptions(degree).0, DegreeOptions(degree).1,
                              BagrutText(Strip(averageText)).value, PsychometricTyped(site.petFields, psycho));
      PyFloat(Strip(averageText)).Some? && site.chances(form).Done?
      && r.value.url == site.chances(form).value.1 && r.value.message.None?
      && r.value.isAccepted.Some?
      && (r.value.isAccepted == Some(Reject) <==> Contains(Strip(site.chances(form).value.0), RejectionPhrase))
      && (r.value.isAccepted == Some(Accept) <==> !Contains(Strip(site.chances(form).value.0), RejectionPhrase))
  {
    match BagrutText(Strip(averageText))
    case None => Raised("ValueError")
    case Some(bagrut) =>
      var options := DegreeOptions(degree);
      var form := ChancesForm(options.0, options.1, bagrut, PsychometricTyped(site.petFields, psycho));
      match site.chances(form)
      case Raised(e) => Raised(e)
      case Done(page) => Done(Admission(Some(ClassifyResult(Strip(page.0))), page.1, None))
  }

  /** `run(data)` as written, from the message the adapter holds: the message it holds
      afterwards, and the response. */
  function Step(msg: Option<string>, fields: map<string, Json>, scores: Option<Dict<Grade>>, site: HujiSite): (r: (Option<string>, Outcome<Admission>))
    ensures !HasRequestKeys(fields) ==> r == (msg, Raised("KeyError"))
    ensures r.0 == msg || r.0 == Some(EnglishUnitsMessage)
      || (HasRequestKeys(fields) && r.0 == Some(UnknownDegreeMessage(DegreeText(fields["subject"], site))))
    ensures r.1.Done? && r.1.value.isAccepted.None? ==> HasRequestKeys(fields) && !KnownDegree(fields["subject"])
    ensures r.1.Done? && r.1.value.isAccepted == Some(Accept) ==> msg.None? && r.0.None?
  {
    if !HasRequestKeys(fields) then (msg, Raised("KeyError"))
    else if !KnownDegree(fields["subject"]) then
      var m := Some(UnknownDegreeMessage(DegreeText(fields["subject"], site)));
      (m, Done(Admission(None, HujiUrl, m)))
    else if scores.None? then (msg, Raised("TypeError"))
    else match CalculatorPass(scores.value, site.calcLines)
      case Raised(e) => (msg, Raised(e))
      case Done(EnglishShortfall) =>
        (Some(EnglishUnitsMessage), Done(Admission(Some(Reject), HujiUrl, Some(EnglishUnitsMessage))))
      case Done(Filled(rows, extras)) => (msg, AfterCalculator(msg, fields, rows, extras, site))
  }

  /** The rest of `run(data)` once the calculator rows are filled: a held message
      rejects, otherwise the average goes to the chances site. */
  function AfterCalculator(msg: Option<string>, fields: map<string, Json>, rows: seq<RowFill>, extras: seq<ExtraRow>,
                           site: HujiSite): (r: Outcome<Admission>)
    requires HasRequestKeys(fields) && fields["subject"].JStr?
    ensures msg.Some? ==> r == Done(Admission(Some(Reject), HujiUrl, msg))
    ensures r.Done? ==> r.value.isAccepted.Some?
  {
    if msg.Some? then Done(Admission(Some(Reject), HujiUrl, msg))
    else match site.average(rows, extras)
      case Raised(e) => Raised(e)
      case Done(averageText) => CheckChances(fields["subject"].s, averageText, PsychoScores(fields), site)
  }

  /** `run(data)` with the message cleared at the start of every request. */
  function StepCorrected(msg: Option<string>, fields: map<string, Json>, scores: Option<Dict<Grade>>, site: HujiSite): (Option<string>, Outcome<Admission>) {
    Step(None, fields, scores, site)
  }

  /** An unknown degree is answered with no verdict, the university's url and the
      message naming it, whatever the scores and the sites would have done. */
  lemma UnknownDegreeShortCircuit(msg: Option<string>, fields: map<string, Json>, scores: Option<Dict<Grade>>, site: HujiSite,
                                  scores2: Option<Dict<Grade>>, site2: HujiSite)
    requires HasRequestKeys(fields) && !KnownDegree(fields["subject"])
    requires site2.reprOf == site.reprOf
    ensures Step(msg, fields, scores, site).1 ==
      Done(Admission(None, HujiUrl, Some(UnknownDegreeMessage(DegreeText(fields["subject"], site)))))
    ensures Step(msg, fields, scores, site) == Step(msg, fields, scores2, site2)
  {
  }

  /** Too few English units: rejection with the unit message, before the chances site. */
  lemma EnglishGateRejects(msg: Option<string>, fields: map<string, Json>, scores: Dict<Grade>, site: HujiSite, site2: HujiSite)
    requires HasRequestKeys(fields) && KnownDegree(fields["subject"])
    requires HasEnglishRow(site.calcLines, 0) && Get(scores, English).Some?
    requires PyInt(Get(scores, English).value.units).Some? && PyInt(Get(scores, English).value.units).value < 4
    requires site2.calcLines == site.calcLines
    ensures Step(msg, fields, Some(scores), site) ==
      (Some(EnglishUnitsMessage), Done(Admission(Some(Reject), HujiUrl, Some(EnglishUnitsMessage))))
    ensures Step(msg, fields, Some(scores), site) == Step(msg, fields, Some(scores), site2)
  {
    CoreRowsGate(scores, site.calcLines, 0);
    CoreRowsFilled(scores, site.calcLines, 0);
  }

  /** On a fresh adapter, a request that passes the calculator gets the chances site's
      verdict, with no message. */
  lemma FreshVerdictFromSite(fields: map<string, Json>, scores: Dict<Grade>, site: HujiSite)
    requires HasRequestKeys(fields) && KnownDegree(fields["subject"])
    requires CalculatorPass(scores, site.calcLines).Done? && CalculatorPass(scores, site.calcLines).value.Filled?
    ensures var c := CalculatorPass(scores, site.calcLines).value;
      Step(None, fields, Some(scores), site).0 == None
      && (site.average(c.rows, c.extras).Done? ==>
            Step(None, fields, Some(scores), site).1 ==
              CheckChances(fields["subject"].s, site.average(c.rows, c.extras).value, PsychoScores(fields), site))
  {
  }

  /** As written, a message once held is never cleared: every later request for a known
      degree that passes the calculator is rejected with it. */
  lemma StaleMessageRejects(msg: Option<string>, fields: map<string, Json>, scores: Dict<Grade>, site: HujiSite)
    requires msg.Some?
    requires HasRequestKeys(fields) && KnownDegree(fields["subject"])
    requires CalculatorPass(scores, site.calcLines).Done? && CalculatorPass(scores, site.calcLines).value.Filled?
    ensures Step(msg, fields, Some(scores), site) == (msg, Done(Admission(Some(Reject), HujiUrl, msg)))
  {
  }

  /** Two requests to one adapter: one with three units of English, then one with
      five that the site accepts. The second is rejected with the first one's message,
      though a fresh adapter accepts it. */
  lemma StaleMessageExample()
    ensures var site := HujiSite([CalcLine(true, English)], (rows, extras) => Done("95"), [],
                                 form => Done(("", HujiUrl)), j => "");
      var fields := map["highschool_scores" := JNull, "subject" := JStr("מדעי המחשב"), "psycho_math" := JInt(120),
                        "psycho_score" := JInt(650), "psycho_hebrew" := JInt(130), "psycho_english" := JInt(110)];
      var first := Step(None, fields, Some([(English, Grade(JInt(90), JInt(3)))]), site);
      first.0 == Some(EnglishUnitsMessage)
      && Step(first.0, fields, Some([(English, Grade(JInt(90), JInt(5)))]), site).1
         == Done(Admission(Some(Reject), HujiUrl, Some(EnglishUnitsMessage)))
      && Step(None, fields, Some([(English, Grade(JInt(90), JInt(5)))]), site).1
         == Done(Admission(Some(Accept), HujiUrl, None))
  {
    var site := HujiSite([CalcLine(true, English)], (rows, extras) => Done("95"), [],
                         form => Done(("", HujiUrl)), j => "");
    var fields := map["highschool_scores" := JNull, "subject" := JStr("מדעי המחשב"), "psycho_math" := JInt(120),
                      "psycho_score" := JInt(650), "psycho_hebrew" := JInt(130), "psycho_english" := JInt(110)];
    var low := [(English, Grade(JInt(90), JInt(3)))];
    var high := [(English, Grade(JInt(90), JInt(5)))];
    assert DegreesData[0].userInput == "מדעי המחשב";
    assert KnownDegree(fields["subject"]);
    assert HasRequestKeys(fields);
    EnglishOnlyCalculator(3);
    EnglishOnlyCalculator(5);
    StaleMessageRejects(Some(EnglishUnitsMessage), fields, high, site);
    FreshVerdictFromSite(fields, high, site);
    BagrutExample();
    assert !Contains("", RejectionPhrase);
    assert Strip("") == "";
  }

  /** A calculator with only the English row, for English with `units` units. */
  lemma EnglishOnlyCalculator(units: int)
    ensures var scores := [(English, Grade(JInt(90), JInt(units)))];
      CalculatorPass(scores, [CalcLine(true, English)])
      == if units < 4 then Done(EnglishShortfall) else Done(Filled([RowFill(0, English, Grade(JInt(90), JInt(units)))], []))
  {
    var scores := [(English, Grade(JInt(90), JInt(units)))];
    var lines := [CalcLine(true, English)];
    assert RowSubject(English) == English by {
      assert !IsSpace(English[0]) && !IsSpace(English[|English| - 1]);
      assert Strip(English) == English;
    }
    assert English in CoreSubjects;
    assert ExtraRows(scores) == [];
    assert Get(scores, English) == Some(Grade(JInt(90), JInt(units)));
    assert CoreRows(scores, lines, 1) == Done(Some([]));
    assert [RowFill(0, English, Grade(JInt(90), JInt(units)))] + [] == [RowFill(0, English, Grade(JInt(90), JInt(units)))];
  }

  lemma BagrutExample()
    ensures BagrutText(Strip("95")) == Some("95")
  {
    assert Strip("95") == "95";
    assert AllDigits("95");
    assert DigitsValue("95") == 95 by {
      assert "95"[..1] == "9";
    }
    assert PyFloat("95") == Some(95.0);
    assert IntToString(95) == "95" by {
      assert NatToString(95) == NatToString(9) + [DigitChar(5)];
    }
  }

  /** With the message cleared per request, the response no longer depends on what
      earlier requests left behind, and a fresh adapter answers as before. */
  lemma CorrectedIgnoresHistory(m1: Option<string>, m2: Option<string>, fields: map<string, Json>,
                                scores: Option<Dict<Grade>>, site: HujiSite)
    ensures StepCorrected(m1, fields, scores, site).1 == StepCorrected(m2, fields, scores, site).1
    ensures StepCorrected(None, fields, scores, site) == Step(None, fields, scores, site)
  {
  }

  // ---------------------------------------------------------------------------
  // The adapter object

  /** The adapter: the only state it keeps between requests is `msg`. */
  class HebrewUniversity {
    var msg: Option<string>

    constructor ()
      ensures msg == None
    {
      msg := None;
    }

    /** `secondPageOfCalculator`: fills the calculator, recording the English-unit
        message when the gate stops it. */
    method SecondPageOfCalculator(scores: Dict<Grade>, lines: seq<CalcLine>) returns (r: Outcome<CalcOutcome>)
      modifies this
      ensures r == CalculatorPass(scores, lines)
      ensures msg == if r == Done(EnglishShortfall) then Some(EnglishUnitsMessage) else old(msg)
    {
      var core := FillCoreRows(scores, lines);
      match core
      case Raised(e) =>
        return Raised(e);
      case Done(None) =>
        msg := Some(EnglishUnitsMessage);
        return Done(EnglishShortfall);
      case Done(Some(rows)) =>
        var extras := AddExtraSubjects(scores);
        return Done(Filled(rows, extras));
    }

    /** `run(data)` */
    method Run(fields: map<string, Json>, scores: Option<Dict<Grade>>, site: HujiSite) returns (out: Outcome<Admission>)
      modifies this
      ensures (msg, out) == Step(old(msg), fields, scores, site)
    {
      if !HasRequestKeys(fields) {
        return Raised("KeyError");
      }
      var degree := fields["subject"];
      if !KnownDegree(degree) {
        msg := Some(UnknownDegreeMessage(DegreeText(degree, site)));
        return Done(Admission(None, HujiUrl, msg));
      }
      if scores.None? {
        return Raised("TypeError");
      }
      var calculated := SecondPageOfCalculator(scores.value, site.calcLines);
      if calculated.Raised? {
        return Raised(calculated.error);
      }
      if msg.Some? {
        return Done(Admission(Some(Reject), HujiUrl, msg));
      }
      var average := site.average(calculated.value.rows, calculated.value.extras);
      if average.Raised? {
        return Raised(average.error);
      }
      out := CheckYourChance(degree.s, average.value, PsychoScores(fields), site);
    }

    /** `firstPageOfCheckYourChance` and `secondPageOfCheckYourChance`. */
    method CheckYourChance(degree: string, averageText: string, psycho: seq<Json>, site: HujiSite) returns (out: Outcome<Admission>)
      requires |psycho| == 4
      ensures out == CheckChances(degree, averageText, psycho, site)
    {
      var option1, option2 := SiteDegreeOptions(degree);
      var bagrut := BagrutText(Strip(averageText));
      if bagrut.None? {
        return Raised("ValueError");
      }
      var typed := FillPsychometricFields(site.petFields, psycho);
      var page := site.chances(ChancesForm(option1, option2, bagrut.value, typed));
      if page.Raised? {
        return Raised(page.error);
      }
      var resultText := Strip(page.value.0);
      if Contains(resultText, RejectionPhrase) {
        return Done(Admission(Some(Reject), page.value.1, None));
      }
      return Done(Admission(Some(Accept), page.value.1, None));
    }
  }
}
