/** The decision logic of the Tel Aviv University adapter: dispatch on the subject
    (medicine and physiotherapy, civil engineering, everything else), the closed-form
    medicine rule, the preparation of the caller's matriculation subjects (renamed on
    a copy, then split into subjects the grade sheet lists and a queue of "other"
    subjects), the filling of the grade-sheet lines, the 5-unit bonus condition and
    the three-way threshold rule. The grade sheet, the calculator and the subject page
    are inputs. */
module TelAviv {
  import opened Wrappers
  import opened Text
  import opened PyData
  import opened Admissions

  const MedicineMessage := "עבור רפואה ופיזיותרפיה קבלה משמעותה מעבר תנאי סף על מנת להתחיל בתהליך המיונים ולא בקבלה ללימודים"
  const CivilEngineeringMessage := "הנדסה אזרחית לא קיימת במערכת הקבלה של אוניברסיטת תל אביב. יש לבדוק את המידע באתר האוניברסיטה."
  /** The third-cell text of the grade-sheet lines for subjects the sheet does not list. */
  const OtherLabel := "אחר ללא בונוס"

  // ---------------------------------------------------------------------------
  // Static tables

  /** The subject page of each degree. */
  const SubjectUrls: map<string, string> := map[
    "מדעי המחשב" := "https://go.tau.ac.il/he/exact/ba/computer",
    "הנדסה אזרחית" := "https://engineering.tau.ac.il/welcome_undergrad",
    "הנדסה ביורפואית" := "https://go.tau.ac.il/he/engineering/ba/biomedical",
    "הנדסת חשמל" := "https://go.tau.ac.il/he/engineering/ba/electrical",
    "הנדסת מכונות" := "https://go.tau.ac.il/he/engineering/ba/mechanical",
    "הנדסה תעשייה וניהול" := "https://go.tau.ac.il/he/engineering/ba/industrial-engineering",
    "הנדסת תוכנה" := "https://go.tau.ac.il/he/exact/ba/electrical-engineering-computer-science",
    "חינוך והוראה" := "https://go.tau.ac.il/he/education/ba",
    "משפטים" := "https://go.tau.ac.il/he/law/ba/law",
    "מנהל עסקים" := "https://go.tau.ac.il/he/management/ba/management",
    "סיעוד" := "https://go.tau.ac.il/he/med/ba/nursing",
    "פסיכולוגיה" := "https://go.tau.ac.il/he/social-sciences/ba/psychology",
    "כלכלה" := "https://go.tau.ac.il/he/social-sciences/ba/economics",
    "הנדסה ביוטכנולוגית" := "https://go.tau.ac.il/he/life/ba/biotechnology",
    "רפואה" := "https://go.tau.ac.il/he/med/ba/med-doc",
    "עבודה סוציאלית" := "https://go.tau.ac.il/he/social-sciences/ba/social-work",
    "הנדסת חומרים" := "https://go.tau.ac.il/he/engineering/ba/materials",
    "מדעי המוח וקוגניציה" := "https://go.tau.ac.il/he/neuroscience/ba",
    "פיזיקה" := "https://go.tau.ac.il/he/exact/ba/physics",
    "מתמטיקה" := "https://go.tau.ac.il/he/exact/ba/math",
    "פיזיותרפיה" := "https://go.tau.ac.il/he/med/ba/phys",
    "ריפוי בעיסוק" := "https://go.tau.ac.il/he/med/ba/occu"
  ]

  /** The names `run` gives some subjects before the general branch. */
  const AlternativeNames: map<string, string> := map[
    "הנדסת תוכנה" := "הנדסת מחשבים",
    "חינוך והוראה" := "חינוך",
    "מנהל עסקים" := "ניהול",
    "הנדסה ביוטכנולוגית" := "ביולוגיה וביוטגנולוגיה"
  ]

  /** The calculator column (section) each degree is judged by. */
  const Sections: map<string, string> := map[
    "מדעי המחשב" := "מדעים מדויקים",
    "הנדסה אזרחית" := "הנדסה",
    "הנדסה ביורפואית" := "הנדסה",
    "הנדסת חשמל" := "הנדסה",
    "הנדסת מכונות" := "הנדסה",
    "הנדסה תעשייה וניהול" := "הנדסה",
    "הנדסת תוכנה" := "הנדסה",
    "חינוך והוראה" := "כללי",
    "משפטים" := "כללי",
    "מנהל עסקים" := "ניהול",
    "סיעוד" := "כללי",
    "פסיכולוגיה" := "כללי",
    "כלכלה" := "כללי",
    "הנדסה ביוטכנולוגית" := "כללי",
    "רפואה" := "null",
    "עבודה סוציאלית" := "כללי",
    "הנדסת חומרים" := "הנדסה",
    "מדעי המוח וקוגניציה" := "כללי",
    "פיזיקה" := "מדעים מדויקים",
    "מתמטיקה" := "מדעים מדויקים",
    "פיזיותרפיה" := "null",
    "ריפוי בעיסוק" := "כללי"
  ]

  /** Caller subject names to the grade sheet's names. */
  const SubjectNames: map<string, string> := map[
    "עברית: הבנה, הבעה ולשון" := "הבעה עברית",
    "היסטוריה" := "היסטוריה/תע\"י",
    "תושב\"ע" := "תורה שבע\"פ",
    "אמנות חזותית" := "אמנות",
    "מערכות חשמל" := "חשמל",
    "מערכות בקרה" := "מכשור ובקרה"
  ]

  /** The subjects the grade sheet lists by name. */
  const InForm: set<string> := {
    "אזרחות", "אנגלית", "מתמטיקה", "היסטוריה/תע\"י", "הבעה עברית", "ספרות", "תנ\"ך",
    "ערבית", "עברית", "אלקטרוניקה", "אמנות", "ביולוגיה", "גיאוגרפיה", "חקלאות", "חשמל",
    "כימיה", "מדעי החברה", "מדעי המחשב", "מוסיקה", "מחשבת ישראל", "מכשור ובקרה",
    "מכניקה הנדסית", "פיזיקה", "פסיכולוגיה", "צרפתית", "תורה שבע\"פ", "תלמוד"
  }

  /** No site name is itself renamed, and no two caller names share a site name. */
  lemma SubjectNamesShape()
    ensures NoChains(SubjectNames) && InjectiveTable(SubjectNames)
  {
    SubjectNamesNoChains();
    SubjectNamesInjective();
  }

  lemma SubjectNamesNoChains()
    ensures NoChains(SubjectNames)
  {
  }

  lemma SubjectNamesInjective()
    ensures InjectiveTable(SubjectNames)
  {
  }

  /** Every subject with an alternative name has a page and a section; its
      alternative name has neither. */
  lemma AlternativeNamesShape(s: string)
    requires s in AlternativeNames
    ensures s in SubjectUrls && s in Sections
    ensures AlternativeNames[s] !in SubjectUrls
    ensures s != "רפואה" && s != "פיזיותרפיה" && s != "הנדסה אזרחית"
  {
    AlternativeNamesKeys(s);
    if s == "הנדסת תוכנה" { AlternativeSoftwarePage(); }
    if s == "חינוך והוראה" { AlternativeEducationPage(); }
    if s == "מנהל עסקים" { AlternativeManagementPage(); }
    if s == "הנדסה ביוטכנולוגית" { AlternativeBiotechnologyPage(); }
  }

  lemma AlternativeSoftwarePage()
    ensures "הנדסת תוכנה" in SubjectUrls && "הנדסת תוכנה" in Sections && "הנדסת מחשבים" !in SubjectUrls
  {
  }

  lemma AlternativeEducationPage()
    ensures "חינוך והוראה" in SubjectUrls && "חינוך והוראה" in Sections && "חינוך" !in SubjectUrls
  {
  }

  lemma AlternativeManagementPage()
    ensures "מנהל עסקים" in SubjectUrls && "מנהל עסקים" in Sections && "ניהול" !in SubjectUrls
  {
  }

  lemma AlternativeBiotechnologyPage()
    ensures "הנדסה ביוטכנולוגית" in SubjectUrls && "הנדסה ביוטכנולוגית" in Sections && "ביולוגיה וביוטגנולוגיה" !in SubjectUrls
  {
  }

  lemma AlternativeNamesKeys(s: string)
    requires s in AlternativeNames
    ensures s == "הנדסת תוכנה" || s == "חינוך והוראה" || s == "מנהל עסקים" || s == "הנדסה ביוטכנולוגית"
  {
  }

  // ---------------------------------------------------------------------------
  // The pure rules

  /** `calculate_medicine_threshold`: the psychometric threshold is 700 for medicine and
      630 for physiotherapy. The four tests run left to right and stop at the first
      that fails; reading a missing key or a value that is no integer raises. */
  function MedicineThreshold(subject: string, fields: map<string, Json>, scores: Option<Dict<Grade>>): (r: Outcome<Verdict>)
    ensures r.Raised? ==> r.error == "KeyError" || r.error == "ValueError" || r.error == "TypeError"
    ensures r != Done(WaitingList)
    ensures ("psycho_score" in fields && PyInt(fields["psycho_score"]).Some?
             && PyInt(fields["psycho_score"]).value < (if subject == "רפואה" then 700 else 630)) ==> r == Done(Reject)
    ensures r == Done(Accept) ==>
      "psycho_score" in fields && PyInt(fields["psycho_score"]).Some? && PyInt(fields["psycho_score"]).value >= 630
      && "psycho_english" in fields && PyInt(fields["psycho_english"]).Some? && PyInt(fields["psycho_english"]).value >= 120
  {
    var threshold := if subject == "רפואה" then 700 else 630;
    if "psycho_score" !in fields then Raised("KeyError")
    else if PyInt(fields["psycho_score"]).None? then Raised(IntError(fields["psycho_score"]))
    else if PyInt(fields["psycho_score"]).value < threshold then Done(Reject)
    else if scores.None? || Get(scores.value, "מתמטיקה").None? then Raised("KeyError")
    else
      var math := Get(scores.value, "מתמטיקה").value;
      if PyInt(math.grade).None? then Raised(IntError(math.grade))
      else if PyInt(math.grade).value < 56 then Done(Reject)
      else if PyInt(math.units).None? then Raised(IntError(math.units))
      else if PyInt(math.units).value < 4 then Done(Reject)
      else if "psycho_english" !in fields then Raised("KeyError")
      else if PyInt(fields["psycho_english"]).None? then Raised(IntError(fields["psycho_english"]))
      else if PyInt(fields["psycho_english"]).value < 120 then Done(Reject)
      else Done(Accept)
  }

  /** All four medicine conditions hold. */
  predicate MeetsMedicineRule(subject: string, fields: map<string, Json>, scores: Option<Dict<Grade>>) {
    "psycho_score" in fields && PyInt(fields["psycho_score"]).Some?
    && PyInt(fields["psycho_score"]).value >= (if subject == "רפואה" then 700 else 630)
    && scores.Some? && Get(scores.value, "מתמטיקה").Some?
    && PyInt(Get(scores.value, "מתמטיקה").value.grade).Some? && PyInt(Get(scores.value, "מתמטיקה").value.grade).value >= 56
    && PyInt(Get(scores.value, "מתמטיקה").value.units).Some? && PyInt(Get(scores.value, "מתמטיקה").value.units).value >= 4
    && "psycho_english" in fields && PyInt(fields["psycho_english"]).Some? && PyInt(fields["psycho_english"]).value >= 120
  }

  /** The medicine rule accepts exactly when all four conditions hold, otherwise it
      rejects or raises; it never puts anyone on the waiting list. */
  lemma MedicineRule(subject: string, fields: map<string, Json>, scores: Option<Dict<Grade>>)
    ensures MedicineThreshold(subject, fields, scores) == Done(Accept) <==> MeetsMedicineRule(subject, fields, scores)
    ensures MedicineThreshold(subject, fields, scores) != Done(WaitingList)
    ensures MedicineThreshold(subject, fields, scores).Raised? ==> !MeetsMedicineRule(subject, fields, scores)
  {
  }

  /** The threshold rule of `is_accepted_per_subject`. */
  function Classify(score: int, acceptance: int, rejection: int): (v: Verdict)
    ensures v == Accept <==> score >= acceptance
    ensures v == WaitingList <==> score < acceptance && score >= rejection
    ensures v == Reject <==> score < acceptance && score < rejection
  {
    if score >= acceptance then Accept
    else if score >= rejection then WaitingList
    else Reject
  }

  function Rank(v: Verdict): nat {
    match v
    case Reject => 0
    case WaitingList => 1
    case Accept => 2
  }

  /** A higher score never gets a worse verdict. */
  lemma ClassifyMonotone(s1: int, s2: int, acceptance: int, rejection: int)
    requires s1 <= s2
    ensures Rank(Classify(s1, acceptance, rejection)) <= Rank(Classify(s2, acceptance, rejection))
  {
  }

  /** The 5-unit bonus: Mathematics at the units string "5", and physics present at the
      units string "5", read from the caller's own subjects. A missing Mathematics entry
      raises. */
  function Bonus(scores: Dict<Grade>): (r: Outcome<bool>)
    ensures r.Raised? <==> Get(scores, "מתמטיקה").None?
    ensures r == Done(true) <==>
      Get(scores, "מתמטיקה").Some? && Get(scores, "מתמטיקה").value.units == JStr("5")
      && Get(scores, "פיזיקה").Some? && Get(scores, "פיזיקה").value.units == JStr("5")
  {
    if Get(scores, "מתמטיקה").None? then Raised("KeyError")
    else Done(Get(scores, "מתמטיקה").value.units == JStr("5")
              && Get(scores, "פיזיקה").Some? && Get(scores, "פיזיקה").value.units == JStr("5"))
  }

  /** The comparison is with the string "5": the integer 5 does not qualify. */
  lemma BonusNeedsString(g: Json)
    ensures Bonus([("מתמטיקה", Grade(g, JInt(5))), ("פיזיקה", Grade(g, JStr("5")))]) == Done(false)
  {
  }

  // ---------------------------------------------------------------------------
  // Preparing the caller's subjects

  /** The entries of `d` whose subject is in `form`, in order. */
  function InFormPart<V>(d: Dict<V>, form: set<string>): Dict<V>
    decreases |d|
  {
    if d == [] then []
    else if d[|d| - 1].0 in form then InFormPart(d[..|d| - 1], form) + [d[|d| - 1]]
    else InFormPart(d[..|d| - 1], form)
  }

  /** It keeps only entries of `d` whose subject is in `form`. */
  lemma {:induction false} InFormPartIn<V>(d: Dict<V>, form: set<string>)
    ensures forall i :: 0 <= i < |InFormPart(d, form)| ==> InFormPart(d, form)[i].0 in form && InFormPart(d, form)[i] in d
    decreases |d|
  {
    if d != [] {
      var p := d[..|d| - 1];
      InFormPartIn(p, form);
      forall i | 0 <= i < |InFormPart(p, form)| ensures InFormPart(p, form)[i] in d {
        var m :| 0 <= m < |p| && p[m] == InFormPart(p, form)[i];
        assert d[m] == p[m];
      }
    }
  }

  /** The values of the other entries of `d`, in order: the "other" queue. */
  function SpecialPart<V>(d: Dict<V>, form: set<string>): seq<V>
    decreases |d|
  {
    if d == [] then []
    else if d[|d| - 1].0 in form then SpecialPart(d[..|d| - 1], form)
    else SpecialPart(d[..|d| - 1], form) + [d[|d| - 1].1]
  }

  /** The split loses and invents nothing. */
  lemma {:induction false} SplitLosesNothing<V>(d: Dict<V>, form: set<string>)
    ensures multiset(ValuesOf(d)) == multiset(ValuesOf(InFormPart(d, form))) + multiset(SpecialPart(d, form))
    decreases |d|
  {
    if d != [] {
      SplitLosesNothing(d[..|d| - 1], form);
      SplitSnoc(d, form);
    }
  }

  lemma SplitSnoc<V>(d: Dict<V>, form: set<string>)
    requires d != []
    requires var p := d[..|d| - 1];
      multiset(ValuesOf(p)) == multiset(ValuesOf(InFormPart(p, form))) + multiset(SpecialPart(p, form))
    ensures multiset(ValuesOf(d)) == multiset(ValuesOf(InFormPart(d, form))) + multiset(SpecialPart(d, form))
  {
    ValuesOfLast(d);
    SplitLast(d, form);
  }

  /** How the last entry of `d` is split. */
  lemma SplitLast<V>(d: Dict<V>, form: set<string>)
    requires d != []
    ensures var p, last := d[..|d| - 1], d[|d| - 1];
      multiset(ValuesOf(InFormPart(d, form))) + multiset(SpecialPart(d, form))
      == multiset(ValuesOf(InFormPart(p, form))) + multiset(SpecialPart(p, form)) + multiset{last.1}
  {
    var p := d[..|d| - 1];
    var last := d[|d| - 1];
    var mq := multiset(ValuesOf(InFormPart(p, form)));
    var ms := multiset(SpecialPart(p, form));
    if last.0 in form {
      ValuesOfSnoc(InFormPart(p, form), last);
      assert multiset(ValuesOf(InFormPart(d, form))) == mq + multiset{last.1};
      assert multiset(SpecialPart(d, form)) == ms;
      MultisetSwap(mq, ms, multiset{last.1});
    } else {
      assert multiset(ValuesOf(InFormPart(d, form))) == mq;
      assert multiset(SpecialPart(d, form)) == ms + multiset{last.1};
    }
  }

  lemma MultisetSwap<V>(a: multiset<V>, b: multiset<V>, c: multiset<V>)
    ensures (a + c) + b == (a + b) + c
  {
  }

  lemma ValuesOfLast<V>(d: Dict<V>)
    requires d != []
    ensures ValuesOf(d) == ValuesOf(d[..|d| - 1]) + [d[|d| - 1].1]
  {
    var p := d[..|d| - 1];
    ValuesOfSnoc(p, d[|d| - 1]);
    assert p + [d[|d| - 1]] == d;
  }

  lemma ValuesOfSnoc<V>(a: Dict<V>, e: (string, V))
    ensures ValuesOf(a + [e]) == ValuesOf(a) + [e.1]
  {
    var l, r := ValuesOf(a + [e]), ValuesOf(a) + [e.1];
    assert |l| == |r|;
    forall i | 0 <= i < |r| ensures l[i] == r[i] {
      assert l[i] == (a + [e])[i].1;
      if i < |a| {
        assert r[i] == ValuesOf(a)[i] == a[i].1;
      }
    }
  }

  lemma InFormPartKeys<V>(p: Dict<V>, form: set<string>, k: string)
    requires forall i :: 0 <= i < |p| ==> p[i].0 != k
    ensures k !in KeysOf(InFormPart(p, form))
  {
    var q := InFormPart(p, form);
    InFormPartIn(p, form);
    forall j | 0 <= j < |q| ensures KeysOf(q)[j] != k {
      assert q[j] in p;
    }
  }

  lemma {:induction false} InFormPartDistinct<V>(d: Dict<V>, form: set<string>)
    requires DistinctKeys(d)
    ensures DistinctKeys(InFormPart(d, form))
    decreases |d|
  {
    if d != [] {
      var p := d[..|d| - 1];
      InFormPartDistinct(p, form);
      InFormPartIn(p, form);
      var last := d[|d| - 1];
      forall i | 0 <= i < |InFormPart(p, form)| ensures InFormPart(p, form)[i].0 != last.0 {
        var e := InFormPart(p, form)[i];
        assert e in p;
        var m :| 0 <= m < |p| && p[m] == e;
        assert d[m] == e;
      }
    }
  }

  /** The second loop of `get_tlv_highschool_score`: every subject not in `form` (the
      grade sheet's subjects) is popped from `sheet` onto the end of the "other"
      queue. */
  method SplitSpecial(sheet: ScoreSheet, form: set<string>) returns (special: seq<Grade>)
    requires sheet.Valid()
    modifies sheet
    ensures sheet.Valid()
    ensures sheet.entries == InFormPart(old(sheet.entries), form) && special == SpecialPart(old(sheet.entries), form)
  {
    ghost var d := sheet.entries;
    var ks := KeysOf(sheet.entries);
    special := [];
    assert d[..0] == [] && d[0..] == d;
    for i := 0 to |ks|
      invariant sheet.Valid()
      invariant sheet.entries == InFormPart(d[..i], form) + d[i..]
      invariant special == SpecialPart(d[..i], form)
    {
      special := SplitOne(sheet, form, ks[i], special, d, i);
    }
    assert d[..|ks|] == d && d[|ks|..] == [];
  }

  /** One turn of the split loop: subject `k`, the `i`-th of the snapshot `d`, is
      popped onto the "other" queue unless the sheet lists it. */
  method SplitOne(sheet: ScoreSheet, form: set<string>, k: string, special: seq<Grade>, ghost d: Dict<Grade>, ghost i: nat)
      returns (special': seq<Grade>)
    requires sheet.Valid() && DistinctKeys(d) && i < |d| && k == d[i].0
    requires sheet.entries == InFormPart(d[..i], form) + d[i..] && special == SpecialPart(d[..i], form)
    modifies sheet
    ensures sheet.Valid()
    ensures sheet.entries == InFormPart(d[..i + 1], form) + d[i + 1..] && special' == SpecialPart(d[..i + 1], form)
  {
    SplitStep(d, form, i);
    special' := special;
    if k !in form {
      var v := sheet.Pop(k);
      special' := special + [v];
    }
  }

  lemma SplitStep<V>(d: Dict<V>, form: set<string>, i: nat)
    requires i < |d| && DistinctKeys(InFormPart(d[..i], form) + d[i..])
    requires DistinctKeys(d)
    ensures Get(InFormPart(d[..i], form) + d[i..], d[i].0) == Some(d[i].1)
    ensures d[i].0 !in form ==>
      Remove(InFormPart(d[..i], form) + d[i..], d[i].0) == InFormPart(d[..i + 1], form) + d[i + 1..]
      && SpecialPart(d[..i + 1], form) == SpecialPart(d[..i], form) + [d[i].1]
    ensures d[i].0 in form ==>
      InFormPart(d[..i], form) + d[i..] == InFormPart(d[..i + 1], form) + d[i + 1..]
      && SpecialPart(d[..i + 1], form) == SpecialPart(d[..i], form)
  {
    var k := d[i].0;
    var p := InFormPart(d[..i], form);
    assert d[..i + 1][..i] == d[..i];
    assert d[i..] == [d[i]] + d[i + 1..];
    InFormPartKeys(d[..i], form, k);
    GetAppend(p, d[i..], k);
    if k !in form {
      RemoveAppend(p, d[i..], k);
    } else {
      assert InFormPart(d[..i + 1], form) == p + [d[i]];
    }
  }

  // ---------------------------------------------------------------------------
  // Filling the grade sheet

  /** A grade-sheet line: whether it has inputs, and the text of its third cell
      (`None` when it has fewer than three cells). */
  datatype FormLine = FormLine(hasInputs: bool, caption: Option<string>)

  datatype Source = Named(subject: string) | Other

  /** Line `line` was typed with `grade`, taken from the named subject or from the
      "other" queue. */
  datatype Typed = Typed(line: nat, source: Source, grade: Grade)

  datatype LineState = LineState(scores: Dict<Grade>, special: seq<Grade>, typed: seq<Typed>)

  /** The first key of `keys` occurring in `caption`. */
  function FirstContained(keys: seq<string>, caption: string): (r: Option<string>)
    ensures r.Some? ==> r.value in keys && Contains(caption, r.value)
    ensures r.Some? ==> exists j :: 0 <= j < |keys| && keys[j] == r.value
                                   && forall k :: 0 <= k < j ==> !Contains(caption, keys[k])
    ensures r.None? ==> forall i :: 0 <= i < |keys| ==> !Contains(caption, keys[i])
    decreases |keys|
  {
    if keys == [] then None
    else if Contains(caption, keys[0]) then Some(keys[0])
    else FirstContained(keys[1..], caption)
  }

  /** The subject a line is for: the first remaining subject its caption contains,
      or the caption itself. */
  function LineSubject(scores: Dict<Grade>, caption: string): string {
    match FirstContained(KeysOf(scores), caption)
    case Some(k) => k
    case None => caption
  }

  /** What a line does: nothing, take the head of the "other" queue, or take a named
      subject. */
  datatype Action = Skip | TakeOther | TakeNamed(subject: string)

  function LineAction(st: LineState, line: FormLine): (r: Outcome<Action>)
    ensures r.Done? && r.value.TakeOther? ==> |st.special| > 0
    ensures r.Done? && r.value.TakeNamed? ==> Get(st.scores, r.value.subject).Some?
  {
    if !line.hasInputs then Done(Skip)
    else if line.caption.None? then Raised("IndexError")
    else
      var name := LineSubject(st.scores, line.caption.value);
      if Get(st.scores, name).None? && name != OtherLabel then Done(Skip)
      else if name == OtherLabel && |st.special| == 0 then Done(Skip)
      else if name == OtherLabel then Done(TakeOther)
      else Done(TakeNamed(name))
  }

  function Apply(st: LineState, a: Action, i: nat): LineState
    requires a.TakeOther? ==> |st.special| > 0
    requires a.TakeNamed? ==> Get(st.scores, a.subject).Some?
  {
    match a
    case Skip => st
    case TakeOther => LineState(st.scores, st.special[1..], st.typed + [Typed(i, Other, st.special[0])])
    case TakeNamed(name) =>
      LineState(Remove(st.scores, name), st.special, st.typed + [Typed(i, Named(name), Get(st.scores, name).value)])
  }

  /** The lines `lines`, the first of which is line `i` of the sheet. */
  function Lines(st: LineState, lines: seq<FormLine>, i: nat): Outcome<LineState>
    decreases |lines|
  {
    if lines == [] then Done(st)
    else match LineAction(st, lines[0])
      case Raised(e) => Raised(e)
      case Done(a) => Lines(Apply(st, a, i), lines[1..], i + 1)
  }

  method FillLines(scores: Dict<Grade>, special: seq<Grade>, lines: seq<FormLine>) returns (r: Outcome<LineState>)
    ensures r == Lines(LineState(scores, special, []), lines, 0)
  {
    var st := LineState(scores, special, []);
    for i := 0 to |lines|
      invariant Lines(st, lines[i..], i) == Lines(LineState(scores, special, []), lines, 0)
    {
      assert lines[i..][1..] == lines[i + 1..];
      var line := lines[i];
      if !line.hasInputs {
        continue;
      }
      if line.caption.None? {
        return Raised("IndexError");
      }
      var caption := line.caption.value;
      var name := caption;
      var keys := KeysOf(st.scores);
      var j := 0;
      while j < |keys|
        invariant 0 <= j <= |keys| && name == caption
        invariant FirstContained(keys[j..], caption) == FirstContained(keys, caption)
      {
        assert keys[j..][1..] == keys[j + 1..];
        if Contains(caption, keys[j]) {
          name := keys[j];
          break;
        }
        j := j + 1;
      }
      assert name == LineSubject(st.scores, caption);
      if Get(st.scores, name).None? && name != OtherLabel {
        continue;
      }
      if name == OtherLabel && |st.special| <= 0 {
        continue;
      }
      if name == OtherLabel {
        st := LineState(st.scores, st.special[1..], st.typed + [Typed(i, Other, st.special[0])]);
      } else {
        st := LineState(Remove(st.scores, name), st.special, st.typed + [Typed(i, Named(name), Get(st.scores, name).value)]);
      }
    }
    r := Done(st);
  }

  /** The grades typed on "other" lines, in order. */
  function OtherGrades(typed: seq<Typed>): seq<Grade>
    decreases |typed|
  {
    if typed == [] then []
    else if typed[|typed| - 1].source.Other? then OtherGrades(typed[..|typed| - 1]) + [typed[|typed| - 1].grade]
    else OtherGrades(typed[..|typed| - 1])
  }

  lemma OtherGradesSnoc(typed: seq<Typed>, t: Typed)
    ensures t.source.Other? ==> OtherGrades(typed + [t]) == OtherGrades(typed) + [t.grade]
    ensures t.source.Named? ==> OtherGrades(typed + [t]) == OtherGrades(typed)
  {
    assert (typed + [t])[..|typed|] == typed;
  }

  /** The "other" lines take the queue's head each time, in order: the grades typed on
      them followed by what is left of the queue are the queue. */
  lemma {:induction false} LinesFifo(st: LineState, lines: seq<FormLine>, i: nat)
    requires Lines(st, lines, i).Done?
    ensures OtherGrades(Lines(st, lines, i).value.typed) + Lines(st, lines, i).value.special
            == OtherGrades(st.typed) + st.special
    decreases |lines|
  {
    if lines != [] {
      var a := LineAction(st, lines[0]).value;
      var next := Apply(st, a, i);
      assert Lines(st, lines, i) == Lines(next, lines[1..], i + 1);
      LinesFifo(next, lines[1..], i + 1);
      ApplyFifo(st, a, i);
    }
  }

  /** One line keeps the "other" grades typed so far followed by the queue. */
  lemma ApplyFifo(st: LineState, a: Action, i: nat)
    requires a.TakeOther? ==> |st.special| > 0
    requires a.TakeNamed? ==> Get(st.scores, a.subject).Some?
    ensures OtherGrades(Apply(st, a, i).typed) + Apply(st, a, i).special == OtherGrades(st.typed) + st.special
  {
    match a
    case Skip =>
    case TakeOther =>
      OtherGradesSnoc(st.typed, Typed(i, Other, st.special[0]));
      assert [st.special[0]] + st.special[1..] == st.special;
    case TakeNamed(name) =>
      OtherGradesSnoc(st.typed, Typed(i, Named(name), Get(st.scores, name).value));
  }

  /** Each named subject is typed at most once, with its own grade, and is gone from
      the remaining subjects afterwards; every remaining subject kept its grade. */
  ghost predicate NamedOnce(original: Dict<Grade>, st: LineState) {
    DistinctKeys(st.scores)
    && (forall k :: Get(st.scores, k).Some? ==> Get(st.scores, k) == Get(original, k))
    && (forall j :: 0 <= j < |st.typed| && st.typed[j].source.Named? ==>
          Get(original, st.typed[j].source.subject) == Some(st.typed[j].grade)
          && Get(st.scores, st.typed[j].source.subject).None?)
    && (forall j, k :: 0 <= j < k < |st.typed| && st.typed[j].source.Named? && st.typed[k].source.Named? ==>
          st.typed[j].source.subject != st.typed[k].source.subject)
  }

  lemma ApplyNamedOnce(original: Dict<Grade>, st: LineState, a: Action, i: nat)
    requires NamedOnce(original, st)
    requires a.TakeOther? ==> |st.special| > 0
    requires a.TakeNamed? ==> Get(st.scores, a.subject).Some?
    ensures NamedOnce(original, Apply(st, a, i))
  {
    if a.TakeNamed? {
      var name := a.subject;
      var next := Apply(st, a, i);
      DistinctRemove(st.scores, name);
      forall k | Get(next.scores, k).Some? ensures Get(next.scores, k) == Get(original, k) {
        GetRemove(st.scores, name, k);
      }
      forall j | 0 <= j < |next.typed| && next.typed[j].source.Named?
        ensures Get(original, next.typed[j].source.subject) == Some(next.typed[j].grade)
        ensures Get(next.scores, next.typed[j].source.subject).None?
      {
        GetRemove(st.scores, name, next.typed[j].source.subject);
      }
    }
  }

  lemma {:induction false} LinesNamedOnce(original: Dict<Grade>, st: LineState, lines: seq<FormLine>, i: nat)
    requires NamedOnce(original, st) && Lines(st, lines, i).Done?
    ensures NamedOnce(original, Lines(st, lines, i).value)
    decreases |lines|
  {
    if lines != [] {
      var a := LineAction(st, lines[0]).value;
      ApplyNamedOnce(original, st, a, i);
      LinesNamedOnce(original, Apply(st, a, i), lines[1..], i + 1);
    }
  }

  /** What the grade sheet is filled with, starting from the caller's subjects. */
  function TypedLines(scores: Dict<Grade>, lines: seq<FormLine>): Outcome<LineState> {
    var renamed := Renamed(scores, SubjectNames);
    Lines(LineState(InFormPart(renamed, InForm), SpecialPart(renamed, InForm), []), lines, 0)
  }

  /** The preparation keeps only listed subjects for the named lines and queues the
      rest without inventing any value; the filled sheet takes the queue in order and
      each listed subject at most once. */
  lemma TypedLinesShape(scores: Dict<Grade>, lines: seq<FormLine>)
    requires DistinctKeys(scores)
    ensures var renamed := Renamed(scores, SubjectNames);
      (forall i :: 0 <= i < |InFormPart(renamed, InForm)| ==> InFormPart(renamed, InForm)[i].0 in InForm)
      && multiset(ValuesOf(InFormPart(renamed, InForm))) + multiset(SpecialPart(renamed, InForm)) <= multiset(ValuesOf(scores))
    ensures TypedLines(scores, lines).Done? ==>
      var renamed := Renamed(scores, SubjectNames);
      var fin := TypedLines(scores, lines).value;
      OtherGrades(fin.typed) + fin.special == SpecialPart(renamed, InForm)
      && NamedOnce(InFormPart(renamed, InForm), fin)
  {
    var renamed := Renamed(scores, SubjectNames);
    InFormPartIn(renamed, InForm);
    SplitLosesNothing(renamed, InForm);
    RenameAllValues(scores, KeysOf(scores), SubjectNames);
    if TypedLines(scores, lines).Done? {
      var st := LineState(InFormPart(renamed, InForm), SpecialPart(renamed, InForm), []);
      LinesFifo(st, lines, 0);
      SubjectNamesShape();
      DistinctKeysOf(scores);
      RenameAllDistinct(scores, KeysOf(scores), SubjectNames);
      InFormPartDistinct(renamed, InForm);
      LinesNamedOnce(InFormPart(renamed, InForm), st, lines, 0);
    }
  }

  // ---------------------------------------------------------------------------
  // The pages and the whole response

  /** The three pages: the grade sheet (its lines, and the result cell it shows for
      what was typed), the calculator (its section scores for the grade-sheet result,
      the `psycho_score` typed and whether the bonus was clicked), and the subject
      page's two thresholds. */
  datatype TauPages = TauPages(
    lines: seq<FormLine>,
    gradeSheet: seq<Typed> -> Outcome<string>,
    calculator: (string, Json, bool) -> Outcome<map<string, string>>,
    thresholds: Outcome<(string, string)>)

  /** `get_tlv_match_scores`: the section scores, or the exception on the way. */
  function MatchScores(fields: map<string, Json>, scores: Option<Dict<Grade>>, pages: TauPages): (r: Outcome<map<string, string>>)
    ensures "psycho_score" !in fields || scores.None? ==> r == Raised("KeyError")
    ensures r.Done? ==>
      "psycho_score" in fields && scores.Some? && TypedLines(scores.value, pages.lines).Done?
      && pages.gradeSheet(TypedLines(scores.value, pages.lines).value.typed).Done?
      && Bonus(scores.value).Done? && Get(scores.value, "מתמטיקה").Some?
      && r == pages.calculator(Replace(pages.gradeSheet(TypedLines(scores.value, pages.lines).value.typed).value, " ", ""),
                               fields["psycho_score"], Bonus(scores.value).value)
  {
    if "psycho_score" !in fields || scores.None? then Raised("KeyError")
    else match TypedLines(scores.value, pages.lines)
      case Raised(e) => Raised(e)
      case Done(fin) =>
        match pages.gradeSheet(fin.typed)
        case Raised(e) => Raised(e)
        case Done(text) =>
          match Bonus(scores.value)
          case Raised(e) => Raised(e)
          case Done(bonus) => pages.calculator(Replace(text, " ", ""), fields["psycho_score"], bonus)
  }

  /** `is_accepted_per_subject` for the subject name `subject`. */
  function AcceptedPerSubject(subject: string, matchScores: map<string, string>, thresholds: Outcome<(string, string)>): (r: Outcome<Verdict>)
    ensures subject !in SubjectUrls ==> r == Raised("KeyError")
    ensures subject in SubjectUrls && thresholds.Raised? ==> r == Raised(thresholds.error)
    ensures r.Done? ==>
      thresholds.Done? && subject in Sections && Sections[subject] in matchScores
      && ParseInt(matchScores[Sections[subject]]).Some?
      && ParseInt(thresholds.value.0).Some? && ParseInt(thresholds.value.1).Some?
      && (r.value == Accept <==> ParseInt(matchScores[Sections[subject]]).value >= ParseInt(thresholds.value.0).value)
      && (r.value == Reject <==>
            ParseInt(matchScores[Sections[subject]]).value < ParseInt(thresholds.value.0).value
            && ParseInt(matchScores[Sections[subject]]).value < ParseInt(thresholds.value.1).value)
  {
    if subject !in SubjectUrls then Raised("KeyError")
    else if thresholds.Raised? then Raised(thresholds.error)
    else if ParseInt(thresholds.value.0).None? || ParseInt(thresholds.value.1).None? then Raised("ValueError")
    else if subject !in Sections || Sections[subject] !in matchScores then Raised("KeyError")
    else if ParseInt(matchScores[Sections[subject]]).None? then Raised("ValueError")
    else Done(Classify(ParseInt(matchScores[Sections[subject]]).value,
                       ParseInt(thresholds.value.0).value, ParseInt(thresholds.value.1).value))
  }

  /** The subject `run` hands to the general branch. */
  function GeneralSubject(subject: string): string {
    if subject in AlternativeNames then AlternativeNames[subject] else subject
  }

  /** The response of `run`, with `judged` the subject name the general branch's
      verdict is looked up under. */
  function AnswerWith(fields: map<string, Json>, scores: Option<Dict<Grade>>, pages: TauPages, judged: string -> string): (r: Outcome<Admission>)
    ensures r.Done? ==>
      "subject" in fields && fields["subject"].JStr? && fields["subject"].s in SubjectUrls
      && r.value.url == SubjectUrls[fields["subject"].s]
      && (r.value.isAccepted.None? <==> fields["subject"].s == "הנדסה אזרחית")
      && r.value.message.Some?
      && r.value.message.value in {"", MedicineMessage, CivilEngineeringMessage}
    ensures "subject" in fields && fields["subject"].JStr? && fields["subject"].s !in SubjectUrls ==> r == Raised("KeyError")
  {
    if "subject" !in fields then Raised("KeyError")
    else if !Hashable(fields["subject"]) then Raised("TypeError")
    else if !fields["subject"].JStr? || fields["subject"].s !in SubjectUrls then Raised("KeyError")
    else
      var subject := fields["subject"].s;
      var url := SubjectUrls[subject];
      if subject == "רפואה" || subject == "פיזיותרפיה" then
        match MedicineThreshold(subject, fields, scores)
        case Raised(e) => Raised(e)
        case Done(v) => Done(Admission(Some(v), url, Some(MedicineMessage)))
      else if subject == "הנדסה אזרחית" then Done(Admission(None, url, Some(CivilEngineeringMessage)))
      else
        match MatchScores(fields, scores, pages)
        case Raised(e) => Raised(e)
        case Done(ms) =>
          match AcceptedPerSubject(judged(subject), ms, pages.thresholds)
          case Raised(e) => Raised(e)
          case Done(v) => Done(Admission(Some(v), url, Some("")))
  }

  /** `run(data)` as written: the general branch judges the renamed subject. */
  function Answer(fields: map<string, Json>, scores: Option<Dict<Grade>>, pages: TauPages): (r: Outcome<Admission>)
    ensures r.Done? ==>
      "subject" in fields && fields["subject"].JStr? && fields["subject"].s in SubjectUrls
      && fields["subject"].s !in AlternativeNames
  {
    if "subject" in fields && fields["subject"].JStr? && fields["subject"].s in AlternativeNames then
      AlternativeNamesShape(fields["subject"].s);
      AnswerWith(fields, scores, pages, GeneralSubject)
    else
      AnswerWith(fields, scores, pages, GeneralSubject)
  }

  /** `run(data)` judging the subject under the name it was requested with. */
  function AnswerCorrected(fields: map<string, Json>, scores: Option<Dict<Grade>>, pages: TauPages): Outcome<Admission> {
    AnswerWith(fields, scores, pages, s => s)
  }

  /** Medicine and physiotherapy are answered by the threshold rule alone, with the
      fixed message and the subject's own page; no page is read. */
  lemma AnswerMedicine(fields: map<string, Json>, scores: Option<Dict<Grade>>, pages: TauPages)
    requires "subject" in fields && (fields["subject"] == JStr("רפואה") || fields["subject"] == JStr("פיזיותרפיה"))
    ensures Answer(fields, scores, pages).Done? <==> MedicineThreshold(fields["subject"].s, fields, scores).Done?
    ensures Answer(fields, scores, pages).Done? ==>
      Answer(fields, scores, pages).value ==
        Admission(Some(MedicineThreshold(fields["subject"].s, fields, scores).value),
                  SubjectUrls[fields["subject"].s], Some(MedicineMessage))
  {
  }

  /** Civil engineering is answered with no verdict and the fixed message. */
  lemma AnswerCivilEngineering(fields: map<string, Json>, scores: Option<Dict<Grade>>, pages: TauPages)
    requires "subject" in fields && fields["subject"] == JStr("הנדסה אזרחית")
    ensures Answer(fields, scores, pages) ==
      Done(Admission(None, "https://engineering.tau.ac.il/welcome_undergrad", Some(CivilEngineeringMessage)))
  {
  }

  /** A subject with no page raises before anything else happens. */
  lemma AnswerUnknownSubject(fields: map<string, Json>, scores: Option<Dict<Grade>>, pages: TauPages)
    requires "subject" in fields && fields["subject"].JStr? && fields["subject"].s !in SubjectUrls
    ensures Answer(fields, scores, pages).Raised?
  {
  }

  /** As written, the four subjects with an alternative name never get an answer: the
      general branch looks the renamed subject up in the page table, which lacks it. */
  lemma RenamedSubjectRaises(fields: map<string, Json>, scores: Option<Dict<Grade>>, pages: TauPages)
    requires "subject" in fields && fields["subject"].JStr? && fields["subject"].s in AlternativeNames
    ensures Answer(fields, scores, pages).Raised?
  {
    AlternativeNamesShape(fields["subject"].s);
  }

  /** Judged under the requested name, those subjects get the threshold verdict of
      their own page and section. */
  lemma CorrectedRenamedSubject(fields: map<string, Json>, scores: Option<Dict<Grade>>, pages: TauPages, ms: map<string, string>)
    requires "subject" in fields && fields["subject"].JStr? && fields["subject"].s in AlternativeNames
    requires MatchScores(fields, scores, pages) == Done(ms)
    requires AcceptedPerSubject(fields["subject"].s, ms, pages.thresholds).Done?
    ensures AnswerCorrected(fields, scores, pages) ==
      Done(Admission(Some(AcceptedPerSubject(fields["subject"].s, ms, pages.thresholds).value),
                     SubjectUrls[fields["subject"].s], Some("")))
  {
    AlternativeNamesShape(fields["subject"].s);
  }

  /** A subject outside the special cases with no alternative name is judged the same
      either way. */
  lemma CorrectedAgrees(fields: map<string, Json>, scores: Option<Dict<Grade>>, pages: TauPages)
    requires "subject" in fields && fields["subject"].JStr? && fields["subject"].s !in AlternativeNames
    ensures AnswerCorrected(fields, scores, pages) == Answer(fields, scores, pages)
  {
  }

  // ---------------------------------------------------------------------------
  // The adapter's `run`, on the request object

  /** `get_tlv_highschool_score` up to the grade sheet's result: works on a copy of
      the caller's subjects. */
  method FillGradeSheet(hs: ScoreSheet, lines: seq<FormLine>) returns (r: Outcome<LineState>)
    requires hs.Valid()
    ensures r == TypedLines(hs.entries, lines)
  {
    var scores := new ScoreSheet(hs.entries);
    scores.RenameKeys(SubjectNames);
    var special := SplitSpecial(scores, InForm);
    r := FillLines(scores.entries, special, lines);
  }

  /** `run(data)`: `req.fields["subject"]` is overwritten with the alternative name in
      the general branch when there is one; the caller's subjects are left as they
      were. */
  method Run(req: RequestData, pages: TauPages) returns (out: Outcome<Admission>)
    requires req.highschoolScores != null ==> req.highschoolScores.Valid()
    modifies req
    ensures out == Answer(old(req.fields), if req.highschoolScores == null then None else Some(req.highschoolScores.entries), pages)
    ensures req.highschoolScores == old(req.highschoolScores)
    ensures req.fields == if RenamesSubject(old(req.fields))
                          then old(req.fields)["subject" := JStr(AlternativeNames[old(req.fields)["subject"].s])]
                          else old(req.fields)
  {
    var scores: Option<Dict<Grade>> := if req.highschoolScores == null then None else Some(req.highschoolScores.entries);
    if "subject" !in req.fields {
      return Raised("KeyError");
    }
    var subjectValue := req.fields["subject"];
    if !Hashable(subjectValue) {
      return Raised("TypeError");
    }
    if !subjectValue.JStr? || subjectValue.s !in SubjectUrls {
      return Raised("KeyError");
    }
    var subject := subjectValue.s;
    var url := SubjectUrls[subject];
    if subject == "רפואה" || subject == "פיזיותרפיה" {
      var result := MedicineThreshold(subject, req.fields, scores);
      if result.Raised? {
        return Raised(result.error);
      }
      return Done(Admission(Some(result.value), url, Some(MedicineMessage)));
    } else if subject == "הנדסה אזרחית" {
      return Done(Admission(None, url, Some(CivilEngineeringMessage)));
    }
    ghost var fields0 := req.fields;
    if subject in AlternativeNames {
      req.fields := req.fields["subject" := JStr(AlternativeNames[subject])];
    }
    out := GeneralBranch(req, pages, url, fields0);
  }

  /** `run` overwrites the subject: it reaches the general branch with an alternative
      name. */
  predicate RenamesSubject(fields: map<string, Json>) {
    "subject" in fields && fields["subject"].JStr? && fields["subject"].s in SubjectUrls
    && fields["subject"].s in AlternativeNames
  }

  /** The general branch of `run`, reading the (possibly renamed) subject back from
      the request. */
  method GeneralBranch(req: RequestData, pages: TauPages, url: string, ghost fields0: map<string, Json>) returns (out: Outcome<Admission>)
    requires req.highschoolScores != null ==> req.highschoolScores.Valid()
    requires "subject" in fields0 && fields0["subject"].JStr? && fields0["subject"].s in SubjectUrls
    requires fields0["subject"].s != "רפואה" && fields0["subject"].s != "פיזיותרפיה" && fields0["subject"].s != "הנדסה אזרחית"
    requires req.fields == fields0["subject" := JStr(GeneralSubject(fields0["subject"].s))]
    requires url == SubjectUrls[fields0["subject"].s]
    ensures out == Answer(fields0, if req.highschoolScores == null then None else Some(req.highschoolScores.entries), pages)
  {
    var scores: Option<Dict<Grade>> := if req.highschoolScores == null then None else Some(req.highschoolScores.entries);
    assert MatchScores(req.fields, scores, pages) == MatchScores(fields0, scores, pages);
    if "psycho_score" !in req.fields || req.highschoolScores == null {
      return Raised("KeyError");
    }
    var typed := FillGradeSheet(req.highschoolScores, pages.lines);
    if typed.Raised? {
      return Raised(typed.error);
    }
    var sheet := pages.gradeSheet(typed.value.typed);
    if sheet.Raised? {
      return Raised(sheet.error);
    }
    var bonus := Bonus(req.highschoolScores.entries);
    if bonus.Raised? {
      return Raised(bonus.error);
    }
    var ms := pages.calculator(Replace(sheet.value, " ", ""), req.fields["psycho_score"], bonus.value);
    if ms.Raised? {
      return Raised(ms.error);
    }
    var verdict := AcceptedPerSubject(req.fields["subject"].s, ms.value, pages.thresholds);
    if verdict.Raised? {
      return Raised(verdict.error);
    }
    out := Done(Admission(Some(verdict.value), url, Some("")));
  }
}
