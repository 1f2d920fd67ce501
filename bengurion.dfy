/** The decision logic of the Ben-Gurion University adapter: request normalisation,
    early rejection, renaming of subject names, degree-name cleaning, the layered match
    of requested degrees against the scraped list of accepted degrees, the mapping of
    that result to the public response, the bounded-retry element search, and the
    browser-session fields. Every page interaction is an input: the scraped
    accepted-degree lines (or the exception the wizard raised) and a "does selector `s`
    find the element on attempt `k`" oracle. */
module BenGurion {
  import opened Wrappers
  import opened Text
  import opened PyData
  import opened Admissions

  const BaseUrl := "https://www.bgu.ac.il/welcome/ba/calculator/"
  const NoLawMessage := "לא קיים תואר משפטים בבן גוריון"
  const NoBusinessMessage := "לא קיים תואר מנהל עסקים בבן גוריון"
  const NoDegreeMessage := "לא צוין תחום לימוד לבדיקה"
  const NoResultsPrefix := "לא נמצאו תוצאות עבור תחום הלימוד "
  /** The per-degree marks the matching loop records. */
  const AcceptedMark := "התקבלתי"
  const RejectedMark := "לא התקבלתי"

  // ---------------------------------------------------------------------------
  // Request normalisation

  /** `d.get(k, default)` on the request body. */
  function GetOr(fields: map<string, Json>, k: string, default: Json): Json {
    if k in fields then fields[k] else default
  }

  /** Law and business administration are answered before any browser is started. */
  function UnsupportedSubject(subject: Json): (r: Option<Admission>)
    ensures r.Some? <==> subject == JStr("משפטים") || subject == JStr("מנהל עסקים")
    ensures r.Some? ==> r.value.isAccepted == None && r.value.url == BaseUrl
    ensures subject == JStr("משפטים") ==> r == Some(Admission(None, BaseUrl, Some(NoLawMessage)))
    ensures subject == JStr("מנהל עסקים") ==> r == Some(Admission(None, BaseUrl, Some(NoBusinessMessage)))
  {
    if subject == JStr("משפטים") then Some(Admission(None, BaseUrl, Some(NoLawMessage)))
    else if subject == JStr("מנהל עסקים") then Some(Admission(None, BaseUrl, Some(NoBusinessMessage)))
    else None
  }

  /** The four psychometric keys, with `psycho_hebrew` feeding `verbal`. */
  function PsychometricOf(total: Json, math: Json, verbal: Json, english: Json): Json {
    JObj(map["total" := total, "math" := math, "verbal" := verbal, "english" := english])
  }

  /** The request with `psychometric` filled in: from the flat `psycho_*` fields when
      `psycho_score` is present (a missing one counts as 0), kept as given when only
      `psychometric` is present, all zeros when neither is. */
  function NormalizePsychometric(fields: map<string, Json>): (r: map<string, Json>)
    ensures "psychometric" in r
    ensures forall k :: k in fields && k != "psychometric" ==> k in r && r[k] == fields[k]
    ensures forall k :: k in r ==> k in fields || k == "psychometric"
    ensures "psycho_score" in fields ==>
      r["psychometric"] == PsychometricOf(fields["psycho_score"], GetOr(fields, "psycho_math", JInt(0)),
                                          GetOr(fields, "psycho_hebrew", JInt(0)), GetOr(fields, "psycho_english", JInt(0)))
    ensures "psycho_score" !in fields && "psychometric" in fields ==> r == fields
    ensures "psycho_score" !in fields && "psychometric" !in fields ==>
      r["psychometric"] == PsychometricOf(JInt(0), JInt(0), JInt(0), JInt(0))
  {
    if "psycho_score" in fields then
      fields["psychometric" := PsychometricOf(GetOr(fields, "psycho_score", JInt(0)),
                                              GetOr(fields, "psycho_math", JInt(0)),
                                              GetOr(fields, "psycho_hebrew", JInt(0)),
                                              GetOr(fields, "psycho_english", JInt(0)))]
    else if "psychometric" !in fields then
      fields["psychometric" := PsychometricOf(JInt(0), JInt(0), JInt(0), JInt(0))]
    else fields
  }

  /** `degrees_to_check` made a list: a string becomes a one-element list, a list is
      kept, anything else (and a missing key) gives the empty list. */
  function CoerceDegrees(raw: Json): (r: seq<Json>)
    ensures raw.JStr? ==> r == [raw]
    ensures raw.JList? ==> r == raw.items
    ensures !raw.JStr? && !raw.JList? ==> r == []
  {
    match raw
    case JStr(_) => [raw]
    case JList(xs) => xs
    case _ => []
  }

  /** The degrees the matching loop checks: the coerced list, or `[subject]` when it
      is empty. */
  function DegreesToCheck(fields: map<string, Json>): (r: seq<Json>)
    ensures CoerceDegrees(GetOr(fields, "degrees_to_check", JList([]))) != [] ==>
      r == CoerceDegrees(GetOr(fields, "degrees_to_check", JList([])))
    ensures CoerceDegrees(GetOr(fields, "degrees_to_check", JList([]))) == [] ==>
      r == if "subject" in fields then [fields["subject"]] else []
  {
    var coerced := CoerceDegrees(GetOr(fields, "degrees_to_check", JList([])));
    if coerced == [] && "subject" in fields then [fields["subject"]] else coerced
  }

  /** The degree the response is about: `requested_degree`, else `degree`, else the
      first of a non-empty `degrees_to_check` (the string itself when it is a string,
      `subject` when it is neither string nor list), else `subject`. `JNull` when none
      applies; `len()` of a value without a length raises. */
  function RequestedDegree(fields: map<string, Json>): (r: Outcome<Json>)
    ensures "requested_degree" in fields ==> r == Done(fields["requested_degree"])
    ensures "requested_degree" !in fields && "degree" in fields ==> r == Done(fields["degree"])
    ensures r.Raised? <==>
      "requested_degree" !in fields && "degree" !in fields && "degrees_to_check" in fields
      && PyLen(fields["degrees_to_check"]).None?
    ensures "requested_degree" !in fields && "degree" !in fields && "degrees_to_check" !in fields ==>
      r == Done(GetOr(fields, "subject", JNull))
  {
    if "requested_degree" in fields then Done(fields["requested_degree"])
    else if "degree" in fields then Done(fields["degree"])
    else if "degrees_to_check" in fields && PyLen(fields["degrees_to_check"]).None? then Raised("TypeError")
    else if "degrees_to_check" in fields && PyLen(fields["degrees_to_check"]).value > 0 then
      match fields["degrees_to_check"]
      case JList(xs) => Done(xs[0])
      case JStr(_) => Done(fields["degrees_to_check"])
      case _ => Done(GetOr(fields, "subject", JNull))
    else Done(GetOr(fields, "subject", JNull))
  }

  /** The public response for the requested degree, given the per-degree marks of the
      matching loop. */
  function MapVerdict(requested: Json, results: map<string, string>): (r: Outcome<Admission>)
    ensures !Truthy(requested) ==> r == Done(Admission(None, BaseUrl, Some(NoDegreeMessage)))
    ensures Truthy(requested) && !Hashable(requested) ==> r.Raised?
    ensures r.Done? ==> r.value.url == BaseUrl
    ensures Truthy(requested) && requested.JStr? && requested.s in results ==>
      r.Done? && r.value.isAccepted == Some(if results[requested.s] == AcceptedMark then Accept else Reject)
    ensures Truthy(requested) && requested.JStr? && requested.s in results ==>
      r.Done? && r.value.message == Some((if results[requested.s] == AcceptedMark then "התקבלת" else "לא התקבלת") + " לתואר " + requested.s)
    ensures Truthy(requested) && Hashable(requested) && !(requested.JStr? && requested.s in results) ==>
      r == Done(Admission(None, BaseUrl, Some(NoResultsPrefix + ScalarText(requested))))
  {
    if !Truthy(requested) then Done(Admission(None, BaseUrl, Some(NoDegreeMessage)))
    else if !Hashable(requested) then Raised("TypeError")
    else if requested.JStr? && requested.s in results then
      var accepted := results[requested.s] == AcceptedMark;
      Done(Admission(Some(if accepted then Accept else Reject), BaseUrl,
                     Some((if accepted then "התקבלת" else "לא התקבלת") + " לתואר " + requested.s)))
    else Done(Admission(None, BaseUrl, Some(NoResultsPrefix + ScalarText(requested))))
  }

  // ---------------------------------------------------------------------------
  // Name tables

  /** Request degree names to the names on the acceptance list. */
  const DegreeMapping: map<string, string> := map[
    "חינוך והוראה" := "חינוך והוראה",
    "מדעי המחשב" := "מדעי המחשב",
    "משפטים" := "משפטים",
    "מנהל עסקים" := "ניהול",
    "סיעוד" := "סיעוד",
    "הנדסת מכונות" := "הנדסת מכונות",
    "הנדסה אזרחית/הנדסת בנייין" := "הנדסה אזרחית/הנדסת בנייין",
    "פסיכולוגיה" := "פסיכולוגיה",
    "כלכלה" := "כלכלה",
    "הנדסה תעשייה וניהול" := "הנדסה תעשייה וניהול",
    "הנדסת חשמל" := "הנדסת חשמל",
    "הנדסת ביוטכנולוגיה" := "הנדסת ביוטכנולוגיה",
    "הנדסה ביורפואית" := "הנדסה ביורפואית",
    "רפואה" := "רפואה",
    "עבודה סוציאלית" := "עבודה סוציאלית",
    "הנדסת חומרים" := "הנדסת חומרים",
    "מדעי המוח וקוגניציה" := "מדעי המוח וקוגניציה",
    "פיזיקה" := "פיזיקה",
    "מתמטיקה" := "מתמטיקה",
    "פיזיותרפיה" := "פיזיותרפיה",
    "ריפוי בעיסוק" := "ריפוי בעיסוק",
    "הנדסת מחשבים" := "הנדסת מחשבים"
  ]

  /** `degree_mapping.get(degree, degree)` */
  function SiteDegreeName(degree: string): (r: string)
    ensures degree !in DegreeMapping ==> r == degree
    ensures degree in DegreeMapping ==> r == DegreeMapping[degree]
  {
    if degree in DegreeMapping then DegreeMapping[degree] else degree
  }

  /** Caller subject names to the calculator's names. */
  const SubjectNames: map<string, string> := map[
    "עברית: הבנה, הבעה ולשון" := "הבעה עברית",
    "פיזיקה" := "פיסיקה",
    "חינוך פיננסי" := "כלכלה",
    "לימודי ארץ ישראל וארכיאולוגיה" := "לימודי ארץ ישראל",
    "מערכות מידע" := "מערכות מידענות ממוחשבות",
    "מוזיקה" := "מוסיקה"
  ]

  /** No site name is itself renamed, and no two caller names share a site name. */
  lemma SubjectNamesShape()
    ensures NoChains(SubjectNames) && InjectiveTable(SubjectNames)
  {
    SubjectNamesNoChains();
    SubjectNamesInjective();
  }

  lemma SubjectNamesNoChains()
    ensures NoChains(SubjectNames)
  {
  }

  lemma SubjectNamesInjective()
    ensures InjectiveTable(SubjectNames)
  {
  }

  // ---------------------------------------------------------------------------
  // Renaming the caller's subject names, in place

  /** Renames the caller's `highschool_scores` object itself. */
  method AdaptHighschoolScores(scores: ScoreSheet)
    requires scores.Valid()
    modifies scores
    ensures scores.Valid() && scores.entries == Renamed(old(scores.entries), SubjectNames)
  {
    scores.RenameKeys(SubjectNames);
  }

  /** A renamed subject's value moves to its site name. */
  lemma AdaptMovesRenamed(d: Dict<Grade>, s: string)
    requires DistinctKeys(d) && s in SubjectNames && Get(d, s).Some?
    ensures Get(Renamed(d, SubjectNames), SubjectNames[s]) == Get(d, s)
    ensures Get(Renamed(d, SubjectNames), s) == None
  {
    SubjectNamesShape();
    DistinctKeysOf(d);
    GetSomeIffKey(d, s);
    var x := SubjectNames[s];
    RenameAllGet(d, KeysOf(d), SubjectNames, x);
    RenameAllGet(d, KeysOf(d), SubjectNames, s);
    var src := RenameSource(SubjectNames, KeysOf(d), x);
    if src.None? {
      RenameSourceSome(SubjectNames, KeysOf(d), s, x);
    }
  }

  /** A subject that is not renamed, and that no present subject is renamed to, keeps
      its value. */
  lemma AdaptKeepsOthers(d: Dict<Grade>, x: string)
    requires DistinctKeys(d) && x !in SubjectNames
    requires forall s :: s in SubjectNames && Get(d, s).Some? ==> SubjectNames[s] != x
    ensures Get(Renamed(d, SubjectNames), x) == Get(d, x)
  {
    SubjectNamesShape();
    DistinctKeysOf(d);
    forall s | s in KeysOf(d) && s in SubjectNames ensures SubjectNames[s] != x {
      GetSomeIffKey(d, s);
    }
    RenameSourceNone(SubjectNames, KeysOf(d), x);
    RenameAllGet(d, KeysOf(d), SubjectNames, x);
  }

  /** The renaming never invents or duplicates a value. */
  lemma AdaptInventsNothing(d: Dict<Grade>)
    requires DistinctKeys(d)
    ensures multiset(ValuesOf(Renamed(d, SubjectNames))) <= multiset(ValuesOf(d))
  {
    RenameAllValues(d, KeysOf(d), SubjectNames);
  }

  /** A subject that is already a site name loses its value when a caller name is
      renamed onto it: "כלכלה" takes the value of "חינוך פיננסי". */
  lemma AdaptOverwritesSiteName(g1: Grade, g2: Grade)
    requires g1 != g2
    ensures Get(Renamed([("כלכלה", g1), ("חינוך פיננסי", g2)], SubjectNames), "כלכלה") == Some(g2)
  {
    AdaptMovesRenamed([("כלכלה", g1), ("חינוך פיננסי", g2)], "חינוך פיננסי");
  }

  lemma {:induction false} RenameSourceSome(table: map<string, string>, ks: seq<string>, s: string, x: string)
    requires s in ks && s in table && table[s] == x
    ensures RenameSource(table, ks, x).Some?
    decreases |ks|
  {
    if ks[0] != s {
      RenameSourceSome(table, ks[1..], s, x);
    }
  }

  // ---------------------------------------------------------------------------
  // Degree-name cleaning

  /** The qualifiers the matching ignores, in the order they are removed. */
  const Qualifiers: seq<string> := [
    "חד מחלקתי", "דו מחלקתי", "ראשי", "משני",
    "מסלול", "התמחות", "מגמה", "תכנית", "מסלול"
  ]

  predicate NonEmptyAll(qs: seq<string>) {
    forall i :: 0 <= i < |qs| ==> |qs[i]| > 0
  }

  /** Both removals for one qualifier: `" q"` first, then `"q "`. */
  function RemoveQualifier(s: string, q: string): string
    requires |q| > 0
  {
    Replace(Replace(s, " " + q, ""), q + " ", "")
  }

  /** The removals for `qs[0]`, then `qs[1]`, ... */
  function RemoveQualifiers(s: string, qs: seq<string>): string
    requires NonEmptyAll(qs)
    decreases |qs|
  {
    if qs == [] then s else RemoveQualifier(RemoveQualifiers(s, qs[..|qs| - 1]), qs[|qs| - 1])
  }

  /** `_clean_degree_name(s)`: the qualifiers removed, then stripped, so a cleaned name
      never starts or ends with whitespace. */
  function Cleaned(s: string): (r: string)
    ensures IsStripped(r)
  {
    StripIsStripped(RemoveQualifiers(s, Qualifiers));
    Strip(RemoveQualifiers(s, Qualifiers))
  }

  method CleanDegreeName(name: string) returns (r: string)
    ensures r == Cleaned(name)
  {
    var cleaned := name;
    for i := 0 to |Qualifiers|
      invariant cleaned == RemoveQualifiers(name, Qualifiers[..i])
    {
      assert Qualifiers[..i + 1][..i] == Qualifiers[..i];
      cleaned := Replace(cleaned, " " + Qualifiers[i], "");
      cleaned := Replace(cleaned, Qualifiers[i] + " ", "");
    }
    assert Qualifiers[..|Qualifiers|] == Qualifiers;
    r := Strip(cleaned);
  }

  lemma {:induction false} RemoveQualifiersAbsent(s: string, qs: seq<string>)
    requires NonEmptyAll(qs)
    requires forall i :: 0 <= i < |qs| ==> !Contains(s, qs[i])
    ensures RemoveQualifiers(s, qs) == s
    decreases |qs|
  {
    if qs != [] {
      var q := qs[|qs| - 1];
      RemoveQualifiersAbsent(s, qs[..|qs| - 1]);
      if Contains(s, " " + q) {
        ContainsConcat(s, " ", q);
      }
      ReplaceAbsent(s, " " + q, "");
      if Contains(s, q + " ") {
        ContainsConcat(s, q, " ");
      }
      ReplaceAbsent(s, q + " ", "");
    }
  }

  /** A name containing none of the qualifiers is only stripped. */
  lemma CleanedWithoutQualifiers(s: string)
    requires forall i :: 0 <= i < |Qualifiers| ==> !Contains(s, Qualifiers[i])
    ensures Cleaned(s) == Strip(s)
  {
    RemoveQualifiersAbsent(s, Qualifiers);
  }

  // ---------------------------------------------------------------------------
  // Matching requested degrees against the accepted-degree lines

  /** The five tests of one accepted line against a site degree name, any of which
      accepts: cleaned equality, raw prefix, cleaned prefix, raw substring, cleaned
      substring. */
  predicate LineMatches(siteName: string, line: string) {
    var cleanSite := Cleaned(siteName);
    var cleanLine := Cleaned(line);
    cleanLine == cleanSite || StartsWith(line, siteName) || StartsWith(cleanLine, cleanSite)
    || Contains(line, siteName) || Contains(cleanLine, cleanSite)
  }

  /** Some accepted line matches the degree's site name. */
  predicate DegreeAccepted(degree: string, accepted: seq<string>): (b: bool)
    ensures (exists i :: 0 <= i < |accepted| && accepted[i] == SiteDegreeName(degree)) ==> b
    ensures accepted == [] ==> !b
  {
    exists i :: 0 <= i < |accepted| && LineMatches(SiteDegreeName(degree), accepted[i])
  }

  /** The mark every requested degree receives, keyed by its request name. */
  function AcceptanceResults(degrees: seq<string>, accepted: seq<string>): (r: map<string, string>)
    ensures r.Keys == set d | d in degrees
    ensures forall d :: d in r ==> r[d] == AcceptedMark || r[d] == RejectedMark
    ensures forall d :: d in r ==> (r[d] == AcceptedMark <==> DegreeAccepted(d, accepted))
  {
    map d | d in degrees :: if DegreeAccepted(d, accepted) then AcceptedMark else RejectedMark
  }

  /** The marks `CheckAcceptanceList` promises are exactly `AcceptanceResults`. */
  lemma AcceptanceResultsAre(degrees: seq<string>, accepted: seq<string>, results: map<string, string>)
    requires results.Keys == set d | d in degrees
    requires forall d :: d in degrees ==>
      (results[d] == AcceptedMark <==> DegreeAccepted(d, accepted))
    requires forall d :: d in degrees ==> results[d] == AcceptedMark || results[d] == RejectedMark
    ensures results == AcceptanceResults(degrees, accepted)
  {
  }

  method CheckAcceptanceList(degrees: seq<string>, accepted: seq<string>) returns (results: map<string, string>)
    ensures results == AcceptanceResults(degrees, accepted)
  {
    results := map[];
    for i := 0 to |degrees|
      invariant results.Keys == set d | d in degrees[..i]
      invariant forall d :: d in results ==> results[d] == if DegreeAccepted(d, accepted) then AcceptedMark else RejectedMark
    {
      var degree := degrees[i];
      var siteName := SiteDegreeName(degree);
      var cleanSite := CleanDegreeName(siteName);
      var isAccepted := false;
      var j := 0;
      while j < |accepted|
        invariant 0 <= j <= |accepted|
        invariant !isAccepted
        invariant forall k :: 0 <= k < j ==> !LineMatches(siteName, accepted[k])
      {
        var line := accepted[j];
        var cleanLine := CleanDegreeName(line);
        if cleanLine == cleanSite || StartsWith(line, siteName) || StartsWith(cleanLine, cleanSite)
           || Contains(line, siteName) || Contains(cleanLine, cleanSite)
        {
          isAccepted := true;
          break;
        }
        j := j + 1;
      }
      assert isAccepted <==> DegreeAccepted(degree, accepted);
      results := results[degree := if isAccepted then AcceptedMark else RejectedMark];
      assert degrees[..i + 1] == degrees[..i] + [degree];
    }
    assert degrees[..|degrees|] == degrees;
    assert forall d :: d in degrees ==> d in results;
    AcceptanceResultsAre(degrees, accepted, results);
  }

  /** "הנדסת חשמל" is accepted by the line "הנדסת חשמל, חד-חוגי" (raw prefix). */
  lemma ElectricalEngineeringPrefixMatch()
    ensures DegreeAccepted("הנדסת חשמל", ["הנדסת חשמל, חד-חוגי"])
  {
    var line := "הנדסת חשמל, חד-חוגי";
    assert SiteDegreeName("הנדסת חשמל") == "הנדסת חשמל";
    assert line[..|"הנדסת חשמל"|] == "הנדסת חשמל";
    assert StartsWith(line, "הנדסת חשמל");
    assert LineMatches("הנדסת חשמל", ["הנדסת חשמל, חד-חוגי"][0]);
  }

  // ---------------------------------------------------------------------------
  // The whole response

  predicate AllStrings(xs: seq<Json>) {
    forall i :: 0 <= i < |xs| ==> xs[i].JStr?
  }

  /** What the matching loop raises at the first degree that is not a string:
      `degree_mapping.get` raises `TypeError` for a list or a dict, and cleaning any
      other value raises `AttributeError` at its `.replace`. */
  function NonStringError(xs: seq<Json>): (e: string)
    requires !AllStrings(xs)
    ensures e == "TypeError" || e == "AttributeError"
    decreases |xs|
  {
    if xs[0].JStr? then NonStringError(xs[1..])
    else if Hashable(xs[0]) then "AttributeError"
    else "TypeError"
  }

  function StringsOf(xs: seq<Json>): (r: seq<string>)
    requires AllStrings(xs)
    ensures |r| == |xs| && forall i :: 0 <= i < |xs| ==> r[i] == xs[i].s
    decreases |xs|
  {
    if xs == [] then [] else [xs[0].s] + StringsOf(xs[1..])
  }

  /** The response of `run` for the request body `fields`, given the accepted-degree
      lines the wizard scraped, or the exception it raised. A degree to check that is
      not a string fails inside the matching loop. */
  function Answer(fields: map<string, Json>, acceptedLines: Outcome<seq<string>>): (r: Outcome<Admission>)
    ensures "subject" !in fields ==> r == Raised("KeyError")
    ensures r.Done? ==> r.value.url == BaseUrl && r.value.isAccepted != Some(WaitingList)
    ensures acceptedLines.Raised? && "subject" in fields && UnsupportedSubject(fields["subject"]).None? ==>
      r == Raised(acceptedLines.error) || r == Done(Admission(None, BaseUrl, Some(NoLawMessage)))
  {
    if "subject" !in fields then Raised("KeyError")
    else if UnsupportedSubject(fields["subject"]).Some? then Done(UnsupportedSubject(fields["subject"]).value)
    else AnswerAfterStart(fields, acceptedLines)
  }

  /** The part of `Answer` decided after the browser has been started. */
  function AnswerAfterStart(fields: map<string, Json>, acceptedLines: Outcome<seq<string>>): Outcome<Admission> {
    if JStr("משפטים") in CoerceDegrees(GetOr(fields, "degrees_to_check", JList([]))) then
      Done(Admission(None, BaseUrl, Some(NoLawMessage)))
    else if acceptedLines.Raised? then Raised(acceptedLines.error)
    else if !AllStrings(DegreesToCheck(fields)) then Raised(NonStringError(DegreesToCheck(fields)))
    else
      var results := AcceptanceResults(StringsOf(DegreesToCheck(fields)), acceptedLines.value);
      match RequestedDegree(fields)
      case Raised(e) => Raised(e)
      case Done(requested) => MapVerdict(requested, results)
  }

  /** Filling in `psychometric` changes nothing the rest of `run` reads. */
  lemma AnswerIgnoresPsychometric(fields: map<string, Json>, acceptedLines: Outcome<seq<string>>)
    ensures AnswerAfterStart(NormalizePsychometric(fields), acceptedLines) == AnswerAfterStart(fields, acceptedLines)
    ensures ClosesBrowser(NormalizePsychometric(fields), acceptedLines) == ClosesBrowser(fields, acceptedLines)
  {
    var n := NormalizePsychometric(fields);
    assert GetOr(n, "degrees_to_check", JList([])) == GetOr(fields, "degrees_to_check", JList([]));
    assert DegreesToCheck(n) == DegreesToCheck(fields);
    assert RequestedDegree(n) == RequestedDegree(fields);
  }

  /** Law and business administration get a fixed "does not exist" answer, whatever
      the calculator would have shown. */
  lemma AnswerUnsupported(fields: map<string, Json>, acceptedLines: Outcome<seq<string>>)
    requires "subject" in fields
    requires fields["subject"] == JStr("משפטים") || fields["subject"] == JStr("מנהל עסקים")
    ensures Answer(fields, acceptedLines).Done?
    ensures Answer(fields, acceptedLines).value.isAccepted == None
    ensures Answer(fields, acceptedLines).value.url == BaseUrl
    ensures Answer(fields, acceptedLines).value.message ==
      Some(if fields["subject"] == JStr("משפטים") then NoLawMessage else NoBusinessMessage)
  {
  }

  /** With only `subject` naming the degree, the verdict is acceptance exactly when
      some accepted line passes one of the five tests. */
  lemma AnswerForSubject(fields: map<string, Json>, subject: string, lines: seq<string>)
    requires fields.Keys == {"subject"} && fields["subject"] == JStr(subject)
    requires subject != "" && subject != "משפטים" && subject != "מנהל עסקים"
    ensures Answer(fields, Done(lines)).Done?
    ensures Answer(fields, Done(lines)).value.isAccepted ==
      Some(if DegreeAccepted(subject, lines) then Accept else Reject)
  {
    assert DegreesToCheck(fields) == [JStr(subject)];
    assert StringsOf([JStr(subject)]) == [subject];
    assert RequestedDegree(fields) == Done(JStr(subject));
  }

  /** A request with no degree to check at all is answered with the fixed "no field of
      study given" message once the wizard has run. */
  lemma AnswerWithoutDegree(fields: map<string, Json>, lines: seq<string>)
    requires "subject" in fields && fields["subject"] == JStr("")
    requires "requested_degree" !in fields && "degree" !in fields && "degrees_to_check" !in fields
    ensures Answer(fields, Done(lines)) == Done(Admission(None, BaseUrl, Some(NoDegreeMessage)))
  {
    assert DegreesToCheck(fields) == [JStr("")];
    assert StringsOf([JStr("")]) == [""];
  }

  // ---------------------------------------------------------------------------
  // The ordered, bounded-retry element search

  /** The attempts `(selector index, attempt)` for selector `i`, in order. */
  function AttemptsOf(i: nat, maxAttempts: nat): (r: seq<(nat, nat)>)
    ensures |r| == maxAttempts && forall k :: 0 <= k < maxAttempts ==> r[k] == (i, k)
  {
    seq(maxAttempts, k requires 0 <= k < maxAttempts => (i, k))
  }

  /** All attempts of the first `n` selectors, selector by selector. */
  function Schedule(n: nat, maxAttempts: nat): seq<(nat, nat)>
    decreases n
  {
    if n == 0 then [] else Schedule(n - 1, maxAttempts) + AttemptsOf(n - 1, maxAttempts)
  }

  lemma {:induction false} ScheduleShape(n: nat, maxAttempts: nat)
    ensures |Schedule(n, maxAttempts)| == n * maxAttempts
    ensures forall t :: 0 <= t < |Schedule(n, maxAttempts)| ==> Schedule(n, maxAttempts)[t].0 < n
    decreases n
  {
    if n > 0 {
      ScheduleShape(n - 1, maxAttempts);
      assert n * maxAttempts == (n - 1) * maxAttempts + maxAttempts;
    }
  }

  /** The element the first successful attempt finds, trying each selector up to
      `maxAttempts` times before the next. */
  function FirstAttempt<S, E>(s: S, maxAttempts: nat, present: (S, nat) -> Option<E>, k: nat): Option<E>
    decreases maxAttempts - k
  {
    if k >= maxAttempts then None
    else if present(s, k).Some? then present(s, k)
    else FirstAttempt(s, maxAttempts, present, k + 1)
  }

  function FirstPresent<S, E>(selectors: seq<S>, maxAttempts: nat, present: (S, nat) -> Option<E>): Option<E>
    decreases |selectors|
  {
    if selectors == [] then None
    else if FirstAttempt(selectors[0], maxAttempts, present, 0).Some? then FirstAttempt(selectors[0], maxAttempts, present, 0)
    else FirstPresent(selectors[1..], maxAttempts, present)
  }

  lemma {:induction false} FirstAttemptNone<S, E>(s: S, maxAttempts: nat, present: (S, nat) -> Option<E>, k: nat)
    ensures FirstAttempt(s, maxAttempts, present, k).None? <==>
      forall a :: k <= a < maxAttempts ==> present(s, a).None?
    decreases maxAttempts - k
  {
    if k < maxAttempts {
      FirstAttemptNone(s, maxAttempts, present, k + 1);
    }
  }

  /** The search finds nothing exactly when every selector fails on every attempt. */
  lemma {:induction false} FirstPresentNone<S, E>(selectors: seq<S>, maxAttempts: nat, present: (S, nat) -> Option<E>)
    ensures FirstPresent(selectors, maxAttempts, present).None? <==>
      forall i, a :: 0 <= i < |selectors| && 0 <= a < maxAttempts ==> present(selectors[i], a).None?
    decreases |selectors|
  {
    if selectors != [] {
      FirstAttemptNone(selectors[0], maxAttempts, present, 0);
      FirstPresentNone(selectors[1..], maxAttempts, present);
      assert forall i :: 1 <= i < |selectors| ==> selectors[i] == selectors[1..][i - 1];
    }
  }

  /** `_find_element_with_retry`: `tries` records the attempts made, in order. They
      are the schedule's first attempts (selector by selector, each up to
      `maxAttempts` times), every attempt but the last failed, the search stops at the
      first success, and it returns `None` only after all `|selectors| * maxAttempts`
      attempts failed. */
  method FindElementWithRetry<S, E>(selectors: seq<S>, present: (S, nat) -> Option<E>, maxAttempts: nat := 3)
    returns (element: Option<E>, ghost tries: seq<(nat, nat)>)
    ensures element == FirstPresent(selectors, maxAttempts, present)
    ensures |tries| <= |selectors| * maxAttempts == |Schedule(|selectors|, maxAttempts)|
    ensures tries == Schedule(|selectors|, maxAttempts)[..|tries|]
    ensures forall t :: 0 <= t < |tries| ==> tries[t].0 < |selectors|
    ensures forall t :: 0 <= t < |tries| - 1 ==> present(selectors[tries[t].0], tries[t].1).None?
    ensures element.Some? ==> |tries| > 0 && element == present(selectors[tries[|tries| - 1].0], tries[|tries| - 1].1)
    ensures element.None? ==> |tries| == |selectors| * maxAttempts
  {
    tries := [];
    var i := 0;
    while i < |selectors|
      invariant 0 <= i <= |selectors|
      invariant tries == Schedule(i, maxAttempts)
      invariant forall t :: 0 <= t < |tries| ==> tries[t].0 < i && present(selectors[tries[t].0], tries[t].1).None?
      invariant FirstPresent(selectors, maxAttempts, present) == FirstPresent(selectors[i..], maxAttempts, present)
    {
      ScheduleShape(i, maxAttempts);
      var found, n := RetrySelector(selectors[i], present, maxAttempts);
      ghost var before := tries;
      tries := tries + AttemptsOf(i, maxAttempts)[..n];
      if found.Some? {
        element := found;
        FoundSchedule(selectors, present, maxAttempts, i, n, before, tries);
        return;
      }
      assert AttemptsOf(i, maxAttempts)[..maxAttempts] == AttemptsOf(i, maxAttempts);
      AppendedAttempts(selectors, present, before, i, n, tries);
      assert selectors[i..][1..] == selectors[i + 1..];
      i := i + 1;
    }
    element := None;
    ScheduleShape(|selectors|, maxAttempts);
  }

  /** The inner loop of `_find_element_with_retry`: up to `maxAttempts` attempts at
      one selector. `n` attempts are made; all but the last one failed, and the
      last one is the success, if any. */
  method RetrySelector<S, E>(s: S, present: (S, nat) -> Option<E>, maxAttempts: nat)
    returns (found: Option<E>, ghost n: nat)
    ensures n <= maxAttempts && found == FirstAttempt(s, maxAttempts, present, 0)
    ensures forall a :: 0 <= a < n - 1 ==> present(s, a).None?
    ensures found.None? ==> n == maxAttempts && forall a :: 0 <= a < n ==> present(s, a).None?
    ensures found.Some? ==> n > 0 && found == present(s, n - 1)
  {
    var attempt := 0;
    while attempt < maxAttempts
      invariant 0 <= attempt <= maxAttempts
      invariant forall a :: 0 <= a < attempt ==> present(s, a).None?
      invariant FirstAttempt(s, maxAttempts, present, 0) == FirstAttempt(s, maxAttempts, present, attempt)
    {
      found := present(s, attempt);
      if found.Some? {
        n := attempt + 1;
        return;
      }
      attempt := attempt + 1;
    }
    found := None;
    n := maxAttempts;
  }

  /** The record of a search that stops at attempt `n - 1` of selector `i`. */
  lemma FoundSchedule<S, E>(selectors: seq<S>, present: (S, nat) -> Option<E>, maxAttempts: nat,
                            i: nat, n: nat, before: seq<(nat, nat)>, tries: seq<(nat, nat)>)
    requires i < |selectors| && 0 < n <= maxAttempts
    requires before == Schedule(i, maxAttempts)
    requires forall t :: 0 <= t < |before| ==> before[t].0 < i && present(selectors[before[t].0], before[t].1).None?
    requires forall a :: 0 <= a < n - 1 ==> present(selectors[i], a).None?
    requires tries == before + AttemptsOf(i, maxAttempts)[..n]
    ensures |tries| <= |selectors| * maxAttempts == |Schedule(|selectors|, maxAttempts)|
    ensures tries == Schedule(|selectors|, maxAttempts)[..|tries|]
    ensures forall t :: 0 <= t < |tries| ==> tries[t].0 < |selectors|
    ensures forall t :: 0 <= t < |tries| - 1 ==> present(selectors[tries[t].0], tries[t].1).None?
    ensures |tries| > 0 && tries[|tries| - 1] == (i, n - 1)
  {
    ScheduleShape(|selectors|, maxAttempts);
    SchedulePrefix(i, |selectors|, maxAttempts, n);
    AppendedAttempts(selectors, present, before, i, n - 1, tries);
  }

  /** Appending selector `i`'s first `n` attempts, all failed, keeps every recorded
      attempt a failure at a selector up to `i`. */
  lemma AppendedAttempts<S, E>(selectors: seq<S>, present: (S, nat) -> Option<E>,
                               before: seq<(nat, nat)>, i: nat, n: nat, after: seq<(nat, nat)>)
    requires i < |selectors| && n <= |after| - |before|
    requires forall t :: 0 <= t < |before| ==> before[t].0 < i && present(selectors[before[t].0], before[t].1).None?
    requires forall a :: 0 <= a < n ==> present(selectors[i], a).None?
    requires after[..|before|] == before
    requires forall t :: |before| <= t < |after| ==> after[t] == (i, t - |before|)
    ensures forall t :: 0 <= t < |before| + n ==> after[t].0 <= i && present(selectors[after[t].0], after[t].1).None?
  {
    forall t | 0 <= t < |before| + n
      ensures after[t].0 <= i && present(selectors[after[t].0], after[t].1).None?
    {
      if t < |before| {
        assert after[t] == before[t];
      } else {
        assert after[t] == (i, t - |before|);
      }
    }
  }

  lemma {:induction false} SchedulePrefix(i: nat, n: nat, maxAttempts: nat, k: nat)
    requires i < n && k <= maxAttempts
    ensures |Schedule(i, maxAttempts) + AttemptsOf(i, maxAttempts)[..k]| <= |Schedule(n, maxAttempts)|
    ensures Schedule(i, maxAttempts) + AttemptsOf(i, maxAttempts)[..k] ==
      Schedule(n, maxAttempts)[..|Schedule(i, maxAttempts) + AttemptsOf(i, maxAttempts)[..k]|]
    decreases n - i
  {
    var p := Schedule(i, maxAttempts) + AttemptsOf(i, maxAttempts)[..k];
    var full := Schedule(i + 1, maxAttempts);
    assert p == full[..|p|];
    if i + 1 < n {
      SchedulePrefix(i + 1, n, maxAttempts, 0);
      assert AttemptsOf(i + 1, maxAttempts)[..0] == [];
      assert full == Schedule(n, maxAttempts)[..|full|];
    } else {
      assert full == Schedule(n, maxAttempts);
    }
  }

  // ---------------------------------------------------------------------------
  // The adapter object and its browser session

  /** The options `start_browser` sets when none were given. */
  const StartOptions: seq<string> := ["--disable-gpu", "--window-size=1920,1080", "--no-sandbox", "--disable-dev-shm-usage"]

  /** The options `run` sets when none were given. */
  const RunOptions: seq<string> := StartOptions + ["--disable-extensions", "--disable-web-security", "--allow-running-insecure-content"]

  /** Whether `run` reaches its `close_browser()` call after having started a
      browser: it does on the law-in-`degrees_to_check` exit and once the matching
      loop has finished; an exception raised by the wizard or the loop leaves the
      session open. */
  predicate ClosesBrowser(fields: map<string, Json>, acceptedLines: Outcome<seq<string>>) {
    JStr("משפטים") in CoerceDegrees(GetOr(fields, "degrees_to_check", JList([])))
    || (acceptedLines.Done? && AllStrings(DegreesToCheck(fields)))
  }

  /** Whether `run` returns before starting a browser. */
  predicate ReturnsEarly(fields: map<string, Json>) {
    "subject" !in fields || UnsupportedSubject(fields["subject"]).Some?
  }

  class BenGurionUniversity {
    /** The WebDriver session (an identifier for it), `None` when closed. */
    var driver: Option<nat>
    /** The timeout in seconds of the `WebDriverWait` bound to that session. */
    var wait: Option<nat>
    var chromeOptions: Option<seq<string>>

    /** A wait exists exactly while a session does. */
    predicate Valid()
      reads this
    {
      driver.None? <==> wait.None?
    }

    constructor (chromeOptions: Option<seq<string>>)
      ensures Valid()
      ensures driver == None && wait == None && this.chromeOptions == chromeOptions
    {
      driver := None;
      wait := None;
      this.chromeOptions := chromeOptions;
    }

    /** Opens the session `session` unless one is already open. */
    method StartBrowser(session: nat, waitTime: nat := 15)
      requires Valid()
      modifies this
      ensures Valid()
      ensures old(driver).Some? ==> driver == old(driver) && wait == old(wait) && chromeOptions == old(chromeOptions)
      ensures old(driver).None? ==> driver == Some(session) && wait == Some(waitTime)
      ensures old(driver).None? ==> chromeOptions == if old(chromeOptions).None? then Some(StartOptions) else old(chromeOptions)
    {
      if driver.None? {
        if chromeOptions.None? {
          chromeOptions := Some(StartOptions);
        }
        driver := Some(session);
        wait := Some(waitTime);
      }
    }

    /** Quits the session, if any, and clears both fields. */
    method CloseBrowser()
      requires Valid()
      modifies this
      ensures Valid()
      ensures driver == None && wait == None && chromeOptions == old(chromeOptions)
    {
      if driver.Some? {
        driver := None;
        wait := None;
      }
    }

    /** `run(request_data)`: `session` is the browser session a fresh start would open
        and `acceptedLines` what the wizard scraped (or the exception it raised). The
        request's `psychometric` field is filled in and its `highschool_scores` object
        renamed in place, both before the wizard runs. */
    method Run(req: RequestData, session: nat, acceptedLines: Outcome<seq<string>>) returns (out: Outcome<Admission>)
      requires Valid()
      requires req.highschoolScores != null ==> req.highschoolScores.Valid()
      modifies this, req, req.highschoolScores
      ensures Valid()
      ensures out == Answer(old(req.fields), acceptedLines)
      ensures req.highschoolScores == old(req.highschoolScores)
      ensures ReturnsEarly(old(req.fields)) ==>
        driver == old(driver) && req.fields == old(req.fields)
        && (req.highschoolScores != null ==> req.highschoolScores.entries == old(req.highschoolScores.entries))
      ensures !ReturnsEarly(old(req.fields)) ==>
        req.fields == NormalizePsychometric(old(req.fields))
        && (req.highschoolScores != null ==>
              req.highschoolScores.entries == Renamed(old(req.highschoolScores.entries), SubjectNames))
      ensures !ReturnsEarly(old(req.fields)) ==>
        driver == if ClosesBrowser(old(req.fields), acceptedLines) then None
                  else if old(driver).Some? then old(driver) else Some(session)
    {
      if "subject" !in req.fields {
        return Raised("KeyError");
      }
      var early := UnsupportedSubject(req.fields["subject"]);
      if early.Some? {
        return Done(early.value);
      }
      AnswerIgnoresPsychometric(req.fields, acceptedLines);
      req.fields := NormalizePsychometric(req.fields);
      if chromeOptions.None? {
        chromeOptions := Some(RunOptions);
      }
      StartBrowser(session);
      if req.highschoolScores != null {
        AdaptHighschoolScores(req.highschoolScores);
      }
      out := Conclude(req.fields, acceptedLines);
    }

    /** The rest of `run` once the browser is up: the law check on
        `degrees_to_check`, the wizard, the matching loop, `close_browser()` and the
        response. */
    method Conclude(fields: map<string, Json>, acceptedLines: Outcome<seq<string>>) returns (out: Outcome<Admission>)
      requires Valid()
      modifies this
      ensures Valid()
      ensures out == AnswerAfterStart(fields, acceptedLines)
      ensures driver == if ClosesBrowser(fields, acceptedLines) then None else old(driver)
    {
      var degrees := CoerceDegrees(GetOr(fields, "degrees_to_check", JList([])));
      if JStr("משפטים") in degrees {
        CloseBrowser();
        return Done(Admission(None, BaseUrl, Some(NoLawMessage)));
      }
      if degrees == [] && "subject" in fields {
        degrees := [fields["subject"]];
      }
      if acceptedLines.Raised? {
        return Raised(acceptedLines.error);
      }
      if !AllStrings(degrees) {
        return Raised(NonStringError(degrees));
      }
      var results := CheckAcceptanceList(StringsOf(degrees), acceptedLines.value);
      CloseBrowser();
      var requested := RequestedDegree(fields);
      if requested.Raised? {
        return Raised(requested.error);
      }
      out := MapVerdict(requested.value, results);
    }
  }
}
