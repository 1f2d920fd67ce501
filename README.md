# GotIn admission adapters — a Dafny model of their decision logic

GotIn answers "would I get in?" for four Israeli universities. A request carries:

- the applicant's matriculation subjects (`highschool_scores`: subject → `[grade, units]`);
- the psychometric scores;
- the requested degree.

Each university has an adapter. The adapter drives that university's web calculator
in a browser and returns one response shape, `{isAccepted, url, message}`. Here
`isAccepted` is "קבלה" (accepted), "דחייה" (rejected), "רשימת המתנה" (waiting list)
or `null`.

This project models the deterministic part of each adapter as Dafny and proves
properties of it. The browser pages become inputs:

- the acceptance-list lines;
- the calculator rows;
- the result heading;
- the threshold table;
- the result text;
- an oracle that says whether selector `s` succeeds on attempt `k`.

Files (one module each):

- `wrappers.dfy` — `Option` and `Outcome`. A Python exception that escapes is `Raised`.
- `admissions.dfy` — the verdicts and the response record.
- `text.dfy` — the Python string operations the adapters use: `in`, `startswith`, `replace`, `strip`, `int()` and `str()` of integers, and the decimal `float()`.
- `pydata.dfy` covers two things:
  - the decoded JSON values, and ordered Python dictionaries (insertion order is iteration order);
  - the renaming loop `for s in d.copy(): if s in T: d[T[s]] = d.pop(s)`, plus the mutable `highschool_scores` object (`ScoreSheet`) and the request object (`RequestData`).
- `bengurion.dfy` — the Ben-Gurion adapter:
  - request normalisation;
  - early rejection of law and business administration;
  - the in-place renaming of subjects;
  - degree-name cleaning;
  - the five-way degree match;
  - the verdict mapping;
  - the bounded-retry element search;
  - the browser-session fields.
- `technion.dfy` — the Technion adapter:
  - its subject and degree tables;
  - `hs_dict`, with core subjects consumed;
  - the 4-unit English/Mathematics gate;
  - the electives;
  - the trailing number of the result heading;
  - the threshold scan;
  - `run`.
- `telaviv.dfy` — the Tel Aviv adapter:
  - the subject dispatch;
  - the medicine rule;
  - the three-way threshold rule;
  - the split of subjects into listed ones and a FIFO "other" queue;
  - the grade-sheet lines;
  - the 5-unit bonus;
  - `run` on the request object.
- `hebrew.dfy` — the Hebrew University adapter:
  - the degree options;
  - the emphasis transform;
  - the positional psychometric fields;
  - the calculator rows with the English gate;
  - the extra subjects;
  - the classification of the result text;
  - the adapter object, whose `msg` field persists between requests.

Where the source updates state step by step, the model is imperative: a loop in a
`method`, or a `class` whose fields change. Examples are the renaming loop, the
matching loop, the retry search, the row scans, the emphasis loop, the
browser-session fields and HUJI's `msg`. Each such method is proved equal to a
specification function, and the properties are proved about that function.

## Error handling and session release in the code

- `BenGurionUniversity.run` closes the browser session only on the law exit and after
  the matching loop. An exception thrown by the wizard leaves it open (`ClosesBrowser`).
- No adapter keeps a verdict cache or a demand-tier fallback.
- Tel Aviv and Hebrew University let an exception escape `run` (`Raised`). Technion
  and Ben-Gurion turn many errors into a `null` verdict with a message.
- On a unit-level gate, the Technion code builds a rejection message but answers
  `null` (`Technion.RunVerdictFromTable`). The Hebrew University code answers a
  rejection.

## Model

| member | source | states |
|---|---|---|
| Admissions.VerdictText | Backend-TelAvivUniversity/TelAvivUniversity.py:322-327 | Accept is exactly "קבלה", Reject exactly "דחייה" and WaitingList exactly "רשימת המתנה". |
| BenGurion.UnsupportedSubject | Backend-BGU/BenGurionUniversity.py:59-70 | There is an early answer iff the subject is law or business administration. That answer has `isAccepted` null, the base url and that degree's own fixed message. |
| BenGurion.NormalizePsychometric | Backend-BGU/BenGurionUniversity.py:73-88 | `psychometric` is always present afterwards, and no other key changes. With `psycho_score` it is built from the flat fields: `psycho_hebrew` feeds `verbal`, and a missing field counts as 0. With only `psychometric` the request is unchanged. With neither, all four parts are 0. |
| BenGurion.CoerceDegrees | Backend-BGU/BenGurionUniversity.py:121-131 | A string becomes a one-element list, a list is kept, and anything else becomes the empty list. |
| BenGurion.DegreesToCheck | Backend-BGU/BenGurionUniversity.py:121-140 | The coerced list when it is not empty; otherwise `[subject]` when `subject` is present, else empty. |
| BenGurion.RequestedDegree | Backend-BGU/BenGurionUniversity.py:221-238 | The fallback chain `requested_degree`, `degree`, then `subject`. It raises exactly when it reaches a `degrees_to_check` without a length. |
| BenGurion.MapVerdict | Backend-BGU/BenGurionUniversity.py:240-270 | A falsy degree gives null with "לא צוין תחום לימוד לבדיקה". An unhashable degree raises. A degree with a mark gives "קבלה" iff the mark is "התקבלתי", otherwise "דחייה". The message is then "התקבלת לתואר X" or "לא התקבלת לתואר X". A degree without a mark gives null with the "no results" message. The url is always the base url. |
| BenGurion.SiteDegreeName | Backend-BGU/BenGurionUniversity.py:1245-1272 | `degree_mapping.get(d, d)`: the mapped name for a listed degree, the name itself otherwise. |
| BenGurion.SubjectNamesShape | Backend-BGU/BenGurionUniversity.py:1381-1388 | The rename table has no chains, and no two caller names share a site name. |
| BenGurion.AdaptHighschoolScores | Backend-BGU/BenGurionUniversity.py:1380-1392 | The caller's dictionary object itself becomes `Renamed(old entries)`. |
| BenGurion.AdaptMovesRenamed | Backend-BGU/BenGurionUniversity.py:1390-1392 | A present subject found in the table has its value under the site name afterwards, and its old name is gone. |
| BenGurion.AdaptKeepsOthers | Backend-BGU/BenGurionUniversity.py:1390-1392 | A subject not in the table, that no present subject is renamed to, keeps its value (or stays absent). |
| BenGurion.AdaptInventsNothing | Backend-BGU/BenGurionUniversity.py:1390-1392 | The values afterwards are a sub-multiset of the values before. |
| BenGurion.AdaptOverwritesSiteName | Backend-BGU/BenGurionUniversity.py:1381-1392 | A caller who sends both "כלכלה" and "חינוך פיננסי" ends up with the value of "חינוך פיננסי" under "כלכלה". |
| BenGurion.CleanDegreeName | Backend-BGU/BenGurionUniversity.py:1274-1288 | The qualifier-removal loop computes `Cleaned(name)`. |
| BenGurion.Cleaned | Backend-BGU/BenGurionUniversity.py:1274-1288 | A cleaned name never starts or ends with whitespace. |
| BenGurion.RemoveQualifiersAbsent | Backend-BGU/BenGurionUniversity.py:1284-1286 | A name containing none of the qualifiers passes through the replacements unchanged. |
| BenGurion.CleanedWithoutQualifiers | Backend-BGU/BenGurionUniversity.py:1274-1288 | A name containing no listed qualifier cleans to its `strip()`. |
| BenGurion.CheckAcceptanceList | Backend-BGU/BenGurionUniversity.py:1077-1098 | The matching loop, with its early `break`, builds exactly `AcceptanceResults(degrees, accepted)`. |
| BenGurion.DegreeAccepted | Backend-BGU/BenGurionUniversity.py:1082-1090 | A line equal to the degree's site name accepts it, and no lines accept nothing. |
| BenGurion.AcceptanceResults | Backend-BGU/BenGurionUniversity.py:1077-1098 | Exactly the requested degrees get an entry, keyed by the request name. Each holds "התקבלתי" or "לא התקבלתי", and "התקבלתי" iff some accepted line passes one of the five tests. |
| BenGurion.NonStringError | Backend-BGU/BenGurionUniversity.py:1077-1079 | The first degree that is not a string raises `TypeError` at `degree_mapping.get` if it is a list or dict, and `AttributeError` in the cleaning otherwise. |
| BenGurion.AcceptanceResultsAre | Backend-BGU/BenGurionUniversity.py:1077-1095 | Any map with those three properties is exactly the map `AcceptanceResults(degrees, accepted)`. |
| BenGurion.ElectricalEngineeringPrefixMatch | Backend-BGU/BenGurionUniversity.py:1082-1090 | "הנדסת חשמל" is accepted by the line "הנדסת חשמל, חד-חוגי". |
| BenGurion.FirstAttemptNone | Backend-BGU/BenGurionUniversity.py:1304-1311 | One selector's retries find nothing iff every remaining attempt fails. |
| BenGurion.FirstPresentNone | Backend-BGU/BenGurionUniversity.py:1303-1314 | The search finds nothing iff every selector fails on every one of its attempts. |
| BenGurion.FindElementWithRetry | Backend-BGU/BenGurionUniversity.py:1290-1314 | The attempts made are a prefix of the selector-major schedule, at most `len(selectors)*max_attempts` long. Every attempt but the last failed. A found element is the one the last attempt returned and equals `FirstPresent`. `None` comes only after all `len(selectors)*max_attempts` attempts. |
| BenGurion.RetrySelector | Backend-BGU/BenGurionUniversity.py:1304-1311 | Up to `max_attempts` attempts at one selector. It stops at the first success, and only the last attempt may have succeeded. |
| BenGurion.Answer | Backend-BGU/BenGurionUniversity.py:57-270 | A request without `subject` raises `KeyError`. Every answer has the base url and never the waiting list. A failed wizard raises its own exception, unless the answer is the fixed law answer. |
| BenGurion.AnswerIgnoresPsychometric | Backend-BGU/BenGurionUniversity.py:73-88 | Filling in `psychometric` changes neither the response nor whether the browser is closed. |
| BenGurion.AnswerUnsupported | Backend-BGU/BenGurionUniversity.py:59-70 | Law and business administration are answered with null, the base url and their fixed message, whatever the pages hold. |
| BenGurion.AnswerForSubject | Backend-BGU/BenGurionUniversity.py:137-270 | With only `subject` given, `isAccepted` is "קבלה" iff the subject matches some accepted line, and "דחייה" otherwise. |
| BenGurion.AnswerWithoutDegree | Backend-BGU/BenGurionUniversity.py:240-246 | An empty subject with no other degree field gives null with "לא צוין תחום לימוד לבדיקה". |
| BenGurion.BenGurionUniversity.constructor | Backend-BGU/BenGurionUniversity.py:20-32 | No session and no wait; the options are kept as given. |
| BenGurion.BenGurionUniversity.StartBrowser | Backend-BGU/BenGurionUniversity.py:34-48 | With no session, it opens one with its wait and defaults the options. With a session, it changes nothing. The wait exists exactly while a session does. |
| BenGurion.BenGurionUniversity.CloseBrowser | Backend-BGU/BenGurionUniversity.py:50-55 | Both fields are cleared afterwards; the options stay. |
| BenGurion.BenGurionUniversity.Run | Backend-BGU/BenGurionUniversity.py:57-270 | The response is `Answer(request, pages)`. An early return touches nothing. Otherwise, `psychometric` is filled in and `highschool_scores` is renamed in place. The session is closed exactly on the paths that reach `close_browser()`. |
| BenGurion.BenGurionUniversity.Conclude | Backend-BGU/BenGurionUniversity.py:133-270 | The part after the browser starts: the law check in `degrees_to_check`, the matching and the verdict mapping. The session is cleared exactly when the code closes it. |
| Technion.TechnionSubject | Backend_technion/technion_scraper.py:113-120 | A listed name maps to its table entry, and every other name passes through. |
| Technion.BuildHsDict | Backend_technion/technion_scraper.py:111-120 | The `hs_dict` loop computes `MappedScores(original)`. |
| Technion.MappedScoresGet | Backend_technion/technion_scraper.py:111-120 | Under each calculator name, `hs_dict` holds the value of the last caller entry mapped to it, and its keys are distinct. |
| Technion.PassThrough | Backend_technion/technion_scraper.py:113-120 | An unlisted name that no other caller name maps to keeps its (grade, units) value. |
| Technion.HistoryCollision | Backend_technion/technion_scraper.py:36-63 | "היסטוריה" and "היסטוריה של עם ישראל" collide, and the later entry's value wins. |
| Technion.ConsumeCoreRows | Backend_technion/technion_scraper.py:151-199 | The row loop, with its per-row exception handler, computes `ConsumeCore`. It stops at the first row that calls `self.exit`, because later rows then fail on the closed session. |
| Technion.CoreStep | Backend_technion/technion_scraper.py:151-194 | A unit shortfall names the row's own subject, which `hs_dict` holds, and whose units fail the 4-unit gate. |
| Technion.ConsumeCoreAppend | Backend_technion/technion_scraper.py:151-194 | Consuming two runs of rows is consuming the first, then the second from what the first left, unless the first already stopped. |
| Technion.CoreStepShape | Backend_technion/technion_scraper.py:151-194 | A row that fills its subject deletes exactly that subject, and any other row that goes on leaves `hs_dict` unchanged. The session is closed exactly when the row calls `self.exit`: a held subject whose row lacks two cells or the dropdown, or that passes the gate and lacks the input. |
| Technion.ConsumeCoreRemaining | Backend_technion/technion_scraper.py:151-194 | The leftovers keep their values. A subject is left over iff no row filled it, and nothing new appears. |
| Technion.ShortfallWins | Backend_technion/technion_scraper.py:151-194 | When every earlier row has its cells, dropdown and input, an English or Mathematics row reached with fewer than 4 units ends the rows in a unit shortfall. |
| Technion.ExitEndsRows | Backend_technion/technion_scraper.py:177-199 | A row that calls `self.exit` after rows that went on ends the rows with the session closed, whatever follows. |
| Technion.ShortfallShape | Backend_technion/technion_scraper.py:170-173 | A shortfall names English or Mathematics, and names a row that reached that subject's dropdown. |
| Technion.FillElectives | Backend_technion/technion_scraper.py:202-235 | The electives loop, with its `idx` counter, computes `Electives(rest, offered, 1)`. |
| Technion.Electives | Backend_technion/technion_scraper.py:202-235 | There are at most as many electives as leftover subjects, and each selects an offered entry. |
| Technion.ElectivesShape | Backend_technion/technion_scraper.py:202-235 | Electives take indices `idx, idx+1, ...` in order. Each carries a leftover subject with its own grade. Each selects that subject when it is offered and the "other" entry otherwise. With the "other" entry offered, every leftover subject gets a row. |
| Technion.TrailingNumberChars | Backend_technion/technion_scraper.py:299-300 | The longest suffix made of digits and dots. |
| Technion.TrailingNumber | Backend_technion/technion_scraper.py:299-300 | A match is a non-empty run of digits and dots. |
| Technion.ScoreFromHeading | Backend_technion/technion_scraper.py:299-308 | No trailing number gives the error "לא ניתן לחשב את הסכם שלך". There is a sum iff the suffix parses, and then there is no error. |
| Technion.HeadingExample | Backend_technion/technion_scraper.py:299-304 | "סכם: 92" gives the sum 92. |
| Technion.HeadingNumberExample | Backend_technion/technion_scraper.py:299-300 | The match of "סכם: 92" is "92". |
| Technion.HeadingWithoutNumber | Backend_technion/technion_scraper.py:305-308 | "סכם:" gives no sum and the cannot-compute message. |
| Technion.MatchScore | Backend_technion/technion_scraper.py:122-341 | `get_tech_match_score` yields exactly one of a sum and an error message. A closed session gives the form error "שגיאה בחישוב הסכם - אירעה בעיה בטעינת הטופס". |
| Technion.MatchScoreShortfall | Backend_technion/technion_scraper.py:151-194 | After rows that all have their cells, dropdown and input, a failing English or Mathematics row gives no sum and a shortfall message for a gated subject. |
| Technion.MatchScoreExit | Backend_technion/technion_scraper.py:336-339 | A row that calls `self.exit`, reached after rows that went on, gives no sum and the form error. |
| Technion.ExitBeforeShortfallExample | Backend_technion/technion_scraper.py:170-193 | Mathematics without a dropdown, then English with 3 units: the form error, not the English shortfall. |
| Technion.ScanRows | Backend_technion/technion_scraper.py:374-398 | The row loop with its `found` flag computes `Scan`. |
| Technion.FirstRowDecides | Backend_technion/technion_scraper.py:374-393 | The first row mentioning the degree decides: "קבלה" iff sum ≥ required, otherwise "דחייה". |
| Technion.NoRowMissing | Backend_technion/technion_scraper.py:395-398 | With no row mentioning the degree, the degree is reported missing. |
| Technion.DegreeNames | Backend_technion/technion_scraper.py:359-398 | A degree the name table maps to `None` gets "תואר X לא קיים בטכניון", whatever the threshold table holds. An unlisted degree is scanned for verbatim, and gets the same message when no row mentions it. |
| Technion.CutoffExample | Backend_technion/technion_scraper.py:385-393 | 92 against a required 91 gives "קבלה"; 90 against 91 gives "דחייה". |
| Technion.WithRequestedDegree | Backend_technion/technion_scraper.py:108-109 | `requested_degree` is copied from `degree` only when it is missing. |
| Technion.Run | Backend_technion/technion_scraper.py:70-94 | For dict-valued requests, it raises iff `psycho_score` or `highschool_scores` is missing. The url is always the results url. Any error message from the score step becomes `isAccepted` null with that message. |
| Technion.RunVerdictFromTable | Backend_technion/technion_scraper.py:78-94 | A verdict appears only when the threshold scan produced it. Every other path, the unit shortfall included, answers null. |
| Technion.CheckIfAccepted | Backend_technion/technion_scraper.py:341-402 | There is a verdict exactly when there is no message. Without a sum the answer is null with "לא ניתן לחשב את הסכם שלך". |
| Technion.CheckVerdictFromTable | Backend_technion/technion_scraper.py:342-402 | `check_if_accepted` gives a verdict only as the result of the row scan over the mapped degree. |
| Technion.RunUsesDegree | Backend_technion/technion_scraper.py:108-109 | A request with only `degree` is judged as if `requested_degree` were that degree. |
| TelAviv.SubjectNamesShape | Backend-TelAvivUniversity/TelAvivUniversity.py:74-81 | The rename table has no chains and is injective. |
| TelAviv.AlternativeNamesShape | Backend-TelAvivUniversity/TelAvivUniversity.py:42-47 | Every subject with an alternative name has a page and a section, and is not a special case. Its alternative name has no page of its own. |
| TelAviv.MedicineThreshold | Backend-TelAvivUniversity/TelAvivUniversity.py:330-343 | A missing key raises `KeyError`. A failing `int()` raises `ValueError` for a string and `TypeError` for any other value (`PyData.IntError`). The waiting list never results. A psychometric score below the subject's threshold rejects before the scores are read. Acceptance needs psychometric ≥ 630 and English ≥ 120. |
| TelAviv.MedicineRule | Backend-TelAvivUniversity/TelAvivUniversity.py:330-343 | "קבלה" iff psychometric ≥ 700 (medicine) or ≥ 630 (physiotherapy), Mathematics grade ≥ 56, Mathematics units ≥ 4 and English ≥ 120. Otherwise "דחייה" or an exception; never the waiting list. |
| TelAviv.Classify | Backend-TelAvivUniversity/TelAvivUniversity.py:322-327 | "קבלה" iff score ≥ acceptance. "רשימת המתנה" iff below acceptance but ≥ rejection. "דחייה" iff below both. |
| TelAviv.ClassifyMonotone | Backend-TelAvivUniversity/TelAvivUniversity.py:322-327 | A higher score never gets a worse verdict. |
| TelAviv.Bonus | Backend-TelAvivUniversity/TelAvivUniversity.py:260 | It raises iff Mathematics is missing. The bonus holds iff Mathematics units are "5" and physics is present with units "5". |
| TelAviv.BonusNeedsString | Backend-TelAvivUniversity/TelAvivUniversity.py:260 | The integer 5 does not qualify; only the string "5" does. |
| TelAviv.InFormPartIn | Backend-TelAvivUniversity/TelAvivUniversity.py:161-164 | What stays in `scores` are entries of the input whose subject the sheet lists. |
| TelAviv.SplitLosesNothing | Backend-TelAvivUniversity/TelAvivUniversity.py:161-164 | The values kept plus the "other" queue are exactly the values before the split. |
| TelAviv.SplitSpecial | Backend-TelAvivUniversity/TelAvivUniversity.py:161-164 | The pop-and-append loop leaves the listed entries in order and returns the others' values in order. |
| TelAviv.FirstContained | Backend-TelAvivUniversity/TelAvivUniversity.py:188-191 | The result is the first key, in key order, that the caption contains; none means no key is contained. |
| TelAviv.LineAction | Backend-TelAvivUniversity/TelAvivUniversity.py:181-205 | A line takes the "other" queue's head only when the queue is not empty, and takes a named subject only when it is still present. |
| TelAviv.FillLines | Backend-TelAvivUniversity/TelAvivUniversity.py:178-215 | The lines loop computes `Lines`. |
| TelAviv.LinesFifo | Backend-TelAvivUniversity/TelAvivUniversity.py:197-205 | The grades typed on "other" lines, followed by what is left of the queue, are the queue as it started. |
| TelAviv.LinesNamedOnce | Backend-TelAvivUniversity/TelAvivUniversity.py:194-205 | Each named subject is typed at most once, with its own grade, and is gone afterwards. |
| TelAviv.TypedLinesShape | Backend-TelAvivUniversity/TelAvivUniversity.py:150-205 | After preparation, only listed subjects remain, and no value is invented. The filled sheet takes the queue in FIFO order and each listed subject at most once. |
| TelAviv.FillGradeSheet | Backend-TelAvivUniversity/TelAvivUniversity.py:150-215 | Works on a copy: the typed lines equal `TypedLines` of the caller's entries, which stay unchanged. |
| TelAviv.MatchScores | Backend-TelAvivUniversity/TelAvivUniversity.py:242-292 | A missing `psycho_score` or subject dict raises `KeyError`. A result comes only after the grade sheet and the bonus succeed. It is the calculator's section scores for the sheet's result with spaces removed, the `psycho_score`, and the bonus. |
| TelAviv.AcceptedPerSubject | Backend-TelAvivUniversity/TelAvivUniversity.py:294-327 | A subject with no url raises `KeyError`, and a failing subject page raises its own error. A verdict needs both thresholds and the section score to parse. It is "קבלה" iff the section score ≥ the acceptance threshold, and "דחייה" iff below both thresholds. |
| TelAviv.AnswerWith | Backend-TelAvivUniversity/TelAvivUniversity.py:121-147 | An answer is for a string subject with a url, and carries that url. `isAccepted` is null iff the subject is civil engineering. The message is the empty string or one of the two fixed messages. A string subject with no url raises `KeyError`. |
| TelAviv.Answer | Backend-TelAvivUniversity/TelAvivUniversity.py:121-147 | As written, an answer is only ever given for a subject without an alternative name. |
| TelAviv.AnswerMedicine | Backend-TelAvivUniversity/TelAvivUniversity.py:130-132 | Medicine and physiotherapy are answered by the threshold rule alone, with the fixed message and the subject's own url. |
| TelAviv.AnswerCivilEngineering | Backend-TelAvivUniversity/TelAvivUniversity.py:136-138 | Civil engineering gets `isAccepted` null with its fixed message. |
| TelAviv.AnswerUnknownSubject | Backend-TelAvivUniversity/TelAvivUniversity.py:124 | A subject with no url raises before anything else happens. |
| TelAviv.RenamedSubjectRaises | Backend-TelAvivUniversity/TelAvivUniversity.py:294-297 | As written, the renamed subject (line 143) has no url, so the four subjects with an alternative name always raise. |
| TelAviv.CorrectedRenamedSubject | Backend-TelAvivUniversity/TelAvivUniversity.py:141-147 | Judged under the requested name, those subjects get the threshold verdict of their own page. |
| TelAviv.CorrectedAgrees | Backend-TelAvivUniversity/TelAvivUniversity.py:141-147 | For every other subject, the corrected run answers exactly as the code does. |
| TelAviv.Run | Backend-TelAvivUniversity/TelAvivUniversity.py:121-147 | The response is `Answer`. The caller's subjects are untouched. `data["subject"]` is overwritten exactly when the general branch renames it. |
| TelAviv.GeneralBranch | Backend-TelAvivUniversity/TelAvivUniversity.py:141-147 | Reading the renamed subject back from the request gives the same response as `Answer` on the original request. |
| Hebrew.FirstDegree | Backend_Hebrew_university/HebrewUniversity.py:137-140 | The first entry whose `user_input` matches; none iff no entry matches. |
| Hebrew.SiteDegreeOptions | Backend_Hebrew_university/HebrewUniversity.py:135-140 | The linear search returns the first matching entry's two site options, or `(user_input, user_input)` when none matches. |
| Hebrew.FirstDegreeAt | Backend_Hebrew_university/HebrewUniversity.py:137-139 | The early return is at the first matching position. |
| Hebrew.KnownDegreeOptions | Backend_Hebrew_university/HebrewUniversity.py:529 | A degree that passes `run`'s check has its own entry. |
| Hebrew.DegreeOptionsExample | Backend_Hebrew_university/HebrewUniversity.py:44-46 | "סיעוד" is searched for as "אחיוּת (סיעוד)" with its track. |
| Hebrew.RoundHalfEven | Backend_Hebrew_university/HebrewUniversity.py:164-174 | The result is within 0.5 of the value, and a tie goes to the even integer. |
| Hebrew.Clamp | Backend_Hebrew_university/HebrewUniversity.py:177 | The result is in [200,800], equal to the input inside that range and to the bound outside it. |
| Hebrew.EmphasisScore | Backend_Hebrew_university/HebrewUniversity.py:163-177 | Every emphasis score is in [200,800]. |
| Hebrew.EmphasisOfEvenSections | Backend_Hebrew_university/HebrewUniversity.py:163-177 | With all three sections equal, every emphasis is the clamped total. |
| Hebrew.EmphasisMonotone | Backend_Hebrew_university/HebrewUniversity.py:163-177 | A higher total never gives a lower emphasis score. |
| Hebrew.CalculateEmphases | Backend_Hebrew_university/HebrewUniversity.py:144-180 | The keys are exactly `verbal_emphasis`, `quant_emphasis` and `multi_emphasis`. Each value is that emphasis's score, in [200,800]. |
| Hebrew.EmphasisExample | Backend_Hebrew_university/HebrewUniversity.py:144-180 | Total 650 with sections 130/120/110 gives 671, 650 and 661. |
| Hebrew.FilledCount | Backend_Hebrew_university/HebrewUniversity.py:196-199 | The count of filled fields is between the start and the number of fields. It exceeds 3 only when no field past the start was filled. |
| Hebrew.EmphasisLookup | Backend_Hebrew_university/HebrewUniversity.py:190-194 | The values read from the result are, in order, the quant, verbal and multi emphases. |
| Hebrew.PsychometricByPosition | Backend_Hebrew_university/HebrewUniversity.py:183-201 | With numeric scores, field `i` gets the `i`-th of quant, verbal and multi. At most three fields are typed, and no more than there are fields. When the first three fields all take input, all of them are typed. |
| Hebrew.FillPsychometricFields | Backend_Hebrew_university/HebrewUniversity.py:183-231 | What the loop types is exactly `PsychometricTyped(fields, psycho)`. |
| Hebrew.TypeValues | Backend_Hebrew_university/HebrewUniversity.py:196-201 | The enumerate-and-break loop types `str(values[k])` into the first `FilledCount` fields. |
| Hebrew.CoreRowsGate | Backend_Hebrew_university/HebrewUniversity.py:280-301 | The pass stops on the English gate iff an English row is reached with fewer than 4 units. |
| Hebrew.CoreRowsFilled | Backend_Hebrew_university/HebrewUniversity.py:280-320 | Otherwise every filled row is a subject row carrying its subject's own value, in row order. Conversely, every subject row that takes input and whose subject the caller has is filled. |
| Hebrew.FillCoreRows | Backend_Hebrew_university/HebrewUniversity.py:280-320 | The row loop computes `CoreRows`. |
| Hebrew.CalculatorPass | Backend_Hebrew_university/HebrewUniversity.py:271-378 | The pass raises iff it reaches an English row with non-numeric units, and stops on the gate iff English has fewer than 4. Otherwise the rows are faithful and complete, and the extras are `ExtraRows`. |
| Hebrew.ExtraRowsShape | Backend_Hebrew_university/HebrewUniversity.py:323-341 | There is one extra row per score key that is in neither the core nor the excluded list, in key order, with that key's value. Each is typed as `SUBJECT_NAME_MAPPING.get(name, name)`, and every such key is included. |
| Hebrew.AddExtraSubjects | Backend_Hebrew_university/HebrewUniversity.py:323-368 | The add-subject loop computes `ExtraRows`. |
| Hebrew.ClassifyResult | Backend_Hebrew_university/HebrewUniversity.py:503-507 | "דחייה" iff the text contains "לא תתאפשר קבלה", "קבלה" otherwise. |
| Hebrew.BagrutText | Backend_Hebrew_university/HebrewUniversity.py:463 | `str(int(float(average)))` is defined iff the average parses. |
| Hebrew.BagrutExample | Backend_Hebrew_university/HebrewUniversity.py:463 | The average "95" is entered as "95". |
| Hebrew.CheckChances | Backend_Hebrew_university/HebrewUniversity.py:405-507 | An average that does not parse raises `ValueError`. An answer has the chances page's url, no message, and "דחייה" iff the page text contains "לא תתאפשר קבלה", and "קבלה" iff it does not. |
| Hebrew.Step | Backend_Hebrew_university/HebrewUniversity.py:515-557 | A request missing a key raises `KeyError`, with `msg` kept. `msg` changes only to the unit message or to the unknown-degree message. Only an unknown degree answers null. Acceptance happens only when no message was held, and leaves none. |
| Hebrew.UnknownDegreeShortCircuit | Backend_Hebrew_university/HebrewUniversity.py:529-557 | An unknown degree gives null, the HUJI url and the message naming it. Neither the scores nor the site pages change the outcome, which depends only on how the degree prints. |
| Hebrew.EnglishGateRejects | Backend_Hebrew_university/HebrewUniversity.py:532-539 | English below 4 units gives "דחייה" with the unit message and records it in `msg`, whatever the chances site would say. |
| Hebrew.FreshVerdictFromSite | Backend_Hebrew_university/HebrewUniversity.py:532-557 | On a fresh adapter, a request that passes the calculator gets the chances site's classified verdict. |
| Hebrew.StaleMessageRejects | Backend_Hebrew_university/HebrewUniversity.py:532-539 | As written, once `msg` is set, every later request for a known degree is rejected with that old message. |
| Hebrew.StaleMessageExample | Backend_Hebrew_university/HebrewUniversity.py:529-539 | A 3-unit request followed by a 5-unit one: the second is rejected with the first's message, while a fresh adapter accepts it. |
| Hebrew.EnglishOnlyCalculator | Backend_Hebrew_university/HebrewUniversity.py:280-301 | For a calculator with only the English row, fewer than 4 units stops at the gate; otherwise the row is filled. |
| Hebrew.CorrectedIgnoresHistory | Backend_Hebrew_university/HebrewUniversity.py:515-557 | With `msg` cleared per request, the response does not depend on earlier requests and agrees with a fresh adapter. |
| Hebrew.HebrewUniversity.constructor | Backend_Hebrew_university/HebrewUniversity.py:129-132 | `msg` starts as `None`. |
| Hebrew.HebrewUniversity.SecondPageOfCalculator | Backend_Hebrew_university/HebrewUniversity.py:271-378 | Returns `CalculatorPass`. `msg` becomes the unit message exactly on the English gate and is otherwise kept. |
| Hebrew.HebrewUniversity.Run | Backend_Hebrew_university/HebrewUniversity.py:515-557 | The new `msg` and the response are `Step(old msg, request, sites)`. |
| Hebrew.HebrewUniversity.CheckYourChance | Backend_Hebrew_university/HebrewUniversity.py:405-507 | The chances form is filled from the degree options, the average and the emphases, then the result is classified. |
| PyData.IntError | Backend-TelAvivUniversity/TelAvivUniversity.py:340 | A failing `int(x)` raises `ValueError` exactly when `x` is a string, and `TypeError` otherwise. |
| PyData.RenameAllGet | Backend-BGU/BenGurionUniversity.py:1390-1392 | For a table without chains that is injective: each key afterwards holds the value of the key renamed to it, or its own value, or nothing if it was renamed away. |
| PyData.RenameAllValues | Backend-BGU/BenGurionUniversity.py:1390-1392 | The renaming loop never invents or duplicates a value. |
| PyData.ScoreSheet.RenameKeys | Backend-BGU/BenGurionUniversity.py:1390-1392 | The loop over the key snapshot leaves the object's entries equal to `Renamed(old entries, table)`. |

## Left out

- Browser I/O is not modelled: drivers, `get`, waits, sleeps, scrolls, iframes, JavaScript clicks and dropdown clicks. It is I/O; what the pages return is an input or an oracle.
- `_check_degree_acceptance` (Ben-Gurion) is left out: the code never calls it, and it is page interaction.
- The Flask `app.py` files, the test scripts and `Frontend/config.js` are left out: they are routing, HTTP and concurrency.
- Exceptions are abstracted: a Python exception that escapes `run` is `Raised` with its kind. Its exact text is kept only where the code turns it into a message (Technion).
- The Technion alert-recovery branch (`technion_scraper.py:310-335`) is left out: it is alert handling, and it returns a bare float instead of a pair.
- Technion rows are abstracted: what one core row offers (a header, two cells, a dropdown, the units value, an input) is the booleans of `CoreRow`. A row that calls `self.exit` ends the rows with the session closed (`SessionClosed`). The later rows' swallowed exceptions are not modelled one by one; what is modelled is the form error they lead to. The elective dropdowns share one set of offered entries.
- Numbers are exact, not binary floats. Python `float` is exact reals: a decimal parser for digits and dots, so forms such as `1e3`, `inf` and spaces are not read. `round` is exact round-half-even on reals, so the binary rounding of 0.6/0.2/5.33 is not modelled.
- Regular expressions: `\d` is read as ASCII digits only; Python also accepts other Unicode digits.
- PyData.ValuesOfPut: stated as "at most the old values plus `v`" (`<=`), not the exact multiset, because `d[k] = v` on an existing key drops the old value.
- BenGurion.AdaptInventsNothing: stated as a sub-multiset (`<=`) rather than equality because a caller name and its site name both present collide, and the pop overwrites one value.
- TelAviv.TypedLinesShape: the preparation's values are stated as a sub-multiset (`<=`) of the caller's for the same reason: the renaming can overwrite.
- Request value shapes: the model takes `highschool_scores` to be a dict whose values are `[grade, units]` pairs (`Grade`). For other shapes the code behaves as follows, and none of these paths is modelled:
  - Technion: a non-dict raises out of `get_tech_match_score` at `technion_scraper.py:113`. A value that does not unpack into two raises at 157, which the row handler at 195 swallows, or at 204, which the handler at 336-339 turns into the null verdict with "שגיאה בחישוב הסכם - אירעה בעיה בטעינת הטופס". A two-character string such as "95" unpacks into its two characters without error.
  - Tel Aviv: a non-dict fails in the preparation at `TelAvivUniversity.py:153-158`. A value that cannot be indexed fails at 208-209, 260 or 340. A two-character string is indexed into its characters without error.
  - Ben-Gurion: `adapt_highschool_scores` (`BenGurionUniversity.py:1390-1392`) only renames keys and never reads a value. The values are read by the calculator wizard, whose outcome is an input of the model.
  - Hebrew University: a non-dict is modelled as `TypeError`.
- Hebrew request values: `str()` of list or dict values comes from the `reprOf` oracle. Grades and units are kept as JSON values.
- Hebrew.FillPsychometricFields: a non-numeric psychometric value leaves all fields empty, because the code swallows that exception. The order of the checks inside the swallowed block is not modelled.
- Tel Aviv approximations: the line lookup is `FirstContained` over the remaining keys in order. The calculator and subject pages are oracles, so which page raises first is their choice.
- TelAviv.MatchScores: evaluation order is not kept exactly. The model reads `hs_dict["מתמטיקה"]` (`Bonus`) before consulting the calculator page. The code first steps through that page, including the three-input unpack at `TelAvivUniversity.py:255`, and reaches line 260 only afterwards. When both fail, the raised kind can therefore differ; the answers otherwise agree.
- Ben-Gurion session: release on every path is not proved, because the code does not guarantee it. `ClosesBrowser` states exactly when the session is released.
- The cache and the demand-tier fallback are not modelled: the code has neither.

## Findings

| source | as written | input that shows it | evidently intended | confidence | as-written member | corrected member |
|---|---|---|---|---|---|---|
| Backend_Hebrew_university/HebrewUniversity.py:537-539 | `self.msg` is set at 299 and 530 and is never reset, so `run` rejects every later request once it is set | first request: a known degree with 3 English units; second request: the same degree with 5 units, which the site accepts | every request starts with no message | not executed | Hebrew.StaleMessageExample | Hebrew.CorrectedIgnoresHistory |
| Backend-TelAvivUniversity/TelAvivUniversity.py:297 | `run` replaces `data["subject"]` with the alternative name (line 143). `is_accepted_per_subject` then looks that name up in `subject_url_dict`, which has no such key | subject "הנדסת תוכנה" becomes "הנדסת מחשבים", and the lookup raises `KeyError` | judge the subject under the name that has a page | not executed | TelAviv.RenamedSubjectRaises | TelAviv.CorrectedRenamedSubject |
