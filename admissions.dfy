/** The one response shape every adapter returns:
    `{"isAccepted": <verdict or null>, "url": <string>, "message": <string or null>}`. */
module Admissions {
  import opened Wrappers

  /** The three verdict strings the adapters put into `isAccepted`. */
  datatype Verdict = Accept | Reject | WaitingList

  function VerdictText(v: Verdict): (t: string)
    ensures v == Accept <==> t == "קבלה"
    ensures v == Reject <==> t == "דחייה"
    ensures v == WaitingList <==> t == "רשימת המתנה"
  {
    match v
    case Accept => "קבלה"
    case Reject => "דחייה"
    case WaitingList => "רשימת המתנה"
  }

  /** `isAccepted == None` is JSON `null`: no definitive verdict. */
  datatype Admission = Admission(isAccepted: Option<Verdict>, url: string, message: Option<string>)
}
