/** The VoIP call-type predicate of CallTypeUtil. */
module CallType {
  /** The call types the client treats as VoIP calls. */
  const VoipCallTypes: set<string> := {"71", "171", "271"}

  /**
   * `isVoipCallType`: plain membership of the string in the fixed set, with
   * no trimming, case folding or numeric parsing.
   */
  predicate IsVoipCallType(callType: string): (r: bool)
    ensures r <==> callType == "71" || callType == "171" || callType == "271"
    ensures r ==> |callType| >= 2 && callType[|callType| - 2..] == "71"
  {
    callType in VoipCallTypes
  }

  /** Strings that only look like a VoIP call type are not one. */
  lemma LookAlikesAreNotVoip()
    ensures !IsVoipCallType("70") && !IsVoipCallType("371")
    ensures !IsVoipCallType("071") && !IsVoipCallType(" 71") && !IsVoipCallType("71 ")
    ensures !IsVoipCallType("")
  {
  }
}
