/**
 * The legal-state check: a state code is accepted when, in capitals, it is
 * one of the 24 codes where sports betting is allowed.
 */
module StateValidator {
  import opened JsText

  /** The states where sports betting is allowed. */
  const LegalStates: seq<string> := [
    "AZ", "CO", "CT", "IL", "IN", "IA", "KS", "KY", "LA", "ME",
    "MD", "MA", "MI", "MO", "NJ", "NY", "NC", "OH", "PA", "TN",
    "VT", "VA", "WV", "WY"
  ]

  /** `LEGAL_STATES.includes(stateCode.toUpperCase())`: an accepted code is two letters long, nothing longer or shorter slips through. */
  predicate IsLegalState(stateCode: string): (ok: bool)
    ensures ok ==> |stateCode| == 2
  {
    ToUpper(stateCode) in LegalStates
  }

  /** The list itself. */
  function GetLegalStates(): (states: seq<string>)
    ensures |states| == 24
    ensures forall i, j :: 0 <= i < j < |states| ==> states[i] != states[j]
  {
    LegalStates
  }

  /** Upper-casing the code first never changes the answer. */
  lemma IsLegalStateCaseInsensitive(stateCode: string)
    ensures IsLegalState(stateCode) <==> IsLegalState(ToUpper(stateCode))
  {
    ToUpperIdempotent(stateCode);
  }

  /** Every code of the list is written in capitals. */
  lemma LegalStatesUpper()
    ensures forall i :: 0 <= i < |LegalStates| ==> ToUpper(LegalStates[i]) == LegalStates[i]
  {
    forall i | 0 <= i < |LegalStates| ensures ToUpper(LegalStates[i]) == LegalStates[i] {
      var s := LegalStates[i];
      assert |s| == 2 && 'A' <= s[0] <= 'Z' && 'A' <= s[1] <= 'Z';
    }
  }

  /** Every code `getLegalStates` hands out is accepted. */
  lemma ListedStatesAccepted()
    ensures forall s :: s in GetLegalStates() ==> IsLegalState(s)
  {
    LegalStatesUpper();
  }

  /** California is not accepted; lower-case New York is. */
  lemma Examples()
    ensures !IsLegalState("CA") && !IsLegalState("ca")
    ensures IsLegalState("ny") && IsLegalState("Ny")
  {
    assert ToUpper("ny") == "NY";
    assert ToUpper("Ny") == "NY";
    assert ToUpper("ca") == "CA";
    assert ToUpper("CA") == "CA";
  }
}
