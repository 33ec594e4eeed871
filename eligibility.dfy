/** Refresh eligibility: whether a failed call is parked behind a credential
    refresh (`shouldAttemptRefresh`) or fails at once. */
module Eligibility {
  import opened Values
  import opened Text
  import opened Normalizer

  const PaymentRequired := "payment_required"
  const InvalidToken := "invalid_token"
  const Unauthorized := "unauthorized"
  const PaymentRequiredStatus := 402

  /** The lower-cased `error` string of the failure's payload, or `''`. */
  function ErrorText(e: HttpError): (r: string)
    ensures e.errorCode.None? ==> r == ""
    ensures e.errorCode.Some? ==> |r| == |e.errorCode.value|
    ensures forall i :: 0 <= i < |r| ==> !('A' <= r[i] <= 'Z')
  {
    match e.errorCode
    case Some(s) => LowerCase(s)
    case None => ""
  }

  /** A strategy can refresh when the current credentials carry a refresh
      token and the strategy has a refresh operation. */
  predicate CanRefresh(credentials: Option<Credentials>, strategyRefreshes: bool)
    ensures credentials.None? || !strategyRefreshes ==> !CanRefresh(credentials, strategyRefreshes)
    ensures credentials.Some? && credentials.value.refreshToken == "" ==> !CanRefresh(credentials, strategyRefreshes)
  {
    credentials.Some? && credentials.value.refreshToken != "" && strategyRefreshes
  }

  /** `shouldAttemptRefresh(error, pending)`: refresh only for a call that did
      not bring its own `Authorization`, when a refresh is possible, and when
      the error says the token is invalid or the caller unauthorised but says
      nothing of payment and the status is not 402. */
  function ShouldAttemptRefresh(callerHeaders: Headers, credentials: Option<Credentials>,
                                strategyRefreshes: bool, e: HttpError): (r: bool)
    ensures r <==>
      && !Truthy(callerHeaders, Authorization)
      && CanRefresh(credentials, strategyRefreshes)
      && !Occurs(ErrorText(e), PaymentRequired)
      && e.status != PaymentRequiredStatus
      && (Occurs(ErrorText(e), InvalidToken) || Occurs(ErrorText(e), Unauthorized))
  {
    if Truthy(callerHeaders, Authorization) then false
    else if !CanRefresh(credentials, strategyRefreshes) then false
    else
      var error := ErrorText(e);
      if IndexOf(error, PaymentRequired) >= 0 || e.status == PaymentRequiredStatus then false
      else if IndexOf(error, InvalidToken) < 0 && IndexOf(error, Unauthorized) < 0 then false
      else true
  }

  /** The error code is matched whatever its case: an `INVALID_TOKEN` or
      `Unauthorized` anywhere in it makes the failure eligible, provided the
      other conditions hold. */
  lemma EligibleWhateverCase(callerHeaders: Headers, credentials: Option<Credentials>,
                             strategyRefreshes: bool, status: int, code: string, i: nat)
    requires !Truthy(callerHeaders, Authorization) && CanRefresh(credentials, strategyRefreshes)
    requires status != PaymentRequiredStatus
    requires !Occurs(LowerCase(code), PaymentRequired)
    requires OccursAtIgnoringCase(code, InvalidToken, i) || OccursAtIgnoringCase(code, Unauthorized, i)
    ensures ShouldAttemptRefresh(callerHeaders, credentials, strategyRefreshes, HttpError(status, Some(code)))
  {
    if OccursAtIgnoringCase(code, InvalidToken, i) {
      LowerCaseFinds(code, InvalidToken, i);
    } else {
      LowerCaseFinds(code, Unauthorized, i);
    }
  }

  /** A billing failure never starts a refresh, whatever its case and
      whatever else the error says. */
  lemma BillingNeverRefreshes(callerHeaders: Headers, credentials: Option<Credentials>,
                              strategyRefreshes: bool, status: int, code: string, i: nat)
    requires OccursAtIgnoringCase(code, PaymentRequired, i)
    ensures !ShouldAttemptRefresh(callerHeaders, credentials, strategyRefreshes, HttpError(status, Some(code)))
  {
    LowerCaseFinds(code, PaymentRequired, i);
  }

  /** A failure without an error code (a timeout, a network error) never
      starts a refresh. */
  lemma NoCodeNeverRefreshes(callerHeaders: Headers, credentials: Option<Credentials>,
                             strategyRefreshes: bool, status: int)
    ensures !ShouldAttemptRefresh(callerHeaders, credentials, strategyRefreshes, HttpError(status, None))
  {
  }
}
