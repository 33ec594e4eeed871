/** The authenticated request service: credential injection with a
    single-flight acquisition slot, dispatch outcomes reported to a versioned
    observer, and the refresh coordinator that parks eligible failures behind
    one refresh and replays or rejects them when it settles.

    Asynchronous callbacks become methods called one after another: a call is
    started by `Request`, waits for `AcquisitionSettled` when it has no
    usable credentials, and ends with `OnResponse` or `OnError`; a parked
    call is resolved by `Settle`. */
module Service {
  import opened Values
  import opened Normalizer
  import opened Eligibility

  const UnauthorizedStatus := 401
  const InvalidAccessToken := "Invalid access token."

  /** Where a call stands with respect to its `Authorization` header. */
  datatype Auth = CallerSupplied | Bearer(token: string) | Awaiting

  /** One call of `request`: its normalised form, its credential, the
      observer version captured when it started, and its raw inputs. */
  datatype Call = Call(prepared: Prepared, auth: Auth, version: int, pending: PendingRequest)

  /** One argument list of `observer.onRequest`. */
  datatype Notice = Notice(request: Request, response: Option<Response>, error: Option<HttpError>, version: int)

  /** How a call ends: with the response, with the error, or parked behind a
      credential refresh. */
  datatype Completion =
    | Delivered(response: Response, notice: Option<Notice>)
    | Failed(error: HttpError, notice: Option<Notice>)
    | Parked

  /** What a settled refresh does with one queued entry. */
  datatype Action = Replay(request: PendingRequest) | Reject(status: int, statusText: string)

  /** How a refresh observable ends: with credentials, with an error, or
      completing without a value. */
  datatype RefreshOutcome = Refreshed(credentials: Credentials) | RefreshFailed | RefreshEmpty

  function BearerValue(token: string): string {
    "Bearer " + token
  }

  /** The headers object the transport sends, which the observer also sees:
      `setAuthHeader` writes into the same object. */
  function SentHeaders(call: Call): Headers {
    match call.auth
    case Bearer(t) => call.prepared.request.headers[Authorization := BearerValue(t)]
    case _ => call.prepared.request.headers
  }

  /** The `request` object handed to the observer: the normalised request,
      whose headers `setAuthHeader` has completed. */
  function SentRequest(call: Call): (r: Request)
    ensures r.verb == call.prepared.request.verb && r.url == call.prepared.request.url
    ensures r.body == call.prepared.request.body && r.params == call.prepared.request.params
    ensures call.auth.Bearer? ==>
              r.headers == call.prepared.request.headers[Authorization := BearerValue(call.auth.token)]
    ensures !call.auth.Bearer? ==> r.headers == call.prepared.request.headers
  {
    call.prepared.request.(headers := SentHeaders(call))
  }

  /** `!ignoreObserver && this.observer?.onRequest(request, response, error, version)`. */
  function Notify(call: Call, observerSet: bool, response: Option<Response>, error: Option<HttpError>): (r: Option<Notice>)
    ensures r.Some? <==> !call.prepared.ignoreObserver && observerSet
    ensures r.Some? ==> r.value == Notice(SentRequest(call), response, error, call.version)
  {
    if call.prepared.ignoreObserver || !observerSet then None
    else Some(Notice(SentRequest(call), response, error, call.version))
  }

  /** `this.observer?.version || 0`. */
  function ObservedVersion(observer: Option<int>): (r: int)
    ensures observer.None? ==> r == 0
    ensures observer.Some? ==> r == observer.value
  {
    match observer
    case Some(v) => v
    case None => 0
  }

  /** `(expiration || 0) <= 0 || expiration > now`. */
  predicate Fresh(c: Credentials, now: int)
    ensures c.expiration <= 0 ==> Fresh(c, now)
  {
    c.expiration <= 0 || c.expiration > now
  }

  /** Credentials fresh at some instant were fresh at every earlier one, and
      once they are not fresh they never become fresh again. */
  lemma FreshUntilExpiry(c: Credentials, earlier: int, later: int)
    requires earlier <= later
    ensures Fresh(c, later) ==> Fresh(c, earlier)
    ensures !Fresh(c, earlier) ==> !Fresh(c, later)
  {
  }

  /** `credentials?.accessToken` is truthy. */
  predicate HasAccessToken(credentials: Option<Credentials>)
    ensures credentials.None? ==> !HasAccessToken(credentials)
    ensures credentials.Some? ==> (HasAccessToken(credentials) <==> credentials.value.accessToken != "")
  {
    credentials.Some? && credentials.value.accessToken != ""
  }

  /** The drain loop of a settled refresh over the snapshot of its queue:
      every entry, in order, is replayed when the credentials carry an
      access token and rejected with a 401 otherwise. */
  method Drain(queue: seq<PendingRequest>, credentials: Option<Credentials>) returns (actions: seq<Action>)
    ensures |actions| == |queue|
    ensures HasAccessToken(credentials) ==> forall i :: 0 <= i < |queue| ==> actions[i] == Replay(queue[i])
    ensures !HasAccessToken(credentials) ==>
              forall i :: 0 <= i < |queue| ==> actions[i] == Reject(UnauthorizedStatus, InvalidAccessToken)
  {
    actions := [];
    for i := 0 to |queue|
      invariant |actions| == i
      invariant HasAccessToken(credentials) ==> forall j :: 0 <= j < i ==> actions[j] == Replay(queue[j])
      invariant !HasAccessToken(credentials) ==>
                  forall j :: 0 <= j < i ==> actions[j] == Reject(UnauthorizedStatus, InvalidAccessToken)
    {
      if HasAccessToken(credentials) {
        actions := actions + [Replay(queue[i])];
      } else {
        actions := actions + [Reject(UnauthorizedStatus, InvalidAccessToken)];
      }
    }
  }

  /** The requests a list of actions re-issues, in order. */
  function Replayed(actions: seq<Action>): seq<PendingRequest> {
    if actions == [] then []
    else (if actions[0].Replay? then [actions[0].request] else []) + Replayed(actions[1..])
  }

  /** FIFO replay: when every entry is replayed, the requests re-issued are
      the queue itself, in the order the failures arrived. */
  lemma {:induction false} ReplayedInOrder(queue: seq<PendingRequest>, actions: seq<Action>)
    requires |actions| == |queue|
    requires forall i :: 0 <= i < |queue| ==> actions[i] == Replay(queue[i])
    ensures Replayed(actions) == queue
  {
    if queue != [] {
      ReplayedInOrder(queue[1..], actions[1..]);
    }
  }

  /** Refresh failure fan-out: when every entry is rejected, nothing is
      re-issued. */
  lemma {:induction false} RejectedReplayNothing(actions: seq<Action>)
    requires forall i :: 0 <= i < |actions| ==> actions[i] == Reject(UnauthorizedStatus, InvalidAccessToken)
    ensures Replayed(actions) == []
  {
    if actions != [] {
      RejectedReplayNothing(actions[1..]);
    }
  }

  /** The normalisation of a call is determined by its inputs, so a replayed
      entry, re-issued with the inputs it was queued with, is normalised to
      the same call as the one that failed: same method, URL, body, params,
      response type, timeout and observer suppression, and the same headers
      before credentials are attached. Its `Authorization` is attached
      afresh, with the refreshed token. */
  lemma PreparedDeterministic(p: Prepared, q: Prepared, baseUrl: string, verb: string, path: string,
                              params_: Params, headers_: Headers, data: Body)
    requires PreparedFrom(p, baseUrl, verb, path, params_, headers_, data)
    requires PreparedFrom(q, baseUrl, verb, path, params_, headers_, data)
    ensures p == q
  {
  }

  /** Suppression: a call whose caller supplied its own `Authorization`
      never reports to the observer and never starts a refresh. */
  lemma PreAuthorizedCallsStayQuiet(call: Call, baseUrl: string, observerSet: bool,
                                    response: Option<Response>, error: HttpError,
                                    credentials: Option<Credentials>, strategyRefreshes: bool)
    requires PreparedFrom(call.prepared, baseUrl, call.pending.verb, call.pending.path,
                          call.pending.params, call.pending.headers, call.pending.data)
    requires Truthy(call.pending.headers, Authorization)
    ensures Notify(call, observerSet, response, Some(error)) == None
    ensures Notify(call, observerSet, response, None) == None
    ensures !ShouldAttemptRefresh(call.pending.headers, credentials, strategyRefreshes, error)
  {
  }

  class AuthService {
    const baseUrl: string
    /** Whether the configured strategy has `refreshCredentials`. */
    const strategyRefreshes: bool
    /** The version of the installed observer, if one is installed. */
    var observer: Option<int>
    var credentials: Option<Credentials>
    /** `credentialsSubject`: present while an acquisition is outstanding,
        holding the calls subscribed to it, in order. */
    var acquisition: Option<seq<Call>>
    /** `pending`: present while a refresh is outstanding, holding the
        queued requests in arrival order. */
    var pending: Option<seq<PendingRequest>>
    /** The number of refresh calls issued and not yet settled. */
    ghost var refreshesInFlight: nat

    /** Single flight: a refresh is outstanding exactly when a queue exists,
        and never more than one. Calls waiting on an acquisition have no
        credential yet. */
    ghost predicate Valid()
      reads this
    {
      && refreshesInFlight == (if pending.Some? then 1 else 0)
      && (acquisition.Some? ==> forall i :: 0 <= i < |acquisition.value| ==> acquisition.value[i].auth == Awaiting)
    }

    constructor(baseUrl: string, strategyRefreshes: bool)
      ensures Valid()
      ensures this.baseUrl == baseUrl && this.strategyRefreshes == strategyRefreshes
      ensures observer.None? && credentials.None? && acquisition.None? && pending.None?
    {
      this.baseUrl := baseUrl;
      this.strategyRefreshes := strategyRefreshes;
      observer := None;
      credentials := None;
      acquisition := None;
      pending := None;
      refreshesInFlight := 0;
    }

    method SetObserver(o: Option<int>)
      modifies this`observer
      ensures observer == o
    {
      observer := o;
    }

    // ---------------------------------------------------------- credentials

    /** `getCredentials`: join the outstanding acquisition, or start one. */
    method GetCredentials(call: Call) returns (startAcquisition: bool)
      requires Valid() && call.auth == Awaiting
      modifies this`acquisition
      ensures Valid()
      ensures startAcquisition == old(acquisition).None?
      ensures acquisition == Some((if old(acquisition).Some? then old(acquisition).value else []) + [call])
    {
      startAcquisition := acquisition.None?;
      if acquisition.None? {
        acquisition := Some([]);
      }
      acquisition := Some(acquisition.value + [call]);
    }

    /** The strategy's acquisition settles: on success the credentials are
        stored and every subscribed call gets its bearer header; on failure
        every subscribed call fails. Either way the slot is cleared, so the
        next call without credentials starts a new acquisition. */
    method AcquisitionSettled(result: Option<Credentials>) returns (ready: seq<Call>, failed: seq<Call>)
      requires Valid() && acquisition.Some?
      modifies this`acquisition, this`credentials
      ensures Valid() && acquisition.None?
      ensures credentials == if result.Some? then result else old(credentials)
      ensures result.Some? ==>
                failed == [] && |ready| == |old(acquisition).value| &&
                forall i :: 0 <= i < |ready| ==>
                  ready[i] == old(acquisition).value[i].(auth := Bearer(result.value.accessToken))
      ensures result.None? ==> ready == [] && failed == old(acquisition).value
    {
      var waiters := acquisition.value;
      if result.Some? {
        credentials := result;
        var token := result.value.accessToken;
        ready := seq(|waiters|, i requires 0 <= i < |waiters| => waiters[i].(auth := Bearer(token)));
        failed := [];
      } else {
        ready := [];
        failed := waiters;
      }
      acquisition := None;
    }

    /** `setAuthHeader`: a caller-supplied `Authorization` is kept; fresh
        credentials are attached at once; otherwise the call waits on the
        shared acquisition. */
    method SetAuthHeader(call: Call, now: int) returns (authorized: Call, send: bool, startAcquisition: bool)
      requires Valid() && call.auth == Awaiting
      modifies this`acquisition
      ensures Valid()
      ensures Truthy(call.prepared.request.headers, Authorization) ==>
                authorized == call.(auth := CallerSupplied) && send && !startAcquisition &&
                acquisition == old(acquisition)
      ensures !Truthy(call.prepared.request.headers, Authorization) && credentials.Some? && Fresh(credentials.value, now) ==>
                authorized == call.(auth := Bearer(credentials.value.accessToken)) && send && !startAcquisition &&
                acquisition == old(acquisition)
      ensures !Truthy(call.prepared.request.headers, Authorization) && !(credentials.Some? && Fresh(credentials.value, now)) ==>
                authorized == call && !send && startAcquisition == old(acquisition).None? &&
                acquisition == Some((if old(acquisition).Some? then old(acquisition).value else []) + [call])
    {
      if Truthy(call.prepared.request.headers, Authorization) {
        return call.(auth := CallerSupplied), true, false;
      }
      if credentials.Some? && Fresh(credentials.value, now) {
        return call.(auth := Bearer(credentials.value.accessToken)), true, false;
      }
      authorized, send := call, false;
      startAcquisition := GetCredentials(call);
    }

    // ------------------------------------------------------------- dispatch

    /** `request`: normalise the call, capture the observer version and the
        raw inputs, and attach credentials. `send` says the call goes to the
        transport now; otherwise it waits for the acquisition, which
        `startAcquisition` says this call started. */
    method Request(verb: string, path: string, params_: Params, headers_: Headers, data: Body, now: int)
      returns (call: Call, send: bool, startAcquisition: bool)
      requires Valid()
      modifies this`acquisition
      ensures Valid()
      ensures PreparedFrom(call.prepared, baseUrl, verb, path, params_, headers_, data)
      ensures call.version == ObservedVersion(observer)
      ensures call.pending == PendingRequest(verb, path, data, headers_, params_)
      ensures Truthy(headers_, Authorization) ==>
                call.auth == CallerSupplied && send && !startAcquisition && acquisition == old(acquisition)
      ensures !Truthy(headers_, Authorization) && credentials.Some? && Fresh(credentials.value, now) ==>
                call.auth == Bearer(credentials.value.accessToken) && send && !startAcquisition &&
                acquisition == old(acquisition)
      ensures !Truthy(headers_, Authorization) && !(credentials.Some? && Fresh(credentials.value, now)) ==>
                call.auth == Awaiting && !send && startAcquisition == old(acquisition).None? &&
                acquisition == Some((if old(acquisition).Some? then old(acquisition).value else []) + [call])
    {
      var p := Prepare(baseUrl, verb, path, params_, headers_, data);
      assert Truthy(p.request.headers, Authorization) <==> Truthy(headers_, Authorization) by {
        assert !Defaulted(Authorization) && Authorization != IgnoreObserver;
      }
      var start := Call(p, Awaiting, ObservedVersion(observer), PendingRequest(verb, path, data, headers_, params_));
      call, send, startAcquisition := SetAuthHeader(start, now);
    }

    /** The verb helpers: every method but `DELETE` puts `/layar` before the
        path, then the call goes through `request` with that method name. */
    method Send(v: Verb, path: string, params_: Params, headers_: Headers, data: Body, now: int)
      returns (call: Call, send: bool, startAcquisition: bool)
      requires Valid()
      modifies this`acquisition
      ensures Valid()
      ensures PreparedFrom(call.prepared, baseUrl, VerbName(v), HelperPath(v, path), params_, headers_, data)
      ensures v != DELETE ==> call.prepared.request.url == baseUrl + ApiPrefix + path
      ensures v == DELETE ==> call.prepared.request.url == baseUrl + path
      ensures call.version == ObservedVersion(observer)
      ensures call.pending == PendingRequest(VerbName(v), HelperPath(v, path), data, headers_, params_)
      ensures Truthy(headers_, Authorization) ==>
                call.auth == CallerSupplied && send && !startAcquisition && acquisition == old(acquisition)
      ensures !Truthy(headers_, Authorization) && credentials.Some? && Fresh(credentials.value, now) ==>
                call.auth == Bearer(credentials.value.accessToken) && send && !startAcquisition &&
                acquisition == old(acquisition)
      ensures !Truthy(headers_, Authorization) && !(credentials.Some? && Fresh(credentials.value, now)) ==>
                call.auth == Awaiting && !send && startAcquisition == old(acquisition).None? &&
                acquisition == Some((if old(acquisition).Some? then old(acquisition).value else []) + [call])
    {
      call, send, startAcquisition := Request(VerbName(v), HelperPath(v, path), params_, headers_, data, now);
      assert baseUrl + (ApiPrefix + path) == baseUrl + ApiPrefix + path;
    }

    /** The transport answered: the caller gets the response and the
        observer, unless suppressed or absent, one notice tagged with the
        version captured when the call started. */
    function OnResponse(call: Call, response: Response): (c: Completion)
      reads this
      ensures c.Delivered? && c.response == response
      ensures c.notice.Some? <==> !call.prepared.ignoreObserver && observer.Some?
      ensures c.notice.Some? ==> c.notice.value == Notice(SentRequest(call), Some(response), None, call.version)
    {
      Delivered(response, Notify(call, observer.Some?, Some(response), None))
    }

    /** The call failed (transport error, timeout or acquisition error): it
        fails at once, reported unless suppressed, unless the failure is
        refresh-eligible, in which case it is parked behind a refresh and
        reports nothing itself. */
    method OnError(call: Call, error: HttpError) returns (c: Completion, issueRefresh: bool, refreshWith: Option<Credentials>)
      requires Valid()
      modifies this`pending, this`refreshesInFlight
      ensures Valid()
      ensures !ShouldAttemptRefresh(call.pending.headers, credentials, strategyRefreshes, error) ==>
                c == Failed(error, Notify(call, observer.Some?, None, Some(error))) &&
                !issueRefresh && pending == old(pending)
      ensures ShouldAttemptRefresh(call.pending.headers, credentials, strategyRefreshes, error) ==>
                c == Parked && issueRefresh == old(pending).None? &&
                pending == Some((if old(pending).Some? then old(pending).value else []) + [call.pending]) &&
                (issueRefresh ==> refreshWith == credentials)
    {
      if !ShouldAttemptRefresh(call.pending.headers, credentials, strategyRefreshes, error) {
        c, issueRefresh, refreshWith := Failed(error, Notify(call, observer.Some?, None, Some(error))), false, None;
      } else {
        c := Parked;
        assert [] + [call.pending] == [call.pending];
        issueRefresh, refreshWith := ProcessRefresh(call.pending);
      }
    }

    // -------------------------------------------------------------- refresh

    /** `processRefresh`: while a refresh is outstanding the entry is only
        appended; otherwise a queue holding just this entry is created and
        exactly one refresh is issued with the current credentials. */
    method ProcessRefresh(req: PendingRequest) returns (issueRefresh: bool, refreshWith: Option<Credentials>)
      requires Valid()
      modifies this`pending, this`refreshesInFlight
      ensures Valid() && refreshesInFlight == 1
      ensures refreshesInFlight == old(refreshesInFlight) + (if issueRefresh then 1 else 0)
      ensures issueRefresh == old(pending).None?
      ensures old(pending).Some? ==> pending == Some(old(pending).value + [req])
      ensures old(pending).None? ==> pending == Some([req]) && refreshWith == credentials
    {
      if pending.Some? {
        pending := Some(pending.value + [req]);
        return false, None;
      }
      pending := Some([req]);
      refreshesInFlight := refreshesInFlight + 1;
      issueRefresh, refreshWith := true, credentials;
    }

    /** The outstanding refresh settles: first the credentials are replaced
        (cleared on error, kept if nothing was emitted), then the queue is
        snapshotted and cleared, so later failures start a new cycle, and
        every snapshotted entry, in order, is replayed or rejected. */
    method Settle(outcome: RefreshOutcome) returns (actions: seq<Action>)
      requires Valid() && pending.Some?
      modifies this`pending, this`credentials, this`refreshesInFlight
      ensures Valid() && pending.None? && refreshesInFlight == old(refreshesInFlight) - 1 == 0
      ensures credentials == match outcome
                             case Refreshed(c) => Some(c)
                             case RefreshFailed => None
                             case RefreshEmpty => old(credentials)
      ensures |actions| == |old(pending).value|
      ensures HasAccessToken(credentials) ==>
                forall i :: 0 <= i < |actions| ==> actions[i] == Replay(old(pending).value[i])
      ensures !HasAccessToken(credentials) ==>
                forall i :: 0 <= i < |actions| ==> actions[i] == Reject(UnauthorizedStatus, InvalidAccessToken)
    {
      match outcome {
        case Refreshed(c) => credentials := Some(c);
        case RefreshFailed => credentials := None;
        case RefreshEmpty =>
      }
      var queue := pending.value;
      var snapshot := credentials;
      pending := None;
      refreshesInFlight := refreshesInFlight - 1;
      actions := Drain(queue, snapshot);
    }
  }

  /** Three eligible failures while idle issue one refresh; a successful
      refresh replays them in arrival order and returns to idle, so the next
      failure starts a new cycle; a failed refresh rejects its queue. */
  method SingleFlightScenario(a: PendingRequest, b: PendingRequest, c: PendingRequest, renewed: Credentials)
    requires renewed.accessToken != ""
  {
    var service := new AuthService("https://example.org/api", true);
    var first, _ := service.ProcessRefresh(a);
    var second, _ := service.ProcessRefresh(b);
    var third, _ := service.ProcessRefresh(c);
    assert first && !second && !third && service.refreshesInFlight == 1;

    var actions := service.Settle(Refreshed(renewed));
    assert actions == [Replay(a), Replay(b), Replay(c)];
    assert service.pending.None?;

    var again, _ := service.ProcessRefresh(b);
    assert again;
    var rejected := service.Settle(RefreshFailed);
    assert rejected == [Reject(401, "Invalid access token.")];
    assert service.credentials.None?;
  }
}
