/**
 * The policy thunks: `createPolicy` checks three of the form's fields and posts the
 * form; `getAllPolicyDetails` asks for one page of policies. Neither touches storage
 * itself; a 401 makes them call `tokenExpiration`, which the run records.
 */
module PolicyActions {
  import opened Common
  import opened Thunks
  import opened PolicyDialog
  import Dates
  import Strings

  const CreatePath := "/policy/create-policy"
  const ListPath := "/policy/get-all-policies"
  const RequiredFieldsMissing := "Required fields are missing"
  const CreateFailed := "Failed to create policy"
  const FetchFailed := "Failed to fetch policies"

  /** The `catch` message of a policy thunk: a response without a message, and a thrown value
      that is not an `Error`, both give the thunk's own default. */
  function PolicyErrorMessage(e: Thrown, default: string): (m: string)
    ensures ExpiresSession(e) ==> m == SessionExpiredMessage
    ensures HasAxiosResponse(e) && !ExpiresSession(e) ==> m == OrElse(e.response.value.message, default)
    ensures !HasAxiosResponse(e) ==> m == (if e.isErrorInstance then e.message else default)
  {
    CatchMessage(e, default, default)
  }

  /** The guard of `createPolicy`: date of birth, gender and sum assured must be non-empty;
      premium, frequency and terms are not checked. */
  function CreateGuard(f: FormData): (r: Option<string>)
    ensures r.None? <==> f.dob != "" && f.gender != "" && f.sumAssured != ""
    ensures r.Some? ==> r.value == RequiredFieldsMissing
  {
    if f.dob == "" || f.gender == "" || f.sumAssured == "" then Some(RequiredFieldsMissing) else None
  }

  /** `createPolicy`: the response body is the fulfilled value. */
  function CreatePolicy<D>(f: FormData, reply: ApiReply<D>): (run: ThunkRun<FormData, Body<D>>)
    ensures CreateGuard(f).Some? ==> run == ThunkRun(None, Rejected(Some(RequiredFieldsMissing)), false)
    ensures CreateGuard(f).None? ==> run.sent == Some(Post(CreatePath, f))
    ensures CreateGuard(f).None? && reply.Responded? ==>
              run.outcome == (if reply.body.success then Fulfilled(reply.body) else Rejected(reply.body.message))
              && !run.sessionExpired
    ensures CreateGuard(f).None? && reply.Threw? ==>
              run.outcome == Rejected(Some(PolicyErrorMessage(reply.error, CreateFailed)))
              && run.sessionExpired == ExpiresSession(reply.error)
  {
    var guard := CreateGuard(f);
    if guard.Some? then ThunkRun(None, Rejected(guard), false)
    else
      var sent := Some(Post(CreatePath, f));
      match reply
      case Responded(body) =>
        ThunkRun(sent, if body.success then Fulfilled(body) else Rejected(body.message), false)
      case Threw(e) =>
        ThunkRun(sent, Rejected(Some(PolicyErrorMessage(e, CreateFailed))), ExpiresSession(e))
  }

  /** A form the dialog accepts always gets past the thunk's guard and is posted as it is. */
  lemma AcceptedFormIsSent<D>(f: FormData, parseDate: string -> Option<Dates.Date>, today: Dates.Date, reply: ApiReply<D>)
    requires Accepted(f, parseDate, today)
    ensures CreatePolicy(f, reply).sent == Some(Post(CreatePath, f))
  {
    assert |f.sumAssured| > 0;
  }

  /** The guard lets through a form the dialog would reject: it never looks at the premium,
      so a form without one is posted while the dialog reports the premium as required. */
  lemma GuardIgnoresPremium<D>(f: FormData, reply: ApiReply<D>)
    requires f.dob != "" && f.gender != "" && f.sumAssured != "" && f.modalPremium == ""
    ensures CreatePolicy(f, reply).sent == Some(Post(CreatePath, f))
    ensures NumberFieldError(f.modalPremium, MinPremium, MaxPremium, PremiumRequired, PremiumNotNumber, PremiumOutOfRange)
            == PremiumRequired
  {
    assert Strings.Trim("") == "";
    NumberFieldErrorMeaning(f.modalPremium, MinPremium, MaxPremium, PremiumRequired, PremiumNotNumber, PremiumOutOfRange);
  }

  /** `getAllPolicyDetails`: `page` and `limit` are sent as they are; the fulfilled value is
      `response.data.data`. */
  function GetAllPolicyDetails<D>(page: int, limit: int, reply: ApiReply<D>): (run: ThunkRun<(), D>)
    ensures run.sent == Some(Get(ListPath, page, limit))
    ensures reply.Responded? ==>
              run.outcome == (if reply.body.success then Fulfilled(reply.body.data) else Rejected(reply.body.message))
              && !run.sessionExpired
    ensures reply.Threw? ==>
              run.outcome == Rejected(Some(PolicyErrorMessage(reply.error, FetchFailed)))
              && run.sessionExpired == ExpiresSession(reply.error)
  {
    var sent := Some(Get(ListPath, page, limit));
    match reply
    case Responded(body) =>
      ThunkRun(sent, if body.success then Fulfilled(body.data) else Rejected(body.message), false)
    case Threw(e) =>
      ThunkRun(sent, Rejected(Some(PolicyErrorMessage(e, FetchFailed))), ExpiresSession(e))
  }
}
