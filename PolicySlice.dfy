/**
 * The policy slice of the Redux store: the list of policies on the current page,
 * the pagination reported by the server, the last created policy, and the
 * loading and error fields. Every reducer assigns fields of the state in place.
 */
module PolicySlice {
  import opened Common

  /** A policy record as the API returns it. Amounts and terms are whole numbers. */
  datatype Policy = Policy(
    id: string, dob: string, gender: string,
    sumAssured: nat, modalPremium: nat, premiumFrequency: string,
    pt: nat, ppt: nat)

  datatype Pagination = Pagination(currentPage: int, totalPages: int, totalItems: int, itemsPerPage: int)

  /** `initialState.pagination` */
  const InitialPagination := Pagination(1, 1, 0, 10)

  const FetchFailedMessage := "Failed to fetch policies"
  const InvalidResponseMessage := "Invalid response data"

  /** `action.payload.pagination` as sent by the server; a missing field (null or undefined) is None. */
  datatype PaginationPayload = PaginationPayload(
    currentPage: Option<int>, totalPages: Option<int>, totalItems: Option<int>, itemsPerPage: Option<int>)

  /** The fulfilled payload of the fetch thunk (`response.data.data`). */
  datatype FetchPayload = FetchPayload(policies: Option<seq<Policy>>, pagination: Option<PaginationPayload>)

  /** The fulfilled payload of the create thunk (`response.data`); `policy` is `payload.policy`. */
  datatype CreatePayload = CreatePayload(policy: Option<Policy>)

  /** `x ?? d` */
  function OrDefault(x: Option<int>, d: int): int {
    if x.Some? then x.value else d
  }

  /** The pagination the fetch reducer stores: each field is the server's value when it
      sent one (zero included) and the initial default otherwise. */
  function PaginationFrom(p: Option<PaginationPayload>): (r: Pagination)
    ensures p.Some? && p.value.currentPage.Some? ==> r.currentPage == p.value.currentPage.value
    ensures p.Some? && p.value.totalPages.Some? ==> r.totalPages == p.value.totalPages.value
    ensures p.Some? && p.value.totalItems.Some? ==> r.totalItems == p.value.totalItems.value
    ensures p.Some? && p.value.itemsPerPage.Some? ==> r.itemsPerPage == p.value.itemsPerPage.value
    ensures (p.None? || p.value.currentPage.None?) ==> r.currentPage == InitialPagination.currentPage
    ensures (p.None? || p.value.totalPages.None?) ==> r.totalPages == InitialPagination.totalPages
    ensures (p.None? || p.value.totalItems.None?) ==> r.totalItems == InitialPagination.totalItems
    ensures (p.None? || p.value.itemsPerPage.None?) ==> r.itemsPerPage == InitialPagination.itemsPerPage
  {
    match p
    case None => InitialPagination
    case Some(q) =>
      Pagination(OrDefault(q.currentPage, 1), OrDefault(q.totalPages, 1),
                 OrDefault(q.totalItems, 0), OrDefault(q.itemsPerPage, 10))
  }

  class PolicyState {
    var policies: seq<Policy>
    var currentPolicy: Option<Policy>
    var loading: bool
    var error: Option<string>
    var pagination: Pagination

    /** Every field equals `initialState`. */
    predicate IsInitial()
      reads this
    {
      policies == [] && currentPolicy == None && !loading && error == None
      && pagination == InitialPagination
    }

    constructor ()
      ensures IsInitial()
    {
      policies := [];
      currentPolicy := None;
      loading := false;
      error := None;
      pagination := InitialPagination;
    }

    /** `clearPolicyError`: only the error is cleared. */
    method ClearPolicyError()
      modifies this
      ensures error == None
      ensures unchanged(this`policies, this`currentPolicy, this`loading, this`pagination)
    {
      error := None;
    }

    /** `resetPolicyState`: `Object.assign(state, initialState)` puts back every field. */
    method ResetPolicyState()
      modifies this
      ensures IsInitial()
    {
      policies := [];
      currentPolicy := None;
      loading := false;
      error := None;
      pagination := InitialPagination;
    }

    /** `createPolicy.pending` and `getAllPolicyDetails.pending` (the two cases are identical). */
    method Pending()
      modifies this
      ensures loading && error == None
      ensures unchanged(this`policies, this`currentPolicy, this`pagination)
    {
      loading := true;
      error := None;
    }

    /** `createPolicy.fulfilled`: the created policy becomes current. */
    method CreateFulfilled(payload: CreatePayload)
      modifies this
      ensures !loading && currentPolicy == payload.policy && error == None
      ensures unchanged(this`policies, this`pagination)
    {
      loading := false;
      currentPolicy := payload.policy;
      error := None;
    }

    /** `createPolicy.rejected`: the rejection value becomes the error; the current policy stays. */
    method CreateRejected(payload: Option<string>)
      modifies this
      ensures !loading && error == payload
      ensures unchanged(this`policies, this`currentPolicy, this`pagination)
    {
      loading := false;
      error := payload;
    }

    /** `getAllPolicyDetails.fulfilled`. A payload with a policy list is copied in, with pagination
        defaults for missing fields; a malformed payload empties the list and resets the pagination.
        Either way the error ends null: the final assignment overwrites "Invalid response data". */
    method FetchFulfilled(payload: Option<FetchPayload>)
      modifies this
      ensures !loading && error == None
      ensures payload.Some? && payload.value.policies.Some? ==>
                policies == payload.value.policies.value && pagination == PaginationFrom(payload.value.pagination)
      ensures !(payload.Some? && payload.value.policies.Some?) ==>
                policies == [] && pagination == InitialPagination
      ensures unchanged(this`currentPolicy)
    {
      loading := false;
      if payload.Some? && payload.value.policies.Some? {
        policies := payload.value.policies.value;
        pagination := PaginationFrom(payload.value.pagination);
      } else {
        policies := [];
        pagination := InitialPagination;
        error := Some(InvalidResponseMessage);
      }
      error := None;
    }

    /** `getAllPolicyDetails.rejected`: the rejection value (or a default message) becomes the
        error, and the list and pagination are reset. */
    method FetchRejected(payload: Option<string>)
      modifies this
      ensures !loading && error == Some(OrElse(payload, FetchFailedMessage))
      ensures policies == [] && pagination == InitialPagination
      ensures unchanged(this`currentPolicy)
    {
      loading := false;
      error := Some(OrElse(payload, FetchFailedMessage));
      policies := [];
      pagination := InitialPagination;
    }
  }
}
