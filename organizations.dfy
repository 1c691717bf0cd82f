/**
 * The organizations slice of the store: the state it keeps and the reducer cases for the
 * pending, fulfilled and rejected actions of its five async thunks.
 */
module OrganizationsSlice {
  import opened JsValues
  import opened Lists
  import Thunks

  /** The five async thunks whose actions the slice reduces. */
  datatype Thunk =
    | FetchOrganizations
    | FetchOrganizationById
    | CreateOrganization
    | UpdateOrganization
    | DeleteOrganization

  /**
   * The message each thunk raises when the server sent no usable one (see Thunks.ErrorMessage):
   * never empty, so a rejected action always carries some text.
   */
  function Fallback(t: Thunk): (m: string)
    ensures m != ""
  {
    match t
    case FetchOrganizations => "Failed to fetch organizations"
    case FetchOrganizationById => "Failed to fetch organization by ID"
    case CreateOrganization => "Failed to create organization"
    case UpdateOrganization => "Failed to update organization"
    case DeleteOrganization => "Failed to delete organization"
  }

  /**
   * The message of the error thunk `t` raises when its API call fails, which its rejected
   * action carries: never empty, because the fallback is not (Thunks.ErrorMessage).
   */
  function RejectionMessage(t: Thunk, e: Thunks.ApiError): (m: string)
    ensures m != ""
    ensures !Thunks.Truthy(Thunks.ServerMessage(e)) ==> m == Fallback(t)
  {
    Thunks.ErrorMessage(e, Fallback(t))
  }

  /** No two thunks share a fallback, so without a server message the error names the failed operation. */
  lemma FallbackNamesThunk(t: Thunk, u: Thunk)
    ensures Fallback(t) == Fallback(u) ==> t == u
  {
  }

  /**
   * The payload the update thunk fulfils with: `{ id, organizationData: data }`, an object
   * with no `_id` property of its own.
   */
  function UpdatePayload(id: Id, data: Record): Record
  {
    Record(None, Some(id), map["organizationData" := Nested(data)])
  }

  /**
   * The update reducer looks for `payload._id`, which the update thunk's payload lacks: when
   * every stored organization has an `_id` (as records from the service do), the update
   * leaves the list as it was; otherwise the payload overwrites the first record without one.
   */
  lemma {:induction false} UpdatePayloadMatchesOnlyUnidentified(s: seq<Record>, id: Id, data: Record)
    ensures var p := UpdatePayload(id, data);
      && (!HasKey(s, None) ==> ReplaceFirst(s, p._id, p) == s)
      && (HasKey(s, None) ==> ReplaceFirst(s, p._id, p)[FindIndex(s, None)] == p)
  {
    var p := UpdatePayload(id, data);
    ReplaceFirstFrame(s, p._id, p);
    if !HasKey(s, None) {
      ReplaceFirstNoMatch(s, p._id, p);
    }
  }

  class OrganizationsState {
    /** `state.organizations`: the organizations list shown by the UI. */
    var organizations: seq<Record>
    /** `state.currentOrganization`; `None` is `null`. */
    var currentOrganization: Option<Record>
    /** `state.loading` */
    var loading: bool
    /** `state.error`; `None` is `null`. */
    var error: Option<string>

    /**
     * While a request is in flight no error is shown. This is not a representation invariant
     * (no method needs it): it is a fact about the state machine, since every transition sets
     * both `loading` and `error`, and each one establishes it.
     */
    ghost predicate Valid()
      reads this
    {
      loading ==> error == None
    }

    /** The initial state: no organizations, no current one, not loading, no error. */
    constructor ()
      ensures Valid()
      ensures organizations == [] && currentOrganization == None
      ensures !loading && error == None
    {
      organizations := [];
      currentOrganization := None;
      loading := false;
      error := None;
    }

    /** The `pending` case of thunk `t`; fetching by id also clears the current organization. */
    method Pending(t: Thunk)
      modifies this
      ensures Valid()
      ensures loading && error == None
      ensures organizations == old(organizations)
      ensures currentOrganization ==
        if t == FetchOrganizationById then None else old(currentOrganization)
    {
      loading := true;
      error := None;
      if t == FetchOrganizationById {
        currentOrganization := None;
      }
    }

    /** The `rejected` case of thunk `t`; fetching by id also clears the current organization. */
    method Rejected(t: Thunk, message: string)
      modifies this
      ensures Valid()
      ensures !loading && error == Some(message)
      ensures organizations == old(organizations)
      ensures currentOrganization ==
        if t == FetchOrganizationById then None else old(currentOrganization)
    {
      loading := false;
      error := Some(message);
      if t == FetchOrganizationById {
        currentOrganization := None;
      }
    }

    /** Fetching all organizations replaces the list with exactly what the service returned. */
    method FetchOrganizationsFulfilled(payload: seq<Record>)
      modifies this
      ensures Valid()
      ensures !loading && error == None
      ensures organizations == payload
      ensures currentOrganization == old(currentOrganization)
    {
      loading := false;
      error := None;
      organizations := payload;
    }

    /** Fetching one organization makes it the current one; the list is left alone. */
    method FetchOrganizationByIdFulfilled(payload: Record)
      modifies this
      ensures Valid()
      ensures !loading && error == None
      ensures organizations == old(organizations)
      ensures currentOrganization == Some(payload)
    {
      loading := false;
      error := None;
      currentOrganization := Some(payload);
    }

    /** Creating appends the created organization at the end of the list. */
    method CreateOrganizationFulfilled(payload: Record)
      modifies this
      ensures Valid()
      ensures !loading && error == None
      ensures organizations == old(organizations) + [payload]
      ensures currentOrganization == old(currentOrganization)
    {
      loading := false;
      error := None;
      organizations := organizations + [payload];
    }

    /**
     * Updating stores the payload at the first index whose `_id` equals the payload's `_id`,
     * found with `findIndex`; when there is none the list is unchanged.
     */
    method UpdateOrganizationFulfilled(payload: Record)
      modifies this
      ensures Valid()
      ensures !loading && error == None
      ensures organizations == ReplaceFirst(old(organizations), payload._id, payload)
      ensures currentOrganization == old(currentOrganization)
    {
      loading := false;
      error := None;
      ReplaceFirstIsIndexedWrite(organizations, payload._id, payload);
      var index := FindIndex(organizations, payload._id);
      if index != -1 {
        organizations := organizations[index := payload];
      }
    }

    /** Deleting keeps the organizations whose `_id` differs from the payload's `id`. */
    method DeleteOrganizationFulfilled(payload: Record)
      modifies this
      ensures Valid()
      ensures !loading && error == None
      ensures organizations == Without(old(organizations), payload.id)
      ensures currentOrganization == old(currentOrganization)
    {
      loading := false;
      error := None;
      organizations := Without(organizations, payload.id);
    }
  }

  /**
   * A client of the slice: once an organization the service returned is in the list,
   * a successful update through the update thunk still shows the old record.
   */
  method UpdateAfterCreate(created: Record, id: Id, updated: Record)
    requires created._id.Some?
  {
    var state := new OrganizationsState();
    state.Pending(CreateOrganization);
    state.CreateOrganizationFulfilled(created);
    assert state.organizations == [created];
    state.Pending(UpdateOrganization);
    UpdatePayloadMatchesOnlyUnidentified(state.organizations, id, updated);
    state.UpdateOrganizationFulfilled(UpdatePayload(id, updated));
    assert state.organizations == [created];
  }
}
