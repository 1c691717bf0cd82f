/**
 * The employees slice of the store: a map from organization id to that organization's
 * employee list, and the reducer cases for the actions of its four async thunks.
 */
module EmployeesSlice {
  import opened JsValues
  import opened Lists
  import Thunks

  /** The four async thunks whose actions the slice reduces. */
  datatype Thunk = FetchEmployees | CreateEmployee | UpdateEmployee | DeleteEmployee

  /**
   * The message each thunk raises when the server sent no usable one (see Thunks.ErrorMessage):
   * never empty, so a rejected action always carries some text.
   */
  function Fallback(t: Thunk): (m: string)
    ensures m != ""
  {
    match t
    case FetchEmployees => "Failed to fetch employees"
    case CreateEmployee => "Failed to create employee"
    case UpdateEmployee => "Failed to update employee"
    case DeleteEmployee => "Failed to delete employee"
  }

  /**
   * The message of the error thunk `t` raises when its API call fails, which its rejected
   * action carries: never empty, because the fallback is not (Thunks.ErrorMessage).
   */
  function RejectionMessage(t: Thunk, e: Thunks.ApiError): (m: string)
    ensures m != ""
    ensures !Thunks.Truthy(Thunks.ServerMessage(e)) ==> m == Fallback(t)
  {
    Thunks.ErrorMessage(e, Fallback(t))
  }

  /** No two thunks share a fallback, so without a server message the error names the failed operation. */
  lemma FallbackNamesThunk(t: Thunk, u: Thunk)
    ensures Fallback(t) == Fallback(u) ==> t == u
  {
  }

  /** The value stored per organization: `{ employees: [...] }`. */
  datatype Entry = Entry(employees: seq<Record>)

  /** `after` differs from `before` at most in the entry for `organizationId`. */
  ghost predicate OnlyEntryChanged(before: map<Id, Entry>, after: map<Id, Entry>, organizationId: Id)
  {
    && after.Keys == before.Keys + {organizationId}
    && forall o :: o in before && o != organizationId ==> after[o] == before[o]
  }

  class EmployeesState {
    /** `state.organizations`: the employees of each organization fetched so far. */
    var organizations: map<Id, Entry>
    /** `state.loading` */
    var loading: bool
    /** `state.error`; `None` is `null`. */
    var error: Option<string>

    /**
     * While a request is in flight no error is shown. This is not a representation invariant
     * (no method needs it): it is a fact about the state machine, since every transition sets
     * both `loading` and `error`, and each one establishes it.
     */
    ghost predicate Valid()
      reads this
    {
      loading ==> error == None
    }

    /** The initial state: no organization entries, not loading, no error. */
    constructor ()
      ensures Valid()
      ensures organizations == map[] && !loading && error == None
    {
      organizations := map[];
      loading := false;
      error := None;
    }

    /** The `pending` case, identical for all four thunks. */
    method Pending()
      modifies this
      ensures Valid()
      ensures loading && error == None
      ensures organizations == old(organizations)
    {
      loading := true;
      error := None;
    }

    /** The `rejected` case, identical for all four thunks. */
    method Rejected(message: string)
      modifies this
      ensures Valid()
      ensures !loading && error == Some(message)
      ensures organizations == old(organizations)
    {
      loading := false;
      error := Some(message);
    }

    /** Fetching sets the organization's list to exactly the fetched one, overwriting any earlier list. */
    method FetchEmployeesFulfilled(organizationId: Id, data: seq<Record>)
      modifies this
      ensures Valid()
      ensures !loading && error == None
      ensures organizationId in organizations && organizations[organizationId].employees == data
      ensures OnlyEntryChanged(old(organizations), organizations, organizationId)
    {
      loading := false;
      error := None;
      organizations := organizations[organizationId := Entry(data)];
    }

    /** Creating appends the new employee to the end of its organization's list. */
    method CreateEmployeeFulfilled(organizationId: Id, data: Record)
      requires organizationId in organizations
      modifies this
      ensures Valid()
      ensures !loading && error == None
      ensures organizationId in organizations
      ensures organizations[organizationId].employees ==
        old(organizations)[organizationId].employees + [data]
      ensures OnlyEntryChanged(old(organizations), organizations, organizationId)
    {
      loading := false;
      error := None;
      var employees := organizations[organizationId].employees;
      organizations := organizations[organizationId := Entry(employees + [data])];
    }

    /**
     * Updating writes `data` at the first index whose `_id` is `employeeId`, found with
     * `findIndex`; when there is none the list is unchanged.
     */
    method UpdateEmployeeFulfilled(organizationId: Id, employeeId: Id, data: Record)
      requires organizationId in organizations
      modifies this
      ensures Valid()
      ensures !loading && error == None
      ensures organizationId in organizations
      ensures organizations[organizationId].employees ==
        ReplaceFirst(old(organizations)[organizationId].employees, Some(employeeId), data)
      ensures OnlyEntryChanged(old(organizations), organizations, organizationId)
    {
      loading := false;
      error := None;
      var employees := organizations[organizationId].employees;
      ReplaceFirstIsIndexedWrite(employees, Some(employeeId), data);
      var index := FindIndex(employees, Some(employeeId));
      if index != -1 {
        organizations := organizations[organizationId := Entry(employees[index := data])];
      }
    }

    /** Deleting keeps the organization's employees whose `_id` is not `employeeId`. */
    method DeleteEmployeeFulfilled(organizationId: Id, employeeId: Id)
      requires organizationId in organizations
      modifies this
      ensures Valid()
      ensures !loading && error == None
      ensures organizationId in organizations
      ensures organizations[organizationId].employees ==
        Without(old(organizations)[organizationId].employees, Some(employeeId))
      ensures OnlyEntryChanged(old(organizations), organizations, organizationId)
    {
      loading := false;
      error := None;
      var employees := organizations[organizationId].employees;
      organizations := organizations[organizationId := Entry(Without(employees, Some(employeeId)))];
    }
  }
}
