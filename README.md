# Organizations and employees store slices

This project models the two store slices of a single-page client that manages
Organizations and the Employees belonging to them through a remote REST service.
Each slice is a reducer: a state object that the pending, fulfilled and rejected
actions of its async thunks update in place. The model keeps that shape, with
one class per slice:

- `OrganizationsSlice.OrganizationsState` holds the organizations list, the current
  organization, `loading` and `error`. The five pending cases share one method,
  `Pending(t)`, and the five rejected cases share `Rejected(t, message)`, since they
  differ only in that fetching by id also clears the current organization. Each of the
  five fulfilled cases (fetch all, fetch by id, create, update, delete) has its own method.
- `EmployeesSlice.EmployeesState` holds a map from organization id to
  `{ employees: [...] }`, plus `loading` and `error`. The four identical pending cases
  are one method, `Pending()`, and the four identical rejected cases are `Rejected(message)`.
  Each of the four fulfilled cases (fetch, create, update, delete) has its own method.

Every object the store holds is a `JsValues.Record`: its `_id` and `id` properties
(`None` when absent) and its other properties, which no reducer inspects.

The reducers use `findIndex`, an indexed write, and `filter`, each keyed on `_id` with
`===`. These are modelled once, in module `Lists`:

- `FindIndex` is specified by its first-match contract.
- `ReplaceFirst` and `Without` are independent recursive definitions.
- The lemmas there state the frame properties: length preserved, other indices
  unchanged, order kept, no match means no change.

Module `Thunks` models the message a thunk raises when its API call fails:
`error.response?.data?.message || <fallback>`.

Each class also keeps one invariant, `Valid()`: while `loading` is true, `error` is
`null`. The model proves that every transition establishes it.

The update-organization path is modelled as written. The update thunk fulfils with
`{ id, organizationData }` (organizationsSlice.js line 64), which has no `_id`. The
reducer then searches the list for `payload._id`, which is `undefined`, and stores the
whole payload. `OrganizationsSlice.UpdatePayloadMatchesOnlyUnidentified` proves the
consequence:
- when every stored organization carries an `_id`, the list is left unchanged;
- otherwise the wrapper object overwrites the first organization that has no `_id`.

The client method `OrganizationsSlice.UpdateAfterCreate` replays create-then-update
through the class and shows that the list still holds the created record.

The employees update path does not have this problem: its thunk returns `employeeId`
separately, and the reducer matches on it.

## Model

| member | source | states |
|---|---|---|
| `Lists.FindIndex` | src/features/organizations/organizationsSlice.js:152-154 | `findIndex` on `_id`: -1 exactly when no record has that `_id`, otherwise an index whose record matches and before which none does |
| `Lists.ReplaceFirst` | src/features/organizations/organizationsSlice.js:148-158 | the replace-first-match update never changes the length of the list |
| `Lists.ReplaceFirstIsIndexedWrite` | src/features/organizations/organizationsSlice.js:152-157 | the reducer's `findIndex` followed by `list[index] = x` when `index !== -1` is the same as replacing the first record with that `_id`, and is no change when there is none |
| `Lists.ReplaceFirstFrame` | src/features/employees/employeesSlice.js:123-127 | after an update the first matching index holds the new record and every other index holds what it held before |
| `Lists.ReplaceFirstNoMatch` | src/features/organizations/organizationsSlice.js:155-157 | when no record has the searched `_id` the update leaves the list unchanged |
| `Lists.ReplaceFirstTwice` | src/features/employees/employeesSlice.js:119-128 | two successive updates of the same employee, the first keeping its `_id`, leave the list as the second update alone would |
| `Lists.WithoutMembership` | src/features/organizations/organizationsSlice.js:173 | a record is kept by the delete filter exactly when it was in the list and its `_id` differs from the deleted id |
| `Lists.WithoutRemovesKey` | src/features/employees/employeesSlice.js:143-144 | after the delete filter no record with the deleted id remains |
| `Lists.WithoutLength` | src/features/organizations/organizationsSlice.js:169-174 | the delete filter never grows the list, and keeps its length exactly when nothing had the deleted id |
| `Lists.WithoutNoMatch` | src/features/employees/employeesSlice.js:139-145 | deleting an id that no record has leaves the list unchanged |
| `Lists.WithoutConcat` | src/features/organizations/organizationsSlice.js:173 | the delete filter treats each element on its own, keeping the survivors in their original order (it distributes over concatenation) |
| `Lists.WithoutIdempotent` | src/features/employees/employeesSlice.js:144 | deleting the same id twice is the same as deleting it once |
| `Lists.WithoutSubMultiset` | src/features/organizations/organizationsSlice.js:173 | the delete filter only drops records, never adds or duplicates one |
| `Thunks.ServerMessage` | src/features/organizations/organizationsSlice.js:21 | the optional chain `error.response?.data?.message` yields a message exactly when the response, its body and the body's message are all present |
| `Thunks.ErrorMessage` | src/features/organizations/organizationsSlice.js:20-22 | the raised message is either the server's or the fallback; it is the server's when that is non-empty, the fallback otherwise, and never empty when the fallback is not |
| `OrganizationsSlice.Fallback` | src/features/organizations/organizationsSlice.js:20-83 | each of the five thunks has a non-empty fallback message |
| `OrganizationsSlice.RejectionMessage` | src/features/organizations/organizationsSlice.js:19-23 | the message each of the five thunks raises on failure (also lines 35-37, 51-53, 66-68, 81-83) is never empty, and is that thunk's fallback when the server sent no non-empty message |
| `OrganizationsSlice.FallbackNamesThunk` | src/features/organizations/organizationsSlice.js:20-83 | no two of the five thunks share a fallback, so without a server message the error tells which operation failed |
| `OrganizationsSlice.UpdatePayloadMatchesOnlyUnidentified` | src/features/organizations/organizationsSlice.js:148-158 | with the update thunk's `{ id, organizationData }` payload, the list is unchanged when every organization has an `_id`; otherwise the payload lands on the first one without an `_id` |
| `OrganizationsSlice.OrganizationsState.constructor` | src/features/organizations/organizationsSlice.js:5-10 | the initial state is an empty list, no current organization, not loading, no error |
| `OrganizationsSlice.OrganizationsState.Pending` | src/features/organizations/organizationsSlice.js:112-116 | every pending case (also lines 96-99, 129-132, 144-147, 165-168) sets loading, clears the error and leaves the list alone; only fetch-by-id also clears the current organization |
| `OrganizationsSlice.OrganizationsState.Rejected` | src/features/organizations/organizationsSlice.js:122-126 | every rejected case (also lines 106-109, 138-141, 159-162, 175-178) clears loading, stores the action's message as the error and leaves the list alone; only fetch-by-id also clears the current organization |
| `OrganizationsSlice.OrganizationsState.FetchOrganizationsFulfilled` | src/features/organizations/organizationsSlice.js:100-105 | the list becomes exactly the fetched payload; loading and error are cleared |
| `OrganizationsSlice.OrganizationsState.FetchOrganizationByIdFulfilled` | src/features/organizations/organizationsSlice.js:117-121 | the payload becomes the current organization; the list is unchanged |
| `OrganizationsSlice.OrganizationsState.CreateOrganizationFulfilled` | src/features/organizations/organizationsSlice.js:133-137 | the created organization is appended: the old list followed by the payload |
| `OrganizationsSlice.OrganizationsState.UpdateOrganizationFulfilled` | src/features/organizations/organizationsSlice.js:148-158 | the new list is the old one with its first record whose `_id` equals the payload's `_id` replaced by the whole payload |
| `OrganizationsSlice.OrganizationsState.DeleteOrganizationFulfilled` | src/features/organizations/organizationsSlice.js:169-174 | the new list is the old one without the records whose `_id` equals the payload's `id` |
| `EmployeesSlice.Fallback` | src/features/employees/employeesSlice.js:20-70 | each of the four thunks has a non-empty fallback message |
| `EmployeesSlice.RejectionMessage` | src/features/employees/employeesSlice.js:20-24 | the message each of the four thunks raises on failure (also lines 36-38, 52-54, 68-70) is never empty, and is that thunk's fallback when the server sent no non-empty message |
| `EmployeesSlice.FallbackNamesThunk` | src/features/employees/employeesSlice.js:20-70 | no two of the four thunks share a fallback, so without a server message the error tells which operation failed |
| `EmployeesSlice.EmployeesState.constructor` | src/features/employees/employeesSlice.js:6-10 | the initial state is an empty organization map, not loading, no error |
| `EmployeesSlice.EmployeesState.Pending` | src/features/employees/employeesSlice.js:83-86 | every pending case (also lines 99-102, 115-118, 135-138) sets loading, clears the error and leaves the map unchanged |
| `EmployeesSlice.EmployeesState.Rejected` | src/features/employees/employeesSlice.js:93-96 | every rejected case (also lines 109-112, 129-132, 146-149) clears loading, stores the message and leaves the map unchanged |
| `EmployeesSlice.EmployeesState.FetchEmployeesFulfilled` | src/features/employees/employeesSlice.js:87-92 | the organization's entry becomes exactly the fetched list, whatever it held; no other organization's entry changes |
| `EmployeesSlice.EmployeesState.CreateEmployeeFulfilled` | src/features/employees/employeesSlice.js:103-108 | the new employee is appended to its organization's list; no other organization's entry changes |
| `EmployeesSlice.EmployeesState.UpdateEmployeeFulfilled` | src/features/employees/employeesSlice.js:119-128 | the first employee whose `_id` is `employeeId` is replaced by the returned data; no other organization's entry changes |
| `EmployeesSlice.EmployeesState.DeleteEmployeeFulfilled` | src/features/employees/employeesSlice.js:139-145 | every employee whose `_id` is `employeeId` is removed from that organization's list; no other organization's entry changes |

## Left out

- The HTTP calls of `employeeAPI.js` and `organizationAPI.js` and the `await` in each thunk: network I/O. A successful call is a fulfilled method's parameter, a failed one the `Thunks.ApiError` it rejects with.
- The `localStorage.setItem` write after fetching all organizations (organizationsSlice.js line 104): browser storage I/O.
- The async-thunk and store machinery (`createAsyncThunk`, `createSlice`, `configureStore`, Immer drafts) and the interleaving of actions from concurrent requests: library internals. Each action is one sequential method call.
- The `console.log` in the fetch-by-id thunk: output only.
- `EmployeesSlice.EmployeesState.CreateEmployeeFulfilled`, `UpdateEmployeeFulfilled` and `DeleteEmployeeFulfilled` require the organization's entry to exist. The source dereferences it unchecked, so a missing entry throws a `TypeError` inside the reducer; that throw is not modelled.
- `Thunks.ErrorMessage`: the server's message is modelled as a string or absent. A non-string message is not modelled: the source would give a truthy number or object to `Error`, which turns it into text, and would treat `0`, `false` or `null` as falsy.
- `JsValues.Record` is always an object whose `_id` and `id` are a string or absent. A `null` payload is not modelled: in the source a `null` fetch-by-id payload makes `currentOrganization` `null` (organizationsSlice.js line 120), and a `null` delete payload throws on `action.payload.id` (line 173). An `_id` or `id` property holding `null`, which `===` tells apart from a missing one, is not modelled either.
- `OrganizationsSlice.OrganizationsState.Rejected` and `EmployeesSlice.EmployeesState.Rejected` store whatever message the action carries, as the reducers do; that it is never empty comes from `RejectionMessage`, and the model does not tie the two together, because the thunk-to-action plumbing is library code.
- Organization ids used as map keys are strings. JavaScript's conversion of other key values to property names is not modelled.
- The React components, routing, form validation, search filtering and date formatting: UI code outside the slices.
