# Subscription plan manager: a verified model

This project models the two parts of the subscription plan manager that hold logic.

- **The server's in-memory store** (`packages/server/src/db/store.ts`). It holds a fixed catalog of four plans (Free, T1, T2, Enterprise) and one mutable pointer to the current plan. `getSubscriptions` returns the catalog. `getCurrentSubscription` returns the pointer. `setCurrentSubscription(code)` looks the code up with `find` and moves the pointer to the plan it finds; if no plan has that code it does nothing.
- **The client controller** (`packages/app/src/App.tsx`). It owns the UI state record `(subscriptions, currentSubscription, loading, error, actionLoading)`. Its four handlers change that record: `fetchSubscriptions`, `fetchCurrentSubscription`, `upgradeSubscription` and `downgradeSubscription`. Each card also derives an `isLoading` flag, which disables the card's buttons.

Files:

- `types.dfy` (module `Types`): the plan record. `price` is either `Amount(int)` or `Label(string)`. The module also has an `Option` type and the predicates `UniqueCodes` and `HasCode`.
- `store.dfy` (module `Store`):
  - the catalog constant `Subscriptions`;
  - `Find`, the first-match lookup that `find` performs;
  - `Selected`, the pure meaning of a set, and the lemmas about it;
  - class `SubscriptionStore`. Its `const` catalog cannot change, and its `currentSubscription` field is reassigned in place;
  - `StoreScenario`, a worked example that drives the class through a fresh start, setting "T2", setting an unknown code and setting "T2" again, using only the class's contracts.
- `client.dfy` (module `Client`):
  - the UI state record and the abstract request `Outcome`: `Success(payload)`, `FailureEnvelope(message)` or `NetworkError`;
  - for `fetchSubscriptions`, upgrade and downgrade, an entry step (what happens before the request is sent; upgrade and downgrade share one, `ActionStarted`) and a settle step (the outcome branch plus the `finally` cleanup); `fetchCurrentSubscription` has no setter before its request and no `finally`, so it has only an outcome step;
  - lemmas about one handler run, and about any sequence of completed runs (`RunAll`);
  - the per-card flag `IsLoading` and the list of flags `CardFlags`;
  - class `App`, whose fields are the five state variables. Its methods make the setter calls in source order, and each method's contract ties the new state to the matching transition.

The network is an input. A request's result is passed in as an `Outcome` value, so every path (success, failure envelope, thrown error) is covered for all payloads.

Two behaviours of the code are worth stating plainly:

- Setting an unknown code does nothing and reports no error (`store.ts` line 26).
- A failed downgrade only alerts: `error` stays cleared and `currentSubscription` is unchanged (`App.tsx` lines 107-111).

## Model

| member | source | states |
|---|---|---|
| `Store.Find` | packages/server/src/db/store.ts:25 | `find` returns nothing exactly when no catalog plan has the code; when it returns a plan, that plan has the code and comes before every other plan with that code |
| `Store.FindUnique` | packages/server/src/db/store.ts:25 | when codes are unique, looking up a plan's code returns exactly that plan |
| `Store.CatalogCodesUnique` | packages/server/src/db/store.ts:3-13 | the catalog has four plans and no two share a code |
| `Store.SetKnownCode` | packages/server/src/db/store.ts:24-28 | setting a code that is in the catalog makes the current plan the catalog plan with that code |
| `Store.SetUnknownCode` | packages/server/src/db/store.ts:25-26 | setting a code that no catalog plan has leaves the current plan unchanged |
| `Store.SetStaysInCatalog` | packages/server/src/db/store.ts:25-28 | if the current plan is a catalog plan, it still is one after any set |
| `Store.SetIdempotent` | packages/server/src/db/store.ts:24-29 | setting the same code twice gives the same current plan as setting it once |
| `Store.SubscriptionStore.constructor` | packages/server/src/db/store.ts:15 | a fresh store points at the first catalog plan: Free, price 0, tag "Start for free", currency "$" |
| `Store.SubscriptionStore.GetSubscriptions` | packages/server/src/db/store.ts:18-20 | returns the fixed four-plan catalog in order and changes nothing |
| `Store.SubscriptionStore.GetCurrentSubscription` | packages/server/src/db/store.ts:21-23 | returns the current plan, which is always a catalog plan, and changes nothing |
| `Store.SubscriptionStore.SetCurrentSubscription` | packages/server/src/db/store.ts:24-29 | keeps the store invariant (fixed catalog, pointer inside it); a known code moves the pointer to a plan with that code; an unknown code leaves it as it was; only the pointer may change |
| `Client.FetchSubscriptionsSteps` | packages/app/src/App.tsx:19-37 | the entry sets `loading` and clears `error`. On success the list becomes the payload. A failure envelope sets `error` to its message; a network error sets the fixed retry message; both keep the old list. Every outcome ends with `loading` false. The current plan and `actionLoading` are untouched |
| `Client.FetchCurrentSubscriptionSteps` | packages/app/src/App.tsx:40-53 | success replaces the current plan; any failure leaves the whole state unchanged; `loading` and `error` are never touched |
| `Client.ActionEntry` | packages/app/src/App.tsx:56-59 | the entry of an upgrade or downgrade sets `loading`, sets `actionLoading` to the code and clears `error`, leaving the list and the current plan alone |
| `Client.UpgradeSteps` | packages/app/src/App.tsx:55-85 | success adopts the returned plan. A failure envelope sets error "Upgrade failed: " plus its message; a network error sets "Upgrade failed. Please try again."; both keep the current plan. After every outcome `actionLoading` is cleared and `loading` is false |
| `Client.DowngradeSteps` | packages/app/src/App.tsx:88-116 | success adopts the returned plan; a failure keeps the current plan; `error` stays cleared on every path; `actionLoading` is cleared and `loading` is false |
| `Client.FirstLoadNetworkError` | packages/app/src/App.tsx:13-37 | a network error on the first list fetch leaves the list empty, shows the retry message and ends loading |
| `Client.RunStep` | packages/app/src/App.tsx:19-116 | for each field, what one complete handler run writes to it and when it leaves the field alone |
| `Client.SubscriptionsAfterRuns` | packages/app/src/App.tsx:19-37 | after any sequence of handler runs, the list is the payload of the last successful list fetch, or the starting list if there was none |
| `Client.CurrentAfterRuns` | packages/app/src/App.tsx:40-116 | after any sequence of runs, the current plan is the plan delivered by the last successful current-plan fetch, upgrade or downgrade, or the starting value if there was none |
| `Client.ErrorAfterRuns` | packages/app/src/App.tsx:19-116 | after any sequence of runs, `error` is the one left by the last run that writes it (every handler but the current-plan fetch), or the starting value if no run wrote it |
| `Client.LoadingAfterRuns` | packages/app/src/App.tsx:35-115 | after a sequence of runs, `loading` is true exactly when it started true and every run was a current-plan fetch |
| `Client.ActionLoadingAfterRuns` | packages/app/src/App.tsx:81-115 | once any upgrade or downgrade has settled, no action is in flight; runs with no action leave `actionLoading` as it was |
| `Client.CardFlags` | packages/app/src/App.tsx:162-163 | one flag per listed plan, in order; a card's flag is set exactly when `actionLoading` is that card's code |
| `Client.OneCardLoading` | packages/app/src/App.tsx:162-195 | when codes are unique, exactly one card is loading (and so has disabled buttons) if the in-flight code is listed, and none otherwise |
| `Client.NoCardLoadingAfterAction` | packages/app/src/App.tsx:81-115 | once an upgrade or downgrade has settled, no card is loading and no button is disabled |
| `Client.CardLoadingDuringAction` | packages/app/src/App.tsx:185-195 | while an action for `code` is in flight, a card is disabled exactly when its code is `code` |
| `Client.App.constructor` | packages/app/src/App.tsx:13-17 | the initial state: no plans, no current plan, loading, no error, no action |
| `Client.App.BeginFetchSubscriptions` | packages/app/src/App.tsx:19-21 | the setter calls give the entry transition of `fetchSubscriptions` |
| `Client.App.EndFetchSubscriptions` | packages/app/src/App.tsx:25-37 | the outcome branch and the `finally` give the settle transition of `fetchSubscriptions` |
| `Client.App.FetchCurrentSubscription` | packages/app/src/App.tsx:43-52 | the outcome branch gives the transition of `fetchCurrentSubscription` |
| `Client.App.BeginUpgrade` | packages/app/src/App.tsx:56-59 | the three setters give the shared action entry |
| `Client.App.EndUpgrade` | packages/app/src/App.tsx:71-84 | the outcome branch, the catch and the `finally` give the upgrade settle transition |
| `Client.App.BeginDowngrade` | packages/app/src/App.tsx:89-92 | the three setters give the shared action entry |
| `Client.App.EndDowngrade` | packages/app/src/App.tsx:104-115 | the outcome branch, the catch and the `finally` give the downgrade settle transition |

## Left out

- HTTP and JSON: `fetch`, `response.json()`, URLs, headers and request bodies. A request is represented only by its `Outcome`. A reply that does not parse becomes `NetworkError`, because the source's `catch` handles both cases the same way.
- The server's HTTP routes are not part of this model. The store itself produces no failure for an unknown code; it simply does nothing.
- Object identity: `getSubscriptions` hands out the catalog array itself and the current-plan pointer refers to one of the catalog's objects. The model uses immutable values compared by value. Nothing in the core mutates the catalog or a plan, so no behaviour is lost, but aliasing is not represented.
- React mechanics: `useState` batching, the `useEffect` mount ordering, and the two un-awaited fetches in `handleRetry`. Those concern async scheduling. The model covers complete handler runs done one after another (`RunAll`), and the entry and settle transitions one at a time. It does not cover two requests in flight at once.
- A request that never completes: no timeout exists in the source, and the model offers no outcome for it.
- `console.log`, `console.error` and `alert` side effects; the messages that are only alerted or logged are not kept in the state.
- JSX markup, CSS class selection (including the card border expression) and the `Loader` animation component.
- JavaScript `number` semantics for price: the catalog uses only integer literals, so amounts are `int`.
- The client-side plan list carries no uniqueness invariant, because it is whatever the server sent. `Client.OneCardLoading` therefore takes unique codes as a premise; the store's catalog meets it (`Store.CatalogCodesUnique`).
