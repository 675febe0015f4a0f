# Lendo: payout-winner resolution, display helpers and app store, in Dafny

Lendo is a lending-circle dApp. Each month the members of a circle vote on
who receives the pool's payout. The backend endpoint `POST /api/calculate-winner`
(backend/server.js) previews that month's winner. It reads the month's
candidates from the circle contract. For each candidate it reads the weighted
vote total and the credit score. It sorts the candidates by votes descending,
then credit score descending, then lower-cased address ascending. The head of
that list is the expected winner. A winner already recorded by the contract
overrides it.

This project models that handler, the display helpers of
frontend/src/utils.ts and the app state store of
frontend/src/store/useAppStore.ts, and proves their properties:

- `jstext.dfy` (module `JsText`) covers the JavaScript string operations the core
  relies on: ASCII `toLowerCase`, the `<` order on strings with its order
  laws, `slice`, and the decimal text of a `BigInt` together with its inverse.
- `winner.dfy` (module `Winner`) holds the handler. It covers the parameter
  guard, the empty short-circuit, the candidate reads with their zero defaults,
  the comparator and the in-place sort of the fetched array, the
  reconciliation with `getWinner`, and the JSON response. Every contract read
  is an input (`Chain`): each read either returned a value or threw an error
  with a message.
- `utils.dfy` (module `Utils`) holds `formatAddress`, `getCircleStatus` and
  `getStatusColor`.
- `store.dfy` (module `AppStore`) holds the zustand store. `State`/`Step`
  specify each action on a snapshot of the fields. The class `Store` holds the
  fields and has one method per action, each proved against `Step`.
- `wrappers.dfy` (module `Wrappers`) holds `Option`, which stands for
  JavaScript's `null`/`undefined`.

Three behaviours of the handler are easy to miss:

- The empty-candidate reply is `{ winner: null, candidates: [] }`. It has no
  `month` field.
- A read of votes or credit score that yields nothing becomes 0 through
  `|| 0n`. It does not fail the request.
- A request whose `month` is `null` passes the guard, which tests only for
  `undefined`. `BigInt(null)` then throws a TypeError while the first read's
  arguments are built, so the reply is status 500, not 400.

## Model

| member | source | states |
|---|---|---|
| `Winner.CalculateWinner` | backend/server.js:106-210 | A falsy `circleAddress` or an absent `month` gives status 400 with the missing-parameter message. Month 0 is accepted. A `null` month gives status 500 with the TypeError of `BigInt(null)`, before any read. A thrown read before the reply gives status 500 with that error's message. An absent or empty candidate list gives `{winner: null, candidates: []}` with no month. Otherwise the reply carries the sorted permutation of the fetched records as JSON, and the winner is the contract's recorded winner if set, else the head of that sorted list. The reply also carries the month. |
| `Winner.Gather` | backend/server.js:115-158 | The result is "no candidates" exactly when `getCandidates` returned null or an empty list, whatever the other reads would give. It succeeds exactly when `getCandidates` returned a non-empty list, `creditRegistry` returned, and both reads of every candidate returned. A thrown `getCandidates`, a thrown `creditRegistry` read after a non-empty list, and a failed fan-out are each a read failure carrying that error's message. On success there is one record per listed candidate, in list order, built from that candidate's reads against the registry that was read. |
| `Winner.FetchAll` | backend/server.js:134-158 | The fan-out succeeds exactly when both reads of every candidate return. Each record keeps the listed address and takes the votes and score read, with a read that yields nothing replaced by 0. A failure carries the message of a failing candidate's first thrown read: the votes read, because it is awaited before the score read. |
| `Winner.Compare` | backend/server.js:161-176 | The comparator returns only -1, 0 or 1. It returns 0 exactly when votes, credit score and lower-cased address all coincide. |
| `Winner.MoreVotesFirst` | backend/server.js:162-164 | A candidate with strictly more votes sorts first, in either argument order, whatever the credit scores. |
| `Winner.HigherScoreFirst` | backend/server.js:166-168 | With equal votes, the strictly higher credit score sorts first, in either argument order. |
| `Winner.SmallerAddressFirst` | backend/server.js:170-175 | With equal votes and scores, the lexicographically smaller lower-cased address sorts first, in either argument order. |
| `Winner.CompareAntisymmetric` | backend/server.js:161-176 | Swapping the two candidates negates the comparator's answer. |
| `Winner.CompareTransitive` | backend/server.js:161-176 | "Sorts no later than" is transitive, so the comparator is a consistent total preorder as `Array.prototype.sort` requires. |
| `Winner.Insert` | backend/server.js:161-176 | One insertion step moves the next entry left past every entry that sorts after it. The sorted prefix grows by one, every entry after the inserted one stays where it was, and the array stays a permutation of what it held. |
| `Winner.SortCandidates` | backend/server.js:161-176 | After the in-place sort, every pair of entries (so every adjacent pair) is in comparator order. The array is a permutation of what it held before. |
| `Winner.SortedUnique` | backend/server.js:161-176 | When records sharing a lower-cased address are identical, two sorted arrangements of the same records are equal. The ordering, and so the winner, is fully determined by the fetched data. |
| `Winner.ExpectedWinnerIsBest` | backend/server.js:194-195 | The head of the sorted list sorts no later than any fetched candidate. With unique addresses, it sorts strictly before every other candidate. |
| `Winner.ReportedWinner` | backend/server.js:178-198 | A `getWinner` read that returned a non-empty address other than `0x000…000` is the reported winner. A thrown read, the zero address or an empty value leaves the expected winner. |
| `Winner.ToJson` | backend/server.js:199-203 | A response entry keeps the original-case address. Its votes and credit score are exactly the canonical decimal texts of the record's numbers: digit strings without leading zeros that read back as those numbers. |
| `Winner.ToJsonAll` | backend/server.js:199-203 | The `candidates` array has one entry per sorted record, in the same order. |
| `Winner.ToJsonInjective` | backend/server.js:199-203 | Two different records never produce the same response entry. |
| `JsText.LowerChar` | backend/server.js:171-172 | An ASCII upper-case letter becomes the lower-case letter 32 code points above it. Every other character is unchanged. |
| `JsText.Lower` | backend/server.js:171-172 | `toLowerCase` keeps the length and maps every character through the ASCII lower-case mapping. It leaves no upper-case letter. |
| `JsText.LexAsymmetric` | backend/server.js:173-174 | String `<` is asymmetric: `addrA < addrB` and `addrB < addrA` never hold together. |
| `JsText.LexTrichotomy` | backend/server.js:173-175 | Two strings with neither below the other are equal, so the final `return 0` is reached only for identical lower-cased addresses. |
| `JsText.LexTransitive` | backend/server.js:173-174 | String `<` is transitive. |
| `JsText.LexNotLessTransitive` | backend/server.js:173-175 | "Not below" on strings is transitive. |
| `JsText.ToDecimal` | backend/server.js:201-202 | `toString()` of a non-negative integer has at least one digit, consists of digits only, and starts with `0` only for zero itself (`"0"`). |
| `JsText.DecimalRoundTrip` | backend/server.js:201-202 | Reading the decimal text back gives the original number. |
| `JsText.ToDecimalInjective` | backend/server.js:201-202 | Different numbers have different decimal texts. |
| `Utils.FormatAddress` | frontend/src/utils.ts:7-10 | The empty string formats to the empty string. Any other input gives its first min(6, n) characters, then `...`, then its last min(4, n) characters, as `slice` clamps. |
| `Utils.FormatAddressShape` | frontend/src/utils.ts:9 | An input of 10 or more characters, such as a 42-character address, formats to exactly 13 characters. Its first 6 are the input's prefix, then `...`, then the input's last 4. |
| `Utils.FormatAddressLength` | frontend/src/utils.ts:9 | For a non-empty input of length n, the result has length 3 + min(6, n) + min(4, n). |
| `Utils.GetCircleStatus` | frontend/src/utils.ts:39-42 | Status 0, 1 and 2 give PENDING, ACTIVE and COMPLETED, each for that status only. Every other status, negative ones included, gives UNKNOWN. |
| `Utils.GetStatusColor` | frontend/src/utils.ts:44-51 | Status 0 gives the yellow classes and status 1 the green ones, each for that status only. Every other status gives the gray classes. |
| `Utils.CancelledIsUnknown` | frontend/src/utils.ts:39-51 | Status 3 (a cancelled circle) shows as UNKNOWN, with the same gray as COMPLETED. |
| `Utils.UnknownStatusIsGray` | frontend/src/utils.ts:39-51 | A status shown as UNKNOWN always gets the colour of status 2. |
| `AppStore.Initial` | frontend/src/store/useAppStore.ts:35-40 | The initial store is disconnected, with null address, chain and credit profile, no circles and an empty cache. Its wallet fields are consistent. |
| `AppStore.Store.constructor` | frontend/src/store/useAppStore.ts:34-40 | A new store object holds exactly the initial state. |
| `AppStore.Store.SetWallet` | frontend/src/store/useAppStore.ts:42-47 | Stores the address and chain id. It sets `isConnected` exactly when the address is non-null and non-empty. It leaves the profile, circles and cache unchanged. |
| `AppStore.Store.SetCreditProfile` | frontend/src/store/useAppStore.ts:49-50 | Replaces the credit profile and leaves every other field unchanged. |
| `AppStore.Store.SetCircles` | frontend/src/store/useAppStore.ts:52-53 | Replaces the circle list and leaves every other field unchanged. |
| `AppStore.Store.UpdateCircleData` | frontend/src/store/useAppStore.ts:55-61 | Sets the cache entry for the key to the data and leaves every other field unchanged. |
| `AppStore.Store.Reset` | frontend/src/store/useAppStore.ts:63-71 | Every field returns to its initial value. |
| `AppStore.SetWalletFrame` | frontend/src/store/useAppStore.ts:42-47 | In the state model, `setWallet` writes the three wallet fields, with `isConnected` meaning a non-empty address, and keeps the profile, circles and cache. |
| `AppStore.WalletConsistentAlways` | frontend/src/store/useAppStore.ts:42-71 | If `isConnected` agrees with "address set and non-empty" before a sequence of actions, it still agrees after it. |
| `AppStore.WalletConsistentReachable` | frontend/src/store/useAppStore.ts:34-71 | The initial store is wallet-consistent, so every state reached from it by any sequence of actions is too. |
| `AppStore.UpdateCircleDataFrame` | frontend/src/store/useAppStore.ts:55-61 | Updating a key maps it to the new data and adds exactly that key. Every other key keeps its value, and no other field changes. |
| `AppStore.UpdateCircleDataLastWriteWins` | frontend/src/store/useAppStore.ts:55-61 | Two writes to the same key leave the same state as the second write alone. |
| `AppStore.ResetRestoresInitial` | frontend/src/store/useAppStore.ts:63-71 | `reset` after any sequence of actions, from any state, gives exactly the initial state. |

## Left out

- Contract reads (`publicClient.readContract`) are network I/O. Their outcomes are inputs: a `Chain` value holds a returned value or a thrown message for each read.
- Winner.FetchAll: the `Promise.all` fan-out is concurrent. When several candidates' reads fail, the model reports the first failing candidate in list order. The source reports whichever rejection settles first, which depends on timing.
- Winner.SortCandidates: it states sorted and permutation but not stability. Stability matters only for records with the same votes, score and lower-cased address, and the contract's candidate list has unique addresses.
- Request bodies are JSON values. `month` is modelled as absent, `null` or an integer. A fractional, boolean or string month makes `BigInt(month)` throw or coerce. That is not modelled.
- `circleAddress` is modelled as absent or a string, and only the empty string counts as falsy.
- `toLowerCase` is modelled for ASCII only, and string `<` is modelled as code-point order. Both agree with JavaScript on hexadecimal addresses. Non-ASCII case mappings and surrogate pairs are not modelled.
- Logging with `console.error` and the Express plumbing (`res.status`, `res.json`) are not modelled. A reply is the `Response` value.
- The WebSocket chat relay and its message map, and the `/api/chat`, `/api/candidate-votes` and `/api/has-voted` endpoints, are I/O or stubs that return constants.
- `formatEther` and `parseEther` in frontend/src/utils.ts work in floating point. `cn` only wraps a class-name library.
- Utils.GetCircleStatus and Utils.GetStatusColor take an integer status. A fractional JavaScript number, which also yields UNKNOWN or gray, is not modelled.
- The React pages and components, the wagmi hooks, routing, wallet and chain configuration, and the ABI and address files are UI, configuration or library wrappers.
- The store's subscription and re-render mechanism (zustand) is not modelled. The cached circle data is untyped in the source and is a type parameter here.
