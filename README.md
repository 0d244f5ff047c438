# Signer manager core, modelled in Dafny

This project models the three pieces of logic in the signer-management web
client that hold behaviour of their own:

- **NPWP helpers** (`src/utils/npwp.js`, module `Npwp`). An NPWP is the
  15-digit Indonesian taxpayer number. `cleanNPWP` strips `.` and `-`.
  `formatNPWP` lays a 15-character cleaned string out as `XX.XXX.XXX.X-XXX.XXX`
  and passes every other input through unchanged. `validateNPWP` accepts
  exactly 15 decimal digits after cleaning. These are pure functions. The
  regular expressions are written out: `Clean` is the `/[.-]/g` replacement and
  `MatchesDigits` is `/^\d{n}$/`. JavaScript's falsy inputs (`null`,
  `undefined`, `''`) take the same early return in each function, so all
  three are modelled by `""`.
- **Notification store** (`src/composables/useNotifications.js`, module
  `Notifications`). This is one ordered list of toasts shared by every
  `useNotifications()` caller, modelled as class `NotificationCenter`. Its
  field `notifications` is the list. Its field `armed` is the multiset of ids
  whose one-shot expiry timer is scheduled and has not fired yet. A timer
  firing is the method `Expire`.
- **Mock signer API** (`src/services/mockApi.js`, module `MockApi`). This is
  the in-memory `mockSigners` table with its `nextId` counter, modelled as
  class `SignerStore`, and the five CRUD operations. A rejected promise
  (`throw new Error('Signer not found')`) is an `Err` result, and the state is
  then unchanged.

Module `Lists` states once the two array primitives these files use:
`findIndex` (`FindIndex`, taking the callback as a function value) and
`splice(i, 1)` (`Splice`).

Three behaviours of the code that a reader might not expect, which the model
keeps:

- `cleanNPWP` keeps every character other than `.` and `-`, letters and other
  punctuation included (`src/utils/npwp.js:26`).
- `clearAll` does not cancel pending expiry timers
  (`src/composables/useNotifications.js:38-40`), and closing a toast by hand
  does not cancel its timer either (`:26-31`). `ClearAll` and
  `RemoveNotification` keep `armed` as it was. A late firing is harmless only
  as long as no entry added since then carries the timer's id: removing an
  absent id leaves the list unchanged (`Remove`'s clause
  `!Holds(list, id) ==> r == list`). When a newer entry does reuse the id, the
  stale timer removes that entry, and `StaleTimerRemovesNewer` shows this
  after both a close and a `clearAll`.
- Notification ids come from `Date.now() + Math.random()`, which makes a
  repeated id unlikely but not impossible. The model takes the id as a
  parameter with no freshness precondition. Every lemma that needs distinct
  ids among the listed entries assumes them explicitly. No member assumes
  that an id is never reused after its entry is gone, and the model shows
  what happens when it is.

## Model

| member | source | states |
|---|---|---|
| `Lists.FindIndex` | src/composables/useNotifications.js:27 | findIndex returns -1 exactly when no element satisfies the callback. Otherwise it returns an index whose element satisfies it, and no element before that index does |
| `Lists.Splice` | src/services/mockApi.js:92 | splice(i, 1) yields one element fewer. Elements before i stay in place and elements after i move down by one. The multiset loses exactly the element at i |
| `Npwp.Clean` | src/utils/npwp.js:24-27 | the cleaned string is no longer than the input and contains no `.` and no `-`. In particular, empty input gives `""` |
| `Npwp.CleanContents` | src/utils/npwp.js:26 | every character other than `.` and `-` occurs in the result exactly as often as in the input. Separators occur zero times |
| `Npwp.CleanAppend` | src/utils/npwp.js:26 | cleaning distributes over concatenation. Together with the one-character case, the kept characters therefore stay in their original order |
| `Npwp.CleanIdentity` | src/utils/__tests__/npwp.test.js:43-46 | a string without separators is returned unchanged |
| `Npwp.CleanIdempotent` | src/utils/npwp.js:26 | cleaning twice is cleaning once |
| `Npwp.Format` | src/utils/npwp.js:6-17 | if the cleaned input does not have 15 characters, the input is returned unchanged. If it does, the result is the 20-character layout: dots at 2, 6, 10 and 16, a dash at 12, and the 15 cleaned characters in order in the other positions |
| `Npwp.PunctuatedUnique` | src/utils/npwp.js:16 | the layout determines the string: two strings that both punctuate the same 15 characters are equal |
| `Npwp.PunctuateRoundTrip` | src/utils/npwp.js:16 | cleaning the punctuated template of 15 separator-free characters gives those characters back |
| `Npwp.FormatCleanRoundTrip` | src/utils/npwp.js:10-16 | when the cleaned input has 15 characters, cleaning the formatted string gives the cleaned input |
| `Npwp.FormatIdempotent` | src/utils/npwp.js:6-17 | formatting twice is formatting once, for every input, including pass-through inputs |
| `Npwp.MatchesDigits` | src/utils/npwp.js:37 | the matcher for `/^\d{n}$/` holds exactly when the string has n characters and all of them are `'0'..'9'` |
| `Npwp.Validate` | src/utils/npwp.js:34-38 | validation holds exactly when the input is non-empty, its cleaned form has 15 characters, and all of those characters are decimal digits |
| `Npwp.ValidateWithoutGuard` | src/utils/npwp.js:35-37 | the emptiness guard is implied by the length test: validation holds exactly when the cleaned form is 15 digits |
| `Npwp.ValidFormats` | src/utils/npwp.js:13-16 | for a valid input, Format never takes the pass-through branch. It produces the punctuated layout of the cleaned digits, with a digit in every slot, and that output validates again |
| `Npwp.BareDigitsRoundTrip` | src/utils/__tests__/npwp.test.js:6-10 | a bare 15-digit string validates and is its own cleaned form. It formats to its punctuated layout, and cleaning that gives it back |
| `Npwp.BareWrongLength` | src/utils/npwp.js:13 | a separator-free string whose length is not 15 is passed through unchanged by Format and rejected by Validate |
| `Npwp.FormatBareIs` | src/utils/npwp.js:16 | Format of a bare 15-digit string equals any string that punctuates it |
| `Npwp.FormatIgnoresDigits` | src/utils/npwp.js:13-16 | Format does not check for digits: some input that fails validation is still punctuated |
| `Npwp.CleanExample` | src/utils/__tests__/npwp.test.js:31-35 | `"12.345.678.9-012.345"` cleans to `"123456789012345"` |
| `Npwp.FormatExample` | src/utils/__tests__/npwp.test.js:6-10 | `"123456789012345"` formats to `"12.345.678.9-012.345"` |
| `Npwp.FormatFormattedExample` | src/utils/__tests__/npwp.test.js:23-27 | an already formatted NPWP formats to itself |
| `Npwp.ValidateFormattedExample` | src/utils/__tests__/npwp.test.js:54-56 | the formatted NPWP validates |
| `Npwp.ShortExample` | src/utils/__tests__/npwp.test.js:18-21 | 13 digits are passed through by Format and rejected by Validate |
| `Npwp.LongExample` | src/utils/__tests__/npwp.test.js:62-64 | 17 digits are rejected by Validate |
| `Notifications.Remove` | src/composables/useNotifications.js:26-31 | removing an absent id leaves the list unchanged. Removing a present id shortens the list by one, and the result holds nothing the list did not (it adds nothing) |
| `Notifications.RemoveFirst` | src/composables/useNotifications.js:27-29 | for a present id, exactly the first entry with that id is cut out. The entries before and after it keep their order |
| `Notifications.RemoveCons` | src/composables/useNotifications.js:27-29 | removal on a list with a leading entry either drops that entry, if it matches, or keeps it and removes from the rest |
| `Notifications.RemoveCommutes` | src/composables/useNotifications.js:18-20 | two removals give the same list in either order, so the order in which timers and close clicks run does not matter |
| `Notifications.RemoveDistinct` | src/composables/useNotifications.js:26-31 | with distinct ids, after a removal the id is absent and the ids stay distinct |
| `Notifications.RemoveTwice` | src/composables/useNotifications.js:28 | with distinct ids, removing twice equals removing once. This concerns the list alone: it does not cover an entry added between the two removals |
| `Notifications.AppendFresh` | src/composables/useNotifications.js:15 | appending an entry with a fresh id keeps the ids distinct |
| `Notifications.AddThenRemove` | src/composables/useNotifications.js:15-23 | appending an entry with a fresh id and then removing that id gives back the earlier list |
| `Notifications.NotificationCenter.constructor` | src/composables/useNotifications.js:3 | the shared list starts empty and no timer is armed |
| `Notifications.NotificationCenter.AddNotification` | src/composables/useNotifications.js:6-24 | appends exactly one entry `{id, message, type, duration}` at the end and returns its id. Earlier entries are unchanged. A timer is armed for that id exactly when the duration is positive. Type defaults to Info and duration to 3000. A fresh id keeps the ids distinct |
| `Notifications.NotificationCenter.RemoveNotification` | src/composables/useNotifications.js:26-31 | the list becomes `Remove` of the old list. Armed timers are untouched. With distinct ids the id is gone afterwards |
| `Notifications.NotificationCenter.Expire` | src/composables/useNotifications.js:18-20 | an armed timer fires: one arming of the id is spent and the id is removed as removeNotification does |
| `Notifications.NotificationCenter.ShowSuccess` | src/composables/useNotifications.js:33 | appends a Success entry with duration 3000 and arms its timer |
| `Notifications.NotificationCenter.ShowError` | src/composables/useNotifications.js:34 | appends an Error entry with duration 3000 and arms its timer |
| `Notifications.NotificationCenter.ShowWarning` | src/composables/useNotifications.js:35 | appends a Warning entry with duration 3000 and arms its timer |
| `Notifications.NotificationCenter.ShowInfo` | src/composables/useNotifications.js:36 | appends an Info entry with duration 3000 and arms its timer |
| `Notifications.NotificationCenter.ClearAll` | src/composables/useNotifications.js:38-40 | the list becomes empty whatever it held. Armed timers are not cancelled |
| `Notifications.ShownInCallOrder` | src/components/__tests__/NotificationContainer.test.js:33-39 | success, error and warning toasts shown with ShowSuccess, ShowError and ShowWarning appear in that call order, each with the default duration |
| `Notifications.CloseRemovesToast` | src/components/__tests__/NotificationContainer.test.js:41-52 | closing the single toast shown empties the list, and its timer firing afterwards, with nothing added in between, leaves the list empty |
| `Notifications.ExpiresOnItsOwn` | src/composables/useNotifications.js:17-21 | a toast with a positive duration is in the list until its timer fires, and is gone afterwards. A timer still armed when clearAll ran fires later, with no entry added since under its id, and the list stays empty |
| `Notifications.StaleTimerRemovesNewer` | src/composables/useNotifications.js:17-29 | when a toast is closed or cleared and a newer toast with the same id and no timer is added, the old timer removes the newer toast, although the ids are distinct at every step |
| `MockApi.InitialSigners` | src/services/mockApi.js:4-29 | the seeded table holds three records with ids 1, 2 and 3, in that order |
| `MockApi.IndexOf` | src/services/mockApi.js:72 | the index found is -1 exactly when no record has the id. Otherwise it is the first record with the id |
| `MockApi.InitialInvariant` | src/services/mockApi.js:4-31 | the seeded table has distinct ids, all below the initial counter 4 |
| `MockApi.AppendKeepsInvariant` | src/services/mockApi.js:59-63 | appending a record with the counter's id and bumping the counter keeps ids distinct and below the counter |
| `MockApi.ReplaceKeepsInvariant` | src/services/mockApi.js:76-79 | replacing a record by one with the same id keeps the invariant |
| `MockApi.SpliceKeepsInvariant` | src/services/mockApi.js:92 | splicing a record out keeps the invariant, and its id is then absent from the table |
| `MockApi.SignerStore.constructor` | src/services/mockApi.js:4-31 | the store starts with the seeded table and `nextId == 4`, and its invariant holds |
| `MockApi.SignerStore.GetSigners` | src/services/mockApi.js:37-42 | returns exactly the current table, in order, and changes nothing |
| `MockApi.SignerStore.GetSigner` | src/services/mockApi.js:45-54 | succeeds exactly when some record has the id, and then returns the first such record. Otherwise it fails with "Signer not found". It changes nothing |
| `MockApi.SignerStore.CreateSigner` | src/services/mockApi.js:57-67 | appends one record carrying the old counter value and the payload. Earlier records are unchanged. The counter rises by exactly one. The invariant is kept, and the new id was never handed out before |
| `MockApi.SignerStore.UpdateSigner` | src/services/mockApi.js:70-83 | for a present id, replaces exactly the first record with that id by the payload under the same id. The length, the other positions and the counter are unchanged. For an absent id it fails with "Signer not found" and the table is unchanged. The invariant is kept |
| `MockApi.SignerStore.DeleteSigner` | src/services/mockApi.js:86-96 | for a present id, cuts out exactly the first record with that id, and the others keep their order. For an absent id it fails with "Signer not found" and the table is unchanged. The counter never decreases. The invariant is kept and the id is gone |
| `MockApi.DeleteThenCreate` | src/services/mockApi.js:60 | after deleting seeded record 2 and creating one, the ids are 1, 3, 4: a freed id is not reused |

## Left out

- Network delay, `async` and the promise wrapping of every mock operation (`src/services/mockApi.js:33`). Each operation runs to completion here, and a rejection is an `Err` result.
- Time. A timer's duration is recorded but not counted down. `Expire` may be called for any armed id, at any point, and only for an armed one: a timer exists only after an add with a positive duration.
- `Date.now() + Math.random()` id generation (`src/composables/useNotifications.js:7`). Ids are integers supplied by the caller, because the source's ids come from the clock and floating-point randomness.
- Notification `type` values other than the four kinds. JavaScript accepts any string there, but the source only ever passes these four.
- Non-string truthy inputs to the NPWP helpers, such as numbers, on which `.replace` would throw.
- Npwp.Format: the source's length test (`src/utils/npwp.js:13`) and its `slice` offsets (`:16`) count UTF-16 code units, while the model counts Dafny characters (Unicode scalar values). On input with a character outside the Basic Multilingual Plane, such as an emoji followed by 13 digits, the source sees length 15 and punctuates (and may split a surrogate pair), where the model passes the string through unchanged. `Clean` and `Validate` give the same answers as the source on every string the model can represent.
- MockApi.SignerStore.CreateSigner: `nextId` is a JavaScript number, an IEEE double (`src/services/mockApi.js:31`). Once it reaches 2^53, `nextId++` (`:60`) yields 2^53 + 1, which rounds back to 2^53, so every later `createSigner` is given the same id and ids repeat. The model's counter is an unbounded `int`, so its promise that ids are distinct and never reused (in `CreateSigner`, `AppendKeepsInvariant` and `DeleteThenCreate`) holds for the source only while `nextId` stays below 2^53.
- Notifications.NotificationCenter.AddNotification: `duration` is a JavaScript number (`src/composables/useNotifications.js:6`), so a fractional positive duration such as 0.5 also arms a timer (`:17`). The model's duration is an `int` and cannot express such values.
- Loose equality `s.id == id` and `parseInt(id)` in `src/services/mockApi.js`. Ids are integers, and on integers both coincide with `==`.
- A payload carrying its own `id` field. In the source it would override the assigned id (`src/services/mockApi.js:59-62`, `:76-79`), but the model's payload has no such field.
- Object identity of records. `getSigners` returns `[...mockSigners]` (`src/services/mockApi.js:40`), a new array whose records are the table's own objects, so a caller who edits a returned record edits the table. The model's records are values, so it does not capture this aliasing. `getSigner`, `createSigner` and `updateSigner` return `{ ...x }` copies (`:52`, `:65`, `:81`), which the value records do match.
- `src/services/api.js` (the axios client and the `USE_MOCK_API` switch), `src/router/index.js`, Vue reactivity and rendering. These are foreign library calls and declarative configuration with no logic of their own.
