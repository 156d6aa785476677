# Transaction-entry app: a verified model of its state and transforms

This project models, in Dafny, the logic of a small Angular application for entering
transactions. An operator picks a user from a paginated list fetched from a public
demo API and types an amount. The application also has a transaction store kept in
the browser's `localStorage`, and a generator of correlation codes (a "CUS").

The model covers the parts with exact behaviour:

- the transaction store, over an abstract key-value store;
- CUS generation from a base string and the clock reading;
- the user picker's pagination;
- digit extraction and the submit gate of the amount form;
- the delete-confirmation modal of the history view;
- the users store's loading state machine;
- the mapping from API records to users, and the request URL;
- the language and theme preferences;
- the layout's sidebar toggles.

Each source file is one module. Code that mutates fields becomes a `class` whose
methods state the whole new state. Pure transforms become functions, with lemmas
about them.

Shared modules:

- `Wrappers`: `Option`, `Result`, `Outcome`.
- `Decimal`: digit strings. `ToDecimal(n)` is JavaScript's `String(n)` for a
  non-negative integer below 10^21. From 10^21 up, `String(n)` switches to
  exponential notation, which is not modelled. `ValueOf(s)` is `Number(s)` for a string of ASCII digits,
  where the empty string reads as 0.
- `Models`: `User`, `Cus`, `Transaction`.
- `LocalStorage`: `localStorage` as a `KeyValueStore` object, one shared map from
  key to `StoredValue`. A stored JSON array of transactions is kept abstractly as
  the list itself (`Serialized`). Every other stored string, including `""`, is
  `Text`.

The repository's own tests expect more than its code does. Where they disagree, the
model follows the code:

- The tests in src/app/core/repositories/transactions-repository.service.spec.ts
  expect newest-first order and `delete`, `clear` and `transactions()` members.
  The repository (src/app/core/repositories/transactions-repository.service.ts:7-22)
  has none of these. `save` appends the new transaction at the END of the stored
  list, so the list is oldest-first.
- The tests in src/app/features/transactions/pages/transactions/transactions.component.spec.ts:66-74
  expect a submission handler that generates a CUS, encrypts it and saves the
  transaction. The code has no such path: the transactions page
  (src/app/features/transactions/pages/transactions/transactions.component.ts:13-25)
  only loads users and records the selected id. `generateCus` and `save` have no
  caller outside tests, so the model covers them as separate operations.
- Because the repository has no `delete`, the history view's calls to `delete` are
  modelled as a log of requests (`TransactionsHistory.deleteRequests`).
- Stored text that `JSON.parse` rejects is an error outcome (`Err(Malformed(..))`),
  not an empty list. `save` propagates that error and writes nothing.
- The theme tests (src/app/core/services/theme.service.spec.ts:59-63) expect an
  invalid stored value to load as light. `loadTheme` does not validate the stored value. The theme state therefore has a
  third case, `Unrecognised(raw)`, which `toggle` turns into `light`.
- The users store's default load limit is 10, although its tests expect 60. The
  users service's default limit is 100.

## Model

| member | source | states |
|---|---|---|
| `TransactionsRepository.Decode` | src/app/core/repositories/transactions-repository.service.ts:12-15 | `getAll` on the slot's content: absent or `""` gives `[]`, a serialised list gives that list, and any other text is a parse error (no fallback) |
| `TransactionsRepository.AfterSave` | src/app/core/repositories/transactions-repository.service.ts:17-21 | the storage after `save(t)`: it fails with `getAll`'s error exactly when `getAll` fails; otherwise it gains the `'transactions'` key, whose list is the read list plus `t` |
| `TransactionsRepository.SaveThenLoad` | src/app/core/repositories/transactions-repository.service.ts:17-20 | after `save(t)` the list read back is the previous `getAll()` with `t` appended at the end; `save` fails exactly when the read fails |
| `TransactionsRepository.SaveGrowsByOne` | src/app/core/repositories/transactions-repository.service.ts:18-19 | a save adds exactly one entry, `t`, at the end; the earlier entries keep their order and values |
| `TransactionsRepository.SaveKeepsOtherKeys` | src/app/core/repositories/transactions-repository.service.ts:17-20 | a save writes the `'transactions'` key and leaves every other key as it was |
| `TransactionsRepository.SaveKeepsDuplicates` | src/app/core/repositories/transactions-repository.service.ts:19 | saving two transactions with the same id keeps both, in save order |
| `TransactionsRepository.TransactionsRepository.constructor` | src/app/core/repositories/transactions-repository.service.ts:7-10 | the repository works on the given key-value store |
| `TransactionsRepository.TransactionsRepository.GetAll` | src/app/core/repositories/transactions-repository.service.ts:12-15 | `getAll()` is `Decode` of the `'transactions'` slot; as a function it reads storage and changes nothing |
| `TransactionsRepository.TransactionsRepository.Save` | src/app/core/repositories/transactions-repository.service.ts:17-21 | on a readable slot the new storage is the read list plus `t` under `'transactions'` (via `AfterSave`); on an unreadable one the error is returned and storage is unchanged |
| `Decimal.ValueOf` | src/app/features/transactions/components/transaction-form/transaction-form.component.ts:37 | `Number(s)` of a digit string is 0 exactly when every digit is `'0'`, including the empty string |
| `Decimal.ToDecimal` | src/app/core/services/cus-encryption.service.ts:12 | the decimal notation of a number is a non-empty digit string without a leading zero that reads back as the number |
| `CusEncryption.GenerateCus` | src/app/core/services/cus-encryption.service.ts:10-13 | the code starts with `base + "-"`, has length `|base| + 1 + |digits|`, and its suffix is a non-empty digit string whose value is the clock reading |
| `CusEncryption.GenerateCusInjective` | src/app/core/services/cus-encryption.service.ts:12 | for a fixed base, two codes are equal exactly when the clock readings are equal |
| `CusEncryption.SplitGeneratedCus` | src/app/core/services/cus-encryption.service.ts:12 | when the base has no `'-'`, `split('-')` of the code gives exactly `[base, digits]`, and the digits read back as the clock reading |
| `UserSelector.TotalPages` | src/app/features/transactions/components/user-selector/user-selector.component.ts:44 | the page count is the ceiling of `count / pageSize`: enough pages for all items, not one more, and 0 exactly for no items |
| `UserSelector.PageNumbers` | src/app/features/transactions/components/user-selector/user-selector.component.ts:46 | the page list has `total` entries, strictly increasing, holding exactly the numbers 1 to `total` |
| `UserSelector.PageSlice` | src/app/features/transactions/components/user-selector/user-selector.component.ts:47-49 | a page holds at most `pageSize` users: the users from `(page-1)*pageSize` up to the end of the page or of the list, or none past the end |
| `UserSelector.PagesCoverUsers` | src/app/features/transactions/components/user-selector/user-selector.component.ts:44-49 | concatenating pages 1 to `totalPages` gives back exactly the users |
| `UserSelector.PageInRangeIsNonEmpty` | src/app/features/transactions/components/user-selector/user-selector.component.ts:44-49 | every page from 1 to `totalPages` is non-empty, and every page before the last is full |
| `UserSelector.UserSelector.constructor` | src/app/features/transactions/components/user-selector/user-selector.component.ts:21-28 | initial fields: no users, page 1, page size 12, 0 pages, empty lists |
| `UserSelector.UserSelector.UpdatePagination` | src/app/features/transactions/components/user-selector/user-selector.component.ts:43-51 | afterwards the page count, page list and current slice agree with the users and the current page; users and current page are untouched |
| `UserSelector.UserSelector.NgOnInit` | src/app/features/transactions/components/user-selector/user-selector.component.ts:32-34 | initialisation brings the derived fields in line with the users |
| `UserSelector.UserSelector.NgOnChanges` | src/app/features/transactions/components/user-selector/user-selector.component.ts:36-41 | a present users value resets the page to 1 and recomputes; no present value changes nothing |
| `UserSelector.UserSelector.SelectUser` | src/app/features/transactions/components/user-selector/user-selector.component.ts:53-55 | emits the given id and changes no field |
| `UserSelector.UserSelector.GoToPage` | src/app/features/transactions/components/user-selector/user-selector.component.ts:57-63 | a page outside `1..totalPages` changes nothing; an in-range page becomes current and the slice is recomputed |
| `TransactionForm.StripNonDigits` | src/app/features/transactions/components/transaction-form/transaction-form.component.ts:37 | the stripped text consists of digits only and is no longer than the input |
| `TransactionForm.StripAppend` | src/app/features/transactions/components/transaction-form/transaction-form.component.ts:37 | stripping works piecewise, so digits are kept in their input order |
| `TransactionForm.StripOne` | src/app/features/transactions/components/transaction-form/transaction-form.component.ts:37 | a single digit is kept and any other character is dropped |
| `TransactionForm.StripKeepsDigits` | src/app/features/transactions/components/transaction-form/transaction-form.component.ts:37 | an all-digit string is returned unchanged |
| `TransactionForm.StripIdempotent` | src/app/features/transactions/components/transaction-form/transaction-form.component.ts:37 | stripping twice equals stripping once |
| `TransactionForm.AmountOf` | src/app/features/transactions/components/transaction-form/transaction-form.component.ts:37 | the amount read from typed text: for all-digit text it is the text's own value, and for text whose stripped form is empty it is 0 |
| `TransactionForm.NoDigitsReadsZero` | src/app/features/transactions/components/transaction-form/transaction-form.component.ts:37 | text without digits strips to `""` and reads as amount 0 |
| `TransactionForm.IgnoresNonDigit` | src/app/features/transactions/components/transaction-form/transaction-form.component.ts:37 | inserting a non-digit anywhere leaves the amount unchanged |
| `TransactionForm.TypingADigit` | src/app/features/transactions/components/transaction-form/transaction-form.component.ts:37 | appending a digit gives ten times the amount plus that digit |
| `TransactionForm.ReadsDisplayedNumber` | src/app/features/transactions/components/transaction-form/transaction-form.component.ts:37 | the decimal notation of `n` reads back as amount `n` |
| `TransactionForm.IsValid` | src/app/features/transactions/components/transaction-form/transaction-form.component.ts:24 | `required` together with `min(1)`, where `min` passes an empty control: the form is valid iff an amount is present and at least 1 |
| `TransactionForm.TransactionForm.constructor` | src/app/features/transactions/components/transaction-form/transaction-form.component.ts:22-25 | the amount starts as `null`, so the form starts invalid |
| `TransactionForm.TransactionForm.OnAmountInput` | src/app/features/transactions/components/transaction-form/transaction-form.component.ts:35-40 | the control takes the amount read from the text; the form is then valid iff the text has a digit and that amount is at least 1 |
| `TransactionForm.TransactionForm.Submit` | src/app/features/transactions/components/transaction-form/transaction-form.component.ts:28-33 | a valid form (amount present and at least 1) emits the amount and resets it to `null`; an invalid one emits nothing and is unchanged |
| `TransactionsHistory.DeleteTarget` | src/app/features/transactions/components/transactions-history/transactions-history.component.ts:35-37 | a pending id is forwarded exactly when it is present and non-empty, and it is forwarded unchanged |
| `TransactionsHistory.TransactionsHistory.constructor` | src/app/features/transactions/components/transactions-history/transactions-history.component.ts:14-16 | no toast, modal hidden, nothing pending, no deletion requested |
| `TransactionsHistory.TransactionsHistory.OpenDeleteModal` | src/app/features/transactions/components/transactions-history/transactions-history.component.ts:29-32 | the id becomes pending and the modal is shown |
| `TransactionsHistory.TransactionsHistory.ConfirmDelete` | src/app/features/transactions/components/transactions-history/transactions-history.component.ts:34-40 | deletion of the pending id is requested iff it is present and non-empty; afterwards the modal is hidden and nothing is pending |
| `TransactionsHistory.TransactionsHistory.CloseModal` | src/app/features/transactions/components/transactions-history/transactions-history.component.ts:42-45 | hides the modal and clears the pending id; requests no deletion |
| `TransactionsHistory.TransactionsHistory.DeleteTransaction` | src/app/features/transactions/components/transactions-history/transactions-history.component.ts:47-49 | requests deletion of the id unconditionally; modal state is untouched |
| `TransactionsHistory.TransactionsHistory.ShowToast` | src/app/features/transactions/components/transactions-history/transactions-history.component.ts:51-52 | the toast shows the message |
| `TransactionsHistory.TransactionsHistory.CopyCus` | src/app/features/transactions/components/transactions-history/transactions-history.component.ts:24-27 | the toast announces the copy |
| `UsersStore.UsersStore.constructor` | src/app/core/store/users.store.ts:10-12 | users `[]`, not loading, no error, no request made |
| `UsersStore.UsersStore.LoadUsers` | src/app/core/store/users.store.ts:22-26 | loading starts, any earlier error is cleared, users are kept, and one request for `limit` users (default 10) is made |
| `UsersStore.UsersStore.OnNext` | src/app/core/store/users.store.ts:27-30 | the result replaces the users wholesale and loading ends; the error is untouched |
| `UsersStore.UsersStore.OnError` | src/app/core/store/users.store.ts:31-34 | the error becomes `'Error cargando usuarios'` and loading ends; the users are untouched |
| `UsersService.RequestUrl` | src/app/core/services/users.service.ts:21-27 | the URL is `https://randomuser.me/api/?results=` followed by exactly as many digits as `String(limit)` has, reading back as the limit (so it is that notation); the limit defaults to 100 |
| `UsersService.DefaultRequestUrl` | src/app/core/services/users.service.ts:25-27 | `getUsers()` with no argument requests `https://randomuser.me/api/?results=100` |
| `UsersService.ToUser` | src/app/core/services/users.service.ts:30-38 | one record's user: the id is the login uuid; the name is the first name, one space and the last name; email, phone, city and country are copied; the picture is the thumbnail |
| `UsersService.GetUsers` | src/app/core/services/users.service.ts:29-39 | the response's users are exactly the mapped records, one per record, in order |
| `UsersService.MapResults` | src/app/core/services/users.service.ts:29-39 | one user per record, same length and order; id is the login uuid, name is first, space, last, email/phone/city/country are copied, picture is the thumbnail |
| `UsersService.MapResultsAppend` | src/app/core/services/users.service.ts:30 | mapping a concatenation is the concatenation of the mappings |
| `UsersService.PictureSizesDropped` | src/app/core/services/users.service.ts:37 | the medium and large pictures do not affect the user |
| `LanguageService.ParseCode` | src/app/core/services/language.service.ts:26 | exactly `'es'` and `'en'` name a language, and the named language has that code |
| `LanguageService.ParseCodeRoundTrip` | src/app/core/services/language.service.ts:26 | every language's code reads back as that language |
| `LanguageService.SavedLanguage` | src/app/core/services/language.service.ts:23-26 | a stored preference counts only when it is the text `'es'` or `'en'` |
| `LanguageService.RestoredLanguage` | src/app/core/services/language.service.ts:22-38 | the stored preference wins; without one, a supported browser language is used; otherwise Spanish |
| `LanguageService.Toggled` | src/app/core/services/language.service.ts:48 | toggling always changes the language |
| `LanguageService.ToggleTwice` | src/app/core/services/language.service.ts:47-50 | toggling twice restores the language |
| `LanguageService.LanguageService.constructor` | src/app/core/services/language.service.ts:10-19 | registers `es` and `en`, makes `es` the default, restores the preference, and leaves translator and storage holding the current language |
| `LanguageService.LanguageService.RestoreLanguage` | src/app/core/services/language.service.ts:22-38 | the current language becomes the restored one and is stored under `'preferredLanguage'`; no other key changes |
| `LanguageService.LanguageService.SetLanguage` | src/app/core/services/language.service.ts:40-45 | the current language becomes `lang`, the translator uses it, and it is stored under `'preferredLanguage'` only |
| `LanguageService.LanguageService.ToggleLanguage` | src/app/core/services/language.service.ts:47-50 | Spanish becomes English and English Spanish; the new language is used and stored |
| `LanguageService.LanguageService.GetCurrentLanguage` | src/app/core/services/language.service.ts:52-54 | returns the current language and changes nothing |
| `ThemeService.LoadTheme` | src/app/core/services/theme.service.ts:41-43 | a missing or empty stored value gives light; `'light'`/`'dark'` give their theme; any other value is kept unvalidated |
| `ThemeService.NextTheme` | src/app/core/services/theme.service.ts:20 | the next theme is dark exactly when the current is light, and is always light or dark |
| `ThemeService.ToggleTwice` | src/app/core/services/theme.service.ts:19-23 | from light or dark, toggling twice restores the theme |
| `ThemeService.ThemeService.constructor` | src/app/core/services/theme.service.ts:11-17 | the theme is the loaded one and the document has the dark class iff it is dark |
| `ThemeService.ThemeService.Toggle` | src/app/core/services/theme.service.ts:19-23 | the theme becomes the next theme, it is stored under `'theme'` only, and the dark class follows it |
| `ThemeService.ThemeService.SetTheme` | src/app/core/services/theme.service.ts:25-29 | the theme becomes `t`, it is stored under `'theme'` only, and the dark class is present iff `t` is dark |
| `ThemeService.ThemeService.ApplyTheme` | src/app/core/services/theme.service.ts:31-39 | the dark class is present iff the theme is dark, whatever it was before, so applying twice is applying once |
| `Layout.Layout.constructor` | src/app/shared/components/layout/layout.component.ts:23-24 | sidebar closed and not collapsed |
| `Layout.Layout.ToggleSidebar` | src/app/shared/components/layout/layout.component.ts:26-28 | negates the open flag and touches nothing else, so two calls are the identity |
| `Layout.Layout.ToggleSidebarCollapse` | src/app/shared/components/layout/layout.component.ts:30-32 | negates the collapsed flag and touches nothing else, so two calls are the identity |
| `Layout.Layout.CloseSidebar` | src/app/shared/components/layout/layout.component.ts:34-36 | the sidebar is closed afterwards whatever it was, collapse untouched, so the call is idempotent |

## Left out

- AES `encrypt`/`decrypt` with the fixed key (src/app/core/services/cus-encryption.service.ts:15-22) call a foreign cryptography library. Their round trip, and the empty result on foreign input, could only be assumed, not proved.
- JSON serialisation is not modelled. A stored transaction list is kept as the list itself, and `createdAt` is a number of milliseconds. `getAll` calls `JSON.parse` with no reviver. So in the source, a transaction read back after `save` has its `Date` turned into an ISO string. The repository lemmas (`SaveThenLoad`, `SaveGrowsByOne`, `SaveKeepsDuplicates`) therefore hold only up to that serialisation.
- `TransactionsRepository.Decode`: `Text` never holds JSON-array text. Any JSON array is kept as `Serialized`. JSON that parses to something other than an array of transactions is folded into the parse-error case: a bare number, or an array of other shapes.
- The HTTP request in `getUsers` and the Observable subscription in `loadUsers` are left out. The request is recorded as its `limit`, and the two callbacks are separate methods.
- The translation file loader, the version-header interceptor, routing and application configuration are left out. They are plumbing with no state of their own.
- The translation library is reduced to what the language service calls on it: the set of languages, the default language, the language in use, and the browser language.
- `Date.now()` and the browser language are parameters. `CusEncryption.GenerateCus` takes a non-negative clock reading.
- `TransactionForm.AmountOf` reads the digits as an unbounded natural number. `Number(...)`'s floating-point rounding on very long digit strings is not modelled.
- The currency-formatted text written back into the input field (src/app/features/transactions/components/transaction-form/transaction-form.component.ts:43-44) is not modelled. It is presentation only.
- The history view's `transactions` getter reads a repository member that does not exist, so it is not modelled.
- The clipboard write in `copyCus` is not modelled.
- The two-second timer that clears the toast (src/app/features/transactions/components/transactions-history/transactions-history.component.ts:54-56) is not modelled.
- The users store's read-only `computed` views are the fields themselves, so they equal the internal state by construction.
- `UserSelector.UserSelector.GoToPage`: pages are integers. A NaN, fractional or string page, which the source's guard lets through into `currentPage`, is not modelled. The page size is fixed at 12, although the source's `pageSize` is a public mutable field.
- `UsersStore.UsersStore.LoadUsers`: limits are non-negative integers below 10^21. The same holds for `UsersService.RequestUrl`, where `String(limit)` would switch to exponential notation from 10^21 up.
- `LocalStorage.KeyValueStore`: storage reads and writes never fail. A `getItem` or `setItem` exception (quota exceeded, storage disabled) is not modelled. In the source, such an exception would end `save` after the read, `setTheme` after the signal update, and `setLanguage` after the translator call. `Save`, `SetTheme` and `SetLanguage` promise only what happens when storage works.
- `UserSelector.UserSelector.NgOnChanges`: a `null` users input is not modelled, because the field is a sequence.
- The document's class list is reduced to whether it contains `dark`.
- View-only components (header, sidebar, transaction result, the transactions page, the root component) are not part of this model.
