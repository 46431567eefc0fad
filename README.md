# Koinsave authentication: credential store and auth form

Koinsave is a client-side personal-finance dashboard. Its only stateful logic
is its mock authentication. This project models that logic in Dafny and proves
properties of the model.

- **`Store` (store.dfy)** models `lib/api.ts`. The credential store is a list of
  `{email, password}` records kept under the `"users"` key of the browser's
  local storage. `CredentialStore` is a class whose `users` field stands for
  that key. Its `hasWindow` constant records whether a browser window exists.
  Without one, `getUsers` reads an empty list and `saveUsers` drops its write.
  - `signup` throws "User already exists" when the email is already on file.
    Otherwise it pushes one record and writes the list back.
  - `login` is a read-only `find` of the exact email/password pair. It throws
    "Invalid credentials" when there is no such pair. On success it returns the
    fixed token `mock-token-12345`.
  - `Array.prototype.find` is modelled once, as the loop method `Find`.
- **`AuthForm` (auth_form.dfy)** models the submit handler of
  `components/AuthModal.tsx`. The class `AuthModal` holds the component's
  state: `isLogin`, `email`, `password`, `confirmPassword`, `loading` and
  `error`. It also holds the `"token"` slot of local storage, a count of
  `onSuccess` calls, and the store it talks to.
  - `HandleSubmit` first clears the error. It then checks that both fields are
    present, and in sign-up mode that the two passwords agree. Next it calls
    `login`, or `signup` followed by an automatic `login`.
  - On success it stores the token, calls `onSuccess` and clears the three
    fields. On failure it shows the thrown message and keeps the fields.
    Either way `loading` ends false.
  - `SubmitOutcome` is a pure function that describes each submit.
    `HandleSubmit` is proved against it.
  - `AutoLoginAfterSignup` shows that the `res.token!` read after the automatic
    login is safe. Once `signup` succeeds on a store that keeps its writes,
    the `login` that follows cannot fail.

Each `await` is a plain sequential call. Each thrown `Error` is an `Err`
result that carries the message. The code throws plain `Error`s with the
messages above and always returns the same token. The model follows the code.

## Model

| member | source | states |
|---|---|---|
| Store.Find | lib/api.ts:56 | Finds a record exactly when some record satisfies the test, and returns the first such record. |
| Store.CredentialStore.constructor | lib/api.ts:41-43 | The store starts with whatever list local storage holds and with the given window presence. |
| Store.CredentialStore.Save | lib/api.ts:46-49 | Replaces the stored list when a window exists; otherwise nothing changes. |
| Store.CredentialStore.Signup | lib/api.ts:54-63 | Succeeds iff the email is not in the list read. On failure the message is "User already exists" and the store is unchanged. On success exactly one record `{email, password}` is appended at the end. Unique emails stay unique. Without a window, signup always succeeds and writes nothing. |
| Store.CredentialStore.Login | lib/api.ts:65-71 | Succeeds iff some stored record matches both email and password. Every success returns "mock-token-12345". Every failure is "Invalid credentials". It changes nothing. Without a window it always fails. |
| Store.MatchesImpliesRegistered | lib/api.ts:56-68 | Any email that can log in is registered, so signing it up again fails. |
| Store.AppendPreservesUnique | lib/api.ts:55-60 | Appending a record whose email is fresh keeps every email in the list unique. |
| Store.MatchesAfterAppend | lib/api.ts:59-67 | After a record is appended, a login matches iff it matched before or it is the new record. In particular a successful signup makes a login with the same credentials succeed. |
| Store.OnlyOwnPasswordAfterSignup | lib/api.ts:54-71 | After signing up a fresh email, exactly the password it was signed up with logs in for it. A wrong password fails. |
| AuthForm.SubmitOutcome | components/AuthModal.tsx:23-61 | Validation refuses a submit iff a field is empty, or in sign-up mode the passwords differ. A login-mode success needs a stored matching pair. A sign-up success needs matching passwords, a fresh email and a store that keeps writes. |
| AuthForm.ValidationOrder | components/AuthModal.tsx:27-35 | An empty email or password gives "Email and password are required", whatever the mode. Otherwise, in sign-up mode, differing passwords give "Passwords do not match". In login mode the confirmation field is ignored. |
| AuthForm.LoginModeOutcome | components/AuthModal.tsx:39-41 | In login mode with both fields present, the submit succeeds with "mock-token-12345" iff the pair is stored, and otherwise fails with "Invalid credentials", whatever the confirmation field holds. |
| AuthForm.AutoLoginAfterSignup | components/AuthModal.tsx:42-45 | In sign-up mode with valid fields, a duplicate email fails with "User already exists". Otherwise the automatic login succeeds whenever the store keeps its writes, so the token is always present. |
| AuthForm.AuthModal.constructor | components/AuthModal.tsx:14-19 | The form opens in login mode with empty fields, no error and not loading. |
| AuthForm.AuthModal.ToggleMode | components/AuthModal.tsx:113 | Flips `isLogin`, and its frame lets nothing else change. |
| AuthForm.AuthModal.EditEmail | components/AuthModal.tsx:81 | Sets the email field and nothing else. |
| AuthForm.AuthModal.EditPassword | components/AuthModal.tsx:88 | Sets the password field and nothing else. |
| AuthForm.AuthModal.EditConfirmPassword | components/AuthModal.tsx:96 | Sets the confirmation field and nothing else. |
| AuthForm.AuthModal.HandleSubmit | components/AuthModal.tsx:23-61 | Follows `SubmitOutcome` on the fields and the list as they were. A validation refusal makes no store call and leaves `loading` alone. Once a call is attempted, `loading` ends false. On success: the error is cleared, the token is written, `onSuccess` is called once and the fields are cleared. On failure: the error is the message, and the token, the calls and the fields are unchanged. The store changes only by a successful sign-up, and its emails stay unique. |

## Left out

- Local storage and JSON (de)serialisation are browser I/O. The `"users"` key is the `users` field and the `"token"` key is the `token` field.
- `async`/`await` and Promises are modelled as sequential calls, since there is no concurrency. React batches its state updates; the model applies them in program order. The handler reads the field values it closed over, and the model reads them at the start of the call.
- The "Something went wrong" branch (components/AuthModal.tsx:55-56) is not modelled. The store only throws `Error` objects, so that branch cannot be reached.
- `onSuccess` and `onClose` are callbacks into the page. `onSuccess` is modelled as a call counter. What the page then does (closing the modal and navigating) is UI.
- `getBalance`, `getTransactions`, `getBudgets` and `getPots` (lib/api.ts:74-83) return a bundled dataset unchanged. That dataset is not part of this model.
- The overview aggregation in app/(protected)/overview/page.tsx is not part of this model. It covers budget spend, pot totals and recurring-bill buckets, and is page code over floating-point numbers.
- All JSX rendering, the spinner, layouts, routing and the navbar logout and hamburger handlers are UI.
- There is no password hashing or other security behaviour in the code, and the model adds none.
