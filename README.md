# Digital diary: sign-in, sign-up and main-page state, in Dafny

This project models the client-side logic of a school "digital diary"
single-page app. It covers three screens.

- **Sign-up** (`Register.tsx`). The form holds eight fields. `validateForm` rebuilds
  a per-field error map on every submit. Editing a field removes that field's
  error. A successful submit writes three entries to the browser's key-value store.
- **Sign-in** (`Login.tsx`). Phone and password are checked, with the same
  error-map handling and the same three store writes.
- **Main page** (`Index.tsx`). It holds the section selector, the notification
  toggle and the logged-in flag. It also has the grade colour scale, the
  pending/unread counts, the "new notification" dot and the doubled diary list.

Modules, one per concern:

| file | module | contents |
|---|---|---|
| `text.dfy` | `Text` | the ECMAScript whitespace class, `trim`, "blank" |
| `fields.dfy` | `Options`, `Fields` | `Option`; the account role; both regular expressions as predicates; the field names and the password rule both screens share |
| `session.dfy` | `Session` | the browser store as a class with a `map<string, string>` field; the three session writes |
| `register.dfy` | `Register` | sign-up rules, the error map they define, the `RegisterPage` class |
| `login.dfy` | `Login` | sign-in rules, their error map, the `LoginPage` class |
| `index.dfy` | `Index` | the main page's pure helpers and the `IndexPage` class |

Each error map has two forms:

- a declarative specification (`Register.Errors`, `Login.Errors`), where each
  key's rule is applied on its own;
- the source's imperative form (`BuildErrors`), which starts from an empty map
  and inserts one key per failing rule.

`ValidateForm` replaces the page's `errors` field with the result, so the
stale entries disappear. The regular expressions are written as explicit
predicates. The email expression the sign-up screen runs is `Fields.EmailRegex`,
read literally. The rules evaluate `Fields.MatchesEmail`, a split at the '@' that
is proved to accept the same strings.

Some consequences of the code, which the model follows:

- `isLoggedIn` is written to the store by both submits (Login.tsx:48,
  Register.tsx:83), but none of these screens reads it back. The main page's own
  flag starts `false` (Index.tsx:57), and the only operation that touches it sets
  it to `false` (Index.tsx:415). So the main page always shows its landing card,
  whatever controls are used (`Index.NeverLeavesLanding`).
- Sign-out only clears the page's own flag. It does not write `isLoggedIn` to the store.
- A wrong teacher code does not hide the other field errors
  (`Register.WrongCodeKeepsOtherErrors`). The "wrong code" message is the only
  error exactly when every other field is valid (`Register.OnlyWrongCodeRejected`).
- Sign-up never checks `phone`, but the submit still stores it (`Register.PhoneNeverChecked`).

## Model

| member | source | states |
|---|---|---|
| `Text.TrimStart` | src/pages/Register.tsx:36 | the result is a suffix of the input, does not begin with whitespace, and everything removed is whitespace |
| `Text.TrimEnd` | src/pages/Register.tsx:40 | the result is a prefix of the input, does not end with whitespace, and everything removed is whitespace |
| `Text.IsWhitespace` | src/pages/Register.tsx:36-46 | the code points that `\s` and `trim` treat as whitespace, listed in full |
| `Text.Trim` | src/pages/Register.tsx:36-44 | `trim` yields a prefix of what follows the leading whitespace, neither end of the result is whitespace, and everything dropped before and after it is whitespace |
| `Text.IsBlank` | src/pages/Register.tsx:36 | the test `!s.trim()`: the trimmed string is empty; characterised by `Text.BlankIffAllWhitespace` |
| `Text.BlankIffAllWhitespace` | src/pages/Register.tsx:36-44 | `!s.trim()` holds exactly when every character of `s` is whitespace (so also for the empty string) |
| `Fields.Role.Name` | src/pages/Register.tsx:84 | the stored role name is "student" or "teacher", "teacher" exactly for the teacher role |
| `Fields.EmailRegex` | src/pages/Register.tsx:46 | `^[^\s@]+@[^\s@]+\.[^\s@]+$` read literally: three non-empty runs of `[^\s@]` separated by '@' and '.' |
| `Fields.MatchesEmail` | src/pages/Register.tsx:46 | the split of the email at an '@' into a local run and a domain run with an inner '.'; equal to `EmailRegex` by `Fields.MatchesEmailIffRegex` |
| `Fields.MatchesPhone` | src/pages/Login.tsx:27 | `^[\d\s\+\-\(\)]+$`: one or more characters, each a digit, whitespace, '+', '-', '(' or ')' |
| `Fields.MatchesEmailIffRegex` | src/pages/Register.tsx:46 | the `L@R` test accepts exactly the strings `^[^\s@]+@[^\s@]+\.[^\s@]+$` accepts |
| `Fields.MatchesEmailImpliesRegex` | src/pages/Register.tsx:46 | an `L@R` string splits into the three runs the pattern demands |
| `Fields.RegexImpliesMatchesEmail` | src/pages/Register.tsx:46 | a string of the pattern has an '@' whose domain part holds an inner '.' and no whitespace or '@' |
| `Fields.AllPlainSlices` | src/pages/Register.tsx:46 | every slice of a run of `[^\s@]` is such a run |
| `Fields.AllPlainJoin` | src/pages/Register.tsx:46 | two runs of `[^\s@]` joined by '.' form one run |
| `Fields.EmailIsNotBlank` | src/pages/Register.tsx:44-48 | a string the pattern accepts is never blank, so "required" and "bad format" cannot both apply |
| `Fields.PasswordError` | src/pages/Register.tsx:50-54 | empty password gives "required"; one to five characters give "too short"; at least six give no error (both directions) |
| `Session.SessionWrite` | src/pages/Register.tsx:83-85 | the store after `setItem` of `isLoggedIn`, `userType` and `userPhone`, in that order; its effect is stated by `Session.SessionWriteEffect` |
| `Session.SessionWriteEffect` | src/pages/Register.tsx:83-85 | after the writes, `isLoggedIn` is "true", `userType` is the role and `userPhone` the phone; every other key is unchanged |
| `Session.Storage.constructor` | src/pages/Login.tsx:48 | the store starts as the browser has it |
| `Session.Storage.SetItem` | src/pages/Login.tsx:48-50 | `setItem` adds or overwrites exactly one entry |
| `Register.CheckedFields` | src/pages/Register.tsx:33-74 | the keys `validateForm` can report are the form's keys except `phone` |
| `Register.EmptyForm` | src/pages/Register.tsx:18-27 | the initial form holds the eight fields, all empty |
| `Register.NameError` | src/pages/Register.tsx:36-42 | a name gets its message exactly when it is empty or whitespace-only |
| `Register.EmailError` | src/pages/Register.tsx:44-48 | blank email gives "required"; a non-blank email the pattern rejects gives "bad format"; no error exactly when the pattern accepts |
| `Register.ConfirmError` | src/pages/Register.tsx:56-58 | error exactly when confirmation and password differ, also when both are empty |
| `Register.TeacherCodeError` | src/pages/Register.tsx:60-66 | students never get it; for teachers, no error exactly for "060320", "required" exactly for "", "wrong code" for anything else (no trimming) |
| `Register.ClassNameError` | src/pages/Register.tsx:68-70 | error exactly for a student whose class name is blank |
| `Register.Errors` | src/pages/Register.tsx:33-74 | the error map has only checked keys, each with a non-empty message |
| `Register.NoErrorsIffAllClear` | src/pages/Register.tsx:33-74 | the error map is empty exactly when no checked key's rule fails |
| `Register.ErrorsEmptyIff` | src/pages/Register.tsx:33-74 | the form passes exactly when all seven rules (role-dependent for code and class) are met |
| `Register.NameRule` | src/pages/Register.tsx:36-42 | `firstName`/`lastName` keys appear, with their messages, exactly when the value is whitespace-only |
| `Register.EmailRule` | src/pages/Register.tsx:44-48 | the four email cases of the error map: blank, accepted (no key), rejected |
| `Register.PasswordRule` | src/pages/Register.tsx:50-58 | the password cases of the error map, and `confirmPassword` present exactly when the two differ |
| `Register.RoleRules` | src/pages/Register.tsx:60-70 | the teacher-code key only for teachers, the class key only for students, with their cases |
| `Register.WrongCodeKeepsOtherErrors` | src/pages/Register.tsx:60-66 | apart from its own key, a teacher's error map is the same whatever code is entered |
| `Register.PhoneNeverChecked` | src/pages/Register.tsx:33-74 | no value of `phone` changes the error map |
| `Register.SameFieldsSameErrors` | src/pages/Register.tsx:33-74 | two records that agree on the seven checked fields get the same error map |
| `Register.ErrorsInOrder` | src/pages/Register.tsx:33-71 | the error map equals the one built by inserting each failing rule's key in the order `validateForm` visits the fields |
| `Register.EmailSample` | src/pages/Register.tsx:46 | "ivan@school.ru" passes the screen's email test |
| `Register.SampleCommonRules` | src/pages/Register.tsx:36-58 | Иван Петров, ivan@school.ru, class 9-А, password 123456 twice meets the name, email, password, confirmation and class rules |
| `Register.StudentSampleAccepted` | src/pages/Register.tsx:33-74 | that form, as a student, whatever its phone and teacher code: no errors |
| `Register.TeacherRightCodeAccepted` | src/pages/Register.tsx:60-66 | that form as a teacher with code 060320: no errors |
| `Register.OnlyWrongCodeRejected` | src/pages/Register.tsx:60-66 | a teacher form that passes with the secret code gets exactly the "wrong code" error, and nothing else, for any other non-empty code |
| `Register.BuildErrors` | src/pages/Register.tsx:33-71 | the rule-by-rule insertions produce exactly the error map `Errors` |
| `Register.RegisterPage.constructor` | src/pages/Register.tsx:17-29 | the screen opens as a student with an empty form and no errors |
| `Register.RegisterPage.SetRole` | src/pages/Register.tsx:133 | the role buttons set the role and leave the form and errors alone |
| `Register.RegisterPage.ValidateForm` | src/pages/Register.tsx:33-74 | the error map is replaced by `Errors` of the current role and form; the result is true exactly when that map is empty |
| `Register.RegisterPage.Submit` | src/pages/Register.tsx:76-95 | on success, the three session writes with the raw phone, then a navigation request; on failure, the store is unchanged and nothing is requested |
| `Register.RegisterPage.HandleInputChange` | src/pages/Register.tsx:97-106 | sets only the edited field and removes only that field's error |
| `Login.PhoneError` | src/pages/Login.tsx:25-29 | whitespace-only phone gives "required"; otherwise "bad format" exactly when some character is outside digits, whitespace, `+ - ( )` |
| `Login.Errors` | src/pages/Login.tsx:22-39 | keys only `phone` and `password`, each present exactly when its rule fails, with the rule's message |
| `Login.ErrorsEmptyIff` | src/pages/Login.tsx:22-39 | sign-in passes exactly when the phone is a non-blank string of the phone class and the password has at least six characters |
| `Login.LettersAndShortPassword` | src/pages/Login.tsx:25-35 | phone "abc" with password "abc12" gives both a phone format error and a password length error |
| `Login.BuildErrors` | src/pages/Login.tsx:22-36 | the rule-by-rule insertions produce exactly the error map `Errors` |
| `Login.LoginPage.constructor` | src/pages/Login.tsx:17-20 | the screen opens as a student with empty fields and no errors |
| `Login.LoginPage.SetLoginType` | src/pages/Login.tsx:103 | the account-type buttons set the type only |
| `Login.LoginPage.ValidateForm` | src/pages/Login.tsx:22-39 | the error map is replaced by `Errors(phone, password)`, which does not depend on the account type; the result is true exactly when it is empty |
| `Login.LoginPage.Submit` | src/pages/Login.tsx:41-60 | on success, the three session writes with the account type and phone, then a navigation request; on failure, the store is unchanged |
| `Login.LoginPage.HandleInputChange` | src/pages/Login.tsx:62-76 | "phone" sets the phone, any other name sets the password; only that name's error is removed |
| `Index.GradeColor` | src/pages/Index.tsx:92-97 | 5 green, 4 blue, 3 yellow, every other integer red: four disjoint, exhaustive cases |
| `Index.RenderContent` | src/pages/Index.tsx:479-494 | the `switch` from section to view; characterised by `Index.RenderContentBijective` |
| `Index.RenderContentBijective` | src/pages/Index.tsx:479-494 | each of the five sections renders its own view, and every view belongs to some section |
| `Index.Filter` | src/pages/Index.tsx:132 | every element `filter` returns is from the input and satisfies the predicate, every qualifying element is returned; the result is no longer than the input, empty exactly when none qualifies, as long exactly when all do |
| `Index.FilterMultiset` | src/pages/Index.tsx:132 | each qualifying element is kept as often as it occurs in the input, and every other element is dropped |
| `Index.FilterAppend` | src/pages/Index.tsx:145 | filtering a concatenation is the concatenation of the filtered parts |
| `Index.PendingCount` | src/pages/Index.tsx:132 | the length of the pending homework list; pinned by `Index.PendingCountAppend` and `Index.PendingCountBounds` |
| `Index.UnreadCount` | src/pages/Index.tsx:145 | the length of the unread message list; pinned by `Index.UnreadCountAppend` and `Index.UnreadCountBounds` |
| `Index.PendingCountAppend` | src/pages/Index.tsx:132 | appending an item adds one to the pending count exactly when it is pending |
| `Index.PendingCountBounds` | src/pages/Index.tsx:132 | the pending count is at most the list length, 0 exactly when nothing is pending, the length exactly when all are |
| `Index.UnreadCountBounds` | src/pages/Index.tsx:145 | the unread count is at most the list length and 0 exactly when all messages are read |
| `Index.UnreadCountAppend` | src/pages/Index.tsx:145 | appending a message adds one to the unread count exactly when it is unread |
| `Index.BellDot` | src/pages/Index.tsx:598 | the dot condition: the list of new notifications is non-empty; characterised by `Index.BellDotIff` |
| `Index.BellDotIff` | src/pages/Index.tsx:598 | the bell dot is shown exactly when some notification is new |
| `Index.DiaryList` | src/pages/Index.tsx:283 | the diary list is the grades concatenated with themselves; characterised by `Index.DiaryListAt` |
| `Index.DiaryListAt` | src/pages/Index.tsx:283 | the diary list is twice as long as the grades, and its entry `i` is grade `i mod n` |
| `Index.IndexPage.constructor` | src/pages/Index.tsx:55-57 | the page opens on `home`, panel closed, logged out, without consulting the store |
| `Index.IndexPage.Screen` | src/pages/Index.tsx:496 | the landing card exactly while logged out, else the current section's view |
| `Index.IndexPage.SelectSection` | src/pages/Index.tsx:582 | the section is overwritten unconditionally; nothing else changes |
| `Index.IndexPage.ToggleNotifications` | src/pages/Index.tsx:595 | the panel flag flips; nothing else changes |
| `Index.IndexPage.Logout` | src/pages/Index.tsx:415 | the flag becomes false; nothing else changes |
| `Index.SelectSectionTwice` | src/pages/Index.tsx:679 | selecting the same section twice leaves that section selected and nothing else changed |
| `Index.ToggleTwice` | src/pages/Index.tsx:595 | two toggles restore the panel flag |
| `Index.NeverLeavesLanding` | src/pages/Index.tsx:57 | after any sequence of section choices, bell toggles and sign-outs, a freshly opened page still shows the landing card |

## Left out

- JSX markup, styling, icons and the card, badge and avatar components are presentation only.
- Toasts and the `setTimeout` delays before navigation use timers and a UI library.
  A successful submit only sets `navigationRequested`.
- The `react-router` navigation targets (`/`, `/login`, `/register`) belong to a
  foreign routing library.
- The real `localStorage` is the `Session.Storage` class.
  Persistence across reloads and tabs is not modelled.
- The current date (`toLocaleDateString`) depends on the clock and locale.
  The hard-coded average and tallies on the home and profile views are literal text.
- The fixture arrays have fixed contents in the source. Here they are arbitrary sequences.
- `renderContent`'s `default` branch is not modelled: every `Section` value has its own case.
- `Fields.PasswordError`: length is counted in code points, whereas JavaScript's `length` counts
  UTF-16 code units, so a password holding characters outside the Basic Multilingual Plane
  can be judged long enough here and too short in the browser.
- `Text.IsWhitespace`: the whitespace set that `\s` and `trim` share is written out as a fixed
  list of code points, with the Unicode "Zs" category as it stands today. Space separators a
  later Unicode version may add are not followed.
- `Index.GradeColor`: grades are integers. The source's `number` also admits fractions and NaN,
  which it colours red; the model cannot express such a grade.
