# MoneyGuard: data helpers and registration form, modelled in Dafny

MoneyGuard is a personal-finance web client. This project models the two parts
of it that follow stateable rules, and proves properties of the model.

- **The services helpers** (`src/services/helpers.js`):
  - the month table of the statistics selector;
  - `getYear`, which takes the year prefix of a transaction date;
  - `getAllYears`, which collects the distinct years of the fetched transactions and sorts them;
  - `parseMono`, which fills a fixed two-row USD/EUR quote table in place;
  - `getCurrency`, which passes only the first two rates of the feed to `parseMono`.
- **The registration form** (`src/components/Forms/Registration/RegistrationForm.jsx`):
  - its validation schema, one rule chain per field;
  - the password-mismatch guard on the submit button and the mismatch warning;
  - the error flag and helper text each input reads from the error map;
  - the form state that a submission dispatches and then resets.

## Files and modules

- `wrappers.dfy` (`Wrappers`): `Option`, for an object property that may not be set.
- `strings_sort.dfy` (`StringSort`): the string order that `Array.prototype.sort()`
  uses by default (`StrLe`), proved a total order. It also holds the sort used
  for `years.sort()`: an insertion sort proved to return a sorted permutation.
- `helpers.dfy` (`Helpers`): the month table, `GetYear`, `GetAllYears`, `ParseMono` and `GetCurrency`.
- `registration.dfy` (`Registration`):
  - the schema as data (`Schema`, `Rule`) with an interpreter (`RulePasses`, `FieldPasses`, `Validate`);
  - the closed form of each field's rules (`UsernameOk`, `EmailOk`, `PasswordOk`, `Password2Ok`), with the lemmas that connect the two;
  - the guard and error-flag predicates;
  - the class `RegistrationForm`.

## How the model reads the code

- `getAllYears` is a method over the `transactionDate` values of the fetched
  transactions. Its loop keeps a list without duplicates. It then sorts the list.
  It promises four things:
  - the result is strictly ascending, so it has no duplicates;
  - a string is in the result exactly when it is the year of some transaction;
  - the result is no longer than the input, so an empty input gives an empty result;
  - by `YearsDetermined`, the result depends only on which years occur, not on the input order.
- `parseMono` allocates the two-row table as an array and fills row `idx` in place.
  On an input of more than two rates, the assignment to row 2 throws a TypeError
  (`rez[2]` is `undefined`), so the model returns `MissingSlot(2)`. For at most
  two rates it returns the table:
  - the rows are USD then EUR;
  - rows that have a rate carry its formatted buy and sell values;
  - the remaining rows have neither.
- `getCurrency` slices the feed to two elements, so `parseMono` never throws there.
- A feed of fewer than two rates does not make `parseMono` fail: `forEach` runs
  fewer times and the missing rows simply lack `buy` and `sell`. Only more than
  two rates fail (`src/services/helpers.js:59-62`).
- Formik hands an empty input to Yup as `undefined`. Every Yup rule except
  `required` accepts an absent value, so an empty field fails on `required` alone.
  Every field has `required`, so whether the other rules skip empty strings does
  not change which fields fail.
- In the pattern `^(?=.*\d)(?=.*[a-z])(?=.*[A-Z]),?[\s\S]{6,12}$`, `.` does not
  match line terminators. So each lookahead only looks at the text before the
  first line break.
  - `PasswordRulesSound`: a password the rules accept has 6 to 12 characters, a digit, a lower-case and an upper-case letter.
  - `PasswordRulesComplete`: without line breaks, the converse holds too.
  - `LineBreakHidesDigit`: with a line break, the converse fails. `"abcDEF"`, any line terminator, then `"1"` is refused. U+2028 is a terminator that a password input does not strip.
  - `CommaOnlyAdmitsThirteen`: the optional leading comma only admits 13-character strings, which `.max(12)` refuses.
- The confirmation input reads `errors.confirmPassword`, but the schema names that
  field `password2`. So the confirmation input is never flagged (`ErrorFlags`).
- `onSubmit` dispatches `{username, password, email}` and resets the form (line 82).
  On success it resets the form again (line 74). The form ends empty whatever the
  request's outcome. The outcome is a parameter of the model.

## Model

| member | source | states |
|---|---|---|
| `StringSort.StrLe` | src/services/helpers.js:46 | the default string comparison of `sort()`: character by character, a proper prefix first |
| `StringSort.StrLeReflexive` | src/services/helpers.js:46 | every string sorts no later than itself under the default string order |
| `StringSort.StrLeTotal` | src/services/helpers.js:46 | any two strings are ordered one way or the other |
| `StringSort.StrLeTransitive` | src/services/helpers.js:46 | the default string order is transitive |
| `StringSort.StrLeAntisymmetric` | src/services/helpers.js:46 | two strings that each sort no later than the other are equal |
| `StringSort.Insert` | src/services/helpers.js:46 | inserting into a sorted list gives a sorted list with exactly one more occurrence of the inserted string |
| `StringSort.SortStrings` | src/services/helpers.js:46 | `sort()` returns a sorted permutation of its input |
| `StringSort.NoDuplicatesIffSingleOccurrences` | src/services/helpers.js:42-43 | a list has no duplicates exactly when no string occurs in it more than once |
| `StringSort.SortKeepsDistinct` | src/services/helpers.js:40-46 | sorting a duplicate-free list gives a strictly ascending list |
| `StringSort.StrictlySortedUnique` | src/services/helpers.js:46 | two strictly ascending lists with the same members are equal |
| `Helpers.OptionsMonth` | src/services/helpers.js:4-17 | the month table has 12 entries whose values are 1 to 12 in order |
| `Helpers.GetYear` | src/services/helpers.js:33-35 | the year is the prefix of the date of length min(4, its length) |
| `Helpers.GetAllYears` | src/services/helpers.js:37-47 | result strictly ascending, duplicate-free, holds exactly the years of the transactions, no longer than the input |
| `Helpers.YearsDetermined` | src/services/helpers.js:40-46 | two transaction lists with the same years give the same result, whatever their order |
| `Helpers.YearsOfSampleTransactions` | src/services/helpers.js:37-47 | dates 2022-05-01, 2022-11-03, 2021-01-01 give exactly ["2021", "2022"] |
| `Helpers.ParseMono` | src/services/helpers.js:49-64 | a table exists iff at most two rates; then rows USD, EUR, rows with a rate hold its formatted buy/sell, the others neither; otherwise it fails at row 2 |
| `Helpers.GetCurrency` | src/services/helpers.js:86-89 | always two rows USD, EUR; row i holds rate i of the feed when the feed has one, else no buy/sell |
| `Registration.InitialValues` | src/components/Forms/Registration/RegistrationForm.jsx:62-67 | the initial values: all four fields empty |
| `Registration.With` | src/components/Forms/Registration/RegistrationForm.jsx:132 | a change to one input sets that field to the typed text and leaves the other three as they were |
| `Registration.LineTerminator` | src/components/Forms/Registration/RegistrationForm.jsx:50 | the characters `.` in the pattern does not match: LF, CR, U+2028, U+2029 |
| `Registration.Lookahead` | src/components/Forms/Registration/RegistrationForm.jsx:50 | `(?=.*X)` at the start: an X occurs with no line terminator before it |
| `Registration.CommaThenSpan` | src/components/Forms/Registration/RegistrationForm.jsx:50 | `,?[\s\S]{6,12}$`: an optional comma, then 6 to 12 arbitrary characters to the end |
| `Registration.PasswordPattern` | src/components/Forms/Registration/RegistrationForm.jsx:49-52 | the password regex: the three lookaheads and the length part together |
| `Registration.Schema` | src/components/Forms/Registration/RegistrationForm.jsx:33-57 | each field's rule chain, in the order the schema lists it; every chain contains `required` |
| `Registration.RulePasses` | src/components/Forms/Registration/RegistrationForm.jsx:33-57 | what each Yup rule accepts; an empty input reaches Yup as `undefined`, which every rule but `required` accepts |
| `Registration.Validate` | src/components/Forms/Registration/RegistrationForm.jsx:33-57 | the error map holds a schema key exactly when that field's rule chain fails, and no other key |
| `Registration.UsernameRules` | src/components/Forms/Registration/RegistrationForm.jsx:34-37 | the username passes iff its length is 2 to 20 |
| `Registration.EmailRules` | src/components/Forms/Registration/RegistrationForm.jsx:39-43 | the e-mail passes iff its length is 6 to 25 and it has e-mail syntax |
| `Registration.CommaOnlyAdmitsThirteen` | src/components/Forms/Registration/RegistrationForm.jsx:49-50 | a string the pattern's length part admits outside 6 to 12 characters is 13 long and starts with a comma |
| `Registration.PasswordRulesSound` | src/components/Forms/Registration/RegistrationForm.jsx:45-52 | an accepted password has length 6 to 12, a digit, a lower-case and an upper-case letter |
| `Registration.PasswordRulesComplete` | src/components/Forms/Registration/RegistrationForm.jsx:45-52 | for a password without line breaks, accepted iff length 6 to 12 with a digit, a lower-case and an upper-case letter |
| `Registration.LineBreakHidesDigit` | src/components/Forms/Registration/RegistrationForm.jsx:49-50 | "abcDEF\n1" has the length and all three classes but is refused, since the lookaheads stop at the line break |
| `Registration.Password2Rules` | src/components/Forms/Registration/RegistrationForm.jsx:54-56 | the confirmation passes iff it is non-empty and equal to the password |
| `Registration.InitialValuesInvalid` | src/components/Forms/Registration/RegistrationForm.jsx:33-67 | the empty initial form fails all four fields |
| `Registration.SubmitDisabled` | src/components/Forms/Registration/RegistrationForm.jsx:445-448 | the submit button is disabled while the two passwords differ |
| `Registration.MismatchWarningShown` | src/components/Forms/Registration/RegistrationForm.jsx:434-439 | the "Passwords do not match" warning is rendered while the two passwords differ (the same condition at lines 223-228) |
| `Registration.MismatchGuardRedundant` | src/components/Forms/Registration/RegistrationForm.jsx:434-448 | the mismatch warning shows iff the button is disabled, and then the schema already fails the confirmation field |
| `Registration.ErrorKey` | src/components/Forms/Registration/RegistrationForm.jsx:421-427 | the error-map key each input reads: its schema key, except `confirmPassword` for the confirmation input (also lines 210-216), which is no schema key |
| `Registration.HelperText` | src/components/Forms/Registration/RegistrationForm.jsx:421-427 | an input shows helper text exactly when it is flagged |
| `Registration.ErrorFlags` | src/components/Forms/Registration/RegistrationForm.jsx:421-427 | username, e-mail and password inputs are flagged iff their rules fail; the confirmation input is never flagged |
| `Registration.PayloadOf` | src/components/Forms/Registration/RegistrationForm.jsx:69-71 | the registration request takes the username, password and e-mail; the confirmation has no place in it |
| `Registration.RegistrationForm.constructor` | src/components/Forms/Registration/RegistrationForm.jsx:62-67 | the form starts with four empty fields, no errors and no request; the confirmation input is not flagged |
| `Registration.RegistrationForm.HandleChange` | src/components/Forms/Registration/RegistrationForm.jsx:132 | typing changes that one field and recomputes the whole error map; no request is made; the confirmation input stays unflagged |
| `Registration.RegistrationForm.ResetForm` | src/components/Forms/Registration/RegistrationForm.jsx:82 | every field returns to empty and the error map to empty; requests are kept |
| `Registration.RegistrationForm.OnSubmit` | src/components/Forms/Registration/RegistrationForm.jsx:69-83 | one request {username, password, email} of the submitted values is dispatched and the form ends empty, whatever the outcome |
| `Registration.RegistrationForm.Submit` | src/components/Forms/Registration/RegistrationForm.jsx:443-451 | a request is sent iff the button is enabled and no field fails; then the form ends empty; otherwise values and requests are unchanged; the confirmation input is never flagged |
| `Registration.DispatchedOnlyWhenValid` | src/components/Forms/Registration/RegistrationForm.jsx:68-71 | values that can be dispatched satisfy all four closed-form field rules |

## Left out

- Network calls (`fetchAllTransactions`, `getMonoCurrency`, `registerUserThunk`): I/O. The model takes their already-returned data as parameters, and registration's outcome as an `Outcome` value.
- `toFixed(2)`: floating-point formatting. It is the parameter `format` of `ParseMono` and `GetCurrency`. Rates are `real`, not IEEE doubles.
- Yup's e-mail regular expression: library code not shown. It is the parameter `isEmail`.
- Error messages: the model records which fields fail, not which message each one shows.
- The toast notifications and the order in which the promise callbacks run relative to rendering: event-loop timing. `OnSubmit` runs the two resets in the order the code reaches them, and only the final empty form is stated.
- Formik's `touched` bookkeeping and validation scheduling: library internals. The error map is recomputed on every change and on submit.
- `StringSort.StrLe`: compares Dafny characters, which are Unicode scalar values. JavaScript compares UTF-16 code units. The two orders differ only between astral-plane characters and characters from U+E000 to U+FFFF, and never on year digits.
- `Registration.UsernameOk` and the other length rules count Unicode scalar values, not UTF-16 code units as JavaScript's `length` does.
- `Helpers.GetYear`: takes the first four Unicode scalar values, while `slice(0, 4)` takes the first four UTF-16 code units. The two agree on dates that start with four digits.
- The commented-out `parsePrivat` and fallback branch of `getCurrency`: dead code.
- `colors`: a display palette with no rules.
- `src/pages/Home.jsx`: dispatch and selector wiring.
- `src/components/StatisticsSelect/StatisticsSelect.styled.js`: styling only.
- Rendering of the form: the layout switch, field order, MUI styling, the password strength bar and the login link. Only the password helper text, which differs by layout, is kept (`HelperText`'s `isMobile`).
