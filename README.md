# Registration rules and list helpers of a research-operations web app

This project models, in Dafny, the rule logic of a web application's account
registration and of two small frontend helpers:

- **Password policy, in three copies.** The backend predicate
  `isStrongPassword`. The frontend checker's requirement table, with its
  `every`/`filter` summaries, its Weak/Fair/Good/Strong label and
  `validateStrongPassword`. The local copies in the register and
  reset-password form schemas. The backend counts any character outside
  `[A-Za-z0-9]` as special. The frontend accepts only thirty listed ASCII
  punctuation characters. The model proves that the frontend rule implies the
  backend rule and that the converse fails (`"Abcdefgh1~"`).
- **Form schemas** (`registerSchema`, `resetPasswordSchema`) as functions from
  form values to the list of issues zod reports. Each issue carries its field
  path and message.
- **`createAccount`** as an imperative operation. It works on a `UserStore`
  class (a map from email to user document) and a `Mailer` class (an outbox
  sequence). It rejects a known email. Otherwise it saves exactly one new
  document with the fixed defaults, then sends exactly one verification
  email, then answers 201 with a response type that has no password field.
- **`generatePages`** of the pagination bar. It is a method that pushes
  candidates and then runs the index-based `filter`. It is proved equal to a
  case-by-case reference window. Lemmas about that window give the length
  bound, the first and last pages, in-range and strictly increasing numbers,
  the current page, and ellipses that each hide at least one page.
- **`NoSearchResult`**: the icon, title and description chains. The icon and
  description chains are proved equal to first-match priority tables. The
  title rules are stated directly: a truthy title wins, and otherwise the
  active-filters flag decides.

Inputs the code gets from outside are parameters:
- the bcrypt hash, as `hash: string -> string`;
- the email template;
- the new document id;
- the clock (`termsAcceptedTime`);
- whether email delivery succeeds;
- zod's email-format check, as `isEmail`.

Characters are Dafny `char`s. A regex bracket class such as `[A-Z]` is an
ASCII range, and `/[C]/.test(s)` means "some character of `s` is in `C`".

Three facts about `createAccount` that the model keeps as they are:
- It applies no password-strength rule.
- It answers a duplicate email with status 400.
- The handler itself creates no token: it passes the raw user id
  (`String(savedUser._id)`) to the verification-mail template, which is
  opaque here.

## Model

| member | source | states |
|---|---|---|
| `StrongPasswordProcessor.IsStrongPassword` | backend/processors/user/isStrongPasswordProcessor.ts:1-15 | defined as length ≥ 9 and some `[A-Z]`, `[a-z]`, `[0-9]` and `[^A-Za-z0-9]` character; the lemmas below give its consequences |
| `StrongPasswordProcessor.ShortPasswordRejected` | backend/processors/user/isStrongPasswordProcessor.ts:2-9 | any password shorter than 9 characters is rejected, whatever its content |
| `StrongPasswordProcessor.AppendKeepsStrong` | backend/processors/user/isStrongPasswordProcessor.ts:3-13 | appending any suffix to an accepted password keeps it accepted |
| `StrongPasswordProcessor.AnyNonAlnumCompletes` | backend/processors/user/isStrongPasswordProcessor.ts:6-14 | a stem of at least 9 characters with upper, lower and digit and no special character becomes strong by appending `c` iff `c` is outside `[A-Za-z0-9]` |
| `StrongPasswordProcessor.SpaceTildeBacktickAccepted` | backend/processors/user/isStrongPasswordProcessor.ts:6 | space, `~` and `` ` `` count as special characters for the backend |
| `CharClasses.ListedSpecialIsNotAlnum` | frontend/components/createAccount/PasswordStrengthChecker.tsx:38 | every character of the frontend's special class lies outside `[A-Za-z0-9]` |
| `CharClasses.ListedSpecialGivesNonAlnum` | frontend/components/createAccount/PasswordStrengthChecker.tsx:38 | a string with a listed special character has a non-alphanumeric character |
| `CharClasses.UnlistedPunctuation` | frontend/components/createAccount/PasswordStrengthChecker.tsx:38 | space, `~` and `` ` `` are not in the frontend class, though none of them is alphanumeric |
| `PasswordStrengthChecker.Every` | frontend/components/createAccount/PasswordStrengthChecker.tsx:55-57 | `every` over the requirement table holds iff each entry's test holds |
| `PasswordStrengthChecker.AllRequirementsMet` | frontend/components/createAccount/PasswordStrengthChecker.tsx:55-57 | defined as `every` over the table; `Every` and `MetRequirementsCount` give its meaning |
| `PasswordStrengthChecker.Passing` | frontend/components/createAccount/PasswordStrengthChecker.tsx:59-61 | `filter` keeps exactly the passing requirements, each no more often than the table lists it, and keeps all of them iff `every` holds |
| `PasswordStrengthChecker.MetRequirementsCount` | frontend/components/createAccount/PasswordStrengthChecker.tsx:55-61 | the met count is the number of the five tests that hold (length ≥ 9, upper, lower, digit, listed special), so at most 5, and it equals 5 iff all requirements are met |
| `PasswordStrengthChecker.ValidateStrongPassword` | frontend/components/createAccount/PasswordStrengthChecker.tsx:143-145 | defined as `every` over the table; `ValidateIffFiveTests` spells it out |
| `PasswordStrengthChecker.ValidateIffFiveTests` | frontend/components/createAccount/PasswordStrengthChecker.tsx:14-40 | `validateStrongPassword` holds iff length ≥ 9, an upper-case letter, a lower-case letter, a digit and a listed special character are all present |
| `PasswordStrengthChecker.ValidateImpliesBackend` | frontend/components/createAccount/PasswordStrengthChecker.tsx:143-145 | every password the frontend accepts is accepted by the backend's `isStrongPassword` |
| `PasswordStrengthChecker.BackendAcceptsWhatCheckerRejects` | frontend/components/createAccount/PasswordStrengthChecker.tsx:38 | `"Abcdefgh1~"` passes the backend and fails the frontend, so the converse does not hold |
| `PasswordStrengthChecker.RenderedLabels` | frontend/components/createAccount/PasswordStrengthChecker.tsx:120-123 | the four conditional fragments, each contributing its label when its condition holds; `LabelFor` proves exactly one renders |
| `PasswordStrengthChecker.LabelFor` | frontend/components/createAccount/PasswordStrengthChecker.tsx:120-123 | for any count ≤ 5 whose flag means "all five met", exactly one fragment renders, and it is Weak, Fair, Good or Strong under the four conditions |
| `PasswordStrengthChecker.StrengthOf` | frontend/components/createAccount/PasswordStrengthChecker.tsx:120-123 | the four fragments render exactly one label: Weak iff count < 2, Fair iff 2 ≤ count < 4, Good iff count ≥ 4 and not all met, Strong iff the password validates |
| `PasswordStrengthChecker.StrengthMonotone` | frontend/components/createAccount/PasswordStrengthChecker.tsx:114-123 | a password meeting at least as many requirements never gets a worse label |
| `RegisterSchema.AllTrue` | frontend/schemas/registerSchema.ts:13 | `every(Boolean)` holds iff every flag is true |
| `RegisterSchema.ValidateStrongPassword` | frontend/schemas/registerSchema.ts:5-14 | defined as `every(Boolean)` over this file's five flags; `ValidateAgreesWithChecker` ties it to the checker |
| `RegisterSchema.ValidateAgreesWithChecker` | frontend/schemas/registerSchema.ts:5-14 | the schema's own `validateStrongPassword` agrees with the checker's on every string |
| `RegisterSchema.FieldRules` | frontend/schemas/registerSchema.ts:17-52 | every issue of a field's rules is reported on that field's path |
| `RegisterSchema.NameRulesMeaning` | frontend/schemas/registerSchema.ts:18-39 | a name field has no issue iff its length is 1..50 and every character is A-Z, a-z or space |
| `RegisterSchema.FieldRulesMeaning` | frontend/schemas/registerSchema.ts:18-52 | per field: names as above, email iff the format check holds, phone iff length ≥ 10, password iff strong (the `.min(9)` is implied), confirmation iff non-empty, terms iff true |
| `RegisterSchema.Issues` | frontend/schemas/registerSchema.ts:16-57 | the field issues in declaration order, then the password-match refinement; `ValidIff` and `MismatchOnConfirmPath` state what they mean |
| `RegisterSchema.IsValid` | frontend/schemas/registerSchema.ts:16-57 | the form parses when no issue is reported; `ValidIff` characterises it |
| `RegisterSchema.ValidIff` | frontend/schemas/registerSchema.ts:16-57 | the form is valid iff every field rule holds and password equals the confirmation |
| `RegisterSchema.MismatchOnConfirmPath` | frontend/schemas/registerSchema.ts:54-57 | with all field rules met, the form is valid iff the passwords match, and a mismatch is the single issue "Passwords don't match" on `confirmPassword` |
| `ResetPasswordSchema.ValidateAgreesWithRegister` | frontend/schemas/resetPasswordSchema.ts:5-14 | the reset schema's copy agrees with the register schema's and with the checker's on every string |
| `ResetPasswordSchema.ValidateStrongPassword` | frontend/schemas/resetPasswordSchema.ts:5-14 | defined as `every(Boolean)` over this file's own five flags; `ValidateAgreesWithRegister` ties it to the other copies |
| `ResetPasswordSchema.Issues` | frontend/schemas/resetPasswordSchema.ts:16-31 | the two field rules' issues, then the password-match refinement; `ValidIff`, `MismatchOnConfirmPath` and `DefaultsDoNotValidate` state what they mean |
| `ResetPasswordSchema.IsValid` | frontend/schemas/resetPasswordSchema.ts:16-31 | the form parses when no issue is reported; `ValidIff` characterises it |
| `ResetPasswordSchema.ValidIff` | frontend/schemas/resetPasswordSchema.ts:16-31 | the reset form is valid iff the password is strong and equals the confirmation |
| `ResetPasswordSchema.MismatchOnConfirmPath` | frontend/schemas/resetPasswordSchema.ts:28-31 | with both field rules met, a mismatch is the single issue on `confirmPassword` |
| `ResetPasswordSchema.DefaultsDoNotValidate` | frontend/schemas/resetPasswordSchema.ts:35-38 | the two empty defaults give exactly the too-short, not-strong and confirm-required issues, so they are not valid |
| `Pagination.IndexOf` | frontend/components/shared/Pagination.tsx:56 | `indexOf` gives the first position of the entry, or -1 exactly when it is absent |
| `Pagination.FilterPages` | frontend/components/shared/Pagination.tsx:54-57 | the filter loop computes the filtered list entry by entry |
| `Pagination.FilteredDistinctInRange` | frontend/components/shared/Pagination.tsx:54-57 | for any input list, the filter leaves only page numbers in `[1, totalPages]`, each at most once |
| `Pagination.FilterKeepsDistinct` | frontend/components/shared/Pagination.tsx:54-57 | on a list whose numbers are already distinct and in range, the filter keeps every entry |
| `Pagination.PushCandidates` | frontend/components/shared/Pagination.tsx:22-51 | the pushes of the three cases build the reference window |
| `Pagination.WindowDistinctInRange` | frontend/components/shared/Pagination.tsx:22-51 | beyond seven pages, the pushed numbers are already distinct and in range |
| `Pagination.GeneratePages` | frontend/components/shared/Pagination.tsx:16-60 | the whole routine, early return and filter included, returns the reference window |
| `Pagination.SmallTotalListsEveryPage` | frontend/components/shared/Pagination.tsx:18-20 | with at most 7 pages the result is exactly pages 1..totalPages (empty for totalPages ≤ 0) |
| `Pagination.WindowBounded` | frontend/components/shared/Pagination.tsx:18-51 | the result never has more than 7 entries |
| `Pagination.WindowFramed` | frontend/components/shared/Pagination.tsx:25-50 | with more than 7 pages the first entry is page 1 and the last is page totalPages |
| `Pagination.WindowInRange` | frontend/components/shared/Pagination.tsx:54-57 | every page number in the result lies in `[1, totalPages]` |
| `Pagination.WindowIncreasing` | frontend/components/shared/Pagination.tsx:27-51 | page numbers strictly increase from left to right |
| `Pagination.WindowShowsCurrent` | frontend/components/shared/Pagination.tsx:27-51 | if 1 ≤ currentPage ≤ totalPages, the current page is shown |
| `Pagination.WindowGapsAreReal` | frontend/components/shared/Pagination.tsx:27-51 | adjacent page numbers are consecutive, and each ellipsis sits between two pages with at least one hidden page between them |
| `Pagination.MiddleShape` | frontend/components/shared/Pagination.tsx:45-51 | in the middle case the result is `[1, …, c-1, c, c+1, …, total]` |
| `NoSearchResult.GetIcon` | frontend/components/NoSearchResult.tsx:21-26 | the if/return chain for the icon; `IconFollowsTable` and `IconIgnoresOtherProps` give its meaning |
| `NoSearchResult.GetTitle` | frontend/components/NoSearchResult.tsx:28-32 | the if/return chain for the title; `TitleRules` and `EmptyStringsFallThrough` give its meaning |
| `NoSearchResult.GetDescription` | frontend/components/NoSearchResult.tsx:34-60 | the if/return chain for the description; `DescriptionFollowsTable` and the lemmas after it give its meaning |
| `NoSearchResult.IconFollowsTable` | frontend/components/NoSearchResult.tsx:21-26 | the icon is the first match of search > tags > dateRange, with the folder icon as the default |
| `NoSearchResult.IconIgnoresOtherProps` | frontend/components/NoSearchResult.tsx:21-26 | the icon does not depend on `hasActiveFilters`, `title` or `description` |
| `NoSearchResult.TitleRules` | frontend/components/NoSearchResult.tsx:28-32 | a truthy title wins; otherwise the title is "NO RESULTS FOUND" iff filters are active, and "NO PROJECTS YET" iff not |
| `NoSearchResult.EmptyStringsFallThrough` | frontend/components/NoSearchResult.tsx:29-35 | an empty title or description behaves as an absent one |
| `NoSearchResult.DescriptionFollowsTable` | frontend/components/NoSearchResult.tsx:37-57 | with active filters and no description, the text is the first match of the pair rows, then the single rows, then the generic fallback |
| `NoSearchResult.SearchAndTagsWin` | frontend/components/NoSearchResult.tsx:38-40 | when search and tags are both present (date range or not), the search-and-tags text is chosen |
| `NoSearchResult.InactiveIgnoresFilterTypes` | frontend/components/NoSearchResult.tsx:35-59 | without a description and without active filters, the text is the "haven't created any projects" one, whatever the filter types |
| `NoSearchResult.OnlyKnownTypesMatter` | frontend/components/NoSearchResult.tsx:21-57 | icon and description depend only on which of the three known filter types are present |
| `UserController.ToResponse` | backend/controllers/user.controller.ts:64-83 | the `userResponse` object, whose type has no password field; `ResponseHidesPassword` and `ResponseKeepsOtherFields` give its meaning |
| `UserController.StatusOrActive` | backend/controllers/user.controller.ts:43 | `status \|\| 'Active'`: never empty, the supplied status when it is truthy, otherwise "Active" |
| `UserController.ResponseHidesPassword` | backend/controllers/user.controller.ts:64-83 | the response is the same whatever the stored password is |
| `UserController.ResponseKeepsOtherFields` | backend/controllers/user.controller.ts:64-83 | two users give the same response iff they differ at most in the password |
| `UserController.UserStore.FindOne` | backend/controllers/user.controller.ts:28 | finds a user iff one is stored under that email, and returns that user |
| `UserController.UserStore.Save` | backend/controllers/user.controller.ts:53 | stores the document under its email, keeping every email key mapped to a user with that email |
| `UserController.Mailer.SendEmail` | backend/controllers/user.controller.ts:56-60 | appends the message to the outbox iff delivery succeeds |
| `UserController.CreateAccount` | backend/controllers/user.controller.ts:10-86 | duplicate email: 400 "User already exists", store and outbox unchanged. New email: exactly one key added, other users untouched, document is body fields plus `hash(password)`, `status` or "Active", unverified, not deleted, `createdBy` "self", 0 credits. Then exactly one "Verify Your Account" email to the saved email. Answer is 201 with the password-free response. If sending fails, the user stays saved with no email |
| `UserController.RegisterTwice` | backend/controllers/user.controller.ts:28-60 | on an empty store, registering one body twice creates one user with the hashed password and sends one email; the second call is rejected with 400; any password is accepted |

## Left out

- Other account operations: login, tokens, email verification, forgot and reset password, and change password. Their bodies are not part of this model; only `createAccount` is.
- The `User` Mongoose schema is not part of this model. So its own validation, any unique index, and the `createdAt`/`updatedAt` timestamps echoed in the response are missing. A failing `save()` is not modelled, and neither is a `findOne` that rejects.
- UserController.CreateAccount: not atomic in the source. `findOne` (backend/controllers/user.controller.ts:28) and `save()` (line 53) are separate awaits with `bcrypt.hash` between them, so two requests for one email can both pass the duplicate check. The model runs calls one after another and does not model that race. Its `map<string, User>` stands for a collection assumed to hold one document per email, so it cannot represent the two documents such a race would leave.
- bcrypt is the opaque parameter `hash`. Its random salt, cost factor 10 and failure path are not modelled.
- `sendEmail` and `verificationEmailTemplate` are opaque. The `delivered` flag stands for the outcome of the awaited send. A rejected send is the `EmailFailed` outcome: the handler itself sends no response. The route wraps the handler in `catchError` (backend/routes/user/userRoutes.ts:18), which presumably forwards the rejection to Express's error path; that wrapper is not modelled.
- `console.log`, and Express's `next`/`sendResponse` envelope, which is reduced to a status code and message.
- Request-body typing: every field is a present string or bool. The only falsy `status` values modelled are absent and `""`.
- JavaScript strings: `length` counts UTF-16 code units, so a character outside the Basic Multilingual Plane counts twice in the source. Here every `char` counts once.
- zod's `.email()` format check is the parameter `isEmail`.
- zod's object-level `.refine` is modelled as zod 3 runs it: still applied when field rules report ordinary issues. Parse failures of ill-typed values are not modelled, because the form values are typed.
- `generatePages` works on integers. JavaScript's non-integer, `NaN` or infinite `totalPages`/`currentPage` are not modelled.
- JSX rendering, CSS classes, click handlers and requirement label texts. The colour and width classes of the strength bar follow the same four conditions as the label.
- `NoSearchResult`'s icons are an enumeration, not React elements.
