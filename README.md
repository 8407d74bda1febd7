# Vanguard pet-boarding frontend: a Dafny model of its page logic

Vanguard is a boarding service for dogs. Its web frontend has a client side
(sign-up, wallet) and a staff side (login, communication log, and the
dashboard's service manager, client directory, arrivals terminal and
care-alert dialog). This project models the logic of those eight screens:
- how each one derives what it shows from its state;
- how each event handler changes that state, the browser's local storage and
  the route;
- which requests each handler sends.

It then proves what the screens promise. Some highlights:
- the sign-up submit button is enabled only for a full-strength, confirmed
  password;
- the staff portal never gives a client account a session;
- the client directory is a stable sort: unread messages first, then pet
  owners, then alphabetical by the label it shows;
- the wallet balance is the sum of the confirmed bookings;
- an arrival can be checked in exactly when it is paid.

Modules, one per screen plus three shared ones:

- `Wrappers`: `Option`.
- `Text`: the string built-ins the screens use:
  - `toLowerCase` and `toUpperCase` on ASCII letters;
  - `includes` as `Contains`, proved equal to "occurs at some offset";
  - `split('@')[0]`;
  - `trim`, over the exact ECMAScript whitespace and line-terminator set.
- `Seqs`: `Array.prototype.filter` and its laws: subsequence, membership,
  counts, concatenation and monotonicity.
- `Session`: local storage as a `map<string, string>`, its five `vanguard_*`
  keys, the four-key session write both login paths share, and the bearer
  header.
- `Signup`, `StaffLogin`, `CommsLog`, `Wallet`, `ServiceManager`,
  `ClientDirectory`, `CheckIn`, `Incident`: one per screen.

How the screens are modelled:
- A page whose handlers update its state becomes a class. Its fields are the
  component's state, plus `storage` for local storage.
- Each asynchronous handler is a method run to completion, up to the state
  after its `finally`.
- Each network reply, and the outcome of the browser's WebAuthn call, is a
  datatype parameter with one constructor per branch the handler takes: ok
  body, non-ok status, thrown error.
- Each request the handler sends is an out-parameter (`None` when it sends
  nothing), and so is the `router.push` target.
- The stateless dashboard components (directory, arrivals, care alert) are
  functions of their props.
- Money is a whole number of cents.

The comms screen is a flat, read-only log with a search box and a role
filter. It has no threads, no selection and no sending; nothing on the page
changes the filter from `all`, because the filter button has no handler. The
model is that flat log.

Strings are sequences of Unicode characters. Where the code measures a length
(`password.length`), the model counts UTF-16 code units as JavaScript does
(`Text.Utf16Length`).

## Model

| member | source | states |
|---|---|---|
| Text.Contains | app/staff/comms/page.tsx:61-63 | `s.includes(t)`: `t` is a prefix of `s` or of one of its suffixes |
| Text.Utf16Length | app/client/signup/page.tsx:53 | `length` of a string is its count of UTF-16 code units: between its character count and twice that, and equal to the character count exactly when no character lies beyond U+FFFF |
| Text.AstralCountsTwice | app/client/signup/page.tsx:53 | `"A!😀😀"` has 4 characters and length 6 |
| Text.Trim | app/staff/dashboard/components/IncidentModal.tsx:92 | `trim()`: whitespace removed from both ends |
| Text.IsJsWhitespace | app/staff/dashboard/components/IncidentModal.tsx:92 | the characters `trim` removes: space, tab, line feed and carriage return are among them, no visible ASCII character is |
| Text.ContainsIff | app/staff/comms/page.tsx:61-63 | `includes` holds exactly when the needle occurs at some offset of the text |
| Text.Lower | app/staff/comms/page.tsx:61-63 | lowercasing keeps the length, maps every ASCII capital to its small letter and leaves every other character as it is |
| Text.UpperChar | app/staff/dashboard/components/ClientDirectory.tsx:65 | `toUpperCase` on one character (ASCII only): the result is never a lower-case letter and differs from the input only in case |
| Text.LocalPart | app/staff/comms/page.tsx:162 | `split('@')[0]` is the longest prefix without `@`; when the text has an `@`, it stops just before the first one |
| Text.TrimStart | app/staff/dashboard/components/IncidentModal.tsx:92 | the result is a suffix of the input, only whitespace was removed, and it is empty or starts with a non-whitespace character |
| Text.TrimEnd | app/staff/dashboard/components/IncidentModal.tsx:92 | the result is a prefix of the input, only whitespace was removed, and it is empty or ends with a non-whitespace character |
| Text.TrimEmptyIff | app/staff/dashboard/components/IncidentModal.tsx:92 | `trim()` gives the empty string exactly when every character is whitespace |
| Seqs.Filter | app/staff/comms/page.tsx:59 | `filter`: the passing elements in their original order, never more than the input |
| Seqs.FilterIsSubsequence | app/staff/comms/page.tsx:59 | a filtered array keeps some of the elements, in their original order |
| Seqs.FilterMembership | app/staff/comms/page.tsx:59 | an element is in a filtered array exactly when it is in the input and passes the predicate |
| Seqs.FilterCount | app/client/wallet/page.tsx:36 | each passing element is kept as many times as it occurs, and each failing one is dropped |
| Session.GetItem | app/staff/login/page.tsx:37-38 | `getItem` returns the stored value when the key is present and `null` otherwise |
| Session.Truthy | app/staff/login/page.tsx:40 | `if (x)` on a stored item: true exactly when the item is present and not the empty string |
| Session.WriteSession | app/client/signup/page.tsx:78-81 | a login writes the token, role, user name and e-mail under their four keys and leaves every other key as it was |
| Session.BearerHeader | app/staff/comms/page.tsx:38-40 | the `Authorization` header is `Bearer ` followed by the stored token, or by `null` when there is none |
| Signup.HasMinLength | app/client/signup/page.tsx:53 | at least 5 UTF-16 code units |
| Signup.HasUppercase | app/client/signup/page.tsx:54 | some character is in `A`-`Z` |
| Signup.HasSpecialChar | app/client/signup/page.tsx:55 | some character is one of `!@#$%^&*(),.?":{}\|<>` |
| Signup.AllRequirementsMet | app/client/signup/page.tsx:56 | all three checks hold |
| Signup.AstralPasswordIsStrong | app/client/signup/page.tsx:53-57 | `"A!😀😀"` has full strength, its two emoji counting two units each |
| Signup.StrengthColor | app/client/signup/page.tsx:231 | green at 3, yellow at 2, red otherwise |
| Signup.SubmitEnabled | app/client/signup/page.tsx:284 | the negation of the button's `disabled` expression |
| Signup.PasswordStrength | app/client/signup/page.tsx:53-57 | the strength counts the checks passed: at most 3, 3 exactly when every requirement is met, 0 exactly when none is |
| Signup.StrengthColorMeaning | app/client/signup/page.tsx:231 | the bar is green exactly when all requirements are met, yellow exactly when two checks pass, and red exactly when at most one passes |
| Signup.SubmitEnabledMeaning | app/client/signup/page.tsx:284 | the button is enabled exactly when the form is idle, name and e-mail are filled in, the confirmation matches and the strength is 3 |
| Signup.RejectionMessage | app/client/signup/page.tsx:84-85 | a rejection always shows a message: the server's text when it sent one, `Registration failed.` otherwise |
| Signup.SignupForm.constructor | app/client/signup/page.tsx:42-50 | the form starts with every field empty, not loading and without an error |
| Signup.SignupForm.HandleRegister | app/client/signup/page.tsx:59-92 | mismatched passwords: an error and nothing sent. Otherwise the registration is sent. On success the session is written and the route is the client dashboard. A rejection or a connection failure shows its message, writes nothing and ends loading |
| StaffLogin.LooksLikeEmail | app/staff/login/page.tsx:45 | the text contains both `@` and `.` |
| StaffLogin.IsClientRole | app/staff/login/page.tsx:78 | the role is exactly `client` |
| StaffLogin.CredentialsMissing | app/staff/login/page.tsx:118 | `allowCredentials` is missing or empty |
| StaffLogin.FaceIdFlag | app/staff/login/page.tsx:87 | the stored face-ID flag is `'true'` exactly when the reply enables face-ID, and `'false'` otherwise |
| StaffLogin.LoginRejection | app/staff/login/page.tsx:91-92 | a rejected login always shows a message: the server's text when it sent one, `Invalid credentials` otherwise |
| StaffLogin.FaceIdFailure | app/staff/login/page.tsx:148-149 | a face-ID failure always shows a message: the error's own message when it has one, `Face ID login failed` otherwise |
| StaffLogin.CleanOptions | app/staff/login/page.tsx:122-123 | the options handed to the authenticator are the public-key options less a truthy `challenge_id`. They keep `challenge_id` exactly when it is present and falsy. Every other field and the credential list are unchanged |
| StaffLogin.StaffLoginPage.constructor | app/staff/login/page.tsx:28-33 | the page starts empty and idle, with face-ID off and the snackbar closed |
| StaffLogin.StaffLoginPage.Mount | app/staff/login/page.tsx:36-41 | a stored flag `'true'` turns face-ID on, and a stored non-empty e-mail pre-fills the field |
| StaffLogin.StaffLoginPage.CheckEmail | app/staff/login/page.tsx:44-60 | the check is sent exactly for text with `@` and `.`. A registered answer turns face-ID on and stores the flag. An unregistered one turns it off unless the flag is stored. A thrown check changes nothing |
| StaffLogin.StaffLoginPage.HandleLogin | app/staff/login/page.tsx:62-99 | a client role gets the access-denied message and no storage change. Any other role gets the session and face-ID flag written and the staff dashboard route. A rejection or a throw shows its message. Loading always ends |
| StaffLogin.StaffLoginPage.FailFaceId | app/staff/login/page.tsx:148-151 | a caught face-ID error shows its message and opens the snackbar |
| StaffLogin.StaffLoginPage.HandleFaceIdLogin | app/staff/login/page.tsx:101-152 | covers every early exit: no e-mail, start failure, expired credentials, authenticator error, finish failure, client role. The authenticator gets the cleaned options; the finish request carries the top-level challenge id. Storage changes, and the route is the staff dashboard, only on a successful non-client finish |
| StaffLogin.ClientRoleWritesNothing | app/staff/login/page.tsx:73-89 | a reply with role `client` leaves storage untouched and shows access denied, on the password path here and on the face-ID path (lines 133-138) |
| CommsLog.Classify | app/staff/comms/page.tsx:53-56 | an address is owner iff it contains `owner` or `admin`; else staff iff it contains `staff` or `vanguard`; else a client |
| CommsLog.BadgeOf | app/staff/comms/page.tsx:54-56 | each role gets its own caption: OWNER for owners, STAFF for staff, CLIENT for clients |
| CommsLog.RoleBadge | app/staff/comms/page.tsx:53-56 | the badge reads OWNER, STAFF or CLIENT exactly for owner, staff and client addresses, each with its own colour pair; an admin test wins over a vanguard test |
| CommsLog.MatchesSearch | app/staff/comms/page.tsx:60-63 | the lowercased term occurs in the lowercased content, sender or receiver |
| CommsLog.Keep | app/staff/comms/page.tsx:59-71 | the filter callback: a search match, then the `staff` or `client` test, or `true` under `all` |
| CommsLog.FilteredMessages | app/staff/comms/page.tsx:59 | `filteredMessages`: the messages the callback keeps |
| CommsLog.FilteredIsSubsequence | app/staff/comms/page.tsx:59-71 | the shown log is the fetched log with some entries dropped, in their original order |
| CommsLog.AllFilterIff | app/staff/comms/page.tsx:59-65 | under filter `all`, a message is shown iff its content, sender or receiver contains the search term, ignoring case |
| CommsLog.EmptySearchKeepsAll | app/staff/comms/page.tsx:59-71 | an empty search under filter `all` shows the whole log, unchanged |
| CommsLog.StaffFilterIff | app/staff/comms/page.tsx:67 | under filter `staff`, a search match is shown iff its sender or receiver contains `vanguard` |
| CommsLog.ClientFilterIff | app/staff/comms/page.tsx:68 | under filter `client`, a search match is hidden iff both its sender and its receiver contain `vanguard` |
| CommsLog.SearchRejectsUnderEveryFilter | app/staff/comms/page.tsx:59-71 | a message the search rejects is hidden under every filter, and every filter shows a subsequence of what `all` shows |
| CommsLog.PartyName | app/staff/comms/page.tsx:162 | the printed party name is the address up to its first `@`, or the whole address when it has none |
| CommsLog.CommsLogPage.constructor | app/staff/comms/page.tsx:25-28 | the page starts with an empty log, loading, an empty search and filter `all` |
| CommsLog.CommsLogPage.FetchMessages | app/staff/comms/page.tsx:36-51 | one fetch sends the bearer header. An ok reply replaces the log; otherwise the log is kept. Loading ends; search and filter are untouched |
| CommsLog.CommsLogPage.SetSearchTerm | app/staff/comms/page.tsx:108 | typing replaces the search term |
| CommsLog.CommsLogPage.Shown | app/staff/comms/page.tsx:123-130 | nothing is listed while loading, and the filtered log afterwards |
| CommsLog.FirstLoadShowsEverything | app/staff/comms/page.tsx:25-71 | after the first successful fetch, a fresh page lists the whole fetched log in order |
| Wallet.ConfirmedOf | app/client/wallet/page.tsx:36 | the bookings with status `Confirmed` |
| Wallet.Total | app/client/wallet/page.tsx:37 | the sum of `total_price`, starting from 0 |
| Wallet.GoodStanding | app/client/wallet/page.tsx:80 | the balance is 0 |
| Wallet.ConfirmedOfMeaning | app/client/wallet/page.tsx:36 | the kept bookings are all confirmed; each confirmed booking is kept as often as it occurs; the order is unchanged |
| Wallet.TotalOfConfirmed | app/client/wallet/page.tsx:36-37 | filtering then summing equals the reference sum: each booking contributes its price when confirmed and nothing otherwise |
| Wallet.NoConfirmedZeroBalance | app/client/wallet/page.tsx:36-37 | with no confirmed booking, nothing is listed and the balance is 0 |
| Wallet.ZeroBalanceIff | app/client/wallet/page.tsx:37 | with non-negative prices the balance is never negative, and it is 0 exactly when every confirmed booking is free |
| Wallet.WalletPage.constructor | app/client/wallet/page.tsx:19-21 | the page starts with balance 0, no bookings, loading |
| Wallet.WalletPage.FetchWalletData | app/client/wallet/page.tsx:28-47 | without a stored e-mail nothing is sent and nothing changes, loading included. Otherwise the bookings of that e-mail are requested. An ok reply sets the confirmed list and a balance equal to the reference sum; a failure keeps both. Loading ends |
| Wallet.NoConfirmedShowsGoodStanding | app/client/wallet/page.tsx:80-81 | a fetch with no confirmed booking shows the good-standing chip |
| ServiceManager.FormFor | app/staff/dashboard/components/ServiceManager.tsx:38 | the edit form opens on the service's price and its description, or `""` |
| ServiceManager.ServiceManagerPanel.constructor | app/staff/dashboard/components/ServiceManager.tsx:11-16 | the panel starts with no services, loading, the dialog closed, an empty form, not saving and no error |
| ServiceManager.ServiceManagerPanel.DialogOpen | app/staff/dashboard/components/ServiceManager.tsx:126 | the edit dialog is open exactly while a service is being edited (`!!editService`); HandleEdit opens it and Close closes it |
| ServiceManager.ServiceManagerPanel.FetchServices | app/staff/dashboard/components/ServiceManager.tsx:22-34 | only an ok reply replaces the services, and loading ends |
| ServiceManager.ServiceManagerPanel.HandleEdit | app/staff/dashboard/components/ServiceManager.tsx:36-39 | editing opens the dialog on that service, with its form |
| ServiceManager.ServiceManagerPanel.SetPrice | app/staff/dashboard/components/ServiceManager.tsx:146 | the price field replaces the price and keeps the description |
| ServiceManager.ServiceManagerPanel.SetDescription | app/staff/dashboard/components/ServiceManager.tsx:159 | the description field replaces the description and keeps the price |
| ServiceManager.ServiceManagerPanel.Close | app/staff/dashboard/components/ServiceManager.tsx:164 | Cancel closes the dialog |
| ServiceManager.ServiceManagerPanel.HandleSave | app/staff/dashboard/components/ServiceManager.tsx:41-66 | with no dialog open nothing happens. Otherwise the PUT carries the id, price and description. Success closes the dialog and re-fetches; a failure keeps it open with its message. Saving ends and the form is kept |
| ServiceManager.EditThenSave | app/staff/dashboard/components/ServiceManager.tsx:36-66 | edit then save: the dialog stays open, on the same service and with an error, exactly when the save fails |
| ClientDirectory.Unread | app/staff/dashboard/components/ClientDirectory.tsx:19-20 | the unread count, 0 when missing |
| ClientDirectory.PetCount | app/staff/dashboard/components/ClientDirectory.tsx:24-25 | the number of pets, 0 when the list is missing |
| ClientDirectory.SortKey | app/staff/dashboard/components/ClientDirectory.tsx:30-31 | `name \|\| email \|\| ""` |
| ClientDirectory.Highlighted | app/staff/dashboard/components/ClientDirectory.tsx:43 | the unread count is present and positive |
| ClientDirectory.StrCompare | app/staff/dashboard/components/ClientDirectory.tsx:32 | the comparison returns -1, 0 or 1, and 0 exactly for equal names |
| ClientDirectory.StrCompareAntisymmetric | app/staff/dashboard/components/ClientDirectory.tsx:32 | swapping the names negates the comparison |
| ClientDirectory.StrCompareTransitive | app/staff/dashboard/components/ClientDirectory.tsx:32 | the name order is transitive |
| ClientDirectory.Compare | app/staff/dashboard/components/ClientDirectory.tsx:17-33 | more unread messages go first; at equal counts pet owners go first; otherwise the result is the name comparison |
| ClientDirectory.PetCountIgnoredAmongOwners | app/staff/dashboard/components/ClientDirectory.tsx:24-27 | two pet owners with equal unread counts are ordered by name, whatever their pet counts |
| ClientDirectory.LeTotal | app/staff/dashboard/components/ClientDirectory.tsx:17-33 | any two clients are comparable |
| ClientDirectory.LeTransitive | app/staff/dashboard/components/ClientDirectory.tsx:17-33 | "may stand before" (a non-positive comparison) is transitive |
| ClientDirectory.CompareAntisymmetric | app/staff/dashboard/components/ClientDirectory.tsx:17-33 | swapping the two clients negates the comparison; with LeTotal and LeTransitive this makes the comparator a consistent total preorder |
| ClientDirectory.Insert | app/staff/dashboard/components/ClientDirectory.tsx:17 | inserting adds exactly one copy of the client |
| ClientDirectory.InsertSorted | app/staff/dashboard/components/ClientDirectory.tsx:17 | inserting into a sorted directory keeps it sorted |
| ClientDirectory.SortDirectory | app/staff/dashboard/components/ClientDirectory.tsx:16-34 | the sorted copy is a permutation of the clients |
| ClientDirectory.SortDirectorySorted | app/staff/dashboard/components/ClientDirectory.tsx:16-34 | the sorted copy is in comparator order |
| ClientDirectory.UnreadNonIncreasing | app/staff/dashboard/components/ClientDirectory.tsx:18-21 | down the directory the unread count, with a missing count read as 0, never rises |
| ClientDirectory.PetOwnersFirst | app/staff/dashboard/components/ClientDirectory.tsx:23-27 | at equal unread counts every pet owner stands above every client without pets |
| ClientDirectory.KeyNonDecreasingInGroup | app/staff/dashboard/components/ClientDirectory.tsx:29-32 | within a group of equal unread count and pet ownership, `name \|\| email` is in alphabetical order |
| ClientDirectory.HighlightedFirst | app/staff/dashboard/components/ClientDirectory.tsx:43-44 | every row drawn in gold (unread messages) stands above every plain row |
| ClientDirectory.SameRankMeaning | app/staff/dashboard/components/ClientDirectory.tsx:17-33 | two clients tie exactly when unread count, pet ownership and sort key are all equal |
| ClientDirectory.InsertStable | app/staff/dashboard/components/ClientDirectory.tsx:17 | an inserted client lands behind every client it ties with, and the other clients keep their relative order |
| ClientDirectory.SortDirectoryStable | app/staff/dashboard/components/ClientDirectory.tsx:16-34 | the sort is stable: tied clients keep their input order |
| ClientDirectory.DisplayName | app/staff/dashboard/components/ClientDirectory.tsx:79 | the bold label is the name, or the e-mail when there is no name |
| ClientDirectory.DisplayedLabelIsSortKey | app/staff/dashboard/components/ClientDirectory.tsx:79 | the alphabetical key is exactly the label shown |
| ClientDirectory.AvatarLetter | app/staff/dashboard/components/ClientDirectory.tsx:65 | the avatar letter is the e-mail's first character, upper-cased |
| ClientDirectory.JoinNames | app/staff/dashboard/components/ClientDirectory.tsx:82 | the joined pet names start with the first pet's name, which is the whole text when there is one pet |
| ClientDirectory.PetsCaption | app/staff/dashboard/components/ClientDirectory.tsx:82 | the caption lists the pet names, or reads `No pets registered` when there are none |
| CheckIn.AvatarText | app/staff/dashboard/components/CheckInModal.tsx:47 | the avatar is the dog name's first letter upper-cased, or `D` without a name; one character either way |
| CheckIn.NameText | app/staff/dashboard/components/CheckInModal.tsx:49 | the row shows the dog's name, or `VIP` when it is missing or empty |
| CheckIn.RowFor | app/staff/dashboard/components/CheckInModal.tsx:45-85 | Check In is enabled iff paid. Force Paid is offered iff the viewer is an owner and the arrival is unpaid. The chip reads Paid or Awaiting Payment |
| CheckIn.ActionsExclusive | app/staff/dashboard/components/CheckInModal.tsx:59-73 | Force Paid and Check In are never both available, an owner always has exactly one, and other staff have neither on an unpaid arrival |
| CheckIn.ChipMatchesCheckIn | app/staff/dashboard/components/CheckInModal.tsx:51-73 | the chip reads Paid exactly when Check In is usable |
| CheckIn.RowsFor | app/staff/dashboard/components/CheckInModal.tsx:44 | one row per arrival, in order |
| CheckIn.Panel | app/staff/dashboard/components/CheckInModal.tsx:42-44 | the info alert shows exactly when there are no arrivals; otherwise one row per arrival |
| CheckIn.CheckInOnlyForPaid | app/staff/dashboard/components/CheckInModal.tsx:42-87 | in the dialog, arrival i can be checked in iff it is paid, and Force Paid appears iff an owner views an unpaid one |
| Incident.LogEnabled | app/staff/dashboard/components/IncidentModal.tsx:92 | the details are non-empty after `trim()` |
| Incident.TargetSelectorShown | app/staff/dashboard/components/IncidentModal.tsx:53 | no pet is selected |
| Incident.LogEnabledIff | app/staff/dashboard/components/IncidentModal.tsx:92 | Log Alert is enabled exactly when the details contain a character that is not whitespace |
| Incident.SelectorMatchesTitle | app/staff/dashboard/components/IncidentModal.tsx:46-53 | the target selector is shown only when no pet is selected, and then the title reads `General Operation` |
| Incident.GuestIds | app/staff/dashboard/components/IncidentModal.tsx:62-64 | one option value per guest, its id, in guest order |
| Incident.TargetOptions | app/staff/dashboard/components/IncidentModal.tsx:61-64 | the target selector offers `general` first, then every guest's id in order |
| Incident.Title | app/staff/dashboard/components/IncidentModal.tsx:46 | the title names the selected pet, or `General Operation` when there is none or it has no name |

## Left out

- Network, timers and the browser are not modelled; the model takes their
  results as inputs:
  - every request is an out-parameter and every reply is an input;
  - the comms log's 10-second polling interval is repeated calls of
    `FetchMessages`;
  - console logging is dropped.
- The WebAuthn ceremony itself (`startAuthentication`) is left out. The model
  takes its outcome as an input.
- Asynchronous interleaving is left out. Each handler runs to completion, so
  the model does not capture a second click while a request is pending.
- ServiceManager.ServiceManagerPanel.HandleSave: models the un-awaited
  `fetchServices()` as finishing before `saving` is reset. In the browser the
  re-fetch may end later.
- Dollar amounts are whole cents. The model leaves out floating-point
  addition, `Number(...)` parsing of the price field and `toFixed(2)`
  formatting.
- Dates are opaque strings. `toLocaleTimeString` and `toLocaleDateString`
  are left out.
- ClientDirectory.StrCompare: `localeCompare` is modelled as plain order on
  character codes. Locale collation rules are left out.
- Text.Lower and Text.UpperChar: case mapping covers ASCII letters only.
- JavaScript truthiness is modelled for the types the model uses:
  - a missing value is `None`;
  - a falsy string is `""`;
  - a falsy number is a missing count.

  Non-string values in string positions are left out, such as a numeric
  `challenge_id` or `null` names.
- StaffLogin.CleanOptions: does not state that the authenticator's options
  never contain `challenge_id`. The code's guard (line 123) deletes the field
  only when its value is truthy, so a present but empty `challenge_id` is
  passed on. The contract states exactly which case that is.
- StaffLogin.StaffLoginPage.HandleFaceIdLogin: an ok `login/start` reply
  without a `publicKey` object is left out. There the source throws a
  `TypeError`, and the catch shows that error's message.
- ClientDirectory.AvatarLetter: takes the whole first character. The
  source's `email[0]` is the first UTF-16 code unit, which for a character
  beyond U+FFFF is half a surrogate pair; a lone surrogate is not a Dafny
  `char`, so that case is not modelled.
- CheckIn.AvatarText: likewise takes the whole first character of the dog's
  name, where the source's `dog_name?.[0]` gives half a surrogate pair for a
  character beyond U+FFFF.
- ClientDirectory.AvatarLetter: requires a non-empty e-mail. With an empty
  e-mail the source's `email[0].toUpperCase()` throws while rendering.
- The pet-avatar image, the pet-count badge and colours outside the role
  badge and strength-bar tables are left out, as rendering details. These
  come from ClientDirectory.tsx lines 51-63, the wallet's balance colour and
  the green and amber colours of the Paid and Awaiting Payment chips
  (CheckInModal.tsx lines 52 and 54; the model keeps only the chip labels).
- Incident severity: the two fixed options (`Warning`, `Critical`) and the
  callbacks the dialog hands to its parent are left out. The dialog keeps no
  state of its own.
- CheckIn: the `service_type` caption is left out, as are the `onMarkPaid`,
  `onCheckIn` and `onClose` callbacks, which belong to the parent.
- Signup: the phone field is kept as form state only; nothing validates it
  or sends it. The show-password toggles are left out, having no logic. The confirm-field helper text (line 259) is left out too, as
  display only.
- ClientDirectory.JoinNames: states only the first name and the
  single-pet case, not the full comma-separated layout.
- The bookings page, the daily report modal, the staff management dialog and
  the service worker are not part of this model.
