# Sagrada Cena band intranet — a Dafny model

This project models the single-page intranet of the Sagrada Cena marching band. The
repository holds two variants of the page:

- the current one, `src/App.tsx`, with its data in `src/types.ts` and `src/constants.ts`;
- an older one, `App.tsx`, with its data in `types.ts` and `constants.ts`.

The model covers what the page decides rather than how it draws it:

- the access-code gate and the identify and register steps;
- who is an officer (`isAdmin`), which sidebar tabs are listed, and which pages show the
  "restricted access" placeholder or the officer-only controls;
- the sheet-music directory filter (`filteredScores`) and the per-voice member sections;
- the roll-call dialog (`AttendanceModal`): marking a member, and the rows written on
  "save and export".

Modules:

- `Text`: ASCII upper/lower-case mapping and substring search (`toUpperCase`,
  `toLowerCase`, `includes`).
- `Email`: the browser's check of the registration form's `type="email"` field, the
  "valid e-mail address" of section 4.10.5.1.5 of the HTML Living Standard.
- `Sequences`: `Array.prototype.filter` as a recursive function, with its lemmas.
- `BandTypes`, `BandConstants`: `src/types.ts`, `src/constants.ts`.
- `RootTypes`, `RootConstants`: `types.ts`, `constants.ts`. They reuse the entities that
  are spelled identically in both type files (roles, statuses, events, inventory items).
- `Permissions`: `isAdmin`, `navItems` and the restricted views of `src/App.tsx`.
- `ScoreDirectory`: `filteredScores` and the member sections per voice.
- `RollCall`: the `AttendanceModal` component. Its text is identical in both variants;
  each variant supplies its roster through an `AttendeeOf` adapter.
- `Intranet`: the `App` component of `src/App.tsx`, as a class whose fields are its
  `useState` variables. Each event handler is a method. The module-level mock data the
  component reads (events, members, scores) are constant fields set by the constructor.
- `RootIntranet`: the `App` component of the root `App.tsx`.

Each handler method requires the screen on which its button or field is rendered, since
a React handler can only fire from a rendered control. The roll-call dialog is a
full-screen overlay: it stops pointer clicks on the page behind it, but the page's
buttons stay in the tab order and can still be pressed from the keyboard. The handlers
of the signed-in page therefore do not require the dialog to be closed.

The dialog is a field of the `App` classes. The page renders it while someone is signed
in and a roll call is open. Signing out returns the gate early, so the dialog unmounts
and its working copy is lost. Signing in again with the roll call still open mounts it
afresh from the event's record.

`Valid()` is the invariant every handler preserves:

- (src only) the login step is past "code" exactly when the code was validated;
- (src only) a selected voice survives only on the scores tab;
- an open roll call is on one of the calendar's events;
- the dialog is mounted exactly while someone is signed in and a roll call is open,
  and it shows that event over the seed roster.

`RollCallOnlyForOfficers()` — a roll call is open only while an officer is signed
in — is not part of `Valid()`. Logging out with the dialog open breaks it (see
"## Findings").

Behaviour worth knowing:

- There is no email-and-password sign-in. The src variant offers only "Soy Nuevo Músico"
  and "Entrar como Admin Demo"; the root variant offers two demo buttons.
- Registration does not check for duplicate emails and does not add the new member to
  any roster.
- Roles cannot be edited.
- Logging out does not reset the login step. After a validated code, the gate reopens
  at the identify or register step.
- "Save and export" writes the spreadsheet and closes the dialog. It does not write the
  marks back to the event, so reopening starts again from the event's own record.
- In the root variant, pressing 'Pasar Lista' on a second event while the dialog is
  open keeps the mounted dialog: its title changes to the second event, but its working
  copy is still the first event's (`RootIntranet.SecondEventKeepsFirstRecord`).

## Model

| member | source | states |
|---|---|---|
| `Text.CaseLaws` | src/App.tsx:217-218 | case mapping keeps the length, lower-casing an upper-cased text gives its lower-case, and each mapping is idempotent |
| `Email.ValidEmailHasOneAt` | src/App.tsx:288 | an address the e-mail field accepts is non-empty and holds exactly one '@', neither first nor last |
| `Email.ValidEmailExample` | src/App.tsx:288 | 'ana@banda.es' is accepted |
| `Email.InvalidEmailExamples` | src/App.tsx:288 | 'ana', 'ana@', '@banda.es' and the empty text are refused |
| `BandTypes.RolesClosed` | src/types.ts:2-10 | UserRole has exactly seven values with pairwise distinct display names |
| `BandTypes.InstrumentLabelInjective` | src/types.ts:12-22 | two voices with the same label are the same voice |
| `BandTypes.StatusesClosed` | src/types.ts:39 | AttendanceStatus has exactly four values, 'Pendiente' among them, with distinct labels |
| `BandTypes.InventoryStatusesClosed` | src/types.ts:66 | an inventory item's status is one of exactly three values |
| `BandConstants.AdminRolesAreOfficers` | src/constants.ts:4-11 | ADMIN_ROLES lists six distinct roles; a role is in it exactly when it is not Músico |
| `BandConstants.InstrumentVoicesExact` | src/constants.ts:13-24 | INSTRUMENT_VOICES lists ten distinct voices and every value of InstrumentType is among them |
| `BandConstants.MockMembersFacts` | src/constants.ts:26-60 | three seed members with ids '1', '2', '3'; the first is Director (an officer), the third Músico (not one) |
| `BandConstants.MockScoreVoicesListed` | src/constants.ts:62-96 | every seed score's voice is one the directory offers |
| `BandConstants.MockEventKeysAreMembers` | src/constants.ts:111-121 | every attendance key of the seed event is a seed member's id |
| `RootTypes.InstrumentsClosed` | types.ts:12-20 | the root InstrumentType has exactly eight distinctly spelled values |
| `RootTypes.SharedSpellings` | types.ts:12-20 | a root voice label is also a src voice label exactly for the three trumpets and the tuba |
| `RootConstants.AdminRolesAgree` | constants.ts:4-11 | the root ADMIN_ROLES equals the src one: every role except Músico |
| `RootConstants.MockMembersFacts` | constants.ts:13-47 | root seed ids are distinct; member 1 is an officer, member 3 a Músico; every voice is a root voice |
| `RootConstants.MockEventsFacts` | constants.ts:80-98 | e1 records exactly the three seed members, '2' explicitly as 'Pendiente'; e2 records nobody |
| `Permissions.IsAdminIffOfficer` | src/App.tsx:175 | isAdmin holds exactly when someone is signed in whose role is not Músico |
| `Permissions.VisibleTabsByRole` | src/App.tsx:565-586 | the filtered sidebar lists all eight tabs in order for an officer, and the six without members and inventory for anyone else |
| `Permissions.RestrictedExactlyOffNavigation` | src/App.tsx:429-453 | the restricted placeholder renders on exactly the tabs the sidebar does not list |
| `Permissions.AdminControlsOnlyForAdmins` | src/App.tsx:351-356 | a rendered page shows the requested tab, with officer controls exactly for officers on calendar, members and inventory |
| `ScoreDirectory.FilterScoresCharacterised` | src/App.tsx:213-221 | no voice selected lists nothing; otherwise a score is listed iff it has the voice and the search occurs case-insensitively in its title or author, in list order |
| `ScoreDirectory.EmptySearchListsWholeVoice` | src/App.tsx:213-221 | an empty search lists every score of the selected voice |
| `ScoreDirectory.SearchIgnoresCase` | src/App.tsx:213-221 | upper- or lower-casing the search text beforehand lists the same scores |
| `ScoreDirectory.AuthorlessMatchesByTitle` | src/App.tsx:216-217 | a score without an author matches only through its title |
| `ScoreDirectory.OverlongSearchMatchesNothing` | src/App.tsx:216-217 | a search longer than both title and author matches nothing |
| `ScoreDirectory.VoiceMembersCharacterised` | src/App.tsx:465 | a voice section shows exactly the members of that voice, in roster order |
| `ScoreDirectory.SectionTotalCoversRoster` | src/App.tsx:464-465 | over distinct voices covering every member's voice, the section counters sum to the roster size |
| `ScoreDirectory.SectionsPartitionRoster` | src/App.tsx:464-465 | the members page, one section per INSTRUMENT_VOICES entry, shows every member exactly once in total |
| `RollCall.MarkButtonsNeverPending` | src/App.tsx:128 | the three buttons are distinct and cover every status except 'Pendiente' |
| `RollCall.LinesOnRoster` | src/App.tsx:100 | the dialog's roster, one line per member of its `members` prop, holds an id exactly when some member's line carries it |
| `RollCall.PendingExactlyWhenUnmarked` | src/App.tsx:107 | the 'Estado' column reads 'Pendiente' iff nothing or 'Pendiente' is recorded, else the recorded status |
| `RollCall.ExportRowsDescribeRoster` | src/App.tsx:104-108 | one row per roster line in roster order, with the full name, the voice label and the recorded status or 'Pendiente' |
| `RollCall.ExportRowsAfterMark` | src/App.tsx:131 | marking a member changes only the status of that member's rows |
| `RollCall.ExportIgnoresStrangers` | src/App.tsx:104-108 | entries for ids outside the roster never change the export |
| `RollCall.UnmarkedEventAllPending` | src/App.tsx:107 | an event with no recorded attendance exports 'Pendiente' for every member |
| `RollCall.ThreeMemberRollCall` | src/App.tsx:128-131 | marking the first of three members present and the second absent without excuse exports 'Asistió', 'Falta Injustificada', 'Pendiente' |
| `RollCall.RemarkChangesNothing` | src/App.tsx:131 | marking a member with the status already recorded leaves the record and the export unchanged |
| `RollCall.AttendanceModal.constructor` | src/App.tsx:101 | the dialog mounts on a copy of the event's recorded attendance |
| `RollCall.AttendanceModal.Mark` | src/App.tsx:128-134 | a button records its status for that member only, the marked set only grows, exactly that button is highlighted, the member no longer reads 'Pendiente', and pressing the highlighted button again changes nothing |
| `RollCall.AttendanceModal.SaveAndExport` | src/App.tsx:103-114 | the rows written are the roster's rows under the current working copy |
| `Intranet.CodeAcceptedExactly` | src/App.tsx:185-193 | a code is accepted iff it has eight characters, each equal to the band code's character or its lower-case form |
| `Intranet.AccessCodeExamples` | src/App.tsx:17 | 'cena2024' and 'CeNa2024' pass; '', 'CENA 2024' and 'CENA2025' do not |
| `Intranet.GateExactlyWhenSignedOut` | src/App.tsx:224 | the gate renders exactly when nobody is signed in, at the current login step |
| `Intranet.RestrictedExactlyForMusicians` | src/App.tsx:429-453 | signed in, the placeholder renders iff a Músico is on the members or inventory tab |
| `Intranet.SidebarByRole` | src/App.tsx:565-586 | eight tabs for officers, six for musicians; a listed tab never renders the placeholder |
| `Intranet.RollCallButtonsForOfficers` | src/App.tsx:351-356 | the calendar renders its 'Pasar Lista' buttons exactly for officers |
| `Intranet.RosterKeepsIds` | src/App.tsx:628 | an id is on the roll-call roster built from a member list exactly when it is one of the list's ids |
| `Intranet.ExportRowOfMember` | src/App.tsx:104-108 | the row of the i-th member is its name, a space and its surname, its voice label, and its recorded status or 'Pendiente' |
| `Intranet.SeedRehearsalExport` | src/constants.ts:111-121 | exporting the seed rehearsal unchanged reads 'Asistió', 'Pendiente', 'Pendiente' |
| `Intranet.App.constructor` | src/App.tsx:154-173 | mounting restores the saved user and starts at the code step on the feed tab with nothing selected and no dialog |
| `Intranet.App.TypeAccessCode` | src/App.tsx:242 | the code field holds what was typed |
| `Intranet.App.VerifyCode` | src/App.tsx:185-193 | an accepted code moves the gate to the identify step; a rejected one changes nothing |
| `Intranet.App.ChooseNewMusician` | src/App.tsx:260 | 'Soy Nuevo Músico' opens the registration step |
| `Intranet.App.EnterAsDemoAdmin` | src/App.tsx:268 | the demo button signs in the first seed member, an officer who sees all eight tabs; a roll call left open mounts its dialog afresh |
| `Intranet.App.TypeRegName` | src/App.tsx:279 | the name field holds what was typed |
| `Intranet.App.TypeRegSurname` | src/App.tsx:283 | the surname field holds what was typed |
| `Intranet.App.TypeRegEmail` | src/App.tsx:288 | the e-mail field holds what was typed |
| `Intranet.App.ChooseRegVoice` | src/App.tsx:292-298 | the voice list holds the chosen voice |
| `Intranet.App.SubmitRegistration` | src/App.tsx:195-211 | with name and surname filled in and a valid e-mail address, signs in a new Músico with the chosen voice and rate 0, who sees six tabs; otherwise nothing changes; an open roll call mounts its dialog afresh |
| `Intranet.App.BackToIdentify` | src/App.tsx:303 | 'Volver atrás' returns to the identify step |
| `Intranet.App.Logout` | src/App.tsx:601 | signs out and unmounts the dialog but keeps the open roll call; the gate reopens at the step it was left on, never at the code step once the code was validated |
| `Intranet.App.LogoutClosingDialog` | src/App.tsx:601 | corrected logout: also drops the open roll call, so a roll call stays with officers |
| `Intranet.App.SelectTab` | src/App.tsx:587 | shows the chosen listed tab without the placeholder, and drops the selected voice unless the tab is the scores; an open dialog stays |
| `Intranet.App.SelectVoice` | src/App.tsx:369 | selects the voice; the listing is then exactly that voice's seed scores matching the search |
| `Intranet.App.ClearVoice` | src/App.tsx:382 | back to the voice grid; nothing is listed |
| `Intranet.App.TypeScoreSearch` | src/App.tsx:391 | the search field holds what was typed; an empty search lists the whole voice |
| `Intranet.App.OpenRollCall` | src/App.tsx:351-352 | an officer on the calendar opens the event's dialog over the seed roster, on a fresh copy of its record, or retitles the mounted dialog and keeps its working copy |
| `Intranet.App.CloseRollCall` | src/App.tsx:121 | the close button removes the dialog and its working copy and changes nothing else |
| `Intranet.App.SaveRollCall` | src/App.tsx:103-114 | "save and export" returns the seed roster's rows under the working copy, then closes the roll call |
| `Intranet.MusicianInheritsRollCall` | src/App.tsx:601 | an officer who signs out with the dialog open leaves it to the next sign-in: a newly registered Músico gets the dialog |
| `Intranet.MusicianAfterClosingLogout` | src/App.tsx:601 | with the corrected logout the same Músico gets no roll call |
| `RootIntranet.IsAdminIffOfficer` | App.tsx:160 | the root isAdmin holds exactly when someone is signed in whose role is not Músico |
| `RootIntranet.VariantsCompared` | App.tsx:234-283 | officers see the same in both variants; a musician on members or inventory gets the page without its officer controls where the src variant shows the placeholder |
| `RootIntranet.RenderByRole` | App.tsx:359-369 | signed in, every role sees all eight tabs and never a placeholder; officer controls show exactly for non-musicians on calendar, members and inventory |
| `RootIntranet.ExportRowOfMember` | App.tsx:105-109 | the row of the i-th root member is its name, a space and its surname, its root voice label, and its recorded status or 'Pendiente' |
| `RootIntranet.SeedRehearsalExport` | constants.ts:80-89 | exporting root e1 unchanged reads 'Asistió', 'Pendiente', 'Falta Justificada' |
| `RootIntranet.SeedConcertExport` | constants.ts:90-97 | exporting root e2 unchanged reads 'Pendiente' for all three members |
| `RootIntranet.App.constructor` | App.tsx:155-158 | nobody is signed in at first, on the feed tab, with no roll call and no dialog |
| `RootIntranet.App.EnterAsAdministrator` | App.tsx:170 | signs in the first seed member, an officer; a roll call left open mounts its dialog afresh |
| `RootIntranet.App.EnterAsMusician` | App.tsx:173 | signs in the third seed member, who sees no officer controls; a roll call left open mounts its dialog afresh for them |
| `RootIntranet.App.Logout` | App.tsx:383 | back to the sign-in screen; the dialog unmounts but the open roll call is kept |
| `RootIntranet.App.LogoutClosingDialog` | App.tsx:383 | corrected logout: also drops the open roll call |
| `RootIntranet.App.SelectTab` | App.tsx:369 | any of the eight tabs, for any role, with officer controls exactly for officers; an open dialog stays |
| `RootIntranet.App.OpenRollCall` | App.tsx:212-213 | an officer on the calendar opens the event's dialog over the root seed roster on a fresh copy of its record, or retitles the mounted dialog and keeps its working copy |
| `RootIntranet.App.CloseRollCall` | App.tsx:122 | the close button removes the dialog and its working copy and changes nothing else |
| `RootIntranet.App.SaveRollCall` | App.tsx:104-115 | "save and export" returns the root seed roster's rows under the working copy, then closes the roll call |
| `RootIntranet.MusicianInheritsRollCall` | App.tsx:383 | the administrator signs out with the dialog open; the musician who signs in next gets it |
| `RootIntranet.MusicianAfterClosingLogout` | App.tsx:383 | with the corrected logout the musician gets no roll call |
| `RootIntranet.SecondEventKeepsFirstRecord` | App.tsx:212-213 | opening the concert's roll call over the open rehearsal dialog exports the rehearsal's statuses under the concert's title |

## Left out

- The metronome and tuner tools, the Gemini client (`geminiservice.ts`) and the build
  configuration (`vite.config.ts`) are not part of this model.
- The news feed, chat, gallery, social links, app-install and tools pages are not
  modelled. Only their presence as tabs is.
- Page layout, icons, styling and the nav captions are not modelled; the mobile sidebar's
  open/closed flag only affects layout.
- `localStorage` and JSON are not modelled. The user restored on mount is a constructor
  parameter, and writing the user back to storage has no effect in the model.
- The spreadsheet library's file writing and the date formatting of the file name are
  left out. `SaveAndExport` and `SaveRollCall` return the rows that would be written.
- The random id and the current time of a registration are parameters.
- The "incorrect code" alert is left out. `VerifyCode` returns `false` and changes
  nothing.
- `Text.ToUpper`/`Text.ToLower` map only ASCII letters. JavaScript's full Unicode case
  mapping (accented letters such as 'Á' and 'ñ', 'İ', the Kelvin sign, …) is not
  modelled. The band-code check is unaffected: no non-ASCII character upper-cases into
  "CENA2024". A score search is unaffected when neither its text nor the score's title
  and author hold a non-ASCII letter with a case mapping; otherwise the page may list a
  score the model does not (a title with the Kelvin sign matches the search "k").
- `activeTab` is a string in the source but is only ever set from a sidebar entry, so
  the model restricts it to the eight tabs. The `default: return null` branch of
  `renderContent` is unreachable in the model.
- `event.attendance || {}`: for a value of the declared type the fallback never applies,
  so the dialog copies `event.attendance`.
- `attendanceRate` is a real number and is only displayed; it plays no part in any
  decision.
- The inventory page, the news items and the score categories are data shown without
  any decision, beyond the officer gating modelled in `Permissions.ViewOf` and
  `RootIntranet.RootViewOf`.
- `Intranet.App.TypeRegEmail`: the text is taken to be the field's value. The browser's
  value sanitization of an e-mail field (stripping newlines and surrounding spaces) is
  not modelled.
- `Intranet.App.SubmitRegistration`: the browser's validation bubble and the focus it
  moves to the first invalid field are not modelled; a blocked submit changes nothing.

## Findings

| source | as written | input that shows it | evidently intended | confidence | as-written member | corrected member |
|---|---|---|---|---|---|---|
| src/App.tsx:601 | 'Cerrar Sesión' clears only the user, so an open roll call survives the logout and its dialog mounts again at the next sign-in | demo admin opens 'Pasar Lista' on the rehearsal, presses 'Cerrar Sesión' from the keyboard, then 'Soy Nuevo Músico' and registers 'Ana Ruiz', 'ana@banda.es' | the roll call, whose buttons only officers get, closes on logout | medium, not executed | `Intranet.App.Logout`, `Intranet.MusicianInheritsRollCall` | `Intranet.App.LogoutClosingDialog`, `Intranet.MusicianAfterClosingLogout` |
| App.tsx:383 | the same in the root variant | administrator opens 'Pasar Lista' on the rehearsal, presses 'Cerrar Sesión' from the keyboard, then 'Entrar como Músico' | the roll call closes on logout | medium, not executed | `RootIntranet.App.Logout`, `RootIntranet.MusicianInheritsRollCall` | `RootIntranet.App.LogoutClosingDialog`, `RootIntranet.MusicianAfterClosingLogout` |
