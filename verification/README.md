# Kakasaku donation site — a Dafny model of its handler logic

Kakasaku is a donation and monthly-membership web site. Its pages run over a
hosted database with authentication and change notifications. The site's own
logic lives in a few component handlers, and this project models them:

- **Admin dashboard.** A session guard sends a visitor without a session to
  the login page. With a session, the page loads the donations, members and
  programs. Staff can toggle a member's payment status between "lunas" (paid)
  and "belum" (not yet paid). They can add, edit and delete fundraising
  programs. Four summary figures are derived from the lists.
- **Donation form.** The amount is a preset or free text read by `parseInt`.
  Validation checks "form incomplete" before "amount too small" (minimum
  Rp 10,000). An accepted form inserts a general ("umum") donation and resets
  its fields on success.
- **Membership (Kakasaku) form.** It inserts an unpaid member. The duplicate
  email error (SQLSTATE 23505, PostgreSQL's unique_violation) gets its own
  message. The form is only shown once a non-zero plan is chosen.
- **Login page.** It exchanges credentials for a session. It navigates to
  the dashboard only when it observes a session.
- **Progress figures.** The donation page shows the general donations'
  total and count, and a bar clamped at 100% of a fixed 50,000,000 target.
  The home page shows a headline total over donations and pledges. The home
  page's program cards compute a progress percentage from a constant list.

Every service call is an input value, not an effect:

- A read is `Fetch`: `Rows(rows)`, or `NoData` when the data came back null.
- A write or sign-in is `Reply`: `Done`, or `Failed(code, message)`.
- A session lookup or auth event is a boolean.
- `window.confirm` is a boolean.

Each handler is one atomic method on a class holding the component's state.
Each method's contract gives the complete new state and the request it
issues. It also gives the toast it emits, as title, description and
destructive flag. A busy flag's value at the moment of the write is returned
as an out-parameter (`submittingDuringWrite`, `savingDuringWrite`,
`loadingDuringSignIn`), so "raised only after validation, released on every
path" is part of the contract. Pure reductions (`reduce`, `filter`,
`Math.min`) are functions, and lemmas state their properties.

The code behaves as follows in places one might not expect:

- General donations carry type "umum", not "general".
- A custom amount of "0" or "abc" gives "Form tidak lengkap", not the
  minimum-amount message.
- The toggle turns every status other than "lunas" into "lunas".
- `calculateProgress` has no guard for a zero target.
- The membership form does not clear its fields after a successful sign-up.

## Model

| member | source | states |
|---|---|---|
| `Service.Latest` | src/pages/admin/AdminDashboard.tsx:137-153 | a read that returns null data leaves the held list as it was; a read with data replaces it by exactly the fetched rows |
| `Aggregates.OfType` | src/components/donation/DonationProgress.tsx:18-21 | the `.eq("type", t)` query returns only rows of type t, and every such row, never more rows than the table; each row of type t appears as often as in the table, so the row count is the donor count |
| `Aggregates.SumAmounts` | src/pages/admin/AdminDashboard.tsx:286 | reference definition of `reduce((sum, d) => sum + d.amount, 0)` (also DonationProgress.tsx:24, HeroSection.tsx:21), without its own ensures; its properties are stated by `Aggregates.SumAmountsAppend`, `Aggregates.SumAmountsNonNegative` and `Aggregates.SumOfTypeAtMostSum` |
| `Aggregates.SumMonthly` | src/pages/admin/AdminDashboard.tsx:287 | reference definition of `reduce((sum, m) => sum + m.monthly_amount, 0)` (also HeroSection.tsx:32), without its own ensures; its properties are stated by `AdminDashboard.WithStatusKeepsKakasakuTotal` and `HeroSection.FailedDonationsReadAccumulates` |
| `Aggregates.CountStatus` | src/pages/admin/AdminDashboard.tsx:288-289 | a status count never exceeds the number of members |
| `Aggregates.SumAmountsAppend` | src/pages/admin/AdminDashboard.tsx:286 | the fold of amounts splits over concatenation |
| `Aggregates.SumAmountsNonNegative` | src/components/donation/DonationProgress.tsx:24 | non-negative amounts give a non-negative total |
| `Aggregates.SumOfTypeAtMostSum` | src/components/donation/DonationProgress.tsx:18-24 | with non-negative amounts, the "umum" total is at most the total over all donations |
| `Aggregates.PaidPlusUnpaidAtMostMembers` | src/pages/admin/AdminDashboard.tsx:288-289 | paid + unpaid ≤ number of members |
| `Aggregates.Percentage` | src/components/home/ProgramsSection.tsx:52 | `min(raised/target*100, 100)` is at most 100 and at least 0 for non-negative raised; it is below 100 exactly when raised < target; it is either 100·raised/target or 100 |
| `JsNumber.IntToString` | src/pages/admin/AdminDashboard.tsx:227 | `toString` of an integer is non-empty text that starts with a sign or a digit |
| `JsNumber.ParseInt` | src/components/donation/DonationForm.tsx:41 | reference definition of ECMAScript `parseInt` without a radix (also AdminDashboard.tsx:255), without its own ensures; its properties are stated by `JsNumber.ParseIntToString`, `DonationForm.ZeroOrNonNumericIsIncomplete` and `AdminDashboard.AddThenSaveInsertsBlank` |
| `JsNumber.ParseIntToString` | src/pages/admin/AdminDashboard.tsx:227-255 | `parseInt(n.toString())` gives back n, so a target pre-filled by Edit is saved unchanged |
| `AdminDashboard.NextStatus` | src/pages/admin/AdminDashboard.tsx:193 | the new status is "belum" exactly when the current one is "lunas", otherwise "lunas" |
| `AdminDashboard.NextStatusTwice` | src/pages/admin/AdminDashboard.tsx:193 | toggling twice restores a status exactly when it is "lunas" or "belum" |
| `AdminDashboard.WithStatus` | src/pages/admin/AdminDashboard.tsx:202-204 | the mapped list has the same length; entry i is updated in `payment_status` iff its id matches, and is otherwise unchanged |
| `AdminDashboard.ToggleTwiceRestoresList` | src/pages/admin/AdminDashboard.tsx:193-204 | toggling a member twice restores the whole list when its status was "lunas" or "belum" |
| `AdminDashboard.WithStatusKeepsKakasakuTotal` | src/pages/admin/AdminDashboard.tsx:202-204 | a toggle never changes the monthly total |
| `AdminDashboard.CountAfterSetStatus` | src/pages/admin/AdminDashboard.tsx:202-204 | with unique ids, changing one member's status moves exactly one member from its old status count to the new one |
| `AdminDashboard.TogglePaidMemberShiftsCounts` | src/pages/admin/AdminDashboard.tsx:286-289 | toggling a paid member: paid − 1, unpaid + 1, monthly total unchanged |
| `AdminDashboard.WithoutProgram` | src/pages/admin/AdminDashboard.tsx:240 | the filtered list holds exactly the old programs whose id differs from the deleted one, each as often as before |
| `AdminDashboard.WithoutProgramAppend` | src/pages/admin/AdminDashboard.tsx:240 | the filter distributes over concatenation, so the kept programs stay in order |
| `AdminDashboard.WithoutAbsentProgram` | src/pages/admin/AdminDashboard.tsx:240 | deleting an id no program has leaves the list identical |
| `AdminDashboard.WithoutProgramIdempotent` | src/pages/admin/AdminDashboard.tsx:240 | deleting the same id twice equals deleting it once |
| `AdminDashboard.EditForm` | src/pages/admin/AdminDashboard.tsx:222-231 | Edit copies the title, the description (null gives "") and the category (null or "" gives "pendidikan"); the target text parses back to the program's target |
| `AdminDashboard.Payload` | src/pages/admin/AdminDashboard.tsx:252-257 | reference definition of the saved record (title, description, `parseInt` of the target text, category), without its own ensures; its properties are stated by `AdminDashboard.SaveRequestFor`, `AdminDashboard.EditThenSaveWritesProgramBack` and `AdminDashboard.AddThenSaveInsertsBlank` |
| `AdminDashboard.SaveRequestFor` | src/pages/admin/AdminDashboard.tsx:252-274 | a non-empty editingId issues an update by that id, otherwise an insert, both with the form's payload |
| `AdminDashboard.EditThenSaveWritesProgramBack` | src/pages/admin/AdminDashboard.tsx:222-264 | saving an unchanged Edit form writes the program's own fields back by its id |
| `AdminDashboard.EditThenSaveFillsDefaults` | src/pages/admin/AdminDashboard.tsx:222-264 | saving an unchanged Edit form of a program with null description and category writes "" and "pendidikan" |
| `AdminDashboard.AddThenSaveInsertsBlank` | src/pages/admin/AdminDashboard.tsx:216-271 | saving an unchanged Add form inserts blank fields, category "pendidikan" and a NaN target |
| `AdminDashboard.ComputeStats` | src/pages/admin/AdminDashboard.tsx:286-289 | the donation total has no type filter; the figures are the monthly total, the "lunas" count and the "belum" count; paid + unpaid ≤ members |
| `AdminDashboard.Dashboard.constructor` | src/pages/admin/AdminDashboard.tsx:84-102 | the initial state: empty lists, loading, dialog closed, blank form |
| `AdminDashboard.Dashboard.Figures` | src/pages/admin/AdminDashboard.tsx:286-289 | the held lists' figures satisfy paid + unpaid ≤ members |
| `AdminDashboard.Dashboard.FetchData` | src/pages/admin/AdminDashboard.tsx:128-165 | each read that returns data replaces its list, a null read keeps it; loading is off afterwards |
| `AdminDashboard.Dashboard.CheckAuth` | src/pages/admin/AdminDashboard.tsx:108-118 | no session: navigate to /admin/login, nothing fetched, lists and loading flag unchanged; a session: fetch, no navigation |
| `AdminDashboard.Dashboard.OnAuthStateChange` | src/pages/admin/AdminDashboard.tsx:120-122 | an auth event without a session navigates to /admin/login; one with a session does nothing |
| `AdminDashboard.Dashboard.Logout` | src/pages/admin/AdminDashboard.tsx:186-189 | after signing out the page is at /admin/login |
| `AdminDashboard.Dashboard.TogglePaymentStatus` | src/pages/admin/AdminDashboard.tsx:192-213 | writes the next status for the id; on success the list is `WithStatus` of the old one with the "Status Diperbarui" toast; on failure the list is unchanged with the error toast |
| `AdminDashboard.Dashboard.AddProgram` | src/pages/admin/AdminDashboard.tsx:216-220 | editingId null, blank form with category "pendidikan", dialog open |
| `AdminDashboard.Dashboard.EditProgram` | src/pages/admin/AdminDashboard.tsx:222-231 | editingId is the program's id, the form is `EditForm` of it, dialog open |
| `AdminDashboard.Dashboard.DeleteProgram` | src/pages/admin/AdminDashboard.tsx:233-245 | declined: no delete, list unchanged, no toast; success: list filtered to other ids; failure: list unchanged with "Gagal Menghapus" |
| `AdminDashboard.Dashboard.SaveProgram` | src/pages/admin/AdminDashboard.tsx:247-283 | update-or-insert as `SaveRequestFor`; saving flag raised during the write and false afterwards; success closes the dialog and refetches; failure keeps dialog and lists and shows the error message |
| `DonationForm.ResolveAmount` | src/components/donation/DonationForm.tsx:41 | reference definition of a non-zero preset, or else `parseInt(customNominal)`, without its own ensures; its properties are stated by `DonationForm.ZeroOrNonNumericIsIncomplete` and `DonationForm.PresetsAreAccepted` |
| `DonationForm.Classify` | src/components/donation/DonationForm.tsx:43-59 | an accepted amount is the given number and at least 10,000; the full verdict is stated by `DonationForm.AcceptedExactly` and `DonationForm.TooSmallExactly` |
| `DonationForm.AcceptedExactly` | src/components/donation/DonationForm.tsx:43-59 | accepted iff name, email and method are filled and the amount is a number ≥ 10,000 |
| `DonationForm.TooSmallExactly` | src/components/donation/DonationForm.tsx:52-59 | "Nominal terlalu kecil" iff the form is complete and the amount is non-zero and below 10,000, negatives included |
| `DonationForm.ZeroOrNonNumericIsIncomplete` | src/components/donation/DonationForm.tsx:41-50 | with no preset, custom "0" and "abc" both give "Form tidak lengkap" |
| `DonationForm.PresetsAreAccepted` | src/components/donation/DonationForm.tsx:11-17 | any preset wins over the free text and is accepted once the fields are filled |
| `DonationForm.Form.constructor` | src/components/donation/DonationForm.tsx:30-35 | empty fields, no preset, not submitting |
| `DonationForm.Form.ChoosePreset` | src/components/donation/DonationForm.tsx:152-155 | the preset is selected and the free text cleared, so at most one amount source is active |
| `DonationForm.Form.EditCustom` | src/components/donation/DonationForm.tsx:173-176 | the free text is kept and the preset dropped, so at most one amount source is active |
| `DonationForm.Form.HandleSubmit` | src/components/donation/DonationForm.tsx:38-98 | validation order and toasts; a rejected form writes nothing and changes no field or flag; an accepted one inserts exactly {name, email, amount, method, "umum", "completed"} while submitting; success resets all five fields and calls onSuccess if present; failure keeps them with the generic error; the flag ends false |
| `KakasakuForm.AmountChosen` | src/components/kakasaku/KakasakuForm.tsx:85 | the render guard and the submit check reject a null or zero plan and accept any other |
| `KakasakuForm.InsertToast` | src/components/kakasaku/KakasakuForm.tsx:54-79 | success gives "Pendaftaran Berhasil", code 23505 gives "Email Sudah Terdaftar", any other error "Terjadi Kesalahan" |
| `KakasakuForm.InsertToastsDistinct` | src/components/kakasaku/KakasakuForm.tsx:55-79 | the duplicate, generic and success toasts differ; only success is non-destructive |
| `KakasakuForm.Form.constructor` | src/components/kakasaku/KakasakuForm.tsx:16-19 | empty fields, not submitting |
| `KakasakuForm.Form.HandleSubmit` | src/components/kakasaku/KakasakuForm.tsx:31-83 | an insert is issued iff name, email and phone are filled and a plan is chosen; the record is {name, email, phone, monthly_amount = plan, "belum"}; the flag is raised during the write and false after all three outcomes; onClose only on success; fields never cleared |
| `AdminLogin.SessionRedirect` | src/pages/admin/AdminLoginPage.tsx:22-35 | a session observation navigates, to /admin/dashboard, exactly when a session is present |
| `AdminLogin.SignInToast` | src/pages/admin/AdminLoginPage.tsx:61-76 | every sign-in error gives the one "Login Gagal" toast; success gives "Login Berhasil" |
| `AdminLogin.Page.constructor` | src/pages/admin/AdminLoginPage.tsx:13-16 | empty fields, not loading, not navigated |
| `AdminLogin.Page.ObserveSession` | src/pages/admin/AdminLoginPage.tsx:22-35 | the route becomes `SessionRedirect` when a session is present and is otherwise unchanged |
| `AdminLogin.Page.CheckSession` | src/pages/admin/AdminLoginPage.tsx:22-28 | an existing session at mount navigates to /admin/dashboard |
| `AdminLogin.Page.OnAuthStateChange` | src/pages/admin/AdminLoginPage.tsx:31-35 | an auth event carrying a session navigates to /admin/dashboard |
| `AdminLogin.Page.HandleSubmit` | src/pages/admin/AdminLoginPage.tsx:40-80 | empty email or password: no sign-in, flag untouched; otherwise sign-in with the credentials while loading, `SignInToast` of the answer, loading false; the handler never changes the route |
| `DonationProgress.GeneralTotals` | src/components/donation/DonationProgress.tsx:17-28 | the "umum" rows' sum and count; the donor count never exceeds the table size; `DonationProgress.GeneralProgressInRange` states the bar's range |
| `DonationProgress.AfterFetch` | src/components/donation/DonationProgress.tsx:17-28 | an error or null data keeps the held figures; with data they are `GeneralTotals` of the table, as `DonationProgress.ReplayDependsOnLatestRead` states |
| `DonationProgress.Replay` | src/components/donation/DonationProgress.tsx:36-39 | reference definition of one fetch per change notification, in arrival order, without its own ensures; its properties are stated by `DonationProgress.ReplayDependsOnLatestRead` and `DonationProgress.DuplicateNotificationChangesNothing` |
| `DonationProgress.ReplayDependsOnLatestRead` | src/components/donation/DonationProgress.tsx:17-39 | after any run of notifications the figures are those of the latest read that returned data, or the held ones if none did |
| `DonationProgress.DuplicateNotificationChangesNothing` | src/components/donation/DonationProgress.tsx:36-39 | a notification delivered twice gives the same figures as once |
| `DonationProgress.Progress` | src/components/donation/DonationProgress.tsx:13-14 | the bar never exceeds 100, is ≥ 0 for non-negative raised, is 100 once the 50,000,000 target is reached; it is either 100·raised/50,000,000 or 100 |
| `DonationProgress.GeneralProgressInRange` | src/components/donation/DonationProgress.tsx:14-26 | with non-negative amounts, the bar after any read lies in [0, 100] |
| `DonationProgress.Widget.constructor` | src/components/donation/DonationProgress.tsx:11-12 | raised and donors start at 0 |
| `DonationProgress.Widget.FetchDonationStats` | src/components/donation/DonationProgress.tsx:17-29 | data sets raised to the "umum" sum and donors to its count; error or null data changes nothing; onDataLoad gets exactly {raised, 50,000,000, donors} and only after data |
| `HeroSection.AfterFetchStats` | src/components/home/HeroSection.tsx:14-36 | reference definition of one `fetchStats` run as written, without its own ensures; its properties are stated by `HeroSection.BothReadsGiveFullTotal`, `HeroSection.FailedMembersReadGivesDonationsOnly`, `HeroSection.HeadlineCoversGeneralTotal` and `HeroSection.FailedDonationsReadAccumulates` |
| `HeroSection.DisplayedDonors` | src/components/home/HeroSection.tsx:142 | reference definition of the shown `totalDonors + totalMembers`, without its own ensures; `HeroSection.BothReadsGiveFullTotal` states it is donations + members when both reads return data |
| `HeroSection.BothReadsGiveFullTotal` | src/components/home/HeroSection.tsx:16-35 | both reads with data: total = all donation amounts (no type filter) + all pledges; displayed donors = donations + members; members = member rows |
| `HeroSection.FailedMembersReadGivesDonationsOnly` | src/components/home/HeroSection.tsx:16-35 | a null members read: total is the donation sum alone, member count unchanged |
| `HeroSection.HeadlineCoversGeneralTotal` | src/components/home/HeroSection.tsx:16-24 | with non-negative amounts and pledges, the headline total is at least the general-donation total |
| `HeroSection.FailedDonationsReadAccumulates` | src/components/home/HeroSection.tsx:20-33 | n refreshes with a null donations read and a members read add n times the monthly sum to the total |
| `HeroSection.AccumulationExample` | src/components/home/HeroSection.tsx:20-33 | one pledge of 100,000 over a held 100,000 gives 200,000, then 300,000 |
| `HeroSection.IntendedRefreshIsStable` | src/components/home/HeroSection.tsx:14-36 | with donation and pledge sums kept apart, a second refresh with the same answers changes nothing |
| `HeroSection.IntendedAgreesWhenBothRead` | src/components/home/HeroSection.tsx:16-35 | the corrected figures equal the as-written ones whenever both reads return data |
| `HeroSection.Hero.constructor` | src/components/home/HeroSection.tsx:9-11 | the three figures start at 0 |
| `HeroSection.Hero.FetchStats` | src/components/home/HeroSection.tsx:14-36 | the new figures are `AfterFetchStats` of the old ones and the two reads |
| `ProgramsSection.CalculateProgress` | src/components/home/ProgramsSection.tsx:51-53 | at most 100; at least 0 for non-negative raised; below 100 exactly when raised < target; the value is 100·raised/target or 100 |
| `ProgramsSection.EducationIsHalfWay` | src/components/home/ProgramsSection.tsx:6-53 | the education card (25,000,000 of 50,000,000) shows exactly 50 |
| `ProgramsSection.EveryCardBelowTarget` | src/components/home/ProgramsSection.tsx:6-39 | every static card has 0 ≤ raised < target, so its bar is in [0, 100) |

## Findings

| source | as written | input that shows it | evidently intended | confidence | as-written member | corrected member |
|---|---|---|---|---|---|---|
| src/components/home/HeroSection.tsx:20-33 | the members read adds the monthly sum to the total held at that point; when the donations read returned null, that total still holds the previous refresh's pledges, so they are added again | held total 100,000, donations read null, members read one pledge of 100,000: 200,000 after one refresh, 300,000 after two | total = latest donation sum + latest pledge sum, stable under repeated refreshes | medium; not executed | `HeroSection.FailedDonationsReadAccumulates` | `HeroSection.IntendedRefreshIsStable` |

`HeroSection.Hero` keeps the as-written behaviour because it models the
page. The corrected figures are `HeroSection.IntendedAfterFetchStats`.
`HeroSection.IntendedAgreesWhenBothRead` shows that both agree whenever
both reads return data.

## Left out

- Service I/O is not modelled as effects. This covers select, insert, update
  and delete, the realtime channels (`channel(...).on(...).subscribe()`,
  `removeChannel`), and `getSession`, `signInWithPassword`, `signOut` and
  `onAuthStateChange`. Their answers are inputs. A change notification is one
  more call of the fetch method. Subscribing and unsubscribing are not
  modelled.
- The client library reports failures as values (`error` / null `data`)
  and never throws. The only exceptions that reach a catch block are the
  handlers' own `throw error` (AdminDashboard.tsx:200, 238, 265 and 272,
  DonationForm.tsx:73, KakasakuForm.tsx:62, AdminLoginPage.tsx:61). The
  model renders each of those paths as the `Failed` reply. `fetchData`
  never throws, so its catch block and its "Gagal memuat data" toast are
  never reached, and the model does not emit that toast.
- A read's `error` and a null `data` are merged into `NoData`. The progress
  widget's `!error && data` and the other pages' `if (data)` agree on every
  answer the client library gives.
- The donations read of the progress widget is given the whole table. The
  model applies the query's `type = "umum"` filter itself.
- Concurrency is left out, and each handler is one atomic step. This covers
  overlapping `fetchStats` runs and the stale `members` and `programs`
  closures at AdminDashboard.tsx:202 and 240. For the same reason, the value
  of a busy flag while the write is pending appears only as the
  `...DuringWrite` out-parameter.
- The `fetchData()` calls at AdminDashboard.tsx:115 and 277 are not
  awaited. In the source, `checkAuth` and `handleSaveProgram` settle with
  `isLoading` true and the old lists, and the refetch lands later.
  `AdminDashboard.Dashboard.CheckAuth` and
  `AdminDashboard.Dashboard.SaveProgram` state the page after that refetch
  has completed.
- Locale formatting is left out: `Intl.NumberFormat`, `toLocaleString`,
  `formatDate` and `progress.toFixed(1)`.
- JavaScript numbers are unbounded integers and exact reals here. The model
  does not reproduce precision loss above 2^53, or the exponent notation
  `toString` uses from 1e21. IEEE NaN and Infinity are left out too.
- `Aggregates.Percentage`, `ProgramsSection.CalculateProgress`: require
  target > 0. A zero target (Infinity or NaN in the browser) is not modelled.
- `JsNumber.ParseInt` follows ECMAScript `parseInt` without a radix argument.
  It skips white space, takes an optional sign, reads hex after "0x", and
  takes the longest digit prefix. A NaN result is `None`, and "-0" reads as 0.
- Browser-enforced input attributes (`required`, `min={10000}`, `type="email"`)
  are not part of the handlers.
- `window.confirm` is the `confirmed` argument. A toast is its title,
  description and destructive flag.
- Setters that only copy an input's text into a field are not modelled. This
  covers name, email, phone and password `onChange`, the dialog's field
  edits, tab and sidebar switches, and `showPassword`.
- Presentation-only files are not part of this model: Navbar, Footer,
  CTASection, TestimonialsSection, KakasakuPlanCard, DonasiPage, Index. From
  KakasakuPage, only its role as the source of `selectedAmount` is modelled,
  including the 0 from the "other amount" link.
- The dashboard cards that only show `donations.length`, `members.length` and
  `programs.length` are not modelled.
