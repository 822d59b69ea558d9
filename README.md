# vita-flow-hub in Dafny

This project models the logic of two demo sites and one serverless function:

- the contact-submission handler `send-contact-email`. It gates on the HTTP method, checks that four fields are present, inserts one `contact_messages` row, sends two emails and answers with a fixed JSON response;
- the hospital demo: the fake sign-in dialog that picks a role from the email, the page that switches between the landing content and the dashboard, and the dashboard's lookups;
- the portfolio: the project filters with their counts, the static project grid's technology badges, the skills section's colour lookups, the contact form and the typing effect.

Each core file is one module. `Options` and `Strings` hold shared helpers: an option type, `startsWith`, `includes` and decimal rendering of counts.

Each module takes the form of its source:

- **Pure code** becomes functions and lemmas: filters, lookups, slices and role selection.
- **Component state** becomes a class: `formData` and `isSubmitting`, `user`, `isLoading`, the typing state, and the filter selections. Its methods stand for the event handlers and timer callbacks.
- **The handler** is a method. It returns the response and the trace of effects it caused: the insert, then the sends.

What the database and the mail service do is passed in as outcomes:

- the insert is stored, returns an error, or throws;
- `createClient` may throw first;
- each send returns a result or throws.

## Model

| member | source | states |
|---|---|---|
| `ContactHandler.Handle` | supabase/functions/send-contact-email/index.ts:19-172 | Every response carries the CORS headers. OPTIONS gets the preflight answer: null body, status 200, no effects. Any other method except POST gets 405 "Method not allowed" and no effects. A body that cannot be parsed gets the thrown-error 500. Status 400 "All fields are required" comes exactly for a POST with an absent or empty field, and then nothing happens. Any effect at all means a valid POST. The first effect is the insert of exactly the four fields into `contact_messages`. Without a stored row no email is sent. An insert error gives 500 "Failed to store message", and an insert that throws gives 500 with its message. In both cases the insert is the only effect. Any other thrown error also gives 500 with its message. After a stored row, the confirmation to `[email]` comes first. The owner notification follows exactly when the confirmation did not throw. A POST gets 200 only as the fixed success body, with the row stored and both sends returned, whatever their results contain. |
| `ContactHandler.ThrownText` | supabase/functions/send-contact-email/index.ts:166 | `error.message \|\| "Internal server error"`: the message itself when it is non-empty, and "Internal server error" otherwise. |
| `ContactHandler.Crashed` | supabase/functions/send-contact-email/index.ts:163-171 | The catch-block response: status 500 with JSON and CORS headers. Its error text is the thrown message, or "Internal server error" when that message is empty. |
| `ContactHandler.Confirmation` | supabase/functions/send-contact-email/index.ts:74-77 | The confirmation goes to `[email]` with subject "Thank you for contacting me!". |
| `ContactHandler.Notification` | supabase/functions/send-contact-email/index.ts:116-119 | The notification goes to the owner's fixed address. Its subject is "New Contact Form Message: " followed by the submitted subject. |
| `ContactHandler.SuccessfulSubmission` | supabase/functions/send-contact-email/index.ts:19-162 | A full submission from "Ana" whose insert and sends go through. It gives one row with the four values, the confirmation to ana@x.com, the notification with subject "Hi", and the success response. |
| `ContactHandler.EmptyNameSubmission` | supabase/functions/send-contact-email/index.ts:36-44 | An empty name yields 400 "All fields are required" and no effects. |
| `DynamicProjects.Filtered` | src/components/portfolio/DynamicProjects.tsx:41-47 | `getFilteredProjects`: no longer than the list, and every kept project matches both selections ("all" matches anything). |
| `DynamicProjects.FilteredIsSubsequence` | src/components/portfolio/DynamicProjects.tsx:42-46 | The result is an order-preserving subsequence of `projects`. |
| `DynamicProjects.FilteredCounts` | src/components/portfolio/DynamicProjects.tsx:42-46 | Each matching project is kept as often as it occurs, and no non-matching project is kept (soundness and completeness). |
| `DynamicProjects.FilteredComplete` | src/components/portfolio/DynamicProjects.tsx:43-45 | Every project that matches both conditions is in the result. |
| `DynamicProjects.FilteredUnique` | src/components/portfolio/DynamicProjects.tsx:41-47 | Any subsequence of `projects` with those exact counts is the filter's result, so the two lemmas above characterise it completely. |
| `DynamicProjects.FilteredAllAll` | src/components/portfolio/DynamicProjects.tsx:41-47 | With category "all" and status "all" the whole list is shown. |
| `DynamicProjects.FilteredComposes` | src/components/portfolio/DynamicProjects.tsx:43-45 | Filtering by (category, status) is filtering by category and then by status. |
| `DynamicProjects.FiltersCommute` | src/components/portfolio/DynamicProjects.tsx:43-45 | The category filter and the status filter can be applied in either order. |
| `DynamicProjects.CountIsFilteredLength` | src/components/portfolio/DynamicProjects.tsx:26-30 | A category's count equals the number of projects the category filter lets through. |
| `DynamicProjects.CategoryTabs` | src/components/portfolio/DynamicProjects.tsx:24-31 | The six buttons are, in order, "all", "web", "mobile", "desktop", "ai" and "api". "all" has count `projects.length`. Each button's count equals the number of projects shown when it is selected with status "all". |
| `DynamicProjects.CountBadge` | src/components/portfolio/DynamicProjects.tsx:146-150 | A button shows a count badge exactly when its count is positive, and the badge shows that count. |
| `DynamicProjects.StatusColor` | src/components/portfolio/DynamicProjects.tsx:56-64 | The result is always one of the four known entries, and a known status gets its own entry. The 'completed' classes come exactly for "completed" or an unknown status. |
| `DynamicProjects.Render` | src/components/portfolio/DynamicProjects.tsx:66-302 | While loading: skeletons. With a non-empty error: the error card. Otherwise the filtered cards, with the "No projects found" notice exactly when no card is left. |
| `DynamicProjects.FilterState.constructor` | src/components/portfolio/DynamicProjects.tsx:20-21 | Both selections start as "all". |
| `DynamicProjects.FilterState.SelectCategory` | src/components/portfolio/DynamicProjects.tsx:138 | A category click sets the category and leaves the status alone. |
| `DynamicProjects.FilterState.SelectStatus` | src/components/portfolio/DynamicProjects.tsx:164 | A status click sets the status and leaves the category alone. |
| `DynamicProjects.FilterState.Visible` | src/components/portfolio/DynamicProjects.tsx:98 | The shown list matches the current selections. In the initial "all/all" state it is the whole list. |
| `AuthModal.DemoLogin` | src/components/AuthModal.tsx:41-53 | An email with "admin" anywhere gives admin and "Dr. Sarah Admin". Otherwise one with "doctor" gives doctor and "Dr. John Smith". Anything else gives patient and "Alice Johnson". The name is never "Demo User". |
| `AuthModal.AdminWinsOverDoctor` | src/components/AuthModal.tsx:44-49 | An email holding both words logs in as admin. |
| `AuthModal.DoctorWithoutAdmin` | src/components/AuthModal.tsx:44-49 | An email that starts with "doctor" and does not include "admin" logs in as the doctor. |
| `AuthModal.AdminDemoAddress` | src/components/AuthModal.tsx:159 | The suggested admin@hospital.com logs in as the admin. |
| `AuthModal.DoctorDemoAddress` | src/components/AuthModal.tsx:159 | The suggested doctor@hospital.com logs in as the doctor. |
| `AuthModal.PatientDemoAddress` | src/components/AuthModal.tsx:159 | The suggested patient@hospital.com logs in as the patient. |
| `AuthModal.LoginIgnoresPassword` | src/components/AuthModal.tsx:34-63 | Two dialogs given the same email and different non-empty passwords make the same calls. With an email, those are `onLogin` with the role picked from it, then `onClose`. With an empty email the browser refuses the submit and nothing is called. |
| `AuthModal.LoginWith` | src/components/AuthModal.tsx:34-63 | Type an email and a password into a fresh dialog, submit, and let the timer fire. The calls are `onLogin` with the role picked from the email, then `onClose`, exactly when both inputs are non-empty. Otherwise nothing is called. |
| `AuthModal.WithField` | src/components/AuthModal.tsx:185-259 | A register input's `onChange` replaces its own field and leaves every other field unchanged. |
| `AuthModal.Dialog.constructor` | src/components/AuthModal.tsx:19-32 | Not loading, no timer pending, and both forms hold empty strings. |
| `AuthModal.Dialog.ChangeLoginEmail` | src/components/AuthModal.tsx:122-124 | Only the login email changes. A form already captured by a pending timer is untouched. |
| `AuthModal.Dialog.ChangeLoginPassword` | src/components/AuthModal.tsx:140-142 | Only the login password changes. A form already captured by a pending timer is untouched. |
| `AuthModal.Dialog.ChangeRegister` | src/components/AuthModal.tsx:185-259 | Only the named register field changes. A form already captured by a pending timer is untouched. |
| `AuthModal.Dialog.SubmitLogin` | src/components/AuthModal.tsx:34-39 | The browser submits only when the `required` email and password are non-empty, and the result says whether it did. A submit sets `isLoading` and the timer captures the login form as it is now. A refused submit changes nothing. The forms are unchanged either way. It is reachable only while not loading, since both submit buttons are disabled then. |
| `AuthModal.Dialog.LoginTimerFires` | src/components/AuthModal.tsx:39-63 | The timer calls `onLogin` with the role and name picked from the email captured at submit, then `onClose`. `isLoading` ends false, and the forms as edited since are not read. |
| `AuthModal.Dialog.SubmitRegister` | src/components/AuthModal.tsx:66-71 | The browser submits only when name, email, phone and password are non-empty. The role, specialty and age are not `required`. A submit sets `isLoading` and the timer captures the register form as it is now. A refused submit changes nothing. |
| `AuthModal.Dialog.RegisterTimerFires` | src/components/AuthModal.tsx:71-81 | The timer calls `onLogin` with the role and name captured at submit, unchanged and unchecked, then `onClose`. `isLoading` ends false. |
| `AuthModal.EmailEditedWhileLoading` | src/components/AuthModal.tsx:34-63 | Submit with patient@hospital.com and a password, then change the email to admin@hospital.com before the timer fires. The login is still the patient's. |
| `AuthModal.RoleChosenWhileLoading` | src/components/AuthModal.tsx:66-81 | Submit a registration with every `required` input filled in and no role, then pick "admin" before the timer fires. `onLogin` still receives role "". |
| `AuthModal.Dialog.SubmitButton` | src/components/AuthModal.tsx:148-271 | The submit button of either tab is disabled exactly while loading. It shows its progress caption ("Signing in..." or "Creating Account...") exactly then, and otherwise "Sign In" or "Create Account". |
| `Strings.ContainsIff` | src/components/AuthModal.tsx:44-47 | The left-to-right `includes` search succeeds exactly when the word occurs at some position. |
| `Strings.MissingCharNotContained` | src/components/AuthModal.tsx:44-47 | A string lacking one of the word's characters does not include the word. |
| `Strings.Decimal` | src/components/portfolio/Projects.tsx:189 | A count renders as a non-empty string of digits with no leading zero. |
| `Strings.DecimalRoundTrip` | src/components/portfolio/Projects.tsx:189 | The rendered count reads back as the count. |
| `Strings.DecimalInjective` | src/components/portfolio/Skills.tsx:143 | Different counts never render as the same text. |
| `ContactForm.Form.constructor` | src/components/portfolio/Contact.tsx:28-34 | All four fields start empty and the form is not submitting. |
| `ContactForm.Form.HandleInputChange` | src/components/portfolio/Contact.tsx:59-64 | The input named by the event gets the new value. Every other entry and the submitting flag are unchanged, and all four fields keep an entry. |
| `ContactForm.Form.HandleSubmit` | src/components/portfolio/Contact.tsx:36-38 | The browser submits only when all four `required` inputs are non-empty, and the result says whether it did. A submit sets `isSubmitting`. The data stays as typed either way. It is reachable only while not submitting, since the send button is disabled then (line 228). |
| `ContactForm.EmptyFormIsRefused` | src/components/portfolio/Contact.tsx:168-215 | The cleared form does not pass the browser's `required` check. |
| `ContactForm.Form.SubmissionCompletes` | src/components/portfolio/Contact.tsx:41-56 | Completion resets all four fields to "" and sets `isSubmitting` false. |
| `ContactForm.Form.SubmitButton` | src/components/portfolio/Contact.tsx:225-239 | The send button is disabled exactly while submitting, and then reads "Sending...". |
| `ContactForm.ContactLink` | src/components/portfolio/Contact.tsx:274-290 | A link gets target `_blank`, `noopener noreferrer` and the external icon exactly when its href starts with "http". |
| `ContactForm.OnlyLocationIsExternal` | src/components/portfolio/Contact.tsx:66-95 | Of the four contact entries only the map location opens in a new tab. |
| `TypingEffect.Next` | src/components/ui/typing-effect.tsx:13-18 | A step happens exactly while `currentIndex < text.length`. It appends `text[currentIndex]` and adds one to the index. It keeps "the displayed text is the first `currentIndex` characters of `text`". |
| `TypingEffect.AfterShowsPrefix` | src/components/ui/typing-effect.tsx:13-18 | However many steps run, the displayed text stays the first `currentIndex` characters, and `currentIndex` never exceeds `text.length`. |
| `TypingEffect.AfterFromStep` | src/components/ui/typing-effect.tsx:13-18 | From any consistent state, k steps show `min(currentIndex + k, text.length)` characters. |
| `TypingEffect.AfterFromInitial` | src/components/ui/typing-effect.tsx:10-18 | From the start, k steps show exactly the first `min(k, text.length)` characters. |
| `TypingEffect.TypingCompletes` | src/components/ui/typing-effect.tsx:10-18 | After `text.length` steps the whole text is shown and no further step is scheduled. |
| `TypingEffect.Typewriter.constructor` | src/components/ui/typing-effect.tsx:9-11 | The text starts empty at index 0. |
| `TypingEffect.Typewriter.Tick` | src/components/ui/typing-effect.tsx:13-18 | One timer period moves the state by `Next`. It reports whether a step was scheduled, and the prefix property carries over. |
| `IndexPage.Render` | src/pages/Index.tsx:40-56 | The dashboard shows exactly when the role is truthy, with the view for that role and the same name. Otherwise the landing page shows. |
| `IndexPage.DemoLoginReachesDashboard` | src/pages/Index.tsx:40-50 | A simulated login always leads to the dashboard, with the admin view exactly when the email contains "admin". |
| `IndexPage.RegisterWithoutRoleStaysOnLanding` | src/pages/Index.tsx:40 | A registration whose role is still "" keeps the landing page. |
| `IndexPage.App.constructor` | src/pages/Index.tsx:23-30 | The initial user has role null and name "", the dialog is closed, and the landing page shows. |
| `IndexPage.App.HandleLogin` | src/pages/Index.tsx:32-34 | The user becomes exactly the given role and name. |
| `IndexPage.App.HandleLogout` | src/pages/Index.tsx:36-38 | From any state the user returns to role null and name "", and the landing page shows. |
| `IndexPage.App.OpenAuthModal` | src/pages/Index.tsx:86-87 | The login buttons only open the dialog, and `user` is unchanged. |
| `IndexPage.App.CloseAuthModal` | src/pages/Index.tsx:335-339 | The dialog's `onClose` closes it, and `user` is unchanged. |
| `IndexPage.LoginThenLogout` | src/pages/Index.tsx:32-56 | After a login the page shows the dashboard of the given role and name, or the landing page if the role is "". After the logout the user is back to role null and name "", and the landing page shows. |
| `Dashboard.StatusColor` | src/components/Dashboard.tsx:95-110 | "stable" and "scheduled" give the success classes, and only they do. "critical" alone gives the destructive classes. "recovering" and "completed" alone give the secondary classes. Every other status gives the muted classes. |
| `Dashboard.StatusColorIsTableLookup` | src/components/Dashboard.tsx:95-110 | The `switch` is a lookup in the six-entry table that defaults to the muted classes. |
| `Dashboard.UnlistedStatusIsMuted` | src/components/Dashboard.tsx:105-108 | "cancelled" and every unlisted status are muted. |
| `Dashboard.ViewFor` | src/components/Dashboard.tsx:112-332 | "admin" selects the admin view, "doctor" the doctor view, and any other role the patient view. |
| `Dashboard.RecentRegistrations` | src/components/Dashboard.tsx:182 | The first `min(3, length)` patients, in order. |
| `Dashboard.RecentRegistrationsAt` | src/components/Dashboard.tsx:182 | A patient is listed exactly when its position is below 3, at the same position. |
| `Projects.Badges` | src/components/portfolio/Projects.tsx:175-191 | At most the first four technologies are shown, in order. There is an overflow badge exactly when there are more than four. It is "+" followed by decimal digits with no leading zero. |
| `Projects.BadgesAccountForAll` | src/components/portfolio/Projects.tsx:175-190 | The shown badges plus the number on the overflow badge equal `technologies.length`. |
| `Projects.Cards` | src/components/portfolio/Projects.tsx:120-143 | One card per project, in order. The category buttons have no handler, so the grid does not depend on them. |
| `Skills.ColorClasses` | src/components/portfolio/Skills.tsx:89-97 | A known colour gets its own entry, and the result is always one of the four entries. The primary classes come exactly for "primary" or an unknown colour. |
| `Skills.ProgressBarClass` | src/components/portfolio/Skills.tsx:181-186 | "primary", "secondary" and "accent" get "gradient-primary", "gradient-secondary" and "bg-accent" respectively. Any other colour, and only those, gets "bg-success". |
| `Skills.FallbacksDisagree` | src/components/portfolio/Skills.tsx:181-186 | An unknown colour gets the primary card classes but the success progress bar. |
| `Skills.MasteredCaption` | src/components/portfolio/Skills.tsx:143 | The caption ends with " technologies mastered". Everything before those words is decimal digits with no leading zero. |
| `Skills.MasteredCaptionCounts` | src/components/portfolio/Skills.tsx:143 | The digits before " technologies mastered" read back as the number of skills in the category. |

## Behaviour that follows the code

- In `src/pages/Index.tsx` the dashboard is shown when `user.role` is truthy, not merely non-null. A registration submitted without choosing a role passes role "" to `onLogin`. The user then stays on the landing page even though the dialog reports success (`IndexPage.RegisterWithoutRoleStaysOnLanding`).
- In the handler, a send that throws after the row was stored yields a 500 with the thrown message. The message is stored, but the client sees a failure (`ContactHandler.Handle`).
- In `src/components/AuthModal.tsx` the sign-in and registration timers read the form their closure captured at submit. The inputs stay editable while loading, but edits made before the timer fires do not reach `onLogin` (`AuthModal.EmailEditedWhileLoading`, `AuthModal.RoleChosenWhileLoading`).
- The portfolio's contact form does not call the handler. Its submission is a timer that clears the form.

## Left out

- AuthModal.Dialog.SubmitLogin, AuthModal.Dialog.SubmitRegister and ContactForm.Form.HandleSubmit model the browser's `required` check (no required input empty). They do not model the `type="email"` format check, so a non-empty malformed address counts as submittable.
- AuthModal.Dialog and IndexPage.App are separate objects. The page renders the dialog only on its landing branch, so a login that reaches the dashboard unmounts the dialog, and after a logout it is mounted again with empty forms. That unmount and remount is not modelled.
- Network clients, environment variables and `serve` in the handler: the database and the mail service enter only as outcomes. The HTML bodies of both emails are not modelled, only sender, recipients and subject. The `console` logging is left out.
- ContactHandler.Handle: request fields that are JSON values other than strings (numbers, booleans, objects) are not modelled. A field is absent or a string, and "falsy" means absent or empty.
- ContactHandler.Handle: the server-assigned `id`, `status` and timestamps of a `contact_messages` row are not part of the modelled row.
- ContactHandler.Crashed: a thrown value without a `message` is modelled as one whose message is the empty string. Both fall back to "Internal server error".
- Timers, delays, toasts, confetti and animations: each delayed callback is one discrete method, with no timing. Two pending timers racing each other are not modelled.
- TypingEffect.Typewriter: `text` is fixed for the object's lifetime. A re-render with a different `text` keeps `currentIndex` in the source and is not modelled. `speed` and the timeout cleanup are left out. Characters are Dafny characters, not UTF-16 code units.
- DynamicProjects.StatusColor and Skills.ColorClasses: JavaScript object lookup also finds inherited keys such as "toString". Only the listed keys are modelled.
- DynamicProjects: fetching projects and the analytics calls in `src/hooks/usePortfolioData.ts` are I/O and not part of this model. The projects, the loading flag and the error are parameters.
- The card contents beyond title, category, status and technologies are presentation and not modelled. This covers descriptions, dates, links and images.
- The dashboards' mock data arrays and their rendering, apart from the slice of three patients.
- Hero, About, Footer, both navigation bars, the radar chart and the sticky call-to-action: static presentation, scroll listeners and floating-point layout.
