# Barbershop booking: a verified model of the screens' rules

The application is a React front end for a barbershop. Clients search barbers, look at a barber's
free slots and book one. Barbers publish their availability, answer requests and edit their
profile. Administrators manage barbers, users and every appointment. There is no back end: each
screen loads its own mock list and changes it with its handlers. The authentication provider keeps
the role in the browser's local storage. A route guard and the route table decide which role sees
which page.

This project models those rules in Dafny:

- **Screens.** Every screen whose handlers replace state is a `Page` class, with a `seq` field per
  list and one method per handler. Each method's `ensures` gives the new state as a function of the
  old one.
- **Filters, maps and parsers.** These are pure functions. Lemmas prove what the screens rely on:
  - removal keeps order;
  - updates change only the record with the given id;
  - ban/unban is an involution;
  - the services field round-trips;
  - the search ignores case;
  - the day view is sorted and holds exactly that day's slots.
- **Status gates.** The screens offer a button only for some statuses. Each gate is a predicate
  with a lemma over every run of offered clicks, for example:
  - only pending requests are ever answered;
  - a cancelled appointment is never removed;
  - occupied slots and administrators are never removed.
- **Authentication and routing.**
  - `AuthContext` is a class over a `Session` value, including the stored role, so reloads can be
    reasoned about.
  - `ProtectedRoute` is a pure decision.
  - `AppRoutes` is the route table of `App.tsx` with first-match resolution. It is checked against
    a hand-written router (`RouteIndex`).
  - The login, registration and landing pages are tied to that table. For example, a guard
    redirect always lands on a page that admits the user.

Modules `Common`, `AppointmentStatus`, `Schedule`, `Collections` and `Text` hold the shared types,
the generic filter/map/find (`Keep`, `Update`, `Find`) and the string functions (split, join,
trim, lower-case, substring).

The design description of the system describes more than the code does:
- an atomic reserve/release of slots;
- rejection of duplicate slots;
- ownership checks (`Forbidden`);
- releasing the slot when a request is declined or cancelled.

None of these is in the code. The booking confirmation only carries a comment saying that it
would update availability. The model follows the code.

## Model

| member | source | states |
|---|---|---|
| Common.Dashboard | src/components/ProtectedRoute.tsx:28-36 | admin, barber and client go to `/admin`, `/barber`, `/client`; exactly every other string goes to `/` (the same switch as in LoginPage.tsx:27-39 and RegisterPage.tsx:29-41) |
| AppointmentStatus.AnsweredTransitive | src/pages/BarberAgendamentos.tsx:131-157 | answering twice is still answering: a request moves at most once, from pendente to confirmado or recusado |
| Collections.Keep | src/pages/MinhaDisponibilidade.tsx:99 | `filter`: every kept element is in the input and satisfies the condition, and every input element that satisfies it is kept |
| Collections.KeepInOrder | src/pages/GerenciarBarbeiros.tsx:98 | a filter's result is an order-preserving subsequence of its input |
| Collections.KeepLength | src/pages/VerTodasAgendas.tsx:82 | a filter keeps the input length minus the number of elements it drops |
| Collections.KeepCount | src/pages/VerTodasAgendas.tsx:82 | a filter keeps one copy of every element that passes it, so its length is the number of passing elements |
| Collections.KeepIdempotent | src/pages/PerfilBarbeiro.tsx:86-88 | filtering twice with one condition is filtering once |
| Collections.Update | src/pages/BarberAgendamentos.tsx:65-67 | `map` with a conditional rewrite: same length; each position rewritten exactly when it satisfies the condition, otherwise unchanged |
| Collections.UpdateIdempotent | src/pages/MeusAgendamentos.tsx:64-66 | a rewrite that keeps the condition and is idempotent is idempotent as a whole-list update |
| Collections.Map | src/pages/EditarPerfilBarbeiro.tsx:85 | `map(f)`: same length, each element rewritten by `f` |
| Collections.Find | src/pages/PerfilBarbeiro.tsx:64 | `find`: nothing exactly when no element satisfies the condition, otherwise the first one that does |
| Collections.FindIsFirst | src/pages/AgendarHorario.tsx:55-56 | `find` returns the element at the first satisfying position |
| Text.Trim | src/pages/EditarPerfilBarbeiro.tsx:85 | `trim()`: the result has no surrounding whitespace and is a contiguous piece of the input |
| Text.TrimOfTrimmed | src/pages/EditarPerfilBarbeiro.tsx:85 | trimming a trimmed string, or that string with one space in front, gives it back |
| Text.Split | src/pages/EditarPerfilBarbeiro.tsx:85 | `split(',')`: at least one piece, none containing the separator, every character from the input |
| Text.JoinSplit | src/pages/EditarPerfilBarbeiro.tsx:85 | joining the pieces of a split with the separator gives the input back |
| Text.JoinWith | src/pages/EditarPerfilBarbeiro.tsx:55 | `join(d)`: every character of every piece is in the result, the separator too once there are two pieces, and no other character is |
| Text.SplitJoin | src/pages/EditarPerfilBarbeiro.tsx:55 | splitting a join of separator-free pieces gives the pieces back |
| Text.Lower | src/pages/BuscarBarbeiro.tsx:55 | `toLowerCase()` on ASCII: same length, each upper-case letter mapped to its lower-case letter, others kept |
| Text.LowerIdempotent | src/pages/BuscarBarbeiro.tsx:55 | lower-casing twice is lower-casing once |
| Text.ContainsIff | src/pages/BuscarBarbeiro.tsx:55 | `includes` holds exactly when the term occurs at some position |
| Text.Contains | src/pages/BuscarBarbeiro.tsx:55 | a string includes only terms no longer than itself whose characters all occur in it |
| Text.LessEqTotal | src/pages/MinhaDisponibilidade.tsx:111 | the lexicographic order used for `localeCompare` on `HH:MM` times is total |
| Text.LessEqTransitive | src/pages/MinhaDisponibilidade.tsx:111 | that order is transitive |
| Text.LessEqAntisymmetric | src/pages/MinhaDisponibilidade.tsx:111 | that order is antisymmetric |
| Text.LessEq | src/pages/MinhaDisponibilidade.tsx:111 | a string comes no later than any string it is a prefix of, itself included |
| MinhaDisponibilidade.WithoutSlot | src/pages/MinhaDisponibilidade.tsx:99 | removal keeps exactly the slots with another id, one copy of each, so the length is the number of such slots; removing an absent id changes nothing |
| MinhaDisponibilidade.WithoutSlotInOrder | src/pages/MinhaDisponibilidade.tsx:99 | removal keeps the remaining slots in their order |
| MinhaDisponibilidade.RemovalOffered | src/pages/MinhaDisponibilidade.tsx:174-178 | the removal button is drawn for an id exactly when a day is selected and a free slot of that day has the id |
| MinhaDisponibilidade.InsertByTime | src/pages/MinhaDisponibilidade.tsx:111 | inserting into a time-sorted list keeps it sorted and adds exactly that slot |
| MinhaDisponibilidade.SortByTime | src/pages/MinhaDisponibilidade.tsx:111 | the sort gives a permutation of its input in ascending `horario` order |
| MinhaDisponibilidade.SlotsForDate | src/pages/MinhaDisponibilidade.tsx:109-111 | no selected day gives nothing; otherwise a permutation of that day's slots, sorted by time |
| MinhaDisponibilidade.SlotsForDateMembers | src/pages/MinhaDisponibilidade.tsx:109-110 | the day view holds exactly the slots whose date is the selected day |
| MinhaDisponibilidade.OfferedRemovalKeepsOccupied | src/pages/MinhaDisponibilidade.tsx:178-197 | with unique ids, removing through an offered button never removes an occupied slot and keeps ids unique |
| MinhaDisponibilidade.OccupiedSlotsSurvive | src/pages/MinhaDisponibilidade.tsx:178-197 | over every run of offered removals, every occupied slot is still there |
| MinhaDisponibilidade.Page.constructor | src/pages/MinhaDisponibilidade.tsx:42-46 | no slots, today selected, no time typed |
| MinhaDisponibilidade.Page.FetchAvailability | src/pages/MinhaDisponibilidade.tsx:48-65 | the slot list becomes the loaded list; the rest is unchanged |
| MinhaDisponibilidade.Page.SelectDate | src/pages/MinhaDisponibilidade.tsx:45 | only the selected day changes |
| MinhaDisponibilidade.Page.SetNewTime | src/pages/MinhaDisponibilidade.tsx:46 | only the typed time changes |
| MinhaDisponibilidade.Page.AddTimeSlot | src/pages/MinhaDisponibilidade.tsx:67-93 | refused, changing nothing, without a day or a time; otherwise exactly one free slot for that day and time is appended after the old list, with no duplicate check, and the time is cleared |
| MinhaDisponibilidade.Page.RemoveTimeSlot | src/pages/MinhaDisponibilidade.tsx:95-107 | the slot list becomes `WithoutSlot` of the old one |
| PerfilBarbeiro.LookupBarber | src/pages/PerfilBarbeiro.tsx:64-71 | the first barber with the route id, or "Barbeiro não encontrado." exactly when no barber has it |
| PerfilBarbeiro.AvailableSlots | src/pages/PerfilBarbeiro.tsx:83-93 | no barber or no day gives nothing; otherwise exactly the slots of that barber, on that day, still free, one copy of each, so the length is their number |
| PerfilBarbeiro.AvailableSlotsInOrder | src/pages/PerfilBarbeiro.tsx:86-88 | the shown slots keep the order of the slot list |
| PerfilBarbeiro.AvailableSlotsIdempotent | src/pages/PerfilBarbeiro.tsx:86-88 | filtering the shown slots again changes nothing |
| PerfilBarbeiro.BookingLink | src/pages/PerfilBarbeiro.tsx:184 | a slot's link `/agendar/{barber}/{slot}` splits at slashes into an empty piece, `agendar`, the barber id and the slot id, when neither id holds a slash |
| PerfilBarbeiro.Page.constructor | src/pages/PerfilBarbeiro.tsx:52-56 | no barber, no error, no slots, today selected |
| PerfilBarbeiro.Page.FetchBarberProfile | src/pages/PerfilBarbeiro.tsx:58-81 | a found barber is set and the error cleared; otherwise the not-found error is set and the old barber stays |
| PerfilBarbeiro.Page.SelectDate | src/pages/PerfilBarbeiro.tsx:56 | only the selected day changes |
| PerfilBarbeiro.Page.RefreshSlots | src/pages/PerfilBarbeiro.tsx:83-93 | the shown slots become `AvailableSlots` of the barber and day |
| AgendarHorario.ValidateBooking | src/pages/AgendarHorario.tsx:55-64 | a booking exactly when some barber has the id and the first slot with both the slot id and the barber id is free; the booking holds the first barber with the id and that first slot |
| AgendarHorario.OtherBarbersSlotRejected | src/pages/AgendarHorario.tsx:56 | a slot of another barber is never accepted, whatever its id |
| AgendarHorario.MockPairs | src/pages/AgendarHorario.tsx:25-37 | on the loaded data `(b1, ts2)` is rejected (taken), `(b1, ts1)` loads b1 and ts1, `(b2, ts1)` is rejected |
| AgendarHorario.Page.constructor | src/pages/AgendarHorario.tsx:43-46 | nothing loaded, no error |
| AgendarHorario.Page.FetchData | src/pages/AgendarHorario.tsx:48-75 | a valid pair sets barber and slot and clears the error; otherwise the error is set and barber and slot stay as they were |
| AgendarHorario.Page.ConfirmAppointment | src/pages/AgendarHorario.tsx:77-97 | refused exactly when barber or slot is missing; otherwise it goes to `/meus-agendamentos`; it changes no state and no slot |
| BarberAgendamentos.WithStatus | src/pages/BarberAgendamentos.tsx:65-67 | records with the id get the decision and keep their other fields; the others, the length and the order are unchanged |
| BarberAgendamentos.WithStatusIdempotent | src/pages/BarberAgendamentos.tsx:65-67 | giving the same answer twice is giving it once |
| BarberAgendamentos.WithStatusAbsent | src/pages/BarberAgendamentos.tsx:65-67 | answering an absent id changes nothing |
| BarberAgendamentos.AfterAnswers | src/pages/BarberAgendamentos.tsx:61-75 | a run of answers keeps the list length |
| BarberAgendamentos.AnswerOffered | src/pages/BarberAgendamentos.tsx:131 | the two answer buttons are drawn exactly for the records that may still move to either decision |
| BarberAgendamentos.OfferedAnswerStep | src/pages/BarberAgendamentos.tsx:131-157 | with unique ids, an offered answer moves one pending record to the decision and touches nothing else |
| BarberAgendamentos.OnlyPendingRequestsAreAnswered | src/pages/BarberAgendamentos.tsx:131-157 | over every run of offered answers, each record keeps its place and fields and only moves from pendente to confirmado or recusado |
| BarberAgendamentos.Page.constructor | src/pages/BarberAgendamentos.tsx:38 | no records |
| BarberAgendamentos.Page.FetchAppointments | src/pages/BarberAgendamentos.tsx:42-59 | the records become the loaded list |
| BarberAgendamentos.Page.UpdateAppointmentStatus | src/pages/BarberAgendamentos.tsx:61-75 | the records become `WithStatus` of the old ones |
| MeusAgendamentos.Cancel | src/pages/MeusAgendamentos.tsx:64-66 | records with the id become cancelado and keep their other fields; the others, the length and the order are unchanged |
| MeusAgendamentos.CancelIdempotent | src/pages/MeusAgendamentos.tsx:64-66 | cancelling twice is cancelling once |
| MeusAgendamentos.CancelOffered | src/pages/MeusAgendamentos.tsx:129 | the cancel button is drawn exactly for the records a cancel would change |
| MeusAgendamentos.CancelledIsTerminal | src/pages/MeusAgendamentos.tsx:129-151 | a record cancelled before a run of cancellations is unchanged after it and still offers no button |
| MeusAgendamentos.AfterCancels | src/pages/MeusAgendamentos.tsx:60-74 | a run of cancellations keeps the list length |
| MeusAgendamentos.CancelsOnlyCancel | src/pages/MeusAgendamentos.tsx:60-74 | over every run of cancellations each record keeps its place and fields, and its status only moves to cancelado |
| MeusAgendamentos.Page.constructor | src/pages/MeusAgendamentos.tsx:37 | no records |
| MeusAgendamentos.Page.FetchAppointments | src/pages/MeusAgendamentos.tsx:41-58 | the records become the loaded list |
| MeusAgendamentos.Page.CancelAppointment | src/pages/MeusAgendamentos.tsx:60-74 | the records become `Cancel` of the old ones |
| VerTodasAgendas.WithStatus | src/pages/VerTodasAgendas.tsx:66-68 | records with the id get the new status (confirmado, recusado or cancelado) and keep their other fields; the others, the length and the order are unchanged |
| VerTodasAgendas.Without | src/pages/VerTodasAgendas.tsx:82 | exactly the records with another id stay, so none with that id is left, and the length drops by the number of matches |
| VerTodasAgendas.WithoutInOrder | src/pages/VerTodasAgendas.tsx:82 | removal keeps the remaining records in order |
| VerTodasAgendas.AnswerOffered | src/pages/VerTodasAgendas.tsx:148 | the two answer buttons are drawn exactly for the records that may still move to either decision |
| VerTodasAgendas.RemoveOffered | src/pages/VerTodasAgendas.tsx:158 | the remove button is drawn for pending, confirmed and declined records, never for cancelled ones |
| VerTodasAgendas.OfferedStep | src/pages/VerTodasAgendas.tsx:148-180 | with unique ids, one offered click keeps ids unique, answers only a pending record, and removes no cancelled one |
| VerTodasAgendas.DescendsTransitive | src/pages/VerTodasAgendas.tsx:62-90 | two such steps compose |
| VerTodasAgendas.OfferedRunsDescend | src/pages/VerTodasAgendas.tsx:148-180 | over every run of offered clicks no record is invented, a surviving record changed at most from pendente to confirmado or recusado, and every cancelled record is still there |
| VerTodasAgendas.Page.constructor | src/pages/VerTodasAgendas.tsx:39 | no records |
| VerTodasAgendas.Page.FetchAllAppointments | src/pages/VerTodasAgendas.tsx:43-60 | the records become the loaded list |
| VerTodasAgendas.Page.UpdateAppointmentStatus | src/pages/VerTodasAgendas.tsx:62-76 | the records become `WithStatus` of the old ones |
| VerTodasAgendas.Page.RemoveAppointment | src/pages/VerTodasAgendas.tsx:78-90 | the records become `Without` of the old ones |
| GerenciarBarbeiros.Approve | src/pages/GerenciarBarbeiros.tsx:112-114 | barbers with the id become ativo and keep their other fields; the others are unchanged |
| GerenciarBarbeiros.ApproveIdempotent | src/pages/GerenciarBarbeiros.tsx:112-114 | approving twice is approving once |
| GerenciarBarbeiros.ApproveOffered | src/pages/GerenciarBarbeiros.tsx:229 | the approve button is drawn only where approving changes the barber, and never for a banned barber |
| GerenciarBarbeiros.OfferedApproval | src/pages/GerenciarBarbeiros.tsx:229-233 | with unique ids, approving an offered (pending) barber changes exactly that barber, to ativo |
| GerenciarBarbeiros.Without | src/pages/GerenciarBarbeiros.tsx:98 | exactly the barbers with another id stay, one copy of each, so the length is their number |
| GerenciarBarbeiros.WithoutInOrder | src/pages/GerenciarBarbeiros.tsx:98 | removal keeps the remaining barbers in order |
| GerenciarBarbeiros.Page.constructor | src/pages/GerenciarBarbeiros.tsx:38-44 | no barbers, empty form, dialog closed |
| GerenciarBarbeiros.Page.FetchBarbers | src/pages/GerenciarBarbeiros.tsx:46-63 | the list becomes the loaded list; the form is unchanged |
| GerenciarBarbeiros.Page.EditForm | src/pages/GerenciarBarbeiros.tsx:42-44 | only the form fields and the dialog flag change |
| GerenciarBarbeiros.Page.AddBarber | src/pages/GerenciarBarbeiros.tsx:65-92 | refused, changing nothing, with an empty name or e-mail; otherwise exactly one pending barber with the typed name and e-mail is appended, the form is cleared and the dialog closed |
| GerenciarBarbeiros.Page.ApproveBarber | src/pages/GerenciarBarbeiros.tsx:108-122 | the list becomes `Approve` of the old one; the form is unchanged |
| GerenciarBarbeiros.Page.RemoveBarber | src/pages/GerenciarBarbeiros.tsx:94-106 | the list becomes `Without` of the old one; the form is unchanged |
| GerenciarUsuarios.Toggle | src/pages/GerenciarUsuarios.tsx:65 | the new status always differs from the old: ativo and banido swap |
| GerenciarUsuarios.ToggleInvolution | src/pages/GerenciarUsuarios.tsx:65 | toggling twice gives the status back |
| GerenciarUsuarios.BanUnban | src/pages/GerenciarUsuarios.tsx:66-68 | users with the id get the toggled status and keep role, name and e-mail; the others are unchanged |
| GerenciarUsuarios.BanUnbanInvolution | src/pages/GerenciarUsuarios.tsx:61-76 | a second click, which sees the toggled status, restores the list |
| GerenciarUsuarios.Without | src/pages/GerenciarUsuarios.tsx:82 | exactly the users with another id stay, one copy of each, so the length is their number |
| GerenciarUsuarios.WithoutInOrder | src/pages/GerenciarUsuarios.tsx:82 | removal keeps the remaining users in order |
| GerenciarUsuarios.ActionsOffered | src/pages/GerenciarUsuarios.tsx:148 | the ban and remove buttons are drawn exactly for clients and barbers, never for administrators |
| GerenciarUsuarios.OfferedClickSparesAdmins | src/pages/GerenciarUsuarios.tsx:148 | with unique ids, an offered click leaves every administrator as they were and keeps ids unique |
| GerenciarUsuarios.AdminsAreProtected | src/pages/GerenciarUsuarios.tsx:148 | no run of offered clicks bans, unbans or removes an administrator |
| GerenciarUsuarios.Page.constructor | src/pages/GerenciarUsuarios.tsx:38 | no users |
| GerenciarUsuarios.Page.FetchUsers | src/pages/GerenciarUsuarios.tsx:42-59 | the list becomes the loaded list |
| GerenciarUsuarios.Page.BanUnbanUser | src/pages/GerenciarUsuarios.tsx:61-76 | the list becomes `BanUnban` of the old one |
| GerenciarUsuarios.Page.RemoveUser | src/pages/GerenciarUsuarios.tsx:78-90 | the list becomes `Without` of the old one |
| EditarPerfilBarbeiro.TrimAll | src/pages/EditarPerfilBarbeiro.tsx:85 | `map(s => s.trim())`: same length, each piece trimmed |
| EditarPerfilBarbeiro.ParseServices | src/pages/EditarPerfilBarbeiro.tsx:85 | every parsed service is non-empty, trimmed and free of commas |
| EditarPerfilBarbeiro.ParseBlank | src/pages/EditarPerfilBarbeiro.tsx:85 | a field of only commas and whitespace, the empty field included, parses to no services |
| EditarPerfilBarbeiro.SplitJoined | src/pages/EditarPerfilBarbeiro.tsx:55 | splitting the `join(', ')` field at commas gives the first service and every other one behind a space |
| EditarPerfilBarbeiro.JoinServices | src/pages/EditarPerfilBarbeiro.tsx:55 | `join(', ')`: the services' characters all appear in the field, a comma does once there are two services, and otherwise only commas and spaces are added |
| EditarPerfilBarbeiro.ParseJoin | src/pages/EditarPerfilBarbeiro.tsx:55 | round trip: parsing the joined field of well-formed services gives them back |
| EditarPerfilBarbeiro.FormOf | src/pages/EditarPerfilBarbeiro.tsx:50-55 | the loaded fields copy the profile's text fields, and the services field parses back to the services when they are well formed |
| EditarPerfilBarbeiro.ParseNormalises | src/pages/EditarPerfilBarbeiro.tsx:85 | parsing what a parse joins back gives the same services |
| EditarPerfilBarbeiro.Save | src/pages/EditarPerfilBarbeiro.tsx:68-96 | refused exactly when name, e-mail or description is empty; otherwise the base id is kept, the other fields come from the form and the services are the parsed services field, all well formed |
| EditarPerfilBarbeiro.SaveLoaded | src/pages/EditarPerfilBarbeiro.tsx:44-96 | saving the form as loaded gives back a profile with the required fields and well-formed services |
| EditarPerfilBarbeiro.SaveLoadedMock | src/pages/EditarPerfilBarbeiro.tsx:23-30 | the loaded mock profile meets that condition |
| EditarPerfilBarbeiro.Page.constructor | src/pages/EditarPerfilBarbeiro.tsx:34-42 | no profile, empty fields |
| EditarPerfilBarbeiro.Page.FetchProfile | src/pages/EditarPerfilBarbeiro.tsx:44-66 | the profile is set and the fields are filled from it |
| EditarPerfilBarbeiro.Page.EditForm | src/pages/EditarPerfilBarbeiro.tsx:38-42 | only the fields change |
| EditarPerfilBarbeiro.Page.SaveProfile | src/pages/EditarPerfilBarbeiro.tsx:68-96 | a refused save changes nothing and stays; an accepted one sets the saved profile and goes to `/barber` |
| BuscarBarbeiro.FilteredBarbers | src/pages/BuscarBarbeiro.tsx:54-56 | exactly the barbers whose lower-cased name contains the lower-cased term, one copy of each, so the length is their number |
| BuscarBarbeiro.FilteredIffOccurs | src/pages/BuscarBarbeiro.tsx:54-56 | a barber is shown exactly when the term occurs at some position of the name |
| BuscarBarbeiro.FilteredInOrder | src/pages/BuscarBarbeiro.tsx:54-56 | the result keeps the loaded order |
| BuscarBarbeiro.EmptyTermShowsAll | src/pages/BuscarBarbeiro.tsx:54-56 | an empty term shows every barber |
| BuscarBarbeiro.CaseInsensitive | src/pages/BuscarBarbeiro.tsx:55 | terms that lower-case alike give the same result |
| BuscarBarbeiro.FilterIdempotent | src/pages/BuscarBarbeiro.tsx:54-56 | searching inside a result with the same term changes nothing |
| BuscarBarbeiro.ProfileLink | src/pages/BuscarBarbeiro.tsx:91 | a result's link `/barbeiro/{id}` splits at slashes into an empty piece, `barbeiro` and the id, when the id holds no slash |
| AuthContext.Mount | src/contexts/AuthContext.tsx:18-20 | a new provider is logged out, with no role, loading |
| AuthContext.Init | src/contexts/AuthContext.tsx:22-32 | a truthy stored role logs that role in; a missing or empty one leaves the state; loading ends and the store is only read |
| AuthContext.StoredValue | src/contexts/AuthContext.tsx:37 | `role \|\| ''`: the role, or the empty string for null |
| AuthContext.Login | src/contexts/AuthContext.tsx:34-39 | logged in with exactly that role, which is also written to the store |
| AuthContext.Logout | src/contexts/AuthContext.tsx:41-46 | logged out, no role, stored entry removed |
| AuthContext.LogoutAfterLogin | src/contexts/AuthContext.tsx:34-46 | login then logout is logout alone |
| AuthContext.LoginSurvivesReload | src/contexts/AuthContext.tsx:22-39 | a login with one of the three roles survives a reload |
| AuthContext.NullLoginForgotten | src/contexts/AuthContext.tsx:26-37 | a login with null is authenticated at once but a reload reads `''` and comes up logged out |
| AuthContext.LogoutSurvivesReload | src/contexts/AuthContext.tsx:22-46 | a logout survives a reload |
| AuthContext.InitIdempotent | src/contexts/AuthContext.tsx:22-32 | reading the store again changes nothing |
| AuthContext.Provider.constructor | src/contexts/AuthContext.tsx:18-20 | the state is `Mount` of the store |
| AuthContext.Provider.InitFromStorage | src/contexts/AuthContext.tsx:22-32 | the state becomes `Init` of the old one |
| AuthContext.Provider.LogIn | src/contexts/AuthContext.tsx:34-39 | the state becomes `Login` of the old one |
| AuthContext.Provider.LogOut | src/contexts/AuthContext.tsx:41-46 | the state becomes `Logout` of the old one |
| ProtectedRoute.Guard | src/components/ProtectedRoute.tsx:15-40 | loading shows the loading view; a visitor goes to `/login`; a logged-in user sees the page exactly when no roles are listed, the role is falsy, or it is listed; otherwise they go to their dashboard |
| ProtectedRoute.NullRolePasses | src/components/ProtectedRoute.tsx:25 | a logged-in user with a null or empty role passes every guard |
| ProtectedRoute.RefusedRoleGoesToDashboard | src/components/ProtectedRoute.tsx:28-36 | a refused role of the three goes to its own dashboard, never to `/login` or `/` |
| AppRoutes.PathSegments | src/App.tsx:38-155 | the segments of a pathname are non-empty and slash-free |
| AppRoutes.Match | src/App.tsx:37-156 | the first declared route whose pattern matches, and the catch-all exactly when none does |
| AppRoutes.Resolve | src/App.tsx:37-156 | a pathname is shown with the route the reference router names for its segments, and with the catch-all when it names none |
| AppRoutes.MatchIndex | src/App.tsx:38-152 | whenever a declared route matches, the reference router names it |
| AppRoutes.IndexMatches | src/App.tsx:38-152 | the route the reference router names does match |
| AppRoutes.RoutesDisjoint | src/App.tsx:38-152 | no segments match two declared routes, so order and ranking make no difference |
| AppRoutes.MatchDeclared | src/App.tsx:38-152 | segments matching a declared route are shown with it |
| AppRoutes.MatchUndeclared | src/App.tsx:155 | segments the reference router does not know are shown with `NotFound` |
| AppRoutes.MatchByIndex | src/App.tsx:37-156 | on every list of segments the route table and the reference router agree, the catch-all included |
| AppRoutes.PathOfCons | src/App.tsx:38-152 | a pathname is a slash and its first segment followed by the pathname of the rest |
| AppRoutes.SegmentsOfPath | src/App.tsx:38-152 | the segments of a pathname built from segments are those segments |
| AppRoutes.ResolveSingle | src/App.tsx:38-66 | a one-segment pathname shows the route matching its segment |
| AppRoutes.Screen | src/App.tsx:38-152 | public routes always show; guarded ones show what their guard decides with their role list |
| AppRoutes.RootIsPublic | src/App.tsx:38 | `/` shows the landing page to everyone |
| AppRoutes.LoginIsPublic | src/App.tsx:39 | `/login` shows the login page to everyone |
| AppRoutes.RegisterIsPublic | src/App.tsx:40 | `/register` shows the registration page to everyone |
| AppRoutes.DashboardIndex | src/App.tsx:43-66 | each role's dashboard route has the role as its one segment and admits only that role |
| AppRoutes.DashboardResolves | src/App.tsx:43-66 | each role's dashboard path shows that dashboard, guarded by that role alone |
| AppRoutes.GuardedByOne | src/App.tsx:43-66 | a route guarded by one role admits exactly that role |
| AppRoutes.DashboardAdmitsOnlyItsRole | src/App.tsx:43-66 | each dashboard admits exactly its own role |
| AppRoutes.GuardRedirectTarget | src/components/ProtectedRoute.tsx:25-36 | a guard that turns a logged-in role away sends it to that role's dashboard |
| AppRoutes.GuardRedirectLandsOnAdmittingPage | src/App.tsx:43-152 | whenever a guard turns a logged-in role away, the redirect lands on a page that admits it |
| AppRoutes.TableFollowsAreas | src/App.tsx:38-152 | every declared route follows its area: client pages only clients, barber pages only barbers, admin pages only admins, the rest public |
| AppRoutes.CatchAllFollowsArea | src/App.tsx:155 | the catch-all is public |
| AppRoutes.MatchFollowsArea | src/App.tsx:37-156 | whatever route a pathname shows follows its area |
| AppRoutes.ProfileLinkPath | src/pages/BuscarBarbeiro.tsx:91 | a search result's link is the pathname `barbeiro` / id |
| AppRoutes.ProfileLinkResolves | src/App.tsx:77-84 | that link opens the barber profile for every id without a slash |
| AppRoutes.BookingLinkPath | src/pages/PerfilBarbeiro.tsx:184 | a slot's link is the pathname `agendar` / barber id / slot id |
| AppRoutes.BookingLinkResolves | src/App.tsx:85-92 | that link opens the booking page for ids without a slash |
| AppRoutes.ConfirmLeadsToClientPage | src/pages/AgendarHorario.tsx:90 | a confirmed booking leads to the client's appointment list, which admits clients |
| AppRoutes.SaveLeadsToBarberDashboard | src/pages/EditarPerfilBarbeiro.tsx:89 | a saved profile leads to the barber dashboard, which admits barbers |
| LoginPage.Submit | src/pages/LoginPage.tsx:20-43 | goes to the role's dashboard exactly when e-mail, password and role are given; otherwise shows the error |
| LoginPage.OfferedRolesReachDashboards | src/pages/LoginPage.tsx:82-84 | every listed role leads to its own dashboard, never to `/` |
| LoginPage.LoginLandsOnDashboard | src/pages/LoginPage.tsx:24-36 | from a loaded session, the login's target shows its content to the new session, and a reload keeps that session |
| LoginPage.Page.constructor | src/pages/LoginPage.tsx:14-16 | empty fields, client chosen |
| LoginPage.Page.EditCredentials | src/pages/LoginPage.tsx:60-71 | only e-mail and password change |
| LoginPage.Page.SelectRole | src/pages/LoginPage.tsx:77-85 | the chosen role becomes one of the listed ones |
| LoginPage.Page.HandleLogin | src/pages/LoginPage.tsx:20-43 | the outcome is `Submit` of the form; on success the provider is logged in with the chosen role first; on refusal it is unchanged |
| RegisterPage.Submit | src/pages/RegisterPage.tsx:21-45 | goes to the role's dashboard exactly when name, e-mail, password and role are given; otherwise shows the error |
| RegisterPage.OfferedRolesAreNotAdmin | src/pages/RegisterPage.tsx:95-97 | the list offers no administrator, so a registration never leads to the admin dashboard |
| RegisterPage.RegisterLandsOnDashboard | src/pages/RegisterPage.tsx:25-38 | from a loaded session, the registration's target shows its content to the new session, and a reload keeps that session |
| RegisterPage.Page.constructor | src/pages/RegisterPage.tsx:14-17 | empty fields, client chosen |
| RegisterPage.Page.EditFields | src/pages/RegisterPage.tsx:14-16 | only name, e-mail and password change |
| RegisterPage.Page.SelectRole | src/pages/RegisterPage.tsx:90-98 | the chosen role becomes one of the listed ones |
| RegisterPage.Page.HandleRegister | src/pages/RegisterPage.tsx:21-45 | the outcome is `Submit` of the form; on success the provider is logged in with the chosen role, never admin from a valid form; on refusal it is unchanged |
| IndexPage.IndexTarget | src/pages/Index.tsx:19-29 | each of the three roles is sent to its dashboard, any other value to `/client` |
| IndexPage.IndexAsWritten | src/pages/Index.tsx:11-53 | the page as written: loading message, an empty link for a logged-in user, the two entry links for a visitor |
| IndexPage.AsWrittenStrandsUsers | src/pages/Index.tsx:19-29 | as written, nobody is ever redirected, and a logged-in user does not get the entry links either |
| IndexPage.AsWrittenStrandsClient | src/pages/Index.tsx:25-26 | a logged-in client gets only an empty link to `/client` |
| IndexPage.Index | src/pages/Index.tsx:11-53 | the page as intended: a logged-in user is redirected to `IndexTarget` |
| IndexPage.IndexCorrectsOnlyLoggedIn | src/pages/Index.tsx:19-29 | the intended page differs from the written one exactly for a logged-in user |
| IndexPage.IndexSendsUsersToTheirArea | src/pages/Index.tsx:19-29 | the redirect of a user with one of the three roles, or no role, lands on a page that shows them its content |
| IndexPage.UnknownRoleBouncesBack | src/pages/Index.tsx:27-28 | a stored role that is none of the three goes to `/client`, whose guard sends it back to `/` |
| IndexPage.LandingLinksArePublic | src/pages/Index.tsx:44-47 | the visitor's two links open the login and registration pages, which show to everyone |

## Findings

| source | as written | input that shows it | evidently intended | confidence | as-written member | corrected member |
|---|---|---|---|---|---|---|
| src/pages/Index.tsx:19-29 | a logged-in user gets `<Link to=... replace />`, an anchor with no content that navigates nowhere, so they stay on `/` with a blank page | `loading = false`, `isAuthenticated = true`, `userRole = 'client'` | a redirect with `<Navigate to=... replace />`, as the route guard does | not executed | IndexPage.AsWrittenStrandsClient | IndexPage.IndexSendsUsersToTheirArea |

## Left out

- Rendering, toasts, skeletons and the `loading`/`error` flags around the simulated `setTimeout` latency are not modelled. The mock promises never reject, so the `catch` branches cannot run.
- The dashboards (AdminDashboard, BarberDashboard, ClientDashboard) and the avatar initials are display only.
- No screen's state is shared with another screen. Each screen's mock list is its own, as in the code.
- Generated ids (`Date.now()`) are a parameter `freshId` of the adding methods. The code does not make them unique.
- Dates are `yyyy-MM-dd` strings and times `HH:MM` strings.
  - Day matching is string equality. The time-zone behaviour of `new Date(slot.data)` with `isSameDay` is not modelled.
  - Today's date is a constructor parameter.
  - `localeCompare` on times is plain lexicographic order, which agrees with it on zero-padded `HH:MM`.
  - `MinhaDisponibilidade.SortByTime`: proved to give a sorted permutation. It does not promise which of two equal times comes first, where JavaScript's sort is stable.
- `Text.Lower` and `Text.Trim` cover ASCII letters and the ASCII whitespace characters (space, tab, line feed, vertical tab, form feed and carriage return) only. JavaScript's Unicode case mapping and whitespace set are wider.
- Local storage is a field of the provider. Its reads and writes are not modelled as I/O.
- `useAuth` outside a provider throws. That case is not modelled: every screen is inside the provider.
- Route matching is modelled on the pieces between slashes, with empty pieces dropped. So a doubled slash such as `//barber` or `/barber//disponibilidade` resolves to that page in the model, where React Router 6 shows NotFound.
  - React Router ignores case and ranks routes. Neither is modelled; `AppRoutes.RoutesDisjoint` shows that ranking cannot change the result for this table.
  - URL decoding of parameters is not modelled.
  - `AppRoutes.ProfileLinkResolves` and `AppRoutes.BookingLinkResolves` need ids without a slash, because a slash would add a segment.
- The booking confirmation changes no slot and creates no appointment, exactly as in the code. Reservation, release and ownership checks are absent from the code and from the model.
