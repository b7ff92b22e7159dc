# Hospital visitor control — a Dafny model of its decision logic

The application is a small hospital visitor-control web app. Receptionists log in,
admit patients, register visitors against an admitted patient and browse the visit
history. This project models the three parts of it that carry real logic:

- **The route guard** (`middleware.ts`). It makes a redirect decision from two facts:
  whether the `usuario_session` cookie is present, and which pathname was requested.
  Without a session, anything starting with `/dashboard` goes to `/`. With a session,
  `/` goes to `/dashboard`. Everything else passes through. The guard runs only on
  paths the matcher selects, which leaves out `api`, `_next/static`, `_next/image` and
  `favicon.ico` (module `RouteGuard`).
- **The reception dashboard** (`app/dashboard/page.tsx`). It is a component that holds:
  - a list of patients;
  - a list of visits;
  - a selection;
  - a search text;
  - the visitor and admission forms.

  It changes them through its handlers. Module `DashboardPage` models it as a class
  whose methods are those handlers, with the invariant `Valid()`, made of three parts:
  - every patient is `Internado`;
  - the selection, if any, is a listed, admitted patient;
  - every visit names a listed patient, by id and name.

  The name search is a pure function over the list.
- **The visit history** (`app/historico/page.tsx`). It filters a fixed list of visits.
  A visit is kept when its patient or visitor name contains the filter text; case is
  ignored. The page also shows the unfiltered total, and a message when nothing matches
  (module `HistoricoPage`).

Two helper modules are shared by both pages:
- `Text` holds `toLowerCase`, `startsWith` and `includes`.
- `Seqs` holds `Array.prototype.filter`, with its order and membership properties.

Clock values are parameters of the methods that use them: `agora` for `Date.now()`
and `dataHora` for the formatted date. The two-second `setTimeout` becomes the method
`ResetAposRegistro`, which the caller runs later.

The guard's matcher is modelled from the pattern as written:
`/((?!api|_next/static|_next/image|favicon.ico).*)`, anchored at both ends and
case-sensitive. Because the dot in `favicon.ico` is a pattern character, `/favicon-ico`
is left out as well. Because the exclusions are plain prefixes, so is `/apiary`.

Several user interface conditions become `requires` clauses, because the page never
lets the handler run otherwise:
- The search box is disabled while a patient is selected, so `Buscar` requires that no
  patient is selected.
- Patients can be clicked only in the list shown while nothing is selected, so
  `Selecionar` requires an unselected state and a listed patient.

## Model

| member | source | states |
|---|---|---|
| `RouteGuard.Middleware` | middleware.ts:4-20 | A redirect always goes to `/` or `/dashboard`, and never to the path that was requested. |
| `RouteGuard.MiddlewareCases` | middleware.ts:9-19 | Both directions of each case: redirect to `/` iff there is no session cookie and the path starts with `/dashboard`; redirect to `/dashboard` iff there is a session and the path is exactly `/`; otherwise pass through. |
| `RouteGuard.PlainPrefixIsGuarded` | middleware.ts:10-11 | The prefix test is plain `startsWith`, so `/dashboardX` and `/dashboard/usuarios` without a session go to `/`. |
| `RouteGuard.OnlyPresenceMatters` | middleware.ts:6 | Two cookie sets that agree on whether `usuario_session` is present get the same decision for every path. The cookie's value is never consulted. |
| `RouteGuard.Route` | middleware.ts:23-34 | A path the matcher does not select always passes; a selected path gets the guard's decision. |
| `RouteGuard.ProtectedPathsAreMatched` | middleware.ts:32 | Every path starting with `/dashboard` is selected by the matcher, so the guard always sees protected requests. |
| `RouteGuard.LoginPathIsMatched` | middleware.ts:32 | `/` is selected by the matcher. |
| `RouteGuard.NoRedirectLoop` | middleware.ts:10-19 | If a request is redirected, the redirect target with the same cookies passes through. |
| `RouteGuard.NeverRedirectsToItself` | middleware.ts:10-19 | The full request handling never redirects a path to itself. |
| `RouteGuard.ExcludedPathsPass` | middleware.ts:32 | These paths pass with any cookies: `/api/...`, `/_next/static/...`, `/_next/image`, `/favicon.ico`, `/favicon-ico` (the dot matches any character) and `/apiary` (plain prefix). |
| `Text.LowerChar` | app/dashboard/page.tsx:52 | A capital ASCII letter becomes its own lower-case letter (`A` to `a`); every other character is unchanged; the result is never a capital. |
| `Text.Lower` | app/dashboard/page.tsx:52 | Lower-casing keeps the length and lower-cases each character in place. |
| `Text.LowerIdempotent` | app/historico/page.tsx:18-19 | Lower-casing an already lower-cased text changes nothing. |
| `Text.LowerEqualIffSameIgnoringCase` | app/dashboard/page.tsx:52 | Two texts lower-case to the same text iff they have the same length and differ at most in the case of ASCII letters. |
| `Text.IncludesIffOccurs` | app/dashboard/page.tsx:52 | The recursive `includes` holds iff the searched text occurs at some offset of the name. |
| `Text.IncludesEmpty` | app/historico/page.tsx:18 | Every text includes the empty text. |
| `Text.IncludesNeedsRoom` | app/historico/page.tsx:18-19 | A search text longer than the name is never included in it. |
| `Seqs.Filter` | app/historico/page.tsx:17 | The result holds exactly the elements the predicate keeps, each kept element as many times as in the input and every other element not at all; it is no longer than the input. |
| `Seqs.FilterIsSubsequence` | app/historico/page.tsx:17 | The filtered list is a subsequence of its input, in the same order. |
| `Seqs.FilterKeepsAll` | app/dashboard/page.tsx:51-53 | A predicate that accepts every element leaves the list unchanged. |
| `Seqs.FilterAgreeing` | app/dashboard/page.tsx:51-53 | Predicates that agree on the list's elements filter it identically. |
| `DashboardPage.PacientesFiltrados` | app/dashboard/page.tsx:51-53 | A patient is listed iff it is in the list and its lower-cased name contains the lower-cased search text. |
| `DashboardPage.PacientesFiltradosEmOrdem` | app/dashboard/page.tsx:51-53 | The listed patients keep the list's order. |
| `DashboardPage.BuscaVaziaMantemTodos` | app/dashboard/page.tsx:51-53 | An empty search lists every patient, in order. |
| `DashboardPage.BuscaIgnoraCaixa` | app/dashboard/page.tsx:52 | Searching with the lower-cased text lists the same patients as the text as typed. |
| `DashboardPage.BuscaIndependeDaCaixa` | app/dashboard/page.tsx:51-53 | Two search texts that differ only in ASCII case (such as "ANA" and "ana") list the same patients. |
| `DashboardPage.NovoPacienteEncontrado` | app/dashboard/page.tsx:95 | Once a patient is put on top of the list, searching its own name lists it first. |
| `DashboardPage.NovoRegistro` | app/dashboard/page.tsx:86-92 | The admitted record copies the form's name, room and bed, and is selectable (`Internado`). |
| `DashboardPage.AdmissaoPreservaInvariante` | app/dashboard/page.tsx:91-95 | Prepending an `Internado` record keeps every patient `Internado` and every visit resolvable to a patient. |
| `DashboardPage.VisitaPreservaInvariante` | app/dashboard/page.tsx:60-69 | A visit copied from a listed patient resolves to it; older visits still resolve. |
| `DashboardPage.Dashboard.constructor` | app/dashboard/page.tsx:26-48 | Initial state: the two seeded patients, no visits, empty search and forms, nothing selected, no success panel, form closed. The invariant holds. |
| `DashboardPage.Dashboard.InternarPaciente` | app/dashboard/page.tsx:82-103 | An empty name or room leaves the whole state unchanged; the bed is not checked. Otherwise: one `Internado` record with the form's fields goes before the unchanged old patients; the form is cleared; the form is closed; the new record is selected; nothing else changes. |
| `DashboardPage.Dashboard.RegistrarVisita` | app/dashboard/page.tsx:56-71 | With nothing selected the state is unchanged. Otherwise one visit goes before the unchanged old visits, taking its patient id and name from the selection and the visitor's name and document from the form, and `sucesso` becomes true. Nothing else changes and the invariant holds. |
| `DashboardPage.Dashboard.ResetAposRegistro` | app/dashboard/page.tsx:72-78 | Clears `sucesso`, both visitor fields, the selection and the search; the patients, visits and admission form are kept. |
| `DashboardPage.Dashboard.Selecionar` | app/dashboard/page.tsx:168-171 | Clicking a listed patient selects it iff it is `Internado`; nothing else changes. |
| `DashboardPage.Dashboard.Voltar` | app/dashboard/page.tsx:194 | "Voltar" clears the selection and keeps the invariant. |
| `DashboardPage.Dashboard.Buscar` | app/dashboard/page.tsx:149-151 | Typing sets the search text. It is only possible while nothing is selected. |
| `DashboardPage.Dashboard.EditarVisitante` | app/dashboard/page.tsx:233-237 | Typing sets the visitor's name and document and keeps the invariant. |
| `DashboardPage.Dashboard.DefinirModal` | app/dashboard/page.tsx:137 | Opening or closing the admission form sets only `modalAberto`. |
| `DashboardPage.Dashboard.EditarNovoPaciente` | app/dashboard/page.tsx:289-313 | Typing in the admission form sets only the form. |
| `HistoricoPage.VisitasFiltradas` | app/historico/page.tsx:17-20 | A visit is shown iff it is in the list and its lower-cased patient or visitor name contains the lower-cased filter. |
| `HistoricoPage.Exibir` | app/historico/page.tsx:37-85 | The total is the unfiltered count. The "no records" message appears iff no visit matches the filter. The shown records are exactly the matching visits. |
| `HistoricoPage.VisitasFiltradasEmOrdem` | app/historico/page.tsx:17 | The shown visits are a subsequence of the list, in the same order. |
| `HistoricoPage.FiltroVazioMostraTodas` | app/historico/page.tsx:17-20 | An empty filter shows every visit, in order. |
| `HistoricoPage.FiltroIgnoraCaixa` | app/historico/page.tsx:18-19 | Filtering with the lower-cased text shows the same visits as the text as typed. |
| `HistoricoPage.FiltroIndependeDaCaixa` | app/historico/page.tsx:17-20 | Two filter texts that differ only in ASCII case show the same visits. |
| `HistoricoPage.TotalIndependeDoFiltro` | app/historico/page.tsx:9-13 | For any two filters the page's total is the same, 3, because the seeded list is never replaced. |
| `HistoricoPage.FiltroLongoSemRegistros` | app/historico/page.tsx:85 | A filter longer than every name shows no record, and the "no records" message appears. |

## Left out

- Text.Lower: lower-cases ASCII letters only. JavaScript's `toLowerCase` also folds other letters (`Ã` to `ã`) and may change a string's length, so the model's search is case-insensitive only for ASCII.
- Text.Includes: strings are sequences of Unicode characters, not JavaScript's UTF-16 code units, so a search text that splits a surrogate pair is not modelled.
- RouteGuard.Route: the framework's translation of the matcher is not modelled: trailing slashes, a base path, locales and internal data routes. The pattern's `.*` is taken as any text, because a URL pathname cannot hold a raw line break.
- RouteGuard.Middleware: the redirect is given as the target pathname only. The absolute URL built from the request (its origin, and the fact that the query is dropped) is not modelled.
- Cookie expiry and the cookie's attributes are enforced by the browser, not by the guard, so "an expired cookie counts as absent" is not modelled. Issuing and deleting the session cookie happen outside the core files.
- Browser form validation (`required` on the name, document, room and bed inputs) is presentation. The handlers' own checks are modelled, so `InternarPaciente` does not check the bed.
- `Date.now()` and `toLocaleString("pt-BR")` are parameters. Nothing claims that ids are unique, since two calls in the same millisecond collide.
- The two-second timer is the separate method `ResetAposRegistro`. When it fires relative to other events is up to the caller.
- Discharge (`Alta`) exists as a status but no code sets it. The model keeps the status and proves that no handler produces it.
- app/actions.ts (database calls), app/dashboard/usuarios/page.tsx (user management) and app/page.tsx (a simulated login) are not part of this model. They are I/O plumbing with no decision logic.
- All markup, styling, icons and the rendering of lists and panels are not modelled. The history page's list, total and empty message are kept as the values `Exibir` returns.

