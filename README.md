# Kivo attendance: a Dafny model of the marking rules, the company access rules and the two client views of attendance

Kivo is a time-and-attendance system. Workers clock in (`entrada`) and out (`salida`) from a mobile app. HR staff resolve vacation and leave requests and manage users from a web console. A Django backend holds the data. This project models three parts of it in Dafny and proves properties about them.

- **Backend views** (`Backend_Kivo/Kivo_Asistencia/login/views.py`). These cover:
  - which companies a user is authorised for (`empresas_autorizadas_ids`, `empresa_permitida`, `TieneAccesoEmpresaPermission`);
  - the attendance status and the mark rules of `AsistenciasView`;
  - the two approval views;
  - the audit rows written when a user is created or updated.

  The pure rules are the modules `Access` and `Marks`. The views that change tables are methods of the class `Backend.Backend`. Its fields are the mark table, the two request tables, the user ids and the audit table.
- **Mobile marking screen** (`App_Movil/app/marcas.js`), module `Countdown`. It has:
  - `formatTime`;
  - the greeting, company and shift texts;
  - the class `MarcasScreen`, which holds the screen's state and the timer that counts the remaining shift down once per second.

  One effect run, one tick and one network round trip are single method calls. Replies are parameters.
- **Web attendance history** (`Pagina_Web/src/pages/Asistencias.jsx`), module `AttendanceFilter`. It models the text filter over the records, the clear button, and the placeholder row shown when nothing matches.

Shared modules:
- `Common` holds option and result types, the API error and Python truthiness of request values.
- `Text` holds decimal digits, `trim`, `toLowerCase` and `includes`.
- `Entities` holds users, workers, shifts and company links.

Instants and times of day are integers in microseconds. A day is the closed range `[dayStart, dayEnd]`.

## Model

| member | source | states |
|---|---|---|
| Access.LinkedCompanies | Backend_Kivo/Kivo_Asistencia/login/views.py:53-57 | A company id is listed exactly when some link of the user carries it with a role the filter admits; the empty filter admits every role. |
| Access.AuthorizedIds | Backend_Kivo/Kivo_Asistencia/login/views.py:40-61 | A worker-role user with a worker file gets at most one company. It is nothing when the filter leaves out the worker role, and otherwise the file's company when that is set. Any other user gets the linked companies, in order, as a prefix, and the list is exactly one longer than the linked companies when the worker file's company is set and not linked, and as long otherwise. That company then occurs exactly once. |
| Access.EmpresaPermitida | Backend_Kivo/Kivo_Asistencia/login/views.py:64-67 | A missing id is never permitted. Otherwise the answer is access to that id under the role filter. |
| Access.ParseInt | Backend_Kivo/Kivo_Asistencia/login/views.py:88-91 | `int()` of a query value. A text is accepted exactly when it is all digits, or a `-` or `+` followed by at least one digit and nothing but digits. The value is the digits' decimal value, negated after `-`. |
| Access.IntToString | Backend_Kivo/Kivo_Asistencia/login/views.py:88-91 | The decimal text of an id as a query string carries it: never empty, starting with `-` exactly for a negative id, and digits only otherwise. |
| Access.ParseIntOfIntToString | Backend_Kivo/Kivo_Asistencia/login/views.py:88-91 | Every integer id written in decimal is read back by `int()` as the same id. |
| Access.RequestedCompany | Backend_Kivo/Kivo_Asistencia/login/views.py:84 | A non-empty query parameter wins over the URL argument. The id is absent only when both are missing or empty. |
| Access.HasPermission | Backend_Kivo/Kivo_Asistencia/login/views.py:79-93 | An anonymous user is refused. Without an id, the user is admitted exactly when they have at least one authorised company. A query id that is not an integer is refused. With an id, an authenticated user is admitted exactly when the id reads as an integer that is among the user's authorised companies. |
| Marks.MarksToday | Backend_Kivo/Kivo_Asistencia/login/views.py:133-137 | A mark is among today's marks exactly when it is in the log, belongs to the worker and lies within the day. |
| Marks.MarksTodayAppend | Backend_Kivo/Kivo_Asistencia/login/views.py:240 | A newly recorded mark extends today's marks by itself exactly when it is the worker's and lies in today. |
| Marks.LastTimestamp | Backend_Kivo/Kivo_Asistencia/login/views.py:141-146 | `.last()` on the time-ordered marks of one kind. The result is `None` exactly when there is no mark of that kind; otherwise it is the instant of such a mark and no mark of that kind is later. |
| Marks.LastTimestampAppend | Backend_Kivo/Kivo_Asistencia/login/views.py:240 | How one more mark changes the last instant of each kind. |
| Marks.LastEntryAfterLastExitIff | Backend_Kivo/Kivo_Asistencia/login/views.py:139-148 | The last `entrada` is later than the last `salida` (or there is no `salida`) exactly when some `entrada` of the day is strictly later than every `salida` of the day. |
| Marks.EntradaActiva | Backend_Kivo/Kivo_Asistencia/login/views.py:139-148 | An entry is open exactly when some `entrada` of the day is strictly later than every `salida` of the day. |
| Marks.SegundosRestantes | Backend_Kivo/Kivo_Asistencia/login/views.py:150-161 | The result is 0 without a shift or without an open entry. Otherwise it is the whole number of seconds from now to the shift's end today, clamped at 0 (the floor bounds are stated). |
| Marks.ParseTipo | Backend_Kivo/Kivo_Asistencia/login/views.py:194-199 | Only the strings `entrada` and `salida` are accepted kinds, each mapped to its own kind. |
| Marks.EntradaRefusal | Backend_Kivo/Kivo_Asistencia/login/views.py:212-222 | An `entrada` is refused exactly when some `entrada` of the day is strictly later than every `salida`, and the only refusal is the "entrada activa" error. |
| Marks.SalidaRefusal | Backend_Kivo/Kivo_Asistencia/login/views.py:224-238 | A `salida` is refused with "no entry" exactly when the day has no `entrada`. It is refused at all exactly when the day has no `entrada` or some `salida` is later than every `entrada`, and every other refusal is the "later salida" error. |
| Marks.EntradaRefusedIffActive | Backend_Kivo/Kivo_Asistencia/login/views.py:212-222 | The POST refuses an `entrada` exactly when the GET reports an open entry, with the "entrada activa" error. |
| Marks.SalidaAcceptance | Backend_Kivo/Kivo_Asistencia/login/views.py:224-238 | A `salida` is accepted whenever an entry is open. When it is accepted without an open entry, the last `entrada` and the last `salida` share the same instant. |
| Marks.AcceptedMarkSetsStatus | Backend_Kivo/Kivo_Asistencia/login/views.py:212-240 | For marks at increasing instants, an accepted `entrada` leaves the day with an open entry and an accepted `salida` leaves it without one. |
| Marks.AcceptedMarkSetsStatusOfLog | Backend_Kivo/Kivo_Asistencia/login/views.py:206-240 | The same, stated on the whole mark table through `MarksToday`. |
| Backend.ResolveGuard | Backend_Kivo/Kivo_Asistencia/login/views.py:389-406 | The guards run in order: role 403, missing request 404, company 403, any action other than `aceptar`/`rechazar` 400. The call succeeds exactly when all four pass, and then yields `aceptado` for `aceptar` and `rechazado` for `rechazar`, never `pendiente`. |
| Backend.ResolveIgnoresCurrentState | Backend_Kivo/Kivo_Asistencia/login/views.py:389-409 | The request's current state plays no part in the decision, so a resolved request can be resolved again. |
| Backend.ResolverName | Backend_Kivo/Kivo_Asistencia/login/views.py:419-423 | The resolver's name is the worker's first names, one space and the surnames; a user without a worker file is named by their e-mail. |
| Backend.AuditTargets | Backend_Kivo/Kivo_Asistencia/login/views.py:537-540 | An update is always audited under at least one company entry. |
| Backend.UpdateEntries | Backend_Kivo/Kivo_Asistencia/login/views.py:537-548 | There is one audit row per company id, in order, or a single row with no company when the list is empty. Every row carries the actor, the action, the model, the user and the reason. |
| Backend.FirstCompany | Backend_Kivo/Kivo_Asistencia/login/views.py:494-499 | The first of `empresas_ids` when that list is non-empty; otherwise `empresa_id` exactly when it is truthy. |
| Backend.Backend.constructor | Backend_Kivo/Kivo_Asistencia/login/models.py:45-85 | The tables start as given. |
| Backend.Backend.Estado | Backend_Kivo/Kivo_Asistencia/login/views.py:119-184 | Without a worker file the answer is the 400 error. Otherwise it gives the open-entry flag computed on today's marks of the table, the shift's end time exactly when there is a shift, and `SegundosRestantes` of that end time, the flag and `now`, so the seconds are 0 without an open entry or a shift. |
| Backend.Backend.Marcar | Backend_Kivo/Kivo_Asistencia/login/views.py:186-242 | The checks run in order: worker file, then kind, then that kind's refusal on today's marks. On success exactly one mark for the worker at `now` is appended to the table; on any error the table is unchanged. |
| Backend.Backend.ResolverVacaciones | Backend_Kivo/Kivo_Asistencia/login/views.py:389-432 | It succeeds exactly when the guard does. On success only request `pk` changes (new state, resolver, instant), one audit row `<accion>_vacaciones` is appended and the answer names the resolver. On error the tables are unchanged. |
| Backend.Backend.ResolverLicencia | Backend_Kivo/Kivo_Asistencia/login/views.py:438-481 | The same as for vacations. The audit row `<accion>_licencia` carries the request's reason. |
| Backend.Backend.CrearUsuario | Backend_Kivo/Kivo_Asistencia/login/views.py:487-511 | A caller who is not an HR admin gets 403, and invalid data gets 400; both leave the tables unchanged. On success the user is added, and one `crear_usuario` row is written only when the first company is truthy. |
| Backend.Backend.ActualizarUsuario | Backend_Kivo/Kivo_Asistencia/login/views.py:523-548 | The order is 403, then 404, then 400, and any error leaves the audit table unchanged. On success the audit table grows by exactly `UpdateEntries`, which the loop writes one row at a time. |
| Countdown.SplitTime | App_Movil/app/marcas.js:27-30 | Hours, minutes and seconds recombine to the total, with minutes and seconds below 60. |
| Countdown.PadStart2 | App_Movil/app/marcas.js:31 | `padStart(2, "0")`: the text is kept as its suffix, preceded only by zeros, and the width is at least 2. |
| Countdown.FormatTime | App_Movil/app/marcas.js:27-33 | The text ends in `:MM:SS` with two-character minutes and seconds after an hour field of at least two characters. Below 100 hours it is exactly `DD:DD:DD`, its three fields show the whole hours, the minutes (below 60) and the seconds (below 60) of `SplitTime`, and it reads back as the same number of seconds. |
| Countdown.NextTick | App_Movil/app/marcas.js:70-76 | The updater takes one second off a positive value and yields 0 otherwise. |
| Countdown.AfterTicksValue | App_Movil/app/marcas.js:63-84 | After `n` ticks from `t`, the value is `t - n`, or 0 once `n` reaches `t`. |
| Countdown.DisplayName | App_Movil/app/marcas.js:116-121 | The greeting name is never empty and never starts or ends with whitespace. It is `Usuario` when the joined `"nombre apellidos"` is blank, and otherwise the trimmed joined text: a slice of it with only whitespace around it. |
| Countdown.ShiftText | App_Movil/app/marcas.js:127-133 | The text is empty exactly unless both shift hours are present; otherwise it is `entrada - salida`. |
| Countdown.ApplyEstado | App_Movil/app/marcas.js:110-133 | A successful status reply sets the open-entry flag and the seconds (0 when absent). The name becomes the reply's greeting name and the company the reply's company name; both are kept when the reply lacks them, and an empty company name becomes `TU EMPRESA`. The shift line is always recomputed from the reply. |
| Countdown.EnabledButtonAccepted | App_Movil/app/marcas.js:202 | While the screen's flag matches the server's, the action whose button is enabled is one the server accepts. |
| Countdown.MarcasScreen.constructor | App_Movil/app/marcas.js:18-25 | The initial state is 0 seconds, no open entry, `Usuario`, `TU EMPRESA`, no shift text and no timer. |
| Countdown.MarcasScreen.RunCountdownEffect | App_Movil/app/marcas.js:63-84 | Afterwards a single fresh timer runs exactly when an entry is open and time remains; otherwise none runs. |
| Countdown.MarcasScreen.Tick | App_Movil/app/marcas.js:69-77 | One firing takes one second off. At 0 no timer is left running; above 0 exactly one fresh timer runs. |
| Countdown.MarcasScreen.FetchEstado | App_Movil/app/marcas.js:86-137 | Without a token, on a thrown call or on a non-ok reply nothing changes. Otherwise the state becomes `ApplyEstado` of the reply, and the one-timer invariant holds afterwards. |
| Countdown.MarcasScreen.Marcar | App_Movil/app/marcas.js:139-172 | Each failure path shows its own alert and leaves the state and the timers as they were. An ok reply refreshes the state from the status reply and confirms the mark. |
| Countdown.MarcasScreen.DisabledButtons | App_Movil/app/marcas.js:196-215 | Exactly one of the two buttons is disabled: ENTRADA while an entry is open, SALIDA otherwise. |
| Countdown.MarcasScreen.Unmount | App_Movil/app/marcas.js:57-59 | Leaving the screen stops every timer. |
| AttendanceFilter.Filtered | Pagina_Web/src/pages/Asistencias.jsx:13-16 | A record is shown exactly when it is among the records and matches (name ignoring case, or date). Each matching record is kept with its multiplicity, and nothing else is. |
| AttendanceFilter.Matches | Pagina_Web/src/pages/Asistencias.jsx:13-16 | The empty filter matches every record. A name or date that contains the filter exactly as typed matches; the name also matches ignoring case. A matching filter is no longer than the name or the date. |
| AttendanceFilter.FilteredAppend | Pagina_Web/src/pages/Asistencias.jsx:13-16 | Filtering distributes over concatenation, so records keep their relative order. |
| AttendanceFilter.FilteredIdempotent | Pagina_Web/src/pages/Asistencias.jsx:13-16 | Filtering twice by the same text is the same as filtering once. |
| AttendanceFilter.EmptyFilterKeepsAll | Pagina_Web/src/pages/Asistencias.jsx:11-16 | The empty filter shows every record. |
| AttendanceFilter.NarrowerFilterKeepsFewer | Pagina_Web/src/pages/Asistencias.jsx:13-16 | A filter text that contains a shorter one never shows a record the shorter text hid. |
| AttendanceFilter.DateFilterOnInitial | Pagina_Web/src/pages/Asistencias.jsx:3-16 | On the initial records, the filter `2025-10-13` shows exactly the two records of that day. |
| AttendanceFilter.Mount | Pagina_Web/src/pages/Asistencias.jsx:10-11 | The first render holds the initial records and an empty filter, so it shows all the initial records. |
| AttendanceFilter.OnChange | Pagina_Web/src/pages/Asistencias.jsx:22 | Typing replaces the filter text and leaves the records. |
| AttendanceFilter.Clear | Pagina_Web/src/pages/Asistencias.jsx:23 | `Limpiar` empties the filter and keeps the records, so every record shows again. |
| AttendanceFilter.TableBody | Pagina_Web/src/pages/Asistencias.jsx:32-45 | The placeholder line appears exactly when no record matches. Otherwise there is one line per shown record, in order, holding its name, date, time, kind, place and modifier. |
| Text.Trim | App_Movil/app/marcas.js:119 | `trim()`: the result is a slice of the input with only whitespace before and after it, has no whitespace at either end, and is empty exactly when the input is all whitespace. |
| Text.TrimUnique | App_Movil/app/marcas.js:119 | Any slice with only whitespace around it and none at its own ends is the trimmed text, so `trim()` is determined by what it promises. |
| Text.Lower | Pagina_Web/src/pages/Asistencias.jsx:14 | `toLowerCase()` maps each character in place and keeps the length. |
| Text.LowerIdempotent | Pagina_Web/src/pages/Asistencias.jsx:14 | Lower-casing twice equals lower-casing once. |
| Text.ContainsIffOccurs | Pagina_Web/src/pages/Asistencias.jsx:14-15 | `includes` holds exactly when the text occurs as a contiguous slice at some index. |
| Text.Contains | Pagina_Web/src/pages/Asistencias.jsx:14-15 | `includes`: the empty text is contained in every text, and a contained text is no longer than the text containing it. |
| Text.ContainsLower | Pagina_Web/src/pages/Asistencias.jsx:14 | A text contained in another is still contained after lower-casing both. |
| Text.DigitsValueOfNatToString | App_Movil/app/marcas.js:31 | The decimal spelling of a number reads back as that number. |
| Text.NatToString | App_Movil/app/marcas.js:31 | `String(n)` for a natural number: at least one character, all decimal digits, one character exactly below 10 and two from 10 to 99. |
| Text.NatToStringNoLeadingZero | App_Movil/app/marcas.js:31 | `String(n)` has no leading zero: the spelling starts with `0` only for 0 itself. |

## Left out

- `Usuario.tiene_acceso_empresa` is not part of this model; `models.py` does not define it. The user/company link table is modelled as each user's list of links (`Entities.Link`, `User.links`), read by `Access.LinkedCompanies` as `views.py` lines 53-57 read it. Access to a company is taken to mean that the id is set and among `empresas_autorizadas_ids(user, roles)` (`Access.HasCompanyAccess`).
- Access.ParseInt: covers only an optional sign followed by ASCII digits. Python's `int()` also accepts surrounding whitespace, `_` separators and non-ASCII digits; these are not modelled.
- The `Vacaciones` and `Licencia` models shown have no `estado`, `resuelto_por` or `resuelto_en` fields, and `AuditoriaCambio` has no company field. The model follows the views, which write all of these.
- The approval views do not check that a request is still pending. The model follows the code: `Backend.ResolveIgnoresCurrentState` states that the current state is ignored.
- The history filter matches the date with `includes`, that is, by substring, not by exact date. There is no category filter and no CSV export in `Asistencias.jsx`. The model follows the code.
- Time zones, `localdate` and daylight-saving shifts are left out. The day is given as `[dayStart, dayEnd]`, and the shift end is `dayStart` plus the end time of day.
- Marks.SegundosRestantes: models `int(diff.total_seconds())` on exact integer microseconds, not on floating point.
- Backend.Backend.Estado: the display fields of the reply (server time, worker name and post, shift name, company name) are not modelled.
- Serializer validation and saving are not modelled. Their outcome is a parameter (`created`, `saved`), and their field errors become a 400 with an empty detail.
- The ORM, HTTP routing, JWT authentication and the token store are left out. Authentication is a boolean and the token's presence is a boolean.
- AttendanceFilter.Matches: its contract states consequences of a match (the empty filter, an exact-case occurrence, the length bound); the match itself, name ignoring case or date as typed, is its definition, which `AttendanceFilter.Filtered` states membership against.
- Text.Lower: lower-cases ASCII and Latin-1 capitals only; the rest of Unicode case mapping is not modelled.
- Text.Trim: removes ASCII whitespace and U+00A0, U+FEFF, U+2028 and U+2029, not every Unicode space separator.
- `fechaTexto` (the localised date line), the `Sin turno asignado` fallback, styles, tabs and console logging of the mobile screen are display only and not modelled.
- Countdown.FormatTime: states the exact `DD:DD:DD` text, its fields and the round trip only below 100 hours. Above that the hour field is wider, and only the position of the two `:` separators is stated.
- Concurrency is not modelled: overlapping requests, and state updates interleaving with an in-flight `fetchEstado`. Each method runs to completion.
