# Sistema Torrista — a verified model of the tower dashboard

Sistema Torrista is a dashboard for a network of radio towers ("torres").
The React front end lists the towers in a searchable, paginated table and
draws them on a simulated map. It edits them through a validated form, and
it keeps its in-memory list and statistics in step with the server after
each create, update or delete. The FastAPI back end stores towers in SQL
Server. Its update route builds a partial `UPDATE` from the fields the client
sent, its statistics route tallies towers per agreement type ("convenio"),
and every route wraps its body in a `try`/`except` that decides the status
the client sees.

This project models those rules in Dafny and proves what they guarantee.
Network and database results are parameters of the model. A request settles as
fulfilled or rejected. A query returns a row, no row, a list of rows, success or an
error dictionary, or raises because no connection could be opened. Every such
outcome is covered.

Modules, one file each:

| file | module | models |
|---|---|---|
| wrappers.dfy | `Wrappers` | `Option` |
| text.dfy | `Text` | ASCII `toLowerCase`/`lower`, `includes`, `trim`, `Number#toString` on ids, `?` counting and `str.join` |
| seqs.dfy | `Seqs` | `Array.prototype.filter` and the subsequence relation |
| towers.dfy | `Towers` | the tower record and the statistics record of backend/models.py |
| search.dfy | `Search` | the name/address/id search shared by table and map |
| torre_form.dfy | `TorreForm` | TorreForm.jsx: initial data, `validateForm`, `handleSubmit`, `handleChange` |
| torres_table.dfy | `TorresTable` | TorresTable.jsx: search filter, pagination, badges, page state |
| map_component.dfy | `MapComponent` | MapComponent.jsx: filters, marker colour and position, `clearFilters` |
| dashboard.dfy | `Dashboard` | App.js: the `Dashboard` state and its handlers, the "Resumen Rápido" counts |
| server.dfy | `Server` | backend/server.py: try/except outcomes, `update_torre`, `get_estadisticas` |

The form's `validateForm` is imperative. It fills `newErrors` in two blocks,
and a later assignment overwrites an earlier one. The model has one method
per block (`RequiredChecks`, `RangeChecks`), and `ValidateForm` runs both.
`App.js` holds state that its handlers update in sequence, so it is the
class `DashboardState`. The page state of the table is the class
`TableState`, and the form's `formData`/`errors` state is the class
`FormState`. The two modelled loops of `server.py` are the methods `BuildUpdate` and
`TallyConvenios`, each proved against a specification function.

Four behaviours of the code a reader might not expect:
- A failed tower load leaves the previous list in place, not an empty one. It is `[]` only on the first load.
- Deleting removes every tower with the target's id. The list is one shorter when ids are unique (`RemoveListedTower`).
- The table does not reset its page when the search narrows, so it can show an empty page with no pager (`StrandedPage`).
- A missing tower answers 500, not 404. The 404 raised inside each route's `try` is caught by its own `except Exception` (`GetTorre`, `DeleteTorre`, `UpdateTorre`).

## Model

| member | source | states |
|---|---|---|
| Text.LowerStr | frontend/src/components/Torres/TorresTable.jsx:65-66 | lower-casing keeps the length and maps each character on its own (ASCII letters only) |
| Text.LowerStrIdempotent | frontend/src/components/Torres/TorresTable.jsx:65-66 | lower-casing a lower-cased string changes nothing, which makes the search insensitive to the term's case (`Search.CaseInsensitive`) |
| Text.ContainsIff | frontend/src/components/Torres/TorresTable.jsx:65-67 | `includes` holds exactly when the needle occurs at some index of the string |
| Text.ContainsTrivial | frontend/src/components/Torres/TorresTable.jsx:65-67 | every string includes `""` and includes itself |
| Text.Contains | frontend/src/components/Torres/TorresTable.jsx:65-67 | `hay.includes(needle)`, tried at every start position; it holds only when the needle is no longer than the string |
| Text.TrimEmptyIff | frontend/src/components/Torres/TorreForm.jsx:67-69 | `trim()` gives `""` exactly when every character is white space |
| Text.Trim | frontend/src/components/Torres/TorreForm.jsx:67-69 | `s.trim()` is the block of `s` with only white space before and after it, and it neither starts nor ends with white space, which fixes it uniquely |
| Text.DecimalString | frontend/src/components/Torres/TorresTable.jsx:67 | `id.toString()` is a non-empty run of digits with no leading zero: a single digit below ten, and `"0"` is the only rendering that starts with `0` |
| Text.DecimalRoundTrip | frontend/src/components/Torres/TorresTable.jsx:67 | reading the decimal rendering back gives the id |
| Text.DecimalStringInjective | frontend/src/components/Torres/TorresTable.jsx:67 | two ids with the same rendering are equal |
| Text.CountCharAppend | backend/server.py:220 | `?`s of a concatenation are the sum of the parts' |
| Text.NoCharNoCount | backend/server.py:211 | a string without `?` counts none |
| Text.SumCountAppend | backend/server.py:220 | placeholder counts over a list of clauses add up across concatenation |
| Text.CountCharJoin | backend/server.py:220 | `', '.join(parts)` has as many `?`s as its parts together |
| Text.Join | backend/server.py:220 | `sep.join(parts)` starts with the first part followed by the separator, and ends with the last part |
| Text.JoinSnoc | backend/server.py:220 | one more part is joined after the separator, so with a single part joining to itself every part appears in order with the separator between neighbours |
| Seqs.Filter | frontend/src/components/Torres/TorresTable.jsx:64-68 | the result is no longer than the input and every element passes the predicate |
| Seqs.FilterAppend | backend/server.py:209-212 | filtering a concatenation filters each part |
| Seqs.FilterMembers | frontend/src/App.js:101 | an element is kept iff it is in the input and passes the predicate |
| Seqs.FilterSnoc | backend/server.py:209-212 | filtering one more element at the end appends it exactly when it passes |
| Seqs.FilterMultiplicity | frontend/src/App.js:101 | a passing element is kept as many times as it occurs, a failing one not at all |
| Seqs.FilterIsSubseq | frontend/src/components/Map/MapComponent.jsx:28-37 | the kept elements keep their relative order |
| Seqs.FilterKeepsAll | frontend/src/components/Map/MapComponent.jsx:28-37 | a predicate every element passes keeps the whole list |
| Seqs.DisjointCounts | frontend/src/App.js:249-261 | the counts of three mutually exclusive predicates add up to at most the length |
| Seqs.SubseqMembers | backend/server.py:209 | an element of a subsequence is an element of the whole |
| Seqs.SubseqDistinct | backend/server.py:209 | a subsequence of a list without repetitions has none either |
| Towers.Ids | frontend/src/App.js:137-141 | the id list has one entry per tower, in order, the ids the update compares against |
| Search.EmptyTermMatch | frontend/src/components/Torres/TorresTable.jsx:64-68 | the empty search matches exactly the towers with a name, an address or an id |
| Search.OwnIdMatches | frontend/src/components/Torres/TorresTable.jsx:67 | searching for a tower's own id finds it |
| Search.OwnNameMatches | frontend/src/components/Torres/TorresTable.jsx:65 | searching for a tower's name in any letter case finds it |
| Search.TextMatch | frontend/src/components/Torres/TorresTable.jsx:64-68 | the table's search test: lower-cased name or address includes the lower-cased term, or the decimal id includes the raw term; a tower with none of the three never matches |
| Search.CaseInsensitive | frontend/src/components/Torres/TorresTable.jsx:64-68 | the test gives the same answer for a term and its lower-cased form, the id branch included, since a decimal id only includes letter-free terms |
| TorreForm.FormData.With | frontend/src/components/Torres/TorreForm.jsx:117 | `{ ...prev, [field]: value }` changes that field and no other |
| TorreForm.InitialForm | frontend/src/components/Torres/TorreForm.jsx:31-62 | a new tower gives an all-empty form; an edited one gives each field's value, numbers through `toString`, and `''` for anything missing |
| TorreForm.AllFieldsComplete | frontend/src/components/Torres/TorreForm.jsx:15-27 | the form has exactly these eleven fields |
| TorreForm.ErrorSlots.ToMap | frontend/src/components/Torres/TorreForm.jsx:65-94 | a field is a key of `newErrors` exactly when its slot is set, with that message |
| TorreForm.RequiredChecks | frontend/src/components/Torres/TorreForm.jsx:67-74 | each required check sets its field's message exactly when the field is missing (trimmed for `nombre`/`direccion`, raw for the others), and sets nothing for the three optional fields |
| TorreForm.RangeChecks | frontend/src/components/Torres/TorreForm.jsx:76-92 | a NaN or out-of-range latitude, longitude or range overwrites that field's message; every other entry stays as it was |
| TorreForm.ValidateForm | frontend/src/components/Torres/TorreForm.jsx:64-95 | the keys are exactly the failing fields, each with its final message; the result is true iff the map is empty iff every field passes |
| TorreForm.NumericFieldRules | frontend/src/components/Torres/TorreForm.jsx:70-92 | with `parseFloat('')` NaN, a numeric field fails iff its range check fails, and then it carries the range message, never the "requerida" one |
| TorreForm.BlankTextRule | frontend/src/components/Torres/TorreForm.jsx:67-69 | `nombre` and `direccion` fail iff they hold only white space |
| TorreForm.NullIfEmpty | frontend/src/components/Torres/TorreForm.jsx:108-110 | `s \|\| null` is null iff `s` is empty, and otherwise `s` |
| TorreForm.SubmitPayload | frontend/src/components/Torres/TorreForm.jsx:103-111 | on a valid form: texts copied untrimmed and non-blank, numbers parsed and within their ranges, empty optionals null |
| TorreForm.ConformingTowerValidates | frontend/src/components/Torres/TorreForm.jsx:31-95 | the form opened on a tower that meets every rule passes validation untouched |
| TorreForm.FormState.constructor | frontend/src/components/Torres/TorreForm.jsx:15-29 | the form starts empty with no errors |
| TorreForm.FormState.Open | frontend/src/components/Torres/TorreForm.jsx:31-62 | opening sets the initial data and clears the errors |
| TorreForm.FormState.HandleChange | frontend/src/components/Torres/TorreForm.jsx:116-123 | only the edited field changes; its error, if truthy, becomes `''` with the key kept; other errors are unchanged |
| TorreForm.FormState.HandleSubmit | frontend/src/components/Torres/TorreForm.jsx:98-114 | the errors become the validator's map; the payload is handed on iff the form is valid, and it is the normalised one |
| TorresTable.FilteredTorres | frontend/src/components/Torres/TorresTable.jsx:64-68 | a tower is listed iff it matches the search; the listed towers keep their order |
| TorresTable.EmptySearchKeeps | frontend/src/components/Torres/TorresTable.jsx:59-68 | with an empty search box, a tower is listed iff it has a name, an address or an id |
| TorresTable.TotalPages | frontend/src/components/Torres/TorresTable.jsx:61-71 | the least number of 10-row pages that holds all rows |
| TorresTable.Slice | frontend/src/components/Torres/TorresTable.jsx:73 | `slice` clamps both ends to the length and is empty when the end is not past the start |
| TorresTable.Page | frontend/src/components/Torres/TorresTable.jsx:72-73 | a page holds at most 10 rows, the filtered rows from `(page-1)*10` on |
| TorresTable.PagesPrefix | frontend/src/components/Torres/TorresTable.jsx:71-73 | pages 1..k together are the first `10k` rows (or all of them) |
| TorresTable.PagesCoverFiltered | frontend/src/components/Torres/TorresTable.jsx:71-73 | reading every page in turn gives the filtered list back in order |
| TorresTable.PageSizes | frontend/src/components/Torres/TorresTable.jsx:71-73 | every page before the last is full; the last holds the remainder and is non-empty |
| TorresTable.PageBeyondLastIsEmpty | frontend/src/components/Torres/TorresTable.jsx:72-73 | a page past the last is empty |
| TorresTable.ShownRangeCountsRows | frontend/src/components/Torres/TorresTable.jsx:247 | on an existing page "Mostrando a–b de n", with `ShownFrom` = `startIndex + 1` and `ShownTo` = `Math.min(startIndex + itemsPerPage, n)`, counts exactly the rows shown; past the end b < a |
| TorresTable.StatusColor | frontend/src/components/Torres/TorresTable.jsx:16-31 | a known state's colours; anything else gets the `inactiva` colours |
| TorresTable.StatusLabel | frontend/src/components/Torres/TorresTable.jsx:23-32 | a known state's label; anything else gets "Desconocido" |
| TorresTable.StatusBadgeDefaults | frontend/src/components/Torres/TorresTable.jsx:15-35 | an unknown state looks like `inactiva` but is labelled apart; the four known colours differ |
| TorresTable.ConvenioColor | frontend/src/components/Torres/TorresTable.jsx:38-45 | the three agreement colours, gray for anything else |
| TorresTable.ConvenioLabel | frontend/src/components/Torres/TorresTable.jsx:46 | "N/A" iff the type is missing, empty or literally "N/A"; otherwise the type itself |
| TorresTable.TableState.constructor | frontend/src/components/Torres/TorresTable.jsx:59-60 | empty search, page 1 |
| TorresTable.TableState.Visible | frontend/src/components/Torres/TorresTable.jsx:64-73 | the body shows at most 10 rows, all matching the search |
| TorresTable.TableState.SetSearchTerm | frontend/src/components/Torres/TorresTable.jsx:127 | typing changes the search and leaves the page |
| TorresTable.TableState.PrevPage | frontend/src/components/Torres/TorresTable.jsx:253 | one page back, never below 1, reachable only while `PagerShown` (`totalPages > 1`, TorresTable.jsx:244) holds |
| TorresTable.TableState.NextPage | frontend/src/components/Torres/TorresTable.jsx:261 | one page on, never past the last page, reachable only while `PagerShown` (`totalPages > 1`) holds |
| TorresTable.StrandedPage | frontend/src/components/Torres/TorresTable.jsx:59-73 | with one page of matches and the page left at 2 or more, nothing is shown and no pager is drawn |
| MapComponent.MapFiltered | frontend/src/components/Map/MapComponent.jsx:28-37 | a tower is drawn iff it passes both the search and the agreement test; drawn towers keep their order and never outnumber the list |
| MapComponent.SearchMatch | frontend/src/components/Map/MapComponent.jsx:29-32 | a missing or empty search passes every tower; otherwise the table's test, insensitive to the term's case; a tower with no name, address or id passes only a missing or empty search |
| MapComponent.ConvenioMatch | frontend/src/components/Map/MapComponent.jsx:34 | a filter equal to the tower's own agreement type always passes it; a tower without a type passes only a missing, empty or `'all'` filter |
| MapComponent.SearchMatchAgainstTable | frontend/src/components/Map/MapComponent.jsx:29-32 | a non-empty search is the table's search; an empty or missing one passes every tower, even those the table's empty search drops |
| MapComponent.ConvenioFilterExact | frontend/src/components/Map/MapComponent.jsx:34 | an agreement filter other than `''`/`'all'` keeps exactly the towers of that exact type |
| MapComponent.ConvenioColor | frontend/src/components/Map/MapComponent.jsx:19-26 | the three agreement colours, `#6b7280` for anything else |
| MapComponent.ColoursAgreeOnUnknown | frontend/src/components/Map/MapComponent.jsx:25 | the map draws the default colour exactly when the table draws gray |
| MapComponent.MarkerX | frontend/src/components/Map/MapComponent.jsx:145 | the left offset is one of 20, 35, 50, 65 |
| MapComponent.MarkerY | frontend/src/components/Map/MapComponent.jsx:146 | the top offset is at least 20 |
| MapComponent.MarkerGrid | frontend/src/components/Map/MapComponent.jsx:145-146 | markers fill rows of four, left to right, each row 20 below the last |
| MapComponent.MarkerPlacement | frontend/src/components/Map/MapComponent.jsx:144-146 | later markers never sit higher, and no two markers share a spot |
| MapComponent.ClearedFiltersKeepAll | frontend/src/components/Map/MapComponent.jsx:39-45 | after `clearFilters` every tower is drawn |
| Dashboard.RemoveById | frontend/src/App.js:101 | exactly the towers with another id remain, in order |
| Dashboard.Overlay | frontend/src/App.js:139 | `{ ...t, ...formData, id: editingTorre.id }`: the id is forced, the audit columns are kept, and every field takes the submitted value, an optional field sent as null erasing the old one |
| Dashboard.OverlayKeepsOnlyAudit | frontend/src/App.js:139 | two towers with the same audit columns give the same overlaid tower: nothing else of the old tower survives |
| Dashboard.Refreshed | frontend/src/App.js:164-170 | a rejected statistics refresh keeps the previous snapshot; a fulfilled one replaces it, with a snapshot exactly when data came back |
| Dashboard.ApplyUpdate | frontend/src/App.js:137-141 | same length; towers with other ids unchanged; matching towers overlaid by the form data with the id forced |
| Dashboard.UpdateKeepsIds | frontend/src/App.js:137-141 | an update never adds, drops or renumbers a tower |
| Dashboard.RemoveListedTower | frontend/src/App.js:101 | with unique ids, deleting a listed tower shortens the list by exactly one |
| Dashboard.EditRoundTrip | frontend/src/App.js:137-141 | editing a conforming tower and saving it untouched gives the same tower back |
| Dashboard.CountEstado | frontend/src/App.js:249-261 | each status count is at most the number of towers |
| Dashboard.SummaryCountsBounded | frontend/src/App.js:244-261 | operativa + mantenimiento + inactiva never exceeds the total |
| Dashboard.DashboardState.constructor | frontend/src/App.js:21-29 | empty list, no statistics, loading, no form open |
| Dashboard.DashboardState.LoadInitialData | frontend/src/App.js:48-84 | each request settles on its own: a fulfilled list replaces the towers (`[]` for no data), a rejected one keeps them and is reported; fulfilled statistics replace the snapshot (`{}` for no data), rejected ones are silent; loading ends |
| Dashboard.DashboardState.HandleAddTorre | frontend/src/App.js:87-90 | opens an empty form; nothing else changes |
| Dashboard.DashboardState.HandleEditTorre | frontend/src/App.js:92-95 | opens the form on the tower; nothing else changes |
| Dashboard.DashboardState.HandleDeleteTorre | frontend/src/App.js:97-125 | unconfirmed: nothing; success: the tower removed, a statistics refresh that may fail harmlessly; failure: list and snapshot unchanged, an error notice |
| Dashboard.DashboardState.HandleFormSubmit | frontend/src/App.js:127-184 | update: patch in place; create: a wholesale reload, whose failure counts as a failed save; success closes the form and refreshes statistics; failure changes nothing but adds a notice; the busy flag ends false |
| Server.Caught | backend/server.py:158-160 | every failure outcome, an `HTTPException` with any status included, becomes status 500 with the generic detail, and a success passes through unchanged |
| Server.GetTorreBody | backend/server.py:152-157 | the `try` body raises 404 for no row and returns a row or an error dictionary, the two truthy results |
| Server.CreateTorreBody | backend/server.py:174-185 | the `try` body succeeds exactly when the insert does, and raises 500 with the database message on a query error |
| Server.DeleteTorreBody | backend/server.py:236-253 | the `try` body raises 404 for a missing tower before any delete, raises 500 with the database message on a failed delete, and succeeds exactly when the check is truthy and the delete succeeds |
| Server.CreateTecnicoBody | backend/server.py:361-375 | the `try` body succeeds exactly when the insert does, and raises 400 exactly for an error whose lower-cased text includes "duplicate key" |
| Server.GetTorre | backend/server.py:141-160 | `Truthy` is Python's truth of the fetched value (a row or an error dictionary), as `if not torre` tests it; a missing tower or a lost connection answers 500; a found row is returned; a query error is returned with status 200 as the error dictionary |
| Server.CreateTorre | backend/server.py:162-189 | success exactly when the insert succeeds; a query error or a lost connection answers 500 with the generic detail |
| Server.DeleteTorre | backend/server.py:232-257 | a missing tower or a lost connection answers 500; a failed existence query is `Truthy` (`if not existing_torre` lets it through) and lets the delete run; success exactly when the check is truthy and the delete succeeds |
| Server.CreateTecnico | backend/server.py:350-379 | success exactly when the insert succeeds; every failure, a lost connection included, answers 500 |
| Server.DuplicateDniHidden | backend/server.py:367-379 | the duplicate-DNI 400 is raised but the client gets 500 |
| Server.TextItem | backend/server.py:209 | a text field contributes one pair iff it was sent, under its own name |
| Server.RealItem | backend/server.py:209 | a number field contributes one pair iff it was sent, under its own name |
| Server.Piece | backend/models.py:23-35 | the pair for the k-th `TorreUpdate` field, if any, carries that field's name |
| Server.Names | backend/server.py:209 | the field names of the sent pairs, in order |
| Server.ExplicitItems | backend/server.py:209 | `exclude_unset` items: the sent fields in declaration order, none twice |
| Server.ExplicitItemsSent | backend/server.py:209 | a column is among the items exactly when the client sent that field |
| Server.Kept | backend/server.py:209-212 | the SET list takes exactly the sent fields other than `UsuarioActualizadorID`, in order |
| Server.KeptMultiplicity | backend/server.py:209-212 | each sent field other than `UsuarioActualizadorID` is kept as often as it was sent, the updater id never |
| Server.KeptSnoc | backend/server.py:209-212 | one more sent field adds one clause unless it is the updater id |
| Server.Clauses | backend/server.py:211 | one `field = ?` per kept field, in order |
| Server.Values | backend/server.py:212 | one parameter per kept field, its value, in order |
| Server.BuildUpdate | backend/server.py:206-212 | the loop yields the clauses and parameters of the kept fields |
| Server.UpdateSql | backend/server.py:220 | the f-string starts with `UPDATE Torres SET ` and holds one `?` more than its SET list, the one of `WHERE id = ?` |
| Server.UpdateTorre | backend/server.py:191-230 | a check that is not `Truthy` (missing tower) or a lost connection on it: 500 and no statement; nothing but the updater id sent: no statement and success; otherwise the clauses then `fecha_actualizacion = GETDATE()` then `UsuarioActualizadorID = ?`, parameters ending with the updater id and the tower id, success iff the statement succeeds; placeholders match parameters |
| Server.ColumnsHaveNoPlaceholder | backend/server.py:211 | no sent field name contains `?` |
| Server.ClausePlaceholders | backend/server.py:211 | each clause carries exactly one placeholder |
| Server.PlaceholdersMatch | backend/server.py:211-220 | the `?`s of the generated UPDATE are exactly as many as its parameters |
| Server.LastCountAbsent | backend/server.py:401-412 | an agreement type no row carries keeps its counter at 0 |
| Server.LastRowWins | backend/server.py:401-412 | the last row of an agreement type sets its counter |
| Server.LastCount | backend/server.py:401-412 | the counter the loop leaves for an agreement type is 0 or the count of a row of that type |
| Server.CountOrZero | backend/server.py:392 | `x.get('total', 0) if x else 0`: the fetched count, or 0 for no row or an error dictionary |
| Server.TallyConvenios | backend/server.py:401-412 | the loop leaves each agreement counter at the count of the last row of that type, 0 if none |
| Server.GetEstadisticas | backend/server.py:383-443 | a failed list query or a lost connection on any of the four queries answers 500; otherwise the counters are the last matching rows' counts, and total and visited default to 0 for no row or an error |
| Server.LastCountIsGroupCount | backend/server.py:395-412 | with grouped rows, each counter is 0 or the number of towers of that type |
| Server.GroupedTallyBounded | backend/server.py:388-412 | with grouped rows, the three agreement counters add up to at most the number of towers |
| Server.GroupedStatsBounded | backend/server.py:388-419 | when `total_torres` counts the grouped towers, the returned agreement counters add up to at most `total_torres` |

## Left out

- frontend/src/services/api.js is not part of this model. It holds the HTTP client, the token in `localStorage`, the redirect on 401 and the timeout. Each request's outcome is a parameter instead (`Response`, `FetchOne`, `FetchAll`, `Exec`).
- backend/database.py is not part of this model. `execute_query`'s results are parameters. They are a row, no row, a list of rows, success, an `{"error": ...}` dictionary, or the plain `Exception` `get_db` raises when no connection opens (`FetchRaised`, `RowsRaised`, `ExecRaised`). Other exceptions from inside the driver are not told apart from that one; every route answers them with the same 500.
- `Promise.allSettled` and async interleaving are left out. Each handler runs to completion with the outcomes it is given.
- Toasts are recorded as a list of notices. Their timing and display are left out, as are `console.error`, `scrollIntoView`, `selectedTorre`/`handleViewOnMap` and the simulated map-load timer.
- The catch-all "Error conectando con el servidor" toast of `loadInitialData` cannot be reached with settled promises, so it is not modelled.
- `parseFloat` and `Number#toString` are parameters. `parseFloat('')` being NaN is a hypothesis where a lemma needs it. Real-number round trips are not proved.
- TorreForm.RangeChecks / TorreForm.SubmitPayload: the parser yields NaN or a finite real, so infinite parses (`"Infinity"`, `"1e400"`) are not modelled. In JavaScript such an `alcance_km` passes the `> 0` check, and `JSON.stringify` sends it as `null`.
- TorreForm.NumericFieldRules: holds only under the hypothesis `parseFloat('') == NaN`, which JavaScript guarantees but the abstract parser does not.
- Text.LowerStr: only ASCII letters are lower-cased. JavaScript's `toLowerCase` and Python's `lower` also map accented and other Unicode letters.
- Text.TrimEmptyIff: the white-space set is space, tab, line feed, carriage return, vertical tab, form feed, no-break space and the byte-order mark, a subset of what JavaScript's `trim` removes.
- Text.Trim: strips only that same white-space set, so a string framed by other Unicode space characters is trimmed less than JavaScript would.
- Object lookups such as `statusColors[estado]` are modelled on the literal keys only. Prototype keys (`"constructor"`, `"toString"`) are left out.
- The `loading` render branches, JSX markup and the select option lists of the form are left out. The validator never checks membership in those lists.
- The coverage area (`cobertura_km2`: `math.pi`, squaring and `round`) is floating point. It is a parameter of `GetEstadisticas`, and its own query failing is modelled only through the `alcances` result.
- Server.GetEstadisticas: pydantic's conversion of the response record is left out. Counts are taken as naturals.
- pydantic request validation (422 responses) is left out. The update body's fields are taken as already typed.
- The login/register routes, the maintenance and technician list routes, `get_torres` and the `auth` module are not part of this model. They hold SQL text and library calls but no branching of interest.
- The `mapFilters` state of `App.js` is not a field of `DashboardState`. The map's filter object is a parameter of `MapFiltered`, and `ClearedFilters` is the object `clearFilters` hands back.
- StatsCards.jsx and Navbar.jsx are presentation only and are not modelled.
- Server.UpdateTorre: the SQL is modelled as text. Its execution, `GETDATE()` and the parameter binding by the driver are left out.
