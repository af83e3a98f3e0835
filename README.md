# Slottix warehouse slotting: a Dafny model of its data rules

Slottix is a Flask back end that keeps the location master of a warehouse
(TblEmplacement: zone, aisle, bay and level, coordinates, dimensions,
location types, pictogram and palette flag). It also keeps the reference
tables around that master and the primary and secondary picking routes
drawn over it. Behind its SQL strings sit small sequential rules. This
project states those rules in Dafny over in-memory tables and proves what
they guarantee.

The modules follow the three source files:

- `app.py`
  - `Importer` models the upload checks of `param_import`: the extension gate,
    column-name normalisation, the schema filter, per-column coercion and the
    CSV encoding and delimiter fallback.
  - `Sync` models the import decision and the background synchronisation of
    TblEmplacement.
  - `Locations` models the cleaning of the batch, the conditional MERGE and
    the COALESCE bulk update. `LocationStore` holds the location table as an
    object.
  - `History` models the import-history log and its pending entries.
  - `Reference` models location types and circuit groups.
  - `SalesEvents` models exceptional-sales events, the `COALESCE(MAX(id), 0) + 1`
    numbering and the product-family options.
- `detail_emplacement.py`
  - `Filters` models `_is_number`, `_filters_from_args`,
    `_build_where_and_params` (conditions as tags, with their parameters) and
    the type hierarchy.
  - `BulkRequests` models the rows and SET clauses the two update endpoints
    build.
  - `LocationStore` models the endpoints themselves.
- `routes.py`
  - `Labels` models the `zone-AAA-DDDD-NN` label and `parse_emp`.
  - `Routes` models `api_lists`, `add_route_simple` and `update_route_simple`.
  - `RouteGen` models the secondary-route generator `_create_routes_secondaires`.
- Shared modules
  - `Text` holds Python's string primitives: `strip`, `lower`, `split`,
    `int()`, `str(int)` and `zfill`. Whitespace is Python's, and `int()` skips
    less of it than `strip()` does.
  - `Values` holds JSON request values, Python truthiness,
    `_as_int_or_none` and BigQuery's binding of an INT64 parameter.
  - `Ordering` holds `sorted(set(...))`.
  - `Wrappers` holds `Option`.

Code that changes state step by step is imperative Dafny. Classes hold the
tables the handlers update: `LocationTable`, `Dataset`, `ImportLog`,
`LocationTypes`, `CircuitGroups`, `RefEvents` and `RouteTables`. Methods with
loops are proved against specification functions, and lemmas state what
those functions guarantee. The main guarantees are these:

- Normalised column names are well formed, and normalising is idempotent.
- Cleaning leaves distinct keys, keeping the last row per key.
- The MERGE patches with COALESCE, inserts exactly the unmatched rows and is
  idempotent.
- The history log only closes pending entries of the file.
- Groups keep circuits exclusive.
- Sales events accept exactly one of Evolution and Qte_en_plus.
- The where-builder binds every placeholder.
- `parse_emp` reads a label back exactly when its zone has no `-` and its
  numbers are non-negative.
- The route update sets exactly the whitelisted body fields.
- The generator emits `2·N − G` segments, each a spur of a selected location
  or a link between neighbouring bays.

The staging table of the synchronisation is deleted only on the
success path (app.py:200-201 sit inside the `try`), so a failed MERGE leaves
it in place. `Sync.Dataset.SynchroniseLocations` states exactly that.

## Model

| member | source | states |
|---|---|---|
| Importer.AfterLastDot | app.py:84-85 | the extension `rsplit('.', 1)[1]` takes never holds a dot |
| Importer.AfterLastDotOfJoin | app.py:84-85 | the extension of `stem.ext` is `ext`, whatever dots the stem holds |
| Importer.AllowedFileOfJoin | app.py:84-85 | `allowed_file` accepts `stem.ext` exactly when the lower-cased `ext` is csv, xlsx, xls or txt, and refuses a name without a dot |
| Importer.ReaderForExtensions | app.py:279-309 | each lower-case accepted extension selects its reader (CSV, Excel, tab-separated); an upper-case `.CSV` passes the gate but finds no reader |
| Importer.NormalizeIsNormal | app.py:314-321 | every normalised column name holds only `[0-9A-Za-z_]`, has no `__` and no `_` at either end |
| Importer.NormalizeFixesNormal | app.py:314-321 | a name already in that form is left unchanged |
| Importer.NormalizeIdempotent | app.py:314-321 | normalising twice gives the same name as normalising once |
| Importer.CollapseFacts | app.py:319 | collapsing runs of `_` adds no character, leaves no `__` and keeps the first character |
| Importer.CollapseNoop | app.py:319 | a name without `__` is unchanged by the collapse |
| Importer.KeepColumns | app.py:327 | a column is kept exactly when it is a file column and a schema field |
| Importer.KeepColumnsAppend | app.py:327 | the filter keeps file order: filtering a concatenation concatenates the filtered parts |
| Importer.SelectedLabels | app.py:332 | the positions `df[keep_cols]` picks carry exactly the kept labels, in file order |
| Importer.SelectColumns | app.py:332 | the selected frame is rectangular, has as many rows as the file and exactly the kept columns |
| Importer.ToNumeric | app.py:336-337 | `to_numeric(errors='coerce')` never leaves a string behind |
| Importer.ToNumericIdempotent | app.py:336-337 | coercing an already coerced cell changes nothing |
| Importer.Stringify | app.py:340 | `fillna("").astype(str)` always yields a string |
| Importer.CoerceFrame | app.py:334-340 | the two coercion loops produce the frame `Coerced` describes, and raise `pd.to_numeric`'s TypeError exactly when a numeric field labels two columns |
| Importer.NumericColumnMeaning | app.py:336-337 | `pd.to_numeric` on a column leaves no string, keeps booleans only in a column of nothing else and turns them into 1 and 0 beside a number or a gap, and coerces every other cell as `ToNumeric` does |
| Importer.NumericColumnIdempotent | app.py:336-337 | coercing a coerced column changes nothing |
| Importer.ParseNumericFields | app.py:334-337 | the first loop raises exactly when a numeric schema field labels two columns; otherwise every present numeric field is coerced as a column (`NumericColumn`) and every other column is unchanged |
| Importer.StringifyObjectColumns | app.py:339-340 | the second loop stringifies exactly the columns pandas typed `object` when `select_dtypes` was evaluated (a string, or a boolean beside a number or a gap), leaving the others unchanged |
| Importer.ObjectColumnsAfterParsing | app.py:334-339 | after the numeric pass a column is typed `object` exactly when it is not a numeric field and was typed `object` before |
| Importer.CoercedTypes | app.py:334-340 | after coercion a numeric field holds no string and keeps booleans only when it holds nothing else, a non-numeric `object` column holds only strings, other columns are unchanged, and labels and row counts are kept |
| Importer.BooleanWithGapBecomesText | app.py:339-340 | in a non-numeric column holding a boolean and a gap, the boolean becomes `"True"` or `"False"` and the gap `""` |
| Importer.TryEncoding | app.py:286-292 | an encoding is accepted only with a frame of more than one column |
| Importer.CommaOnlyAfterOneColumn | app.py:287-288 | the `,` read is attempted only when the `;` read gave exactly one column |
| Importer.FirstAccepted | app.py:284-292 | the chosen encoding is accepted and no earlier one is; none is chosen only when none is accepted |
| Importer.LastRaised | app.py:293-295 | the reported error is the one raised by the last encoding that raised |
| Importer.ReadCsv | app.py:280-299 | the fallback loop reaches the decision `CsvDecision` describes |
| Importer.FirstAcceptedAt | app.py:284-292 | an accepted encoding preceded only by rejected ones is the one chosen |
| Importer.CsvDecisionMeaning | app.py:281-299 | a read succeeds with more than one column and the first accepted encoding, in the order utf-16, utf-8-sig, cp1252, latin1; a failure means no encoding was accepted, and it carries no error only when every encoding was merely rejected |
| Sync.NormalizeHeader | app.py:314-321 | the header cleaning renames every column and leaves the rows alone |
| Sync.PrepareMeaning | app.py:314-346 | the file goes on exactly when some cleaned column is known, no numeric field is kept twice and there is a row; an accepted frame holds exactly the cleaned file columns the schema knows, in file order, each a normalised name; no matching column stops with "no column", a numeric field kept twice with the TypeError of `pd.to_numeric`, and zero rows with "no row" |
| Sync.Dataset.Plan | app.py:258-346 | the checks before the first write (table gate, extension gate, reader choice, CSV fallback, header cleaning, schema filter, coercion and its TypeError, row count) reach the decision `Planned` describes |
| Sync.SyncFailsOnlyOnMissingColumn | app.py:152-193 | a cleaned batch holding every column the MERGE names raises no missing-column or ambiguous-match error, so it merges as far as values without column types go |
| Sync.AllKeysPresent | app.py:131-132 | with all four key columns in the file, deduplication uses the full key |
| Sync.Dataset.SynchroniseLocations | app.py:124-239 | on a successful MERGE the location table is the merged table, the staging table is gone and the file's pending log entries are closed as succeeded with the cleaned row count; on failure the locations are unchanged, the staging table stays and the entries are closed as failed with the error text |
| Sync.Dataset.Import | app.py:258-398 | a refused form or file writes nothing; another table is replaced by the frame and logged as succeeded with its row count; TblEmplacement gets a pending log entry and then the synchronisation |
| Sync.Dataset.StartSync | app.py:357-394 | the pending entry is written before the synchronisation, which then closes it |
| History.Settled | app.py:207-231 | only an entry of the file that is still "En cours (thread)" changes; success sets "Succès", no detail and the row count, failure sets "Erreur" and the message |
| History.SettledNoLongerAwaits | app.py:207-231 | a closed entry is no longer pending, and keeps its table, user and file |
| History.SettleOnce | app.py:207-231 | closing a second time changes nothing more |
| History.SettledAll | app.py:207-231 | the closing update applies `Settled` to every entry and keeps the log's length |
| History.SettledAllDone | app.py:207-231 | after the closing update no entry of the file is pending |
| History.ImportLog.Record | app.py:379-394 | the insert appends exactly one entry |
| History.ImportLog.Settle | app.py:207-239 | the closing update leaves the log `SettledAll` describes |
| Locations.ColumnOf | app.py:163-192 | a label names the column whose name it is |
| Locations.ColumnOfInjective | app.py:163-192 | two labels name the same column only when they are equal |
| Locations.Set | app.py:161-179 | setting a column changes that column and no other |
| Locations.RowOf | app.py:146 | a frame row loaded into the staging table holds each labelled cell under its column |
| Locations.PresentKeys | app.py:131-132 | the key columns used are exactly those of Zone, Allee, Deplacement, Niveau the batch holds |
| Locations.DropBlankZones | app.py:125-127 | a row survives the zone filter exactly when its Zone is neither missing nor blank once stripped |
| Locations.LastIndex | app.py:135 | the last position of a key holds that key and no later row does |
| Locations.LastIndexUnique | app.py:135 | only one position is the last occurrence of a key |
| Locations.HasKeyAppend | app.py:135 | a key occurs in a concatenation exactly when it occurs in one of the parts |
| Locations.DedupKeepsRowsAndKeys | app.py:133-135 | deduplication keeps only input rows and loses no key |
| Locations.DedupDistinct | app.py:133-135 | after deduplication no two rows share a key |
| Locations.LastOfItsKeyCons | app.py:135 | a last occurrence stays last when a row is put in front |
| Locations.DedupKeepsLast | app.py:135 | each surviving row is the last row of the batch with its key |
| Locations.CleanMeaning | app.py:124-136 | after cleaning, no row has a blank Zone, no two rows share the present key columns, each survivor is the last of its key, and every key of the zone-filtered batch survives |
| Locations.Missing | app.py:152-193 | the missing labels are exactly the wanted ones the batch lacks |
| Locations.CastText | app.py:175-192 | `CAST(... AS STRING)` is NULL exactly on NULL and always gives text |
| Locations.CastTextNoText | app.py:175-177 | `NULLIF(CAST(x AS STRING), '')` is NULL exactly when x is NULL or empty |
| Locations.MatchesOf | app.py:155-158 | the staged rows matching a location are those whose four key columns equal its own, none of them NULL |
| Locations.Insertions | app.py:181-193 | exactly the staged rows that match no location are inserted |
| Locations.Applied | app.py:160-193 | a successful MERGE keeps every location and adds one row per insertion |
| Locations.PatchFields | app.py:160-179 | a matched location takes each numeric field and Palette from the staged row unless it is NULL, each type from the staged row unless it is NULL or empty, and keeps every other field, its key included |
| Locations.PatchGet | app.py:160-179 | each field of a patched row is the merged value of the field or the old one |
| Locations.PatchIdempotent | app.py:160-179 | patching twice with the same staged row is patching once |
| Locations.KeyUnchangedByPatch | app.py:160-179 | patching never changes the key |
| Locations.NewRowSettled | app.py:181-193 | an inserted row keeps the staged key, and patching it with that staged row changes nothing |
| Locations.NoMatches | app.py:155-158 | a location no staged row matches has no matches |
| Locations.AtMostOneMatch | app.py:155-158 | with distinct staged keys a location matches at most one staged row |
| Locations.SameKeySameMatches | app.py:155-158 | matching depends on the key alone |
| Locations.NoAmbiguity | app.py:155-158 | with distinct staged keys no location is matched twice |
| Locations.MergeSucceeds | app.py:152-197 | a batch with distinct keys holding every column the statement names raises neither of the MERGE's modelled errors, so it merges as far as values without column types go |
| Locations.MergeMeaning | app.py:152-193 | after a MERGE an unmatched location is unchanged, a matched one is patched by its staged row, and exactly the unmatched staged rows are appended in batch order |
| Locations.SelfMatches | app.py:155-158 | a staged row with a complete key is the only match of its own key |
| Locations.SettledRow | app.py:152-193 | every row of the merged table is left unchanged by a second update with the same batch |
| Locations.MatchedAfterMerge | app.py:152-193 | after the MERGE every staged row with a complete key matches some row |
| Locations.InsertionsEmpty | app.py:181-193 | when every staged row is matched nothing is inserted |
| Locations.MergeIdempotent | app.py:152-193 | merging the same batch twice gives the table one merge gives, when no staged key is NULL |
| Locations.AppliedSettled | app.py:152-193 | a MERGE that inserts nothing and changes no row leaves the table as it was |
| Locations.SameKeyOf | app.py:155-158 | the MERGE's four equalities agree with the deduplication key |
| Locations.CleanedBatchDistinct | app.py:124-158 | a cleaned batch holding all four key columns has distinct keys, so its MERGE is never ambiguous |
| Locations.TargetsOf | detail_emplacement.py:559-563 | the staged rows targeting a location are those whose trimmed lower-case zone and three numbers equal its own |
| Locations.NoTargets | detail_emplacement.py:559-563 | a location no staged row targets has no targets |
| Locations.Assigned | detail_emplacement.py:547-554 | a `COALESCE(N.c, T.c)` clause writes the staged value unless it is NULL; a constant clause writes the constant |
| Locations.ApplySets | detail_emplacement.py:545-554 | the SET list writes each listed column and leaves every column outside the core's sixteen alone |
| Locations.BulkUpdateRows | detail_emplacement.py:544-564 | a successful bulk update keeps the number of locations, leaves untargeted locations unchanged and rewrites a targeted one with its staged row |
| Locations.BulkUpdateMeaning | detail_emplacement.py:544-564 | on a targeted location each listed column takes its clause's value and every unlisted column is kept |
| LocationStore.DetailRows | detail_emplacement.py:493-539 | the detail update stages one row per change |
| LocationStore.BulkUpdateKeepsUnlisted | detail_emplacement.py:544-564 | a successful bulk update leaves every column outside its SET list unchanged in every location |
| LocationStore.DetailUpdateMeaning | detail_emplacement.py:485-578 | an empty change list is refused with "Aucune donnée reçue."; the table changes only on success, which reports the number of changes and never touches a column outside the eight editable ones |
| LocationStore.DetailUpdateTargeted | detail_emplacement.py:544-564 | a targeted location takes each editable column from its change unless the change leaves it NULL |
| LocationStore.CoordUpdateMeaning | detail_emplacement.py:345-435 | an empty entry list and an empty SET list are refused with their own messages; a key `int()` rejects gives 500; the table changes only on success, and never outside the SET list |
| LocationStore.LocationTable.Synchronise | app.py:152-197 | a successful MERGE replaces the table by the merged one; a failed one reports the error and leaves it unchanged |
| LocationStore.LocationTable.UpdateDetail | detail_emplacement.py:444-578 | the reply and the new table are those `DetailUpdate` describes |
| LocationStore.LocationTable.UpdateCoords | detail_emplacement.py:305-435 | the reply and the new table are those `CoordUpdate` describes |
| BulkRequests.StrOrNull | detail_emplacement.py:339-343 | `None` gives nothing; a result is never empty and already trimmed; a non-blank value gives its trimmed text |
| BulkRequests.CommaAsPoint | detail_emplacement.py:325 | no comma is left and the length is kept |
| BulkRequests.FloatOrNull | detail_emplacement.py:321-331 | `None` and blank text give nothing |
| BulkRequests.NumCell | detail_emplacement.py:519-520 | a number is NULL exactly when it is missing |
| BulkRequests.TextCell | detail_emplacement.py:522-523 | a text is NULL exactly when it is missing |
| BulkRequests.DetailPalette | detail_emplacement.py:510-516 | `None` gives NULL; any other value gives TRUE exactly when it is an accepted spelling |
| BulkRequests.DetailRowMeaning | detail_emplacement.py:494-539 | a staged row has the trimmed zone, the keys `int()` reads (0 where it fails), NULL for a missing or blank value and NULL outside the update |
| BulkRequests.DetailPaletteEmpty | detail_emplacement.py:510-516 | an empty palette writes FALSE rather than keeping the stored value |
| BulkRequests.BuildDetailRows | detail_emplacement.py:493-539 | the loop stages `DetailRow` of each change, in order |
| BulkRequests.CoordRow | detail_emplacement.py:364-380 | an entry can be staged exactly when `int()` reads its Allee, Deplacement and Niveau |
| BulkRequests.CoordRows | detail_emplacement.py:363-382 | the entries are staged exactly when each of them can be, one row per entry |
| BulkRequests.BuildCoordRows | detail_emplacement.py:363-382 | the loop builds the list `CoordRows` describes |
| BulkRequests.AnyGivesX | detail_emplacement.py:387 | the scan finds an X exactly when some entry has a non-empty X |
| BulkRequests.CoordPalette | detail_emplacement.py:357-361 | `None` and "" give NULL; any other value gives TRUE exactly when it is an accepted spelling |
| BulkRequests.ReadCoords | detail_emplacement.py:346-352 | reading the request gives the fields `ReadCoordRequest` describes |
| BulkRequests.BuildCoordSets | detail_emplacement.py:385-403 | appending clause by clause gives the SET list `CoordSets` describes |
| BulkRequests.CoordSetsXyz | detail_emplacement.py:387-391 | X, Y and Z are written, coalesced from the entries, exactly when some entry gives an X, and no column outside the editable ones is written |
| BulkRequests.CoordSetsConstants | detail_emplacement.py:393-401 | the unit weight and each type are written as constants exactly when given |
| BulkRequests.CoordSetsPalette | detail_emplacement.py:357-361 | the palette clause is present whenever the body has a palette, and "" writes NULL |
| BulkRequests.CoordSetsEmpty | detail_emplacement.py:405-406 | the SET list is empty, and the request refused, exactly when nothing is given to write |
| Reference.TypeAddMeaning | app.py:699-749 | the type add stores a new triple only when Type1 is non-empty and no row already stores it; a refusal leaves the table unchanged; a table without repeated triples keeps none |
| Reference.LocationTypes.constructor | app.py:709 | the table starts with the given rows |
| Reference.LocationTypes.Add | app.py:699-749 | reply and new table are those `TypeAdd` describes |
| Reference.Conflicts | app.py:853-866 | the rows of other groups that hold a requested circuit, and only those |
| Reference.WithoutGroup | app.py:876-884 | exactly the rows of the other groups, never more rows than before |
| Reference.OfGroup | app.py:839-848 | exactly the rows of one group |
| Reference.GroupRows | app.py:886-894 | one row per requested circuit, in request order, carrying the group and designation |
| Reference.WithoutGroupAppend | app.py:876-884 | removing a group distributes over concatenation |
| Reference.WithoutGroupSnoc | app.py:876-884 | removing a group from one more row keeps that row exactly when it is of another group |
| Reference.OfGroupAppend | app.py:839-848 | selecting a group distributes over concatenation |
| Reference.OfGroupOfOthers | app.py:876-884 | removing one group leaves every other group's rows as they were |
| Reference.OfGroupNone | app.py:839-848 | a table without a group's rows selects nothing for it |
| Reference.OfGroupAll | app.py:839-848 | a table of one group's rows selects itself |
| Reference.GroupAddMeaning | app.py:832-900 | a successful add makes the group's rows exactly the requested circuits in order and keeps every other group's rows; a refusal changes nothing |
| Reference.ExclusiveJoin | app.py:853-894 | appending one group's rows for circuits the table does not hold keeps every circuit in one group |
| Reference.ExclusiveWithout | app.py:876-884 | deleting a group keeps every circuit in one group |
| Reference.GroupAddExclusive | app.py:853-894 | thanks to the conflict check, the add keeps every circuit in one group at most |
| Reference.GroupDeleteMeaning | app.py:903-923 | a delete leaves no row of the named group and every other group's rows as they were; a missing name changes nothing; exclusivity is kept |
| Reference.KeepOtherGroups | app.py:918-922 | the row-by-row delete keeps `WithoutGroup` |
| Reference.CircuitGroups.constructor | app.py:832-900 | the table starts with the given rows |
| Reference.CircuitGroups.DropGroup | app.py:876-884 | the table afterwards is `WithoutGroup` of the old one |
| Reference.CircuitGroups.Add | app.py:832-900 | reply and new table are those `GroupAdd` describes |
| Reference.CircuitGroups.InsertGroup | app.py:886-894 | the old rows followed by one row per circuit |
| Reference.CircuitGroups.Delete | app.py:903-923 | reply and new table are those `GroupDelete` describes |
| SalesEvents.MaxId | app.py:1021 | nothing for an empty table, otherwise a stored identifier no smaller than any other |
| SalesEvents.NextIdFresh | app.py:1021 | `COALESCE(MAX(id), 0) + 1` exceeds every stored identifier, so it is new; an empty table starts at 1 |
| SalesEvents.Exclusivity | app.py:1007-1011 | no refusal exactly when one of Evolution and Qte_en_plus is truthy; "both" exactly when both are |
| SalesEvents.LinesOrZero | app.py:1001 | a falsy LignesPrepEnPlus becomes 0, a truthy one is kept |
| SalesEvents.RefIds | app.py:1021 | the identifiers of the events, in order |
| SalesEvents.RefAddMeaning | app.py:996-1041 | saved exactly when exclusivity holds and the reference is a product; a refusal changes nothing; a save appends one event with a new identifier, so identifiers stay unique |
| SalesEvents.RefUpdateMeaning | app.py:1116-1168 | a missing identifier is refused first, then exclusivity with the same reason as the add; past the reference check the query fails exactly when BigQuery cannot bind the identifier as INT64; a save rewrites exactly the events with that identifier; only a save changes rows; identifiers and length are kept |
| SalesEvents.ExclusivitySharedByAddAndUpdate | app.py:1132-1135 | the update refuses for exclusivity exactly as the add does |
| SalesEvents.RefEvents.constructor | app.py:996-1041 | the table starts with the given events |
| SalesEvents.RefEvents.Add | app.py:996-1041 | reply and new table are those `RefAdd` describes |
| SalesEvents.RefEvents.Update | app.py:1116-1168 | reply and new table are those `RefUpdate` describes |
| SalesEvents.RewriteAll | app.py:1143-1166 | each event rewritten when its identifier matches, every other kept, in order |
| SalesEvents.FirstSupplier | app.py:1267-1284 | `LIMIT 1` returns a matching product, or nothing when no product matches |
| SalesEvents.SupplierIds | app.py:1288 | the identifiers of the supplier events, in order |
| SalesEvents.SupplierAddMeaning | app.py:1249-1313 | the refusals in the handler's order (supplier, Evolution, dates); a refusal changes nothing; a save appends one event with a new identifier, the matched product's supplier number and name, and "Tous" when no flow type is given |
| SalesEvents.Kept | app.py:1634-1636 | `if v: f.add(v)` keeps a present non-empty value only |
| SalesEvents.FamilyValuesMembers | app.py:1627-1642 | the values collected for a column are exactly the truthy values some product has there |
| SalesEvents.FamilyOptionsMeaning | app.py:1627-1642 | each option list is strictly increasing and holds exactly the column's truthy values |
| SalesEvents.AddFamily | app.py:1634-1636 | the set grows by the value when it is truthy |
| SalesEvents.CollectFamilies | app.py:1627-1642 | the single pass over the products gives `FamilyOptions` |
| Filters.WholeNumberParses | detail_emplacement.py:12-16 | once `strip()` leaves a number without a point, that text is a signed run of digits |
| Filters.IsNumberWhole | detail_emplacement.py:12-16 | a value `_is_number` accepts without a point is one `int()` reads exactly when `int()`'s stripping leaves what `strip()` leaves, and then `int()` reads that text |
| Filters.IsNumberFraction | detail_emplacement.py:53-55 | a value with a point is one `int()` refuses |
| Filters.IsNumberAccepts | detail_emplacement.py:12-16 | surrounding spaces are ignored; a sign and a fractional part are accepted |
| Filters.IsNumberRejects | detail_emplacement.py:12-16 | the empty text, `1.`, `.5` and text with letters are refused |
| Filters.FiltersFromArgsMeaning | detail_emplacement.py:29-43 | no argument means no filter; the search is read from `search[value]` only |
| Filters.Names | detail_emplacement.py:51-83 | the parameter names in order |
| Filters.WithoutQuotes | detail_emplacement.py:86 | the search text keeps no quote, never grows, and is unchanged when it had none |
| Filters.Steps | detail_emplacement.py:49-92 | the builder has nine steps, in source order |
| Filters.JoinAllNext | detail_emplacement.py:47-94 | each step appends to the clauses so far |
| Filters.BuildWhereAndParams | detail_emplacement.py:46-94 | the builder returns the conditions and parameters `WhereAndParams` describes, or fails where `int()` raises |
| Filters.AppendClauses | detail_emplacement.py:49-92 | the appends produce `Clauses` |
| Filters.AppendTypeClauses | detail_emplacement.py:72-80 | the three type appends |
| Filters.AppendRangeClauses | detail_emplacement.py:49-70 | the zone, allee, deplacement and niveau appends |
| Filters.ClausesUnrolled | detail_emplacement.py:49-92 | the clauses are the steps joined one after the other |
| Filters.NoFiltersNoConditions | detail_emplacement.py:46-94 | with every filter empty there is no condition and no parameter |
| Filters.JoinAllEmpty | detail_emplacement.py:47-94 | steps that emit nothing join to nothing |
| Filters.WhereFailsOnUnreadableAllee | detail_emplacement.py:53-55 | the builder fails exactly when the allee passes `_is_number` but `int()` refuses it: a fractional part, or U+001C to U+001F at an end, which `strip()` removes and `int()` keeps |
| Filters.SeparatorAfterNumber | detail_emplacement.py:12-16 | "12" followed by U+001C passes `_is_number` and makes `int()` raise |
| Filters.StepsInSlots | detail_emplacement.py:49-92 | each step emits at most one condition, of its own kind |
| Filters.JoinAllMember | detail_emplacement.py:47-94 | a condition is emitted exactly when some step emitted it |
| Filters.JoinAllSlotted | detail_emplacement.py:47-94 | the joined conditions come in step order |
| Filters.ClausesMember | detail_emplacement.py:49-92 | a condition is emitted exactly when its own step emitted it |
| Filters.WhereRangeConditions | detail_emplacement.py:49-70 | zone when non-empty; allee when numeric; BETWEEN for deplacement with both bounds and equality with only the lower one (nothing with only the upper one); niveau only with both bounds |
| Filters.WhereTextConditions | detail_emplacement.py:72-83 | one condition per non-empty type or pictogramme filter |
| Filters.WhereSearchCondition | detail_emplacement.py:85-92 | a non-empty search adds one condition carrying the search text with quotes removed |
| Filters.WhereConditionsDistinct | detail_emplacement.py:49-92 | no condition appears twice and all come in builder order |
| Filters.AllPlaceholdersAppend | detail_emplacement.py:47-94 | placeholders split over a concatenation |
| Filters.JoinBinds | detail_emplacement.py:47-94 | joining two clause lists that bind their placeholders keeps them bound |
| Filters.StepBinds | detail_emplacement.py:49-92 | a step with one condition and exactly its parameters binds what it uses |
| Filters.JoinAllBinds | detail_emplacement.py:47-94 | steps that each bind join into clauses that bind |
| Filters.KeyStepsBind | detail_emplacement.py:49-64 | the zone, allee and deplacement steps bind their placeholders |
| Filters.MiddleStepsBind | detail_emplacement.py:66-77 | the niveau, Type1 and Type2 steps bind theirs |
| Filters.LastStepsBind | detail_emplacement.py:78-92 | the Type3, pictogramme and search steps bind theirs, and the search binds none |
| Filters.WhereBindsEveryPlaceholder | detail_emplacement.py:46-94 | the parameters are exactly the placeholders of the conditions, in order and one for one (one for a single condition, two for a BETWEEN) |
| Filters.HierarchyMeaning | detail_emplacement.py:203-208 | each row with a truthy Type1 is filed under Type1 and `Type2 or ""`; a pair is present exactly when some row is filed under it, and then lists those rows' `Type3 or ""` in input order |
| Filters.HierarchyKeys | detail_emplacement.py:203-208 | a Type1 is a key exactly when some row carries it non-empty |
| Filters.BuildHierarchy | detail_emplacement.py:203-208 | the `setdefault(...).append` loop builds `Hierarchy` of the rows |
| Ordering.LexIsStrictTotalOrder | routes.py:53 | Python's string order is irreflexive, transitive and total |
| Ordering.InsertKeepsSorted | routes.py:53-54 | adding to a strictly increasing list keeps it strictly increasing and adds exactly that value |
| Ordering.SortedDistinct | routes.py:53-54 | `sorted(set(xs))` is strictly increasing and holds exactly the values of `xs` |
| Ordering.SortedUnique | routes.py:53-54 | two strictly increasing lists with the same values are equal |
| Ordering.SortedStrings | routes.py:53 | the sorted distinct texts |
| Ordering.SortedStringsSameMembers | routes.py:53 | the result depends only on which values occur |
| Ordering.SortedInts | routes.py:54 | the sorted distinct integers |
| Values.AsIntOrNone | detail_emplacement.py:19-23 | `None` and `""` give no value; anything else gives what `int()` gives, nothing where it raises |
| Values.AsIntOrNoneOfText | detail_emplacement.py:19-23 | an integer and its printed form read back as that integer |
| Values.Int64ParamIsInt | app.py:1157 | an identifier BigQuery binds as INT64 is a JSON integer or text, and `int()` reads the same value from it |
| Values.Int64ParamOfText | app.py:1157 | an integer and its decimal text bind as that integer |
| Values.OrEmpty | detail_emplacement.py:205-208 | `v or ""` on a nullable column |
| Values.StrippedOrEmpty | app.py:703-705 | a falsy value is `""`, a text is trimmed, any other truthy value raises |
| Values.PaletteCheckedCases | detail_emplacement.py:510-516 | the palette flag is set by `True`, the integer 1, and "1", "true", "yes", "on" in any letter case |
| Values.IntTextNotFlag | detail_emplacement.py:510-516 | no integer but 1 prints as a palette spelling |
| Text.TrimIdempotent | app.py:703-705 | stripping twice is stripping once |
| Text.PyIntZFill | routes.py:117-128 | `int()` reads a zero-padded printed integer back as that integer |
| Text.PyIntTrimmed | detail_emplacement.py:53-55 | whatever `int()` reads, `strip()` leaves the same text, so `int()` reads the stripped text |
| Text.SplitJoin | routes.py:120 | splitting `a + sep + b` with `a` free of `sep` gives `a` then the parts of `b` |
| Labels.ParseEmp | routes.py:117-128 | `None` exactly for a falsy value or a text that does not split into four parts; a found place holds part 0 as zone and `int()` of parts 1-3 |
| Labels.SplitLength | routes.py:120 | a split has one more part than separators |
| Labels.DashesOfNumber | routes.py:50 | a padded number holds a `-` exactly when negative |
| Labels.LabelDashes | routes.py:50 | the dashes of a label: the zone's, three separators, one per negative number |
| Labels.SplitFour | routes.py:120 | four dash-free parts joined by `-` split back into themselves |
| Labels.SplitLabel | routes.py:50 | a label with a dash-free zone and non-negative numbers splits into its four parts |
| Labels.LabelParses | routes.py:117-128 | such a label reads back to its place |
| Labels.LabelRefused | routes.py:117-128 | any other label gives `None` |
| Labels.LabelRoundTrip | routes.py:117-128 | `parse_emp` inverts the label exactly when the zone has no `-` and the numbers are non-negative |
| RouteGen.Half | routes.py:287 | `largeur / 2.0` fails exactly for `None` and text; an integer width gives half its value |
| RouteGen.InZones | routes.py:252-257 | exactly the locations of either endpoint zone |
| RouteGen.KeyIsStrictTotalOrder | routes.py:266 | the `groupby` key order is a strict total order |
| RouteGen.GroupKeys | routes.py:263-266 | each key of the selected rows once, in increasing key order |
| RouteGen.Members | routes.py:266 | exactly the rows of one key |
| RouteGen.InsertByBay | routes.py:267 | inserting adds exactly that row |
| RouteGen.InsertByBayOrdered | routes.py:267 | inserting into a bay-ordered group keeps it bay-ordered |
| RouteGen.SortByBay | routes.py:267 | `sort_values("deplacement")` is a bay-ordered permutation of the group |
| RouteGen.Group | routes.py:266-267 | a group is bay-ordered and holds exactly the rows of its key, each as often |
| RouteGen.AppendLinks | routes.py:269-279 | the loop appends one "parallele" link per pair of consecutive rows |
| RouteGen.AppendSpurs | routes.py:281-289 | the loop appends one "perpendiculaire" spur per row |
| RouteGen.AppendBlock | routes.py:269-289 | one group's links, then its spurs |
| RouteGen.GenerateSegments | routes.py:265-289 | the nested loops build `Segments` of the selected rows |
| RouteGen.SegmentsForLength | routes.py:269-289 | a group of `n` rows contributes `2n - 1` segments |
| RouteGen.SizeSumSnoc | routes.py:266 | one more row adds one to the size of its own group |
| RouteGen.SizeSumCovers | routes.py:266 | distinct groups covering every row hold every row once |
| RouteGen.SegmentCount | routes.py:265-289 | `N` rows in `G` groups give `2N - G` segments |
| RouteGen.ConsecutiveAreNeighbours | routes.py:263-270 | consecutive rows of a group have no row of the same zone, aisle and level strictly between their bays |
| RouteGen.SpursJustified | routes.py:281-289 | every spur starts at a selected row and ends half an aisle width further along x, with no target |
| RouteGen.LinkJustified | routes.py:269-279 | every link joins two neighbouring rows and targets the second one's location, so its EmpCible is that row's label |
| RouteGen.LinksJustified | routes.py:269-279 | all links of a group are justified |
| RouteGen.SegmentsForJustified | routes.py:265-289 | all segments of the listed groups are justified |
| RouteGen.SegmentsMeaning | routes.py:265-289 | every generated segment carries the primary route's fields and is a spur of a selected row or a link between neighbours |
| RouteGen.BlockInSegmentsFor | routes.py:265-289 | a listed group's segments all appear in the output |
| RouteGen.EveryRowGetsSpur | routes.py:281-289 | every selected row gets its spur, whatever its bay |
| RouteGen.SecondaryRoutesMeaning | routes.py:246-305 | every location of the two endpoint zones gets a spur, not only the bays between the route's ends; every segment lies in an endpoint zone and carries the route's fields |
| Routes.Select | routes.py:33-38 | the query returns exactly the rows with a zone and an aisle |
| Routes.ListedOf | routes.py:41-51 | an entry fails exactly when the bay or the level is NULL |
| Routes.ListingFails | routes.py:40-51 | the loop fails exactly when some returned row has a NULL bay or level |
| Routes.ListingEntries | routes.py:40-51 | otherwise it lists one entry per row, in order |
| Routes.ListLocations | routes.py:40-51 | the loop builds `Listing` of the rows |
| Routes.ZonesOf | routes.py:53 | the zone of each entry, in order |
| Routes.AisleNumbersOf | routes.py:54 | the aisle of each entry, in order |
| Routes.AnswerLists | routes.py:26-68 | the handler answers `ApiLists` of the table |
| Routes.ApiListsFails | routes.py:40-68 | a 500 exactly when a returned row has a NULL bay or level |
| Routes.ZonesOfRows | routes.py:53 | the entries' zones are exactly the rows' zones |
| Routes.AislesOfRows | routes.py:54 | the entries' aisles are exactly the rows' aisles |
| Routes.ApiListsMeaning | routes.py:40-54 | on success every returned row is listed in order, and `zones` and `allees` are strictly increasing and hold each zone and aisle of the rows once |
| Routes.ListedLabelsParse | routes.py:117-128 | every listed label with a dash-free zone and non-negative numbers is read back by `parse_emp` to its place |
| Routes.Present | routes.py:198-202 | a field is chosen exactly when it is whitelisted and in the body |
| Routes.ValuesOf | routes.py:204 | the body's value of each chosen field, in order |
| Routes.PresentInOrder | routes.py:198-203 | the chosen fields keep the whitelist order |
| Routes.CollectUpdates | routes.py:197-204 | the loop chooses `Present` of the whitelist and the body's values for them |
| Routes.UpdateParameters | routes.py:197-210 | the parameters are the values of exactly the whitelisted body keys, in whitelist order, then the route id |
| Routes.PrimaryRecordFields | routes.py:149-169 | the inserted row holds the new id, the name, and each endpoint's zone, aisle, bay and level, or NULL where `parse_emp` found none |
| Routes.Execute | routes.py:210 | the update keeps the number of rows |
| Routes.AssignedFrom | routes.py:210 | assigning the chosen fields their body values leaves those values and keeps every other column |
| Routes.AssignedIsUpdated | routes.py:197-210 | the positional SET list leaves exactly the row `Updated` describes |
| Routes.UpdatedMeaning | routes.py:197-210 | in `Updated`, the whitelisted body keys take the body's values and every other column is kept |
| Routes.UpdateRefusals | routes.py:206-216 | a 400 exactly when the body names no whitelisted field; a refusal writes nothing |
| Routes.UpdateRouteMeaning | routes.py:189-213 | an accepted update rewrites each row with the route's id as `Updated` describes and keeps every other row |
| Routes.RouteTables.Add | routes.py:108-186 | both tables and the reply afterwards are those `AddRoute` describes |
| Routes.RouteTables.Update | routes.py:189-221 | the routes and the reply are those `UpdateRoute` describes; the segments are untouched |
| Routes.AddRouteRefusals | routes.py:111-112 | a body without NomRoute is a 400 and any refusal writes nothing |
| Routes.AddRouteAccepted | routes.py:149-176 | once both endpoints are read the reply is success whatever the generator does; one row is added and the segments grow by the generated ones or not at all |
| Routes.AddRouteMeaning | routes.py:108-176 | the new row has the given id and name; every new segment points back to it and lies in an endpoint zone |
| Routes.AddRouteBetween | routes.py:114-169 | two endpoints `parse_emp` reads add the row built from those places |
| Routes.RouteBetweenLabels | routes.py:117-169 | a route drawn between two listed labels records exactly their zone, aisle, bay and level |

## Left out

- The storage engines are not modelled: BigQuery, PostgreSQL and Secret Manager. Tables are in-memory sequences and maps; db.py, gcp_client.py and the connection test are not part of this model.
- Flask routing, templates, flash messages, HTML previews and the stub pages are user interface, not logic.
- The `threading.Thread` dispatch (app.py:359-364) is concurrency. The synchronisation runs as a sequential call after the pending history entry is written; its race with that insert is not modelled.
- The internals of `pd.read_csv`, `pd.read_excel` and the text parsing of `pd.to_numeric` are not modelled. They become function parameters (a reader per file kind, a numeric parser), and so does `secure_filename`. What the model keeps of pandas' column types is what the coercion loops depend on: a column is typed `object` when it holds a string, or a boolean beside a number or a gap, and `pd.to_numeric` keeps booleans only in a column of nothing else.
- Floating point is not modelled. Coordinates and widths are `real` in the route generator and integers in the tables. `to_float_or_null` and float formatting become text or parameters.
- `Values.PaletteCheckedCases` says nothing about a float palette value, because `str()` of a float is not modelled.
- SQL text and its injection surface are not modelled: statements are modelled by what they do to the tables.
- uuids become parameters: the primary route id, and no identifier for secondary segments. `CURRENT_TIMESTAMP` and date formatting are also left out.
- The BigQuery client's conversion of a parameter to its declared type (INT64, FLOAT, DATE) is not modelled, except for the identifier of the sales-event update (`Values.Int64Param`); other request values stay JSON values.
- Values.Int64Param: takes BigQuery's reading of INT64 text to be an optional sign and decimal digits with nothing around them; its exact grammar is not modelled.
- These endpoints are left out: the exports (app.py:439-500), the history listing, the list and detail GETs, and the deletes of types, reference events and supplier events, and the family-event add (app.py:1458-1490). Their logic is a plain query. The identifier rule of the family-event add (app.py:1467) is the `COALESCE(MAX(id), 0) + 1` that `SalesEvents.NextIdFresh` states.
- The dead code after the `return` at app.py:1044-1078 is left out.
- Python's `\d`, `lower` and `int()` digits are modelled on ASCII. Unicode digits, non-ASCII case mapping and `int()`'s acceptance of `_` between digits are not.
- Importer.SelectColumns: keeps each file position once. When two file headers clean to the same non-numeric schema field, pandas' `df[keep_cols]` repeats every column of that label once per occurrence, so the source's frame has more columns than the model's. What loading such a frame does is not modelled either. A numeric field kept twice is modelled: the import stops with the TypeError of `pd.to_numeric`.
- `SalesEvents.FirstSupplier`: `LIMIT 1` without `ORDER BY` returns some matching product. The model takes the first in table order.
- `Reference.Conflicts`: the order of the conflict rows only shapes the error message, so the model keeps table order.
- The `engins` list of `api_lists` is left out. It is a plain query.
- `RouteGen.SortByBay`: pandas' default quicksort is not stable. The model sorts stably, so the order of two rows with the same bay in one group may differ.
- The generator's rows with a NULL aisle, bay or level are not modelled, because `Site` has integer keys. In the source pandas turns the NULL into NaN and its whole column into floats. `groupby` drops a group whose aisle or level is NaN, `int()` raises on a NaN bay, and the `:03d`, `:04d` and `:02d` formats raise on the float keys that remain (routes.py:266-287).
- A failing insert of the primary route (a database error after the guard) is not modelled. The model's 500 comes only from `parse_emp` raising.
- JSON bodies that are not objects are not modelled. A body is absent or a string-keyed map.
- Reference.GroupAdd, LocationStore.CoordUpdate and LocationStore.DetailUpdate take the body's lists as typed lists: `circuits` as strings, `coords` and `changes` as objects. A list element of another type is not modelled, nor is a string sent in place of the list. In the source, a non-string circuit makes the `', '.join` at app.py:855 raise a 500, a string is iterated character by character, and a non-object entry in `coords` or `changes` makes `c.get` raise a 500.
- Sync.SyncFailsOnlyOnMissingColumn and Locations.MergeSucceeds: BigQuery's column types are not modelled, so a `Cell` of any kind fits any column. In the source, the staging table takes the frame's pandas types. A staged column typed unlike TblEmplacement's makes the MERGE fail, and the synchronisation then logs 'Erreur'. Examples are all-digit zones read as integers, or an INT64 field read as floats because of a gap. The model instead merges such a batch.
- Decimal columns are numbers, not `Decimal` objects.
