# mt-dashboard in Dafny

A model of the core of mt-dashboard, a hydrometeorological dashboard for the
state of Mato Grosso. The server collects telemetry from the ANA stations
(rainfall, river level, discharge) and from the Cemaden pluviometers, stores
it per station and per day, merges it with the station inventory, classifies
each station and answers HTTP routes. The front end draws the stations on a
Leaflet map, computes rainfall statistics, charts a station's readings and
runs the Hydro-Estimator rainfall animation.

One Dafny module stands for each core source file:

- `CemadenDataScheduler` and `DataStorage` model the collector. It splits a Cemaden hourly table into day documents, with the hours shifted to UTC-3. It merges each day into the stored file for that day.
- `HistoricalStationData`, `MesclarDadosEstacoes` and `GerarCacheEstacoes` model the station service: the historical window over one month directory, the inventory/telemetry merge and the cache snapshot.
- `CategorizacaoEstacoes` models the threshold classifiers, the latest reading, the 24-hour rainfall and the update status. `RotasDadosEstacoes` models the `/historico`, `/chuvaPorCidade` and `/categorizadas` routes.
- `ApiManager`, `RefreshScheduler` and `AnimationManager` model the Hydro-Estimator timestamp client, its refresh timing and the animation frame loop.
- `FormatoData` models the timestamp helpers.
- The front end's data work is in the following modules:
  - `EstatisticasChuva`: the statistics panel;
  - `TelemetricChart` and `VerticalBarChart`: the chart data;
  - `ControleCamadas`: the layer control's overlay bookkeeping;
  - `GerenciadorArquivos`: imported files;
  - `HybridLayers`: the clustered/unclustered layer;
  - `GerenciadorDeMarcadores`: the marker map.

Shared modules:

- `Common`: Option, Result and the nullable reading.
- `Records`: the station and telemetry records.
- `Seqs`: filter, grouping and sums.
- `Sorting`: the stable sort that JavaScript's `Array.prototype.sort` and Python's `sorted` perform.
- `Stats`: mean and median.
- `Text`: the string operations of both languages.
- `Calendar`: the proleptic Gregorian day count.
- `JsDate`: `Date` as ECMA-262 defines it. This covers time values, `Date.UTC`, the Date Time String Format parser and `toISOString`.

Code that keeps state becomes classes with `modifies` clauses. Examples are the storage, the merger's counter, the statistics cache, the marker map, the layer control, the hybrid layer, the file list, the animation and the chart modules. Loops become methods with invariants, proved against specification functions. Pure code becomes functions and lemmas.

The clock, the network, the file system, timers and the engine's Number and Date parsing do not appear in the model. Their results come in as parameters. The parameters are:

- the current time;
- a `parse: string -> Option<int>` for `new Date(text)`; `Records.DateParser` ties it to `JsDate.NewDate`;
- the outcome of each request;
- the directory listing and file contents;
- the numeric conversions.

Some behaviours of the code that the model makes explicit:

- The historical window is anchored at the latest reading of the whole month's pool, not per station (historicalStationData.js).
- Only the reference date's (year, month) directory is read (historicalStationData.js). A 24 h or 48 h window that crosses the start of a month therefore misses the previous month's days.
- `categorizeStation` sums the readings of the last 24 hours itself. It has no fallback to a precomputed accumulation (categorizacaoEstacoes.js).
- On `/chuvaPorCidade`, `Number(null)` is 0, so no station is dropped for a missing accumulation (rotasDadosEstacoes.js).
- `importFiles` tests for duplicates against files whose reads have completed, so two equal files in one selection both start reading (gerenciadorArquivos.js).
- The style pass tests the text of each overlay's label, not the overlay's name. An imported file's label reads as its base name without the extension, so a file such as "rios.kml" is styled like a station layer, with a colour indicator (controleCamadas.js).
- After a refresh of the layer control, an imported overlay is keyed by its label HTML (controleCamadas.js).
- `refreshOverlays` calls `getMarkerColorFromLayerName`, which estiloMarcador.js does not export. Once the control lists an overlay, the call raises before any entry is removed. On a control without overlays, the merged overlays are added, and `applyOverlayStyles` then raises at the first label that does not read as an imported layer, which includes every station layer and every file whose name has one dot (controleCamadas.js).
- `save_station_data_to_file` raises a TypeError, before writing any file, when a reading's Data_Hora_Medicao is null (data_storage.py).
- `process_cemaden_data` raises when `estacao` is null, stores a null `codEstacao` as null, and raises on a null row of `acumulados` (cemaden_data_scheduler.py).
- Updating markers before they were initialized, while stale codes exist, throws a TypeError (gerenciadorDeMarcadores.js).
- Once a station has been reclassified, a station reported again without classification fields counts as changed at every update (gerenciadorDeMarcadores.js).
- The statistics panel's `fetchData` answers `{}` on a failed request, since `Array.isArray(url)` is false for a URL (estatisticasChuva.js).

## Model

| member | source | states |
|---|---|---|
| DataStorage.SaveDatesStopped | server/apis/ana/utils/data_storage.py:48-54 | once a date has stopped the run (its split raised), the later dates change nothing |
| DataStorage.StoredSnoc | server/apis/ana/utils/data_storage.py:35-44 | one more entry adds itself, without its codigoestacao, when it has a non-null Data_Hora_Medicao, and nothing otherwise |
| DataStorage.RaisesSnoc | server/apis/ana/utils/data_storage.py:35-39 | the grouping raises on a prefix one entry longer exactly when it raised before or that entry has a null Data_Hora_Medicao, and one such entry makes the whole grouping raise |
| DataStorage.NullTimestampRaises | server/apis/ana/utils/data_storage.py:35-39 | an entry whose Data_Hora_Medicao is null makes the save raise before any file is written |
| DataStorage.GroupByDate | server/apis/ana/utils/data_storage.py:34-44 | the first loop raises exactly when some entry has a null Data_Hora_Medicao; otherwise it builds the day groups of the stored readings and the dates in first-appearance order |
| DataStorage.GroupingStep | server/apis/ana/utils/data_storage.py:39-44 | one more entry creates its date's list when the date is new and then appends to that list |
| DataStorage.OrderStep | server/apis/ana/utils/data_storage.py:40-41 | a date joins the dictionary's key order at its first entry |
| DataStorage.Storage.SaveStationDataToFile | server/apis/ana/utils/data_storage.py:21-113 | the files, the write log and whether the run completed are those of the reference save: a null Data_Hora_Medicao raises before anything is written, otherwise readings are grouped by day in first-appearance order, each day's file created or updated; data_busca and intervalo play no part |
| DataStorage.Storage.SaveDays | server/apis/ana/utils/data_storage.py:48-113 | the second loop processes the dates in order and stops at the first that does not split into three parts |
| DataStorage.Storage.SaveDay | server/apis/ana/utils/data_storage.py:49-113 | one date's group is sorted, then its file is created with the group or merged into, or left alone when nothing is written |
| DataStorage.StoredEntries | server/apis/ana/utils/data_storage.py:35-44 | the grouping keeps exactly the readings that have a non-null Data_Hora_Medicao, each without its codigoestacao |
| DataStorage.DayGroups | server/apis/ana/utils/data_storage.py:39-44 | each day's group is non-empty and holds the stored readings of that day, in input order |
| DataStorage.NewFileSorted | server/apis/ana/utils/data_storage.py:105-111 | a new day file is written, for the station and the date, holding a permutation of the whole group sorted ascending, when every timestamp parses |
| DataStorage.UpdateMerges | server/apis/ana/utils/data_storage.py:63-102 | an update keeps every existing reading, adds exactly the incoming ones whose timestamp is new, and leaves the file sorted ascending, with its station and date unchanged |
| DataStorage.UpdateDeduplicates | server/apis/ana/utils/data_storage.py:71-73 | a reading is added exactly when it is incoming and its timestamp is not in the file; afterwards the file's timestamps are the union of both |
| DataStorage.NothingNewNoWrite | server/apis/ana/utils/data_storage.py:92-102 | with nothing new and the file already in order, nothing is written |
| DataStorage.UnparseableAsEmpty | server/apis/ana/utils/data_storage.py:66-69 | a file that json.load cannot parse is merged into as an empty document of the station and the date |
| DataStorage.WrittenPaths | server/apis/ana/utils/data_storage.py:48-113 | each date writes at most one file: the log keeps its earlier entries, grows by at most the number of dates, and every new entry is the path of one of the dates |
| CemadenDataScheduler.StripKeyTimeKeyed | server/apis/ana/services/cemaden_data_scheduler.py:16 | the key `Data_Hora_Medicao.strip()` depends on the timestamp only, so filling in a rainfall never moves a reading to another key |
| CemadenDataScheduler.Fill | server/apis/ana/services/cemaden_data_scheduler.py:17-21 | one record of a de-duplicating loop keeps every listed key filed in the table |
| CemadenDataScheduler.Clean | server/apis/ana/services/cemaden_data_scheduler.py:14-21 | a de-duplicated list files every key it lists |
| CemadenDataScheduler.Overlay | server/apis/ana/services/cemaden_data_scheduler.py:33-37 | one entry of cleaned_novo applied over existing_data keeps every listed key filed |
| CemadenDataScheduler.OverlayAll | server/apis/ana/services/cemaden_data_scheduler.py:32-37 | applying cleaned_novo keeps the table well filed and never loses a key of existing_data |
| CemadenDataScheduler.Values | server/apis/ana/services/cemaden_data_scheduler.py:39 | `list(existing_data.values())` has one value per key, in insertion order |
| CemadenDataScheduler.CleanLoop | server/apis/ana/services/cemaden_data_scheduler.py:24-30 | the loop builds exactly the de-duplicated table of its list: a new timestamp is added, a repeated one only fills a null Chuva_Adotada |
| CemadenDataScheduler.OverlayLoop | server/apis/ana/services/cemaden_data_scheduler.py:32-37 | the loop applies every entry of cleaned_novo, in its order, over existing_data |
| CemadenDataScheduler.SumRain | server/apis/ana/services/cemaden_data_scheduler.py:42-50 | the loop's total is the sum of the Chuva_Adotada values that parse as floats, null or unparseable ones counting 0 |
| CemadenDataScheduler.MergeDayInfo | server/apis/ana/services/cemaden_data_scheduler.py:8-55 | the returned document is antigo with the merged, sorted readings as dados and their total (0 when not positive) as chuvaAcumulada |
| CemadenDataScheduler.FillShape | server/apis/ana/services/cemaden_data_scheduler.py:17-21 | a record keeps the table well formed and adds exactly its own key |
| CemadenDataScheduler.CleanShape | server/apis/ana/services/cemaden_data_scheduler.py:14-21 | a de-duplicated list is well formed, files each reading under its key and has exactly the list's keys |
| CemadenDataScheduler.OverlayShape | server/apis/ana/services/cemaden_data_scheduler.py:33-37 | applying one entry keeps the table well formed and adds exactly its key |
| CemadenDataScheduler.OverlayAllKeys | server/apis/ana/services/cemaden_data_scheduler.py:32-37 | after applying cleaned_novo, a key is present exactly when it was in existing_data or in cleaned_novo |
| CemadenDataScheduler.OverlayAllShape | server/apis/ana/services/cemaden_data_scheduler.py:32-37 | applying cleaned_novo keeps the table well formed and filed under the key |
| CemadenDataScheduler.OverlayAllLookup | server/apis/ana/services/cemaden_data_scheduler.py:32-37 | a key of cleaned_novo ends with the old reading overwritten by a non-null new rainfall, or the new reading when the key is new; any other key keeps its old reading |
| CemadenDataScheduler.ValueAt | server/apis/ana/services/cemaden_data_scheduler.py:39 | the reading of a listed key is among the values |
| CemadenDataScheduler.ValuesOf | server/apis/ana/services/cemaden_data_scheduler.py:39 | the values of a well-formed table hold every filed reading, have distinct keys, and their keys are exactly the table's |
| CemadenDataScheduler.MergedTable | server/apis/ana/services/cemaden_data_scheduler.py:14-37 | before sorting, the merged table is well formed and its keys are the union of the old and new keys |
| CemadenDataScheduler.MergedTimestamps | server/apis/ana/services/cemaden_data_scheduler.py:14-40 | the merged readings have distinct keys, their keys are the union of the old and new keys, and they are sorted by the raw timestamp text |
| CemadenDataScheduler.MergedReadingOf | server/apis/ana/services/cemaden_data_scheduler.py:32-40 | for every key of either list, the merged readings hold the reading it ends with: the old one with a non-null new rainfall written in, or the new one |
| CemadenDataScheduler.CleanKeepsFirst | server/apis/ana/services/cemaden_data_scheduler.py:15-21 | within one list a repeated timestamp keeps its first record, whose null Chuva_Adotada is filled with the first non-null one among its duplicates |
| CemadenDataScheduler.AccumulatedRain | server/apis/ana/services/cemaden_data_scheduler.py:52-53 | chuvaAcumulada is never negative, is positive exactly when the total is, equals the total then, and nothing else of antigo changes |
| CemadenDataScheduler.RemoveAll | server/apis/ana/services/cemaden_data_scheduler.py:91 | `replace("h", "")` leaves no "h" and never lengthens the text |
| CemadenDataScheduler.YearField | server/apis/ana/services/cemaden_data_scheduler.py:99 | strptime's %Y reads a year between 0 and 9999 |
| CemadenDataScheduler.ParseDmy | server/apis/ana/services/cemaden_data_scheduler.py:99 | a date strptime accepts is a real calendar date from year 1 to 9999 |
| CemadenDataScheduler.RowFailureStays | server/apis/ana/services/cemaden_data_scheduler.py:112-150 | an exception in a column ends the row: no later column changes the outcome |
| CemadenDataScheduler.DaysFailureStays | server/apis/ana/services/cemaden_data_scheduler.py:97-160 | an exception in one date ends the run: no later date changes the outcome |
| CemadenDataScheduler.DaysStep | server/apis/ana/services/cemaden_data_scheduler.py:97-160 | after a run of successes, a date is skipped, raises, or appends its document |
| CemadenDataScheduler.RowRecords | server/apis/ana/services/cemaden_data_scheduler.py:112-150 | the inner loop computes the row's registros and total_chuva, or the exception a kept column raises |
| CemadenDataScheduler.DayOf | server/apis/ana/services/cemaden_data_scheduler.py:98-160 | one date is skipped when it does not parse or has no row, else it yields its day document or the exception its row raises |
| CemadenDataScheduler.DaysLoop | server/apis/ana/services/cemaden_data_scheduler.py:97-160 | the outer loop computes the run over all dates: skipped dates, the first exception, or the documents |
| CemadenDataScheduler.CodOf | server/apis/ana/services/cemaden_data_scheduler.py:83-85 | codigoestacao is null exactly when codEstacao is present and null, and the station id's text when the key is absent |
| CemadenDataScheduler.ProcessCemadenData | server/apis/ana/services/cemaden_data_scheduler.py:71-162 | process_cemaden_data returns the documents of the dates, or the exception that escapes, as the specification function gives |
| CemadenDataScheduler.ParseDmyRoundTrip | server/apis/ana/services/cemaden_data_scheduler.py:99-100 | a date written dd/mm/yyyy is parsed back as itself |
| CemadenDataScheduler.DmySplit | server/apis/ana/services/cemaden_data_scheduler.py:99 | a dd/mm/yyyy text splits on "/" into its three padded fields |
| CemadenDataScheduler.DmyFields | server/apis/ana/services/cemaden_data_scheduler.py:99 | each padded field of dd/mm/yyyy reads back as its number |
| CemadenDataScheduler.MedicaoSameDay | server/apis/ana/services/cemaden_data_scheduler.py:135-136 | from 03h on, the measurement timestamp keeps the date at hour minus 3 |
| CemadenDataScheduler.MedicaoPreviousDay | server/apis/ana/services/cemaden_data_scheduler.py:135-136 | before 03h the timestamp is on the previous date at hour plus 21, and only 01/01/0001 raises, having no previous date |
| CemadenDataScheduler.KeptColumns | server/apis/ana/services/cemaden_data_scheduler.py:118-150 | the kept columns are indices of existing cells among the first n |
| CemadenDataScheduler.KeptColumnsOrdered | server/apis/ana/services/cemaden_data_scheduler.py:133-150 | every kept column passes the hour window of its day (starting_hour to 23 on the first date, below starting_hour or the last column at starting_hour on later dates), in increasing order |
| CemadenDataScheduler.KeptColumnsComplete | server/apis/ana/services/cemaden_data_scheduler.py:118-150 | every column that has a cell and whose hour is in its day's window is kept |
| CemadenDataScheduler.RowSucceeds | server/apis/ana/services/cemaden_data_scheduler.py:112-150 | a row succeeds exactly when every kept hour has a timestamp |
| CemadenDataScheduler.RowSucceedsIf | server/apis/ana/services/cemaden_data_scheduler.py:112-150 | a row succeeds when every kept hour has a timestamp |
| CemadenDataScheduler.RowFailsIf | server/apis/ana/services/cemaden_data_scheduler.py:112-150 | a row raises when some kept hour has no timestamp |
| CemadenDataScheduler.RowReadings | server/apis/ana/services/cemaden_data_scheduler.py:121-149 | a row that succeeds holds one reading per kept column, in order: its hour's timestamp and its cell's "%.2f" text or null |
| CemadenDataScheduler.RowTotal | server/apis/ana/services/cemaden_data_scheduler.py:121-150 | the total of a row that succeeds is the rain of its kept columns, 0 for a cell without a number |
| CemadenDataScheduler.Present | server/apis/ana/services/cemaden_data_scheduler.py:97-106 | the listed dates are among the first m and are not skipped |
| CemadenDataScheduler.PresentExact | server/apis/ana/services/cemaden_data_scheduler.py:97-106 | the dates not skipped are listed, each once, in increasing order |
| CemadenDataScheduler.DaysSucceed | server/apis/ana/services/cemaden_data_scheduler.py:97-160 | the outer loop fails exactly when a date that is not skipped raises |
| CemadenDataScheduler.DaysDocuments | server/apis/ana/services/cemaden_data_scheduler.py:97-160 | when the outer loop succeeds it holds the documents of the dates not skipped, in order |
| CemadenDataScheduler.DayOutcome | server/apis/ana/services/cemaden_data_scheduler.py:97-160 | a date is skipped exactly when it does not parse or has no acumulados row; otherwise a null row raises when there are hours, and any other row raises with its row or gives the station's document dated by the parsed date, with the row's readings sorted by timestamp and its total (0 if not positive) |
| CemadenDataScheduler.ProcessCemadenDays | server/apis/ana/services/cemaden_data_scheduler.py:77-162 | a payload that is not a dict gives no documents; an estacao that is not a dict raises; a payload that lacks a list gives no documents; otherwise the run fails exactly when a date not skipped raises, and gives those dates' documents in order |
| FormatoData.FormatTimestamp | src/utils/formatoData.js:76-81 | the formatting fails exactly when the timestamp converts to an Invalid Date |
| FormatoData.ConvertDigits | src/utils/formatoData.js:48-60 | characters 0-3, 4-5 and 6-7 give year, month minus 1 and day, and characters 9-10, 11-12 and 13-14 give hours, minutes and seconds, whatever character sits at position 8 |
| FormatoData.TimestampSlices | src/utils/formatoData.js:50-52 | the date slice is characters 0-7 and the time slice characters 9-14 |
| FormatoData.ParseThree | src/utils/formatoData.js:55-60 | parseInt reads each digit field as its decimal value |
| FormatoData.ConvertValue | src/utils/formatoData.js:48-64 | a timestamp of digit fields converts to Date.UTC of its fields, the month counted from 0 |
| FormatoData.ConvertInRange | src/utils/formatoData.js:48-64 | for a real date and time of day from year 100 on, the timestamp denotes exactly that UTC instant |
| FormatoData.IsoStringOfFields | src/utils/formatoData.js:80 | the ISO string of an in-range instant is written with the timestamp's own digit fields and ".000Z" |
| FormatoData.PaddedDigitFields | src/utils/formatoData.js:80 | padding each field's value to its width gives back the field's digits |
| FormatoData.FormatTimestampRoundTrip | src/utils/formatoData.js:48-81 | for in-range fields the result is the input's own digits with "-", " " and ":" as separators |
| FormatoData.DisplayOfIso | src/utils/formatoData.js:80 | replacing the "T" and cutting to 19 characters leaves "YYYY-MM-DD HH:MM:SS" |
| FormatoData.FormatTimestampExample | src/utils/formatoData.js:9-12 | "20231020_123045" is formatted as "2023-10-20 12:30:45", the documented example |
| FormatoData.BrasiliaIsoText | src/utils/formatoData.js:91-100 | a measurement time is rebuilt as its date, "T", its clock without the fraction and "-03:00" |
| FormatoData.BrasiliaZone | src/utils/formatoData.js:98 | "-03:00" is a valid zone designator three hours behind UTC |
| FormatoData.ParseBrasiliaMeasurement | src/utils/formatoData.js:91-100 | a measurement time with real field values is that wall-clock time in Brasília, i.e. the UTC instant of its fields plus three hours; the fraction of a second is dropped |
| FormatoData.ParseBrasiliaDateOnly | src/utils/formatoData.js:93-94 | a text without a space is handed to the Date constructor unchanged |
| FormatoData.WithinLast24HoursMeasurement | src/utils/formatoData.js:112-116 | a measurement is within the last 24 hours exactly when its Brasília instant lies in the closed 24-hour window ending at the reference instant |
| HistoricalStationData.Tag | server/apis/ana/services/node/historicalStationData.js:38-39 | one tagged record per record of the file, in order, each carrying the file's codigoestacao |
| HistoricalStationData.FilesRecordsSnoc | server/apis/ana/services/node/historicalStationData.js:30-46 | reading one more file appends exactly that file's records to the pool |
| HistoricalStationData.PoolSnoc | server/apis/ana/services/node/historicalStationData.js:20-47 | reading one more day directory appends exactly that day's records to the pool |
| HistoricalStationData.CarregarDados | server/apis/ana/services/node/historicalStationData.js:11-50 | an unreadable month directory is an error; otherwise the pool is the records of every readable ".json" file whose dados is an array, day by day and file by file in directory order; unreadable days and files contribute nothing |
| HistoricalStationData.FilesRecordsOrigin | server/apis/ana/services/node/historicalStationData.js:30-46 | every record read from a list of files comes from one of those files: a readable ".json" file whose dados holds it, tagged with that file's code |
| HistoricalStationData.PoolOrigin | server/apis/ana/services/node/historicalStationData.js:11-50 | every pooled record is tagged with the codigoestacao of the readable ".json" file, in a listable day directory, that it was read from |
| HistoricalStationData.FiltrarPorIntervalo | server/apis/ana/services/node/historicalStationData.js:61-76 | the call throws exactly when the pool is empty or a record has no measurement time, and then leaves the array alone; otherwise the array is sorted newest first in place and the result is the records within the interval of the first one, in that order |
| HistoricalStationData.AnchorIsLatest | server/apis/ana/services/node/historicalStationData.js:68-72 | when every reading has a valid time, the reference time is the latest time in the whole pool, over all stations together |
| HistoricalStationData.KeptIff | server/apis/ana/services/node/historicalStationData.js:73-75 | a pooled record is kept exactly when both times are valid and the reference time is at most the interval after it |
| HistoricalStationData.FormatRecord | server/apis/ana/services/node/historicalStationData.js:90-98 | a formatted record keeps exactly its five reading fields and no other key |
| HistoricalStationData.Formatted | server/apis/ana/services/node/historicalStationData.js:136-137 | one formatted record per reading, in order |
| HistoricalStationData.FormattedSnoc | server/apis/ana/services/node/historicalStationData.js:137 | formatting one more reading appends its formatted record |
| HistoricalStationData.PushValue | server/apis/ana/services/node/historicalStationData.js:130-138 | after one more reading, every station's group holds its readings so far, formatted, in order |
| HistoricalStationData.PushStep | server/apis/ana/services/node/historicalStationData.js:130-138 | one push keeps the dictionary holding, for each station seen so far, its formatted readings |
| HistoricalStationData.PushByStation | server/apis/ana/services/node/historicalStationData.js:129-138 | the forEach leaves one group per station with a kept reading, holding that station's readings formatted, in order, still undated |
| HistoricalStationData.GroupNonEmpty | server/apis/ana/services/node/historicalStationData.js:132-137 | a station that has a kept reading has a non-empty group |
| HistoricalStationData.DatedGroup | server/apis/ana/services/node/historicalStationData.js:142-149 | a pushed group is non-empty, and sorting and dating it gives the station's final group |
| HistoricalStationData.SortAndDate | server/apis/ana/services/node/historicalStationData.js:142-149 | the same stations, each group sorted oldest first and dated by its last reading |
| HistoricalStationData.GroupsEqual | server/apis/ana/services/node/historicalStationData.js:129-151 | the groups after both loops are, per station, its kept readings formatted, sorted oldest first and dated |
| HistoricalStationData.GetHistoricalStationData | server/apis/ana/services/node/historicalStationData.js:111-152 | the result is the reference history: a missing date throws before any read; only the date's (year, month) directory is loaded; an empty pool gives no groups; otherwise the filtered readings are grouped, sorted and dated |
| HistoricalStationData.OnlyMonthDirectory | server/apis/ana/services/node/historicalStationData.js:118-122 | only the directory of the date's year and month is read: the rest of the data tree does not change the answer |
| HistoricalStationData.MonthOfDate | server/apis/ana/services/node/historicalStationData.js:118 | "YYYY-MM-DD" names the directory (YYYY, MM) |
| HistoricalStationData.GroupContents | server/apis/ana/services/node/historicalStationData.js:140-149 | each group holds exactly its station's kept readings, formatted (as a multiset), is non-empty and is dated by its last reading |
| HistoricalStationData.OldestFirstNumeric | server/apis/ana/services/node/historicalStationData.js:144 | sorting by the difference of two Dates is sorting by the instants once every instant is valid |
| HistoricalStationData.GroupDated | server/apis/ana/services/node/historicalStationData.js:144 | when every kept reading has a valid measurement time, so does every formatted reading of every group |
| HistoricalStationData.GroupSorted | server/apis/ana/services/node/historicalStationData.js:144-148 | with valid times a group is sorted oldest first and its last reading is its latest |
| MesclarDadosEstacoes.FormatDate | server/apis/ana/services/node/mesclarDadosEstacoes.js:21-28 | a string is returned unchanged, and only an Invalid Date fails (toISOString throws) |
| MesclarDadosEstacoes.NoTInDate | server/apis/ana/services/node/mesclarDadosEstacoes.js:27 | a date written with digit fields and dashes holds no 'T' |
| MesclarDadosEstacoes.FirstPiece | server/apis/ana/services/node/mesclarDadosEstacoes.js:27 | splitting at 'T' gives back the part before the first 'T' |
| MesclarDadosEstacoes.IsoAtT | server/apis/ana/services/node/mesclarDadosEstacoes.js:27 | the ISO text of a valid date is its date part, a 'T', then its time part |
| MesclarDadosEstacoes.FormatDateOfInstant | server/apis/ana/services/node/mesclarDadosEstacoes.js:21-28 | the date part of an instant in years 0 to 9999 is its UTC calendar date written "YYYY-MM-DD" |
| MesclarDadosEstacoes.MergedStation | server/apis/ana/services/node/mesclarDadosEstacoes.js:130-136 | a merged entry overwrites data and dados with the combined telemetry, plus the two latest-reading fields, and changes nothing else |
| MesclarDadosEstacoes.Merger.LoadTelemetricData | server/apis/ana/services/node/mesclarDadosEstacoes.js:53-64 | the outcome is the file's content, null when it is missing, or an error when the path cannot be built; the miss counter goes up by one exactly for a missing file |
| MesclarDadosEstacoes.Merger.MergeTelemetricDataForStation | server/apis/ana/services/node/mesclarDadosEstacoes.js:73-94 | the combined telemetry is dated by the target date and holds yesterday's then today's readings, sorted newest first; either load failing fails the merge; the counter counts both loads' misses |
| MesclarDadosEstacoes.Merger.MergeStationData | server/apis/ana/services/node/mesclarDadosEstacoes.js:100-143 | an unreadable inventory is an error; otherwise the result is, in inventory order, the merged entry of each of the first 237 stations whose merge does not throw; the counter is reset first and then counts the misses of those stations |
| MesclarDadosEstacoes.MergeStep | server/apis/ana/services/node/mesclarDadosEstacoes.js:124-140 | one more station appends its merged entry when its merge succeeds and nothing otherwise, and adds its two loads' misses |
| MesclarDadosEstacoes.MergedTelemetricSucceeds | server/apis/ana/services/node/mesclarDadosEstacoes.js:53-94 | with dates that have a year and a month part, both loads succeed and the merge returns their combined readings |
| MesclarDadosEstacoes.MergeOnePerStation | server/apis/ana/services/node/mesclarDadosEstacoes.js:124-140 | with well-formed dates every station yields exactly one merged entry, in inventory order, carrying its own combined telemetry |
| MesclarDadosEstacoes.MergeNothingWithoutPath | server/apis/ana/services/node/mesclarDadosEstacoes.js:54-55 | a target date from which no path can be built makes every station throw, so nothing is merged |
| MesclarDadosEstacoes.MergeStationCap | server/apis/ana/services/node/mesclarDadosEstacoes.js:104 | with well-formed dates exactly min(237, inventory size) stations are merged, each the inventory entry at the same position, dated today |
| MesclarDadosEstacoes.MissesBound | server/apis/ana/services/node/mesclarDadosEstacoes.js:51-64 | each station misses at most its two files, and the counter is 0 exactly when every station has both files |
| MesclarDadosEstacoes.CombinedNewestFirst | server/apis/ana/services/node/mesclarDadosEstacoes.js:84-91 | the combined readings are a permutation of yesterday's and today's; with valid instants they run newest first and the first is a latest reading |
| GerarCacheEstacoes.LoadTelemetricData | server/apis/ana/services/node/gerarCacheEstacoes.js:21-30 | fails exactly when the date has no month part, so no path can be built; otherwise it gives the file's content exactly when the file exists, and null when it does not |
| GerarCacheEstacoes.CacheOnePerStation | server/apis/ana/services/node/gerarCacheEstacoes.js:32-73 | with well-formed dates every inventory entry, with no cap, yields one snapshot entry, in order, whatever telemetry files are missing; the entry holds the date, yesterday's and today's readings newest first, its 24-hour history and the times of the first reading, and nothing else of the station changes |
| GerarCacheEstacoes.CacheHistoryGroup | server/apis/ana/services/node/gerarCacheEstacoes.js:60 | an entry's history is its station's group in the 24-hour window, or empty when the station has no reading there |
| GerarCacheEstacoes.CacheDadosNewestFirst | server/apis/ana/services/node/gerarCacheEstacoes.js:53-61 | with valid instants the readings are a permutation of yesterday's and today's, newest first, and Data_Hora_Medicao is the first reading's (null for an empty text), which is a latest one |
| CategorizacaoEstacoes.ClassifyRainfall | src/utils/ana/classification/categorizacaoEstacoes.js:7-15 | null is "Indefinido" and exactly 0 is "Sem Chuva"; any other total is "Fraca" up to 5, "Moderada" up to 29, "Forte" up to 59, "Muito Forte" up to 99 and "Extrema" above, each bound inclusive, each class exactly on its range |
| CategorizacaoEstacoes.RainfallMonotone | src/utils/ana/classification/categorizacaoEstacoes.js:10-14 | a larger positive total never gets a lower rainfall class |
| CategorizacaoEstacoes.ClassifyLevel | src/utils/ana/classification/categorizacaoEstacoes.js:17-23 | "Indefinido" exactly when the reading is not a number; otherwise "Baixo" below 400, "Normal" from 400 to 450 inclusive, "Alto" above |
| CategorizacaoEstacoes.ClassifyDischarge | src/utils/ana/classification/categorizacaoEstacoes.js:25-31 | "Indefinido" exactly when the reading is not a number; otherwise "Baixa" below 30, "Normal" from 30 to 35 inclusive, "Alta" above |
| CategorizacaoEstacoes.LevelDischargeMonotone | src/utils/ana/classification/categorizacaoEstacoes.js:17-31 | a higher level or discharge reading is never in a lower class |
| CategorizacaoEstacoes.ParseLocalDate | src/utils/ana/classification/categorizacaoEstacoes.js:34-36 | null exactly for a missing or empty text |
| CategorizacaoEstacoes.LocalIsoText | src/utils/ana/classification/categorizacaoEstacoes.js:35 | replacing the space of a measurement time by "T" gives the date-time text of the same fields with no zone |
| CategorizacaoEstacoes.LocalMeasurementTime | src/utils/ana/classification/categorizacaoEstacoes.js:34-36 | a well-formed measurement time is parsed as local time: a valid date-time form with no offset |
| CategorizacaoEstacoes.GetLatestRecord | src/utils/ana/classification/categorizacaoEstacoes.js:38-45 | null exactly when there are no records; otherwise one of the records |
| CategorizacaoEstacoes.LatestIndex | src/utils/ana/classification/categorizacaoEstacoes.js:40-44 | when every record has a valid date, the latest record is the first one with the greatest time: none is later and every earlier one is strictly earlier |
| CategorizacaoEstacoes.WindowRain | src/utils/ana/classification/categorizacaoEstacoes.js:50-56 | the kept values are empty exactly when no record is in the window with a numeric rainfall |
| CategorizacaoEstacoes.WindowRainAppend | src/utils/ana/classification/categorizacaoEstacoes.js:50-56 | the values kept from two batches of records are those of each batch, in order |
| CategorizacaoEstacoes.CalculateAccumulatedRainfall | src/utils/ana/classification/categorizacaoEstacoes.js:47-58 | null exactly when there is no reference date or no record in the closed 24-hour window before it has a numeric rainfall |
| CategorizacaoEstacoes.AccumulatedAppend | src/utils/ana/classification/categorizacaoEstacoes.js:57 | the total of two batches of readings is the sum of their totals, when each has one |
| CategorizacaoEstacoes.AccumulatedIgnores | src/utils/ana/classification/categorizacaoEstacoes.js:51-56 | a reading outside the window, or without a numeric value, changes nothing |
| CategorizacaoEstacoes.WindowRainNonNegative | src/utils/ana/classification/categorizacaoEstacoes.js:55-56 | non-negative readings give non-negative kept values |
| CategorizacaoEstacoes.AccumulatedNonNegative | src/utils/ana/classification/categorizacaoEstacoes.js:57 | non-negative readings give a non-negative total |
| CategorizacaoEstacoes.Round2Close | src/utils/ana/classification/categorizacaoEstacoes.js:81 | rounding the total to two decimals moves it by at most half a hundredth |
| Common.NumberOrNull | src/utils/ana/classification/categorizacaoEstacoes.js:78-79 | a value is kept exactly when it parses to a non-zero number, and then it is that number (also the bar values of telemetricChart.js:44-48) |
| CategorizacaoEstacoes.AllCompleteMeans | src/utils/ana/classification/categorizacaoEstacoes.js:64 | the completeness test holds exactly when every record has rain, level and discharge |
| CategorizacaoEstacoes.FreshMeans | src/utils/ana/classification/categorizacaoEstacoes.js:70 | a reading is fresh exactly when it is at most 12 hours older than now |
| CategorizacaoEstacoes.CategorizeStation | src/utils/ana/classification/categorizacaoEstacoes.js:61-89 | code, name and date are copied; "Completo" exactly when there are records and all are complete; the status is one of the two and "Atualizado" needs records; the river defaults to "Desconhecido"; the stored total is null exactly when the computed one is, and otherwise is the computed one rounded to two decimals; the rainfall class is that of the unrounded total; level and discharge are the latest record's (null without records) with their classes; the coordinates are the numbers other than 0 |
| CategorizacaoEstacoes.StationFreshness | src/utils/ana/classification/categorizacaoEstacoes.js:66-71 | with dated records, the reference date is the newest reading's, and the station is "Atualizado" exactly when that reading is at most 12 hours older than now |
| CategorizacaoEstacoes.StationWithoutRecords | src/utils/ana/classification/categorizacaoEstacoes.js:62-71 | a station without readings is "Desatualizado", "Incompleto" and "Indefinido" in all three classes |
| CategorizacaoEstacoes.CategorizeStations | src/utils/ana/classification/categorizacaoEstacoes.js:92-128 | updated and notUpdated are the stations' categories with that status, and each bucket map groups the categories by their class, in input order |
| CategorizacaoEstacoes.StatusPartition | src/utils/ana/classification/categorizacaoEstacoes.js:104-108 | when every status is one of the two, the two lists together hold every category |
| CategorizacaoEstacoes.CategorizedPartition | src/utils/ana/classification/categorizacaoEstacoes.js:102-125 | the two status lists together hold one entry per station; every station is in the rainfall bucket of its own class, and a bucket holds only stations of its class |
| CategorizacaoEstacoes.GetAllCategorizedStations | src/utils/ana/classification/categorizacaoEstacoes.js:130-139 | one entry per station, carrying the station's category and its position |
| RotasDadosEstacoes.Historico | server/apis/ana/routes/rotasDadosEstacoes.js:131-151 | the answer is 400 exactly when the interval is not 2, 6, 12, 24 or 48 hours; a single station's history is answered only for a present, non-empty station code |
| RotasDadosEstacoes.RejectedBeforeLoading | server/apis/ana/routes/rotasDadosEstacoes.js:134-137 | a rejected interval answers 400 whatever the history load would have done: nothing is loaded |
| RotasDadosEstacoes.IntervalTokens | server/apis/ana/routes/rotasDadosEstacoes.js:134-135 | a token of decimal digits with one 'h' in it is read as the number its digits spell, and accepted exactly when that is 2, 6, 12, 24 or 48 |
| RotasDadosEstacoes.HistoricoLookup | server/apis/ana/routes/rotasDadosEstacoes.js:138-146 | with an accepted interval the history is loaded for that whole number of hours; a failed load is a 500; with a station code the answer is that station's group when the history has it and 404 otherwise; without a code the answer is the whole history |
| RotasDadosEstacoes.ChuvaValue | server/apis/ana/routes/rotasDadosEstacoes.js:165-171 | the value kept is the category's rainfall total, and 0 when that total is null, since Number(null) is 0: never null |
| RotasDadosEstacoes.Entries | server/apis/ana/routes/rotasDadosEstacoes.js:189-195 | only stations with a non-null value are kept, so there are no more entries than stations |
| RotasDadosEstacoes.Values | server/apis/ana/routes/rotasDadosEstacoes.js:201-208 | one rainfall value per entry |
| RotasDadosEstacoes.Estacoes | server/apis/ana/routes/rotasDadosEstacoes.js:202-213 | one station record per entry |
| RotasDadosEstacoes.ValuesEstacoes | server/apis/ana/routes/rotasDadosEstacoes.js:206-213 | the i-th value and the i-th station record are those of the i-th entry |
| RotasDadosEstacoes.AccSnoc | server/apis/ana/routes/rotasDadosEstacoes.js:206-213 | one more station of a city adds its value to chuvaTotal, adds 1 to numEstacoes and appends to valoresChuva and estacoes |
| RotasDadosEstacoes.AddKeeps | server/apis/ana/routes/rotasDadosEstacoes.js:196-213 | after one more station the dictionary still holds each city's accumulator, and a city joins the insertion order exactly when it was not yet a key |
| RotasDadosEstacoes.AddValues | server/apis/ana/routes/rotasDadosEstacoes.js:196-213 | after one more station every city's accumulator is that of its stations so far |
| RotasDadosEstacoes.AddStep | server/apis/ana/routes/rotasDadosEstacoes.js:196-213 | creating the entry on first sight and then updating it is the same as updating an empty accumulator |
| RotasDadosEstacoes.AccsMeaning | server/apis/ana/routes/rotasDadosEstacoes.js:187-215 | the dictionary holds, for every city that occurs, the accumulator of that city's stations in input order, and no other key |
| RotasDadosEstacoes.AccsOrder | server/apis/ana/routes/rotasDadosEstacoes.js:196-204 | a city is new to the dictionary exactly when it is new to the order in which keys were first inserted |
| RotasDadosEstacoes.Agrupar | server/apis/ana/routes/rotasDadosEstacoes.js:189-215 | the first forEach builds the dictionary of accumulators and the insertion order of its cities |
| RotasDadosEstacoes.ResumoOfAcc | server/apis/ana/routes/rotasDadosEstacoes.js:218-224 | a city's accumulator gives the mean (chuvaTotal over numEstacoes) and the median of that city's stations |
| RotasDadosEstacoes.ResumoSnoc | server/apis/ana/routes/rotasDadosEstacoes.js:218-229 | appending the next city's summary keeps the answer equal, position by position, to the summaries in insertion order |
| RotasDadosEstacoes.Resumir | server/apis/ana/routes/rotasDadosEstacoes.js:218-231 | the second pass yields, for each city in insertion order, its stations, mean and median |
| RotasDadosEstacoes.ChuvaPorCidade | server/apis/ana/routes/rotasDadosEstacoes.js:187-231 | the two passes compute the reference answer: one summary per city in first-occurrence order |
| RotasDadosEstacoes.EntriesTotal | server/apis/ana/routes/rotasDadosEstacoes.js:189-215 | when every station has a value, every station is an entry, in order, keyed by its normalized city |
| RotasDadosEstacoes.EveryStationCounts | server/apis/ana/routes/rotasDadosEstacoes.js:163-195 | after categorization every station counts, those without rainfall data as 0 mm, keyed by its trimmed upper-case city or DESCONHECIDO |
| RotasDadosEstacoes.GroupSizesSnoc | server/apis/ana/routes/rotasDadosEstacoes.js:196-213 | one more entry adds one to the group sizes of a list of distinct cities when its city is listed, and nothing otherwise |
| RotasDadosEstacoes.GroupsPartition | server/apis/ana/routes/rotasDadosEstacoes.js:187-231 | every counted station is in exactly one city: the group sizes add up to the number of entries |
| RotasDadosEstacoes.NewCityGroup | server/apis/ana/routes/rotasDadosEstacoes.js:196-204 | a city first seen at the last entry adds one key at the end of the order and one entry to the group sizes |
| RotasDadosEstacoes.CitiesDistinct | server/apis/ana/routes/rotasDadosEstacoes.js:231 | the answer lists each city once |
| RotasDadosEstacoes.CitiesInOrder | server/apis/ana/routes/rotasDadosEstacoes.js:218-231 | the answer's cities are in the order cities first occur, and each lists exactly its own stations, in input order |
| RotasDadosEstacoes.CitiesCover | server/apis/ana/routes/rotasDadosEstacoes.js:189-215 | every counted station's city is in the answer |
| RotasDadosEstacoes.CityAggregates | server/apis/ana/routes/rotasDadosEstacoes.js:175-224 | a city has at least one station; its chuvaMedia is the mean of its values and its chuvaMediana their median; both lie between the least and the greatest value, and at least half the values are at most, and at least half at least, the median |
| RotasDadosEstacoes.Infos | server/apis/ana/routes/rotasDadosEstacoes.js:23-26 | one code-and-name record per station, in order |
| RotasDadosEstacoes.InfoBuckets | server/apis/ana/routes/rotasDadosEstacoes.js:39-64 | the same keys, and under each key one code-and-name record per station of that bucket, in order |
| RotasDadosEstacoes.Categorizadas | server/apis/ana/routes/rotasDadosEstacoes.js:17-66 | each of the six groupings is the categorized grouping with every station reduced to code and name |
| RotasDadosEstacoes.InfoInBucket | server/apis/ana/routes/rotasDadosEstacoes.js:39-64 | a station in a bucket is listed, by code and name, under the same key |
| RotasDadosEstacoes.CategorizadasPartition | server/apis/ana/routes/rotasDadosEstacoes.js:43-54 | atualizadas and desatualizadas together hold one entry per station, and every station is listed under its own rainfall class in porChuva |
| EstatisticasChuva.MaiorChuvaFirstGreatest | src/utils/ana/telemetry/estatisticasChuva.js:79-82 | the highlighted station is at least 0 and at least every non-null chuvaAcumulada; it is the N/A placeholder when no value is above 0, and otherwise the first station holding the greatest value |
| EstatisticasChuva.CalcularEstatisticas | src/utils/ana/telemetry/estatisticasChuva.js:66-113 | the computation throws exactly when the city list or the station list is not an array |
| EstatisticasChuva.EstatisticasContents | src/utils/ana/telemetry/estatisticasChuva.js:67-90 | one city name per city in input order; the cities without rain are exactly those whose chuvaMedia is 0, and the elevated ones exactly those strictly above the general mean, both in input order; the mean is the sum over the count (0 for no city); the value list is a sorted permutation of the cities' means and the median is the median of those means; totalEstacoesNA is the length of desatualizadas, or 0 |
| EstatisticasChuva.ElevadasVazias | src/utils/ana/telemetry/estatisticasChuva.js:73-77 | with at least one city, no city is above the general mean exactly when every city has the same chuvaMedia |
| EstatisticasChuva.FilterNoneAbove | src/utils/ana/telemetry/estatisticasChuva.js:76 | no city passes the "above m" filter exactly when every chuvaMedia is at most m |
| EstatisticasChuva.MediaGeralBetween | src/utils/ana/telemetry/estatisticasChuva.js:73-74 | with at least one city, some city's chuvaMedia is at most the general mean and some city's is at least it |
| EstatisticasChuva.TotalEstacoesGroups | src/utils/ana/telemetry/estatisticasChuva.js:95 | summing the station counts of the groups built for a list of cities gives the total size of those groups |
| EstatisticasChuva.TotalEstacoesOfRoute | src/utils/ana/telemetry/estatisticasChuva.js:95 | over the /chuvaPorCidade answer, totalEstacoesMonitoradas is the number of stations the route received: each station is counted exactly once |
| EstatisticasChuva.PainelEstatisticas.ObterDadosEstatisticos | src/utils/ana/telemetry/estatisticasChuva.js:29-57 | the answer and the new cache state are those the cache function gives for the old state, the time and the three answers |
| EstatisticasChuva.ServirHit | src/utils/ana/telemetry/estatisticasChuva.js:33-36 | a cache that is set and less than 90000 ms old is returned as is, whatever the requests would bring back, and nothing changes |
| EstatisticasChuva.ServirMiss | src/utils/ana/telemetry/estatisticasChuva.js:40-56 | without a valid cache, a computation that succeeds is returned and stored with the current time; one that throws returns the old cache (or nothing) and changes nothing |
| EstatisticasChuva.ServirRepeat | src/utils/ana/telemetry/estatisticasChuva.js:33-52 | statistics computed at time t are answered again, unchanged and whatever the new data, by every call less than 90000 ms later |
| EstatisticasChuva.ServirKeeps | src/utils/ana/telemetry/estatisticasChuva.js:52-55 | once something is cached, every later answer holds statistics and equals what stays cached: a failure never empties the cache |
| ApiManager.FilterTimestamps | server/apis/hydro_estimator_rainfall/services/apiManager.js:26-34 | a timestamp is kept exactly when it is in the input and converts to an instant within the two hours before now (both ends included) |
| ApiManager.FilterTimestampsIdempotent | server/apis/hydro_estimator_rainfall/services/apiManager.js:26-34 | filtering an already filtered list at the same instant changes nothing |
| ApiManager.Validate | server/apis/hydro_estimator_rainfall/services/apiManager.js:55-61 | success exactly when the request succeeded and the product's value is a non-empty array; a failed request is RequestFailed |
| ApiManager.ApiCache.constructor | server/apis/hydro_estimator_rainfall/services/apiManager.js:14-18 | the cache starts without data, at timestamp 0 (the null the subtraction reads as 0), with the configured ttl |
| ApiManager.ApiCache.FetchTimestamps | server/apis/hydro_estimator_rainfall/services/apiManager.js:44-73 | the answer and the new cache are those of the Fetch function for the old cache state |
| ApiManager.RefreshTimestamps | server/apis/hydro_estimator_rainfall/services/apiManager.js:82-100 | succeeds exactly when the response passes the checks, and then answers the product's list filtered to the last two hours |
| ApiManager.FetchHit | server/apis/hydro_estimator_rainfall/services/apiManager.js:48-51 | a cache hit answers the stored list, filtered at the current time, whatever the response, and leaves the cache as it was |
| ApiManager.FetchMiss | server/apis/hydro_estimator_rainfall/services/apiManager.js:54-68 | on a miss the answer is what refreshTimestamps would give; a success stores the unfiltered list and the time, and a failure keeps the cache |
| ApiManager.FetchUncached | server/apis/hydro_estimator_rainfall/services/apiManager.js:44-73 | with the cache flag off, fetchTimestamps answers what refreshTimestamps would |
| ApiManager.FetchThenHit | server/apis/hydro_estimator_rainfall/services/apiManager.js:48-68 | after a successful fetch at t, a cached call less than ttl later is a hit on the same list, filtered at its own time |
| ApiManager.FetchRecent | server/apis/hydro_estimator_rainfall/services/apiManager.js:26-34 | every answer holds only timestamps of the two hours before the call |
| RefreshScheduler.Delay | src/components/Hydro_Estimator_Rainfall/refreshScheduler.js:25-69 | intervalMs for an empty list; otherwise the time until the last timestamp plus intervalMs, never below minDelay and equal to one of the two; an Invalid Date for the last timestamp throws before any timer is set |
| RefreshScheduler.DelayOfLast | src/components/Hydro_Estimator_Rainfall/refreshScheduler.js:50-58 | the delay depends only on the last element of the list, not on the greatest |
| RefreshScheduler.Fire | src/components/Hydro_Estimator_Rainfall/refreshScheduler.js:72-82 | when the timer fires, exactly one callback runs: onRefreshSuccess with refreshTimestamps' list when it succeeds, onRefreshError with its error otherwise |
| RefreshScheduler.NextRefreshTime | src/components/Hydro_Estimator_Rainfall/refreshScheduler.js:54-63 | with a valid last timestamp, the refresh runs no sooner than minDelay from now and no sooner than intervalMs after that timestamp |
| AnimationManager.WrapFirstRound | src/components/Hydro_Estimator_Rainfall/animationManager.js:141-148 | during the first pass through the list, the k-th frame shown is frame k |
| AnimationManager.WrapPeriodic | src/components/Hydro_Estimator_Rainfall/animationManager.js:141-148 | after as many steps as there are frames, the same frame comes round again |
| AnimationManager.RunCycles | src/components/Hydro_Estimator_Rainfall/animationManager.js:138-152 | after k timer firings, the k+1 frames shown follow the list in order and start over after the last; the wait is 15000 ms after the last frame and 3000 ms after any other |
| AnimationManager.PausedStep | src/components/Hydro_Estimator_Rainfall/animationManager.js:139 | while paused, a timer step changes nothing |
| AnimationManager.PauseResume | src/components/Hydro_Estimator_Rainfall/animationManager.js:155-168 | pause cancels the pending timer and stops the steps; a resume right after it shows the next frame at once, just as one step would |
| AnimationManager.ResumeRunning | src/components/Hydro_Estimator_Rainfall/animationManager.js:163-169 | resume has no effect unless paused |
| AnimationManager.Animation.constructor | src/components/Hydro_Estimator_Rainfall/animationManager.js:134-136 | the closure starts at frame 0, not paused, with no timer pending |
| AnimationManager.Animation.NextFrame | src/components/Hydro_Estimator_Rainfall/animationManager.js:138-150 | the new state is one step of the frame loop from the old one |
| AnimationManager.Animation.Pause | src/components/Hydro_Estimator_Rainfall/animationManager.js:155-162 | sets the paused flag and clears the pending timer |
| AnimationManager.Animation.Resume | src/components/Hydro_Estimator_Rainfall/animationManager.js:163-169 | when paused, clears the flag and takes one step; otherwise changes nothing |
| AnimationManager.StartAnimation | src/components/Hydro_Estimator_Rainfall/animationManager.js:127-152 | no controller for an empty list; otherwise a new controller that has already shown the first frame |
| TelemetricChart.MaxOr0 | src/utils/ana/telemetry/telemetricChart.js:50 | the maximum of the non-null values and 0: at least 0, above every value, and either 0 or one of the values |
| TelemetricChart.MaxReal0 | src/utils/ana/telemetry/telemetricChart.js:213 | the maximum of the running totals and 0: at least 0, above every total, and either 0 or one of them |
| TelemetricChart.SortAndPrepareData | src/utils/ana/telemetry/telemetricChart.js:36-52 | it throws exactly when the comparator meets a missing time; otherwise labels and bar values follow the sorted copy one for one, and maxValue is the greatest bar or 0 |
| TelemetricChart.PreparedOldestFirst | src/utils/ana/telemetry/telemetricChart.js:37-41 | with valid times the sorted copy holds the same readings, ordered oldest first |
| TelemetricChart.AcumuladoSum | src/utils/ana/telemetry/telemetricChart.js:61-68 | the running total is the plain sum of the values that are not null |
| TelemetricChart.GetCumulativeData | src/utils/ana/telemetry/telemetricChart.js:61-68 | element i of the result is the sum of the non-null values up to and including index i |
| TelemetricChart.Cumulative | src/utils/ana/telemetry/telemetricChart.js:61-68 | one running total per value |
| TelemetricChart.CumulativeStep | src/utils/ana/telemetry/telemetricChart.js:63-67 | a null keeps the previous total and a value adds to it |
| TelemetricChart.CumulativeGrows | src/utils/ana/telemetry/telemetricChart.js:61-68 | with no negative value the running total never decreases |
| TelemetricChart.CeilingAbove | src/utils/ana/telemetry/telemetricChart.js:211-214 | the y ceiling is at least 0 and above every bar and every point of the running total |
| TelemetricChart.BarBelowTotal | src/utils/ana/telemetry/telemetricChart.js:203-209 | with no negative reading each bar stays under the running total at its index |
| TelemetricChart.CeilingIsTotal | src/utils/ana/telemetry/telemetricChart.js:211-214 | with no negative reading the y ceiling is the final running total |
| TelemetricChart.AcumuladoNonNegative | src/utils/ana/telemetry/telemetricChart.js:61-68 | a sum over values drawn from a list without negative values is not negative |
| TelemetricChart.ChuvaChart | src/utils/ana/telemetry/telemetricChart.js:194-214 | renderChuvaChart throws exactly when sortAndPrepareData would; otherwise it uses the same labels and bars, the running totals of the bars, and a ceiling above all of them |
| TelemetricChart.FormatLabelOutcome | src/utils/ana/telemetry/telemetricChart.js:77-89 | the formatter throws exactly on a null tick or one without a space, leaving previousDay unchanged; otherwise previousDay becomes the tick's date part |
| TelemetricChart.FormatLabelLong | src/utils/ana/telemetry/telemetricChart.js:84-88 | the short "hh:mm" form is returned exactly when the index is not 0 and the date part equals previousDay |
| TelemetricChart.FormatLabelConsecutive | src/utils/ana/telemetry/telemetricChart.js:84-88 | after one tick, a later tick shows the day again exactly when its date part differs |
| TelemetricChart.SplitThree | src/utils/ana/telemetry/telemetricChart.js:79 | three pieces without the separator, joined by it, split back into themselves |
| TelemetricChart.FormatLabelShape | src/utils/ana/telemetry/telemetricChart.js:78-88 | a "YYYY-MM-DD HH:MM:SS" tick reads "DD/MM HH:MM" on the first tick or a new day and "HH:MM" otherwise, and previousDay follows |
| TelemetricChart.LabelFormatter.Format | src/utils/ana/telemetry/telemetricChart.js:75-90 | one call of the closure returns the label and updates the captured previousDay as the formatting function says |
| VerticalBarChart.ShortLabelOneWord | src/utils/ana/telemetry/charts/verticalBarChart.js:36 | a one-word label is its own short label |
| VerticalBarChart.ShortLabelWords | src/utils/ana/telemetry/charts/verticalBarChart.js:36 | a label of two or more words is cut after the second word |
| VerticalBarChart.Pairs | src/utils/ana/telemetry/charts/verticalBarChart.js:34-38 | one pair per label: the label, its first two words, and the value at the same index (undefined past the end) |
| VerticalBarChart.ValidSorted | src/utils/ana/telemetry/charts/verticalBarChart.js:40-41 | the sorted valid pairs are the input's pairs whose value is a positive number, each as often as it occurs |
| VerticalBarChart.Preparar | src/utils/ana/telemetry/charts/verticalBarChart.js:43-45 | the three arrays have one entry per valid pair; every value is positive and every short label is its full label's first two words |
| VerticalBarChart.PrepararFromInput | src/utils/ana/telemetry/charts/verticalBarChart.js:34-45 | every bar is a label of the input with its own value |
| VerticalBarChart.PrepararDescending | src/utils/ana/telemetry/charts/verticalBarChart.js:41 | the bar values come out from largest to smallest |
| VerticalBarChart.PrepararKeepsPositive | src/utils/ana/telemetry/charts/verticalBarChart.js:40-45 | every label whose value is a positive number gets a bar with that value |
| VerticalBarChart.PrepararCount | src/utils/ana/telemetry/charts/verticalBarChart.js:40-45 | there are exactly as many bars as pairs with a positive number |
| VerticalBarChart.DatasetOf | src/utils/ana/telemetry/charts/verticalBarChart.js:121-123 | the labels are the cities' names and the values their medians, index by index |
| VerticalBarChart.Numbers | src/utils/ana/telemetry/charts/verticalBarChart.js:123 | the medians are passed on as numbers, one for one |
| VerticalBarChart.AtualizaRenders | src/utils/ana/telemetry/charts/verticalBarChart.js:114-150 | the chart is redrawn exactly when the request succeeds with data that differs from the last drawn; it then shows the new data, and otherwise nothing changes |
| VerticalBarChart.AtualizaRepeat | src/utils/ana/telemetry/charts/verticalBarChart.js:125-129 | the same cities twice in a row: the second call changes nothing |
| VerticalBarChart.GraficoChuva.AtualizarGraficoDeChuva | src/utils/ana/telemetry/charts/verticalBarChart.js:111-150 | one call updates ultimoDataset and the chart as the update function on the module state says |
| ControleCamadas.OrdenarCamadas | src/components/layers/controleCamadas.js:69-77 | the sorted object holds the same entries |
| ControleCamadas.OrdenarCamadasOrder | src/components/layers/controleCamadas.js:71-75 | entries come out by rank (position in the list, 999 when absent), and the unlisted ones keep their relative order |
| ControleCamadas.OrdenarCamadasListedFirst | src/components/layers/controleCamadas.js:69-77 | with fewer than 999 listed names every listed entry comes before every unlisted one, in list order |
| ControleCamadas.OrdemGeralShort | src/components/layers/controleCamadas.js:42-61 | the priority list has 16 names, well under the 999 rank of unlisted names |
| ControleCamadas.FileOverlayLabel | src/components/layers/controleCamadas.js:20-28 | the generic icon is used exactly for an extension without an icon of its own, and "kmz" is shown as "kml" |
| ControleCamadas.FileOverlayLabelParts | src/components/layers/controleCamadas.js:20-28 | a name with a dot shows its base before the last dot and its lower-cased extension (kmz as kml) with that extension's icon |
| ControleCamadas.NoDotNotImported | src/components/layers/controleCamadas.js:101 | a text without a dot ends with none of the imported extensions |
| ControleCamadas.DotlessNotImported | src/components/layers/controleCamadas.js:97-101 | a name without a dot, such as a station layer's, gets a plain label, and its label text is not an imported layer's |
| ControleCamadas.OneDotFileNotImported | src/components/layers/controleCamadas.js:20-38 | an imported file whose name has one dot reaches the style test as its base name, so it is not treated as an imported layer, whatever the case of its extension |
| ControleCamadas.Find | src/components/layers/controleCamadas.js:250 | the first entry with the key, or -1 when no entry has it |
| ControleCamadas.FindUnique | src/components/layers/controleCamadas.js:250 | the first-match description determines the position |
| ControleCamadas.AssignLookup | src/components/layers/controleCamadas.js:250 | after obj[k] = v, k reads v and every other key reads as before |
| ControleCamadas.AssignNames | src/components/layers/controleCamadas.js:250 | obj[k] = v adds k to the keys and never duplicates one |
| ControleCamadas.SpreadLookup | src/components/layers/controleCamadas.js:256 | in { ...a, ...b } a key of b reads b's value and any other key reads a's |
| ControleCamadas.SpreadNames | src/components/layers/controleCamadas.js:256 | { ...a, ...b } has the keys of both and no key twice |
| ControleCamadas.ExistingOverlays | src/components/layers/controleCamadas.js:247-252 | existingOverlays has no key twice |
| ControleCamadas.OverlayEntries | src/components/layers/controleCamadas.js:277-285 | one overlay entry per ordered overlay, under its label, in order |
| ControleCamadas.LookupMember | src/components/layers/controleCamadas.js:256 | an entry of an object is what its key reads |
| ControleCamadas.OrderedNames | src/components/layers/controleCamadas.js:256-258 | the merged, ordered overlays have no name twice, and their names are the existing overlays' and the new ones' |
| ControleCamadas.OrderedLayers | src/components/layers/controleCamadas.js:256-258 | each merged overlay carries the new layer for its name when there is one, else the existing one |
| ControleCamadas.LabelHtmlNotFileStyle | src/components/layers/controleCamadas.js:279-285 | an overlay added under a file label's markup no longer ends in a file extension, so the next refresh lists it under that markup as it is |
| ControleCamadas.LayerControl.RemoveOverlays | src/components/layers/controleCamadas.js:270-275 | removing every overlay entry leaves the base layers in order |
| ControleCamadas.LayerControl.AddOverlay | src/components/layers/controleCamadas.js:285 | addOverlay appends one overlay entry |
| ControleCamadas.CollectOverlays | src/components/layers/controleCamadas.js:247-252 | the loop builds existingOverlays from the overlay entries in order |
| ControleCamadas.OverlayEntriesSnoc | src/components/layers/controleCamadas.js:277-285 | one more ordered overlay adds one more entry at the end |
| ControleCamadas.AddOverlays | src/components/layers/controleCamadas.js:277-285 | the loop appends one entry per ordered overlay, under its label |
| ControleCamadas.ExistingOverlaysEmpty | src/components/layers/controleCamadas.js:247-252 | existingOverlays is empty exactly when the control lists no overlay entry |
| ControleCamadas.ApplyOverlayStyles | src/components/layers/controleCamadas.js:86-111 | the loop over the overlay labels raises exactly when some label's trimmed text is not an imported layer's, since getMarkerColorFromLayerName is not exported |
| ControleCamadas.DotlessOverlayRaises | src/components/layers/controleCamadas.js:97-111 | a merged overlay whose name has no dot makes the style pass raise |
| ControleCamadas.RefreshOverlays | src/components/layers/controleCamadas.js:237-307 | nothing without a control; with an existing overlay the call of getMarkerColorFromLayerName, which estiloMarcador.js does not export, raises before anything changes; otherwise the control holds its base layers, then the merged overlays in priority order under their labels, and the call raises exactly when the style pass does |
| GerenciadorArquivos.Started | src/components/gerenciadorArquivos.js:33-70 | no file starts reading without a non-empty selection; otherwise exactly the selected files that are not duplicates starts reading when skipDuplicates is on, and all of them when it is off |
| GerenciadorArquivos.SameSelectionDuplicates | src/components/gerenciadorArquivos.js:49-54 | two equal files chosen in one selection both start reading, since the duplicate test only sees files whose reads completed |
| Seqs.IndexOf | src/components/gerenciadorArquivos.js:177 | indexOf gives the first position of the element, or -1 exactly when it is absent (also the position lookup of controleCamadas.js:72-73) |
| GerenciadorArquivos.RemovedMeaning | src/components/gerenciadorArquivos.js:177-180 | removal takes out exactly one copy of a file in the list and leaves the list alone when it is absent |
| GerenciadorArquivos.RemovedOrder | src/components/gerenciadorArquivos.js:177-180 | the files before and after the removed copy keep their order, and none before it is the same file |
| GerenciadorArquivos.Importacao.ImportFiles | src/components/gerenciadorArquivos.js:33-70 | the loop starts reading exactly the files Started gives |
| GerenciadorArquivos.Importacao.OnLoad | src/components/gerenciadorArquivos.js:146-149 | a completed read appends the file and shows the confirm button |
| GerenciadorArquivos.Importacao.RemoveUploadedFile | src/components/gerenciadorArquivos.js:172-186 | the first occurrence of the file is spliced out, and the confirm button is hidden once the list is empty |
| GerenciadorArquivos.GetFileNameParts | src/components/gerenciadorArquivos.js:234-240 | a name without a dot has an empty name part and its whole text, lower-cased, as extension |
| GerenciadorArquivos.FileNamePartsSplit | src/components/gerenciadorArquivos.js:234-240 | a name with a dot is its base before the last dot and its lower-cased extension after it |
| GerenciadorArquivos.ExtensionsAgree | src/components/gerenciadorArquivos.js:269-271 | extractFileExtension and getFileNameParts agree on the extension of every name |
| GerenciadorArquivos.CreateLayerFromContent | src/components/gerenciadorArquivos.js:281-301 | only json, geojson, kml and gpx build a layer; JSON fails exactly when JSON.parse or L.geoJSON rejects the text, KML exactly when the parser reports an error, GPX always builds, and any other extension is unsupported |
| GerenciadorArquivos.RenderFileCaseInsensitive | src/components/gerenciadorArquivos.js:196-226 | the builder is chosen by the lower-cased extension, so "MAPA.KML" is read as KML |
| HybridLayers.HybridLayer.constructor | src/components/ana/HybridLayer.js:4-10 | a new hybrid layer holds its two sublayers and the flag, and is detached |
| HybridLayers.HybridLayer.OnAdd | src/components/ana/HybridLayer.js:13-20 | the layer is attached, only the active sublayer joins the map, and the active sublayer is then shown and the other is not |
| HybridLayers.HybridLayer.OnRemove | src/components/ana/HybridLayer.js:23-27 | both sublayers leave the map and the layer is detached, the flag unchanged |
| HybridLayers.HybridLayer.SetClusterActive | src/components/ana/HybridLayer.js:30-41 | nothing while detached or when the flag already has the value; otherwise the flag is set and the sublayers swap on the map, so exactly the active one is shown |
| HybridLayers.HybridLayer.AddLayer | src/components/ana/HybridLayer.js:44-47 | the marker joins both sublayers, which keep holding the same markers |
| HybridLayers.HybridLayer.RemoveLayer | src/components/ana/HybridLayer.js:50-53 | the marker leaves both sublayers, which keep holding the same markers |
| HybridLayers.HybridLayer.ClearLayers | src/components/ana/HybridLayer.js:56-63 | each sublayer with a clearLayers method is emptied and any other is left as it was |
| HybridLayers.Grupo.AddLayer | src/components/ana/HybridLayer.js:45 | a group's addLayer adds the marker |
| HybridLayers.Grupo.RemoveLayer | src/components/ana/HybridLayer.js:51 | a group's removeLayer removes the marker |
| HybridLayers.Grupo.ClearLayers | src/components/ana/HybridLayer.js:58 | a group's clearLayers empties it |
| HybridLayers.Mapa.AddLayer | src/components/ana/HybridLayer.js:16 | map.addLayer puts the group on the map |
| HybridLayers.Mapa.RemoveLayer | src/components/ana/HybridLayer.js:24 | map.removeLayer takes the group off the map |
| GerenciadorDeMarcadores.NumDigits | src/components/ana/gerenciadorDeMarcadores.js:176 | a number has at least one decimal digit |
| GerenciadorDeMarcadores.NumDigitsFits | src/components/ana/gerenciadorDeMarcadores.js:176 | the digit count is enough to write the number |
| GerenciadorDeMarcadores.Decimal | src/components/ana/gerenciadorDeMarcadores.js:176 | String() of a natural number is a non-empty run of digits |
| GerenciadorDeMarcadores.DecimalValue | src/components/ana/gerenciadorDeMarcadores.js:176 | those digits read back as the number |
| GerenciadorDeMarcadores.KeyOfMeaning | src/components/ana/gerenciadorDeMarcadores.js:176 | distinct numeric codes get distinct markerMap keys, and a number and its decimal text share one |
| GerenciadorDeMarcadores.LoadedKeys | src/components/ana/gerenciadorDeMarcadores.js:175-188 | load leaves existing markers untouched and adds a marker exactly for each new key that has a station with coordinates |
| GerenciadorDeMarcadores.LoadedNew | src/components/ana/gerenciadorDeMarcadores.js:175-188 | the marker of a new key is the first station with that key and coordinates |
| GerenciadorDeMarcadores.LoadedIds | src/components/ana/gerenciadorDeMarcadores.js:181-185 | new markers get fresh, distinct ids, and the ids added to the hybrid layer are exactly theirs |
| GerenciadorDeMarcadores.ComparedKeys | src/components/ana/gerenciadorDeMarcadores.js:196-224 | the first loop of update keeps every key and every marker's id, and leaves in currentCodes exactly the keys that no new station has |
| GerenciadorDeMarcadores.ComparedUnchanged | src/components/ana/gerenciadorDeMarcadores.js:198-224 | when no station differs from its marker's data, nothing changes and no change is reported |
| GerenciadorDeMarcadores.DistinctCodesInit | src/components/ana/gerenciadorDeMarcadores.js:198 | a prefix of a list with distinct codes has distinct codes, none equal to the last one's |
| GerenciadorDeMarcadores.ComparedUnlisted | src/components/ana/gerenciadorDeMarcadores.js:198-224 | the marker of a key no new station has keeps its data |
| GerenciadorDeMarcadores.ComparedDistinctData | src/components/ana/gerenciadorDeMarcadores.js:200-213 | with distinct codes, each listed marker holds the station with its new classification when they differ, and its own data otherwise |
| GerenciadorDeMarcadores.ComparedDistinctChange | src/components/ana/gerenciadorDeMarcadores.js:204-220 | with distinct codes, update reports a change exactly when some listed station differs from its marker's data |
| GerenciadorDeMarcadores.UpdatedKeys | src/components/ana/gerenciadorDeMarcadores.js:195-231 | after update the keys are the earlier keys that some new station has; update never adds a key |
| GerenciadorDeMarcadores.CategoryTestAddsNothing | src/components/ana/gerenciadorDeMarcadores.js:202-206 | with both categories computed at the same instant the category test adds nothing: a change is reported exactly when the data differ |
| GerenciadorDeMarcadores.UpdateAgainChanges | src/components/ana/gerenciadorDeMarcadores.js:204-213 | a station sent without classification fields, once reclassified, counts as changed again when sent unchanged |
| GerenciadorDeMarcadores.WithAlertMeaning | src/components/ana/gerenciadorDeMarcadores.js:254-260 | an unknown code changes nothing; a known one sets that marker's highRainAlert and nothing else |
| GerenciadorDeMarcadores.MarkerColorMeaning | src/components/ana/gerenciadorDeMarcadores.js:20-32 | a layer type other than chuva, nivel and vazao gets the general colour; otherwise the classification's colour in its table, or the default when it is missing or unknown |
| GerenciadorDeMarcadores.ReclassifiedColors | src/components/ana/gerenciadorDeMarcadores.js:20-32 | a marker classified by categorizeStation gets its own entry in each colour table, never the fallback |
| GerenciadorDeMarcadores.ClassesColored | src/utils/config.js:113-144 | every class the classifiers produce has its own, non-default entry in its colour table |
| GerenciadorDeMarcadores.RainColorsDistinct | src/utils/config.js:120-129 | the seven rain classes have distinct colours |
| GerenciadorDeMarcadores.StationMarkers.constructor | src/components/ana/gerenciadorDeMarcadores.js:83-101 | the module starts with no map, no markers, and a hybrid layer over the cluster and plain groups with clustering on |
| GerenciadorDeMarcadores.StationMarkers.Initialize | src/components/ana/gerenciadorDeMarcadores.js:158-166 | initialize remembers the map and puts the hybrid layer's active sublayer on it |
| GerenciadorDeMarcadores.StationMarkers.Load | src/components/ana/gerenciadorDeMarcadores.js:168-193 | a failed request changes nothing; otherwise markerMap and both sublayers become what the load function gives |
| GerenciadorDeMarcadores.StationMarkers.Update | src/components/ana/gerenciadorDeMarcadores.js:195-235 | update succeeds unless there is no map and a stale code; it then reports whether anything changed and removes the stale markers from markerMap and both sublayers, and on failure it has removed one stale marker from the sublayers only |
| GerenciadorDeMarcadores.StationMarkers.RemoveStale | src/components/ana/gerenciadorDeMarcadores.js:226-231 | each stale marker leaves both sublayers and markerMap; with no map the first removal throws |
| GerenciadorDeMarcadores.StationMarkers.Clear | src/components/ana/gerenciadorDeMarcadores.js:237-240 | markerMap is emptied, and so is each sublayer that has clearLayers |
| GerenciadorDeMarcadores.StationMarkers.SetHighRainAlert | src/components/ana/gerenciadorDeMarcadores.js:254-260 | markerMap becomes what the alert function gives: only that code's flag changes |
| Stats.Ascending | server/apis/ana/routes/rotasDadosEstacoes.js:177 | the ascending copy holds the same values, in ascending order |
| Stats.Median | server/apis/ana/routes/rotasDadosEstacoes.js:176 | the median of no values is 0 |
| Stats.MedianPermutation | server/apis/ana/routes/rotasDadosEstacoes.js:175-184 | the median depends only on the values, not on their order |
| Stats.MedianOfAscending | server/apis/ana/routes/rotasDadosEstacoes.js:178-183 | on ascending values the median is the middle one, or the mean of the two middle ones for an even count |
| Stats.MedianHalves | server/apis/ana/routes/rotasDadosEstacoes.js:175-184 | at least half the values are at most the median and at least half are at least it |
| Stats.MedianBetween | server/apis/ana/routes/rotasDadosEstacoes.js:175-184 | the median lies between the least and the greatest value |
| Stats.MeanBetween | src/utils/ana/telemetry/estatisticasChuva.js:73-74 | the mean of a non-empty list lies between its least and greatest value |
| Stats.MeanAllEqual | src/utils/ana/telemetry/estatisticasChuva.js:73-76 | no value is above the mean exactly when all values are equal |
| JsDate.DateUtcInRange | src/utils/formatoData.js:62-63 | Date.UTC with an in-range month is the instant of that date and time, with years 0 to 99 read as 1900 to 1999 |
| JsDate.DateUtcTwoDigitYear | src/utils/formatoData.js:62-63 | Date.UTC reads a year from 0 to 99 as 1900 plus it |
| JsDate.DateUtcOtherYear | src/utils/formatoData.js:62-63 | Date.UTC keeps any other year as given |
| JsDate.FieldsOf | src/utils/formatoData.js:80 | every instant splits into a valid date and an in-range time of day that give back the instant |
| JsDate.FieldsOfUtc | src/utils/formatoData.js:63-80 | the fields of the instant of a valid UTC date and time are that date and time |
| JsDate.NewDate | src/utils/ana/classification/categorizacaoEstacoes.js:35 | a text outside the Date Time String Format is left to the implementation; one in the format gives an instant exactly when its fields are valid |
| JsDate.ParseDateTimeText | src/utils/ana/classification/categorizacaoEstacoes.js:35 | a date-time text in the format reads back as its own fields |
| JsDate.NewDateOfText | src/utils/ana/classification/categorizacaoEstacoes.js:35 | a well-formed date-time text with valid fields gives its instant |
| JsDate.FormTimeOfText | server/apis/ana/services/node/historicalStationData.js:65 | the instant of a date-time text is its UTC instant plus the fraction's milliseconds minus the zone offset |
| JsDate.IsoOfFieldsText | src/utils/formatoData.js:80 | toISOString writes the padded fields with a "Z" zone |
| JsDate.IsoOfFieldsParses | server/apis/ana/services/node/mesclarDadosEstacoes.js:26-27 | an ISO text of valid fields parses back as their instant |
| JsDate.IsoRoundTrip | server/apis/ana/services/node/mesclarDadosEstacoes.js:26-27 | new Date(d.toISOString()) is d for every year from 0 to 9999 |
| JsDate.FracMs | server/apis/ana/services/node/historicalStationData.js:65 | the fraction of a second is read as milliseconds below 1000 |
| JsDate.DigitRun | server/apis/ana/services/node/historicalStationData.js:65 | the leading digits of a text, ending at the first non-digit |
| Calendar.CivilFromDays | server/apis/ana/services/cemaden_data_scheduler.py:136 | every day number is the day number of a valid date |
| Calendar.DaysFromCivilInjective | server/apis/ana/services/cemaden_data_scheduler.py:136 | distinct valid dates have distinct day numbers |
| Calendar.CivilRoundTrip | server/apis/ana/services/cemaden_data_scheduler.py:136 | converting a valid date to its day number and back gives the date |
| Calendar.PreviousDayFromYearOne | server/apis/ana/services/cemaden_data_scheduler.py:136 | the day before a date from year 1 on is still from year 1 on, except before 01/01/0001 |
| MesclarDadosEstacoes.Merger.constructor | server/apis/ana/services/node/mesclarDadosEstacoes.js:51 | a new merger starts with the missing-telemetry counter at 0 |
| EstatisticasChuva.PainelEstatisticas.constructor | src/utils/ana/telemetry/estatisticasChuva.js:3-4 | the panel starts with no cached statistics and a last update time of 0 |
| TelemetricChart.LabelFormatter.constructor | src/utils/ana/telemetry/telemetricChart.js:76 | the label formatter starts with no previous day |
| VerticalBarChart.GraficoChuva.constructor | src/utils/ana/telemetry/charts/verticalBarChart.js:111-112 | the chart module starts with no chart instance and no last dataset |

## Left out

- File system, network and clock. `fetch`, `fetch_station_data`, `fs` reads and writes, `new Date()`, `Date.now()`, `addHours(now, -3)` and date-fns-tz appear only as parameters: the current time, request outcomes, directory listings and file contents.
- Timers and concurrency. Only their effect on the state is modelled: which timer is pending and what its callback does. Parallel requests and interleavings are not modelled.
- Floating point. Readings are reals. `toFixed(2)`, `"%.2f"` and the `Math.sqrt` in the standard deviation (estatisticasChuva.js:93) are not modelled. Rounding to two decimals is stated only as a bound.
- Number, parseFloat, float() and int() on text are parameters or digit-level functions. The engines' full numeric grammars are not modelled.
- The `/todas` route is not modelled. It only copies inventory fields next to `categorizeStation`'s result, which `CategorizacaoEstacoes` models.
- DataFormatter's locale formatting (formatoData.js:27-46) is not modelled: the engine's Intl data is not part of this model.
- Object key order. JavaScript objects and Python dicts become maps where the order is not observable. `/chuvaPorCidade` keeps the cities' order of first appearance. `Object.values` (rotasDadosEstacoes.js:231) lists integer-like keys first in ascending order, so the model assumes that no city name is an array index.
- The timestamp cache's TTL in apiManager.js is a parameter. `CACHE_CONFIG` in src/utils/config.js:26-37 has no `TIMESTAMPS` entry, so `CACHE_CONFIG.TIMESTAMPS.TTL` at apiManager.js:17 throws a TypeError when the module is evaluated, and none of its functions can run. The model describes them as they behave once a TTL is given.
- Equality by `JSON.stringify` is modelled as value equality of the records.
- Chart.js, Leaflet and the DOM. For these the model keeps only the data handed to them and the bookkeeping: `atualizarEstatisticasNaUI`; `applyOverlayStyles`' DOM edits, where only its imported-layer test and the raise it leads to are modelled, the overlays container is taken to exist, and a name is read as text even when it holds markup; `initializeLayerControl`; `createLayerNameHTML`'s markup; `addLayerToMap`; `L.geoJSON`, omnivore and GPX parsing, which become the parameters `jsonParses` and `xmlHasParserError`.
- ControleCamadas.RefreshOverlays: the style restore after `previousStyles` (controleCamadas.js:287-301), which sets indicator colours, calls `setClusterActive` and can throw in `querySelector` for a label-HTML key, is not modelled. It runs only for a name that was an overlay before the refresh, and with any such overlay the model already raises at controleCamadas.js:264. The styles `applyOverlayStyles` sets on the labels before it raises are not modelled. In a loader that rejects the missing `getMarkerColorFromLayerName` export at link time, controleCamadas.js does not load at all; the model follows a loader that binds it to `undefined`.
- GerenciadorDeMarcadores.StationMarkers.Load: the `filterMarkersByBounds()` call that ends load (gerenciadorDeMarcadores.js:189, defined at 103-131) is not modelled. With a map set, it removes the markers outside the map's bounds from the active sublayer and adds back the ones inside, so the two sublayers then differ. The model's sublayers both gain every new marker, which is the state only while no map is set. The map bounds are not part of this model.
- Map views of the markers: `enableCluster`/`disableCluster`, `createClusterIcon` and `getMarkerTextColorByType` are display code.
- The `chuvaValor` text of load (gerenciadorDeMarcadores.js:178-181) is not modelled. `createMarkerFromStation(station, renderer)` (marcador.js:32) does not take the third argument it is passed, so the text never reaches a marker.
- Marker objects are values. `setLatLng` and `updateIcon` are a replacement of the station's data. Aliasing of marker objects is not modelled. `currentMap.removeLayer(marker)` is modelled only as the TypeError it throws while no map is set.
- `getAllMarkers` and `getMarkerByCode` are plain reads of the marker map.
- The marker's `camada` field is not modelled.
- Station codes are natural numbers, and `String(codigoestacao)` is their decimal text.
- The category function that marker updates apply is a parameter; `CategorizacaoEstacoes` models categorization itself.
- `save_by_date` (cemaden_data_scheduler.py:165-193) is file I/O: only `merge_day_info`, the document it writes, is modelled. The snapshot write of gerarCacheEstacoes.js:76-78 is modelled as the merged entries it writes, not as a file.
- `runCategorization` (mesclarDadosEstacoes.js) only logs, so it is not modelled.
- JsDate: dates outside the years 1-9999 and expanded years (`+YYYYYY`) take the engine's implementation-defined fallback path, which is a parameter.
- Records.NewestFirst and Records.OldestFirst: with an Invalid Date among valid instants, the comparators are not consistent, and ECMA-262 leaves the sorted order implementation-defined. The model fixes one order, and its ordering lemmas assume every instant is valid.
- Text.LowerChar and Text.UpperText map only the ASCII and Latin-1 letters and leave every character above U+00FF as it is. JavaScript's `toLowerCase`/`toUpperCase` apply the full Unicode case mapping, such as 'Ā' to 'ā'.
- RefreshScheduler.Fire: an exception thrown by `onRefreshSuccess` is caught by the same `try`, so `onRefreshError` also runs. The callbacks are parameters that do not throw here.
- A `setTimeout` delay above 2^31-1 ms fires at once in browsers and Node; the model's timers keep the delay as given.
- GerenciadorDeMarcadores.StationMarkers.Update: Leaflet's `setLatLng` throws on a NaN coordinate; the model replaces the station's data without that check.
- GerenciadorDeMarcadores.StationMarkers.RemoveStale: with no map, the TypeError is thrown at the first stale code in the Set's insertion order, once that marker has left the hybrid layer. The model's sets have no order, so it states only that the marker of some stale code has left both sublayers.
- ApiManager: `fetchTimestamps` reads the clock at apiManager.js:46 for the cache check and the stored timestamp, and `filterTimestamps` reads it again at apiManager.js:27, after the request. The model uses one `now` for all three.
