# SpaceX data pipeline: snapshots, load, queries and statistics

This project models, in Dafny, the data core of a small SpaceX dashboard. The application does four things:

- It fetches the rockets, launches and Starlink resources and writes each payload to a time-stamped JSON snapshot, `raw-<key>-<DD-MM-YYYY_HH-MM>.json`.
- It rotates older snapshots into a backup directory, which is trimmed to the 40 newest, and bulk-loads the live snapshots into three database tables keyed by `id`.
- It answers rocket queries with an optional filter and an optional sort.
- It computes summary statistics over the three tables.

The modules follow the source files:

- `Models` (app/models.py) covers three things:
  - the `Rockets`, `Launches` and `Starlink` row shapes, with their column sets and `to_dict` projections;
  - the table store: a map from primary key to row per table, plus foreign-key resolution, checked for each row as the session flushes it;
  - the `create_tables` guard.
- `Snapshots` (the file half of app/backend/storage.py) covers snapshot names and the directory model. A directory is a map from file name to file (modification time and JSON content), together with the order in which `os.listdir` lists the names. The module also has `move_to_backup` and `cleanup_backup_folder`, both as specification functions and as methods of a `FileSystem` class that holds the `data` and `backup` directory trees.
- `Loader` (the `save_to_db` half of app/backend/storage.py) covers how JSON items become rows and how rows are merged by `id`. It also holds the `Database` class, whose `SaveToDb` method commits all three tables or nothing.
- `Storage` (`save_data` in app/backend/storage.py) covers one scheduled run: the turn of each endpoint, then the load.
- `QuerySortFilter` (app/helpers/query_sort_filter.py) models a query as the sequence of rows it returns, or as a query the database refuses when it runs. Each model class lists its columns with their SQL types, its relationships and its other class attributes, which is what `getattr` can find. Sorting yields a permutation. Filtering yields a subsequence.
- `RocketFilterSort` (app/backend/rocket_resources/rocket_filter_sort.py) models `get_filter_sort_rocket`. It also holds the request-parameter mapping and the status codes of the rockets endpoint (app/backend/rocket_resources/rockets.py).
- `Statistics` (app/helpers/statistics.py) models the rocket, launch and Starlink summaries as folds over rows.
- Three support modules:
  - `Wrappers` holds Option and Result;
  - `Strings` holds digits, zero-padding, lower-casing and substrings;
  - `JsonData` holds JSON values and nested lookup.

## Model

| member | source | states |
|---|---|---|
| Models.FormatDate | app/models.py:39 | A `Date` column's text form is always ten characters, `YYYY-MM-DD`; `QuerySortFilter.FilterByDateTextKeepsRow` uses it as the filter value. |
| Models.ParseFormatDate | app/models.py:39 | Reading back the ISO text of a calendar date gives the same date. |
| Models.RocketToDict | app/models.py:43-55 | `Rockets.to_dict` has exactly the ten column names as keys. |
| Models.LaunchToDict | app/models.py:83-91 | `Launches.to_dict` has exactly the six column names as keys. The `rocket` and `starlinks` relationships are not among them. |
| Models.StarlinkToDict | app/models.py:121-131 | `Starlink.to_dict` has exactly the eight column names as keys, `launch_id` included. |
| Models.RocketDictRoundTrip | app/models.py:43-55 | Each key of the rocket projection holds its own field: rebuilding a rocket from its dict gives the same rocket. |
| Models.LaunchDictRoundTrip | app/models.py:83-91 | Rebuilding a launch from its dict gives the same launch. |
| Models.StarlinkDictRoundTrip | app/models.py:121-131 | Rebuilding a satellite from its dict gives the same satellite. |
| Models.RocketIdField | app/models.py:30 | The `id` attribute of the rockets model reads the primary-key field of the row. |
| Models.CreateTables | app/models.py:139-149 | Afterwards all three tables exist. Existing tables are kept, and only the three model tables are ever added. When all three already exist, nothing changes. |
| Models.CreateTablesIdempotent | app/models.py:143-149 | Calling `create_tables` a second time changes nothing. |
| Snapshots.TimeStamp | app/backend/storage.py:50 | The `%d-%m-%Y_%H-%M` stamp is always 16 characters (fields zero-padded). |
| Snapshots.SnapshotName | app/backend/storage.py:64 | The file name is the key plus 26 fixed characters: `raw-`, `-`, the stamp and `.json`. |
| Snapshots.TimeStampRoundTrip | app/backend/storage.py:50 | The minute can be read back from its stamp: the stamp is injective. |
| Snapshots.SnapshotNameRoundTrip | app/backend/storage.py:64 | Both the key and the minute can be read back from a snapshot name. |
| Snapshots.SameNameIffSameMinute | app/backend/storage.py:50-64 | Two writes for one key get the same name exactly when they happen in the same minute (both directions). |
| Snapshots.SnapshotNameIsJson | app/backend/storage.py:64 | Every snapshot name ends in `.json`, so the rotation and the load see it. |
| Snapshots.JsonNames | app/backend/storage.py:86-91 | The collected names are exactly the listed names that end in `.json`. |
| Snapshots.Put | app/backend/storage.py:67-68 | Writing a file sets exactly that name to the new file, and keeps the directory's listing valid. |
| Snapshots.Delete | app/backend/storage.py:131-132 | `os.remove` drops exactly that name, and the listing stays valid. |
| Snapshots.InsertByMtimePerm | app/backend/storage.py:96 | Inserting into the mtime order adds exactly the one name (as a multiset). |
| Snapshots.InsertByMtimeSorted | app/backend/storage.py:96 | Inserting into a list ordered by mtime keeps it ordered. |
| Snapshots.SortByMtimeFacts | app/backend/storage.py:96 | The sort by mtime yields a permutation of the names, in non-decreasing mtime order. |
| Snapshots.SortByMtimeDistinct | app/backend/storage.py:96 | Sorting a list without repeats gives a list without repeats. |
| Snapshots.JsonByAgeFacts | app/backend/storage.py:118-127 | The sorted listing holds each `.json` file of the directory exactly once, oldest first. |
| Snapshots.MoveAll | app/backend/storage.py:100-104 | After the renames, the live directory has lost exactly the moved names, and both directories stay valid. |
| Snapshots.MoveAllBackup | app/backend/storage.py:100-104 | After the renames, the backup holds its old files plus every moved file. A moved file keeps its content and mtime, and replaces a backup file of the same name. |
| Snapshots.DeleteAll | app/backend/storage.py:131-133 | The removal loop drops exactly the listed names. |
| Snapshots.Superseded | app/backend/storage.py:94-100 | The files to move are distinct live `.json` files. |
| Snapshots.NewestIsLatest | app/backend/storage.py:94-100 | The file that stays behind is a live `.json` file, and no live `.json` file has a later mtime. |
| Snapshots.SupersededIsAllButNewest | app/backend/storage.py:94-100 | With two or more `.json` files, the moved files are exactly every `.json` file except the newest (both directions). |
| Snapshots.MoveKeepsOnlyNewest | app/backend/storage.py:94-105 | With two or more `.json` files, the live directory keeps exactly the newest one, unchanged. Every other one is in the backup under the same name, with the same content. |
| Snapshots.MoveNothingWhenFew | app/backend/storage.py:94-107 | With at most one `.json` file, neither directory changes. |
| Snapshots.MoveLosesNothing | app/backend/storage.py:89-104 | Every live file ends up, unchanged, in one of the two directories, and every backup name survives. A backup file changes only when a file of the same name is moved over it. Files not ending in `.json` are never moved or overwritten. |
| Snapshots.CleanupNothingWhenFew | app/backend/storage.py:125 | With 40 or fewer `.json` backups, cleanup changes nothing. |
| Snapshots.ExpiredIsPrefix | app/backend/storage.py:125-133 | With more than 40 backups, the removed files are the oldest-first listing minus its last 40 (`files[:-40]`). |
| Snapshots.ExpiredAreJson | app/backend/storage.py:120-130 | Only `.json` backups are ever chosen for removal. |
| Snapshots.CleanupRemovesOnlyJson | app/backend/storage.py:120-133 | Cleanup only deletes, never alters a kept file, and never touches a file not ending in `.json`. |
| Snapshots.CleanupRemovesOldest | app/backend/storage.py:127-132 | No removed backup is newer than a kept one. |
| Snapshots.CleanupKeepsNewest | app/backend/storage.py:125-133 | With more than 40 backups, the `.json` files left are exactly the last 40 of the oldest-first listing. |
| Snapshots.CleanupLeavesForty | app/backend/storage.py:125-133 | With more than 40 backups, exactly 40 `.json` files remain. |
| Snapshots.CleanupIdempotent | app/backend/storage.py:125-133 | A second cleanup changes nothing. |
| Snapshots.SupersededOfListing | app/backend/storage.py:94-100 | The `files[:-1]` slice of the sorted listing is the set of superseded files. |
| Snapshots.NothingSupersededOfListing | app/backend/storage.py:94-107 | A listing with at most one `.json` file means no rename. |
| Snapshots.FileSystem.constructor | app/backend/storage.py:45-46 | Both trees start empty. |
| Snapshots.FileSystem.MakeDirs | app/backend/storage.py:56-57 | `makedirs(exist_ok=True)` adds an empty sub-directory only where none exists, and keeps an existing one as it is. |
| Snapshots.FileSystem.WriteSnapshot | app/backend/storage.py:64-69 | The `json.dump` replaces only the named file of that key's live directory. The backup tree is unchanged. |
| Snapshots.FileSystem.ListJson | app/backend/storage.py:86-91 | The listing loop collects the `.json` names in listing order. |
| Snapshots.FileSystem.MoveEach | app/backend/storage.py:100-105 | The rename loop leaves both trees as the renames do, changing only this key's sub-directories. |
| Snapshots.FileSystem.RemoveEach | app/backend/storage.py:131-133 | The removal loop leaves the backup as the removals do. The live tree is unchanged. |
| Snapshots.FileSystem.MoveToBackup | app/backend/storage.py:78-110 | `move_to_backup` leaves the live directory as the move gives it and the backup as move-then-cleanup gives it. Other keys are unchanged. |
| Snapshots.FileSystem.CleanupBackupFolder | app/backend/storage.py:112-133 | `cleanup_backup_folder` trims only this key's backup directory. The live tree is unchanged. |
| Loader.At | app/backend/storage.py:159-168 | A nested `item[k1][k2]…` lookup succeeds exactly when every key is present, and then yields the nested value. |
| Loader.Key | app/models.py:30 | A primary key is stored only when it is text. |
| Loader.Text | app/models.py:75 | A `String` column accepts exactly text, booleans (stored as `true` or `false`) and null. See "Left out" for numbers. |
| Loader.Number | app/models.py:32-38 | A `Float` or `Integer` column accepts exactly numbers and null. |
| Loader.DateOf | app/models.py:74 | A `Date` column accepts exactly null and ISO date text. |
| Loader.RocketNeedsEveryPath | app/backend/storage.py:158-169 | A rocket item missing any of the ten looked-up keys, at any depth (e.g. `first_stage.thrust_sea_level.kN`), is rejected. |
| Loader.LaunchNeedsEveryPath | app/backend/storage.py:183-190 | A launch item missing any of its six keys is rejected. |
| Loader.StarlinkNeedsEveryPath | app/backend/storage.py:204-213 | A Starlink item missing `id`, `launch` or any of the six `spaceTrack` keys is rejected. |
| Loader.ParseRocketFields | app/backend/storage.py:158-169 | When every lookup succeeds, a rocket item is accepted exactly when every value converts. Each column then holds the value converted from its own key, e.g. `thrust_vacuum_kN` from `first_stage.thrust_vacuum.kN`. |
| Loader.ParseLaunchFields | app/backend/storage.py:183-190 | When every lookup succeeds, a launch item is accepted exactly when every value converts. Each column then holds its own key's value, and `rocket_id` comes from `rocket`. |
| Loader.ParseStarlinkFields | app/backend/storage.py:204-213 | When every lookup succeeds, a Starlink item is accepted exactly when every value converts. The name, dates and orbit come from `spaceTrack`, and `launch_id` comes from `launch`. |
| Loader.Items | app/backend/storage.py:156-157 | `for item in data` walks a list's elements. An empty object or empty text yields nothing. Any other document fails. |
| Loader.MergeItemsIsUpdate | app/backend/storage.py:157-170 | The merge's success does not depend on the rows already pending. On success, the merge overwrites them with the rows the items give by themselves. |
| Loader.MergeNamesIsUpdate | app/backend/storage.py:153-170 | The same holds for a whole listing of files. |
| Loader.MergeDirIsUpdate | app/backend/storage.py:150-173 | The same holds for a table's directory, including when the directory is missing. |
| Loader.MergeDirTwice | app/backend/storage.py:150-173 | Merging a directory into the rows it already produced changes nothing. |
| Loader.LastItemWins | app/backend/storage.py:157-170 | After a merge, an id maps to the last item processed with that id. |
| Loader.MergeItemsKeyed | app/backend/storage.py:170 | After a merge, every stored row sits under its own id. |
| Loader.MergeNamesKeyed | app/backend/storage.py:153-170 | The same holds over a listing of files. |
| Loader.MergeDirKeyed | app/backend/storage.py:150-173 | The same holds over a table's directory. |
| Loader.BadItemFailsMerge | app/backend/storage.py:157-170 | One bad item makes the whole merge fail. |
| Loader.BadFileFailsDir | app/backend/storage.py:153-170 | One bad `.json` file makes the whole directory fail. |
| Loader.LoadIdempotent | app/backend/storage.py:142-218 | Loading the same directories twice gives the same tables as loading them once. |
| Loader.LoadKeepsKeys | app/backend/storage.py:170-214 | A committed load keeps each table keyed by `id`. From tables whose foreign keys resolve, as the database enforces, every launch's rocket and every satellite's launch still resolves afterwards. |
| Loader.MissingRocketKeyAbortsLoad | app/backend/storage.py:163-221 | A rocket item missing a nested key makes the whole load fail, so nothing is committed. |
| Loader.LaunchIn | app/backend/storage.py:182-191 | A launch item is written exactly when it parses and its `rocket_id` is NULL or names a merged rocket; the row is then the parsed one, and otherwise the failure is a dangling reference. |
| Loader.StarlinkIn | app/backend/storage.py:203-214 | A Starlink item is written exactly when it parses and its `launch_id` is NULL or names a merged launch; the row is then the parsed one. |
| Loader.DanglingLaunchAbortsLoad | app/backend/storage.py:182-191 | A launch item naming a rocket the merged rockets lack makes the whole load fail, even when a later item gives that launch an existing rocket, because the autoflush of the next `merge` writes the first row. |
| Loader.DanglingStarlinkAbortsLoad | app/backend/storage.py:203-214 | A Starlink item naming a launch the merged launches lack makes the whole load fail, wherever it sits among the items. |
| Loader.MergeItemsPrefixFails | app/backend/storage.py:157-170 | Once a prefix of the items has failed, the rest of the merge cannot recover. |
| Loader.MergeNamesPrefixFails | app/backend/storage.py:153-170 | Once a prefix of the files has failed, the rest of the directory cannot recover. |
| Loader.MergeRows | app/backend/storage.py:157-170 | The item loop with `session.merge` computes exactly the merge specification, stopping at the first bad item. |
| Loader.MergeFiles | app/backend/storage.py:153-170 | The file loop over a directory listing computes exactly the merge over its `.json` files, stopping at the first failure. |
| Loader.Database.constructor | app/models.py:139-149 | A new database has three empty tables. |
| Loader.Database.SaveToDb | app/backend/storage.py:135-223 | The single commit succeeds exactly when the whole load does, every merged row's foreign key included, and then the tables hold the load's result. Otherwise every table is as it was. |
| Storage.MakeDir | app/backend/storage.py:56-57 | The sub-directory exists afterwards. A missing one is created empty, and every existing sub-directory is kept unchanged. |
| Storage.Store | app/backend/storage.py:62-70 | The status-200 branch (write, move, cleanup) keeps both directories valid. |
| Storage.Turn | app/backend/storage.py:48-72 | One endpoint's turn keeps both trees valid. |
| Storage.TurnTouchesOnlyItsKey | app/backend/storage.py:48-72 | A turn adds only its own key's sub-directories and leaves every other key's directories as they were, so one failed fetch does not hold back the others. |
| Storage.Turns | app/backend/storage.py:48-72 | Running the turns in order keeps both trees valid. |
| Storage.FailedFetchChangesNothing | app/backend/storage.py:62-72 | With a status other than 200, no file is written and nothing moves. |
| Storage.StoreLeavesOneSnapshot | app/backend/storage.py:62-70 | After a successful fetch, the live directory holds exactly one `.json` file: the snapshot just written, with its payload. |
| Storage.SuccessfulFetchLeavesOneSnapshot | app/backend/storage.py:48-72 | The same, for one endpoint's turn over the whole trees. |
| Storage.SaveTurn | app/backend/storage.py:50-70 | The loop body changes both trees exactly as the turn specifies. |
| Storage.SaveAll | app/backend/storage.py:48-72 | The endpoint loop changes both trees exactly as the turns do, in order. |
| Storage.SaveData | app/backend/storage.py:20-76 | One run leaves the file trees as the three turns give them. Afterwards the load commits exactly when it succeeds on the live directories, and otherwise leaves the database unchanged. |
| QuerySortFilter.Insert | app/helpers/query_sort_filter.py:40-44 | Inserting into the order adds exactly that row (as a multiset). |
| QuerySortFilter.InsertOrdered | app/helpers/query_sort_filter.py:40-44 | Insertion keeps an ordered list ordered. NULL comes after every value. |
| QuerySortFilter.SortBy | app/helpers/query_sort_filter.py:40-44 | `order_by` yields a permutation of the rows, ordered by the column in the chosen direction. |
| QuerySortFilter.Run | app/backend/rocket_resources/rocket_filter_sort.py:33 | `query.all()` returns the rows of an accepted query, and raises the database error of a refused one. |
| QuerySortFilter.ApplySorting | app/helpers/query_sort_filter.py:12-44 | Sorting by `id` fails with the sort error, whatever the order. A name `getattr` does not find leaves the query unchanged. A relationship or another non-column attribute fails, and the endpoint answers 500. On a column the rows come back as a permutation: non-decreasing for `asc`, non-increasing for any other order. A query the database will refuse stays refused. |
| QuerySortFilter.Keep | app/helpers/query_sort_filter.py:69-80 | `query.filter` keeps a subsequence: each row exactly as often as before when it passes the condition, and not at all otherwise. |
| QuerySortFilter.ApplyFiltering | app/helpers/query_sort_filter.py:46-81 | A name `getattr` does not find leaves the query unchanged. On a column, the query is refused exactly when a condition does not fit the column's type. Otherwise it keeps exactly the accepted rows, as a subsequence. An `id` field must match exactly and then, as written, also pass the rule chosen from the value's shape. A relationship fails while the condition is built. A plain class attribute fails for ILIKE, keeps no row for a hyphenated value, and is refused for a year. |
| QuerySortFilter.FilterByYear | app/helpers/query_sort_filter.py:72-73 | An all-digit value keeps exactly the rows whose date column falls in that year. On a column that is not a date, and on `id`, the database refuses the query. |
| QuerySortFilter.FilterByHyphen | app/helpers/query_sort_filter.py:75-76 | A value with a `-` (and not all digits) is accepted exactly when it reads as a value of the column's type: any text, an integer, a decimal or a date. It then keeps exactly the rows whose column equals it. |
| QuerySortFilter.FilterByDateTextKeepsRow | app/helpers/query_sort_filter.py:75-76 | Filtering a date column on the `YYYY-MM-DD` text of a row's date is accepted by the database and keeps that row, with its multiplicity. |
| QuerySortFilter.FilterBySubstring | app/helpers/query_sort_filter.py:79-80 | Any other value is accepted only on a text column. There it keeps exactly the rows whose text contains the value, ignoring ASCII case. |
| RocketFilterSort.GetFilterSortRocket | app/backend/rocket_resources/rocket_filter_sort.py:6-33 | An unpaired filter raises `ValueError`. A filter that cannot be built fails before the sort is looked at. Otherwise sorting by `id` raises `ValueError`, even when the database would refuse the filter. The call succeeds exactly when the filter is accepted and the sort name is sortable. The result is then a permutation of the filtered rows, which form a subsequence of all rockets, ordered when sorting by a column. With no parameters the result is all rockets. |
| RocketFilterSort.FilterThenSort | app/backend/rocket_resources/rocket_filter_sort.py:28-33 | With both filter parameters and a sortable column, the call succeeds exactly when the database accepts the filter. The result is then the filtered rows, sorted. |
| RocketFilterSort.IdFilterIsExact | app/helpers/query_sort_filter.py:68-69 | A filter on `id` is always built, and the database accepts it exactly when the value is not all digits. It then returns only rockets with exactly that id. |
| RocketFilterSort.DigitIdFilterIsRefused | app/helpers/query_sort_filter.py:68-73 | An all-digit `id` filter is refused by the database. The id equality falls through to a year condition on a text column, even when a rocket has exactly that id. |
| RocketFilterSort.SortArguments | app/backend/rocket_resources/rockets.py:74-75 | `sort_high` takes precedence over `sort_low`. The order is `desc` exactly when `sort_high` is given, and `asc` otherwise. |
| RocketFilterSort.ToDicts | app/backend/rocket_resources/rockets.py:152 | The JSON body is the `to_dict` of each rocket, in order. |
| RocketFilterSort.RocketsEndpoint | app/backend/rocket_resources/rockets.py:72-158 | An unpaired filter gives 400, and the status is always 200, 400, 404 or 500. It is 200 exactly for a non-empty result, which it carries as dicts, and 404 exactly for an empty one. It is 400 exactly for a `ValueError` and 500 exactly for any other error. Any status other than 200 carries no rows. |
| RocketFilterSort.SortByIdIsBadRequest | app/backend/rocket_resources/rockets.py:153-158 | Sorting by `id` answers 400, unless the filter cannot even be built; that fails first and answers 500. |
| RocketFilterSort.DigitIdFilterIsServerError | app/backend/rocket_resources/rockets.py:153-158 | `filter_field=id` with an all-digit value answers 500 whenever the sort is not `id`. |
| Statistics.NonNull | app/helpers/statistics.py:24-27 | A column can be summed exactly when no value is NULL. The values summed are the column's values, in order. |
| Statistics.SumBounds | app/helpers/statistics.py:24-27 | A sum of n values, each between lo and hi, lies between n·lo and n·hi. |
| Statistics.AverageBetween | app/helpers/statistics.py:24 | A non-empty average lies between the least and the greatest value. |
| Statistics.RocketStatistics | app/helpers/statistics.py:11-36 | `total_rockets` is the row count. With no rows, everything is 0, with no division. Otherwise each average times the count is the column's sum, and the total cost is the sum. A NULL in a summed column raises. |
| Statistics.RocketSuccessRateBetween | app/helpers/statistics.py:24 | The average success rate lies between the lowest and the highest rocket's rate. |
| Statistics.UniformSuccessRate | app/helpers/statistics.py:24 | When every rocket has the same success rate, the average success rate is that rate. |
| Statistics.SuccessAndFailureBounded | app/helpers/statistics.py:51-52 | Successful plus failed launches never exceed the total. |
| Statistics.CountSuccessOccurrences | app/helpers/statistics.py:51-52 | The success count for a text is the number of launches whose `success` column holds exactly that text. |
| Statistics.BestOf | app/helpers/statistics.py:54 | The candidate chosen is one with the greatest count. |
| Statistics.MostFrequent | app/helpers/statistics.py:54 | The most used rocket id occurs among the launches, and no id occurs more often. |
| Statistics.Latest | app/helpers/statistics.py:53 | `max` of the dates is one of them and no earlier than any. |
| Statistics.Earliest | app/helpers/statistics.py:53 | `min` of the dates is one of them and no later than any. |
| Statistics.LaunchDates | app/helpers/statistics.py:53 | The dates are there exactly when no launch date is NULL. They are then the launch dates, one per launch, in order. |
| Statistics.LaunchesPerYear | app/helpers/statistics.py:53 | Without launches the rate is 0. With launches, a rate exists exactly when every date is non-null and the dates span a non-zero number of days; a NULL date or a zero-day span raises. The rate is then the number of launches per 365 days of that span. |
| Statistics.PerYearTimesYears | app/helpers/statistics.py:53 | The rate per year, multiplied by the years the span covers, gives back the number of launches. |
| Statistics.LaunchStatistics | app/helpers/statistics.py:38-63 | `total_launches` is the row count. `successful_launches` and `failed_launches` are the numbers of launches whose `success` is the text `true` and `false`. With no launches: zeros and no rocket. Otherwise the most used rocket is a most frequent launch rocket id. The call succeeds exactly when there are no launches, or every launch date is non-null and the dates span a non-zero number of days; the rate is then the launches per 365 days of that span. |
| Statistics.SameDayLaunchesDivideByZero | app/helpers/statistics.py:53-61 | Launches whose dates span zero days raise a division by zero. |
| Statistics.NullLaunchDateRaises | app/helpers/statistics.py:53-61 | A NULL launch date makes `max`/`min` raise. |
| Statistics.SameDates | app/helpers/statistics.py:53 | Launches that all share one date give that date, once per launch. |
| Statistics.NullDateHasNoDates | app/helpers/statistics.py:53 | One NULL date means there is no list of dates to compare. |
| Statistics.ActivePlusDecayed | app/helpers/statistics.py:77-79 | Active plus decayed satellites equals the total. |
| Statistics.CountActiveOccurrences | app/helpers/statistics.py:78 | The active count is the number of satellites whose decay date is NULL. |
| Statistics.StarlinkStatistics | app/helpers/statistics.py:65-88 | `total_satellites` is the row count. `active_satellites` is the number with a NULL decay date. `decayed_satellites` is the rest, so active plus decayed equals the total. With no decay dates, every satellite is active. |
| Statistics.AllActive | app/helpers/statistics.py:78 | Satellites without a decay date are all counted as active. |

## Left out

- The HTTP fetch (`get_rockets`, `get_launches`, `get_starlink`) is outside this model. Each turn takes the payload and the status code as inputs (`Storage.Tick`).
- The clock (`datetime.now`) and the file system's modification times are inputs too. The clock reading is taken to the minute, with a four-digit year.
- The load thread of `save_data` (app/backend/storage.py:74-76) is modelled as a step that runs after the three turns. No interleaving with a later run is modelled.
- `start_scheduler` (app/backend/storage.py:225-236) is outside this model: it only repeats `save_data` on a timer.
- Logging is outside this model. So is the text of the error message logged when the load or a statistic fails; only which kind of error occurred is kept.
- Loader.Text: a JSON number given for a `String` column fails the load in the model. The database would store the number's text; the decimal formatting of numbers is not modelled.
- Snapshots.Put lists a new name after the existing ones, so creation order stands in for the order in which `os.listdir` returns names. That order decides which file a load reads last (`MergeNames`), and it breaks ties between equal mtimes.
- Loader.ParseRocket: within one item, every key lookup is modelled as happening before every column conversion. The reported error may therefore differ from the one the database would raise first; whether the load fails does not.
- The database's own value conversions are simplified:
  - a numeric column accepts only JSON numbers, not numeric text;
  - an `Integer` column keeps a fractional value instead of rounding it;
  - a key must be text;
  - a `Date` column, and a filter value compared with one, accepts only `YYYY-MM-DD` text, alone or followed by `T` or a space and then any text. The time part is not checked, and PostgreSQL's other date forms are not read.
  - a filter value compared with a numeric column reads as an optional `-`, then digits with an optional decimal point (digits only for an `Integer` column). Exponents, a leading `+`, surrounding spaces, `Infinity` and `NaN` are not read.
- SQL `LIKE` wildcards (`%`, `_`) inside a filter value are matched literally.
- Non-ASCII digits, which Python's `isdigit` also accepts, are not modelled. An all-digit value means a non-empty run of `0`-`9`.
- QuerySortFilter.ApplyFiltering: the year condition is taken to be PostgreSQL's `EXTRACT(YEAR FROM column)`, so it applies to date columns only. How SQLAlchemy renders `func.extract` for the dialect is not modelled.
- QuerySortFilter.ApplyFiltering and QuerySortFilter.ApplySorting: of the class attributes that are not columns, the model knows the relationships, `to_dict` and `__tablename__`. Other attributes (`metadata`, `registry`, `__table__`, `__mapper__`, and the names every Python class inherits) are treated as names `getattr` does not find. On a relationship, every condition and every ordering is taken to fail while the query is built. On a plain attribute, a hyphenated value is taken to differ from the attribute's value.
- QuerySortFilter.ApplyFiltering and QuerySortFilter.ApplySorting: ILIKE folds ASCII letters only, and text is ordered by code point. The database's collation and locale are not modelled.
- Floating-point rounding is not modelled. Averages, the cost sum and the launches-per-year rate are exact reals, and day counts are exact calendar days.
- The `NameError` raised in the `finally` of `save_to_db` when the engine cannot be created (app/backend/storage.py:144-146, 223) is not modelled. A load that cannot reach the database is not an input.
- Tie-breaks that depend on library internals are fixed:
  - the mtime sort is stable, so the listing order decides among equal mtimes;
  - `most_used_rocket` breaks ties by first occurrence, where Python's choice depends on set iteration order;
  - `order_by` breaks ties in its own way, so only the order of the sort keys is stated.
- Storage.StoreLeavesOneSnapshot assumes the new snapshot gets a later mtime than every file already in the live directory. Without that assumption an older file with a later mtime would stay behind instead.
- The sorts of `move_to_backup` and `cleanup_backup_folder` (`files.sort`) are modelled as a function that returns the sorted list rather than as an update of the list in place.
- The launches and Starlink endpoints, and their `launches_filter_sort` and `starlink_filter_sort` helpers, are not part of this model.
- HTML rendering and the `response_type` dispatch of the rockets endpoint are not modelled, nor are the texts of its error bodies. Its 500 path is modelled for the errors the query layer raises. Errors from the session or the connection are not modelled.
- `create_tables` is modelled on table names only. The schema it creates is not modelled.
