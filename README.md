# Podcast subscriptions and application teardown, in Dafny

This project models the podcast storage core of a Qt music player and the
thread registry of its `Application` object:

- `PodcastEpisode` and `Podcast` (`src/podcasts/podcastepisode.cpp`,
  `src/podcasts/podcast.cpp`). Each is a copy-on-write value whose shared
  `Private` record becomes a Dafny datatype (`EpisodeRecord`,
  `PodcastRecord`). The handle is a class with one field, `data`. Each setter
  replaces that record with one where a single field differs. Each also
  carries its column list (`kColumns`), the comma-joined column and
  placeholder specs (`kColumnSpec`, `kBindSpec`), and the two directions
  between a record and a SQL row (`InitFromQuery`, `BindToQuery`).
- `PodcastBackend` (`src/podcasts/podcastbackend.cpp`), which subscribes to a
  podcast and reads subscriptions back. It works over a two-table store: the
  `podcasts` and `podcast_episodes` tables, where every row has a ROWID and a
  per-table counter gives the next one. Every statement may fail, and the
  failures are a parameter (`Faults`, or a `fault` flag). Each method is
  proved against a specification function (`Subscribed`, `Inserted`,
  `SubscriptionById`, `SubscriptionByUrl`, `AllSubscriptions`). Lemmas then
  state what those functions promise.
- `Application` (`src/core/application.cpp`): the threads it creates, the
  objects it moves onto them, and the order in which its destructor deletes
  the device manager, calls `deleteLater`, `quit` and `wait`. The destructor's
  effect is an event trace. `Destroy` is proved to emit exactly
  `TeardownTrace`, and the ordering lemmas are proved about `TeardownTrace`.

The Qt SQL layer the core relies on is modelled minimally:

- `Sql`: values, named bindings, `QStringList::join`, `Utilities::Prepend`,
  and the shape of an `INSERT` statement.
- `SqlStore`: tables with ROWIDs, and an `ExecInsert` that either fails and
  changes nothing, or appends one row and reports its ROWID.

The Qt codecs are a parameter `Codecs`, and `Codecs.Lossless()` states that
they round-trip. The codecs are `QUrl::toEncoded`/`fromEncoded`,
`QDateTime::toTime_t`/`fromTime_t`, and the `QDataStream` form of a
`QVariantMap`.

Modules: `QtTypes` and `Sql` (sql.dfy), `SqlStore` (store.dfy),
`PodcastEpisodes` (podcastepisode.dfy), `Podcasts` (podcast.dfy),
`PodcastBackends` (podcastbackend.dfy), `Applications` (application.dfy).

## Model

| member | source | states |
|---|---|---|
| PodcastEpisodes.PodcastEpisode.constructor | src/podcasts/podcastepisode.cpp:54-66 | a fresh episode has database id -1, podcast database id -1, duration -1, and is neither listened nor downloaded |
| PodcastEpisodes.PodcastEpisode.Copy | src/podcasts/podcastepisode.cpp:68-71 | the copy holds the other's record |
| PodcastEpisodes.PodcastEpisode.Assign | src/podcasts/podcastepisode.cpp:76-79 | after assignment the handle holds the other's record |
| PodcastEpisodes.CopyIsIndependent | src/podcasts/podcastepisode.cpp:33-79 | changing a copy leaves the original's record as it was |
| PodcastEpisodes.PodcastEpisode.SetDatabaseId | src/podcasts/podcastepisode.cpp:95 | only database_id changes, to the value given |
| PodcastEpisodes.PodcastEpisode.SetPodcastDatabaseId | src/podcasts/podcastepisode.cpp:96 | only podcast_database_id changes, to the value given |
| PodcastEpisodes.PodcastEpisode.SetTitle | src/podcasts/podcastepisode.cpp:97 | only title changes, to the value given |
| PodcastEpisodes.PodcastEpisode.SetDescription | src/podcasts/podcastepisode.cpp:98 | only description changes, to the value given |
| PodcastEpisodes.PodcastEpisode.SetAuthor | src/podcasts/podcastepisode.cpp:99 | only author changes, to the value given |
| PodcastEpisodes.PodcastEpisode.SetPublicationDate | src/podcasts/podcastepisode.cpp:100 | only publication_date changes, to the value given |
| PodcastEpisodes.PodcastEpisode.SetDurationSecs | src/podcasts/podcastepisode.cpp:101 | only duration_secs changes, to the value given |
| PodcastEpisodes.PodcastEpisode.SetUrl | src/podcasts/podcastepisode.cpp:102 | only url changes, to the value given |
| PodcastEpisodes.PodcastEpisode.SetListened | src/podcasts/podcastepisode.cpp:103 | only listened changes, to the value given |
| PodcastEpisodes.PodcastEpisode.SetDownloaded | src/podcasts/podcastepisode.cpp:104 | only downloaded changes, to the value given |
| PodcastEpisodes.PodcastEpisode.SetLocalUrl | src/podcasts/podcastepisode.cpp:105 | only local_url changes, to the value given |
| PodcastEpisodes.PodcastEpisode.SetExtra | src/podcasts/podcastepisode.cpp:106 | only the extra map changes, replaced as a whole |
| PodcastEpisodes.PodcastEpisode.Extra | src/podcasts/podcastepisode.cpp:93 | extra(key) is the value stored under key, or an invalid QVariant when the key is missing; reading changes nothing |
| PodcastEpisodes.PodcastEpisode.SetExtraValue | src/podcasts/podcastepisode.cpp:93-107 | extra(key) then reads the value; every other key reads as before; nothing else changes |
| PodcastEpisodes.SpecsListTheColumns | src/podcasts/podcastepisode.cpp:24-30 | there are 11 columns; placeholder i is ":" + column i; both specs split back into their lists |
| PodcastEpisodes.SpecsAreDelimited | src/podcasts/podcastepisode.cpp:24-30 | no column or placeholder contains a comma, no column contains ')', and kBindSpec starts with ':' |
| PodcastEpisodes.PlaceholdersSpelled | src/podcasts/podcastepisode.cpp:30 | the prefixed column list is exactly the 11 placeholder names BindToQuery uses |
| PodcastEpisodes.BindsExactlyThePlaceholders | src/podcasts/podcastepisode.cpp:126-143 | BindToQuery binds exactly the placeholders of kBindSpec, none missing and none extra |
| PodcastEpisodes.BindingInOrder | src/podcasts/podcastepisode.cpp:126-143 | the 11 bindValue calls, made in order on top of earlier bindings, leave the earlier bindings overridden by Bindings |
| PodcastEpisodes.PodcastEpisode.InitFromQuery | src/podcasts/podcastepisode.cpp:109-124 | every field is read from the row: index 0 is the ROWID, index i+1 is column i |
| PodcastEpisodes.PodcastEpisode.BindToQuery | src/podcasts/podcastepisode.cpp:126-143 | the query's bindings become the earlier ones overridden by the episode's 11 bindings; the episode is not changed |
| PodcastEpisodes.RoundTrip | src/podcasts/podcastepisode.cpp:109-143 | binding, storing with ROWID r and reading back gives the same episode with database id r, given lossless codecs; the publication date comes back as fromTime_t(toTime_t(date)), which is the date itself when toTime_t can represent it |
| Podcasts.Podcast.constructor | src/podcasts/podcast.cpp:52-64 | a fresh podcast has database id -1 and no episodes |
| Podcasts.Podcast.Copy | src/podcasts/podcast.cpp:66-69 | the copy holds the other's record |
| Podcasts.Podcast.Assign | src/podcasts/podcast.cpp:74-77 | after assignment the handle holds the other's record |
| Podcasts.CopyIsIndependent | src/podcasts/podcast.cpp:32-77 | adding an episode to a copy leaves the original's record, episodes included, as it was |
| Podcasts.Podcast.SetDatabaseId | src/podcasts/podcast.cpp:92 | only database_id changes, to the value given |
| Podcasts.Podcast.SetUrl | src/podcasts/podcast.cpp:93 | only url changes, to the value given |
| Podcasts.Podcast.SetTitle | src/podcasts/podcast.cpp:94 | only title changes, to the value given |
| Podcasts.Podcast.SetDescription | src/podcasts/podcast.cpp:95 | only description changes, to the value given |
| Podcasts.Podcast.SetCopyright | src/podcasts/podcast.cpp:96 | only copyright changes, to the value given |
| Podcasts.Podcast.SetLink | src/podcasts/podcast.cpp:97 | only link changes, to the value given |
| Podcasts.Podcast.SetImageUrl | src/podcasts/podcast.cpp:98 | only image_url changes, to the value given |
| Podcasts.Podcast.SetAuthor | src/podcasts/podcast.cpp:99 | only author changes, to the value given |
| Podcasts.Podcast.SetOwnerName | src/podcasts/podcast.cpp:100 | only owner_name changes, to the value given |
| Podcasts.Podcast.SetOwnerEmail | src/podcasts/podcast.cpp:101 | only owner_email changes, to the value given |
| Podcasts.Podcast.SetExtra | src/podcasts/podcast.cpp:102 | only the extra map changes, replaced as a whole |
| Podcasts.Podcast.Extra | src/podcasts/podcast.cpp:90 | extra(key) is the value stored under key, or an invalid QVariant when the key is missing; reading changes nothing |
| Podcasts.Podcast.SetExtraValue | src/podcasts/podcast.cpp:90-103 | extra(key) then reads the value; every other key reads as before; nothing else changes |
| Podcasts.Podcast.Episodes | src/podcasts/podcast.cpp:105 | episodes() is the episode list as stored; reading changes nothing |
| Podcasts.Podcast.SetEpisodes | src/podcasts/podcast.cpp:107 | the episode list is replaced as a whole; nothing else changes |
| Podcasts.Podcast.AddEpisode | src/podcasts/podcast.cpp:108 | the episode is appended; the earlier episodes stay in order; nothing else changes |
| Podcasts.Podcast.SetEpisodeAt | src/podcasts/podcast.cpp:106 | an edit through mutable_episodes: episode i is replaced in place and nothing else changes |
| Podcasts.FromRow | src/podcasts/podcast.cpp:110-124 | reading a row never touches the episode list |
| Podcasts.Podcast.InitFromQuery | src/podcasts/podcast.cpp:110-124 | every stored field is read from the row (index 0 the ROWID, index i+1 column i); the episodes are unchanged |
| Podcasts.SpecsListTheColumns | src/podcasts/podcast.cpp:23-28 | there are 10 columns in declaration order; placeholder i is ":" + column i; both specs split back into their lists |
| Podcasts.SpecsAreDelimited | src/podcasts/podcast.cpp:23-28 | no column or placeholder contains a comma, no column contains ')', and kBindSpec starts with ':' |
| Podcasts.PlaceholdersSpelled | src/podcasts/podcast.cpp:28 | the prefixed column list is exactly the 10 names, ending in `:author_email`, `:extra` |
| Podcasts.AsWrittenMissesAuthorEmail | src/podcasts/podcast.cpp:126-142 | as written, `:author_email` is a placeholder that is never bound, and `:owner_email` is bound but is not a placeholder |
| Podcasts.AsWrittenDiffersOnlyThere | src/podcasts/podcast.cpp:126-142 | the names bound as written are exactly the placeholders, with `:author_email` traded for `:owner_email` |
| Podcasts.AsWrittenStoredValues | src/podcasts/podcast.cpp:126-142 | the row stored as written holds every field in column order, and NULL in author_email |
| Podcasts.AsWrittenRoundTrip | src/podcasts/podcast.cpp:110-142 | as written, bind then read gives every field back except owner_email, which reads as "", and the episodes, which stay those of the target |
| Podcasts.AsWrittenLosesOwnerEmail | src/podcasts/podcast.cpp:110-142 | any podcast with a non-empty owner e-mail does not come back as stored |
| Podcasts.BindsExactlyThePlaceholders | src/podcasts/podcast.cpp:126-142 | with the corrected name, BindToQuery binds exactly the placeholders of kBindSpec |
| Podcasts.BindingInOrder | src/podcasts/podcast.cpp:126-142 | the 10 bindValue calls, made in order with the corrected name `:author_email` in place of line 135's `:owner_email`, leave the earlier bindings overridden by Bindings |
| Podcasts.Podcast.BindToQuery | src/podcasts/podcast.cpp:126-142 | with the corrected name `:author_email` in place of line 135's `:owner_email`, the query's bindings become the earlier ones overridden by the podcast's 10 bindings; the podcast is not changed |
| Podcasts.RoundTrip | src/podcasts/podcast.cpp:110-142 | with the corrected name, bind then read gives every stored field back, with the ROWID as database id, given lossless codecs |
| Sql.PrependAvoids | src/podcasts/podcastepisode.cpp:30 | prefixing every name with text free of a character leaves every name free of it, so kBindSpec, like kColumnSpec, holds no comma inside a name |
| Sql.SplitJoin | src/podcasts/podcastepisode.cpp:29-30 | joining comma-free names with ", " loses nothing: splitting gives the list back |
| Sql.Query.BindValue | src/podcasts/podcastepisode.cpp:127 | binding a name sets or replaces its value; the other names keep theirs |
| Sql.ParseInsertSql | src/podcasts/podcastbackend.cpp:50-51 | a parenthesised INSERT built from two joined lists parses into that table, those columns and those placeholders |
| Sql.ParseRejectsUnparenthesized | src/podcasts/podcastbackend.cpp:50-51 | an INSERT whose VALUES list starts with a placeholder rather than '(' does not parse |
| SqlStore.Database.ExecInsert | src/podcasts/podcastbackend.cpp:54-59 | the statement succeeds exactly when no failure occurs and it fits the tables; on failure nothing changes; on success one row with the next ROWID is appended and that ROWID is reported |
| SqlStore.AppendedValid | src/podcasts/podcastbackend.cpp:59 | an appended row keeps the table valid, and its ROWID exceeds every earlier one |
| SqlStore.InsertByPlan | src/podcasts/podcastbackend.cpp:54 | an INSERT whose plan fits the table is accepted, and it appends the values bound to its placeholders |
| PodcastBackends.PodcastBackend.constructor | src/podcasts/podcastbackend.cpp:25-30 | the backend holds the application's database, and its two statements parse into the two tables' plans |
| PodcastBackends.PodcastInsertParses | src/podcasts/podcastbackend.cpp:50-51 | the corrected podcast INSERT targets `podcasts`, lists its 10 columns in order, and gives one placeholder each |
| PodcastBackends.EpisodeInsertParses | src/podcasts/podcastbackend.cpp:73-74 | the corrected episode INSERT targets `podcast_episodes`, lists its 11 columns in order, and gives one placeholder each |
| PodcastBackends.PodcastInsertAsWrittenRejected | src/podcasts/podcastbackend.cpp:50-51 | the podcast INSERT as written does not parse, so no database accepts it |
| PodcastBackends.EpisodeInsertAsWrittenRejected | src/podcasts/podcastbackend.cpp:73-74 | the episode INSERT as written does not parse, so no database accepts it |
| PodcastBackends.FindRowId | src/podcasts/podcastbackend.cpp:115-121 | the first row with the ROWID, or the end of the table when no row has it |
| PodcastBackends.FindValue | src/podcasts/podcastbackend.cpp:134-140 | the first row holding the value in the column, or the end of the table when no row does |
| PodcastBackends.LookupsFindStoredRows | src/podcasts/podcastbackend.cpp:109-145 | both lookups return a valid podcast exactly when the query succeeds and a row matches; the id lookup returns that id; otherwise they return the default podcast; no lookup has episodes |
| PodcastBackends.FindRowIdOfRow | src/podcasts/podcastbackend.cpp:109-126 | in a table with increasing ROWIDs, looking up row i's ROWID finds row i |
| PodcastBackends.AllSubscriptionsAreFoundById | src/podcasts/podcastbackend.cpp:87-126 | GetAllSubscriptions lists one podcast per row, in table order, each equal to what GetSubscriptionById returns for that row's ROWID |
| PodcastBackends.PodcastBackend.GetAllSubscriptions | src/podcasts/podcastbackend.cpp:87-107 | returns AllSubscriptions: empty on a failed query, otherwise each row read into a fresh Podcast, in order |
| PodcastBackends.PodcastBackend.ReadRow | src/podcasts/podcastbackend.cpp:101-103 | a fresh Podcast after InitFromQuery on a row is that row's podcast |
| PodcastBackends.PodcastBackend.GetSubscriptionById | src/podcasts/podcastbackend.cpp:109-126 | returns SubscriptionById: the first row with the ROWID, or the default podcast |
| PodcastBackends.PodcastBackend.GetSubscriptionByUrl | src/podcasts/podcastbackend.cpp:128-145 | returns SubscriptionByUrl: the first row whose encoded url matches, or the default podcast |
| PodcastBackends.EpisodeRowHoldsPodcastId | src/podcasts/podcastepisode.cpp:127 | an episode's stored row starts with its podcast's database id |
| PodcastBackends.PodcastRowHoldsUrl | src/podcasts/podcast.cpp:127 | a podcast's stored row holds its encoded url in the url column |
| PodcastBackends.FirstFailure | src/podcasts/podcastbackend.cpp:76-81 | the number of inserts made before the first failing one: all earlier ones succeed, and the one at that position fails unless all succeeded |
| PodcastBackends.FirstFailureStep | src/podcasts/podcastbackend.cpp:78-80 | the loop goes past insert i exactly when that insert does not fail |
| PodcastBackends.SubscribeEarlyReturns | src/podcasts/podcastbackend.cpp:33-56 | a valid podcast changes nothing; a stored url replaces the podcast by the stored record, which has no episodes; a failed podcast insert changes no table and leaves the id at -1 |
| PodcastBackends.SubscribeInserts | src/podcasts/podcastbackend.cpp:47-85 | after a successful podcast insert: the podcast has the new ROWID; every episode carries it; episodes before the first failure get consecutive, increasing ROWIDs in list order; later ones keep their id; the tables stay valid. When the transaction's end keeps the inserts, exactly one podcast row and one row per inserted episode are added. When it rolls them back, the tables are as before |
| PodcastBackends.ExtendedValid | src/podcasts/podcastbackend.cpp:76-84 | inserting full rows one after another keeps a table valid |
| PodcastBackends.SubscribedPodcastIsFound | src/podcasts/podcastbackend.cpp:32-70 | once Subscribe has stored a new podcast and the transaction's end kept it, both lookups return it with every stored field and no episodes |
| PodcastBackends.FoundAfterEarlierRows | src/podcasts/podcastbackend.cpp:109-145 | a row appended after rows that neither share its ROWID nor hold the value is what both searches find |
| PodcastBackends.ResubscribeTakesStoredRecord | src/podcasts/podcastbackend.cpp:38-43 | once a first subscription's inserts were kept, subscribing a second new podcast with the same url inserts nothing and takes the stored record |
| PodcastBackends.RolledBackPodcastIsNotStored | src/podcasts/podcastbackend.cpp:47-70 | when the transaction's end rolls the inserts back, the tables are unchanged. The caller's podcast still has its new ROWID, so it is valid, but no row holds its url, and subscribing it again does nothing |
| PodcastBackends.PodcastBackend.Subscribe | src/podcasts/podcastbackend.cpp:32-70 | the tables and the caller's podcast afterwards are exactly Subscribed of the state before, including the choice the transaction's end makes (`Faults.kept`); the tables stay valid |
| PodcastBackends.PodcastBackend.InsertSubscription | src/podcasts/podcastbackend.cpp:49-69 | the insert path: the tables and the podcast afterwards are exactly Inserted of the state before |
| PodcastBackends.PodcastBackend.StampEpisodes | src/podcasts/podcastbackend.cpp:62-66 | every episode, in place, gets the podcast's new id, and nothing else changes |
| PodcastBackends.PodcastBackend.AddEpisodes | src/podcasts/podcastbackend.cpp:72-85 | the episodes before the first failing insert are appended in list order, each numbered with its new ROWID; nothing else changes |
| PodcastBackends.PodcastBackend.NextEpisode | src/podcasts/podcastbackend.cpp:76-84 | one pass of the loop either extends the progress by one episode or, on failure, changes nothing |
| PodcastBackends.PodcastBackend.InsertEpisode | src/podcasts/podcastbackend.cpp:77-83 | a successful insert appends the episode's row and gives that episode the new ROWID; a failed one changes nothing |
| PodcastBackends.EpisodeInsertStep | src/podcasts/podcastbackend.cpp:73-78 | the episode insert is accepted and appends this episode's row, whatever the reused statement held before |
| PodcastBackends.RebindingStoresTheEpisode | src/podcasts/podcastbackend.cpp:76-78 | rebinding the reused statement stores exactly the current episode's values |
| PodcastBackends.PodcastInsertStep | src/podcasts/podcastbackend.cpp:50-54 | the podcast insert is accepted and appends the podcast's row |
| PodcastBackends.EpisodeRowsGrow | src/podcasts/podcastbackend.cpp:76-84 | the rows of one more episode are the earlier rows plus its own |
| PodcastBackends.NumberedStep | src/podcasts/podcastbackend.cpp:82-83 | numbering episode i extends the numbered prefix by one |
| PodcastBackends.StampStep | src/podcasts/podcastbackend.cpp:64-66 | stamping episode i extends the stamped prefix by one; at the end the whole list is stamped |
| Applications.TeardownCoversTheRegistry | src/core/application.cpp:87-104 | the teardown deleteLaters every moved object and quits and waits on every thread, each as often as listed and in list order |
| Applications.TeardownPhases | src/core/application.cpp:87-104 | the trace has one device-manager deletion (if any), then the deleteLaters, then the quits, then the waits, at exactly those positions |
| Applications.TeardownOrder | src/core/application.cpp:87-103 | the device manager is deleted before any other event and exactly when it exists; every deleteLater precedes every quit; every quit precedes every wait |
| Applications.EachThreadWaitedOnce | src/core/application.cpp:97-103 | with distinct threads, each thread is asked to quit once and waited on once |
| Applications.DistinctOnce | src/core/application.cpp:101-103 | a list without repetitions holds each element once |
| Applications.SelectionsDistribute | src/core/application.cpp:87-104 | selecting deleteLaters, quits or waits from a trace distributes over concatenation |
| Applications.DeleteLatersSelect | src/core/application.cpp:93-95 | the deleteLater pass schedules exactly the listed objects, and it quits and waits on nothing |
| Applications.QuitsSelect | src/core/application.cpp:97-99 | the quit pass quits exactly the listed threads, and it deletes and waits on nothing |
| Applications.WaitsSelect | src/core/application.cpp:101-103 | the wait pass waits on exactly the listed threads, and it deletes and quits nothing |
| Applications.Application.constructor | src/core/application.cpp:36-85 | three threads are started, for the tag reader, the database and the cover loader. Five objects are moved, in order: tag reader, database, cover loader, playlist backend, podcast backend. Both backends go on the database's thread, and the device manager exists |
| Applications.Application.MoveToNewThread | src/core/application.cpp:106-113 | exactly one new, started thread is appended, the object moves to it and is appended; nothing else changes |
| Applications.Application.MoveToThread | src/core/application.cpp:115-119 | the object moves to the given thread and is appended; the thread list is unchanged |
| Applications.Application.Destroy | src/core/application.cpp:87-104 | the destructor emits exactly TeardownTrace of the registry; afterwards the registry is unchanged and the device manager is gone |

## Left out

- Locking and concurrency: the `QMutexLocker`s are not modelled. The model is sequential, so it does not claim that de-duplication by url is race-free. The url lookup releases the lock before `Subscribe` takes it again (src/podcasts/podcastbackend.cpp:39 vs 45), so two concurrent subscriptions to one url may both insert.
- `ScopedTransaction`: its code is not part of this model, and `Subscribe` never commits (src/podcasts/podcastbackend.cpp:47-70). What the end of its scope does with the inserts is the explicit choice `Faults.kept`: keep them all or roll them all back. The ids already written into the caller's podcast stay either way. `SubscribedPodcastIsFound` and `ResubscribeTakesStoredRecord` hold only when the inserts are kept. `RolledBackPodcastIsNotStored` states the other case. The model does not capture a rollback of only part of the inserts.
- The codecs `QUrl::toEncoded`/`fromEncoded`, `QDateTime::toTime_t`/`fromTime_t` and the `QDataStream` form of `QVariantMap` are uninterpreted functions. Their round-trip is the assumption `Codecs.Lossless()`, stated where a lemma needs it.
- The Qt SQL classes are reduced to a map of tables and an insert that fails by an external flag or by a statement that does not fit. This covers `QSqlQuery`, `QSqlDatabase`, `Database::Connect`, `CheckErrors`, `Mutex` and `lastInsertId`. SQLite's storage classes and its type affinity are not modelled. Neither are `QVariant` conversions beyond those the tables need.
- The `SELECT` statements are not parsed. `GetAllSubscriptions` and the two lookups read the `podcasts` table directly. The model assumes rows come back in storage (ROWID) order, but without `ORDER BY` SQLite promises no order. So the order of `AllSubscriptions` and `GetAllSubscriptions`, and which row a lookup takes when several match its url, are assumptions.
- PodcastEpisodes.RoundTrip: the publication date round-trips only for an instant `toTime_t` can represent: whole seconds from the epoch up to 2^31 - 1 (`QtTypes.Representable`). A fresh episode's null date, and any date before 1970, is stored as `toTime_t`'s error value. A date after 2038 does not fit the `int` that `toInt()` reads it back into. The model leaves open what either reads back as. Sub-second precision is not modelled at all: dates are held in whole seconds.
- Binding is modelled by name, as `Sql.Query.BindValue` and `SqlStore.StoredValues` define it. A name that is no placeholder of the statement is ignored when the row is stored, and a placeholder nothing was bound to is stored as NULL. Qt leaves binding an undefined placeholder undefined. When the statement text is given to the `QSqlQuery` constructor, Qt's emulated named binding may place values by call order instead. So `Podcasts.AsWrittenStoredValues`, `AsWrittenRoundTrip` and `AsWrittenLosesOwnerEmail` describe the as-written code under this rule, not a promise Qt makes.
- Integer width: `int` and `toInt()` are unbounded here. A ROWID or counter beyond 32 bits is not truncated.
- `Utilities::Prepend` and `Utilities::Updateify`: their bodies are not part of this model. `Prepend` is modelled as "prefix every name", as its use implies. `kUpdateSpec` and `Updateify` are unused by the modelled code and are left out.
- src/core/utilities.h holds only declarations, with no bodies to model.
- Getters are field selectors of the record (`data.title` and so on), so they need no member of their own. `extra(key)` is `Extra`, a function, so reading it changes nothing.
- `mutable_episodes()` returns a pointer into the list. It is modelled by its only use here: replacing episode i in place (`Podcasts.Podcast.SetEpisodeAt`).
- `Podcast::is_valid()` is defined in the header, which is not part of this model. It is taken to be `database_id != -1` (`Podcasts.IsValid`).
- `PodcastBackend`'s constructor takes the database from the `Application`. The model passes the database in directly.
- The INSERT statements are built once, as constant fields of the backend (`PodcastBackend.podcastInsert` and `episodeInsert`), rather than once per call. Those constants hold the corrected, parenthesised text of the second Findings row (`PodcastInsertSql`, `EpisodeInsertSql`). The text lines 50-51 and 73-74 build is kept as `PodcastInsertSqlAsWritten` and `EpisodeInsertSqlAsWritten`, which no database accepts.
- Real threads and Qt object ownership: `moveToThread`, `setParent`, event-loop delivery of `deleteLater`, and what `quit` and `wait` do to a running thread. Threads are abstract ids, and the destructor's calls are events in a trace.
- The construction of each service is not modelled: `TagReaderClient::Start`, `Library::Init` and `StartThreads`, and the services that take no part in the registry.
- The `AddError` signal and the `library_backend` and `library_model` accessors are not modelled.

## Findings

| source | as written | input that shows it | evidently intended | confidence | as-written member | corrected member |
|---|---|---|---|---|---|---|
| src/podcasts/podcast.cpp:135 | `BindToQuery` binds the owner's e-mail to `:owner_email`. kBindSpec, built from the column `author_email` (line 25), has `:author_email` instead, which stays unbound; in the model, which binds by name, the column is stored NULL (Qt leaves binding an undefined placeholder undefined) | any podcast whose owner e-mail is non-empty, stored and then read back | bind to `:author_email`, so the e-mail round-trips | medium, not executed | Podcasts.AsWrittenLosesOwnerEmail | Podcasts.RoundTrip |
| src/podcasts/podcastbackend.cpp:50-51 | `" VALUES " + kBindSpec` (and likewise at lines 73-74) puts no parentheses around the value list, and SQLite's INSERT grammar requires them | any call to `Subscribe` that reaches the podcast insert | `" VALUES (" + kBindSpec + ")"` | high, not executed | PodcastBackends.PodcastInsertAsWrittenRejected | PodcastBackends.PodcastInsertParses |

For the second finding, the episode statement has the same fault: `PodcastBackends.EpisodeInsertAsWrittenRejected` is the as-written half and `PodcastBackends.EpisodeInsertParses` the corrected one. The rest of the model uses the corrected statements (`PodcastBackends.PodcastBackend.Subscribe`) and the corrected bindings (`Podcasts.Bindings`).
