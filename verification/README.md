# Eager loading, bulk creation and the audit gate

This project models three parts of sub2api and proves what they promise.

**Eager loading of accounts** (`Storage`, `QueryTrees`, `Entities`, `Slices`, `Builders`, `Spreading`, `Logs`,
`EagerLoading`, `EagerEqualsNaive`, `Tables`, `SelectLists`, `GroupOrder`, `Pages`, `PagedEdges`, `Limits`, `Reruns`, `Accessors`,
`Clones`). A query builder is an object with a context behind a pointer, with slices that share arrays and have spare
capacity, and with one optional subquery builder per edge. A run reads the rows of the query, then loads every requested
edge with one further query: the subquery builder is restricted in place to the keys of the nodes at hand and run, and
its results are spread over the nodes through maps. `EagerLoading` and `Spreading` are that algorithm on heap objects:
nested loops, maps, a set of nodes taken in any order, recursion over the subquery builders. It is proved to compute
`Batch`, a function of what the builders hold, which goes by the keys in the columns that were read; `EagerEqualsNaive`
proves that `Batch` is the object graph `Naive` that one lookup per row and edge would give, at any depth of nesting and
over both self-edges of accounts, and `Limits` when it is so in spite of limits and offsets on the subqueries. A
database is a table per type in a given order, a joined table of groups and links, and the columns of each table;
queries are filters over them with paging, and `Tables` says, without going through `Batch`, which rows of the tables
are loaded, in which order and with which columns. The driver keeps a log of the queries it is sent, and the rows that a query
with a row lock returns are locked; `Logs` says which queries a run sends and what it leaves in the builders when it
fails. The six loaders of accounts and the two of account-group links share one method per kind of edge, and an edge is
described by its target, its foreign key and whether the entity holds that key as a pointer. `Builders` has the calls on
builders, at any depth, and the clone; `Clones` runs a builder and its clone in either order with calls in between.

**Creating accounts** (`AccountFields`, `AccountCodec`, `BulkCreate`). Defaults, checks, the insert and the entity built
from a mutation, the scan of a row and its assignment to fields, and the chain of mutators of a bulk save with its
hooks. Column names are a datatype with one constructor per column and one for any other name. A hook answers itself, or
edits the mutation it was given, may pass another one on in its place, calls the next mutator once and makes what it
likes of the error that comes back. A text is the sequence of its bytes. `BulkCreate.Call` says what a call of a mutator does; the methods of
`AccountCreateBulk` do it in place on the mutations, the specs and the nodes.

**The pnpm audit gate** (`AuditParser`, `AuditPrinter`, `AuditGate`, `AuditReport`, `AuditScan`). The line parser of the
exception list, its inverse printer for plain values and for either kind of quotes, the index of exceptions, the findings of a report in both layouts, the scan that
leaves out repetitions, and the exit status. A Python error is a result of its own (`Crashed`), although the exit status
of the process is 1 then, too.

Where code and comments disagree the model follows the code: the normalisation of advisories foresees numbers under
`source`, but an item whose title can only be taken from a numeric `source` stops the check
(`AuditReport.NumericSourceStops`); a clone is announced with all associated steps, but row locks are not copied
(`Clones.CloneIsCompleteIff`). Some promises hold only under a condition, which is given exactly, with an input that
fails: the order of groups (`GroupOrder`), limits and offsets on subqueries (`Limits`), a second run on a changed
database (`Reruns`), all or nothing and checked rows in a bulk save (`BulkCreate`), and the comparison of severities
(`AuditScan.MismatchIsLostIff`).

`Collections` holds options, results and sequence operations. `dafny verify dfyconfig.toml` checks the whole project.

## Model

| member | source | states |
|---|---|---|
| EagerEqualsNaive.BatchIsNaive | backend/ent/account_query.go:550-625 | For every database that keeps its primary keys and every finite query tree whose subqueries have no limit or offset, one query per edge gives the same object graph as one lookup per row and edge, nested to any depth |
| EagerEqualsNaive.SameGraphIsEqual | backend/ent/account_query.go:627-687 | Below graphs without groups lists, being the same object graph is equality |
| EagerEqualsNaive.OneAgrees | backend/ent/account_query.go:688-751 | Many-to-one: what a key finds in the batch is what its own query finds |
| EagerEqualsNaive.ManyAgrees | backend/ent/account_query.go:752-845 | One-to-many: a parent's list is, as a sequence, what the query for that parent alone returns |
| EagerEqualsNaive.ShareOfNaive | backend/ent/client.go:874-919 | The part of a batch with one foreign key equals the filter of the table by that key, in the same order |
| EagerEqualsNaive.GroupsAgree | backend/ent/client.go:826-839 | Many-to-many: an account gets the bag of groups that its own joined query returns |
| EagerEqualsNaive.GroupsOfOwner | backend/ent/account_query.go:657-669 | Spreading the distinct groups over an account's links gives exactly the rows joined to it, each once |
| EagerEqualsNaive.OneKeyOfMany | backend/ent/account_query.go:703-704 | A query restricted to one key is the batched query's result restricted to that key |
| EagerLoading.Run | backend/ent/account_query.go:307-314 | A run of a builder object gives distinct, finished entities that show, one for one and with the columns asked for, the rows of the table that meet the predicates, cut to the page and in the order the builder holds; their graph is the batch and, exactly when no page on a subquery disturbs a share, the per-row graph, and its subquery builders are left restricted; it fails only for a failed query or an unknown field, so the unexpected-node, unexpected-key and nil-key errors never occur; it sends exactly the queries of `LogOf` in that order, succeeds if and only if all of them select known fields and are answered, and otherwise ends with the first that is not; the locks taken are those of the queries sent that ask for them |
| EagerLoading.CallAndRun | backend/ent/account_query.go:44-72 | A call on a builder reaches the result of its next run: the predicates, the page, the order and the columns of the entities are those held before with what was asked for added or, for the page, put in place, and a lock asked for is taken on the rows of the query |
| Tables.BatchIsLoaded | backend/ent/account_query.go:858-903 | A batch shows the rows of the table that meet all predicates, each as often as it is there, cut to the page, with the wanted columns and in whatever order the table is in when read as the query asks |
| Tables.OrderReachesRows | backend/ent/account_query.go:895-901 | By whatever the table ascends in the order asked for, the answered rows do |
| Tables.LoadKeeps | backend/ent/account_query.go:762-770 | Restricting a subquery adds one condition, that the id, the foreign key or the joined owner is among the keys, and leaves order, page, locks and predicates; a select list may get the foreign key |
| Tables.ListIs | backend/ent/account_query.go:762-770 | One-to-many: a list shows exactly the rows of the target whose foreign key is the id and that meet the predicates of the subquery, in the order that asks for |
| Tables.ListInOrder | backend/ent/account_query.go:762-770 | The lists are in the order of the subquery also when it has a page |
| Tables.OneIs | backend/ent/account_query.go:703-707 | Many-to-one: the row of the target with the id that the key names, if there is one that meets the predicates of the subquery, and nil otherwise |
| Tables.GroupsAre | backend/ent/account_query.go:638-669 | Many-to-many: exactly the groups joined to the account that meet the predicates, each once, in an order of the groups that the subquery asks for |
| Tables.EdgesGoBy | backend/ent/account/account.go:96-128 | The column each edge goes by; parent and children, and account and links, are inverse to each other |
| Logs.EdgeIsSent | backend/ent/account_query.go:584-623 | Every edge asked for is loaded by a query of the run that carries the order, the page and the lock of its subquery, and a lock asked for there locks the rows found for the edge |
| Logs.GroupsLocked | backend/ent/account_query.go:942-965 | A lock on the groups of accounts locks the joined groups, each once |
| Logs.OneQueryPerBuilder | backend/ent/account_query.go:550-625 | However many rows there are, a run sends at most one query per builder |
| Logs.NoneAsked | backend/ent/account_query.go:942-965 | Builders that ask for no row lock send no query that locks rows, at any depth |
| Logs.LocksAdd | backend/ent/account_query.go:942-965 | Queries that all succeed add the locks that they ask for, in order, and no others |
| EagerLoading.All | backend/ent/account_query.go:550-625 | The result unfolds to the batch of what the builder holds, and its subquery builders are left restricted in place as `AfterRun` says; when the run fails, the edges loaded by then are left so, the subquery of the edge it failed at is restricted, and the remaining ones are as they were (`Logs.Stopped`) |
| EagerLoading.LoadEdges | backend/ent/account_query.go:584-624 | After the edges are loaded in schema order, every node has each requested edge and no other; the first edge that fails ends the loop |
| EagerLoading.LoadSub | backend/ent/account_query.go:584-623 | Loading an edge changes the nodes, the edge's own builder and those below it; the other subquery builders and the select list, order and filters of the query stay |
| EagerLoading.LoadEdge | backend/ent/account_query.go:584-623 | One more edge of every node is loaded through its builder, which sends the queries of the edge and is left restricted, also when it fails; the errors of its loader are failed queries or unknown fields |
| Spreading.CollectKeys | backend/ent/account_query.go:689-700 | The keys sent to the query are the distinct non-nil foreign keys in order of first appearance, and every node is filed under its key |
| Spreading.PointBucket | backend/ent/account_query.go:709-716 | Exactly the nodes filed under a neighbor's id point at it afterwards; false when there are none |
| Spreading.SpreadSingles | backend/ent/account_query.go:709-718 | Every node points at the last neighbor whose id its key names, or keeps its edge; it passes exactly when every neighbor's id was asked for |
| EagerLoading.LoadM2O | backend/ent/account_query.go:688-751 | Many-to-one loading, also for repeated rows: every node's edge is the row its key leads to, nodes without a match keep theirs, and no keys means no query |
| EagerLoading.Fetch | backend/ent/accountgroup_query.go:379-436 | A many-to-one or one-to-many subquery is run once, restricted to the keys, and what comes back is the batch and carries keys that were asked for; a many-to-one edge without keys sends nothing |
| Spreading.CollectNodes | backend/ent/account_query.go:753-761 | Every node starts with an empty list and is filed under its id, of two with one id the later |
| Spreading.AppendTo | backend/ent/account_query.go:606-607 | One node's list grows by the neighbor, all others stay |
| Spreading.SpreadLists | backend/ent/account_query.go:771-782 | Every node's list is, in order, the neighbors whose key is its id; it passes exactly when every neighbor has a key that names a node |
| EagerLoading.LoadO2M | backend/ent/account_query.go:752-845 | One-to-many loading: every node has its share of the batch in batch order, an empty list when there is none |
| EagerLoading.InvalidFieldOf | backend/ent/account_query.go:535-539 | A selected field that is no column of the table is found whenever there is one |
| EagerLoading.FetchM2M | backend/ent/account_query.go:638-647 | The join, restricted to the nodes' ids and otherwise as the builder asks, row locks included, is sent once unless a selected field is unknown, and every joined row belongs to one of them |
| Spreading.ScanJoin | backend/ent/account_query.go:651-670 | The groups are the first joined row of each id in order of appearance, and each is recorded with exactly the nodes joined to it |
| Spreading.AppendToMembers | backend/ent/account_query.go:682-684 | The members' lists grow by the group, whatever order the set of members is gone through in |
| Spreading.SpreadGroups | backend/ent/account_query.go:677-685 | Every node lists its groups in the order of the distinct groups; it fails only for a group without an entry |
| EagerLoading.LoadM2M | backend/ent/account_query.go:627-687 | Many-to-many loading: every node, unless hidden by a later one with its id, lists the groups joined to it |
| EagerLoading.RunRestricted | backend/ent/account_query.go:762-770 | The subquery builder is restricted in place to the keys, with the foreign key added to a select list, and stays so whether its run succeeds or fails |
| EagerLoading.RowsCarryKeys | backend/ent/account_query.go:762-770 | What a restricted subquery reads carries keys it was restricted to, whatever its select list |
| EagerLoading.NodesCarryKeys | backend/ent/account_query.go:866-880 | The nodes hold the ids and foreign keys in what was read of their rows |
| QueryTrees.ReadKeepsKeys | backend/ent/account_query.go:858-880 | Reading the selected columns loses no id and no foreign key that a loader goes by |
| QueryTrees.ColumnsSuffice | backend/ent/account_query.go:866-880 | A select list never loses the id nor the foreign key of an edge that is to be loaded |
| QueryTrees.ProjectIs | backend/ent/account_query.go:866-880 | With a select list, a column is read if and only if it is selected, is the id, or is the foreign key of an edge to be loaded; without one, all are |
| QueryTrees.FirstRows | backend/ent/account_query.go:657-669 | Each joined group once, and every joined group |
| QueryTrees.PartEnd | backend/ent/account_query.go:584-624 | Once all requested edges are loaded, the nodes are the batch and the subqueries what a run leaves |
| Entities.Scan | backend/ent/account_query.go:566-571 | One new entity per row, with its selected columns, no edges and the loaded flags of the query |
| Entities.Entity.SetSingle | backend/ent/account_query.go:591-593 | Only the named edge of the entity changes |
| Entities.Entity.Append | backend/ent/account_query.go:586-587 | Only the named list of the entity grows |
| SelectLists.SelectNeverChangesEdges | backend/ent/account_query.go:858-880 | Whatever the select lists of a query and of its subqueries, the same entities are loaded, linked and listed in the same way, although the links go by the columns that were read, and no shared column differs |
| GroupOrder.GroupsOnceInFirstOrder | backend/ent/account_query.go:627-687 | An account lists exactly the groups joined to it, each once, in the order in which groups first appear in the whole batch |
| GroupOrder.GroupOrderAgreesIff | backend/ent/account_query.go:627-687 | As sequences, batched groups and those of the account's own query are equal if and only if the own query returns them in the batch's order of first appearance |
| GroupOrder.GroupOrderMayDiffer | backend/ent/account_query.go:682-684 | A database in which the order does differ |
| GroupOrder.OrderedGroupsAgree | backend/ent/account_query.go:627-687 | When the join is ordered by the group's row alone, batched and own lists of groups are the same sequence for every account |
| GroupOrder.FirstRowsInOrder | backend/ent/account_query.go:657-669 | The distinct groups come in strict order of first appearance |
| Limits.LimitIsShared | backend/ent/account_query.go:445-454 | A limit on a one-to-many subquery bounds the lists of all parents together |
| Limits.BatchIsNaiveIff | backend/ent/account_query.go:550-625 | With limits and offsets on subqueries of any kind and at any depth, the batched graph is the per-row graph if and only if, at every depth the run reaches, no page disturbs a share: the page starts past the matching rows, or it is all of them, or the rows up to its end are one parent's and no other parent has more rows than are skipped |
| Limits.LimitFreeFits | backend/ent/account_query.go:550-625 | Subqueries without a limit or an offset meet that condition |
| PagedEdges.ManyAgreesIff | backend/ent/account_query.go:762-770 | With any limit and offset on a one-to-many subquery, every parent gets the list of its own query if and only if the page disturbs no share and the batch agrees below |
| PagedEdges.OneAgreesIff | backend/ent/account_query.go:703-707 | The same for the keys of a many-to-one subquery |
| PagedEdges.OnePageFitsIff | backend/ent/account_query.go:703-707 | For a many-to-one subquery this means: without an offset, that no more rows match than the limit; with one, that no more rows match than are skipped |
| PagedEdges.GroupsAgreeIff | backend/ent/account_query.go:638-669 | With any limit and offset on the groups, every account gets the bag of groups of its own query if and only if the page disturbs no account's share of the links |
| Pages.SharesAreOwn | backend/ent/account_query.go:888-893 | What an owner has of an undisturbed page is the page of what it has, in order |
| Pages.MembersTell | backend/ent/account_query.go:888-893 | Conversely, when every owner of distinct elements has of the page what is on its own page, the page is undisturbed |
| Pages.LengthsTell | backend/ent/account_query.go:888-893 | With a limit alone or an offset alone, equal numbers suffice for that |
| Limits.LimitAgreesIff | backend/ent/account_query.go:762-770 | With a limit and no offset, every parent gets what its own limited query returns if and only if no more rows match than the limit or all that match belong to one parent |
| Limits.LimitMayCut | backend/ent/account_query.go:762-770 | A database in which a parent loses its only child to the limit |
| Reruns.RerunIsTheSame | backend/ent/account_query.go:762-770 | Run again on an unchanged database, a builder without groups subqueries loads the same graph although its subqueries are restricted by then |
| Reruns.RetryIsTheSame | backend/ent/account_query.go:762-770 | Retried on an unchanged database after a run that failed anywhere, a builder without groups subqueries loads the graph the first run would have loaded |
| Reruns.RerunIsBlind | backend/ent/account_query.go:703-704 | Run again on any later database, it finds nothing for a node whose key the first run did not collect |
| Reruns.RetryIsBlind | backend/ent/account_query.go:703-704 | After a run that failed at an edge, its subquery finds nothing for a node whose key the failed run did not collect |
| Reruns.RerunLoadsAllIff | backend/ent/account_query.go:703-704 | Run first on one database and then on another, it loads from the second what a builder never run loads if and only if every key that matches a row there was collected by the first run, at every depth |
| Reruns.RerunMayMiss | backend/ent/account_query.go:703-704 | Two databases between which it does miss a proxy |
| Accessors.AccountAccessorsTell | backend/ent/account.go:111-165 | An accessor of a loaded account reports "not loaded", with the name of its edge, iff its subquery was absent, a unique one "not found", with the target, iff it was loaded and no row matched, and otherwise answers the loaded neighbors; this fixes all six positions |
| Accessors.LinkAccessorsTell | backend/ent/accountgroup.go:45-66 | The same for the two edges of an account-group link |
| Accessors.NoMatchIsNone | backend/ent/account.go:121-128 | A unique edge is nil exactly when no row of the restricted subquery has the id its key names |
| Builders.Query.Do | backend/ent/account_query.go:44-72 | A call on a builder, or through it on a builder below, changes its own objects alone, and what it then holds is what the call says; a With call replaces the subquery of its edge |
| Builders.Query.IsWellFormed | backend/ent/account_query.go:410-473 | A builder only ever has subqueries that the schema allows |
| Slices.Append | backend/ent/account_query.go:44-47 | An append with room writes into the shared array, one without moves to an array of its own; the appended slice has the new contents, and the old slice keeps its own |
| Slices.AppendsInterfere | backend/ent/account_query.go:393-397 | Two holders of one slice with spare capacity overwrite what the other appends, which is what the copies of a clone prevent |
| Slices.CopiesKeepApart | backend/ent/account_query.go:393-397 | After a copy each holder keeps what it appends |
| Builders.WhereFilters | backend/ent/account_query.go:44-47 | Where keeps, of an unpaged query's rows, those that satisfy the added predicates, in order |
| Builders.WhereKeeps | backend/ent/account_query.go:44-47 | A condition added by Where keeps exactly the rows that meet it, in order |
| Builders.PagesPartition | backend/ent/account_query.go:49-59 | Consecutive pages of a fixed size, put one after the other, are the rows of the unpaged query, none twice and none left out |
| Builders.Query.AddSubquery | backend/ent/account_query.go:412-473 | A With call configures a new builder and puts it in place of the old one |
| Builders.CallBelowIsOption | backend/ent/account_query.go:412-473 | A call on a subquery builder does what one more option of its With call would have done |
| Builders.LaterWithCounts | backend/ent/account_query.go:412-473 | Of two With calls for one edge the later counts |
| Builders.Query.Clone | backend/ent/account_query.go:388-408 | A clone consists of new builders, contexts and arrays only and holds what the original holds except row locks, at every depth |
| Clones.CloneIsIndependent | backend/ent/account_query.go:386-408 | After cloning, any calls on the two builders and on the builders below them, in any order, act on each of the two alone, and no object is shared |
| Clones.CloneAndRun | backend/ent/account_query.go:386-408 | A clone is made, calls are made on both builders, one of them is run, more calls are made, the other is run: each loads exactly what its own calls ask for and fails only for its own queries and fields, whichever runs first, and the entities of the first run stay as they are |
| Clones.CloneLoadsWithoutLocks | backend/ent/account_query.go:942-965 | A clone and its original load the same graph; the run of the clone locks nothing, that of the original locks the rows of its query when a lock was asked for |
| Clones.CloneIsCompleteIff | backend/ent/account_query.go:386-408 | A clone holds all that the original holds if and only if no builder of the original asks for a row lock |
| Clones.CloneLoadsTheSame | backend/ent/account_query.go:386-408 | The locks a clone loses never change what it loads |
| AccountFields.WithDefaults | backend/ent/account_create.go:527-585 | Set fields stay, unset ones get nothing but their defaults; all are set when every needed default is registered, and otherwise the first that is not stays unset |
| AccountFields.OnlyThreeCanBeMissing | backend/ent/account_create.go:588-662 | Once defaults succeed, the check can miss only name, platform or type |
| AccountFields.DiscardedErrorIsCaught | backend/ent/account_create.go:2105-2116 | When defaults fail and the bulk save discards that error, the check still fails |
| AccountFields.CheckPassesIff | backend/ent/account_create.go:588-662 | The check passes iff every required column is set and every validator accepts |
| AccountFields.DefaultsFillIn | backend/ent/account_create.go:527-585 | With the runtime imported, defaults keep every set field and fill in each of the eleven defaulted columns with its value, and no other |
| AccountFields.CheckAfterDefaults | backend/ent/account_create.go:588-662 | The check after defaults passes iff name, platform and type are set and every value that was set is accepted |
| AccountCodec.CreateSpec | backend/ent/account_create.go:682-860 | The entity is the mutation over zero values, and the insert has one write per set field and one edge per set foreign key |
| AccountCodec.EveryColumnIsWritten | backend/ent/account_create.go:690-860 | Field writes and edges together cover every column but the id, and none is in both |
| AccountCodec.RowHoldsMutation | backend/ent/account_create.go:682-860 | The inserted row holds the mutation's values and NULL elsewhere |
| AccountCodec.WritesHaveTypes | backend/ent/account_create.go:690-860 | Every column of an insert is written with the type of its field |
| AccountCodec.NillableIff | backend/ent/account.go:18-92 | The entity holds a field as a pointer exactly when its column may be left unset |
| AccountCodec.ScanValues | backend/ent/account.go:168-189 | One holder per column, of the kind of that column |
| AccountCodec.Account.AssignValues | backend/ent/account.go:193-417 | Assigns column by column up to the first error, whose earlier assignments stay; fewer values than columns is an error that changes nothing |
| AccountCodec.ScannedNeverUnexpected | backend/ent/account.go:168-417 | For every column list, in any order, with repeats and unknown names, no holder has an unexpected type; only JSON that does not decode can fail |
| AccountCodec.UnlistedIsKept | backend/ent/account.go:193-417 | A field whose column is not listed keeps its prior value, also when the read fails |
| AccountCodec.StopsAtFirstFault | backend/ent/account.go:193-417 | The first column whose holder has another type, or whose bytes do not decode, stops the read with an error that names it and with the columns before it assigned; without one the read goes through |
| AccountCodec.UnknownIsSelected | backend/ent/account.go:412-413 | A column the schema does not know is kept by its name, of several the last |
| AccountCodec.DecodedIntoHeld | backend/ent/account.go:193-417 | JSON decoded into a held document keeps the members that it does not name |
| AccountCodec.HoldersFollowTypes | backend/ent/account.go:168-417 | The holder chosen and the holder expected for a column are both the one of the field's type |
| AccountCodec.ReadsWhatWasWritten | backend/ent/account.go:193-417 | A stored cell sets its field to what was written, NULL leaves the field alone |
| AccountCodec.WriteThenReadSome | backend/ent/account_create.go:682-860 | Any duplicate-free list of a stored row's columns, in any order, reads back into exactly these fields |
| AccountCodec.WriteThenRead | backend/ent/account_create.go:664-680 | All columns read back give the entity that createSpec returned, with the new id |
| AccountCodec.StoredRowFits | backend/ent/account.go:168-189 | Every stored cell fits its holder |
| BulkCreate.AllOrNothingIff | backend/ent/account_create.go:2095-2152 | Whatever the hooks, each of which calls on at most once, a bulk save is all or nothing if and only if every mutator that is called answers an error exactly when the batch does not go in |
| BulkCreate.AllOrNothingWithAnyDriverIff | backend/ent/account_create.go:2095-2152 | It is so with every driver if and only if every mutator that is called keeps a failure of the insert and, if all builders arrive, a success, which can be told from the builders and hooks before the call |
| BulkCreate.FaithfulIsAllOrNothing | backend/ent/account_create.go:2095-2152 | With hooks that neither hide an error nor make one up after calling on, whatever they edit or pass on: success means one batch with every insert in builder order and all mutations done, failure means no mutation done; it succeeds iff every builder passes its hooks and its check and the driver inserts the batch |
| BulkCreate.HiddenErrorBreaks | backend/ent/account_create.go:2143-2151 | A hook that hides the error makes the save answer success although nothing went in |
| BulkCreate.InsertedIsCheckedIff | backend/ent/account_create.go:2113-2119 | The check looks at the builder's own mutation, the insert is built from the one passed on: an inserted row was checked if and only if no hook passed another mutation on or that one passes the check too |
| BulkCreate.InsertedAreChecked | backend/ent/account_create.go:2105-2120 | With hooks that pass the builder's mutation on, whatever they set in it, no row reaches the batch insert unchecked or without a required field |
| BulkCreate.ReplacedIsUnchecked | backend/ent/account_create.go:2113-2119 | A hook that passes an empty mutation on has it inserted unchecked |
| BulkCreate.HookSets | backend/ent/account_create.go:2107-2120 | What a hook sets, in its mutation or in one it passes on, is in the row inserted for its builder unless a later hook changes it |
| BulkCreate.FirstErrorIsAnswered | backend/ent/account_create.go:2095-2152 | With hooks that hand answers back, the save answers the error of the first builder that stops, be it what its hook said or its failed check, and otherwise the failure of the insert, if any |
| BulkCreate.CallEnds | backend/ent/account_create.go:2107-2142 | How the call of any mutator at any hook ends: the batch it inserts, its answer, and that it marks exactly the builders that arrive and whose next mutator answers no error |
| BulkCreate.AccountCreateBulk.Save | backend/ent/account_create.go:2095-2152 | Without hooks and with the runtime and a driver that inserts, the save succeeds iff every builder sets name, platform and type and sets only accepted values, and the rows of its one batch then hold what was set and every defaulted column; in general its result, batches and marks are those of the plan, and with faithful hooks all or nothing, where the returned node of a builder is the entity of the mutation that was inserted for it with the id the driver gave to that insert; whatever the hooks, a marked builder's mutation, insert and node are those of the mutation that arrived for it |
| BulkCreate.AccountCreateBulk.Mutate | backend/ent/account_create.go:2107-2147 | A builder's mutator with its hooks, the first outermost, touches no earlier builder; the recursion ends by the number of builders left |
| BulkCreate.AccountCreateBulk.Core | backend/ent/account_create.go:2107-2142 | The builder's own mutation is checked, the one passed takes its place, then spec, call on, and only then the mark; a marked builder's node and insert come from the mutation that was passed, and its id from the driver |
| BulkCreate.AccountCreateBulk.BatchCreate | backend/ent/account_create.go:2121-2130 | One batch of all specs in builder order, and the ids are those the driver answers |
| BulkCreate.AccountCreateBulk.AllDefaults | backend/ent/account_create.go:2103-2105 | Every builder's mutation keeps what was set and, with the runtime imported, has every defaulted column filled in |
| AuditParser.ParseExceptions | tools/check_pnpm_audit_exceptions.py:23-48 | The loop over the lines computes the records of the text, or stops where a line cannot be split |
| AuditParser.ParseInTwo | tools/check_pnpm_audit_exceptions.py:23-48 | If the second document's first significant line starts an item, parsing both in sequence gives the records of both |
| AuditParser.SkippedAnywhere | tools/check_pnpm_audit_exceptions.py:30-33 | Blank lines, comments, the two headings, and lines that are no item and have no colon can stand anywhere and change nothing |
| AuditParser.NothingBeforeItems | tools/check_pnpm_audit_exceptions.py:34-45 | What comes before the first item does not count |
| AuditParser.IndentationIgnored | tools/check_pnpm_audit_exceptions.py:29-29 | Blanks on either side of a line do not count |
| AuditParser.StripTakesBlanks | tools/check_pnpm_audit_exceptions.py:15-29 | Stripping takes off the blanks on both sides of a text and nothing else |
| AuditParser.ScanFailsIff | tools/check_pnpm_audit_exceptions.py:12-14 | Reading the list fails if and only if some line starts an item that has no colon |
| AuditParser.RecordsAreFilled | tools/check_pnpm_audit_exceptions.py:35-47 | No empty record, and no more records than lines that start an item |
| AuditPrinter.ParseTextsInTwo | tools/check_pnpm_audit_exceptions.py:27-28 | The same for two texts with a newline between them |
| AuditPrinter.ParseUndoesPrint | tools/check_pnpm_audit_exceptions.py:12-48 | Printing records, with each value plain or in either kind of quotes, and parsing the text gives the same records in order, with colons, hashes, quotes and inner spaces of the values kept, and outer spaces of the quoted ones |
| AuditPrinter.EntrySplits | tools/check_pnpm_audit_exceptions.py:12-20 | A printed entry, plain or quoted, splits into its key and its value |
| AuditPrinter.QuotedIsStripped | tools/check_pnpm_audit_exceptions.py:15-19 | Either kind of quotes is taken off a value together with outer spaces |
| AuditPrinter.PlainSplits | tools/check_pnpm_audit_exceptions.py:12-20 | A trimmed value that neither kind of quotes encloses, with a quote at one end or none, is read as it stands |
| AuditPrinter.LineSplits | tools/check_pnpm_audit_exceptions.py:12-20 | A line splits at its first colon, and blanks around the key and the value are taken off |
| AuditPrinter.UnquoteIs | tools/check_pnpm_audit_exceptions.py:16-19 | Quotes come off exactly when the same quote is at both ends; of a single quote nothing is left |
| AuditPrinter.LinesInTwo | tools/check_pnpm_audit_exceptions.py:27-28 | A line feed or a carriage return separates lines |
| AuditPrinter.LinesOfJoin | tools/check_pnpm_audit_exceptions.py:27-28 | A text has the lines it was joined from |
| AuditGate.IndexExceptions | tools/check_pnpm_audit_exceptions.py:156-185 | The loop builds the index and counts the exceptions it refuses: none iff every exception has its five fields, a date that can be read, a package and an advisory, and no two are for the same; and every entry holds the normalised severity and the date of an exception for its key |
| AuditGate.SlotIs | tools/check_pnpm_audit_exceptions.py:156-183 | An exception is put in the index iff it is usable, under its normalised package and advisory, with its normalised severity and its date |
| AuditGate.NormalisedText | tools/check_pnpm_audit_exceptions.py:116-134 | Outer blanks do not count; the case counts for packages and not for severities and advisories |
| AuditGate.NoneRefusedIff | tools/check_pnpm_audit_exceptions.py:156-185 | Nothing is refused iff all exceptions are complete and dated with distinct keys |
| AuditGate.FirstIsIndexed | tools/check_pnpm_audit_exceptions.py:175-185 | Of exceptions with one key, the index holds the first |
| AuditGate.IndexedKeys | tools/check_pnpm_audit_exceptions.py:175-185 | The index has exactly the keys of the usable exceptions |
| AuditReport.IterVulns | tools/check_pnpm_audit_exceptions.py:64-113 | The loops over both layouts collect the findings, or stop where Python raises an error; `FindingsAre` and `FindingsInOrder` say which these are |
| AuditReport.Vulnerability | tools/check_pnpm_audit_exceptions.py:84-113 | The findings of one vulnerability entry; `PairsYield`, `OneItem` and `ItemsInTwo` say which these are |
| AuditReport.Via | tools/check_pnpm_audit_exceptions.py:86-110 | Identifiers and titles of the via items, item by item: a string is both, an object gives the first true one of its members |
| AuditReport.ReadIff | tools/check_pnpm_audit_exceptions.py:84-113 | An entry under vulnerabilities, whatever its members, is read iff it is an object and, if its via is a list, every true title in it is a string, where the title of an object is the first true one of its members |
| AuditReport.AdvisoryReadIff | tools/check_pnpm_audit_exceptions.py:51-81 | An entry under advisories is read iff it is an object and has a true GHSA identifier or URL, or its list of CVEs is false, a list or a string |
| AuditReport.ReportReadIff | tools/check_pnpm_audit_exceptions.py:64-113 | A report is read iff it is an object and every entry of both layouts can be read |
| AuditReport.FindingsAre | tools/check_pnpm_audit_exceptions.py:64-113 | The findings of a report are exactly one for each entry under advisories, with the first true one of two names and of seven identifiers, and, for each entry under vulnerabilities, those of its via: every non-empty string, and for every object in its list the first true one of five members; items of no other kind yield any |
| AuditReport.FindingsInOrder | tools/check_pnpm_audit_exceptions.py:64-113 | First come the findings of the advisories, one for each in the order of the report, then those of the vulnerabilities |
| AuditReport.VulnerabilitiesInTwo | tools/check_pnpm_audit_exceptions.py:83-113 | Of two vulnerabilities the findings of the earlier come first |
| AuditReport.ItemsInTwo | tools/check_pnpm_audit_exceptions.py:89-113 | Of two items of a list the finding of the earlier comes first |
| AuditReport.OneItem | tools/check_pnpm_audit_exceptions.py:90-103 | An item yields one finding for its identifier, and none without one |
| AuditReport.PickIs | tools/check_pnpm_audit_exceptions.py:51-61 | The identifier of an advisory is the first true one of GHSA identifier, URL, first CVE, id, title, advisory and overview |
| AuditReport.NumericSourceStops | tools/check_pnpm_audit_exceptions.py:93-111 | An item with only a numeric source stops the check |
| AuditReport.PairsYield | tools/check_pnpm_audit_exceptions.py:111-113 | The findings of a vulnerability entry are exactly those of its items with a true identifier |
| AuditReport.LayoutsIdentifyAlike | tools/check_pnpm_audit_exceptions.py:51-61 | With a GHSA identifier or an URL, an advisory is identified alike in both layouts |
| AuditScan.BothLayoutsOneKey | tools/check_pnpm_audit_exceptions.py:203-207 | Such an advisory, carried in both layouts, is looked up under one key |
| AuditScan.Scan | tools/check_pnpm_audit_exceptions.py:191-219 | The scan computes its reports from first occurrences, or stops at a severity that cannot be normalised |
| AuditScan.OneFirstPerKey | tools/check_pnpm_audit_exceptions.py:191-207 | Every key that is looked up has exactly one first occurrence |
| AuditScan.FirstsAreFirst | tools/check_pnpm_audit_exceptions.py:191-207 | The findings kept are the earliest with their keys, and every earliest one is kept |
| AuditScan.RepetitionsLoseNothing | tools/check_pnpm_audit_exceptions.py:191-219 | The missing and the expired list have exactly one entry per offending key, in order of first occurrence |
| AuditScan.MismatchIsLostIff | tools/check_pnpm_audit_exceptions.py:204-215 | A severity that does not match its exception goes unreported iff the first occurrence of its key does match |
| AuditScan.OrderDecides | tools/check_pnpm_audit_exceptions.py:204-215 | So the order of two findings with one key decides whether a mismatch is reported |
| AuditScan.OrderMatters | tools/check_pnpm_audit_exceptions.py:204-215 | An index and two findings with one key whose order decides that |
| AuditScan.NoReportsIff | tools/check_pnpm_audit_exceptions.py:191-219 | With usable and distinct exceptions, nothing is reported iff every named high or critical finding has an advisory and each package and advisory is excused where it first occurs: by an exception for it, with a date not before today and with an empty severity or that of the finding |
| AuditScan.AcceptsIff | tools/check_pnpm_audit_exceptions.py:200-219 | What the scan finds in the index is what can be said of the exceptions themselves |
| AuditScan.CheckAudit | tools/check_pnpm_audit_exceptions.py:144-243 | The check passes iff the exceptions are usable and distinct, every named high or critical finding has an advisory, and each key is excused, where it first occurs, by an exception of the list for it, not expired and of an empty or the same severity; it crashes iff a line starts an item without a colon, or the report or an entry of it is no object, or an entry has a true title or severity that is no string or CVEs that cannot be indexed |
| AuditScan.StopsWhen | tools/check_pnpm_audit_exceptions.py:12-119 | These conditions on the text and on the report are exactly those under which a part of the check fails |

## Left out

- EagerLoading.All: a groups subquery that was run before is excluded, as its join would be added a second time; what the database makes of that is SQL.
- EagerLoading.Run: the same exclusion; a run reads one database, changes between its queries are not modelled.
- Reruns.RerunIsTheSame: groups subqueries are excluded for the same reason.
- Reruns.RetryIsTheSame: groups subqueries are excluded for the same reason.
- Limits.BatchIsNaiveIff: when a subquery on account_groups, whose rows have no id, sets both a limit and an offset, only the direction from the condition to the agreement is stated, as two lists of links may agree in the columns that were selected.
- PagedEdges.ManyAgreesIff: the same restriction.
- Reruns.RerunLoadsAllIff: groups subqueries are excluded for the same reason, and subqueries have no limit.
- EagerEqualsNaive.GroupsAgree: compares bags, because the order of a many-to-many list does depend on the other accounts; `GroupOrder` has the exact condition.
- AccountCodec.WriteThenRead: the database is taken to keep what it is given; the rounding of rate multipliers and times by the column types is not modelled.
- AccountFields.CheckPassesIff: validators that are nil because the runtime package was not imported are not modelled.
- BulkCreate.AllOrNothingIff: a hook that calls the next mutator twice, which would insert two batches, or that changes the mutation after the call has come back, is not modelled.
- BulkCreate.AccountCreateBulk.Save: the same builder listed twice is not modelled; an id is a value, not a pointer into the node.
- AccountCodec.CreateSpec: many-to-many and one-to-many edges of an insert (groups, children, usage logs) and conflict clauses are not modelled.
- AuditScan.CheckAudit: lower-casing, the text of arrays and objects and the reading of ISO dates are parameters; message texts, argument parsing and file reading are not modelled.
- Builders.Query.Clone: that `ctx.Clone()` copies the context and its field list is taken from the ent library (`entgo.io/ent`), which is not part of this model.
- Edges of groups, proxies and usage logs: the same templates as accounts, they would only repeat members.
- Interceptors (backend/ent/intercept/intercept.go, backend/ent/ent.go:610-668), soft deletion (backend/ent/schema/mixins/soft_delete.go), context values, `Unique`, intermediate paths, negative limits: they depend on these files and on `entgo.io/ent`.
- SQL text, sqlgraph, drivers, transactions: a query is a filter over an ordered table, a batch insert one step that may fail, a lock a note of the rows returned.
- Setters, upserts, update builders and panic wrappers: one-line wrappers, or their meaning lies elsewhere.
- JSON encoding: decoding is assumed to invert encoding.
