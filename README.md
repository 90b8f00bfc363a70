# Luminate Online cluster, site and pool helpers — a Dafny model

This project models the core of the `databasetests` utilities for a Luminate
Online hosting cluster:

- `Cluster` reads the cluster marker file (`.production`) and the cluster's
  `databases.csv`. It checks the cluster id against `CLUSTER_IDS`, derives
  the cluster number and the production flag, and checks that every database
  name starts with `db<number>`.
- `Site` is a value object for one row of `site_version.csv`. It renders
  itself as a JSON-like string and computes the `cvcalc` path forms: `three`,
  `eight`, `three_eight` and `site_data_dir`.
- `SiteList` loads `site_version.csv` in one of three ways: every site, a
  subset by short name, or a subset by site id. A subset comes from a
  `sublist` argument or a `subfile`. The object keeps the sites as a list,
  keeps two dictionaries (by short name and by id), and can be indexed and
  iterated with a cursor.
- `LODBPool` validates its keyword arguments and builds the session-pool
  parameters for the two pool types. `ConvioPool` and `SitePool` pin the
  `type` argument.

Files are modelled as the sequence of lines `readlines()` returns, with the
line terminator kept. Every exception the code raises is a value of
`Errors.Error`, carried in a `Result`.

Each operation that changes an object in place is a `method` on a class.
Each such method is proved against a pure specification function:

- `LoadCluster` and `DbList` for `Cluster`;
- `LoadSites`, `LoadSubset` and `LoadSiteList` for `SiteList`;
- `ValidatePool` and `LoadPool` for `LODBPool`.

Lemmas relate those functions to each other, for example:

- a successful load under any filter holds exactly the sites of the lines that parse to a kept row, in file order;
- where the full load also succeeds, a subset load equals the full load filtered;
- the dictionaries hold the last row for each key;
- the position and the dictionary lookups agree when keys are unique.

Files:

| file | contents |
|---|---|
| `results.dfy` | `Option`, `Result` and `Outcome` |
| `errors.dfy` | the exceptions |
| `text.dfy` | the Python string operations the code relies on: `rstrip`, `split`, `int`, `str`, `rjust`, `posixpath.join` |
| `cluster.dfy` | `Cluster` |
| `site.dfy` | `Site` |
| `site_list.dfy` | `SiteList` |
| `db_pool.dfy` | `LODBPool`, `ConvioPool` and `SitePool` |

## Model

| member | source | states |
|---|---|---|
| Text.RStrip | databasetests/utils.py:86-88 | `rstrip()` returns a prefix of its argument that is empty or does not end in whitespace |
| Text.RStripRemovesSpace | databasetests/utils.py:86-88 | every character `rstrip()` removes is whitespace, so the result is the longest such prefix |
| Text.JoinOfSplit | databasetests/utils.py:97 | joining the fields of `split(',')` with the separator gives back the line |
| Text.SplitOfJoin | databasetests/utils.py:97 | splitting a separator-free field list joined by the separator gives back the fields |
| Text.ParseIntOfIntToString | databasetests/utils.py:84-88 | `int(str(n)) == n` for every integer, negative ones included |
| Text.IntOrStringOfIntToString | databasetests/utils.py:85-88 | an id line holding `str(n)` is stored as the integer `n` and not as a string |
| Text.RJust | databasetests/utils.py:158-161 | `rjust` gives length `max(width, len)`, ends with the argument and is filled before it |
| Text.TakeLast | databasetests/utils.py:153-156 | for `k > 0`, `s[-k:]` has length `min(k, len(s))` and is the suffix of `s` |
| Clusters.LoadCluster | databasetests/utils.py:30-104 | more than one marker line raises; no line leaves the id `None`, which is invalid; success means the stripped id is a key of `CLUSTER_IDS`, the number is its value, production iff the number is 2 or 3, and there is one database name per db-file line, each being that line's second comma field and starting with `db<number>` |
| Clusters.LoadClusterSucceeds | databasetests/utils.py:58-63 | loading succeeds iff there is exactly one marker line, its id is in `CLUSTER_IDS`, and every db line passes |
| Clusters.DbListContents | databasetests/utils.py:94-104 | the db list is Ok iff every line passes; it then holds each line's second field in file order |
| Clusters.DbListFirstError | databasetests/utils.py:94-104 | a failed db list reports the error of one of its lines |
| Clusters.DbListAllOk | databasetests/utils.py:94-104 | a successful db list means no line raised |
| Clusters.DbListErrorPersists | databasetests/utils.py:94-104 | once a prefix of the file raises, the whole file raises the same error, because the loop stops at the first bad line |
| Clusters.MarkerExamples | databasetests/utils.py:30-69 | the marker `2` gives a production cluster 2; the marker `tc` gives the non-production cluster 1 |
| Clusters.TwoFieldLine | databasetests/utils.py:96-101 | a line `first,name` with a well-prefixed name contributes exactly `name` |
| Clusters.DbValueKeepsLineEnd | databasetests/utils.py:96-101 | a database name in the last column keeps its line terminator |
| Clusters.Cluster.constructor | databasetests/utils.py:43-46 | the attributes start as `None`, `None`, `[]` and `None` |
| Clusters.Cluster.ProcessProdFileContents | databasetests/utils.py:80-92 | the id becomes the last line's stripped value, as an int when it parses; the call raises iff there is more than one line |
| Clusters.Cluster.ProcessDbFileContents | databasetests/utils.py:94-104 | the db list grows by `DbList` of the lines, or the call raises that function's first error |
| Clusters.NewCluster | databasetests/utils.py:41-78 | construction yields a fresh Cluster holding exactly `LoadCluster`'s attributes, or `LoadCluster`'s error |
| Sites.Three | databasetests/utils.py:153-156 | `three()` is the last `min(3, len)` characters of `str(site_id)` |
| Sites.ThreeIsLastDigits | databasetests/utils.py:153-156 | for a non-negative id, `three()` reads back as `site_id % 1000` |
| Sites.EightIsPaddedId | databasetests/utils.py:158-161 | for a non-negative id, `eight()` has at least 8 characters (exactly 8 below 10^8), ends with `str(site_id)` and reads back as `site_id` |
| Sites.ThreeEight | databasetests/utils.py:163-166 | `three_eight()` is `three() + "/" + eight()`; `os.path.join` adds exactly one separator because neither part has a leading slash |
| Sites.SiteDataDir | databasetests/utils.py:168-171 | `site_data_dir()` is the root, then a `/` unless the root is empty or already ends in one, then `three_eight()` |
| Sites.Example1234 | databasetests/utils.py:163-171 | the documented example: id 1234 gives `234`, `00001234`, `234/00001234` and `/etc/convio/site_data/234/00001234` |
| Sites.SiteStrFields | databasetests/utils.py:147-151 | splitting `str(site)` on `"` recovers the short name, domain, version and site db in order, when they contain no quote |
| Sites.SiteStrId | databasetests/utils.py:147-151 | the id text between the quoted keys of `str(site)` reads back as `site_id` |
| SiteLists.DataLines | databasetests/utils.py:267-268 | a line is kept iff it is in the file and is neither blank nor a comment once right-stripped; no more lines come out than go in |
| SiteLists.ParseRow | databasetests/utils.py:266-280 | one row raises only `IndexError` or `ValueError`; a kept row yields a Site with the configured root that passes the filter |
| SiteLists.ParseRowOfJoin | databasetests/utils.py:266-280 | round trip: the row `id,short,domain,version,db` written from comma-free fields (a db not ending in whitespace) parses to the Site of exactly those fields and the configured root when the filter keeps it, and is skipped otherwise |
| SiteLists.LoadSites | databasetests/utils.py:266-280 | the row loop raises only `IndexError` or `ValueError` |
| SiteLists.LoadSitesKept | databasetests/utils.py:266-280 | a load keeps at most one site per data line, and every site carries the root and passes the filter |
| SiteLists.LoadSitesErrorPersists | databasetests/utils.py:266-280 | once a prefix of the file raises, the whole load raises the same error |
| SiteLists.LoadSitesSucceeds | databasetests/utils.py:266-280 | a load under any filter succeeds iff every line parses on its own under that filter, so a subset load accepts short rows it drops |
| SiteLists.LoadSitesRows | databasetests/utils.py:324-338 | (short names; lines 266-280 and 388-402 are the same loop) a successful load under any filter holds one site per kept line, the j-th site being the j-th kept line's row, kept lines in file order, and every other line parses to nothing |
| SiteLists.FullLoadSites | databasetests/utils.py:259-284 | a successful full load has one site per data line, in order, each being that line's parse |
| SiteLists.FilterSites | databasetests/utils.py:332 | the filtered list holds exactly the sites that pass the membership test (also line 396 for ids) |
| SiteLists.SubsetIsFilteredFullLoad | databasetests/utils.py:324-338 | (short names; lines 388-402 are the same for ids) under the hypothesis that the full load succeeds, a subset load is the full load filtered by the subset, in order; `LoadSitesRows` covers files the full load rejects |
| SiteLists.KeyIndexValues | databasetests/utils.py:279-280 | each dictionary entry is a listed site whose key is that entry's key |
| SiteLists.KeyIndexKeys | databasetests/utils.py:279-280 | each dictionary's keys are exactly the keys of the listed sites |
| SiteLists.KeyIndexLastWins | databasetests/utils.py:279-280 | a site whose key no later row repeats is that key's dictionary entry |
| SiteLists.KeyIndexUnique | databasetests/utils.py:279-280 | with unique keys, a dictionary has one entry per site, and each site is its key's entry |
| SiteLists.SubfileItems | databasetests/utils.py:358-369 | (ids; lines 294-304 read short names the same way without `int()`) reading a subfile can fail only for ids, and only with `ValueError` |
| SiteLists.SubfileItemsContents | databasetests/utils.py:358-369 | (ids; lines 294-304 read short names the same way without `int()`) a subfile read succeeds iff every id line parses; it then yields one item per data line, in order: the stripped name, or the id as an int |
| SiteLists.ReadSubfile | databasetests/utils.py:358-369 | (ids; lines 294-304 read short names the same way without `int()`) the read loop yields exactly `SubfileItems` |
| SiteLists.Sublist | databasetests/utils.py:294-322 | (short names; lines 358-386 are the same for ids) `sublist` and `subfile` together, or neither, raise; otherwise the subset is `sublist` or the subfile's items |
| SiteLists.LoadSubset | databasetests/utils.py:286-408 | a subset load raises the argument error iff both or neither of `sublist` and `subfile` are given; a successful one holds at least one site |
| SiteLists.LoadSiteList | databasetests/utils.py:225-240 | the constructor dispatch: without `all` and without a `short`/`id` key it raises; a subset load raises the argument error iff both or neither source is given; a subset that succeeds is non-empty |
| SiteLists.EmptyLoads | databasetests/utils.py:259-284 | `all` over a file with no data line yields an empty list, which the full load does not reject |
| SiteLists.SubsetOfFullLoad | databasetests/utils.py:324-344 | (short names; lines 388-408 for ids) given a sublist and under the hypothesis that the full load of the CSV succeeds, a `short`/`id` load is the filtered full load, or raises the no-sites error when that is empty |
| SiteLists.PyIndex | databasetests/utils.py:248-249 | indexing succeeds iff `-len <= i < len`, and a negative index counts from the end |
| SiteLists.SiteList.constructor | databasetests/utils.py:206-210 | a new SiteList is empty, with empty dictionaries and the cursor at 0 |
| SiteLists.SiteList.AppendRow | databasetests/utils.py:266-280 | one loop iteration appends exactly the row's sites and keeps both dictionaries in sync, or raises the row's error |
| SiteLists.SiteList.AppendRows | databasetests/utils.py:266-280 | the loop appends exactly `LoadSites`'s sites and keeps both dictionaries in sync, or raises its error |
| SiteLists.SiteList.InitializeWithCsv | databasetests/utils.py:259-284 | a full load appends `LoadSites`'s sites and sets `_data_len` to the list's length, or raises its error |
| SiteLists.SiteList.InitializeWithCsvSubset | databasetests/utils.py:286-408 | argument errors come before the CSV is read; otherwise the loaded sites are appended, `_data_len` is set, and an empty result raises; from an empty list this is `LoadSubset` |
| SiteLists.SiteList.Len | databasetests/utils.py:242-243 | `len()` is the list's length |
| SiteLists.SiteList.LookupsAgree | databasetests/utils.py:248-280 | with unique short names and ids, the site at any valid position is the dictionary entry for its short name and for its id |
| SiteLists.SiteList.Next | databasetests/utils.py:251-257 | `__next__` returns the site at the cursor and advances; past the end it resets the cursor to 0 and stops |
| SiteLists.SiteList.Iterate | databasetests/utils.py:244-257 | a `for` loop yields the sites from the cursor to the end, in order, and leaves the cursor at 0 |
| SiteLists.NewSiteList | databasetests/utils.py:186-240 | construction yields a fresh, valid SiteList holding exactly `LoadSiteList`'s sites with the cursor at 0, or that function's error |
| DbPools.ClusterSources | databasetests/LO_DB_Pool/LO_DB_Pool.py:58-65 | each of `prod_file` and `db_file` is used when given, else the Cluster default |
| DbPools.ValidatePool | databasetests/LO_DB_Pool/LO_DB_Pool.py:55-82 | the arguments pass iff the type is accepted, the db is in the cluster's list, and `min`/`max` when given are in 1..5 and 1..10; each failing check raises its own error, the first failing one in the order type, db, min, max deciding; missing `min`/`max` default to 1 and 2 |
| DbPools.MinAboveMaxAccepted | databasetests/LO_DB_Pool/LO_DB_Pool.py:73-82 | a `min` above `max` (5 and 1) passes the checks |
| DbPools.SessionPoolFor | databasetests/LO_DB_Pool/LO_DB_Pool.py:84-99 | the convio pool logs in as `convio` and is homogeneous; the site pool has no credentials and is not homogeneous; both use the db as dsn, the validated min/max, increment 1 and UTF-8 |
| DbPools.LoadPool | databasetests/LO_DB_Pool/LO_DB_Pool.py:55-99 | a cluster error comes first, then a validation error; on success the pool is `SessionPoolFor` of the validated settings, so it connects to the given `db` (one of the cluster's databases) with the validated min/max, increment 1, UTF-8 and the type's credentials and homogeneity |
| DbPools.LoadPinnedPool | databasetests/LO_DB_Pool/LO_DB_Pool.py:102-112 | a subclass given `type` again raises the duplicate-keyword error; a ConvioPool that loads is homogeneous with the `convio` credentials, and a SitePool that loads is heterogeneous with no credentials |
| DbPools.LODBPool.constructor | databasetests/LO_DB_Pool/LO_DB_Pool.py:55-99 | the pool object holds the given cluster and pool parameters |
| DbPools.NewLODBPool | databasetests/LO_DB_Pool/LO_DB_Pool.py:55-99 | construction yields a fresh pool whose cluster holds `LoadPool`'s cluster and whose parameters are `LoadPool`'s, or that function's error |
| DbPools.NewPinnedPool | databasetests/LO_DB_Pool/LO_DB_Pool.py:102-112 | `ConvioPool(**kw)` and `SitePool(**kw)` are `LoadPinnedPool` for their type |

Where the code and its documentation differ, the model follows the code:

- The class docstring says `sitelist['3701']` and `sitelist['jdrf3']` look up by id and by short name. `__getitem__` indexes the list by position, so the model gives positional and negative indexing only. The dictionaries are exposed through `LookupsAgree`.
- The dictionaries are plain assignments, so a repeated short name or id keeps the last row. Nothing rejects duplicates.
- `_process_db_file_contents` does not strip lines, so a database name in the last column keeps its `\n`.

## Left out

- File opening: the `IOError` → `RuntimeError` wrapping and the `TypeError` fallback that treats the argument as an open file object. Both paths hand lines to the same loop, and the model takes those lines as input.
- Error messages: the text of each exception, including `print(error)`, is not modelled. Only the kind of error and the offending value are.
- `cx_Oracle.SessionPool`: creating the pool and its `DatabaseError` are foreign calls. The model computes the parameters passed to it (`SessionPoolParams`).
- `get_connection` in `ConvioPool` and `SitePool`: both are empty stubs.
- Text.ParseInt: Python's `int()` also accepts surrounding whitespace, `_` digit separators and non-ASCII digits. The model accepts an optional sign and ASCII digits only.
- `Site` fields that are `None` or not strings: the loaders always pass strings, and `str()` of other values is not modelled. `site_id` is always an int.
- `sublist` elements that are neither `int` nor `str` are not modelled. In Python some of them do select rows: `3701 in [3701.0]` and `1 in [True]` are both true. `None` and `[]` are both "not given", as in the source.
- An explicit `None` keyword value is modelled like an absent keyword. In Python, `site_data_dir=None` makes the root `None`, and `min=None` or `max=None` raises `TypeError` at the comparison (`databasetests/LO_DB_Pool/LO_DB_Pool.py:74`, `79`).
- The `if not sublist` test inside the sublist branch (`databasetests/utils.py:306`, `371`) is never true there, because that branch is taken only for a non-empty sublist. It has no counterpart in the model.
- Object identity: the list and the dictionaries share Site objects in Python. The model stores Site values.
- `SiteLists.SiteList.GetItem` has no contract of its own. It is `PyIndex` on the list, and `PyIndex` states the indexing contract.
- The rest of the repository (password-state tools, threading tests, query scripts, the JVM process script) is not part of this model.
