# Inventory reader — a Dafny model

This project models the report reader over the document inventory table. It has two parts.

- **The composer, `InvInventoryReader`.** It holds three fixed condition lists:
  - a usable 510(k) file ("K");
  - a usable PMA document ("P");
  - a usable document outside the 510(k) folders.

  Given a list of requested doctype tags, it builds the condition lists or AND groups. A single tag, `["all"]` and any other list are handled differently. It then runs them through the executor to answer these queries:
  - folder ids for some conditions;
  - documents by submission id, including "folder/suffix" supplement ids;
  - documents by creation-date range or exact date;
  - documents by object id;
  - random samples.
- **The executor, `PrimaryReader`.** It is modelled as a class whose `rows` field is the table. It covers:
  - the AND/OR switch;
  - the max/min ordering switch;
  - query targets, meaning whole records or a tuple of columns;
  - filtering, with or without ordering;
  - DISTINCT;
  - inserting a row;
  - updating the single row that `.one()` demands;
  - a bounded random sample.

Conditions are a small predicate AST (`Conditions.Cond`) evaluated under SQL three-valued logic. A comparison on a NULL column is UNKNOWN. A row is selected only when the whole predicate is TRUE. `x == False` is the three-valued NOT. The outcomes of a call are `Result` values. The Python exceptions become `Reader.Error`:
- `KeyError` for a missing dictionary key;
- `ArgumentError` for a Python list handed to `and_`/`or_`;
- `NoResultFound`/`MultipleResultsFound` from `.one()`;
- `TypeError`/`IndexError`/`ValueError` from unpacking or indexing caller input;
- `Undefined` for outcomes the query library leaves open.

Files:
- `wrappers.dfy`: `Option`, `Result`.
- `inventory.dfy`: the record and its columns.
- `conditions.dfy`: the predicate AST and its evaluator.
- `primary_reader.dfy`: the executor.
- `inventory_reader.dfy`: the composer.

Where the written description of the system and the code disagree, the model follows the code:
- **CORRESPONDENCE guard.** The guard at actors/DAO/reports/InventoryReader.py:33 tests `uniquekey IS NULL`, not `sub_type`. It is modelled as written. A record with a NULL unique key therefore passes it whatever its sub-type, and a record with a unique key and a NULL sub-type fails it.
- **`query_creationdate_range`.** It does not return every record of the folders found. It returns the usable documents of the requested type in those folders, because `query_submission_id` ANDs the doctype group with the folder test. Supplement ids bring in their ".pdf" supplement rows. When no row is in range, `get_folder_ids` returns nothing and the call fails. With `["all"]`, when every folder id found starts with the same letter, `query_submission_id` takes its single-type branch and puts the list of two AND groups itself into the `and_`, which fails with `ArgumentError`.
- **`query_creationdate_exact`.** It never returns a result; see Findings.
- **Double assessment in `get_folder_ids`.** For a single tag, `get_folder_ids` passes the resolved tag string back into `_get_condlist_by_doctype`, which assesses it again as a list of characters. So `["K"]` and `["P"]` work. A longer tag (for example `["KP"]`) is spread into an `and_` as a list, which gives `ArgumentError`. An unknown one-character tag gives `KeyError`.

## Model

| member | source | states |
|---|---|---|
| Conditions.EvalAtom | actors/DAO/reports/InventoryReader.py:19-40 | an IS NULL / IS NOT NULL test is never UNKNOWN; a text or numeric comparison is UNKNOWN exactly when its column is NULL |
| Conditions.AndHolds | actors/PrimaryReader.py:94-103 | an `and_` group selects a row exactly when every member is TRUE on it |
| Conditions.OrHolds | actors/PrimaryReader.py:94-103 | an `or_` group selects a row exactly when some member is TRUE on it |
| Conditions.UnknownReadsNull | actors/PrimaryReader.py:97-103 | under the three-valued evaluator, a predicate is UNKNOWN on a row only when one of its tests reads a NULL column |
| Conditions.NotHolds | actors/DAO/reports/InventoryReader.py:22-23 | `c == False` selects a row exactly when `c` is FALSE on it, not when it is UNKNOWN |
| Conditions.AllHoldAppend | actors/DAO/reports/InventoryReader.py:71-73 | extending a condition list with more conditions conjoins them |
| Inventory.Set | actors/PrimaryReader.py:128-129 | `setattr` gives the named column the new value and leaves every other column as it was |
| Reader.Project | actors/PrimaryReader.py:71-79 | a whole-record target returns the record; a column list returns a tuple of exactly those columns' values, in list order |
| Reader.ProjectAll | actors/PrimaryReader.py:71-79 | the query yields one row per record, in record order, each projected onto the target |
| Reader.FilterTypeSwitch | actors/PrimaryReader.py:82-84 | "and" gives conjunction, "or" gives disjunction, any other flag fails with a lookup error on that flag |
| Reader.OrderTypeSwitch | actors/PrimaryReader.py:87-88 | "max" orders descending and "min" ascending on the attribute; any other flag is a lookup error; a missing attribute fails first |
| Reader.OrderFor | actors/PrimaryReader.py:95-96 | no order means no ordering; otherwise the switch's ordering or its error |
| Reader.Group | actors/PrimaryReader.py:98 | `and_`/`or_` over clauses: a list among them is an ArgumentError; otherwise an empty group among them is Undefined; no clauses is an empty group; otherwise one clause that holds exactly when the AND/OR of the members holds |
| Reader.Combine | actors/PrimaryReader.py:97-103 | the filter is built exactly when the list is non-empty and holds only clauses; then it holds on a row iff the AND/OR of the clauses does, else ArgumentError (a list) or Undefined |
| Reader.TextLeqTotal | actors/PrimaryReader.py:88 | text ordering compares any two strings |
| Reader.TextLeqTransitive | actors/PrimaryReader.py:88 | text ordering is transitive |
| Reader.ValueLeqTotal | actors/PrimaryReader.py:88 | column-value ordering (NULLs last) compares any two values |
| Reader.ValueLeqTransitive | actors/PrimaryReader.py:88 | column-value ordering is transitive |
| Reader.PrecedesTotal | actors/PrimaryReader.py:87-88 | the ascending or descending ordering on an attribute compares any two records |
| Reader.PrecedesTransitive | actors/PrimaryReader.py:87-88 | that ordering is transitive |
| Reader.Insert | actors/PrimaryReader.py:97 | inserting into an ordered run keeps every record and adds the one |
| Reader.InsertSorted | actors/PrimaryReader.py:97 | inserting into a sorted run keeps it sorted |
| Reader.SortBy | actors/PrimaryReader.py:97 | ORDER BY returns a permutation of its input |
| Reader.SortBySorted | actors/PrimaryReader.py:97 | ORDER BY returns its input sorted by the chosen ordering |
| Reader.Select | actors/PrimaryReader.py:101-103 | WHERE keeps exactly the table rows on which the predicate is TRUE, never more rows than the table |
| Reader.SelectCount | actors/PrimaryReader.py:101-103 | a selected record occurs as often as in the table, a rejected one never |
| Reader.SelectPermutation | actors/PrimaryReader.py:97-99 | filtering a permutation of the table selects a permutation of the same rows |
| Reader.NoDupMultiset | actors/PrimaryReader.py:113 | a sequence has no repeats exactly when no element occurs twice |
| Reader.Dedupe | actors/PrimaryReader.py:113 | DISTINCT keeps every value once and adds none |
| Reader.PrimaryReader.constructor | domain/reports/Inventory.py:15 | the session opens on a table whose primary keys are distinct |
| Reader.PrimaryReader.Fetch | actors/PrimaryReader.py:91-104 | a bad filter flag, a bad order, or an ill-formed list fails with that error; otherwise exactly the rows meeting the AND/OR of the clauses, in table order, or sorted by the ordering when one is given |
| Reader.PrimaryReader.FilterByColumn | actors/PrimaryReader.py:91-104 | the fetched records, or their failure, projected onto the target |
| Reader.PrimaryReader.GetDistinctValues | actors/PrimaryReader.py:107-114 | a bad filter flag is a KeyError on that flag; otherwise an ill-formed list fails with its error (ArgumentError for a list, Undefined for an empty group); on success no duplicates, and a value is returned iff it is the projection of some row meeting the combined condition |
| Reader.PrimaryReader.RandomSample | actors/PrimaryReader.py:134-141 | a negative limit fails; otherwise min(size, matches) distinct table rows, each passing every condition; with no conditions, any table rows |
| Reader.PrimaryReader.InsertRow | actors/PrimaryReader.py:117-120 | the table becomes its old rows plus the new record; a repeated primary key fails and changes nothing |
| Reader.PrimaryReader.UpdateRow | actors/PrimaryReader.py:123-131 | zero or several matches fail and change nothing; for one match, a NULL or repeated primary key fails the commit as an IntegrityError and changes nothing; otherwise that row gets the new column value, and every other column and row is unchanged |
| Reader.UpdateKeysIff | actors/PrimaryReader.py:128-130 | the commit is refused exactly when the updated table would have a NULL or repeated primary key |
| Reader.MatchIndices | actors/PrimaryReader.py:127 | the positions of exactly the matching rows, increasing |
| Reader.SampleFacts | actors/PrimaryReader.py:137-140 | the limited shuffled query returns min(size, matches) distinct table rows passing every condition |
| Reader.SampleSize | actors/PrimaryReader.py:137-140 | the sample size is min(size, number of matching rows); with no conditions every row matches |
| Reader.SampleNoDup | actors/PrimaryReader.py:137-140 | the sample has no repeated row |
| Reader.SampleMembers | actors/PrimaryReader.py:137-140 | each sampled row is a table row passing every condition |
| Reader.Pool | actors/PrimaryReader.py:137-140 | the rows that qualify for a sample are exactly the table rows passing every condition (with no conditions, every row) |
| Reader.Sample | actors/PrimaryReader.py:137-140 | `LIMIT n` keeps min(n, qualifying rows) rows, each a shuffled-table row passing every condition |
| Reader.PoolSize | actors/PrimaryReader.py:137-140 | shuffling does not change how many rows qualify |
| Reader.PoolNoDup | actors/PrimaryReader.py:137-140 | qualifying rows are distinct when primary keys are |
| Reader.SelectAll | actors/PrimaryReader.py:139-140 | a filter every row passes keeps the whole table |
| Reader.KeysUniqueNoDup | domain/reports/Inventory.py:15 | a table with distinct primary keys has no repeated row |
| Reader.SelectNoDup | actors/PrimaryReader.py:138 | filtering a table without repeats gives no repeats |
| InventoryReader.NullGuardHolds | actors/DAO/reports/InventoryReader.py:31-33 | `or_(c == False, uniquekey IS NULL)` passes exactly when the unique key is NULL or `c` is FALSE |
| InventoryReader.NotTextHolds | actors/DAO/reports/InventoryReader.py:22-23 | a negated text test passes exactly when the column is not NULL and the test fails |
| InventoryReader.KFileConditionsMeaning | actors/DAO/reports/InventoryReader.py:26-35 | a record passes the 510(k) list iff its folder starts "K", its object ends ".pdf", it is downloaded and validated, its key (when present) is no supplement or amendment and its sub-type no correspondence, and it has a download date |
| InventoryReader.PDocConditionsMeaning | actors/DAO/reports/InventoryReader.py:18-25 | a record passes the PMA list iff its folder has "P" and six digits, its object id has "pdf"/"doc" after some character, it is validated, key and sub-type are present without "RESPONSE", and it has a download date |
| InventoryReader.NonKFileConditionsMeaning | actors/DAO/reports/InventoryReader.py:36-41 | a record passes the non-510(k) list iff its folder does not start "K", its object ends ".pdf", and it is downloaded and validated |
| InventoryReader.KFileAndNonKFileDisjoint | actors/DAO/reports/InventoryReader.py:27-37 | no record passes both the 510(k) and the non-510(k) lists |
| InventoryReader.KnownTagHasFolder | actors/DAO/reports/InventoryReader.py:19-27 | a record passing the K or P list has a folder id |
| InventoryReader.Chars | actors/DAO/reports/InventoryReader.py:100-106 | the resolved tag string, assessed again, is the list of its one-character strings |
| InventoryReader.AsElement | actors/DAO/reports/InventoryReader.py:155-158 | the doctype value used as one condition is a clause exactly for a single tag's AND group, and a list otherwise |
| InventoryReader.Unpack | actors/DAO/reports/InventoryReader.py:156 | spreading with `*`: a raw list gives its conditions, several statements give one element each, a single AND group is left to the library |
| InventoryReader.UnpackRaw | actors/DAO/reports/InventoryReader.py:101-107 | spreading one tag's raw list gives back exactly those conditions |
| InventoryReader.PlainIds | actors/DAO/reports/InventoryReader.py:154 | the ids without "/"; empty exactly when every id has one |
| InventoryReader.SupplementIds | actors/DAO/reports/InventoryReader.py:161 | the ids with "/"; empty exactly when no id has one |
| InventoryReader.IndexOf | actors/DAO/reports/InventoryReader.py:61 | the first position of the separator |
| InventoryReader.SplitOnce | actors/DAO/reports/InventoryReader.py:61 | `split("/", 1)`: no "/" leaves the id whole; otherwise a head without "/" and a tail that rejoin to the id |
| InventoryReader.FormatSupplementIds | actors/DAO/reports/InventoryReader.py:60-62 | one pair per id, same order, each splitting its id at the first "/" and rejoining to it |
| InventoryReader.IdentifySubmissionTypes | actors/DAO/reports/InventoryReader.py:64-67 | fails iff some id is empty; otherwise the distinct first characters of the ids |
| InventoryReader.FolderIsHolds | actors/DAO/reports/InventoryReader.py:154 | `folder_id == id` selects exactly the rows in that folder |
| InventoryReader.FolderIdClause | actors/DAO/reports/InventoryReader.py:154 | empty `or_()` iff there are no plain ids; otherwise it selects the rows in one of the plain ids' folders |
| InventoryReader.FolderDisjunction | actors/DAO/reports/InventoryReader.py:154 | the OR of folder tests holds iff the row's folder is one of the ids |
| InventoryReader.SupplementCond | actors/DAO/reports/InventoryReader.py:165 | `and_(folder_id == head, uniquekey == "/" + tail)` holds iff the row has that folder and that unique key |
| InventoryReader.SupplementClauses | actors/DAO/reports/InventoryReader.py:163-165 | one clause per supplement id; some holds iff the row has that id's folder and "/"+suffix as its unique key |
| InventoryReader.SupplementDisjunction | actors/DAO/reports/InventoryReader.py:161-165 | the OR of the formatted supplement conditions matches exactly the named supplement rows |
| InventoryReader.PdfOnly | actors/DAO/reports/InventoryReader.py:185 | keeps exactly the rows whose object id ends ".pdf" |
| InventoryReader.SecondColumn | actors/DAO/reports/InventoryReader.py:117 | `record[1]` of every row, in order |
| InventoryReader.ProjectMembers | actors/PrimaryReader.py:75-78 | the projected rows are exactly the projections of the records |
| InventoryReader.FolderColumnMembers | actors/DAO/reports/InventoryReader.py:99-117 | the second column of the (creation date, folder id) rows is exactly the records' folder ids |
| InventoryReader.EntityRows | actors/PrimaryReader.py:75-76 | a whole-record query returns each selected record as a whole row |
| InventoryReader.DateRangeMeaning | actors/DAO/reports/InventoryReader.py:127-130 | the two date conditions pass iff `r_creation_date` is present and within the inclusive range |
| InventoryReader.Strings | actors/DAO/reports/InventoryReader.py:132-133 | the folder ids as strings, the same set |
| InventoryReader.ObjectIdClause | actors/DAO/reports/InventoryReader.py:146 | empty `or_()` iff there are no ids; otherwise it selects exactly the rows whose object id is listed |
| InventoryReader.InvInventoryReader.constructor | actors/DAO/reports/InventoryReader.py:16-43 | the supported tags are K and P, and the three lists are exactly the source's, over the given executor |
| InventoryReader.InvInventoryReader.DoctypeAssessment | actors/DAO/reports/InventoryReader.py:45-52 | `["all"]` gives flag 1 with K and P; another one-element list gives flag 0 with its tag; any other length is returned unchanged with flag 1 |
| InventoryReader.InvInventoryReader.CondlistSwitch | actors/DAO/reports/InventoryReader.py:54-59 | K and P give copies of their stored lists (never the non-510(k) list); any other tag is a lookup error |
| InventoryReader.InvInventoryReader.DoctypeStatement | actors/DAO/reports/InventoryReader.py:70-75 | unknown tag fails; without AND, base conditions then additional ones, in order; with AND, one group true iff every base and additional condition is |
| InventoryReader.InvInventoryReader.GenerateDoctypeAndStatement | actors/DAO/reports/InventoryReader.py:70-75 | the method builds the statement specified by `DoctypeStatement`, extending a copy |
| InventoryReader.InvInventoryReader.StatementsFor | actors/DAO/reports/InventoryReader.py:86-95 | succeeds iff every tag is known; then one statement per tag, in tag order, each with the same additional conditions; else the first unknown tag's error |
| InventoryReader.InvInventoryReader.StatementsForPrefixErr | actors/DAO/reports/InventoryReader.py:88-94 | once a prefix of the tags fails, the whole loop fails with that error |
| InventoryReader.InvInventoryReader.CondlistByDoctype | actors/DAO/reports/InventoryReader.py:77-95 | succeeds iff every resolved tag is known; flag 0 gives the single tag's doctype statement, flag 1 the list of per-tag statements; with the AND flag every statement is an AND group |
| InventoryReader.InvInventoryReader.GetCondlistByDoctype | actors/DAO/reports/InventoryReader.py:77-95 | the appending loop returns what `CondlistByDoctype` specifies, failing at the first unknown tag |
| InventoryReader.InvInventoryReader.AndStatements | actors/DAO/reports/InventoryReader.py:86-95 | the loop that appends one doctype statement per tag yields exactly the `StatementsFor` list, or the first unknown tag's error |
| InventoryReader.InvInventoryReader.GroupsMeaning | actors/DAO/reports/InventoryReader.py:86-95 | the per-tag AND groups: some holds iff the record passes some known tag's list and all additional conditions |
| InventoryReader.InvInventoryReader.FolderIdsConditionSingle | actors/DAO/reports/InventoryReader.py:100-107 | for one tag: a one-letter tag builds the predicate iff it is K or P, else a KeyError on it; a longer tag is an ArgumentError when all its letters are known, else the KeyError of its first unknown letter; an empty tag is Undefined |
| InventoryReader.InvInventoryReader.FolderIdsConditionSeveral | actors/DAO/reports/InventoryReader.py:108-114 | for several tags: the predicate is built iff there is a tag and every tag is known; otherwise the first unknown tag's error |
| InventoryReader.InvInventoryReader.FolderIdsConditionMeaning | actors/DAO/reports/InventoryReader.py:97-114 | `get_folder_ids`' predicate, when built, holds iff the record is a usable document of a requested type and meets the caller's conditions |
| InventoryReader.InvInventoryReader.AllDoctypesFolderIds | actors/DAO/reports/InventoryReader.py:108-114 | with `["all"]` the predicate is always built and holds iff the record passes the K group or the P group, and the caller's conditions |
| InventoryReader.InvInventoryReader.GetFolderIds | actors/DAO/reports/InventoryReader.py:97-121 | no value iff no row matches; otherwise the duplicate-free folder ids of exactly the matching rows, plus those rows' (date, folder) tuples when asked |
| InventoryReader.DoctypeClause | actors/DAO/reports/InventoryReader.py:155-158 | one id letter: the doctype value as it stands; several: `or_(*statement)` is Undefined for a single AND group, an ArgumentError when a statement is a raw list, an empty group for no statements, and otherwise a clause that holds iff some statement's group does |
| InventoryReader.ElementAndFolder | actors/DAO/reports/InventoryReader.py:156-158 | the doctype element and the folder clause combine iff both are clauses; a list element is an ArgumentError, an empty group Undefined |
| InventoryReader.InvInventoryReader.DoctypeClauseMeaning | actors/DAO/reports/InventoryReader.py:152-158 | the doctype element of the submission query, when a clause, holds iff the record is a usable document of a requested type |
| InventoryReader.InvInventoryReader.SingleClauseMeaning | actors/DAO/reports/InventoryReader.py:152-158 | the same for a single known tag |
| InventoryReader.InvInventoryReader.PlainConditionCases | actors/DAO/reports/InventoryReader.py:152-158 | when the plain-id condition is built: doctype and empty-id errors propagate; a single tag with several id letters is Undefined; a single tag otherwise, or several tags with several id letters, builds it iff there are plain ids (and, for several tags, a tag); several tags with one id letter is an ArgumentError |
| InventoryReader.InvInventoryReader.AllDoctypesOneLetter | actors/DAO/reports/InventoryReader.py:151-158 | with `["all"]`, ids that all start with one letter make the condition an ArgumentError |
| InventoryReader.InvInventoryReader.KFolderQueryBuilt | actors/DAO/reports/InventoryReader.py:151-158 | with `["K"]` and one folder id, the condition is always built |
| InventoryReader.InvInventoryReader.PlainConditionMeaning | actors/DAO/reports/InventoryReader.py:151-158 | the plain-id predicate holds iff the record is a usable document of a requested type in one of the plain ids' folders |
| InventoryReader.InvInventoryReader.PlainQueryFacts | actors/DAO/reports/InventoryReader.py:189-195 | an "and" query on whole records returns exactly the rows meeting the combined condition |
| InventoryReader.InvInventoryReader.DoctypeAndQuery | actors/DAO/reports/InventoryReader.py:136-149 | doctype element "and" one clause: several tags are an ArgumentError, an empty group fails, otherwise exactly the usable documents of the type meeting the clause |
| InventoryReader.InvInventoryReader.SupplementQueryFacts | actors/DAO/reports/InventoryReader.py:178-185 | the "or" supplement query after the ".pdf" filter returns exactly the named ".pdf" supplement rows |
| InventoryReader.InvInventoryReader.QuerySubmissionId | actors/DAO/reports/InventoryReader.py:151-196 | doctype, empty-id and order errors propagate; otherwise a result iff there are ids and, when some are plain, the plain-id condition is built, else that condition's error; plain-id rows (exactly the usable documents of the type in those folders) come first, then exactly the named ".pdf" supplement rows; either part is empty when it has no ids |
| InventoryReader.InvInventoryReader.RunSubmissionQueries | actors/DAO/reports/InventoryReader.py:160-196 | the branch on "/" ids: an order error propagates; otherwise a result iff there are ids and, when some are plain, the condition list combines, else its error; the same plain-then-supplement result |
| InventoryReader.InvInventoryReader.QueryWithSupplements | actors/DAO/reports/InventoryReader.py:160-187 | the supplement branch: an order error propagates; otherwise a result iff there are no plain ids or the condition list combines, else its error; plain rows only when there are plain ids, then the ".pdf" supplement rows |
| InventoryReader.InvInventoryReader.MatchesDoctypeHasFolder | actors/DAO/reports/InventoryReader.py:117 | a usable document of a requested type has a folder id |
| InventoryReader.InvInventoryReader.QueryCreationdateRange | actors/DAO/reports/InventoryReader.py:123-134 | not two dates is an unpacking error; a folder-query error propagates; no usable document of the type in range is a TypeError; otherwise the folder ids are exactly those of the usable documents of the type created in range, the submission query's errors propagate, and on success every usable document of the type in those folders is returned, and nothing outside them or their named supplements |
| InventoryReader.InvInventoryReader.QueryFolderIds | actors/DAO/reports/InventoryReader.py:133 | `query_submission_id(folder_ids, docType)`: the doctype error propagates; otherwise a result iff there are ids and the plain-id condition is built when needed; then every usable document of the type in the plain folders, and only those or named supplement rows |
| InventoryReader.InvInventoryReader.RangeCondition | actors/DAO/reports/InventoryReader.py:127-132 | the range predicate, when built, holds iff the record is a usable document of the type created within the range |
| InventoryReader.InvInventoryReader.RangeFolderIds | actors/DAO/reports/InventoryReader.py:127-132 | the folder ids found for the range are strings, one per folder holding a usable document created in range |
| InventoryReader.InvInventoryReader.SubmissionResult | actors/DAO/reports/InventoryReader.py:133 | the submission query's two parts together: every usable document of the type in the plain folders is returned, and only those or named supplement rows |
| InventoryReader.InvInventoryReader.QueryCreationdateExact | actors/DAO/reports/InventoryReader.py:136-141 | as written: any doctype that resolves leads to ArgumentError, because the date test is passed as a list |
| InventoryReader.InvInventoryReader.QueryCreationdateExactCorrected | actors/DAO/reports/InventoryReader.py:136-141 | with the date test as a clause: exactly the usable documents of the type whose creation date is the one asked; always a result for a single known tag |
| InventoryReader.InvInventoryReader.QueryRObjectId | actors/DAO/reports/InventoryReader.py:143-149 | several tags are an ArgumentError; for one tag a result iff some id is given, holding exactly the usable documents of that type with a listed object id |
| InventoryReader.InvInventoryReader.RandomKdocSample | actors/DAO/reports/InventoryReader.py:205-207 | up to the size, distinct table rows, each a usable 510(k) document |
| InventoryReader.InvInventoryReader.RandomPmaSample | actors/DAO/reports/InventoryReader.py:209-211 | up to the size, distinct table rows, each a usable PMA document |
| InventoryReader.InvInventoryReader.RandomNonkdocSample | actors/DAO/reports/InventoryReader.py:213-215 | up to the size, distinct table rows, each a usable non-510(k) document |

## Left out

- Configuration, engines, sessions, `connect`, `disconnect` and `commit_session` (actors/PrimaryReader.py:13-68, 144-146): these are I/O and driver plumbing. The executor is an in-memory table, and each call commits at once.
- Inheritance: `InvInventoryReader` extends `PrimaryReader` in the source. In the model it holds the executor as its `db` field.
- `query_unique_column_values` (actors/DAO/reports/InventoryReader.py:198-203): it calls `_get_condlist_by_doctype` without a required argument, so it fails before querying. No result is modelled.
- `get_max_r_creation_date_by_subid` and `get_change_sups` (actors/DAO/reports/InventoryReader.py:217-238): they bypass the executor with raw SQL (GROUP BY, max, string concatenation).
- Regular expressions are implemented only for the two patterns used, unanchored:
  - `P[0-9]{6,9}` is some "P" followed by six digits;
  - `.*?(.pdf|.doc)` is "pdf" or "doc" after at least one character.
- Case folding is ASCII-only. Text ordering is by code point rather than by a database collation.
- Timestamps are integers. The Float column `full_content_size` and `__repr__` are dropped.
- The record has two extra columns, `validation_status` and `r_creation_date`. The composer uses them, but the table class (domain/reports/Inventory.py) does not declare them. As written, `Inv.validation_status` raises `AttributeError` when the lists are built (actors/DAO/reports/InventoryReader.py:21), and `Inv.r_creation_date` would fail the same way at actors/DAO/reports/InventoryReader.py:129. The model assumes a schema that declares both columns.
- Cases the query library leaves open are reported as `Undefined` rather than given a result:
  - an empty `and_()`/`or_()`;
  - spreading a single AND group with `*` (the `len(submission_types) > 1` branch for a single tag).
- Reader.PrimaryReader.RandomSample: `ORDER BY random()` is a permutation parameter `shuffle` of the table rows, so which rows are drawn is not modelled.
- Reader.PrimaryReader.GetDistinctValues: the source returns the `.distinct()` query object without running it. The model returns the rows that query would produce, and says nothing about their order.
- Reader.PrimaryReader.Fetch: with an ordering, the order among rows with equal keys is not stated. The contract gives only "sorted, and the same rows".
- InventoryReader.InvInventoryReader.GetFolderIds: `list(set(...))` has no defined order. The contract states the set of ids and that it has no repeats, not their order.
- InventoryReader.InvInventoryReader.QueryCreationdateRange: when no row is in range, `get_folder_ids` returns nothing and iterating it fails. This is modelled as `TypeError`. The contract also states which rows are returned, not their order or multiplicity. The folder ids are a ghost out-parameter.
- InventoryReader.InvInventoryReader.QuerySubmissionId: the point where the plain rows end and the supplement rows begin is a ghost out-parameter. The contract states which rows each part holds, not their order within the part nor how many times each appears.
- Reader.PrimaryReader.InsertRow: a record's `object_id` is always a string, so an insert whose primary key is None, which the database refuses at commit, cannot be expressed. The model does not state that failure.
- Reader.PrimaryReader.UpdateRow: the update is checked against the primary key, and a NULL or repeated `object_id` fails as `IntegrityError`. The source leaves that to the database at commit. A value of the wrong kind for its column (text into a numeric column or the reverse) is excluded by precondition: the model does not say what the database does with it. The column is one of the mapped columns and the update is a (column, value) pair. The model therefore does not cover two source cases. An `update_tuple` that names no mapped column makes `setattr` set a plain attribute, so the commit succeeds and the table is unchanged. An `update_tuple` that is not a pair raises `ValueError` after `.one()`.

## Findings

| source | as written | input that shows it | evidently intended | confidence | as-written member | corrected member |
|---|---|---|---|---|---|---|
| actors/DAO/reports/InventoryReader.py:136-141 | `date_statement` is a one-element Python list, placed as an element of the list spread into `and_`, which rejects a list | `query_creationdate_exact(d, ["K"])` for any date `d` | the usable documents of the requested type whose `creation_date` equals the date | not executed | InventoryReader.InvInventoryReader.QueryCreationdateExact | InventoryReader.InvInventoryReader.QueryCreationdateExactCorrected |
