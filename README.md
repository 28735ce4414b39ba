# irida-sistr-results, modelled in Dafny

irida-sistr-results collects the SISTR (Salmonella In Silico Typing Resource)
predictions that an IRIDA server holds for the samples of a user's projects.
It writes them out as a table: an Excel workbook, a tab-separated file, or a
shorter tab-separated file.

This project models the decision logic of that tool and proves what it
promises:

- **`Connector`**: how the IRIDA base URL is normalised and how a request
  path is joined onto the base path.
- **`IridaApi`**: how a relation is looked up in a HAL `links` list, and how
  an analysis submission becomes a per-sample record. Submissions with
  unpaired input are refused. It also covers how the records of a project,
  of all projects and of the user's completed submissions are collected.
  The REST connector is replaced by `Lims`, a snapshot of what each request
  would answer.
- **`Gathering`**: the list-building loop shape those walks share, where the
  first exception stops the walk.
- **`SistrInfo`**: the per-sample record (`SampleSistrInfo`) and its
  accessors. This includes the analysis URL joined with a single `/`, the
  `"<n>/330"` allele text and the `"None"` cgMLST serovar.
- **`Workflow`**: the two constant tables between SISTR workflow versions and
  IRIDA workflow ids, their lookups and their round trips.
- **`SistrResults`**: `get_sistr_results`, which indexes a project's records
  by sample id and then folds in the user's own records. A user record with
  results never displaces a record already kept.
- **`SistrWriter`**: the writers' headers and rows for the three layouts, the
  spreadsheet column-letter and range helpers, and `write`.
  - `write` is modelled as a class whose fields are the row counter and the
    end-of-project flag, plus the list of header and rows handed to the back
    end.
  - Projects are written in ascending order. Records within a project are
    ordered by QC rank (highest first), with ties broken by sample name.
- **`Sorting`**: Python's stable `sorted` and its string comparison.
- **`Text`**: Python's `str` of an integer, with a parser proving that the
  text determines the number.
- **`Lists`**: `list.index` and `list.remove`.
- **`Outcome`**: `Result` and `Option`. Every exception the source raises
  becomes an `Err` whose tag names the cause.

Source paths below are relative to the repository root.

## Model

| member | source | states |
|---|---|---|
| Connector.RStripSlash | irida_sistr_results/irida_connector.py:24 | `rstrip('/')`: the result is a prefix of the URL that does not end in `/`, and only `/` characters were removed |
| Connector.RStripSlashIgnoresTrailing | irida_sistr_results/irida_connector.py:24-25 | a base URL given with any number of trailing slashes normalises to the same URL, so it yields the same base path |
| Connector.JoinPath | irida_sistr_results/irida_connector.py:69-79 | an absent or empty base path, or a path with a scheme, leaves the path unchanged. Otherwise a path starting with `/` is appended to the base path as it is, and any other path gets a `/` put before it: the result is the base path, a `/`, then the path with one leading `/` removed. The result always ends with the path. An empty path under a base path fails, as `path[0]` raises |
| Gathering.One | irida_sistr_results/irida_api.py:86 | appending one record, or raising: a one-element list exactly when the record exists, with the same error otherwise |
| Gathering.GatherOk | irida_sistr_results/irida_api.py:58-59 | a list-building walk succeeds exactly when every element's step succeeds |
| Gathering.GatherValue | irida_sistr_results/irida_api.py:58-59 | a walk that succeeds yields every element's records, concatenated in list order |
| Gathering.GatherFirstError | irida_sistr_results/irida_api.py:58-59 | a walk that fails reports the error of the first element that fails, and every element before it succeeded |
| Gathering.GatherErrSticky | irida_sistr_results/irida_api.py:58-59 | once a prefix has failed, the whole walk fails with that error |
| Gathering.GatherOnePerElement | irida_sistr_results/irida_api.py:71-86 | when each element yields one record, the walk yields exactly one record per element, in order |
| IridaApi.HasRel | irida_sistr_results/irida_api.py:20-24 | `_has_rel_in_links` is true exactly when some link carries the relation |
| IridaApi.LastHref | irida_sistr_results/irida_api.py:9-14 | after the loop, `href` is the href of the last link with the relation, and null when no link has it |
| IridaApi.RelFromLinks | irida_sistr_results/irida_api.py:15-18 | the lookup fails only with "could not get rel" for that relation |
| IridaApi.RelFromLinksLastMatch | irida_sistr_results/irida_api.py:8-18 | the lookup succeeds exactly when the last link carrying the relation has an href, and then answers that href: the last match wins |
| IridaApi.GetRelFromLinks | irida_sistr_results/irida_api.py:8-18 | the loop that keeps overwriting `href` computes exactly that lookup |
| IridaApi.SistrPredictions | irida_sistr_results/irida_api.py:26-38 | the call succeeds exactly when the analysis links a prediction file and that file's JSON is not null, and then answers that JSON. A missing link fails with the lookup's error; a null JSON fails with "could not get SISTR predictions" |
| IridaApi.SampleFromPaired | irida_sistr_results/irida_api.py:40-50 | an empty paired list raises IndexError. Otherwise the `sample` link of the first file is followed: a missing link fails with the lookup's error, an unknown href with NotFound, a null sample with "could not get sample", and any other answer is the sample |
| IridaApi.InfoFromSubmission | irida_sistr_results/irida_api.py:90-112 | the record builds exactly when the submission links its analysis, has no unpaired input files, its paired files can be fetched, its predictions can be read and its first paired file leads to a sample. A record built from a submission has results, keeps the submission and its paired files, and holds the predictions of its analysis and the sample of its first paired file |
| IridaApi.PairInfo | irida_sistr_results/irida_api.py:72-84 | a pair without an `analysis/sistr` link gives a record without results that carries the sample and the pair. A pair with one follows that link: a failing lookup or an unknown href fails, and otherwise the record is the one built from the linked submission, which has results and keeps the submission |
| IridaApi.GetPairInfo | irida_sistr_results/irida_api.py:72-86 | the body of the inner loop computes that record |
| IridaApi.OnePerPair | irida_sistr_results/irida_api.py:68-86 | a sample contributes exactly one record per sequencing pair, in pair order. A sample without pairs contributes none |
| IridaApi.GetSampleInfos | irida_sistr_results/irida_api.py:69-86 | the inner loop yields the records of one sample's pairs, stopping at the first failure |
| IridaApi.ProjectInSampleOrder | irida_sistr_results/irida_api.py:63-88 | a project's records are its samples' records concatenated in sample order |
| IridaApi.GetSistrResultsForProject | irida_sistr_results/irida_api.py:63-88 | the nested loops compute exactly the project's records, or the first failure |
| IridaApi.Answer | irida_sistr_results/irida_api.py:56 | a listing request answers its list exactly when the server has one, and otherwise fails with NotFound naming the request path |
| IridaApi.AllProjectsInOrder | irida_sistr_results/irida_api.py:53-61 | when the records of all projects are collected, the project list was answered, every project's records were collected, and the result is the per-project lists concatenated in project order |
| IridaApi.GetSistrResultsFromProjects | irida_sistr_results/irida_api.py:53-61 | the loop over projects computes exactly that concatenation |
| IridaApi.Completed | irida_sistr_results/irida_api.py:118-122 | the kept submissions are exactly those whose analysis state is `COMPLETED` |
| IridaApi.CompletedAppend | irida_sistr_results/irida_api.py:118-122 | keeping the completed submissions preserves input order: filtering a concatenation concatenates the filtered lists |
| IridaApi.UserResultsFromCompleted | irida_sistr_results/irida_api.py:114-124 | the user's records are exactly the records of the completed submissions, in input order. Any other submission is skipped |
| IridaApi.GetSistrSubmissionsForUser | irida_sistr_results/irida_api.py:114-124 | the loop computes exactly those records, or the first failure |
| SistrInfo.Sistr | irida_sistr_results/sistr_info.py:13-14 | `_get_sistr` succeeds exactly when the record has a non-empty prediction list, and then returns its element 0 |
| SistrInfo.Field | irida_sistr_results/sistr_info.py:16-75 | every prediction accessor reads its field from the first prediction, and fails exactly when that prediction is missing |
| SistrInfo.SerovarCgmlst | irida_sistr_results/sistr_info.py:22-27 | a null cgMLST serovar reads as the text `"None"`; any other value is returned as stored |
| SistrInfo.CgmlstMatchingTotalAlleles | irida_sistr_results/sistr_info.py:56-57 | the text ends in `/330`, and what precedes it parses back to the matching-allele count |
| SistrInfo.SubmissionIdentifier | irida_sistr_results/sistr_info.py:87-88 | the submission's identifier; a record without a submission fails |
| SistrInfo.SubmissionCreatedMillis | irida_sistr_results/sistr_info.py:90-91 | the submission's creation time; a record without a submission fails |
| SistrInfo.SubmissionUrl | irida_sistr_results/sistr_info.py:77-85 | the URL is the base URL without one trailing `/`, then `/analysis/`, then the submission id. It starts with the base URL and ends with the id |
| SistrInfo.PairedId | irida_sistr_results/sistr_info.py:99-100 | the identifier of the first paired-input file. A record holding a pair object, or an empty list, fails |
| Lists.IndexOf | irida_sistr_results/sistr_writer.py:111 | `list.index`: the position of the first occurrence |
| Lists.RemoveFirst | irida_sistr_results/irida_sistr_workflow.py:48 | `list.remove`: the list without its first occurrence of the value, one element shorter |
| Workflow.Lookup | irida_sistr_results/irida_sistr_workflow.py:23-39 | a table lookup succeeds exactly for the table's keys, and otherwise fails with a KeyError naming the key |
| Workflow.VersionsToIds | irida_sistr_results/irida_sistr_workflow.py:7-15 | `"0.1"` and `"0.1.0"`, `"0.2"` and `"0.2.0"`, `"0.3"` and `"0.3.0"` each map to their workflow id, and `None` maps to `None` |
| Workflow.IdsToVersions | irida_sistr_results/irida_sistr_workflow.py:16-21 | each of the three ids maps to its two-part version, and `None` maps to `None` |
| Workflow.VersionLookup | irida_sistr_results/irida_sistr_workflow.py:32-39 | exactly the six known versions and `None` resolve; any other version is a KeyError |
| Workflow.IdLookup | irida_sistr_results/irida_sistr_workflow.py:23-30 | exactly the three known ids and `None` resolve; any other id is a KeyError |
| Workflow.ShortForms | irida_sistr_results/irida_sistr_workflow.py:8-13 | the two-part short form of each known version |
| Workflow.IdRoundTrip | irida_sistr_results/irida_sistr_workflow.py:16-39 | version to id, applied to the version of a known id, gives that id back |
| Workflow.VersionRoundTrip | irida_sistr_results/irida_sistr_workflow.py:7-21 | id to version, applied to the id of a known version, gives that version's two-part short form |
| Workflow.SameIdIffSameShortForm | irida_sistr_results/irida_sistr_workflow.py:7-15 | two known versions share an id exactly when they share their short form: aliases agree, and distinct short versions get distinct ids |
| Workflow.AllWorkflowVersions | irida_sistr_results/irida_sistr_workflow.py:41-49 | the three versions in table order, without `None` |
| Text.IntToString | irida_sistr_results/sistr_info.py:57 | `str` of an integer is non-empty, starts with `-` exactly when the number is negative, and is digits otherwise |
| Text.IntToStringRoundTrip | irida_sistr_results/sistr_info.py:57 | the decimal text parses back to the number |
| Text.IntToStringInjective | irida_sistr_results/sistr_writer.py:378-379 | different row numbers never print the same |
| Sorting.Insert | irida_sistr_results/sistr_writer.py:201 | one insertion step of the stable sort adds one element |
| Sorting.SortBy | irida_sistr_results/sistr_writer.py:201 | the sort keeps the list's length |
| Sorting.SortByPermutes | irida_sistr_results/sistr_writer.py:206-207 | `sorted` returns a permutation of its input |
| Sorting.SortBySorted | irida_sistr_results/sistr_writer.py:201 | the result of `sorted` has no element after one it is strictly smaller than |
| Sorting.SortByStable | irida_sistr_results/sistr_writer.py:206-207 | `sorted` is stable: sorting a list already ordered by one key, by a second key, leaves ties in the first order |
| Sorting.StrKeyOrder | irida_sistr_results/sistr_writer.py:206 | comparing records by Python string `<` on a key is a strict weak order |
| SistrResults.IndexBySampleKeys | irida_sistr_results/irida_sistr_results.py:12-14 | after the first loop the keys are exactly the project records' sample ids, each record stored under its own id |
| SistrResults.LaterProjectRecordWins | irida_sistr_results/irida_sistr_results.py:12-14 | of two project records for one sample, the later one is stored |
| SistrResults.Admit | irida_sistr_results/irida_sistr_results.py:19-24 | one step of the second loop adds the record's sample id as a key and touches no other entry. When the sample is already kept and the record has results, the map is unchanged; otherwise the record is stored under its sample id |
| SistrResults.AdmitCases | irida_sistr_results/irida_sistr_results.py:21-24 | a record with results for a kept sample changes nothing; a record for a new sample is inserted; a record without results replaces the entry |
| SistrResults.FoldUserKeys | irida_sistr_results/irida_sistr_results.py:18-24 | the second loop adds exactly the user records' sample ids as keys, and keeps each record under its own id |
| SistrResults.KeysKept | irida_sistr_results/irida_sistr_results.py:18-24 | the user records never remove a key |
| SistrResults.OtherSamplesUntouched | irida_sistr_results/irida_sistr_results.py:18-24 | an entry for a sample no user record names stays as it is |
| SistrResults.KeptEntryPersists | irida_sistr_results/irida_sistr_results.py:18-24 | once a sample is kept, later user records with results for it change nothing |
| SistrResults.FirstUserRecordWins | irida_sistr_results/irida_sistr_results.py:18-24 | among user records with results for a sample the project lacks, the first one is stored and the later ones are refused |
| SistrResults.NoResultsRecordStored | irida_sistr_results/irida_sistr_results.py:21-24 | a user record without results is stored, whatever was there, unless a later one without results for the same sample follows |
| SistrResults.ReconciledKeys | irida_sistr_results/irida_sistr_results.py:12-24 | the keys of the result are exactly the sample ids of the project's and the user's records, each record under its own id |
| SistrResults.GetSistrResults | irida_sistr_results/irida_sistr_results.py:8-26 | the two in-place loops build exactly the reconciled map. A failing request fails the call, the project's first |
| SistrWriter.TitlesDistinct | irida_sistr_results/sistr_writer.py:66-98 | no two columns share a title, so a title names one column |
| SistrWriter.HeaderList | irida_sistr_results/sistr_writer.py:66-98 | the base header has 26 columns; the short header, 10 |
| SistrWriter.PositionOfColumnAt | irida_sistr_results/sistr_writer.py:275-287 | no column stands twice in a header: the position of the column at place `k` is `k` |
| SistrWriter.ColumnAtPosition | irida_sistr_results/sistr_writer.py:66-98 | a column with a position stands at that place of the header |
| SistrWriter.HeaderIndex | irida_sistr_results/sistr_writer.py:103-111 | `_get_header_index` succeeds exactly for a column of the header, which stands at the index found. Otherwise it raises ValueError |
| SistrWriter.HeaderIndexIsPosition | irida_sistr_results/sistr_writer.py:103-111 | the index found is the column's position in that header |
| SistrWriter.HeaderIndexOfColumn | irida_sistr_results/sistr_writer.py:103-111 | each column of the header is found at its own place |
| SistrWriter.FullCells | irida_sistr_results/sistr_writer.py:113-149 | the full row has 26 cells, and each of them is named: the project, the sample name, each prediction field, the allele count, the submission URL, the sample's time, the sample and paired-file ids, the submission's identifier and time. The proportion is the float in the spreadsheet and the percentage text in the tab-separated layout |
| SistrWriter.RowList | irida_sistr_results/sistr_writer.py:113-149 | a row with results builds exactly when the record has predictions and a submission, plus a paired-file id outside the short layout. A missing prediction raises its own error. The row is as long as the header |
| SistrWriter.ShortCells | irida_sistr_results/sistr_writer.py:289-301 | the short row has 10 cells, and each of them is named: the project, the sample name, the QC status, the sample's time, the serovar, the antigen formula, the cgMLST serovar, the allele count, its percentage and the submission URL |
| SistrWriter.ShortRowCells | irida_sistr_results/sistr_writer.py:289-301 | each of the 10 cells of a short row is the value the record's own accessor returns |
| SistrWriter.ShortRowColumns | irida_sistr_results/sistr_writer.py:275-301 | short header and short row agree on the project, sample name, date and analysis URL columns: each value sits in the column that names it |
| SistrWriter.ShortRowPredictionColumns | irida_sistr_results/sistr_writer.py:275-301 | short header and short row agree on the six prediction columns: QC status, serovar, antigen formula, cgMLST serovar, allele count and percentage |
| SistrWriter.FullRowCells | irida_sistr_results/sistr_writer.py:113-149 | each of the 26 cells of a full row is the value the record's own accessor returns |
| SistrWriter.FullRowColumns | irida_sistr_results/sistr_writer.py:113-149 | base header and full row agree on the eight columns read from the sample, the submission and the paired files |
| SistrWriter.FullRowPredictionColumns | irida_sistr_results/sistr_writer.py:113-149 | base header and full row agree on the eighteen columns read from the first prediction |
| SistrWriter.NoResultsCells | irida_sistr_results/sistr_writer.py:151-188 | a no-results row is as long as the header. It holds project, name, QC status and, in the full layouts, the sample's date and id; every other cell is `None` |
| SistrWriter.NoResultsRowList | irida_sistr_results/sistr_writer.py:151-188 | a no-results row builds exactly when the record has predictions: the QC status is read from them |
| SistrWriter.NoResultsColumns | irida_sistr_results/sistr_writer.py:151-188 | header and no-results row agree on the filled columns |
| SistrWriter.NoResultsEmpty | irida_sistr_results/sistr_writer.py:303-315 | every column other than the filled ones is empty |
| SistrWriter.RowCells | irida_sistr_results/sistr_writer.py:213-216 | the row `write` builds for a record, with or without results, is as long as the header |
| SistrWriter.SerovarShown | irida_sistr_results/sistr_writer.py:113-149 | a row with results fills the serovar column, which a no-results row leaves empty |
| SistrWriter.RowChoice | irida_sistr_results/sistr_writer.py:213-216 | a record with results is written with the full row, any other with the no-results row. A built row is empty outside the filled columns exactly when its record has no results |
| SistrWriter.ToLetter | irida_sistr_results/sistr_writer.py:365-366 | `chr(ord('A') + col)` is a letter A to Z exactly for the header's 26 columns |
| SistrWriter.ToRangeCol | irida_sistr_results/sistr_writer.py:368-369 | three characters with `:` in the middle, whose letters name the two columns |
| SistrWriter.RangeCol1IsRange | irida_sistr_results/sistr_writer.py:371-372 | `_to_range_col_1` is `_to_range` over row 1 alone |
| SistrWriter.RangeRoundTrip | irida_sistr_results/sistr_writer.py:378-379 | a range string determines the rows and columns it was built from |
| SistrWriter.HeaderColumnNumber | irida_sistr_results/sistr_writer.py:330-338 | a header column's number counts from 1 and names that column; a column the header lacks raises ValueError |
| SistrWriter.HeaderColumnLetter | irida_sistr_results/sistr_writer.py:340-348 | a header column's letter is A to Z and names that column; a column the header lacks raises ValueError |
| SistrWriter.RangeTitle | irida_sistr_results/sistr_writer.py:360-363 | the row-1 range over two header columns; it raises unless both are in the header |
| SistrWriter.RangeSingleTitle | irida_sistr_results/sistr_writer.py:350-358 | the row-1 range over one header column |
| SistrWriter.ToRangeRow | irida_sistr_results/sistr_writer.py:374-376 | one column's range between two rows; it raises unless the column is in the header |
| SistrWriter.FullHeaderIndex | irida_sistr_results/sistr_writer.py:66-98 | in the base header a column's index is the number that names it |
| SistrWriter.WidthSpansTile | irida_sistr_results/sistr_writer.py:394-401 | every column width is set on a range the header has. The ranges cover columns A to Z in order, each column once |
| SistrWriter.QcRangeIsQcColumn | irida_sistr_results/sistr_writer.py:441 | the QC colour range is column C, the QC status column, from row 1 to the given row |
| SistrWriter.ExcelFormatColumns | irida_sistr_results/sistr_writer.py:324-327 | the percentage format goes on the column that holds the allele proportion, and the date formats on the two columns that hold the times |
| SistrWriter.ProjectsAscending | irida_sistr_results/sistr_writer.py:201 | projects are written in ascending order of their ids, each once |
| SistrWriter.RecordsOrder | irida_sistr_results/sistr_writer.py:206-207 | a project's records are written by QC rank, highest first, and by sample name among equal ranks. No record is lost or repeated |
| SistrWriter.SortedRecordsLength | irida_sistr_results/sistr_writer.py:206-207 | the two sorts keep the number of records |
| SistrWriter.SortedRecordsMembers | irida_sistr_results/sistr_writer.py:206-207 | the two sorts keep the same records |
| SistrWriter.ProjectLinesOk | irida_sistr_results/sistr_writer.py:208-216 | a project's rows are written exactly when every record's row can be built |
| SistrWriter.ProjectLinesShape | irida_sistr_results/sistr_writer.py:208-217 | record `k` of a project goes on row `start + k`. The end-of-project flag is set exactly on the project's last record (or was already set on arrival), and the row's cells are that record's |
| SistrWriter.ProjectLinesCount | irida_sistr_results/sistr_writer.py:208-217 | one row per record of a project |
| SistrWriter.OrderedRowsBuild | irida_sistr_results/sistr_writer.py:206-216 | whether a project's rows build does not depend on the order of its records |
| SistrWriter.TableLinesCount | irida_sistr_results/sistr_writer.py:201-219 | the table has one row per record when each project's order keeps its records |
| SistrWriter.TableLinesRows | irida_sistr_results/sistr_writer.py:201-219 | the table's rows are numbered consecutively from the first row |
| SistrWriter.TableLinesOk | irida_sistr_results/sistr_writer.py:201-219 | the table fails exactly when some record's row cannot be built |
| SistrWriter.AllRowsBuildReordered | irida_sistr_results/sistr_writer.py:201 | whether every row builds does not depend on the order of the projects |
| SistrWriter.WriteSucceeds | irida_sistr_results/sistr_writer.py:190-219 | `write` gets past its table exactly when every record of every project has a row |
| SistrWriter.RecordCountSorted | irida_sistr_results/sistr_writer.py:201 | sorting the projects keeps the number of records |
| SistrWriter.WriteRowCount | irida_sistr_results/sistr_writer.py:197-217 | `write` hands over one row per record of its input, so the row counter ends at one past the number of records |
| SistrWriter.ResultsWriter.constructor | irida_sistr_results/sistr_writer.py:14-27 | a writer starts at row 0 with the flag cleared and nothing written, and builds rows for its layout and IRIDA URL |
| SistrWriter.ResultsWriter.WriteProject | irida_sistr_results/sistr_writer.py:208-217 | the inner loop appends exactly the project's rows and advances the row counter by its number of records. It leaves the flag set after a non-empty project. It stops at the first record whose row cannot be built: every earlier row succeeded, exactly the rows before it were appended, the counter advanced by their number, and the flag was set if it was the last record |
| SistrWriter.ResultsWriter.WriteTable | irida_sistr_results/sistr_writer.py:201-219 | the project loop appends exactly the table and advances the counter by its length. The flag is cleared after each project. It fails exactly when the table does |
| SistrWriter.ResultsWriter.Formatting | irida_sistr_results/sistr_writer.py:436-458 | the spreadsheet writer colours the QC status column from row 1 to the current row; the text writers format nothing. Rows and counter are unchanged |
| SistrWriter.ResultsWriter.Write | irida_sistr_results/sistr_writer.py:190-223 | the header goes on row 0 and the table from row 1, with projects and records in the order above. In the spreadsheet, the QC range ends at the row after the table. Exactly one footer row follows, on the row after the last record. It fails exactly when the table does |

## Left out

- The HTTP/OAuth session and `get`, `get_resources` and `get_file` of the connector are network I/O. `IridaApi.Lims` gives what each request would answer, and a request it has no answer for fails. This covers the list of projects and the user's submissions as well as each resource.
- `urlsplit` is a library call. Its scheme and path parts are parameters of `Connector.JoinPath` and `Connector.BasePath`.
- Exception messages are not modelled beyond the tag of each `Err`, and neither is logging.
- At irida_sistr_results/irida_api.py:48 the message names an undefined variable, so that line raises a NameError. The model keeps only that the call fails (`NoSample`).
- The API layer returns plain dictionaries, while the reconciliation calls `SampleSistrInfo` methods on them. Both are the one record type `SistrInfo.Info`.
- SistrInfo.SubmissionCreatedMillis: returns the creation time in milliseconds. The source divides by 1000 as a float, which is not modelled.
- The sample's creation date is likewise kept in milliseconds. The writers' cells say "this time divided by 1000".
- `get_cgmlst_matching_proportion` (a float division by 330) and the `"{0:.1f}%"` percentage text are floating point. Rows hold a `Proportion` or `Percent` cell naming the allele count they are computed from.
- `get_qc_status_numerical` is called by `write` but defined nowhere in the source. The QC rank is a parameter of `Write`.
- The `__version__` string and `datetime.now()` in the footer are parameters of `Write`.
- The csv and xlsxwriter back ends are replaced by the recorded header and rows. Left out with them:
  - the workbook and its cell formats;
  - the bottom border drawn after an end-of-project row;
  - `freeze_panes`;
  - `close()`;
  - the `set_column` calls. Their ranges are proved valid and tiling, but `Write` does not record them.
- SistrWriter.ResultsWriter.Write: on failure it states only that the header was handed over first. The source raises in the middle of the table, after the rows built so far.
- SistrWriter.ResultsWriter.WriteTable: takes the record order as a parameter. `Write` passes the source's two sorts.
- The table lemmas likewise hold for any order that keeps a project's records.
- `write` takes a dict from project key to a dict of records. It is modelled as a sequence of (project id, records) pairs, with the keys already converted by `int`. A key that `int` rejects is not modelled.
- `get_row` and `set_row` are plain reads and writes of the `row` field.
- Columns are identifiers, and `Title` gives their header text. The header search is over columns rather than title strings, which `SistrWriter.TitlesDistinct` makes equivalent.
- SistrWriter.ToLetter: requires the resulting code point to be a character below the surrogate range. `chr` of a negative number raises in the source, and larger code points are not modelled.
- The command-line program (`irida-sistr-results.py`: argument and configuration parsing, the QC tally it logs) is not part of this model.
- The exception class file is not part of this model.
- `get_sample_created_date`, `get_serovar_antigen` and the other plain field accessors are instances of `SistrInfo.Field`, or read the record directly. They carry no further rows.
