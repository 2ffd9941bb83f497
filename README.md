# Titanic dashboard: derive-and-filter pipeline

This project models the logic of the Titanic Streamlit dashboard (`app.py`) and proves properties of that model. Everything else in the script is presentation.

The dashboard works in four steps:

1. It loads the passenger sheet once and adds three derived columns:
   - `Title`: the first ` ([A-Za-z]+)\.` match in `Name`;
   - `Family Size`: `SibSp + Parch + 1`;
   - `Survival`: `Survived` mapped by `{0: "Did not Survive", 1: "Survived"}`.
2. It turns four groups of sidebar checkboxes into lists of accepted values. Each box starts ticked.
3. It keeps the rows whose `Survival`, `Pclass`, `Sex` and `Embarked` are each in the matching list.
4. It fills a KPI row from that selection.

Modules, one per part of the script:

- `Wrappers` (`wrappers.dfy`): `Option`, standing for a cell that may be NaN.
- `Sequences` (`sequences.dfy`): subsequence and no-duplicates predicates.
- `Titles` (`titles.dfy`): the title pattern as a leftmost search. `TitleAt` is a declarative description of one match. `ExtractTitle` is the search itself, proved to find the first match.
- `Loader` (`loader.dfy`): the passenger rows. A `Frame` class holds the sheet's rows and gets its derived columns one assignment at a time, as the loader's data frame does.
- `Sidebar` (`sidebar.dfy`): the checkbox groups. The append-only list builders are proved equal to `Ticked(domain, boxes)`.
- `Selection` (`selection.dfy`): the query as a pure function. It is strict AND: an empty list or a missing cell matches nothing.
- `Kpis` (`kpis.dfy`): Total Passengers and Total Survived, plus the numerator and denominator of the survival rate.
- `App` (`app.py` top level, `app.dfy`): the four steps chained for one state of the sidebar.

The rows of the sheet are a parameter: reading the Excel file is outside the model.

The script computes the survival rate as `sum / shape[0] * 100`. For an empty selection this divides by zero, and numpy shows the result as `nan%`; no error is raised. The model keeps the numerator and denominator and proves that the denominator is zero exactly when the selection is empty.

## Model

| member | source | states |
|---|---|---|
| `Titles.RunEnd` | app.py:49 | the greedy `[A-Za-z]+` from a position consumes letters only and stops at the end or at a non-letter |
| `Titles.MatchAt` | app.py:49 | a successful match attempt at an index is a space, a non-empty letter run and a period there; `MatchAtIff` gives the converse |
| `Titles.TitleFrom` | app.py:49 | a title found by the search is a non-empty run of ASCII letters |
| `Titles.MatchAtIff` | app.py:49 | the match attempt at one index yields `t` exactly when a space, the letters of `t` and a period stand there |
| `Titles.TitleAtUnique` | app.py:49 | a match starting at a given index captures only one group, so the whole letter run is taken |
| `Titles.TitleFromIff` | app.py:49 | the search from an index returns `t` exactly when some match at or after it captures `t` and no match starts earlier |
| `Titles.TitleFromNoneIff` | app.py:49 | the search from an index finds nothing exactly when no match starts at or after it |
| `Titles.ExtractTitle` | app.py:49 | a `Title` cell that is present is a non-empty run of ASCII letters; `ExtractTitleIsFirstMatch` and `ExtractTitleAbsent` characterise it fully |
| `Titles.ExtractTitleIsFirstMatch` | app.py:49 | `Title` is `t` exactly when the first match in the name captures `t`: the first match wins |
| `Titles.ExtractTitleAbsent` | app.py:49 | `Title` is absent (NaN) exactly when the pattern matches nowhere in the name |
| `Titles.BraundIsMr` | app.py:49 | "Braund, Mr. Owen Harris" has the title "Mr" |
| `Titles.NoPeriodNoTitle` | app.py:49 | a name without a period has no title |
| `Titles.NoSpaceNoTitle` | app.py:49 | a name without a space has no title, because the pattern needs the leading space |
| `Titles.LeadingWordIsNoTitle` | app.py:49 | "Mr." alone has no title |
| `Loader.SurvivalLabel` | app.py:55 | `Survived` 1 gives "Survived", 0 gives "Did not Survive", any other value gives no label, each in both directions |
| `Loader.FamilySize` | app.py:52 | family size is at least 1 when both counts are non-negative |
| `Loader.Derive` | app.py:49-55 | a loaded row keeps its sheet row; its title, when present, is non-empty letters; its family size is at least 1 for non-negative counts; it has a Survival label exactly when `Survived` is 0 or 1 |
| `Loader.DeriveAll` | app.py:49-55 | the loaded table has one row per sheet row, holding that row and the cells derived from it |
| `Loader.Frame.constructor` | app.py:42-46 | a new frame holds the sheet's rows and no derived column |
| `Loader.Frame.AddTitle` | app.py:49 | assigns the `Title` column: one cell per row, each the title extracted from that row's name; other columns unchanged |
| `Loader.Frame.AddFamilySize` | app.py:52 | assigns `Family Size`: each cell is that row's `SibSp + Parch + 1`; other columns unchanged |
| `Loader.Frame.AddSurvival` | app.py:55 | assigns `Survival`: each cell is that row's mapped label; other columns unchanged |
| `Loader.Frame.Rows` | app.py:57 | a frame with all three derived columns has one row per sheet row |
| `Loader.GetDataFromExcel` | app.py:41-57 | the returned frame has all three derived columns; its rows are the loaded table, with `Family Size = SibSp + Parch + 1` in every row |
| `Sidebar.SurvivalList` | app.py:73-78 | the survival list is the ticked values of ["Survived", "Did not Survive"], in that order |
| `Sidebar.PclassList` | app.py:87-95 | the class list is the ticked values of [1, 2, 3], in that order |
| `Sidebar.GenderList` | app.py:103-108 | the gender list is the ticked values of ["male", "female"], in that order |
| `Sidebar.EmbarkedList` | app.py:117-125 | the port list is the ticked values of ["C", "Q", "S"], in that order |
| `Sidebar.Ticked` | app.py:73-125 | a list built from a group holds at most the group's size and only the group's values |
| `Sidebar.AcceptedFor` | app.py:70-125 | every accepted value belongs to its own group: survival labels, classes 1-3, the two sexes, ports C, Q and S |
| `Sidebar.ReadSidebar` | app.py:70-125 | the four lists are those the ten boxes determine |
| `Sidebar.TickedIsSubsequence` | app.py:73-125 | a built list keeps the order of its group |
| `Sidebar.TickedHasBox` | app.py:73-125 | in a group without repeats, a value is in the list exactly when its box is ticked |
| `Sidebar.TickedDistinct` | app.py:73-125 | in a group without repeats, a built list holds no value twice |
| `Sidebar.AllTicked` | app.py:70-125 | with every box of a group ticked the list is the whole group |
| `Sidebar.NoneTicked` | app.py:73-78 | with no box of a group ticked the list is empty |
| `Sidebar.AcceptedMembers` | app.py:70-125 | each of the ten values is accepted exactly when its own box is ticked |
| `Sidebar.AcceptedWellFormed` | app.py:70-125 | each list holds only its group's values, in the group's order, without duplicates |
| `Sidebar.DefaultsAcceptEverything` | app.py:70-125 | with the default boxes the lists are ["Survived", "Did not Survive"], [1, 2, 3], ["male", "female"] and ["C", "Q", "S"] |
| `Sidebar.UntickedGroupIsEmpty` | app.py:70-125 | unticking every box of a group leaves that group's list empty |
| `Selection.Select` | app.py:127 | the selection is no longer than the table, and each selected row passes all four memberships |
| `Selection.InList` | app.py:127 | the `in @list` test for one cell; what it means for whole rows is stated by `SelectMembers` (present and in the list) and `MissingCellNeverSelected` (a missing cell never matches) |
| `Selection.Keeps` | app.py:127 | a kept row has all four cells present, and no row is kept when any list is empty |
| `Selection.SelectConcat` | app.py:127 | the query works row by row: selecting from `a + b` gives the selection of `a` followed by that of `b` |
| `Selection.SelectMultiplicity` | app.py:127 | a row value that passes is kept as many times as it occurs in the table; one that fails is never kept |
| `Selection.SelectMembers` | app.py:127 | a row is selected exactly when it is in the table and its Survival, Pclass, Sex and Embarked cells are present and in their lists |
| `Selection.MissingCellNeverSelected` | app.py:127 | a row missing any of the four cells is never selected |
| `Selection.SelectIsSubsequence` | app.py:127 | the selection is an order-preserving subsequence of the table |
| `Selection.SelectAllKept` | app.py:127 | when every row passes the query, the selection is the whole table |
| `Selection.SelectIdempotent` | app.py:127 | running the query again on the selection with the same lists returns it unchanged |
| `Selection.KeepsMonotone` | app.py:127 | a row that passes with smaller lists passes with larger ones |
| `Selection.SelectMonotone` | app.py:127 | enlarging any list removes no row: the old selection is a subsequence of the new one |
| `Selection.EmptyListSelectsNothing` | app.py:127 | an empty list in any column gives an empty selection |
| `Selection.UntickedGroupSelectsNothing` | app.py:70-127 | unticking every box of any one group gives an empty selection |
| `Selection.UnlabelledNeverSelected` | app.py:55-127 | a loaded row whose `Survived` is neither 0 nor 1 is never selected |
| `Kpis.CountLabelled` | app.py:150 | the number of rows with a given label is at most the row count |
| `Kpis.TotalSurvived` | app.py:150 | the `Survived` sum is non-negative when no value is negative, and at most the row count when no value exceeds 1 |
| `Kpis.Summarize` | app.py:149-151 | Total Passengers is the row count; the rate's numerator is Total Survived and its denominator is Total Passengers, zero exactly when the selection is empty |
| `Kpis.BinarySurvivedSum` | app.py:150 | when every `Survived` is 0 or 1, the sum lies between 0 and the row count, and on loaded rows it equals the number labelled "Survived" |
| `Kpis.SelectionTotals` | app.py:127-150 | on loaded rows, with any lists, Total Survived is the number of selected rows labelled "Survived" and at most Total Passengers |
| `Kpis.RateUndefinedIffEmpty` | app.py:127-151 | the rate's denominator is zero exactly when no row of the table passes the query |
| `Kpis.SampleSelection` | app.py:127-151 | on a three-row sample, accepting survivors, classes 2 and 3, women and every port selects the 2nd and 3rd rows: Total Survived 2, rate 2 out of 2 |
| `App.RunDashboard` | app.py:59-151 | the selection is the query applied to the loaded table with the sidebar's lists; Total Survived counts the selected survivors and is at most Total Passengers; the rate's denominator is zero exactly when the selection is empty |

## Left out

- Streamlit page setup, CSS injection, titles, the `st.columns` layout and metric rendering (app.py:7, 18-37, 62-66, 132-156) are presentation only.
- The background images and their base64 encoding (app.py:10-15) are file I/O.
- Reading the Excel sheet (app.py:42-46) is file I/O through openpyxl. `GetDataFromExcel` takes the sheet's rows as a parameter, so load errors are not modelled.
- The `@st.cache_data` memoisation (app.py:40) is framework caching. The model calls the loader once per run.
- Floating-point figures are left out: the percentage and two-decimal formatting of the survival rate (app.py:151), Total Fare / 1000 (app.py:152), the mean age (app.py:153) and the correlation matrix (app.py:216-217). The `Age` and `Fare` columns are therefore absent from `RawPassenger`.
- All Plotly charts, layouts and annotation loops (app.py:159-246) are presentation only.
- Missing `Name`, `SibSp`, `Parch` or `Survived` cells are not modelled; those columns are plain strings and integers. Only the three columns the query reads besides `Survival` (`Sex`, `Pclass`, `Embarked`) may be missing.
- 64-bit integer width is not modelled for `Family Size` and the `Survived` sum: the model uses unbounded integers, and no passenger count comes near the limit.
- Only the regular-expression features the title pattern uses are modelled, with Python's semantics for them: leftmost search, a greedy `+`, and the ASCII class `[A-Za-z]`.
- `Frame.AddTitle`, `Frame.AddFamilySize`, `Frame.AddSurvival`: pandas assigns a whole column at once, so each method assigns its column in one step rather than cell by cell.
