# Patent search portal: filter chain and passcode gate

This project models the two pieces of logic in `app.py`, a Streamlit page for searching a table of patent applications.

- **Passcode gate.** `check_password` keeps one flag in the session state, `password_correct`. The search page is reached only once the flag is set. The flag is set by submitting a passcode that `hmac.compare_digest` finds equal to the secret, and it is never cleared.
- **Search.** The loaded table is narrowed once per filled search box (application number, title, agent, priority country, application type, classification). Each box keeps the rows whose column contains the query as text. The page then reports "Matches Found", the number of rows left.

Modules:

- `Wrappers`: `Option`.
- `Text`: an ASCII approximation of the search `Series.str.contains` performs: literal substring search, with `case=False` approximated by lower-casing the ASCII letters of both sides.
- `Records`: a table row. Each of its ten cells is `Option<string>`, and a cell pandas loads as NaN is `None`.
- `Filters`: one configurable filter line and the selection `rows[mask]`, with the algebra of chaining selections.
- `Search`: the six lines of the page, the method that runs them (`FilterRecords`), and their meaning stated on the fields of a row.
- `Gate`: `compare_digest`, one run of `check_password` as a function, and the session flag as a class.

Two places where the code differs from a plain reading of the page's purpose:

- The application-type line (app.py:111) passes no `case=False`, so it compares with case. The model follows the code.
- The application-number and application-type lines first turn the column into text with `.astype(str)`. That renders a missing cell as the text "nan", so `na=False` never applies there. The model follows the code; see "## Findings".

The loaded table `df` is a parameter of `FilterRecords`, and the secret from `st.secrets` is a parameter of `CheckPassword`.

`Search.FilterRecords` models the six lines as written. The corrected lines of the finding are `Search.IntendedSteps`, and the lemmas named `Intended...` are proved about them.

## Model

| member | source | states |
|---|---|---|
| Text.ContainsIffOccurs | app.py:107-112 | The recursive substring search behind `str.contains` holds exactly when the query occurs at some index of the text. |
| Text.Lower | app.py:107-112 | The case folding behind `case=False`: a string of the same length whose every character is lower-cased, ASCII `A`-`Z` to `a`-`z`, other characters kept. |
| Text.ContainsThenContainsIgnoringCase | app.py:107-112 | A case-sensitive match is also a match with `case=False`. |
| Filters.TextSeen | app.py:107-112 | The value `str.contains` sees for one row: the cell's text when present. A missing cell stays missing, unless the line goes through `.astype(str)` (107, 111), which renders it as "nan". |
| Filters.Matches | app.py:107-112 | The mask value of `str.contains(query, case=..., na=False)`: substring search on the seen text, ignoring case when the line passes `case=False`. It is never true for a value that is still missing (`na=False`). |
| Filters.Keeps | app.py:107-112 | The `if q_...:` guard: an empty search box keeps every row, a filled one keeps the rows its mask is true for. |
| Filters.ApplySteps | app.py:106-112 | The chain of reassignments `filtered = filtered[mask]`, each line filtering the previous line's result. The result is never longer than the table and holds only rows of the table. |
| Filters.Where | app.py:107-112 | The boolean-mask selection keeps each row that passes every step, with its multiplicity, and drops every other row. A row is in the result exactly when it is in the table and passes. The result is never longer than the table. |
| Filters.WhereIsSubsequence | app.py:106-112 | Selection only removes rows; the kept rows stay in their original order. |
| Filters.WhereThenWhere | app.py:107-112 | Selecting by one list of steps and then by another equals one selection by both lists. |
| Filters.WhereEquivalentSteps | app.py:107-112 | Two step lists that pass the same rows of the table select the same result. |
| Filters.WhereKeepingAll | app.py:106-112 | A selection that every row passes returns the table unchanged. |
| Filters.ChainIsOneSelection | app.py:106-112 | Re-filtering the previous line's result, line after line, equals one selection by all the lines together (AND). |
| Filters.ChainOrderIndependent | app.py:107-112 | Running the same lines in any order or with repeats gives the same rows. |
| Filters.InactiveChainKeepsAll | app.py:106-112 | When every query is empty, the chain returns the whole table. |
| Filters.MissingCellNeverKept | app.py:108-112 | With `na=False` and no `.astype(str)`, an active line never keeps a row whose cell in its column is missing. |
| Filters.FilterLine | app.py:107 | One guarded line `if q: filtered = filtered[mask]` equals the selection by that one step, including when the query is empty and the line is skipped. |
| Search.Steps | app.py:107-112 | The page's six lines, one per search box, each reading the column of its box. Only the type line (111) is case-sensitive. Only the number and type lines (107, 111) go through `.astype(str)`. |
| Search.TypeLineNarrowerThanCaseless | app.py:111 | The type line, written without `case=False`, keeps no row that the same line with `case=False` would drop. |
| Search.StepsMeanSelected | app.py:107-112 | A row passes the page's six lines exactly when each filled box matches its column as the fields-level definition `Selected` states. Number and type are compared as `str(cell)` ("nan" when missing); the type line is case-sensitive and the other five ignore case; a missing title, agent, country or classification never matches. |
| Search.FilterRecords | app.py:106-115 | The six guarded reassignments of `filtered` leave exactly the input rows that satisfy `Selected`, with their multiplicities and in their original order. With every box empty the result is the whole table. "Matches Found" equals the result's length, which is at most the table's. |
| Search.SearchMeaning | app.py:107-112 | Soundness and completeness of the six lines against `Selected`, as membership and as multiplicities; identity when no box is filled. |
| Search.SearchOrderIndependent | app.py:107-112 | Any reordering of the six lines gives the page's result. |
| Search.MissingTextCellNeverKept | app.py:108-112 | A kept row has a title, agent, priority country and classification for every one of those boxes that is filled. |
| Search.MissingNumberMatchesNan | app.py:107 | As written: a row with no application number is kept by any number query that occurs in "nan" ignoring case. |
| Search.MissingTypeMatchesNan | app.py:111 | As written: a row with no application type is kept by any type query that occurs in "nan". |
| Search.NanQueryMatchesNan | app.py:107-111 | The query "nan" is such a query for both lines, so these cases are reachable. |
| Search.IntendedNeedsCells | app.py:107-112 | With the corrected lines, a row that passes has a cell in the column of every filled box. |
| Search.IntendedMissingNeverKept | app.py:107-112 | With the corrected lines, a row the selection keeps has a cell in the column of every filled box, including number and type. |
| Search.IntendedAgreesOnPresentCells | app.py:107-111 | The corrected lines keep the same rows as the written ones wherever the number and type cells are present. |
| Gate.CompareDigest | app.py:68 | `compare_digest` on two strings raises TypeError when either is not ASCII, and answers true exactly when they are equal. |
| Gate.Check | app.py:52-73 | One run of `check_password`. If the flag is already set it returns True without looking at the form (53-54). The flag ends set exactly when it was set or the submitted passcode equals an ASCII secret (67-70). Rerun happens exactly when the flag is newly set (70). A TypeError happens exactly when the flag is unset, the form was submitted, and the passcode or the secret is not ASCII. Every denial leaves the flag unset, and shows the alert exactly when the form was submitted (72-73). |
| Gate.FlagAfter | app.py:52-73 | The flag after a series of runs, each with its own form input. A flag that starts set ends set (53-54). |
| Gate.FlagAfterMeaning | app.py:52-73 | Over any series of runs, the flag ends set exactly when it started set or some run submitted the secret. |
| Gate.UnlockedOnlyByTheSecret | app.py:67-69 | A fresh session is unlocked only by a run that submitted the secret. |
| Gate.Session.constructor | app.py:53 | A new session reads `password_correct` as False. |
| Gate.Session.CheckPassword | app.py:52-73 | One run updates the session flag and ends as `Check` says for the old flag, the form input and the secret. |

## Left out

- The Streamlit page is not modelled: layout, CSS, the logo, columns, the form widgets, the sidebar, the table display and the expanders. They hold no statable logic. The model takes the contents of the six search boxes and the form's `submit`/`password` values as inputs. An untouched box is "".
- `st.rerun()` and `st.stop()` are not modelled as control flow. They appear only as the outcomes `Rerun` and `Denied`.
- File and secrets I/O is not modelled: `os.path.exists`, `pd.read_csv` and `st.secrets`. The table and the secret are parameters. The warning for a missing CSV is not modelled.
- The "Matches Found" text formatting is left out; the count is the natural number `matchesFound`.
- `df.copy()` needs no model. The table is an immutable sequence value that `FilterRecords` cannot change, so the loaded table is the same after the search.
- Regular-expression semantics of `str.contains` are not modelled. No line passes `regex=False`, and the model assumes queries contain no regex metacharacters, so matching is literal substring search. Errors from invalid patterns are not modelled.
- Case folding is ASCII only on both sides: `A`-`Z` to `a`-`z`. Full Unicode lower-casing is not modelled.
- Cells are the CSV's text. The model does not capture how pandas renders a numeric column with `.astype(str)` (for example "123.0" for a float column).
- Errors pandas would raise are not modelled: a missing column (KeyError) and `.str` on a column that pandas did not load as text (AttributeError).
- `Gate.CompareDigest`: the constant-time property of `hmac.compare_digest` cannot be expressed here; only its result and its TypeError on non-ASCII strings are modelled. A secret that is not a string is not modelled.
- `st.session_state` is a dictionary; the model keeps only its `password_correct` entry, as the field `passwordCorrect`.

## Findings

| source | as written | input that shows it | evidently intended | confidence | as-written member | corrected member |
|---|---|---|---|---|---|---|
| app.py:107-111 | `.astype(str)` runs before `str.contains(..., na=False)`, so a missing number or type becomes the text "nan" and `na=False` never applies | a row with no application number and the number query "nan" (or "a", "N", "an"): the row is kept | a missing cell never matches, as on the other four lines | medium: depends on pandas 2.x rendering NaN as "nan"; not executed | Search.MissingNumberMatchesNan | Search.IntendedMissingNeverKept |
