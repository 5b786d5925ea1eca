# ISIN fund lookup — a Dafny model

This project models the lookup logic of the `FileReader` component of the csv-reader single-page
app. At mount the component loads `funds.csv`, a list of approved offshore reporting funds, into a
sequence of rows. Each row maps a column header to its cell text. The user types an ISIN and presses
Calculate or Enter. The component then finds the first row whose `ISIN No` equals the input exactly.
On a hit it shows that row's `Parent Fund` and `Sub Fund Name` on a green background. On a miss it
shows `No fund found` on a red background.

- `wrappers.dfy` (module `Wrappers`) holds `Option`. It stands for a JavaScript property read that
  may come back `undefined`.
- `lookup.dfy` (module `FundLookup`) holds the pure part:
  - the first-match search (`Find`, which models `csvData.find`);
  - the two-column projection (`Project`);
  - the outcome of a calculation (`Evaluate`): the result and the colour;
  - the display rule (`ShowField`, `Render`).
- `presenter.dfy` (module `FileReaderComponent`) holds the component's state:
  - the four state variables as a `Snapshot`;
  - the events that change them and the transition function `Step`;
  - `Run`, which replays a sequence of events;
  - the class `FileReader`. Its fields are the four state variables. Each of its methods, one per
    handler of the component, performs exactly one `Step`.

The `result` state is modelled as JavaScript holds it. It is either a string (`Text`) or the
projected object (`Record`). The string is `""` at mount and `No fund found` after a miss. A projected
field is `None` when the matching row has no such column. A field is shown as `N/A` when it is
missing and also when it is empty: the code uses `||`, and JavaScript treats `""` as false.

## Model

| member | source | states |
|---|---|---|
| FundLookup.Find | src/App.js:44 | the index returned is the first row, in dataset order, whose `ISIN No` cell equals the input exactly; a row without that column never matches; nothing is returned exactly when no row matches |
| FundLookup.Cell | src/App.js:44 | reading a column of a row gives its cell when the row has that column, and `undefined` (None) exactly when it does not |
| FundLookup.Project | src/App.js:49-52 | the projected object's `Parent Fund` and `Sub Fund Name` are present exactly when the row has those columns, and then equal the row's cells |
| FundLookup.FirstMatchUnique | src/App.js:44 | the first matching row is unique |
| FundLookup.Evaluate | src/App.js:44-58 | the result is an object exactly when some row matches; the object holds only the `Parent Fund` and `Sub Fund Name` cells of the first matching row, with colour `#6cd65e`; otherwise the result is `No fund found` with colour `#f04f4f` |
| FundLookup.ProjectReadsOnlyTwoColumns | src/App.js:49-52 | the projected object depends on the two projected columns of the row and on nothing else |
| FundLookup.EvaluateIgnoresLaterRows | src/App.js:44 | once a row matches, rows appended after it do not change the outcome, so duplicates resolve to the first |
| FundLookup.EvaluateSkipsMisses | src/App.js:44 | non-matching rows placed in front do not change the outcome |
| FundLookup.EmptyDatasetMisses | src/App.js:55-58 | an empty dataset gives `No fund found` in red for every input |
| FundLookup.CaseSensitiveLookup | src/App.js:44 | the ISIN `AB12CD3FG456` is not found by the input `ab12cd3fg456` |
| FundLookup.SingleRowFound | src/App.js:44-54 | a one-row dataset holding the input's ISIN yields that row's parent fund and sub fund name in green |
| FundLookup.ShowField | src/App.js:97-98 | a field is shown as its value when present and non-empty, and as `N/A` when it is missing or empty; what is shown is never empty |
| FundLookup.Render | src/App.js:93-103 | an object result is shown as a two-item list of its fields by the display rule; a string result is shown as a paragraph holding that string as it is |
| FundLookup.RenderAfterEvaluate | src/App.js:93-99 | after a hit the result area lists the first matching row's two fields, each by the display rule |
| FundLookup.RenderAfterMiss | src/App.js:101-103 | after a miss the result area shows the string `No fund found` as it is |
| FundLookup.MissingSubFundShowsPlaceholder | src/App.js:98 | a matched row lacking `Sub Fund Name` shows `N/A` for it and no error |
| FileReaderComponent.Calculate | src/App.js:42-59 | the calculation keeps the input text and the dataset; it sets result and colour from the first matching row, or to the not-found message and red |
| FileReaderComponent.Step | src/App.js:31-84 | typing sets only the input text, a completed load sets only the dataset, a load error changes nothing, and the button or Enter performs the calculation; no other event changes result or colour |
| FileReaderComponent.CalculateIdempotent | src/App.js:42-59 | calculating twice in a row gives the same state as calculating once |
| FileReaderComponent.KeyDownIsClickOnEnter | src/App.js:62-66 | the Enter key performs exactly the button's transition; any other key leaves the whole state unchanged |
| FileReaderComponent.LoadFailureChangesNothing | src/App.js:35-37 | a load error leaves the state, the dataset included, unchanged |
| FileReaderComponent.RunPreservesConsistent | src/App.js:21-24 | from any state whose colour matches its result (grey for `""`, red for not found, green for an object), every sequence of events keeps them matched |
| FileReaderComponent.ResultChangesOnlyByCalculation | src/App.js:42-66 | result and colour change only through a calculation; after one has run, the result is never `""` again |
| FileReaderComponent.InitialResultUntilCalculated | src/App.js:23 | starting from mount, the result is `""` exactly when no calculation has run |
| FileReaderComponent.InputsChangeOnlyByTheirEvents | src/App.js:31-34 | the dataset changes only on a completed load; the input text changes only by typing |
| FileReaderComponent.WithoutLoadEveryLookupMisses | src/App.js:35-37 | if no load has completed since mount, every calculation, by the button or by Enter, reports `No fund found` in red |
| FileReaderComponent.InitialRendersEmptyParagraph | src/App.js:101-103 | at mount the result area shows the empty string `""` as a paragraph |
| FileReaderComponent.FileReader.constructor | src/App.js:21-24 | the initial state is an empty input, an empty dataset, the result `""` and the colour `#cfcccc` |
| FileReaderComponent.FileReader.SetTextValue | src/App.js:84 | typing replaces the input text and nothing else |
| FileReaderComponent.FileReader.LoadComplete | src/App.js:31-34 | the parsed rows replace the dataset and nothing else changes |
| FileReaderComponent.FileReader.LoadError | src/App.js:35-37 | the error callback changes no state |
| FileReaderComponent.FileReader.HandleCalculate | src/App.js:42-59 | the handler performs the calculation transition on the fields and keeps colour and result matched |
| FileReaderComponent.FileReader.HandleKeyPress | src/App.js:62-66 | the key handler performs the calculation for `Enter` and changes nothing for any other key |

## Left out

- Downloading and decoding `funds.csv` with PapaParse (src/App.js:28-30): it is a foreign library
  doing network I/O and CSV parsing. Its output enters the model as the `rows` argument of
  `LoadComplete`. Its error enters as the `message` argument of `LoadError`.
- The asynchronous timing of the mount effect (src/App.js:26-39): a completed load is one
  transition. `Run` allows it at any point, including after calculations. A late load does not
  recompute a result that is already shown.
- The effect runs once per mount, so the model could be restricted to at most one load. The model does
  not impose this limit; every property above holds for any number of loads.
- The `console.log` and `console.error` diagnostics (src/App.js:36, 43, 45): logging only.
- The markup around the result area: the header of `App`, the instructions, the links, CSS classes,
  the bullet style and the "Current input" echo (src/App.js:6-17, 68-92, 104-106).
- The JavaScript truthiness test on the found row (src/App.js:47): a parsed row is always an object,
  so `find` returning a row is modelled as a hit.

