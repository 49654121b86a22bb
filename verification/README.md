# No-Code ML Pipeline Builder — a Dafny model of its pipeline state

The application walks a user through a four-stage machine-learning pipeline:
upload a tabular dataset, optionally scale its numeric features, split it
into training and test parts, and train a classifier. It has two halves.

- A React front end (`App` and four cards) keeps four state cells:
  `uploaded`, `preprocessed`, `splitDone` and `results`. Each card is gated
  by those cells. When a card's action completes, its callback marks that
  stage done and clears every later stage. A stepper shows the cells as
  five ticks.
- A FastAPI backend keeps one global `STATE` dictionary: the raw frame, the
  working frame, the label encoders, the four split parts and the model.
  Its handlers `/upload`, `/preprocess`, `/split`, `/train` and `/reset`
  each check their preconditions in a fixed order. Each one either answers
  with an error detail or updates the dictionary.

The model is organised by source file:

| Dafny file | models |
|---|---|
| `wrappers.dfy`, `api.dfy` | `Option`; the request and response bodies; a reply as the status and `detail` the front end reads |
| `text.dfy` | Python's `str.lower` and `str.strip`, and `endswith` |
| `frames.dfy` | the dataframe abstracted to its columns (label, dtype kind, per-row missing flags, scaling history) and its row count |
| `column_rules.dfy` | the column logic of the handlers: extension choice, dropping `Name`/`Ticket`/`Cabin`, label-encoding, choosing the columns to scale, parsing the scaler and model names |
| `backend.dfy` | the session dictionary as class `Session`, and the five handlers as methods with their error paths |
| `ui.dfy` | the front end's observable effects: requests posted, alerts shown, callbacks invoked |
| `dataset_upload.dfy`, `preprocessing.dfy`, `train_test_split.dfy`, `model_selection.dfy` | the four cards |
| `controller.dfy` | `App`'s four cells as class `App`, plus the pure completion functions and the invalidation and gating lemmas |
| `pipeline_stepper.dfy` | the stepper as a projection of the cells |
| `system.dfy` | both halves together under sequential use: every action except one keeps the front end's cells coupled to the backend session, and an enabled card never meets the backend's "upload first" or "bad name" errors. The exception is an upload whose first five rows hold a missing number or text cell (NaN): the backend stores the new frame and then fails to encode the preview, so the front end keeps its old cells (see Findings) |

Library calls are parameters of the handler that makes them, given as the
outcome that call had: reading a file, scaling, `train_test_split`, and
fitting and evaluating the model. A backend reply reaches the front end
unchanged (`Api.Deliver`).

## Model

| member | source | states |
|---|---|---|
| Api.Deliver | frontend/src/components/DatasetUpload.jsx:14-19 | the awaited call resolves exactly when the backend answered 2xx, carrying the body; otherwise the front end sees the reply's `detail` |
| Text.Lower | backend/main.py:59 | `str.lower()` over ASCII letters, character by character (no contract of its own; the lemmas below state its properties) |
| Text.EndsWith | backend/main.py:62-64 | `str.endswith`: the string's last characters are the suffix (no contract of its own) |
| Text.IsSpace | backend/main.py:147 | the characters Python's `str.isspace` accepts, which `strip()` removes (no contract of its own) |
| Text.TrimStart | backend/main.py:147 | the left half of `strip()`: the string after its leading whitespace (no contract of its own) |
| Text.LeadingSpaces | backend/main.py:147 | the count of leading whitespace characters: every earlier one is whitespace and the next one is not |
| Text.TrimEnd | backend/main.py:147 | a prefix of the input, with only whitespace after it, that does not itself end in whitespace |
| Text.Strip | backend/main.py:147 | `str.strip()`: the slice between the leading and trailing whitespace; it neither starts nor ends with whitespace |
| Text.StripTrimmed | backend/main.py:147 | a string with no whitespace at either end is left unchanged by `strip` |
| Text.LowerIdempotent | backend/main.py:59 | lowering twice is lowering once |
| Text.LowerOfUpper | backend/main.py:59 | lowering erases any upper-casing, so the case of a file name does not matter |
| ColumnRules.LowerAppend | backend/main.py:59-64 | lowering distributes over concatenation, so a file name's extension is lowered on its own |
| ColumnRules.FileFormatIgnoresCase | backend/main.py:59-64 | the reader chosen for a file name does not depend on its letter case |
| ColumnRules.CsvSuffix | backend/main.py:62-63 | a name ending in `.csv` in any letter case is read as CSV |
| ColumnRules.ExcelSuffix | backend/main.py:64-65 | a name ending in `.xls` or `.xlsx` in any case is read as Excel |
| ColumnRules.StripSurrounded | backend/main.py:147 | `strip` removes whitespace around a word and keeps the word |
| ColumnRules.LowerAllSpace | backend/main.py:147 | lowering leaves whitespace unchanged |
| ColumnRules.ModelChoiceTolerant | backend/main.py:147-151 | `logistic` or `tree` in any case, with surrounding whitespace, selects that model |
| ColumnRules.ModelChoice | backend/main.py:147-153 | the model chosen by a name's lowered and stripped form, if it is `logistic` or `tree` (no contract of its own; see the next two rows) |
| ColumnRules.ModelName | backend/main.py:148-150 | the canonical name of each model kind (no contract of its own) |
| ColumnRules.SpaceUnlowered | backend/main.py:147 | a character that lowers to whitespace was already that whitespace |
| ColumnRules.ModelChoiceOnlyPadded | backend/main.py:147-153 | the converse of `ModelChoiceTolerant`: a name selects a model only if it is that model's name, in some letter case, padded with whitespace |
| ColumnRules.FileFormat | backend/main.py:59-67 | the reader chosen by the lowered file name's extension: CSV, Excel or none (no contract of its own; the next rows state its properties) |
| ColumnRules.ScaleChoice | backend/main.py:105-107 | the scaler chosen by the lowered method name; `standard` and `minmax` only, with no stripping (no contract of its own) |
| ColumnRules.ScaleChoiceIgnoresCase | backend/main.py:105-107 | upper-casing a method name never changes the scaler chosen |
| ColumnRules.ProblemColumns | backend/main.py:77 | the labels the upload drops: `Name`, `Ticket`, `Cabin` (a constant) |
| ColumnRules.WithoutName | backend/main.py:78-79 | `drop(columns=[n])` keeps exactly the columns not labelled `n`, and never adds any |
| ColumnRules.Without | backend/main.py:77-79 | dropping a list of labels keeps exactly the columns labelled outside the list |
| ColumnRules.WithoutNameAbsent | backend/main.py:78 | dropping a label the frame lacks changes nothing; this is the loop's `if bad in columns` guard |
| ColumnRules.WithoutSnoc | backend/main.py:77-79 | dropping the labels one at a time equals dropping them all at once |
| ColumnRules.Kept | backend/main.py:77-79 | a column is kept exactly when it was in the frame and is not labelled `Name`, `Ticket` or `Cabin` |
| ColumnRules.DropProblemColumns | backend/main.py:77-79 | the drop loop over `Name`, `Ticket`, `Cabin` yields the columns labelled none of them, in order |
| ColumnRules.WithoutNone | backend/main.py:77-79 | dropping no labels keeps every column |
| ColumnRules.WithoutDistinct | backend/main.py:77-79 | dropping columns keeps labels distinct |
| ColumnRules.Encoded | backend/main.py:82-84 | one column after encoding: an object or category column becomes a complete numeric column (no contract of its own) |
| ColumnRules.EncodeAll | backend/main.py:81-85 | every column after the encode loop (no contract of its own; `EncodeAllNumericCodes` states its properties) |
| ColumnRules.CategoricalNames | backend/main.py:81-85 | the encoder keys are exactly the labels of the object or category columns, so each names a column of the frame |
| ColumnRules.EncodeCategorical | backend/main.py:81-85 | the encode loop turns exactly the object or category columns into complete numeric code columns, and keys an encoder by each of their labels |
| ColumnRules.EncodeAllNumericCodes | backend/main.py:81-85 | after encoding no column is categorical; each encoded column is numeric with no missing cell; labels and order are unchanged |
| ColumnRules.EncodeKeepsCompleteRows | backend/main.py:84 | encoding never lowers the number of complete rows `dropna` keeps |
| ColumnRules.Prepared | backend/main.py:74-89 | the working frame an upload stores: the problem columns dropped, then the rest encoded (no contract of its own; `PreparedValid` states its properties) |
| ColumnRules.PreparedValid | backend/main.py:74-89 | the stored working frame is well formed, has no categorical or dropped column, and has a column for every encoder key |
| ColumnRules.NumericNames | backend/main.py:108 | `select_dtypes(include=["number"])` lists only labels of the frame |
| ColumnRules.NumericNamesSnoc | backend/main.py:108 | the numeric labels of a frame with one more column gain that column's label exactly when it is numeric |
| ColumnRules.RemoveFirst | backend/main.py:111 | `list.remove`: one fewer element, exactly one occurrence of the removed label taken out of the multiset, and every other label kept |
| ColumnRules.ScaledColumns | backend/main.py:108-111 | the numeric labels without the last column's label (no contract of its own; the next rows state its properties) |
| ColumnRules.ScaledColumnsNumeric | backend/main.py:108-111 | every label to scale is a numeric label of the frame, and none is listed more often than among the numeric labels |
| ColumnRules.RemoveFirstLast | backend/main.py:110-111 | `list.remove` of a label that occurs only at the end removes just that one |
| ColumnRules.ScaledColumnsAreFeatures | backend/main.py:108-111 | with distinct labels, the columns to scale are the numeric columns except the last, and the target is never among them |
| ColumnRules.ScaleColumns | backend/main.py:116 | `df[numeric_cols] = scaler.fit_transform(...)`: the scaler is appended to the history of each listed column (no contract of its own) |
| ColumnRules.PreprocessScalesFeaturesOnly | backend/main.py:108-118 | scaling keeps every label and kind; it leaves the target and every non-numeric column untouched, and appends the scaler to the history of every numeric feature |
| ColumnRules.NumericListed | backend/main.py:108 | every numeric column's label is among the numeric labels |
| ColumnRules.NonNumericAbsent | backend/main.py:108 | a label held only by non-numeric columns is not selected as numeric |
| Frames.Names | backend/main.py:97 | `list(df.columns)`: the labels in column order (no contract of its own) |
| Frames.RowComplete | backend/main.py:128 | the row test of `dropna()`: no column has a missing value in that row (no contract of its own) |
| Frames.CountComplete | backend/main.py:128 | `dropna` keeps at most as many rows as the frame has |
| Frames.CompleteRows | backend/main.py:128-129 | the rows left after `dropna` number at most the frame's height |
| Frames.CountCompleteMonotone | backend/main.py:128 | a frame at least as complete row by row keeps at least as many rows |
| Frames.NoMissingKeepsAllRows | backend/main.py:128 | a frame with no missing cell keeps every row |
| Backend.ReadingFailed | backend/main.py:69 | the detail `Reading failed: <message>` (no contract of its own) |
| Backend.UploadRejection | backend/main.py:59-72 | the upload's 400 detail, checked in order. An unsupported extension gives `Reading failed: 400: Only CSV, XLS, XLSX allowed`, re-wrapped by the reading `except`. A reader that raised gives `Reading failed: <message>`. Fewer than two columns gives the column-count message. An upload is accepted exactly when none of these holds |
| Backend.PreviewSize | backend/main.py:98 | the preview holds five records, or every row when there are fewer |
| Backend.UploadBody | backend/main.py:93-99 | the upload's response: the original file name, the raw frame's shape and labels, and the preview size (no contract of its own) |
| Backend.PreviewHasMissing | backend/main.py:98 | some number, `object` or `category` cell of the first five raw rows is missing, and JSON encoding refuses that NaN; a missing datetime (NaT) does not count (no contract of its own) |
| Backend.NaTPreviewSent | backend/main.py:98 | a preview whose only missing cell is a datetime is not refused |
| Backend.CabinFrame | backend/main.py:71-77 | a well-formed three-column frame whose first `Cabin` cell is missing |
| Backend.PreviewRefusedAfterStore | backend/main.py:87-98 | that frame passes every upload check, so it is stored, yet its preview holds a missing cell |
| Backend.UploadedFrameInvariant | backend/main.py:74-89 | the frame and encoders an upload stores satisfy the session's frame invariant |
| Backend.Rescaled | backend/main.py:114-116 | the working frame after scaling its features (no contract of its own) |
| Backend.PreprocessKeepsInvariant | backend/main.py:114-119 | scaling the features keeps the frame invariant |
| Backend.Session.constructor | backend/main.py:26-35 | the initial `STATE`: no frames, empty encoders, no split, no model; the metrics keys absent |
| Backend.Session.HasDataset | backend/main.py:53-55 | whether `STATE["df"]` is set, the test `ensure_df_present` makes (no contract of its own) |
| Backend.Session.Store | backend/main.py:74-91 | stores the raw frame, the prepared frame and its encoders, clears the split and the model, and keeps the metrics |
| Backend.Session.Install | backend/main.py:87-91 | the five assignments to `STATE`: the frames and encoders given, the split and the model cleared, the metrics kept, and the session invariant preserved when the prepared frame satisfies the frame invariant |
| Backend.Session.Upload | backend/main.py:57-99 | as written. It answers 400 exactly when `UploadRejection` finds a reason, and then changes nothing. Otherwise it stores the frames and encoders and clears the split and the model. It then answers 200 with the raw frame's name, shape, labels and preview size exactly when the preview has no missing number or text cell; otherwise it answers 500 with no detail, after the store |
| Backend.Session.UploadNullPreview | backend/main.py:57-99 | the corrected upload: the same checks and store, and a 200 whenever the state was replaced |
| Backend.Session.Preprocess | backend/main.py:101-122 | the errors in order: no frame gives 400 "upload first"; a bad method name gives 400; an empty frame raises (500). No features to scale gives 200 `no_numeric_columns` with nothing changed. A failed scaler gives 500 `Scaling failed`. On success the features are scaled, the split and the model are cleared, and the scaled labels are returned |
| Backend.Session.Rescale | backend/main.py:114-121 | the preprocess handler's update: the features scaled, the split and the model cleared, everything else kept, and the session invariant preserved |
| Backend.Session.Split | backend/main.py:124-140 | the errors in order: no frame gives 400; fewer than two complete rows gives 400; an empty frame or a failing fallback split gives 500. On success the split parts are stored with the feature and target labels, the model is cleared and the frame is left unchanged |
| Backend.Session.Train | backend/main.py:142-176 | the errors in order: no frame gives 400; no split gives 400; a bad model name gives 400. A failed fit gives 500 `Training failed: <msg>` plus the traceback; a failed evaluation gives 500 with no detail. On success the model, the metrics and the confusion image are stored; frames and split are unchanged |
| Backend.Session.Reset | backend/main.py:178-182 | every key present becomes None, and the metrics keys stay absent if they never existed; answers `reset_done` |
| Ui.AlertText | frontend/src/components/DatasetUpload.jsx:19 | `detail || fallback`: the backend's detail when it is a non-empty string, else the card's own message |
| Ui.Posts | frontend/src/components/Preprocessing.jsx:9 | the requests a trace posts, at most one per effect |
| Ui.Calls | frontend/src/components/Preprocessing.jsx:11 | the callbacks a trace invokes, at most one per effect |
| Ui.AlertOnly | frontend/src/components/Preprocessing.jsx:7 | an action that only alerts posts nothing and calls nothing back |
| Ui.CallOnly | frontend/src/components/DatasetUpload.jsx:29 | an action that only calls back posts nothing and makes that one call |
| Ui.PostThenAlert | frontend/src/components/Preprocessing.jsx:9-14 | a failed request posts that request once and calls nothing back |
| Ui.PostThenCall | frontend/src/components/ModelSelection.jsx:9-10 | a request followed by its callback posts that request and makes that call |
| Ui.PostAlertCall | frontend/src/components/Preprocessing.jsx:9-11 | a request, an alert and a callback post that request and make that call |
| DatasetUpload.UploadPanel.constructor | frontend/src/components/DatasetUpload.jsx:6-7 | no file chosen and no metadata shown |
| DatasetUpload.UploadPanel.Choose | frontend/src/components/DatasetUpload.jsx:26 | choosing replaces the file and keeps the metadata |
| DatasetUpload.UploadPanel.Upload | frontend/src/components/DatasetUpload.jsx:9-21 | with no file it only alerts "Choose a CSV/XLSX file". Otherwise it posts the file; on success it shows the metadata and reports it upward; on failure it alerts the detail or "Upload failed" |
| DatasetUpload.UploadPanel.Reset | frontend/src/components/DatasetUpload.jsx:29 | forgets file and metadata, reports `null` upward, posts nothing |
| Preprocessing.Apply | frontend/src/components/Preprocessing.jsx:6-16 | a closed gate only alerts. Otherwise it posts the button's scaler name; on success it alerts "Preprocessing applied" and reports completion; on failure it alerts the detail or "Preprocess failed". Only `standard` or `minmax` is ever posted |
| TrainTestSplit.DoSplit | frontend/src/components/TrainTestSplit.jsx:6-16 | the same shape for the split, with 0.3 or 0.2 as the only posted test sizes |
| ModelSelection.Train | frontend/src/components/ModelSelection.jsx:6-15 | the same shape for training, except that success reports the response body with no alert; only `logistic` or `tree` is posted |
| Controller.PreprocessDisabled | frontend/src/App.jsx:33 | the preprocessing card is closed while nothing is uploaded (no contract of its own) |
| Controller.SplitDisabled | frontend/src/App.jsx:38 | the split card is closed while neither preprocessing is done nor a dataset uploaded (no contract of its own) |
| Controller.TrainDisabled | frontend/src/App.jsx:43 | the model card is closed until a split is done (no contract of its own) |
| Controller.AfterUploaded | frontend/src/App.jsx:30 | `onUploaded`: the upload cell set to the response, the other three cleared (no contract of its own; see `UploadIdempotent`, `UploadForgetsHistory`, `InvalidationRule`) |
| Controller.AfterApplied | frontend/src/App.jsx:34 | `onApplied`: preprocessing done, split and results cleared (no contract of its own) |
| Controller.AfterSplit | frontend/src/App.jsx:39 | `onSplit`: split done, results cleared (no contract of its own) |
| Controller.AfterResults | frontend/src/App.jsx:44 | `setResults`: the results cell set, nothing else (no contract of its own) |
| Controller.Dispatch | frontend/src/App.jsx:30-44 | a callback's completion function applied to the cells (no contract of its own; `InvalidationRule` states its effect) |
| Controller.InitialClosed | frontend/src/App.jsx:11-14 | the initial cells are consistent and every card except upload is disabled |
| Controller.PermittedKeepsConsistent | frontend/src/App.jsx:30-44 | a completion whose card was enabled keeps the cells consistent: results only with a split, split and preprocessing only with an upload |
| Controller.GatesUnderConsistency | frontend/src/App.jsx:32-43 | in a consistent state the split card's gate equals the preprocessing card's gate (`!uploaded`), and an open training card implies both are open |
| Controller.UploadIdempotent | frontend/src/App.jsx:30 | uploading the same response twice equals uploading it once |
| Controller.UploadForgetsHistory | frontend/src/App.jsx:30 | after an upload the cells do not depend on their earlier values; the null upload restores the initial cells |
| Controller.InvalidationRule | frontend/src/App.jsx:30-44 | a completion marks its own stage done and every later stage not done, and leaves earlier stages as they were; the null upload clears every stage |
| Controller.SplitWithoutPreprocessing | frontend/src/App.jsx:30-43 | upload then split gives a consistent state where the split is done, preprocessing is not, and training is enabled |
| Controller.App.constructor | frontend/src/App.jsx:11-14 | the cells start as null, false, false, null |
| Controller.App.Invoke | frontend/src/App.jsx:30-44 | running a callback sets the cells to its completion function's value |
| Controller.App.InvokeAll | frontend/src/App.jsx:30-44 | running an action's (at most one) callback |
| Controller.App.RequestUpload | frontend/src/App.jsx:30 | a successful upload with a file chosen sets the cells to `AfterUploaded`; otherwise they are unchanged; the file is posted only when one is chosen. The chosen file is kept, and the shown metadata becomes the response on success and stays as it was otherwise |
| Controller.App.RequestReset | frontend/src/App.jsx:30 | the Reset button returns the cells to their initial values without posting, and the card forgets its file and metadata |
| Controller.App.RequestPreprocess | frontend/src/App.jsx:32-35 | when disabled only the gate alert shows; a success sets `AfterApplied`; otherwise the cells are unchanged |
| Controller.App.RequestSplit | frontend/src/App.jsx:37-40 | when disabled only the gate alert shows; a success sets `AfterSplit`; otherwise the cells are unchanged |
| Controller.App.RequestTrain | frontend/src/App.jsx:42-45 | when disabled only the gate alert shows; a success records the results; otherwise the cells are unchanged |
| PipelineStepper.Steps | frontend/src/components/PipelineStepper.jsx:5-11 | five steps numbered 1 to 5, done as upload, preprocess, split, trained, trained |
| PipelineStepper.StepNames | frontend/src/components/PipelineStepper.jsx:6-10 | the step names Upload, Preprocess, Split, Model, Results |
| PipelineStepper.Decimal | frontend/src/components/PipelineStepper.jsx:18 | a number renders as a non-empty string of digits with no leading zero |
| PipelineStepper.DigitsValue | frontend/src/components/PipelineStepper.jsx:18 | the number a digit string denotes (no contract of its own) |
| PipelineStepper.DecimalValue | frontend/src/components/PipelineStepper.jsx:18 | the rendered digits read back as the number itself |
| PipelineStepper.Dot | frontend/src/components/PipelineStepper.jsx:18 | a done step shows a check mark, an undone one its number |
| PipelineStepper.StepsOf | frontend/src/App.jsx:24-27 | the stepper's props taken from the cells, `trained` being `!!results` (no contract of its own) |
| PipelineStepper.StepperShowsProgress | frontend/src/App.jsx:24-27 | in a consistent state Model and Results tick together. They tick only after Split, and Split and Preprocess only after Upload; Preprocess may stay unticked while Split is ticked |
| PipelineStepper.UndoneDots | frontend/src/components/PipelineStepper.jsx:18 | an undone step shows its single digit |
| Preprocessing.MethodOf | frontend/src/components/Preprocessing.jsx:22-23 | the scaler name each button sends (no contract of its own; `System.SentScalersAccepted` states its property) |
| TrainTestSplit.RatioOf | frontend/src/components/TrainTestSplit.jsx:22-23 | the test size each button sends (no contract of its own) |
| ModelSelection.ModelOf | frontend/src/components/ModelSelection.jsx:21-25 | the model name each card sends (no contract of its own; `System.SentModelsAccepted` states its property) |
| System.SentScalersAccepted | frontend/src/components/Preprocessing.jsx:22-23 | both scaler names the front end sends are accepted by `/preprocess` |
| System.SentModelsAccepted | frontend/src/components/ModelSelection.jsx:21-25 | both model names the front end sends select the model they name |
| System.StartCoupled | frontend/src/App.jsx:11-14 | a fresh front end and a fresh backend are coupled: an upload shown means a frame stored, a split shown means a split stored, results shown mean a model stored |
| System.Upload | frontend/src/components/DatasetUpload.jsx:9-21 | as written. A request is sent exactly when a file is chosen; with none, nothing on either side changes. The reply is 400 with `UploadRejection`'s reason, else 500 with no detail when the preview has a missing number or text cell, else 200 with the upload body. A 200 updates both sides and the card's metadata; a 400 changes neither side. A 500 leaves the front end as it was while the backend holds the new frame with no split or model, so the coupling survives only if no split or results were shown. Every other answer keeps the coupling |
| System.UploadNullPreview | backend/main.py:87-99 | the corrected upload, seen from both sides: the coupling always holds; the reply is 200 exactly when `UploadRejection` finds nothing; a refusal changes neither side |
| System.PreviewDesync | backend/main.py:87-146 | after a split, uploading `CabinFrame` as written answers 500; the front end still shows the split and opens the model card, while the backend has no split, so the next training request is refused with "Split the dataset first" (400) |
| System.ResetFrontEnd | frontend/src/components/DatasetUpload.jsx:29 | the front end returns to its initial state and the card forgets its file and metadata, while the backend session is left unchanged; the coupling still holds |
| System.Preprocess | frontend/src/components/Preprocessing.jsx:6-16 | keeps the coupling. A request is sent exactly when the card is enabled, and is then never refused with "upload first" or "bad method". A success with features to scale clears the split and the model on the backend and the split and results on the front end |
| System.Split | frontend/src/components/TrainTestSplit.jsx:6-16 | keeps the coupling. A request is sent exactly when the card is enabled, and is then never refused with "upload first". It succeeds exactly when two complete rows remain, the frame has columns and the splitter succeeds; then both sides record the split |
| System.Train | frontend/src/components/ModelSelection.jsx:6-15 | keeps the coupling. A request is sent exactly when the card is enabled, and then fails only with a 500 from fitting or evaluation. A success records the results on the front end and the model on the backend |
| System.SampleFrame | backend/main.py:71 | a two-column, three-row frame that the upload's column check accepts |
| System.SampleFrameAccepted | backend/main.py:59-99 | the sample, named `titanic.CSV`, is accepted and kept as is; its preview has no refused missing cell; all three rows are complete; only the feature column is scaled |
| System.SkipPreprocessingScenario | frontend/src/App.jsx:30-44 | a scenario with no contract of its own, whose assertions show the following. Training before any upload is refused locally. Upload, split and train then all succeed without preprocessing. A final preprocess clears the results and the split on both sides while the uploaded dataset stays |

## Findings

| source | as written | input that shows it | evidently intended | confidence | as-written member | corrected member |
|---|---|---|---|---|---|---|
| backend/main.py:87-98 | the state is replaced before the preview is built, and a preview with a missing number or text cell cannot be JSON-encoded (NaN is refused), so the request fails with a bare 500 after the store | after a split, a CSV whose first row has an empty `Cabin` cell: the front end alerts "Upload failed" and keeps its split shown, the backend has dropped the split, and training is refused | a 200 whenever the state is replaced, missing preview cells being sent as null | medium, not executed | Backend.Session.Upload, System.PreviewDesync | Backend.Session.UploadNullPreview, System.UploadNullPreview |

## Left out

- Text.Lower: only ASCII letters are case-mapped; Python's `str.lower` also maps non-ASCII letters.
- Cell values, the numeric work of `LabelEncoder`, the scalers, `train_test_split`, the classifiers and the metrics: the frame is abstracted to labels, kinds, missing flags and scaling history, and each library call is a parameter giving its outcome.
- Backend.Session.Split: the `test_size` argument is handed to the splitter and not modelled further; the row counts come from the splitter's outcome. The stratify-or-not choice and its silent fallback are folded into that outcome.
- Backend.PreviewSize: only the number of preview records is modelled, not their contents.
- Backend.PreviewHasMissing: only a missing cell (NaN) in the preview is modelled as refused by JSON encoding; infinite values, which it refuses too, are not represented because cell values are not modelled. A bool column with a missing cell is read as `object` by pandas, so a missing cell in a column of the remaining kind is taken to be a datetime NaT.
- System.Preprocess, System.Split, System.Train: each requires the coupling. An as-written upload whose preview is refused can break it (`System.PreviewDesync`); the corrected upload always keeps it.
- Backend.Session.Upload: a missing file name (`None`) is not modelled; request validation errors from the web framework (HTTP 422, whose `detail` is a list) are not modelled for any handler.
- Async interleaving: each front-end action is modelled as running to completion before the next starts, and no other client calls the backend.
- The `/reset` endpoint is never called by the front end; it is modelled on the backend only.
- `console.error` logging, CSS, the Results panel (`Results.jsx`, which only renders), CORS and the server start-up are display or plumbing and are not modelled.
- `frontend/src/api/api.js` is not part of this model; its transport is taken to deliver every reply unchanged (`Api.Deliver`).
- TrainTestSplit.DoSplit: the JavaScript numbers 0.3 and 0.2 are modelled as exact reals, not IEEE doubles.
- Backend.Session.Reset: the loop over the dictionary's keys is modelled as assigning each known field; a key other than the ten modelled is not represented.
