# Vocational-graduate salary form: feature alignment

A Dafny model of the preprocessing step of a one-page salary-estimate form.
A submitted form (age `usia`, training duration `durasi_pelatihan`, exam score
`nilai_ujian`, gender `jenis_kelamin`, last education `pendidikan`, training
field `jurusan`, work experience `status_bekerja`) becomes a one-row table.
Gender and experience are first turned into 0/1. `get_dummies` then replaces
each text column by one indicator column `<field>_<value>` holding 1. The
table is reconciled against the column manifest the model was trained on:
each missing manifest column is added holding 0, and the table is projected
onto the manifest. The result is the numeric vector handed to the fitted
scaler and regression model.

Files and modules:

- `form.dfy` (`Form`): the record, the widget ranges and options, the two
  binary encodings, and the one-row table.
- `dummies.dfy` (`Dummies`): the table of integer cells (`Frame`: column
  labels in order plus a map from label to value) and a general model of
  `get_dummies` on a one-row table. Integer columns come first, in their
  order, then one indicator per text column. There are also lemmas pinning down
  what it yields for a submitted record.
- `alignment.dfy` (`Alignment`): the zero-fill loop as a method (`ZeroFill`)
  proved equal to a specification function (`ZeroFilled`). It also holds the
  projection `table[manifest]` (`Select`), which reports a `KeyError` when a
  column is missing. `Aligned` is the reference definition: position `i`
  holds the value for `manifest[i]`, or 0. Finally, `Preprocess` is the whole
  block.
- `properties.dfy` (`AlignmentProperties`): what each position of the aligned
  vector holds, for any manifest and any category label, and the worked
  example of a single submission.
- `prediction.dfy` (`Prediction`): scaling and prediction with the fitted
  objects as opaque functions, plus the width check they impose.

The manifest is any `seq<string>` and the category labels are any strings.
The form's category options are never compared with the manifest. So the
model captures the silent zero-fill when the two drift apart. It does not
assume they agree (`AlignUnknownCategory`). The widget ranges appear only as
`Form.FromWidgets`. Preprocessing does not depend on them, so no operation
requires them.

## Model

| member | source | states |
|---|---|---|
| `Form.BinaryBit` | app.py:55-56 | a two-way answer is encoded as 0 or 1, and it is 1 exactly when it is the positive answer ("Laki-laki" for gender, "Ya" for experience) |
| `Form.InputFrame` | app.py:49-57 | definition: the one-row table with columns `usia`, `durasi_pelatihan`, `nilai_ujian`, `pendidikan`, `jurusan`, `jenis_kelamin`, `status_bekerja` in that order; the two category fields stay text, and gender and experience are already 0/1 |
| `Dummies.GetDummies` | app.py:61 | definition: the integer columns pass through first, in table order, then each text column `<name>` holding `v` becomes one column `<name>_<v>` holding 1, in table order |
| `Dummies.FrameOfCells` | app.py:61 | columns with distinct labels form a well-formed table in which every label holds its own column's value |
| `Dummies.EncodeShape` | app.py:49-61 | the record's expanded table is well-formed, and its columns are the five integer columns in order, then `pendidikan_<choice>` and `jurusan_<choice>` |
| `Dummies.EncodeCells` | app.py:49-61 | the expanded table has exactly those seven columns; numbers and bits pass through unchanged, and each chosen category's indicator holds 1 |
| `Alignment.AddZeroColumn` | app.py:65-66 | definition: a column already present leaves the table as it is; a missing one is appended at the end holding 0 |
| `Alignment.ZeroFilled` | app.py:64-66 | definition: the table after visiting the manifest entries in order, adding each missing one as `AddZeroColumn` does |
| `Alignment.ZeroFilledSpec` | app.py:64-66 | zero-filling only adds columns: existing values and column order are kept, the result gains exactly the manifest columns it lacked, and each added column holds 0 |
| `Alignment.ZeroFill` | app.py:64-66 | the loop over the manifest produces exactly the zero-filled table |
| `Alignment.Select` | app.py:69 | the projection succeeds exactly when every manifest column is present; its labels are then the manifest and each value is the one under that label, and otherwise it names a missing manifest column |
| `Alignment.Aligned` | app.py:64-69 | the reference alignment has one entry per manifest column |
| `Alignment.SelectAfterFill` | app.py:64-69 | after zero-filling, the projection never fails for any manifest, and it yields the manifest as labels over the reference alignment |
| `Alignment.AlignedReadsOnlyManifest` | app.py:69 | two tables that agree on every manifest column align alike, whatever other columns they hold and in whatever order |
| `Alignment.ProjectionIgnoresExtraColumn` | app.py:64-69 | along zero-fill then projection, a new column the manifest does not name has no effect on the projected row |
| `Alignment.Align` | app.py:47-69 | definition: the reference alignment of a record, that is, at position i the expanded record's value under `manifest[i]`, or 0 when the expansion has no such column |
| `Alignment.Preprocess` | app.py:47-69 | the whole preprocessing block always succeeds; it returns the manifest as labels and the reference alignment of the record as values |
| `AlignmentProperties.EncodedInBlock` | app.py:61 | the only expanded label of the form `<field>_...` is the chosen value's indicator |
| `AlignmentProperties.AlignNumericPassThrough` | app.py:49-52 | age, duration and score reach every position that names them, unchanged |
| `AlignmentProperties.AlignBinaryColumns` | app.py:55-56 | a `jenis_kelamin` position is 1 exactly for "Laki-laki" and a `status_bekerja` position is 1 exactly for "Ya"; both are 0 otherwise |
| `AlignmentProperties.AlignIndicators` | app.py:61-66 | each position in a category's block is 0 or 1, and it is 1 exactly when it names the chosen value's indicator |
| `AlignmentProperties.AlignIndicatorOf` | app.py:61-66 | the column `<field>_<v>` is 1 exactly when `v` is the chosen value, and 0 exactly when it is not |
| `AlignmentProperties.AlignOneHot` | app.py:61-69 | all positions holding 1 within a category's block name the same column, so each block has at most one set indicator |
| `AlignmentProperties.AlignUnknownCategory` | app.py:64-66 | when the chosen category has no indicator in the manifest, that category's whole block is 0 |
| `AlignmentProperties.AlignUnproducedIsZero` | app.py:64-66 | every manifest column the expansion did not produce is 0 |
| `AlignmentProperties.AlignWidgetBounds` | app.py:34-36 | for inputs the widgets allow, every entry of the vector lies between 0 and 100 |
| `AlignmentProperties.ExampleSubmission` | app.py:47-69 | a 20-year-old man with 6 months of training, score 85, Diploma, IT and no experience, aligned to a manifest of all thirteen training columns, gives `[20, 6, 85, 1, 0, 1, 0, 0, 0, 0, 1, 0, 0]` |
| `Prediction.Predict` | app.py:72-75 | scaling and prediction produce an estimate exactly when the vector has the fitted width; otherwise the result is a shape error naming both widths |
| `Prediction.Submit` | app.py:47-75 | a submission is the prediction on the reference alignment; it yields an estimate exactly when the manifest length equals the fitted width, whatever the record |

## Left out

- Page setup, form widgets, layout, success message, input expander and footer (app.py:7, app.py:27-44, app.py:78-87) are UI rendering. The widget ranges and options are kept only as `Form.FromWidgets`.
- Loading the model, the scaler and the manifest from pickle files, the resource cache, and the fatal error-and-stop path on a failed load (app.py:11-24) are file I/O and framework plumbing. The loaded triple is a parameter (`Prediction.Assets`).
- `scaler.transform` and `model.predict` (app.py:72-75) are fitted floating-point objects. They are opaque functions; only the width check they impose is modelled.
- Formatting the estimate as rupiah with thousands separators (app.py:76) uses floating-point rounding. It is not modelled.
- pandas dtypes are not modelled: `get_dummies` yields boolean indicators, and here every cell is an `int`.
- Dummies.GetDummies: on a general table whose produced labels collide, pandas keeps both columns with their own values. The model keeps the label twice in `columns` but holds one value, the later column's, in `cells`, so that table is not well-formed. This never happens for the form's table (`EncodeShape` proves its labels distinct).
- Submitting the same record twice yields the same result because every member here is a function of its inputs; there is no hidden state to model.
