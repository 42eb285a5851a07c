# hades-math: the neural network and the matrix visualizer, in Dafny

This project models the two pieces of computation in the hades-math
repository and proves properties of them.

- **`NeuralNetwork`** (`graphics/src/main.rs`) is a two-layer feed-forward
  classifier.
  - It has a ReLU hidden layer and a softmax output layer.
  - It trains by online stochastic gradient descent on the cross-entropy loss.
  - It provides `predict` (argmax of the output) and `test` (an accuracy figure).
- **The matrix multiplication visualizer** (`HadesMaths/.../Main.java`)
  works on two 2 x 2 grids of text fields.
  - It parses them into Java `int` matrices, with 0 for a field that does not parse.
  - It schedules one timer per cell of the product, in row-major order, 500 ms apart.
  - Each timer computes its cell as a dot product in wrapping 32-bit
    arithmetic and writes it into the result matrix in place.

Files:

- `wrappers.dfy`: an `Option` type.
- `linear_algebra.dfy`: the ndarray operations the network uses, over exact
  reals: vector–matrix product, transpose, outer product, elementwise
  arithmetic and sums.
- `neural_net.dfy`:
  - Value-level specification functions on a `Params` datatype: `Forward`,
    `Backprop`, `Descend`, `Step`, `EpochPrefix` and `Trained`, plus the
    lemmas about them.
  - The class `NeuralNetwork`, whose fields `w1, b1, w2, b2` are updated in
    place by `Train`. Each method is proved against those functions.
- `java_int.dfy`: Java `int`.
  - 32-bit wrap-around.
  - `Integer.parseInt` (radix 10).
  - `String.valueOf`.
- `matrix_visualizer.dfy`: `parseMatrix`, `animateCellMultiplication` and
  `startMultiplication`, over `array2<int32>`. Also covered: the firing of
  the scheduled timers, and the end-to-end result that C is A x B.

How the model treats the source:

- **Arithmetic is exact.** Dafny `real` stands for `f32`.
- **softmax is a parameter.** It needs `exp`, so every operation that runs
  the forward pass takes it as an argument of type `Normalizer`: any total
  map on vectors that keeps their length. Facts about output sums also
  assume its outputs sum to 1 (`SumsToOne`), as softmax does in exact
  arithmetic.
- **Panics become preconditions.** The Rust code panics when:
  - a row has the wrong length (`x.dot(&self.w1)`);
  - a label is not an output index (`y_true[y as usize]`);
  - the output is empty (`argmax().unwrap()`).

  These cases are preconditions in the model.
- **Java `int`** is the subset type `int32`. In the cell computation of
  `animateCellMultiplication` every `+` and `*` is wrapped explicitly.
  The schedule's `delay++` and `delay * 500` are not wrapped: with four
  cells they never exceed 1500.
- **`test` follows the code.** `test` counts the correct predictions over
  the (row, label) pairs, so its evident purpose is the fraction of
  samples classified correctly, a number in [0, 1]. The code divides by
  `images.len()`, which for a two-dimensional ndarray is rows x columns.
  The model follows the code; see "Findings".
- **The Rust code does not compile as written.** The model follows what
  each of these lines evidently means:
  - `dz2.insert_axis(..)` at `graphics/src/main.rs:158` moves `dz2`,
    which lines 159 and 161 then use again. The model reads it as a use
    of a copy.
  - `self.predict(&x)` at line 193 passes a row view where `predict`
    takes an owned `Array1`. The model passes the row.
  - `a2.argmax()` at line 187 needs the `QuantileExt` trait of
    ndarray-stats, which is not imported. The model uses that trait's
    `argmax`: the first index of a maximum.

## Model

| member | source | states |
|---|---|---|
| NeuralNet.Relu | graphics/src/main.rs:119-121 | same length; every entry is `max(v, 0)`: non-negative, at least the input, and equal to the input or 0 |
| NeuralNet.ReluDerivative | graphics/src/main.rs:123-125 | same length; an entry is 1 exactly when the input is strictly positive and 0 exactly when it is not (0 included) |
| NeuralNet.ReluGate | graphics/src/main.rs:119-125 | relu(v) is relu'(v) times v elementwise, and relu' is 1 exactly where relu is positive |
| NeuralNet.Forward | graphics/src/main.rs:138-141 | the forward pass `z1 = x·w1 + b1`, `a1 = relu(z1)`, `z2 = a1·w2 + b2`, `a2 = softmax(z2)` produces hidden vectors of the hidden size and outputs of the output size |
| NeuralNet.OutputError | graphics/src/main.rs:144-145 | `dz2 = a2 - one_hot(y)` for a label below the output size: `dz2[y] = a2[y] - 1`, every other entry equals `a2` |
| NeuralNet.OutputErrorSum | graphics/src/main.rs:154 | the output error sums to the output's sum minus 1 |
| NeuralNet.HiddenError | graphics/src/main.rs:161 | `dz1[j]` is row j of `w2` dotted with `dz2` when `z1[j] > 0`, and 0 otherwise |
| LinearAlgebra.OneHot | graphics/src/main.rs:144-145 | `y_true` for label `k` has one entry per output, 1 at `k` and 0 everywhere else |
| LinearAlgebra.VecMat | graphics/src/main.rs:138-140 | `x.dot(&m)` of an n-vector and an n × cols matrix has cols entries |
| LinearAlgebra.Transpose | graphics/src/main.rs:161 | `m.t()` of a rows × cols matrix is cols × rows, and its entry (j, i) is entry (i, j) of `m` |
| LinearAlgebra.Hadamard | graphics/src/main.rs:161 | the elementwise `*` keeps the length and multiplies entry i by entry i |
| LinearAlgebra.Outer | graphics/src/main.rs:155-164 | `u.insert_axis(1).dot(&v.insert_axis(0))` is a matrix with one row per entry of `u` and one column per entry of `v` |
| LinearAlgebra.VecMatTranspose | graphics/src/main.rs:161 | `v.dot(m.t())[j]` is row j of `m` dotted with `v` |
| LinearAlgebra.OuterRow | graphics/src/main.rs:155-158 | row i of `a.insert_axis(1).dot(b.insert_axis(0))` is `b` scaled by `a[i]` |
| NeuralNet.Backprop | graphics/src/main.rs:153-165 | the four gradients have the shapes of the parameters they update |
| NeuralNet.BackpropGradients | graphics/src/main.rs:153-165 | `dw2[i][j] = a1[i]·dz2[j]`; `db2 = dz2`; `db1[j] = (Σ_k dz2[k]·w2[j][k])·relu'(z1[j])` with the `w2` before the update; `dw1[i][j] = x[i]·db1[j]` |
| NeuralNet.Descend | graphics/src/main.rs:167-171 | the update keeps every parameter's shape |
| NeuralNet.DescendUpdates | graphics/src/main.rs:167-171 | every entry of `w1, b1, w2, b2` becomes itself minus `lr` times its gradient |
| NeuralNet.Step | graphics/src/main.rs:136-171 | one sample's step keeps the shape invariant and the three sizes |
| NeuralNet.StepDeadUnit | graphics/src/main.rs:161-171 | a hidden unit with non-positive pre-activation keeps its bias, its column of `w1` and its row of `w2` |
| NeuralNet.StepZeroFeature | graphics/src/main.rs:162-170 | a zero input feature keeps its row of `w1` |
| NeuralNet.StepZeroRate | graphics/src/main.rs:167-171 | with `lr = 0` a step changes nothing |
| NeuralNet.Pairs | graphics/src/main.rs:136 | `zip` visits as many pairs as the shorter of rows and labels |
| NeuralNet.EpochPrefix | graphics/src/main.rs:136-172 | steps on the first k pairs in index order keep the shape invariant and the sizes |
| NeuralNet.Trained | graphics/src/main.rs:133-179 | any number of epochs keeps the shape invariant and the sizes |
| NeuralNet.BackpropOutputSums | graphics/src/main.rs:154-159 | when the output sums to 1, `db2` sums to 0 and so does every row of `dw2` |
| NeuralNet.DescendKeepsOutputSums | graphics/src/main.rs:168-169 | an update along such gradients keeps the sum of `b2` and of every row of `w2` |
| NeuralNet.StepKeepsOutputSums | graphics/src/main.rs:137-171 | so one step keeps the sum of `b2` and of every row of `w2` |
| NeuralNet.EpochPrefixKeepsOutputSums | graphics/src/main.rs:136-172 | and so does every prefix of an epoch |
| NeuralNet.LastEpochKeepsOutputSums | graphics/src/main.rs:133-172 | and so does each whole epoch |
| NeuralNet.TrainedKeepsOutputSums | graphics/src/main.rs:132-180 | training for any number of epochs, on any data and at any rate, keeps the sum of `b2` and of every row of `w2` |
| NeuralNet.EpochPrefixZeroRate | graphics/src/main.rs:136-171 | with `lr = 0` an epoch changes nothing |
| NeuralNet.TrainedUnchanged | graphics/src/main.rs:132-180 | with zero epochs or `lr = 0` training leaves the parameters as they were |
| NeuralNet.ArgMaxFrom | graphics/src/main.rs:187 | the scan that replaces the best index only on a strictly greater entry ends at the first maximum |
| NeuralNet.ArgMax | graphics/src/main.rs:187 | `argmax` of a non-empty vector is the first index attaining the maximum |
| NeuralNet.ElementCount | graphics/src/main.rs:197 | `images.len()` of a rows × cols array is 0 exactly when rows or cols is 0, at least rows when cols > 0, and equal to rows exactly when rows is 0 or cols is 1 |
| NeuralNet.Ratio | graphics/src/main.rs:197 | `correct as f32 / len as f32` is a number exactly when `len > 0`, and then it times `len` is `correct` |
| NeuralNet.RatioBounds | graphics/src/main.rs:197 | a count out of a positive total of at least that count lies in [0, 1] and is 1 exactly when the two are equal |
| NeuralNet.NeuralNetwork.constructor | graphics/src/main.rs:109-117 | the network has shapes `in×hid`, `hid`, `hid×out`, `out`, the given weights and zero biases |
| NeuralNet.NeuralNetwork.TrainSample | graphics/src/main.rs:137-171 | the in-place updates of `w2, b2, w1, b1`, in that order, leave the fields equal to `Step` of the old parameters |
| NeuralNet.NeuralNetwork.Train | graphics/src/main.rs:132-180 | after the nested epoch and sample loops the fields equal `Trained` of the old parameters, and the shapes are unchanged |
| NeuralNet.NeuralNetwork.Predict | graphics/src/main.rs:182-188 | the result is an output index whose `a2` entry is at least every other entry and greater than every earlier one; it reads the fields and changes nothing |
| NeuralNet.NeuralNetwork.CountCorrect | graphics/src/main.rs:191-196 | the count of correct predictions among k pairs is at most k, and equals k exactly when every prediction is right |
| NeuralNet.NeuralNetwork.Test | graphics/src/main.rs:190-198 | the counting loop returns the count of correct predictions over `images.len()` = rows × columns (None for a zero denominator) |
| NeuralNet.NeuralNetwork.PerfectTestReportsOneOverCols | graphics/src/main.rs:197 | on data classified perfectly with c > 1 features per row, `test` reports 1/c, where the per-sample accuracy is 1 |
| NeuralNet.NeuralNetwork.SampleAccuracy | graphics/src/main.rs:190-198 | correct predictions over pairs: defined exactly when there is a pair, in [0, 1], and 1 exactly when every prediction is right |
| JavaInt.Wrap | HadesMaths/src/main/java/com/nenuadrian/Main.java:135 | Java `int` arithmetic: the result is congruent to the exact value modulo 2^32 and equals it when it is in range |
| JavaInt.WrapCongruent | HadesMaths/src/main/java/com/nenuadrian/Main.java:135 | values that differ by a multiple of 2^32 wrap to the same `int` |
| JavaInt.WrapAddRight | HadesMaths/src/main/java/com/nenuadrian/Main.java:135 | wrapping the product before `+=` does not change the wrapped sum |
| JavaInt.WrapAddLeft | HadesMaths/src/main/java/com/nenuadrian/Main.java:135 | wrapping the accumulator before `+=` does not change the wrapped sum |
| JavaInt.WrapExamples | HadesMaths/src/main/java/com/nenuadrian/Main.java:135 | overflow wraps: `MAX_VALUE + 1` is `MIN_VALUE`, and 65536·65536 is 0 |
| JavaInt.ParseInt | HadesMaths/src/main/java/com/nenuadrian/Main.java:101 | `Integer.parseInt` succeeds only on non-empty text |
| JavaInt.NatDigits | HadesMaths/src/main/java/com/nenuadrian/Main.java:138 | the digits `String.valueOf` prints for a non-negative number are non-empty decimal digits, starting with `0` only for 0 itself |
| JavaInt.NatDigitsValue | HadesMaths/src/main/java/com/nenuadrian/Main.java:138 | the digits `String.valueOf` prints for a non-negative number denote that number |
| JavaInt.Decimal | HadesMaths/src/main/java/com/nenuadrian/Main.java:138 | `String.valueOf` of an `int` is non-empty and starts with `-` exactly for negative numbers |
| JavaInt.ParseDecimal | HadesMaths/src/main/java/com/nenuadrian/Main.java:101 | parsing the text printed for any `int` gives that `int` back |
| JavaInt.ParsePlus | HadesMaths/src/main/java/com/nenuadrian/Main.java:101 | a leading `+` is accepted |
| JavaInt.ParseRejectsNonDigit | HadesMaths/src/main/java/com/nenuadrian/Main.java:100-104 | any non-digit after the optional sign, a space included, makes parsing fail |
| JavaInt.ParseRejectsOverflow | HadesMaths/src/main/java/com/nenuadrian/Main.java:100-104 | digits above `MAX_VALUE` fail; with a minus sign they fail above 2^31 |
| JavaInt.ParseIntExamples | HadesMaths/src/main/java/com/nenuadrian/Main.java:100-104 | the empty string and a lone sign fail, leading zeros are accepted, `-0` is 0, and surrounding spaces fail |
| JavaInt.ParseIntMinMagnitude | HadesMaths/src/main/java/com/nenuadrian/Main.java:100-104 | the digits of 2^31 parse only with a minus sign, as `MIN_VALUE`; one more fails either way |
| MatrixVisualizer.ParseMatrix | HadesMaths/src/main/java/com/nenuadrian/Main.java:96-108 | a new 2×2 matrix whose entry (i, j) is the parsed field (i, j), or 0 when it does not parse; it never fails |
| MatrixVisualizer.FieldValue | HadesMaths/src/main/java/com/nenuadrian/Main.java:100-104 | a field yields the parsed `int` when `Integer.parseInt` succeeds, and 0 when it throws |
| MatrixVisualizer.FieldValueCases | HadesMaths/src/main/java/com/nenuadrian/Main.java:100-104 | a field holding a printed `int` yields it, and an unparsable or empty field yields 0 |
| MatrixVisualizer.CellDot | HadesMaths/src/main/java/com/nenuadrian/Main.java:133-136 | over the whole row and column, the exact dot product `A[row][0]·B[0][col] + A[row][1]·B[1][col]` |
| MatrixVisualizer.ProductCell | HadesMaths/src/main/java/com/nenuadrian/Main.java:133-136 | the `int` the loop yields is congruent to that exact dot product modulo 2^32, and equals it when it lies in the `int` range |
| MatrixVisualizer.AnimateCellMultiplication | HadesMaths/src/main/java/com/nenuadrian/Main.java:132-137 | `C[row][col]` becomes the row-column dot product modulo 2^32, and no other cell of C changes |
| MatrixVisualizer.ProductCellExact | HadesMaths/src/main/java/com/nenuadrian/Main.java:133-136 | with entries below 2^15 in magnitude no overflow happens and the cell is the exact dot product |
| MatrixVisualizer.Schedule | HadesMaths/src/main/java/com/nenuadrian/Main.java:119-128 | the schedule has one pause per cell |
| MatrixVisualizer.ScheduleRowMajor | HadesMaths/src/main/java/com/nenuadrian/Main.java:119-128 | cell (i, j) is the (2i + j)-th pause, with delay `500·(2i + j)` ms |
| MatrixVisualizer.ScheduleCoversEachCellOnce | HadesMaths/src/main/java/com/nenuadrian/Main.java:119-128 | every cell is scheduled, no cell twice, the delays strictly increase, and every pause names a cell in range |
| MatrixVisualizer.StartMultiplication | HadesMaths/src/main/java/com/nenuadrian/Main.java:111-129 | parses A and B, makes a new all-zero C, and the loop with its `delay` counter builds exactly the row-major schedule |
| MatrixVisualizer.RunSchedule | HadesMaths/src/main/java/com/nenuadrian/Main.java:123-124 | firing the pauses in order leaves every scheduled cell holding its product and every other cell unchanged |
| MatrixVisualizer.MultiplyWithAnimation | HadesMaths/src/main/java/com/nenuadrian/Main.java:111-137 | starting from the all-zero C, once every timer has fired, C is A × B of the parsed matrices in `int` arithmetic |

## Left out

- The Bevy application, its systems and its text layout (`graphics/src/main.rs:1-98`). This is UI code.
- Random weight initialisation in `new`. The model takes the weights from the caller, who must keep them in [-0.1, 0.1). The RNG is outside the model.
- The body of `softmax`. It needs `exp`, so the model takes it as a parameter. Its local `max` is misnamed: it holds the sum of the exponentials, the divisor at line 129, not a maximum. The model takes softmax whole, so the name plays no part.
- The cross-entropy loss, its accumulator `total_loss` and the per-epoch `println!`. They only produce a diagnostic that is printed.
- `f32` rounding, NaN and infinity. The model computes with exact reals.
  - The only special float values kept are the NaN or infinity that `test` produces on a zero denominator. They become `None`.
  - A NaN inside the network, which would make `argmax` fail, is not modelled.
- NeuralNet.NeuralNetwork.Test: the `correct` counter is an unbounded `nat`. In the source the literal `0` makes it an `i32`, which overflows on the 2^31-th correct prediction. A debug build then panics, and a release build wraps to a negative count. That takes 2^31 rows: about 8 GiB of one-column `f32` data, or only the 2 GiB of labels when rows have no columns.
- JavaInt.ParseInt: accepts only ASCII digits. `Character.digit` also accepts other Unicode decimal digits, such as Arabic-Indic digits. Text typed into the fields is ASCII in practice.
- The JavaFX scene, the text fields and labels, `PauseTransition` timing, `setText` and `main`. This is UI and event-loop code.
  - The timers' firing is modelled only as the order of their delays, by `RunSchedule`.
  - `String.valueOf` is modelled (`Decimal`) but the label is not.
- `HadesMaths/build.gradle.kts`. It is build configuration.

## Findings

| source | as written | input that shows it | evidently intended | confidence | as-written member | corrected member |
|---|---|---|---|---|---|---|
| graphics/src/main.rs:197 | `correct as f32 / images.len() as f32` divides by `len()` of a two-dimensional array, which is rows × columns | any data set with c > 1 features per row that the network classifies perfectly: `test` returns 1/c, not 1 | correct predictions over the number of samples (rows), a fraction in [0, 1] that is 1 on perfect predictions | high (not executed) | NeuralNet.NeuralNetwork.Test, NeuralNet.NeuralNetwork.PerfectTestReportsOneOverCols | NeuralNet.NeuralNetwork.SampleAccuracy |
