# A one-hidden-layer sigmoid network trainer, modelled in Dafny

The program trains a feed-forward network with one hidden layer of sigmoid
units by full-batch back-propagation. It then uses the network to classify
samples. The Go package `nn` holds the trainer, and `main.go` repeats the same
code next to a driver that loads the iris data set and measures accuracy.
This project models that core once and proves properties of it:

- `matrices.dfy` (`Matrices`): dense real matrices as sequences of rows, and
  the matrix library operations the trainer calls. The library panics on a
  shape mismatch, so each operation requires fitting shapes and states the
  shape and the entries of its result.
- `activations.dfy` (`Activations`): `sigmoid` and `sigmoidPrime`. The
  exponential is a parameter, any function with positive values.
- `utils.dfy` (`Axis`): `sumAlongAxis`, with its two index loops over arrays.
- `network.dfy` (`Network`):
  - The configuration and the four tensors.
  - The specification functions for the initial draws (`InitialParams`), the
    forward pass (`Layer`, `Forward`) and one epoch of training (`Gradients`,
    `Epoch`), and `Run` for `n` epochs.
  - The class `NeuralNet`, whose four tensors are `Option` fields. Its
    methods `NewNetwork`, `Train` and `Predict` are proved against those
    functions.
  - `Train`'s epoch loop updates local tensors and installs all four only
    at the end.
- `dataset.dfy` (`Dataset`): the loop that splits already-parsed CSV records
  into row-major input and label buffers and reads them as matrices.
- `accuracy.dfy` (`Accuracy`): the hit-counting loop of `predictTest`.
- `wrappers.dfy`: `Option`, `Result` and the error values
  (`Wrappers`, `Errors`).

Where the Go code returns `(value, error)`, the model returns a `Result`.
Where it returns only an `error`, the model returns an `Option<Error>`.

## Model

| member | source | states |
|---|---|---|
| Activations.Sigmoid | nn/activations.go:7-9 | 1/(1+exp(-x)) lies strictly between 0 and 1 for every positive exponential; the copy at main.go:23-25 is the same |
| Activations.SigmoidPrime | nn/activations.go:13-15 | s·(1−s) is 0 at s = 0 and at s = 1 and strictly positive for s in (0, 1); the copy at main.go:29-31 is the same |
| Activations.SigmoidPrimeBounds | nn/activations.go:13-15 | on [0, 1] the derivative lies in [0, 1/4] |
| Activations.SigmoidPrimeSymmetric | nn/activations.go:13-15 | sigmoidPrime(s) = sigmoidPrime(1 − s) |
| Activations.SigmoidPrimeOfSigmoid | nn/activations.go:7-15 | applied to a sigmoid output, as back-propagation does, the derivative is strictly positive and at most 1/4 |
| Matrices.Sum | nn/utils.go:27 | the sum of a vector, as `floats.Sum` gives it; a vector of non-negative entries has a non-negative sum |
| Matrices.Col | nn/utils.go:26 | a copy of column j, as `mat.Col` gives it: one entry per row, entry i being entry (i, j) of the matrix |
| Matrices.Reshape | nn/nn.go:50-53 | a row-major buffer of rows·cols values read as a rows × cols matrix: entry (i, j) is element i·cols + j |
| Matrices.MatMul | nn/nn.go:63 | the product has the rows of `a` and the columns of `b`; entry (i, j) is row i of `a` dotted with column j of `b` |
| Matrices.Transpose | nn/nn.go:110 | the transpose swaps the dimensions and entry (j, i) is entry (i, j) of the original |
| Matrices.AddRowBias | nn/nn.go:65-68 | the bias closure: every entry of column j gets entry j of the bias row added, and the shape is unchanged |
| Matrices.Apply | nn/nn.go:71-74 | an element-wise function keeps the shape and maps every entry |
| Matrices.Add | nn/nn.go:123 | same-shaped operands are added entry by entry |
| Matrices.Sub | nn/nn.go:90 | same-shaped operands are subtracted entry by entry |
| Matrices.MulElem | nn/nn.go:106 | same-shaped operands are multiplied entry by entry |
| Matrices.Scale | nn/nn.go:122 | every entry is multiplied by the learning rate, and the shape is unchanged |
| Axis.ColumnSums | nn/utils.go:23-29 | a 1 × cols matrix whose entry j is the sum of column j |
| Axis.RowSums | nn/utils.go:30-36 | a rows × 1 matrix whose entry i is the sum of row i |
| Axis.SumAlongAxis | nn/utils.go:17-40 | axis 0 gives exactly the column sums, axis 1 exactly the row sums, and any other axis the bad-axis error and no matrix; `m` is a value and is not changed; the copy at main.go:182-206 is the same |
| Axis.SumOfColumnSumsIsSumOfRowSums | nn/utils.go:23-36 | both reductions account for every entry once: the total of the column sums equals the total of the row sums |
| Network.InitialParams | nn/nn.go:39-53 | wHidden is inputNeurons × hiddenNeurons, bHidden 1 × hiddenNeurons, wOut hiddenNeurons × outputNeurons and bOut 1 × outputNeurons, each entry in [0, 1), drawn in that order |
| Network.FillUniform | nn/nn.go:43-47 | the buffer holds consecutive draws from the given draw number on, and the next draw number is returned |
| Network.DrawTensor | nn/nn.go:39-53 | one tensor is a fresh buffer of rows·cols draws read row by row |
| Network.InitialTensors | nn/nn.go:39-53 | the four initial tensors are exactly `InitialParams`; the copy at main.go:52-66 is the same |
| Network.Layer | nn/nn.go:62-74 | one layer gives one row of activations per input row, each strictly between 0 and 1 |
| Network.Forward | nn/nn.go:166-189 | the forward pass gives an M × outputNeurons matrix for M input rows, all entries in (0, 1) |
| Network.LayerEntry | nn/nn.go:62-74 | entry (r, c) of a layer is the sigmoid of entry (r, c) of the product plus bias entry c; for the hidden layer this is the sigmoid of sample r dotted with hidden weight column c, plus hidden bias entry c |
| Network.ForwardEntry | nn/nn.go:166-189 | entry (r, c) of a prediction is the sigmoid of hidden row r dotted with output weight column c, plus output bias entry c |
| Network.FeedForward | nn/nn.go:61-85 | the program's statement sequence computes the hidden activations and the output of `Forward` |
| Network.OutputDelta | nn/nn.go:89-106 | the output delta, `(y − output)` times the sigmoid slope at every output, has the shape of the labels |
| Network.HiddenDelta | nn/nn.go:108-114 | the hidden delta, the output delta times the transposed output weights, times the sigmoid slope at every hidden unit, has one row per sample and one column per hidden unit |
| Network.WeightAdjustment | nn/nn.go:120-122 | a layer's weight adjustment, the transposed layer input times the delta scaled by the learning rate, has the shape of that layer's weights (the hidden layer's at nn/nn.go:134-136 is the same) |
| Network.BiasAdjustment | nn/nn.go:126-130 | a layer's bias adjustment, the column sums of the delta scaled by the learning rate, is one row with one entry per unit (the hidden layer's at nn/nn.go:140-144 is the same) |
| Network.Gradients | nn/nn.go:89-145 | the four adjustments have the shapes of the four tensors, and all are computed from the tensors at the start of the epoch |
| Network.Backpropagate | nn/nn.go:89-114 | the statement sequence computes the output delta and the hidden delta; the hidden delta goes back through the `wOut` it is given |
| Network.UpdateLayer | nn/nn.go:119-131 | the weights get their scaled adjustment, the bias gets its scaled axis-0 reduction, and the reduction's error path is never taken |
| Network.TrainEpoch | nn/nn.go:58-147 | one pass of the loop body computes exactly one `Epoch` from the tensors at its start, so the hidden delta uses `wOut` from before that epoch's update |
| Network.Epoch | nn/nn.go:120-145 | every tensor plus a same-shaped adjustment: an epoch preserves all four shapes |
| Network.Run | nn/nn.go:58-148 | `n` epochs in a row preserve all four shapes, and no data is read when `n` is 0 |
| Network.RunEpochs | nn/nn.go:58-148 | the loop runs its body exactly `numEpochs` times, never when `numEpochs` ≤ 0, so it then returns the initial tensors unchanged |
| Network.Fit | nn/nn.go:34-148 | the initial draws followed by the loop give `Run` from `InitialParams`, shaped as configured |
| Network.PerfectFitGradientsVanish | nn/nn.go:89-145 | when the output already equals the labels, the output delta and every adjustment are zero |
| Network.ZeroRateGradientsVanish | nn/nn.go:120-145 | with learning rate 0 every adjustment is zero |
| Network.AddVanishing | nn/nn.go:120-145 | adding four zero adjustments of the configured shapes to the tensors changes none of them |
| Network.EpochOfVanishingGradients | nn/nn.go:120-145 | an epoch whose adjustments are all zero leaves the tensors unchanged |
| Network.PerfectFitIsFixedPoint | nn/nn.go:58-148 | tensors that reproduce the labels are a fixed point of an epoch |
| Network.ZeroRateIsFixedPoint | nn/nn.go:58-148 | with learning rate 0 an epoch changes nothing |
| Network.NeuralNet.NewNetwork | nn/nn.go:29-31 | a new network keeps its configuration and has no tensor, so it is untrained; the copy at main.go:43-45 is the same |
| Network.NeuralNet.Train | nn/nn.go:34-156 | trains on local tensors and installs all four at the end, equal to `numEpochs` epochs from the initial draws (the draws themselves when `numEpochs` ≤ 0); afterwards the network is trained and correctly shaped; the copy at main.go:48-146 is the same |
| Network.NeuralNet.Install | nn/nn.go:151-154 | the four fields are assigned together from the trained tensors, so the network is trained with exactly those tensors |
| Network.NeuralNet.Predict | nn/nn.go:160-190 | an untrained network gives the untrained error and no matrix, whatever `x` is; a trained one gives `Forward` with the installed tensors, an M × outputNeurons matrix in (0, 1); the network is not changed; the copy at main.go:149-180 is the same |
| Network.TrainThenPredict | main.go:301-321 | a fresh network trained and then asked to predict returns the forward pass of the tensors after exactly `numEpochs` epochs |
| Dataset.Inputs | nn/utils.go:57-88 | the input matrix has one row per record including the header; row k − 1 holds fields 0–3 of record k, and the last row is zero |
| Dataset.Labels | nn/utils.go:57-88 | the label matrix has one row per record including the header; row k − 1 holds fields 4–6 of record k, and the last row is zero |
| Dataset.SplitRecord | nn/utils.go:67-83 | within one record, fields 4, 5 and 6 go in order to the label buffer and the others to the input buffer; it stops at the first field that does not parse and reports it; nothing outside the four input and three label slots is written |
| Dataset.SplitRecords | nn/utils.go:43-90 | the split succeeds exactly when every field after the header parses, and then gives `Inputs` and `Labels`; otherwise the error names the first field that did not parse; the copies at main.go:349-390 and main.go:261-291 are the same |
| Dataset.InputBufferIsInputs | nn/utils.go:81-87 | a filled input buffer of 4·n values, read as an n × 4 matrix, is `Inputs` |
| Dataset.LabelBufferIsLabels | nn/utils.go:75-88 | a filled label buffer of 3·n values, read as an n × 3 matrix, is `Labels` |
| Dataset.SplitIsLossless | nn/utils.go:67-83 | no field is lost or duplicated: a record's input row followed by its label row is the whole record |
| Dataset.HeaderIsIgnored | nn/utils.go:62-65 | the header never matters: records that agree after the header give the same matrices, even if one header does not parse |
| Accuracy.IndexOfOne | main.go:333-338 | the position of the first 1.0 in a row, or the row length when there is none |
| Accuracy.TrueClass | main.go:331-338 | the true class is the first label column equal to 1.0, and 0 when there is none |
| Accuracy.RowMax | main.go:341 | the row maximum is at least every entry and is one of them |
| Accuracy.IsHit | main.go:341 | the hit test: the prediction at the true class equals the row maximum |
| Accuracy.Hits | main.go:327-344 | the number of hits among the first `n` samples is at most `n` |
| Accuracy.FindSpecies | main.go:331-338 | the label loop with its `break` computes `TrueClass` |
| Accuracy.CountHits | main.go:327-344 | the counting loop gives exactly `Hits` over all predictions, so 0 ≤ truePosNeg ≤ numPreds |
| Accuracy.HitIffTrueClassIsMaximal | main.go:341-343 | a sample is a hit if and only if no class is predicted more strongly than its true class, so a tie for the maximum counts as a hit |
| Accuracy.AllMaximalGivesAllHits | main.go:327-344 | when every prediction row is largest at its true class, the count reaches the number of samples |
| Accuracy.Accuracy | main.go:345 | the reported accuracy lies in [0, 1] |

## Left out

- Floating point: `float64` is modelled as Dafny `real`. Nothing is claimed
  about rounding, NaN, convergence or whether accuracy improves.
- `math.Exp` is the parameter `exp` of type `Exp`, with positive values.
- The time-seeded random generator is the parameter `rand` of type `Draws`:
  draw number k is the k-th call of `Float64()`, a value in [0, 1).
- Shape mismatches and empty matrices make the matrix library panic. They are
  preconditions, not error results.
- Train: when `numEpochs` > 0 it requires `x` and `y` to have the configured
  widths and the same number of rows. When `numEpochs` ≤ 0 it reads neither.
- File and CSV I/O are not modelled: opening the file, `csv.NewReader`,
  `ReadAll` and its seven-fields check, and the text of `strconv.ParseFloat`.
  A field arrives as a parsed number or as `Malformed`.
- `log.Fatal` in `loadDataFromCSV` and `realDataTest` ends the process. It
  is modelled like the error that `loadDataIntoMatrices` returns, as the
  error result of `SplitRecords`.
- Dataset.SplitRecords: the Go error is `strconv.ParseFloat`'s `*NumError`,
  which carries the text of the field that did not parse. The model's error
  `Unparsable` carries the position of that field instead (record index and
  field index), because field text is not modelled.
- Printing is not modelled: `printTrained`, the accuracy `Printf`, `main`,
  `dummyDataTest` and the rest of `realDataTest`.
- nn/nn_test.go is not part of this model. Its `validate` loop repeats
  main.go:327-345, and it uses a configuration field that nn/nn.go does not
  declare.
- Go `int` overflow of the counters is not modelled. Counts are unbounded
  naturals.
- In-place updates of gonum matrices (`wOut.Add(wOut, …)`, the reuse of
  `output`) are modelled as value updates of local variables. No aliasing
  between them is observable.
- Network.TrainEpoch: the loop body is split into helper methods
  (`FeedForward`, `Backpropagate`, `UpdateLayer`). These helpers follow the
  program's statement order, so the solver can check each one separately.
- Network.Run: the model has no lemma that perfect-fit or zero-rate tensors
  stay fixed over `n` epochs. It proves this only for one epoch
  (`PerfectFitIsFixedPoint`, `ZeroRateIsFixedPoint`).
