/**
 * A network with one hidden layer of sigmoid units, trained by full-batch
 * back-propagation for a fixed number of epochs.
 *
 * The specification functions (`InitialParams`, `Layer`, `Forward`,
 * `Gradients`, `Epoch`, `Run`) say what training and prediction compute;
 * the class `NeuralNet` is the object the program updates in place, and its
 * methods are proved against those functions.
 */
module Network {
  import opened Wrappers
  import opened Errors
  import opened Matrices
  import opened Activations
  import opened Axis

  /** Architecture and learning parameters of a network. */
  datatype Config = Config(
    inputNeurons: int,
    outputNeurons: int,
    hiddenNeurons: int,
    numEpochs: int,
    learningRate: real)
  {
    /** Every layer has a neuron: the matrix library refuses matrices with no rows or columns. */
    predicate Sized() {
      inputNeurons > 0 && outputNeurons > 0 && hiddenNeurons > 0
    }

    /** How often a loop `for i := 0; i < numEpochs; i++` runs its body. */
    function Epochs(): nat {
      if numEpochs > 0 then numEpochs else 0
    }
  }

  /** The four learned tensors: hidden weights and bias, output weights and bias. */
  datatype Params = Params(wHidden: Matrix, bHidden: Matrix, wOut: Matrix, bOut: Matrix)

  /** The shapes the configuration gives the four tensors. */
  predicate Shaped(p: Params, cfg: Config) {
    && cfg.Sized()
    && IsMatrix(p.wHidden, cfg.inputNeurons, cfg.hiddenNeurons)
    && IsMatrix(p.bHidden, 1, cfg.hiddenNeurons)
    && IsMatrix(p.wOut, cfg.hiddenNeurons, cfg.outputNeurons)
    && IsMatrix(p.bOut, 1, cfg.outputNeurons)
  }

  /** Samples as rows: `x` has `inputNeurons` columns and at least one row. */
  predicate InputData(cfg: Config, x: Matrix) {
    cfg.Sized() && |x| > 0 && IsMatrix(x, |x|, cfg.inputNeurons)
  }

  /** Inputs and labels with one row per sample, the labels `outputNeurons` wide. */
  predicate TrainingData(cfg: Config, x: Matrix, y: Matrix) {
    InputData(cfg, x) && IsMatrix(y, |x|, cfg.outputNeurons)
  }

  /**
   * The random source, injected: `rand(k)` is the value of the k-th call of
   * the generator's uniform draw, which lies in [0, 1).
   */
  type Draws = f: nat -> real | forall k :: 0.0 <= f(k) < 1.0 witness (k: nat) => 0.0

  /** `n` consecutive draws starting with draw number `start`. */
  function Stream(rand: Draws, start: nat, n: nat): (s: seq<real>)
    ensures |s| == n
    ensures forall k :: 0 <= k < n ==> s[k] == rand(start + k)
  {
    seq(n, k requires 0 <= k < n => rand(start + k))
  }

  /** The number of entries of a `rows` x `cols` tensor. */
  function Size(rows: int, cols: int): nat
    requires rows > 0 && cols > 0
  {
    rows * cols
  }

  /**
   * The tensors training starts from: the buffers for hidden weights, hidden
   * bias, output weights and output bias are filled with consecutive draws
   * in that order, and each buffer is read as a matrix row by row.
   */
  function InitialParams(rand: Draws, cfg: Config): (p: Params)
    requires cfg.Sized()
    ensures Shaped(p, cfg)
    ensures InUnitInterval(p.wHidden) && InUnitInterval(p.bHidden)
    ensures InUnitInterval(p.wOut) && InUnitInterval(p.bOut)
  {
    var i, h, o := cfg.inputNeurons, cfg.hiddenNeurons, cfg.outputNeurons;
    Params(
      Reshape(Stream(rand, 0, Size(i, h)), i, h),
      Reshape(Stream(rand, Size(i, h), Size(1, h)), 1, h),
      Reshape(Stream(rand, Size(i, h) + h, Size(h, o)), h, o),
      Reshape(Stream(rand, Size(i, h) + h + Size(h, o), Size(1, o)), 1, o))
  }

  /**
   * One layer: the product with the weights, the bias row added to every
   * row, then the sigmoid of every entry.
   */
  function Layer(exp: Exp, a: Matrix, w: Matrix, b: Matrix): (r: Matrix)
    requires Rect(a) && Rect(w) && Cols(a) == |w| && IsMatrix(b, 1, Cols(w))
    ensures IsMatrix(r, |a|, Cols(w))
    ensures InOpenUnitInterval(r)
  {
    Apply(SigmoidOf(exp), AddRowBias(MatMul(a, w), b))
  }

  /**
   * The forward pass through the hidden and the output layer: one row of
   * `outputNeurons` activations per sample, each strictly between 0 and 1.
   */
  function Forward(exp: Exp, cfg: Config, p: Params, x: Matrix): (r: Matrix)
    requires Shaped(p, cfg) && InputData(cfg, x)
    ensures IsMatrix(r, |x|, cfg.outputNeurons)
    ensures InOpenUnitInterval(r)
  {
    Layer(exp, Layer(exp, x, p.wHidden, p.bHidden), p.wOut, p.bOut)
  }

  /**
   * Entry (r, c) of a layer: the sigmoid of entry (r, c) of the product (input
   * row r dotted with weight column c, by `MatMul`'s contract) plus bias entry c.
   */
  lemma LayerEntry(exp: Exp, a: Matrix, w: Matrix, b: Matrix, r: nat, c: nat)
    requires Rect(a) && Rect(w) && Cols(a) == |w| && IsMatrix(b, 1, Cols(w))
    requires r < |a| && c < Cols(w)
    ensures Layer(exp, a, w, b)[r][c] == Sigmoid(exp, MatMul(a, w)[r][c] + b[0][c])
  {
    var z := AddRowBias(MatMul(a, w), b);
    assert z[r][c] == MatMul(a, w)[r][c] + b[0][c];
  }

  /**
   * Entry (r, c) of the prediction: the sigmoid of hidden row r dotted with
   * output weight column c, plus output bias entry c. The hidden activations
   * are given entry by entry by `LayerEntry` on the hidden layer.
   */
  lemma ForwardEntry(exp: Exp, cfg: Config, p: Params, x: Matrix, r: nat, c: nat)
    requires Shaped(p, cfg) && InputData(cfg, x)
    requires r < |x| && c < cfg.outputNeurons
    ensures Forward(exp, cfg, p, x)[r][c] ==
            Sigmoid(exp, MatMul(Layer(exp, x, p.wHidden, p.bHidden), p.wOut)[r][c] + p.bOut[0][c])
  {
    LayerEntry(exp, Layer(exp, x, p.wHidden, p.bHidden), p.wOut, p.bOut, r, c);
  }

  /**
   * The delta at the output layer: the error (labels minus output) times the
   * sigmoid slope at every output.
   */
  function OutputDelta(y: Matrix, output: Matrix): (d: Matrix)
    requires SameShape(y, output)
    ensures IsMatrix(d, |y|, Cols(y))
  {
    MulElem(Sub(y, output), Apply(SigmoidPrime, output))
  }

  /**
   * The delta at the hidden layer: the output delta carried back through the
   * output weights `wOut`, times the sigmoid slope at every hidden unit.
   */
  function HiddenDelta(dOutput: Matrix, wOut: Matrix, hiddenAct: Matrix): (d: Matrix)
    requires |dOutput| > 0 && |wOut| > 0 && Cols(wOut) > 0 && Rect(wOut)
    requires IsMatrix(dOutput, |dOutput|, Cols(wOut))
    requires IsMatrix(hiddenAct, |dOutput|, |wOut|)
    ensures IsMatrix(d, |dOutput|, |wOut|)
  {
    MulElem(MatMul(dOutput, Transpose(wOut)), Apply(SigmoidPrime, hiddenAct))
  }

  /**
   * The adjustment of a layer's weights: the transposed layer input times the
   * layer's delta, scaled by the learning rate.
   */
  function WeightAdjustment(lr: real, input: Matrix, delta: Matrix): (g: Matrix)
    requires |input| > 0 && Cols(input) > 0 && Rect(input)
    requires IsMatrix(delta, |input|, Cols(delta))
    ensures IsMatrix(g, Cols(input), Cols(delta))
  {
    Scale(lr, MatMul(Transpose(input), delta))
  }

  /** The adjustment of a layer's bias: the column sums of its delta, scaled. */
  function BiasAdjustment(lr: real, delta: Matrix): (g: Matrix)
    requires Rect(delta)
    ensures IsMatrix(g, 1, Cols(delta))
  {
    Scale(lr, ColumnSums(delta))
  }

  /**
   * The four scaled adjustments of one epoch, all computed from the same
   * parameters `p`: in particular the hidden delta goes back through `p.wOut`,
   * the output weights before this epoch's update.
   */
  function Gradients(exp: Exp, cfg: Config, x: Matrix, y: Matrix, p: Params): (g: Params)
    requires Shaped(p, cfg) && TrainingData(cfg, x, y)
    ensures Shaped(g, cfg)
  {
    var lr := cfg.learningRate;
    var hiddenAct := Layer(exp, x, p.wHidden, p.bHidden);
    var output := Layer(exp, hiddenAct, p.wOut, p.bOut);
    var dOutput := OutputDelta(y, output);
    var dHidden := HiddenDelta(dOutput, p.wOut, hiddenAct);
    Params(
      WeightAdjustment(lr, x, dHidden),
      BiasAdjustment(lr, dHidden),
      WeightAdjustment(lr, hiddenAct, dOutput),
      BiasAdjustment(lr, dOutput))
  }

  /** One epoch: every tensor plus its adjustment. Shapes are preserved. */
  function Epoch(exp: Exp, cfg: Config, x: Matrix, y: Matrix, p: Params): (r: Params)
    requires Shaped(p, cfg) && TrainingData(cfg, x, y)
    ensures Shaped(r, cfg)
  {
    var g := Gradients(exp, cfg, x, y, p);
    Params(Add(p.wHidden, g.wHidden), Add(p.bHidden, g.bHidden), Add(p.wOut, g.wOut), Add(p.bOut, g.bOut))
  }

  /** `n` epochs in a row, starting from `p`. No data is read when `n` is 0. */
  function Run(exp: Exp, cfg: Config, x: Matrix, y: Matrix, p: Params, n: nat): (r: Params)
    requires Shaped(p, cfg) && (n > 0 ==> TrainingData(cfg, x, y))
    ensures Shaped(r, cfg)
    decreases n
  {
    if n == 0 then p else Epoch(exp, cfg, x, y, Run(exp, cfg, x, y, p, n - 1))
  }

  /** All four adjustments are zero. */
  predicate Vanishes(g: Params) {
    IsZero(g.wHidden) && IsZero(g.bHidden) && IsZero(g.wOut) && IsZero(g.bOut)
  }

  /**
   * When the network already reproduces the labels, the output error is zero,
   * so is every back-propagated delta, and so is every adjustment.
   */
  lemma PerfectFitGradientsVanish(exp: Exp, cfg: Config, x: Matrix, y: Matrix, p: Params)
    requires Shaped(p, cfg) && TrainingData(cfg, x, y)
    requires y == Forward(exp, cfg, p, x)
    ensures IsZero(OutputDelta(y, Forward(exp, cfg, p, x)))
    ensures Vanishes(Gradients(exp, cfg, x, y, p))
  {
    var hiddenAct := Layer(exp, x, p.wHidden, p.bHidden);
    var output := Layer(exp, hiddenAct, p.wOut, p.bOut);
    assert y == output;
    SubSelf(output);
    var dOutput := MulElem(Sub(y, output), Apply(SigmoidPrime, output));
    MulElemZeroLeft(Sub(y, output), Apply(SigmoidPrime, output));
    var errorAtHidden := MatMul(dOutput, Transpose(p.wOut));
    MatMulZeroLeft(dOutput, Transpose(p.wOut));
    var dHidden := MulElem(errorAtHidden, Apply(SigmoidPrime, hiddenAct));
    MulElemZeroLeft(errorAtHidden, Apply(SigmoidPrime, hiddenAct));
    MatMulZeroRight(Transpose(x), dHidden);
    MatMulZeroRight(Transpose(hiddenAct), dOutput);
    ColumnSumsZero(dHidden);
    ColumnSumsZero(dOutput);
    var lr := cfg.learningRate;
    ScaleZero(lr, MatMul(Transpose(x), dHidden));
    ScaleZero(lr, ColumnSums(dHidden));
    ScaleZero(lr, MatMul(Transpose(hiddenAct), dOutput));
    ScaleZero(lr, ColumnSums(dOutput));
  }

  /** With a zero learning rate every adjustment is zero, whatever the data. */
  lemma ZeroRateGradientsVanish(exp: Exp, cfg: Config, x: Matrix, y: Matrix, p: Params)
    requires Shaped(p, cfg) && TrainingData(cfg, x, y)
    requires cfg.learningRate == 0.0
    ensures Vanishes(Gradients(exp, cfg, x, y, p))
  {
    var hiddenAct := Layer(exp, x, p.wHidden, p.bHidden);
    var dOutput := OutputDelta(y, Layer(exp, hiddenAct, p.wOut, p.bOut));
    var dHidden := HiddenDelta(dOutput, p.wOut, hiddenAct);
    ScaleByZero(MatMul(Transpose(x), dHidden));
    ScaleByZero(ColumnSums(dHidden));
    ScaleByZero(MatMul(Transpose(hiddenAct), dOutput));
    ScaleByZero(ColumnSums(dOutput));
  }

  /** An epoch whose adjustments are all zero leaves the tensors as they were. */
  lemma EpochOfVanishingGradients(exp: Exp, cfg: Config, x: Matrix, y: Matrix, p: Params)
    requires Shaped(p, cfg) && TrainingData(cfg, x, y)
    requires Vanishes(Gradients(exp, cfg, x, y, p))
    ensures Epoch(exp, cfg, x, y, p) == p
  {
    AddVanishing(cfg, p, Gradients(exp, cfg, x, y, p));
  }

  /** Adding four zero adjustments of the right shapes changes no tensor. */
  lemma AddVanishing(cfg: Config, p: Params, g: Params)
    requires Shaped(p, cfg) && Shaped(g, cfg) && Vanishes(g)
    ensures Params(Add(p.wHidden, g.wHidden), Add(p.bHidden, g.bHidden), Add(p.wOut, g.wOut), Add(p.bOut, g.bOut)) == p
  {
    AddZero(p.wHidden, g.wHidden);
    AddZero(p.bHidden, g.bHidden);
    AddZero(p.wOut, g.wOut);
    AddZero(p.bOut, g.bOut);
  }

  /**
   * Tensors that already reproduce the labels are a fixed point of an
   * epoch: training on them changes nothing.
   */
  lemma PerfectFitIsFixedPoint(exp: Exp, cfg: Config, x: Matrix, y: Matrix, p: Params)
    requires Shaped(p, cfg) && TrainingData(cfg, x, y)
    requires y == Forward(exp, cfg, p, x)
    ensures Epoch(exp, cfg, x, y, p) == p
  {
    PerfectFitGradientsVanish(exp, cfg, x, y, p);
    EpochOfVanishingGradients(exp, cfg, x, y, p);
  }

  /** With a zero learning rate an epoch changes nothing, whatever the data. */
  lemma ZeroRateIsFixedPoint(exp: Exp, cfg: Config, x: Matrix, y: Matrix, p: Params)
    requires Shaped(p, cfg) && TrainingData(cfg, x, y)
    requires cfg.learningRate == 0.0
    ensures Epoch(exp, cfg, x, y, p) == p
  {
    ZeroRateGradientsVanish(exp, cfg, x, y, p);
    EpochOfVanishingGradients(exp, cfg, x, y, p);
  }

  /** Fills `param` with consecutive draws, starting with draw number `start`. */
  method FillUniform(param: array<real>, rand: Draws, start: nat) returns (next: nat)
    modifies param
    ensures next == start + param.Length
    ensures param[..] == Stream(rand, start, param.Length)
  {
    next := start;
    for i := 0 to param.Length
      invariant next == start + i
      invariant forall k :: 0 <= k < i ==> param[k] == rand(start + k)
    {
      param[i] := rand(next);
      next := next + 1;
    }
  }

  /**
   * One initial tensor: a fresh buffer of `rows * cols` entries filled with
   * consecutive draws from draw number `start` on, read as a matrix row by
   * row. `next` is the number of the first draw not used.
   */
  method DrawTensor(rand: Draws, start: nat, rows: int, cols: int) returns (m: Matrix, next: nat)
    requires rows > 0 && cols > 0
    ensures next == start + Size(rows, cols)
    ensures m == Reshape(Stream(rand, start, Size(rows, cols)), rows, cols)
  {
    var raw := new real[Size(rows, cols)](_ => 0.0);
    next := FillUniform(raw, rand, start);
    m := Reshape(raw[..], rows, cols);
  }

  /**
   * The initial tensors of training: four buffers of the sizes the
   * configuration gives, filled with consecutive draws, each read as a matrix.
   */
  method InitialTensors(rand: Draws, config: Config) returns (p: Params)
    requires config.Sized()
    ensures p == InitialParams(rand, config)
  {
    var i, h, o := config.inputNeurons, config.hiddenNeurons, config.outputNeurons;
    var wHidden, next := DrawTensor(rand, 0, i, h);
    var bHidden, wOut, bOut;
    bHidden, next := DrawTensor(rand, next, 1, h);
    wOut, next := DrawTensor(rand, next, h, o);
    bOut, next := DrawTensor(rand, next, 1, o);
    p := Params(wHidden, bHidden, wOut, bOut);
  }

  /**
   * The forward pass as the program computes it: product with the weights,
   * bias added to every row, sigmoid of every entry, once per layer. It
   * returns the hidden activations and the output.
   */
  method FeedForward(exp: Exp, config: Config, p: Params, x: Matrix)
    returns (hiddenLayerActivations: Matrix, output: Matrix)
    requires Shaped(p, config) && InputData(config, x)
    ensures hiddenLayerActivations == Layer(exp, x, p.wHidden, p.bHidden)
    ensures output == Forward(exp, config, p, x)
  {
    var hiddenLayerInput := MatMul(x, p.wHidden);
    hiddenLayerInput := AddRowBias(hiddenLayerInput, p.bHidden);
    hiddenLayerActivations := Apply(SigmoidOf(exp), hiddenLayerInput);
    var outputLayerInput := MatMul(hiddenLayerActivations, p.wOut);
    outputLayerInput := AddRowBias(outputLayerInput, p.bOut);
    output := Apply(SigmoidOf(exp), outputLayerInput);
  }

  /**
   * Back-propagation as the program computes it: the output error, the slopes
   * at both layers, the output delta, the error carried back through `wOut`
   * and the hidden delta.
   */
  method Backpropagate(y: Matrix, output: Matrix, hiddenLayerActivations: Matrix, wOut: Matrix)
    returns (dOutput: Matrix, dHiddenLayer: Matrix)
    requires |wOut| > 0 && Cols(wOut) > 0 && Rect(wOut) && |y| > 0
    requires IsMatrix(y, |y|, Cols(wOut)) && IsMatrix(output, |y|, Cols(wOut))
    requires IsMatrix(hiddenLayerActivations, |y|, |wOut|)
    ensures dOutput == OutputDelta(y, output)
    ensures dHiddenLayer == HiddenDelta(dOutput, wOut, hiddenLayerActivations)
  {
    var networkError := Sub(y, output);
    var slopeOutputLayer := Apply(SigmoidPrime, output);
    var slopeHiddenLayer := Apply(SigmoidPrime, hiddenLayerActivations);
    dOutput := MulElem(networkError, slopeOutputLayer);
    var errorAtHiddenLayer := MatMul(dOutput, Transpose(wOut));
    dHiddenLayer := MulElem(errorAtHiddenLayer, slopeHiddenLayer);
  }

  /**
   * The update of one layer, in the program's order: the weights get their
   * adjustment, then the delta is reduced along axis 0 and the bias gets its
   * adjustment. An error of the reduction is returned as it is; with axis 0
   * there is none.
   */
  method UpdateLayer(lr: real, w: Matrix, b: Matrix, input: Matrix, delta: Matrix)
    returns (r: Result<(Matrix, Matrix), Error>)
    requires |input| > 0 && Cols(input) > 0 && Rect(input)
    requires Cols(delta) > 0 && IsMatrix(delta, |input|, Cols(delta))
    requires IsMatrix(w, Cols(input), Cols(delta)) && IsMatrix(b, 1, Cols(delta))
    ensures r == Success((Add(w, WeightAdjustment(lr, input, delta)), Add(b, BiasAdjustment(lr, delta))))
  {
    var wAdj := MatMul(Transpose(input), delta);
    wAdj := Scale(lr, wAdj);
    var wNew := Add(w, wAdj);

    var bSum := SumAlongAxis(0, delta);
    var bAdj: Matrix;
    match bSum {
      case Failure(e) => return Failure(e);
      case Success(s) => bAdj := s;
    }
    bAdj := Scale(lr, bAdj);
    r := Success((wNew, Add(b, bAdj)));
  }

  /**
   * The body of the epoch loop: forward pass, back-propagation, then the
   * output layer's update and the hidden layer's update. It computes exactly
   * one `Epoch`; the hidden delta is taken before `wOut` changes.
   */
  method TrainEpoch(exp: Exp, config: Config, x: Matrix, y: Matrix, p: Params)
    returns (r: Result<Params, Error>)
    requires Shaped(p, config) && TrainingData(config, x, y)
    ensures r == Success(Epoch(exp, config, x, y, p))
  {
    var hiddenLayerActivations, output := FeedForward(exp, config, p, x);
    var dOutput, dHiddenLayer := Backpropagate(y, output, hiddenLayerActivations, p.wOut);

    var wOut, bOut, wHidden, bHidden;
    var outputUpdate := UpdateLayer(config.learningRate, p.wOut, p.bOut, hiddenLayerActivations, dOutput);
    match outputUpdate {
      case Failure(e) => return Failure(e);
      case Success(q) => wOut, bOut := q.0, q.1;
    }
    var hiddenUpdate := UpdateLayer(config.learningRate, p.wHidden, p.bHidden, x, dHiddenLayer);
    match hiddenUpdate {
      case Failure(e) => return Failure(e);
      case Success(q) => wHidden, bHidden := q.0, q.1;
    }
    r := Success(Params(wHidden, bHidden, wOut, bOut));
  }

  /**
   * The epoch loop: `Epochs()` rounds of `TrainEpoch` on local tensors,
   * returning early with the error of a failed round. No round fails, so it
   * returns the tensors after exactly `Epochs()` epochs, and `init` itself
   * when `numEpochs` is not positive.
   */
  method RunEpochs(exp: Exp, config: Config, x: Matrix, y: Matrix, init: Params)
    returns (r: Result<Params, Error>)
    requires Shaped(init, config)
    requires config.numEpochs > 0 ==> TrainingData(config, x, y)
    ensures r == Success(Run(exp, config, x, y, init, config.Epochs()))
    ensures r.Success? && Shaped(r.value, config)
    ensures config.numEpochs <= 0 ==> r == Success(init)
  {
    var p := init;
    var epoch := 0;
    while epoch < config.numEpochs
      invariant 0 <= epoch <= config.Epochs()
      invariant p == Run(exp, config, x, y, init, epoch)
    {
      var step := TrainEpoch(exp, config, x, y, p);
      match step {
        case Failure(e) => return Failure(e);
        case Success(q) => p := q;
      }
      epoch := epoch + 1;
    }
    assert epoch == config.Epochs();
    r := Success(p);
  }

  /**
   * Training on local tensors: the initial draws, then the epoch loop. The
   * result is what `Run` gives from `InitialParams`, shaped as configured.
   */
  method Fit(exp: Exp, config: Config, rand: Draws, x: Matrix, y: Matrix) returns (r: Result<Params, Error>)
    requires config.Sized()
    requires config.numEpochs > 0 ==> TrainingData(config, x, y)
    ensures r == Success(Run(exp, config, x, y, InitialParams(rand, config), config.Epochs()))
    ensures r.Success? && Shaped(r.value, config)
    ensures config.numEpochs <= 0 ==> r == Success(InitialParams(rand, config))
  {
    var p := InitialTensors(rand, config);
    r := RunEpochs(exp, config, x, y, p);
  }

  /**
   * A network: its configuration and, once trained, its four tensors. A
   * missing tensor is `None`.
   */
  class NeuralNet {
    const config: Config
    var wHidden: Option<Matrix>
    var bHidden: Option<Matrix>
    var wOut: Option<Matrix>
    var bOut: Option<Matrix>

    /** All four tensors are present. */
    predicate Trained()
      reads this
    {
      wHidden.Some? && bHidden.Some? && wOut.Some? && bOut.Some?
    }

    /** The installed tensors of a trained network. */
    function Installed(): Params
      reads this
      requires Trained()
    {
      Params(wHidden.value, bHidden.value, wOut.value, bOut.value)
    }

    /**
     * Training is all or nothing: either no tensor is installed, or all four
     * are, with the shapes the configuration gives them.
     */
    ghost predicate Valid()
      reads this
    {
      || (wHidden.None? && bHidden.None? && wOut.None? && bOut.None?)
      || (Trained() && Shaped(Installed(), config))
    }

    /** A new network holds its configuration and no tensor. */
    constructor NewNetwork(config: Config)
      ensures this.config == config
      ensures wHidden == None && bHidden == None && wOut == None && bOut == None
      ensures Valid() && !Trained()
    {
      this.config := config;
      wHidden, bHidden, wOut, bOut := None, None, None, None;
    }

    /**
     * Draws the initial tensors, runs the epoch loop exactly `Epochs()`
     * times on local tensors, and only then installs all four. The bias
     * reductions use axis 0, so the error return inside the loop is never
     * taken.
     */
    method Train(exp: Exp, rand: Draws, x: Matrix, y: Matrix) returns (err: Option<Error>)
      requires config.Sized()
      requires config.numEpochs > 0 ==> TrainingData(config, x, y)
      modifies this
      ensures err == None
      ensures Valid() && Trained()
      ensures Installed() == Run(exp, config, x, y, InitialParams(rand, config), config.Epochs())
      ensures config.numEpochs <= 0 ==> Installed() == InitialParams(rand, config)
    {
      var trained := Fit(exp, config, rand, x, y);
      match trained {
        case Failure(e) => return Some(e);
        case Success(p) => Install(p);
      }
      err := None;
    }

    /** Installs all four tensors at once. */
    method Install(p: Params)
      requires Shaped(p, config)
      modifies this
      ensures Trained() && Installed() == p
      ensures Valid()
    {
      wHidden, bHidden, wOut, bOut := Some(p.wHidden), Some(p.bHidden), Some(p.wOut), Some(p.bOut);
    }

    /**
     * Refuses an untrained network, whatever `x` is; otherwise the forward
     * pass with the installed tensors. The network is not changed.
     */
    method Predict(exp: Exp, x: Matrix) returns (r: Result<Matrix, Error>)
      requires Valid()
      requires Trained() ==> InputData(config, x)
      ensures !Trained() ==> r == Failure(Untrained)
      ensures Trained() ==> r == Success(Forward(exp, config, Installed(), x))
      ensures r.Success? ==> IsMatrix(r.value, |x|, config.outputNeurons) && InOpenUnitInterval(r.value)
    {
      if wHidden.None? || wOut.None? || bHidden.None? || bOut.None? {
        return Failure(Untrained);
      }
      var _, output := FeedForward(exp, config, Installed(), x);
      r := Success(output);
    }
  }

  /**
   * A fresh network trained on (x, y) and asked to predict `xTest`: one row of
   * `outputNeurons` values in (0, 1) per test sample, computed from the tensors
   * after exactly `Epochs()` epochs; with no epoch, from the initial draws.
   */
  method TrainThenPredict(config: Config, exp: Exp, rand: Draws, x: Matrix, y: Matrix, xTest: Matrix)
    returns (r: Result<Matrix, Error>)
    requires config.Sized()
    requires config.numEpochs > 0 ==> TrainingData(config, x, y)
    requires InputData(config, xTest)
    ensures r == Success(Forward(exp, config, Run(exp, config, x, y, InitialParams(rand, config), config.Epochs()), xTest))
    ensures config.numEpochs <= 0 ==> r == Success(Forward(exp, config, InitialParams(rand, config), xTest))
    ensures r.Success? && IsMatrix(r.value, |xTest|, config.outputNeurons) && InOpenUnitInterval(r.value)
  {
    var network := new NeuralNet.NewNetwork(config);
    var err := network.Train(exp, rand, x, y);
    match err {
      case Some(e) => return Failure(e);
      case None =>
    }
    r := network.Predict(exp, xTest);
  }
}
