/** The two-layer feed-forward classifier `NeuralNetwork` of
    graphics/src/main.rs: a ReLU hidden layer, a softmax output layer and
    online stochastic gradient descent on the cross-entropy loss.

    Arithmetic is exact (`real` instead of `f32`). The softmax function
    needs `exp`, which has no exact counterpart, so it is a parameter of
    every operation that runs the forward pass: any total map on vectors
    that keeps their length (type `Normalizer`). The facts about output
    sums below assume in addition that its outputs sum to 1, as softmax
    does in exact arithmetic.

    The parameters live in a class whose four fields `Train` updates in
    place; the functions on `Params` values are the specification of one
    training step, one epoch and a whole training run. */
module NeuralNet {
  import opened LinearAlgebra
  import opened Wrappers

  /** Rust's `u8`, the type of the labels. */
  type u8 = x: int | 0 <= x < 256

  /** The output activation: a total map on vectors that keeps the length. */
  type Normalizer = f: Vector -> Vector | KeepsLength(f) witness (v: Vector) => v

  ghost predicate KeepsLength(f: Vector -> Vector) {
    forall v :: |f(v)| == |v|
  }

  /** The output activation produces probability distributions (in
      exact arithmetic softmax does). */
  ghost predicate SumsToOne(softmax: Normalizer) {
    forall v {:trigger softmax(v)} :: |v| > 0 ==> Sum(softmax(v)) == 1.0
  }

  // ---------------------------------------------------------------------
  // Activations

  /** `relu`: each entry becomes `max(v, 0)`. */
  function Relu(v: Vector): (r: Vector)
    ensures |r| == |v|
    ensures forall i :: 0 <= i < |v| ==>
      r[i] >= 0.0 && r[i] >= v[i] && (r[i] == v[i] || r[i] == 0.0)
  {
    seq(|v|, i requires 0 <= i < |v| => if v[i] >= 0.0 then v[i] else 0.0)
  }

  /** `relu_derivative`: 1 where the input is strictly positive, 0
      elsewhere (0 included). */
  function ReluDerivative(v: Vector): (r: Vector)
    ensures |r| == |v|
    ensures forall i :: 0 <= i < |v| ==>
      (r[i] == 1.0 <==> v[i] > 0.0) && (r[i] == 0.0 <==> v[i] <= 0.0)
  {
    seq(|v|, i requires 0 <= i < |v| => if v[i] > 0.0 then 1.0 else 0.0)
  }

  /** The derivative is the gate of the activation: relu(v) is
      relu'(v) * v elementwise, and relu' is 1 exactly where relu is
      positive. */
  lemma ReluGate(v: Vector)
    ensures Hadamard(ReluDerivative(v), v) == Relu(v)
    ensures forall i :: 0 <= i < |v| ==> (ReluDerivative(v)[i] == 1.0 <==> Relu(v)[i] > 0.0)
  {
  }

  // ---------------------------------------------------------------------
  // Parameters and the forward pass

  datatype Params = Params(w1: Matrix, b1: Vector, w2: Matrix, b2: Vector)

  /** The shape invariant: `w1` is input x hidden, `b1` hidden, `w2` is
      hidden x output and `b2` output, where input = |w1|,
      hidden = |b1| and output = |b2|. */
  predicate Shaped(p: Params) {
    IsMatrix(p.w1, |p.w1|, |p.b1|) && IsMatrix(p.w2, |p.b1|, |p.b2|)
  }

  /** (input size, hidden size, output size). */
  function Shape(p: Params): (nat, nat, nat) {
    (|p.w1|, |p.b1|, |p.b2|)
  }

  datatype Activations = Activations(z1: Vector, a1: Vector, z2: Vector, a2: Vector)

  /** The forward pass shared by `train` and `predict`. */
  function Forward(p: Params, x: Vector, softmax: Normalizer): (act: Activations)
    requires Shaped(p) && |x| == |p.w1|
    ensures |act.z1| == |act.a1| == |p.b1| && |act.z2| == |act.a2| == |p.b2|
  {
    var z1 := Add(VecMat(x, p.w1, |p.b1|), p.b1);
    var a1 := Relu(z1);
    var z2 := Add(VecMat(a1, p.w2, |p.b2|), p.b2);
    Activations(z1, a1, z2, softmax(z2))
  }

  // ---------------------------------------------------------------------
  // Back-propagation

  /** `dz2 = a2 - y_true`, with `y_true` the one-hot vector of label `y`. */
  function OutputError(a2: Vector, y: nat): (dz2: Vector)
    requires y < |a2|
    ensures |dz2| == |a2|
    ensures dz2[y] == a2[y] - 1.0
    ensures forall k :: 0 <= k < |a2| && k != y ==> dz2[k] == a2[k]
  {
    Sub(a2, OneHot(|a2|, y))
  }

  /** The output error sums to the output's sum minus one. */
  lemma OutputErrorSum(a2: Vector, y: nat)
    requires y < |a2|
    ensures Sum(OutputError(a2, y)) == Sum(a2) - 1.0
  {
    SumSub(a2, OneHot(|a2|, y));
    SumOneHot(|a2|, y);
  }

  /** `dz1 = dz2.dot(w2.t()) * relu_derivative(z1)`: the output error sent
      back through `w2`, and only through the hidden units that were
      active. */
  function HiddenError(dz2: Vector, w2: Matrix, z1: Vector): (dz1: Vector)
    requires IsMatrix(w2, |z1|, |dz2|)
    ensures |dz1| == |z1|
    ensures forall j :: 0 <= j < |z1| ==>
      dz1[j] == if z1[j] > 0.0 then Dot(dz2, w2[j]) else 0.0
  {
    var r := Hadamard(VecMat(dz2, Transpose(w2, |dz2|), |z1|), ReluDerivative(z1));
    forall j | 0 <= j < |z1|
      ensures r[j] == if z1[j] > 0.0 then Dot(dz2, w2[j]) else 0.0
    {
      VecMatTranspose(dz2, w2, j);
    }
    r
  }

  /** The four gradients of one sample. */
  datatype Gradients = Gradients(dw1: Matrix, db1: Vector, dw2: Matrix, db2: Vector)

  /** The gradients have the shapes of the parameters they update. */
  predicate Fits(g: Gradients, p: Params) {
    && IsMatrix(g.dw1, |p.w1|, |p.b1|) && |g.db1| == |p.b1|
    && IsMatrix(g.dw2, |p.b1|, |p.b2|) && |g.db2| == |p.b2|
  }

  /** Back-propagation on the sample (x, y): `dw2 = outer(a1, dz2)`,
      `db2 = dz2`, `dw1 = outer(x, dz1)`, `db1 = dz1`, all computed from
      the parameters `p` before any update. */
  function Backprop(p: Params, x: Vector, y: nat, softmax: Normalizer): (g: Gradients)
    requires Shaped(p) && |x| == |p.w1| && y < |p.b2|
    ensures Fits(g, p)
  {
    var act := Forward(p, x, softmax);
    var dz2 := OutputError(act.a2, y);
    var dz1 := HiddenError(dz2, p.w2, act.z1);
    Gradients(Outer(x, dz1), dz1, Outer(act.a1, dz2), dz2)
  }

  /** Gradient descent: `param -= lr * grad` for each of the four
      parameters. */
  function Descend(p: Params, g: Gradients, lr: real): (r: Params)
    requires Shaped(p) && Fits(g, p)
    ensures Shaped(r) && Shape(r) == Shape(p)
  {
    Params(MatSub(p.w1, MatScale(lr, g.dw1), |p.b1|), Sub(p.b1, Scale(lr, g.db1)),
           MatSub(p.w2, MatScale(lr, g.dw2), |p.b2|), Sub(p.b2, Scale(lr, g.db2)))
  }

  /** One online gradient-descent step on the sample (x, y). */
  function Step(p: Params, x: Vector, y: nat, lr: real, softmax: Normalizer): (r: Params)
    requires Shaped(p) && |x| == |p.w1| && y < |p.b2|
    ensures Shaped(r) && Shape(r) == Shape(p)
  {
    Descend(p, Backprop(p, x, y, softmax), lr)
  }

  // ---------------------------------------------------------------------
  // Epochs and training runs

  /** The number of (row, label) pairs that `zip` visits: the shorter of the two. */
  function Pairs(images: seq<Vector>, labels: seq<u8>): (n: nat)
    ensures n <= |images| && n <= |labels| && (n == |images| || n == |labels|)
  {
    if |images| <= |labels| then |images| else |labels|
  }

  /** Every visited sample fits a network with these sizes: its row has
      `inputSize` features and its label names an output. */
  predicate SamplesFit(images: seq<Vector>, labels: seq<u8>, inputSize: nat, outputSize: nat) {
    forall k :: 0 <= k < Pairs(images, labels) ==>
      |images[k]| == inputSize && labels[k] < outputSize
  }

  /** The parameters after steps on the first `k` samples, in index order. */
  function EpochPrefix(p: Params, images: seq<Vector>, labels: seq<u8>, k: nat, lr: real,
                       softmax: Normalizer): (r: Params)
    requires Shaped(p) && k <= Pairs(images, labels)
    requires SamplesFit(images, labels, |p.w1|, |p.b2|)
    ensures Shaped(r) && Shape(r) == Shape(p)
    decreases k
  {
    if k == 0 then p
    else Step(EpochPrefix(p, images, labels, k - 1, lr, softmax), images[k - 1], labels[k - 1], lr, softmax)
  }

  /** The parameters after `epochs` full passes over the samples. */
  function Trained(p: Params, images: seq<Vector>, labels: seq<u8>, epochs: nat, lr: real,
                   softmax: Normalizer): (r: Params)
    requires Shaped(p)
    requires epochs > 0 ==> SamplesFit(images, labels, |p.w1|, |p.b2|)
    ensures Shaped(r) && Shape(r) == Shape(p)
    decreases epochs
  {
    if epochs == 0 then p
    else
      var before := Trained(p, images, labels, epochs - 1, lr, softmax);
      EpochPrefix(before, images, labels, Pairs(images, labels), lr, softmax)
  }

  // ---------------------------------------------------------------------
  // Properties of one step

  /** The gradient formulas of one sample, entry by entry:
      dw2[i][j] = a1[i] * dz2[j] and db2 = dz2;
      db1[j] = dz1[j] = (sum over k of dz2[k] * w2[j][k]) * relu'(z1[j]),
      with the w2 of the parameters before the update;
      dw1[i][j] = x[i] * dz1[j].
      Dafny finds this proof unaided too, but the case split on z1[j]
      below makes it markedly cheaper and so steadier. */
  lemma BackpropGradients(p: Params, x: Vector, y: nat, softmax: Normalizer)
    requires Shaped(p) && |x| == |p.w1| && y < |p.b2|
    ensures var g := Backprop(p, x, y, softmax);
      var act := Forward(p, x, softmax);
      var dz2 := OutputError(act.a2, y);
      && g.db2 == dz2
      && (forall i, j :: 0 <= i < |p.b1| && 0 <= j < |p.b2| ==> g.dw2[i][j] == act.a1[i] * dz2[j])
      && (forall j :: 0 <= j < |p.b1| ==> g.db1[j] == Dot(dz2, p.w2[j]) * ReluDerivative(act.z1)[j])
      && (forall i, j :: 0 <= i < |p.w1| && 0 <= j < |p.b1| ==> g.dw1[i][j] == x[i] * g.db1[j])
  {
    var act := Forward(p, x, softmax);
    var dz2 := OutputError(act.a2, y);
    var dz1 := HiddenError(dz2, p.w2, act.z1);
    forall j | 0 <= j < |p.b1|
      ensures dz1[j] == Dot(dz2, p.w2[j]) * ReluDerivative(act.z1)[j]
    {
      if act.z1[j] > 0.0 {
        assert ReluDerivative(act.z1)[j] == 1.0;
      } else {
        assert ReluDerivative(act.z1)[j] == 0.0;
      }
    }
  }

  /** Gradient descent changes each parameter entry by minus the learning
      rate times its gradient, and nothing else. */
  lemma DescendUpdates(p: Params, g: Gradients, lr: real)
    requires Shaped(p) && Fits(g, p)
    ensures var r := Descend(p, g, lr);
      && (forall i, j :: 0 <= i < |p.w1| && 0 <= j < |p.b1| ==> r.w1[i][j] == p.w1[i][j] - lr * g.dw1[i][j])
      && (forall j :: 0 <= j < |p.b1| ==> r.b1[j] == p.b1[j] - lr * g.db1[j])
      && (forall i, j :: 0 <= i < |p.b1| && 0 <= j < |p.b2| ==> r.w2[i][j] == p.w2[i][j] - lr * g.dw2[i][j])
      && (forall j :: 0 <= j < |p.b2| ==> r.b2[j] == p.b2[j] - lr * g.db2[j])
  {
  }

  /** A hidden unit whose pre-activation is not positive learns nothing
      from the sample: its bias, its column of `w1` and its row of `w2`
      are left as they were. */
  lemma StepDeadUnit(p: Params, x: Vector, y: nat, lr: real, softmax: Normalizer, j: nat)
    requires Shaped(p) && |x| == |p.w1| && y < |p.b2|
    requires j < |p.b1| && Forward(p, x, softmax).z1[j] <= 0.0
    ensures var r := Step(p, x, y, lr, softmax);
      && r.b1[j] == p.b1[j]
      && (forall i :: 0 <= i < |p.w1| ==> r.w1[i][j] == p.w1[i][j])
      && r.w2[j] == p.w2[j]
  {
    var r := Step(p, x, y, lr, softmax);
    var act := Forward(p, x, softmax);
    var dz2 := OutputError(act.a2, y);
    assert act.a1[j] == 0.0;
    forall k | 0 <= k < |p.b2| ensures r.w2[j][k] == p.w2[j][k] {
      assert Outer(act.a1, dz2)[j][k] == 0.0;
    }
  }

  /** An input feature that is zero leaves its row of `w1` unchanged. */
  lemma StepZeroFeature(p: Params, x: Vector, y: nat, lr: real, softmax: Normalizer, i: nat)
    requires Shaped(p) && |x| == |p.w1| && y < |p.b2|
    requires i < |x| && x[i] == 0.0
    ensures Step(p, x, y, lr, softmax).w1[i] == p.w1[i]
  {
  }

  /** With a zero learning rate a step changes nothing. */
  lemma StepZeroRate(p: Params, x: Vector, y: nat, softmax: Normalizer)
    requires Shaped(p) && |x| == |p.w1| && y < |p.b2|
    ensures Step(p, x, y, 0.0, softmax) == p
  {
    var r := Step(p, x, y, 0.0, softmax);
    forall i | 0 <= i < |p.w1| ensures r.w1[i] == p.w1[i] {
      assert |r.w1[i]| == |p.w1[i]|;
    }
    forall i | 0 <= i < |p.w2| ensures r.w2[i] == p.w2[i] {
      assert |r.w2[i]| == |p.w2[i]|;
    }
  }

  /** The quantities a step with a probability-distribution output keeps:
      the sum of `b2` and the sum of every row of `w2`. */
  function OutputSums(p: Params): (real, seq<real>) {
    (Sum(p.b2), seq(|p.w2|, i requires 0 <= i < |p.w2| => Sum(p.w2[i])))
  }

  /** When the output activation sums to 1 the output error sums to 0
      (the one-hot target also sums to 1), and so does every row of
      `dw2 = outer(a1, dz2)`. */
  lemma BackpropOutputSums(p: Params, x: Vector, y: nat, softmax: Normalizer)
    requires Shaped(p) && |x| == |p.w1| && y < |p.b2|
    requires SumsToOne(softmax)
    ensures var g := Backprop(p, x, y, softmax);
      Sum(g.db2) == 0.0 && forall i :: 0 <= i < |p.b1| ==> Sum(g.dw2[i]) == 0.0
  {
    var act := Forward(p, x, softmax);
    var dz2 := OutputError(act.a2, y);
    var g := Backprop(p, x, y, softmax);
    assert g.db2 == dz2 && g.dw2 == Outer(act.a1, dz2);
    assert Sum(act.a2) == 1.0;
    OutputErrorSum(act.a2, y);
    forall i | 0 <= i < |p.b1| ensures Sum(g.dw2[i]) == 0.0 {
      OuterRowSumZero(act.a1, dz2, i);
    }
  }

  /** A descent along gradients whose `db2` and rows of `dw2` sum to zero
      keeps the sum of `b2` and of every row of `w2`. */
  lemma DescendKeepsOutputSums(p: Params, g: Gradients, lr: real)
    requires Shaped(p) && Fits(g, p)
    requires Sum(g.db2) == 0.0 && forall i :: 0 <= i < |p.b1| ==> Sum(g.dw2[i]) == 0.0
    ensures OutputSums(Descend(p, g, lr)) == OutputSums(p)
  {
    var r := Descend(p, g, lr);
    SumSub(p.b2, Scale(lr, g.db2));
    SumScale(lr, g.db2);
    forall i | 0 <= i < |p.w2| ensures Sum(r.w2[i]) == Sum(p.w2[i]) {
      assert r.w2[i] == Sub(p.w2[i], Scale(lr, g.dw2[i]));
      SumSub(p.w2[i], Scale(lr, g.dw2[i]));
      SumScale(lr, g.dw2[i]);
    }
    assert OutputSums(r).1 == OutputSums(p).1;
  }

  /** So a step with a probability-distribution output moves `b2` and
      each row of `w2` without changing its sum. */
  lemma StepKeepsOutputSums(p: Params, x: Vector, y: nat, lr: real, softmax: Normalizer)
    requires Shaped(p) && |x| == |p.w1| && y < |p.b2|
    requires SumsToOne(softmax)
    ensures OutputSums(Step(p, x, y, lr, softmax)) == OutputSums(p)
  {
    BackpropOutputSums(p, x, y, softmax);
    DescendKeepsOutputSums(p, Backprop(p, x, y, softmax), lr);
  }

  // ---------------------------------------------------------------------
  // Properties of whole training runs

  lemma {:induction false} EpochPrefixKeepsOutputSums(p: Params, images: seq<Vector>, labels: seq<u8>,
                                                       k: nat, lr: real, softmax: Normalizer)
    requires Shaped(p) && k <= Pairs(images, labels)
    requires SamplesFit(images, labels, |p.w1|, |p.b2|)
    requires SumsToOne(softmax)
    ensures OutputSums(EpochPrefix(p, images, labels, k, lr, softmax)) == OutputSums(p)
  {
    if k > 0 {
      var before := EpochPrefix(p, images, labels, k - 1, lr, softmax);
      EpochPrefixKeepsOutputSums(p, images, labels, k - 1, lr, softmax);
      StepKeepsOutputSums(before, images[k - 1], labels[k - 1], lr, softmax);
    }
  }

  lemma LastEpochKeepsOutputSums(p: Params, images: seq<Vector>, labels: seq<u8>,
                                 epochs: nat, lr: real, softmax: Normalizer)
    requires Shaped(p) && epochs > 0
    requires SamplesFit(images, labels, |p.w1|, |p.b2|)
    requires SumsToOne(softmax)
    ensures OutputSums(Trained(p, images, labels, epochs, lr, softmax))
         == OutputSums(Trained(p, images, labels, epochs - 1, lr, softmax))
  {
    var before := Trained(p, images, labels, epochs - 1, lr, softmax);
    EpochPrefixKeepsOutputSums(before, images, labels, Pairs(images, labels), lr, softmax);
  }

  /** Training with a probability-distribution output never changes the
      sum of `b2` nor the sum of any row of `w2`, whatever the data, the
      learning rate and the number of epochs. */
  lemma {:induction false} TrainedKeepsOutputSums(p: Params, images: seq<Vector>, labels: seq<u8>,
                                                   epochs: nat, lr: real, softmax: Normalizer)
    requires Shaped(p)
    requires epochs > 0 ==> SamplesFit(images, labels, |p.w1|, |p.b2|)
    requires SumsToOne(softmax)
    ensures OutputSums(Trained(p, images, labels, epochs, lr, softmax)) == OutputSums(p)
  {
    if epochs > 0 {
      TrainedKeepsOutputSums(p, images, labels, epochs - 1, lr, softmax);
      LastEpochKeepsOutputSums(p, images, labels, epochs, lr, softmax);
    }
  }

  lemma {:induction false} EpochPrefixZeroRate(p: Params, images: seq<Vector>, labels: seq<u8>,
                                                k: nat, softmax: Normalizer)
    requires Shaped(p) && k <= Pairs(images, labels)
    requires SamplesFit(images, labels, |p.w1|, |p.b2|)
    ensures EpochPrefix(p, images, labels, k, 0.0, softmax) == p
  {
    if k > 0 {
      EpochPrefixZeroRate(p, images, labels, k - 1, softmax);
      StepZeroRate(p, images[k - 1], labels[k - 1], softmax);
    }
  }

  /** Training for zero epochs, or with a zero learning rate, leaves the
      parameters as they were. */
  lemma {:induction false} TrainedUnchanged(p: Params, images: seq<Vector>, labels: seq<u8>,
                                             epochs: nat, lr: real, softmax: Normalizer)
    requires Shaped(p)
    requires epochs > 0 ==> SamplesFit(images, labels, |p.w1|, |p.b2|)
    requires epochs == 0 || lr == 0.0
    ensures Trained(p, images, labels, epochs, lr, softmax) == p
  {
    if epochs > 0 {
      TrainedUnchanged(p, images, labels, epochs - 1, lr, softmax);
      EpochPrefixZeroRate(p, images, labels, Pairs(images, labels), softmax);
    }
  }

  // ---------------------------------------------------------------------
  // argmax

  /** `r` is the first index at which `v` attains its maximum among the
      first `n` entries. */
  predicate FirstMaxUpTo(v: Vector, n: nat, r: nat) {
    && r < n <= |v|
    && (forall k :: 0 <= k < n ==> v[k] <= v[r])
    && (forall k :: 0 <= k < r ==> v[k] < v[r])
  }

  /** The scan of `argmax` from index `i` on: `best` is the first maximum
      of the entries before `i`, and a later entry replaces it only when
      strictly greater. */
  function ArgMaxFrom(v: Vector, i: nat, best: nat): (r: nat)
    requires FirstMaxUpTo(v, i, best)
    ensures FirstMaxUpTo(v, |v|, r)
    decreases |v| - i
  {
    if i == |v| then best
    else if v[i] > v[best] then ArgMaxFrom(v, i + 1, i)
    else ArgMaxFrom(v, i + 1, best)
  }

  /** `argmax` of a non-empty vector: the first index of a maximum entry. */
  function ArgMax(v: Vector): (r: nat)
    requires |v| > 0
    ensures FirstMaxUpTo(v, |v|, r)
  {
    ArgMaxFrom(v, 1, 0)
  }

  /** ndarray's `len()` of a two-dimensional array: the number of its
      elements, rows x columns. */
  function ElementCount(rows: nat, cols: nat): (n: nat)
    ensures n == 0 <==> rows == 0 || cols == 0
    ensures cols > 0 ==> n >= rows
    ensures n == rows <==> rows == 0 || cols == 1
  {
    rows * cols
  }

  /** `correct as f32 / len as f32`; None stands for the NaN (0/0) or
      infinity (n/0) that `f32` division gives for a zero denominator. */
  function Ratio(correct: nat, len: nat): (r: Option<real>)
    ensures r.Some? <==> len > 0
    ensures r.Some? ==> r.value * (len as real) == correct as real
  {
    if len == 0 then None else Some(correct as real / len as real)
  }

  /** A count out of a positive total gives a ratio in [0, 1] that is 1
      exactly when the count is the total. */
  lemma RatioBounds(correct: nat, len: nat)
    requires correct <= len && len > 0
    ensures var r := Ratio(correct, len);
      r.Some? && 0.0 <= r.value <= 1.0 && (r.value == 1.0 <==> correct == len)
  {
  }

  // ---------------------------------------------------------------------
  // The network object

  /** The network's four parameter arrays, updated in place by `Train`. */
  class NeuralNetwork {
    var w1: Matrix
    var b1: Vector
    var w2: Matrix
    var b2: Vector

    function Parameters(): Params
      reads this
    {
      Params(w1, b1, w2, b2)
    }

    ghost predicate Valid()
      reads this
    {
      Shaped(Parameters())
    }

    /** `new`, with the weights drawn by the caller from the uniform
        distribution on [-0.1, 0.1); the biases start at zero. */
    constructor (inputSize: nat, hiddenSize: nat, outputSize: nat, w1: Matrix, w2: Matrix)
      requires IsMatrix(w1, inputSize, hiddenSize) && IsMatrix(w2, hiddenSize, outputSize)
      requires forall i, j :: 0 <= i < |w1| && 0 <= j < |w1[i]| ==> -0.1 <= w1[i][j] < 0.1
      requires forall i, j :: 0 <= i < |w2| && 0 <= j < |w2[i]| ==> -0.1 <= w2[i][j] < 0.1
      ensures Valid() && Shape(Parameters()) == (inputSize, hiddenSize, outputSize)
      ensures Parameters() == Params(w1, Zeros(hiddenSize), w2, Zeros(outputSize))
    {
      this.w1 := w1;
      this.b1 := Zeros(hiddenSize);
      this.w2 := w2;
      this.b2 := Zeros(outputSize);
    }

    /** `train`: `epochs` passes, no early exit; each pass visits the
        (row, label) pairs in index order and takes one step per pair.
        The loss diagnostic is not modelled. */
    method Train(images: seq<Vector>, labels: seq<u8>, epochs: nat, lr: real, softmax: Normalizer)
      requires Valid()
      requires epochs > 0 ==> SamplesFit(images, labels, |w1|, |b2|)
      modifies this
      ensures Valid() && Shape(Parameters()) == old(Shape(Parameters()))
      ensures Parameters() == Trained(old(Parameters()), images, labels, epochs, lr, softmax)
    {
      var n := Pairs(images, labels);
      for epoch := 0 to epochs
        invariant Valid() && Shape(Parameters()) == old(Shape(Parameters()))
        invariant Parameters() == Trained(old(Parameters()), images, labels, epoch, lr, softmax)
      {
        ghost var start := Parameters();
        for k := 0 to n
          invariant Valid() && Shape(Parameters()) == Shape(start)
          invariant Parameters() == EpochPrefix(start, images, labels, k, lr, softmax)
        {
          TrainSample(images[k], labels[k], lr, softmax);
        }
      }
    }

    /** The body of the sample loop of `train`: forward pass,
        back-propagation from the current parameters, then the in-place
        updates of w2, b2, w1 and b1, in that order. */
    method TrainSample(x: Vector, y: nat, lr: real, softmax: Normalizer)
      requires Valid() && |x| == |w1| && y < |b2|
      modifies this
      ensures Valid() && Shape(Parameters()) == old(Shape(Parameters()))
      ensures Parameters() == Step(old(Parameters()), x, y, lr, softmax)
    {
      // Forward pass
      var act := Forward(Parameters(), x, softmax);
      // Back-propagation
      var dz2 := OutputError(act.a2, y);
      var dw2 := Outer(act.a1, dz2);
      var db2 := dz2;
      var dz1 := HiddenError(dz2, w2, act.z1);
      var dw1 := Outer(x, dz1);
      var db1 := dz1;
      assert Backprop(Parameters(), x, y, softmax) == Gradients(dw1, db1, dw2, db2);
      // Gradient descent
      w2 := MatSub(w2, MatScale(lr, dw2), |b2|);
      b2 := Sub(b2, Scale(lr, db2));
      w1 := MatSub(w1, MatScale(lr, dw1), |b1|);
      b1 := Sub(b1, Scale(lr, db1));
    }

    /** `predict`: the first index of the largest output of the forward
        pass. */
    function Predict(x: Vector, softmax: Normalizer): (r: nat)
      reads this
      requires Valid() && |x| == |w1| && |b2| > 0
      ensures r < |b2|
      ensures FirstMaxUpTo(Forward(Parameters(), x, softmax).a2, |b2|, r)
    {
      ArgMax(Forward(Parameters(), x, softmax).a2)
    }

    /** The number of correct predictions among the first `k` pairs. */
    function CountCorrect(images: seq<Vector>, labels: seq<u8>, k: nat, softmax: Normalizer): (c: nat)
      reads this
      requires Valid() && k <= Pairs(images, labels)
      requires forall i :: 0 <= i < k ==> |images[i]| == |w1|
      requires k > 0 ==> |b2| > 0
      ensures c <= k
      ensures c == k <==> forall i :: 0 <= i < k ==> Predict(images[i], softmax) == labels[i]
      decreases k
    {
      if k == 0 then 0
      else
        CountCorrect(images, labels, k - 1, softmax)
          + (if Predict(images[k - 1], softmax) == labels[k - 1] then 1 else 0)
    }

    /** `test`: counts the pairs whose prediction equals the label and
        divides by `images.len()`, which for a two-dimensional array is
        rows x columns. */
    method Test(images: seq<Vector>, cols: nat, labels: seq<u8>, softmax: Normalizer)
      returns (accuracy: Option<real>)
      requires Valid()
      requires forall i :: 0 <= i < |images| ==> |images[i]| == cols
      requires Pairs(images, labels) > 0 ==> cols == |w1| && |b2| > 0
      ensures accuracy == Ratio(CountCorrect(images, labels, Pairs(images, labels), softmax), ElementCount(|images|, cols))
    {
      var correct := 0;
      for k := 0 to Pairs(images, labels)
        invariant correct == CountCorrect(images, labels, k, softmax)
      {
        assert CountCorrect(images, labels, k + 1, softmax)
          == correct + if Predict(images[k], softmax) == labels[k] then 1 else 0;
        if Predict(images[k], softmax) == labels[k] {
          correct := correct + 1;
        }
      }
      accuracy := Ratio(correct, ElementCount(|images|, cols));
    }

    /** The accuracy the evaluation evidently means: correct predictions
        over the number of samples. It lies in [0, 1] and is 1 exactly
        when every prediction is right. */
    function SampleAccuracy(images: seq<Vector>, labels: seq<u8>, softmax: Normalizer): (r: Option<real>)
      reads this
      requires Valid()
      requires forall i :: 0 <= i < Pairs(images, labels) ==> |images[i]| == |w1|
      requires Pairs(images, labels) > 0 ==> |b2| > 0
      ensures r.Some? <==> Pairs(images, labels) > 0
      ensures r.Some? ==> 0.0 <= r.value <= 1.0
      ensures r.Some? ==> (r.value == 1.0 <==>
        forall i :: 0 <= i < Pairs(images, labels) ==> Predict(images[i], softmax) == labels[i])
    {
      var n := Pairs(images, labels);
      var c := CountCorrect(images, labels, n, softmax);
      if n > 0 then RatioBounds(c, n); Ratio(c, n) else Ratio(c, n)
    }

    /** What `test` reports on data it classifies perfectly: with `cols`
        features per row it divides by rows x cols, so a perfect score
        reads as 1/cols instead of 1. */
    lemma PerfectTestReportsOneOverCols(images: seq<Vector>, cols: nat, labels: seq<u8>, softmax: Normalizer)
      requires Valid()
      requires forall i :: 0 <= i < |images| ==> |images[i]| == cols
      requires |images| == |labels| > 0 && cols == |w1| > 1 && |b2| > 0
      requires forall i :: 0 <= i < |images| ==> Predict(images[i], softmax) == labels[i]
      ensures Ratio(CountCorrect(images, labels, Pairs(images, labels), softmax), ElementCount(|images|, cols))
              == Some(1.0 / cols as real)
      ensures SampleAccuracy(images, labels, softmax) == Some(1.0)
    {
    }
  }
}
