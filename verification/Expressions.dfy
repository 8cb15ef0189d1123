/** The expression compiler: a tree over one column becomes a chain of column/scalar
    steps that a batch runs through two buffers. (expr/expr.c) */
module Expressions {
  import opened Vectors
  import opened Int4Kernels

  // ----- the tree -----

  /** The built-in functions the compiler looks at; anything else is Foreign. */
  datatype Func = Pl | Mi | Mul | Div | Mod | Um | Compares(op: Comparison) | Foreign

  datatype Type = Int4 | Bool | OtherType

  /** An expression node. `ok` is what the type and scope tests of the source decide for a
      leaf; a scalar leaf stands for its value, which may be NULL. */
  datatype Node =
    | Var(ok: bool)
    | Scalar(ok: bool, value: Option<int>)
    | Relabel(arg: Node)
    | Op(func: Func, result: Type, args: seq<Node>)
    | Other

  /** strip_relabel */
  function Strip(n: Node): (r: Node)
    ensures !r.Relabel?
    ensures r == n || r < n
  {
    match n
    case Relabel(arg) => Strip(arg)
    case _ => n
  }

  /** arithmetic_op */
  function OpOf(f: Func, nargs: nat): (r: Option<ArithmeticOp>)
    ensures r != None ==> (if r == Some(Negate) then nargs == 1 else nargs == 2)
  {
    match f
    case Um => if nargs == 1 then Some(Negate) else None
    case Pl => if nargs == 2 then Some(Add) else None
    case Mi => if nargs == 2 then Some(Subtract) else None
    case Mul => if nargs == 2 then Some(Multiply) else None
    case Div => if nargs == 2 then Some(Divide) else None
    case Mod => if nargs == 2 then Some(Modulo) else None
    case _ => None
  }

  /** analyze_value: how many Vars, or None outside the grammar of at most one. */
  function Analyze(n: Node): (r: Option<nat>)
    ensures r != None ==> r.value <= 1
    decreases n
  {
    match n
    case Relabel(arg) => Analyze(arg)
    case Var(ok) => if ok then Some(1) else None
    case Scalar(ok, _) => if ok then Some(0) else None
    case Op(f, result, args) =>
      if result != Int4 || OpOf(f, |args|) == None then None
      else if |args| == 1 then Analyze(args[0])
      else
        var l, r := Analyze(args[0]), Analyze(args[1]);
        if l == None || r == None || l.value + r.value > 1 then None else Some(l.value + r.value)
    case Other => None
  }

  // ----- what a tree means for one row -----

  /** Evaluation of a function call: all arguments first, then strictness, then the operator. */
  function Apply2(op: ArithmeticOp, l: Value, r: Value): Value {
    if l == Failed || r == Failed then Failed
    else if l.value == None || r.value == None then Ok(None)
    else Int4Arithmetic(op, l.value.value, r.value.value)
  }

  function Apply1(op: ArithmeticOp, v: Value): Value {
    if v == Failed || v.value == None then v else Int4Arithmetic(op, v.value.value, 0)
  }

  /** The value of a tree when the column holds `x`. */
  function Eval(n: Node, x: Option<int>): Value
    requires Analyze(n) != None
    decreases n
  {
    match n
    case Relabel(arg) => Eval(arg, x)
    case Var(_) => Ok(x)
    case Scalar(_, v) => Ok(v)
    case Op(f, _, args) =>
      var op := OpOf(f, |args|).value;
      if |args| == 1 then Apply1(op, Eval(args[0], x)) else Apply2(op, Eval(args[0], x), Eval(args[1], x))
  }

  /** A tree without a Var does not depend on the column. */
  lemma {:induction false} ScalarIgnoresColumn(n: Node, x: Option<int>, y: Option<int>)
    requires Analyze(n) == Some(0)
    ensures Eval(n, x) == Eval(n, y)
    decreases n
  {
    match n
    case Relabel(arg) => ScalarIgnoresColumn(arg, x, y);
    case Op(_, _, args) =>
      ScalarIgnoresColumn(args[0], x, y);
      if |args| == 2 {
        ScalarIgnoresColumn(args[1], x, y);
      }
    case _ =>
  }

  // ----- the values of a tree, from the built-in functions it names -----

  predicate Fits(v: Option<int>) {
    v != None ==> -0x8000_0000 <= v.value <= 0x7fff_ffff
  }

  /** All scalars of a tree are int4 values or NULL. */
  ghost predicate Int4Leaves(n: Node) {
    match n
    case Relabel(arg) => Int4Leaves(arg)
    case Scalar(_, v) => Fits(v)
    case Op(_, _, args) => forall i | 0 <= i < |args| :: Int4Leaves(args[i])
    case _ => true
  }

  /** `v` is the mathematical result of int4pl, int4mi, int4mul, int4div, int4mod or int4um. */
  ghost predicate Results(f: Func, left: int, right: int, v: int) {
    match f
    case Pl => v == left + right
    case Mi => v == left - right
    case Mul => v == left * right
    case Div => exists rest :: Leaves(left, right, v, rest)
    case Mod => exists quotient :: Leaves(left, right, quotient, v)
    case Um => v == -left
    case _ => false
  }

  /** `v` is what a strict function returns: NULL for a NULL argument, else an int4. */
  ghost predicate Returns(f: Func, left: Option<int>, right: Option<int>, v: Option<int>) {
    if left == None || right == None then v == None
    else v != None && Fits(v) && Results(f, left.value, right.value, v.value)
  }

  /** `v` is a value of the tree when the column holds `x`. An error is having no value. */
  ghost predicate Denotes(n: Node, x: Option<int>, v: Option<int>)
    requires Analyze(n) != None
    decreases n
  {
    match n
    case Relabel(arg) => Denotes(arg, x, v)
    case Var(_) => v == x
    case Scalar(_, s) => v == s
    case Op(f, _, args) =>
      if |args| == 1 then exists a :: Denotes(args[0], x, a) && Returns(f, a, Some(0), v)
      else exists a, b :: Denotes(args[0], x, a) && Denotes(args[1], x, b) && Returns(f, a, b, v)
  }

  lemma OperatorExact(f: Func, nargs: nat, left: int, right: int, v: int)
    requires OpOf(f, nargs) != None && Fits(Some(left)) && Fits(Some(right))
    ensures Int4Arithmetic(OpOf(f, nargs).value, left, right) == Ok(Some(v))
            <==> Results(f, left, right, v) && Fits(Some(v))
    ensures Int4Arithmetic(OpOf(f, nargs).value, left, right) != Ok(None)
  {
    hide Int4Arithmetic, Leaves;
    ArithmeticExact(OpOf(f, nargs).value, left, right, v);
  }

  lemma CallExact(f: Func, nargs: nat, left: Option<int>, right: Option<int>, v: Option<int>)
    requires OpOf(f, nargs) != None && Fits(left) && Fits(right)
    ensures Apply2(OpOf(f, nargs).value, Ok(left), Ok(right)) == Ok(v) <==> Returns(f, left, right, v)
    ensures Returns(f, left, right, v) ==> Fits(v)
  {
    hide Int4Arithmetic, OpOf, Results;
    if left != None && right != None {
      OperatorExact(f, nargs, left.value, right.value, if v == None then 0 else v.value);
    }
  }

  lemma UnaryIsBinary(op: ArithmeticOp, v: Value)
    ensures Apply1(op, v) == Apply2(op, v, Ok(Some(0)))
  {}

  /** A tree has a value exactly as the built-in functions it names have mathematical results that
      are int4 values: a sum, difference, product, truncated quotient, remainder or negation. It
      fails if and only if some call has no such result. */
  lemma {:induction false} EvalExact(n: Node, x: Option<int>)
    requires Analyze(n) != None && Int4Leaves(n) && Fits(x)
    ensures forall v :: Eval(n, x) == Ok(v) <==> Denotes(n, x, v)
    ensures Eval(n, x) != Failed ==> Fits(Eval(n, x).value)
    decreases n
  {
    hide OpOf, Apply1, Apply2, Returns;
    match n
    case Relabel(arg) => EvalExact(arg, x);
    case Op(f, _, args) =>
      EvalExact(args[0], x);
      var op, l := OpOf(f, |args|).value, Eval(args[0], x);
      var r := Ok(Some(0));
      if |args| == 2 {
        EvalExact(args[1], x);
        r := Eval(args[1], x);
      } else {
        UnaryIsBinary(op, l);
      }
      FailedArgument(op, l, r);
      if l != Failed && r != Failed {
        forall v
          ensures Apply2(op, l, r) == Ok(v) <==> Returns(f, l.value, r.value, v)
          ensures Returns(f, l.value, r.value, v) ==> Fits(v)
        {
          CallExact(f, |args|, l.value, r.value, v);
        }
      }
    case _ =>
  }

  lemma FailedArgument(op: ArithmeticOp, l: Value, r: Value)
    ensures l == Failed || r == Failed ==> Apply2(op, l, r) == Failed
  {}

  // ----- the compiled chain -----

  /** One step: an operator, its scalar operand if it has one, and on which side. */
  datatype Step = Step(op: ArithmeticOp, scalar: Option<Node>, scalarOnLeft: bool)

  datatype Chain = ScalarChain(node: Node) | ColumnChain(steps: seq<Step>)

  /** compile_value, with append_step after each operand. */
  function Compile(n: Node): (c: Chain)
    requires Analyze(n) != None
    ensures c.ColumnChain? <==> Analyze(n) == Some(1)
    decreases n
  {
    match n
    case Relabel(arg) => Compile(arg)
    case Var(_) => ColumnChain([])
    case Scalar(_, _) => ScalarChain(n)
    case Op(f, _, args) =>
      var op := OpOf(f, |args|).value;
      if Analyze(n) == Some(0) then ScalarChain(n)
      else if |args| == 1 then ColumnChain(Compile(args[0]).steps + [Step(op, None, false)])
      else if Analyze(args[0]) == Some(1) then ColumnChain(Compile(args[0]).steps + [Step(op, Some(args[1]), false)])
      else ColumnChain(Compile(args[1]).steps + [Step(op, Some(args[0]), true)])
  }

  predicate StepOk(s: Step) {
    s.scalar != None ==> Analyze(s.scalar.value) == Some(0)
  }

  ghost predicate StepsOk(steps: seq<Step>) {
    forall i | 0 <= i < |steps| :: StepOk(steps[i])
  }

  /** The scalar operand of a step; a unary step has none and uses zero. */
  function ScalarOf(s: Step): Value
    requires StepOk(s)
  {
    if s.scalar == None then Ok(Some(0)) else Eval(s.scalar.value, None)
  }

  /** What a step makes of one value. */
  function RunStep(s: Step, v: Value): Value
    requires StepOk(s)
  {
    if s.scalarOnLeft then Apply2(s.op, ScalarOf(s), v) else Apply2(s.op, v, ScalarOf(s))
  }

  function RunSteps(steps: seq<Step>, x: Option<int>): Value
    requires forall i | 0 <= i < |steps| :: StepOk(steps[i])
  {
    if steps == [] then Ok(x) else RunStep(steps[|steps| - 1], RunSteps(steps[..|steps| - 1], x))
  }

  lemma RunAppend(steps: seq<Step>, s: Step, x: Option<int>)
    requires StepsOk(steps) && StepOk(s)
    ensures StepsOk(steps + [s]) && RunSteps(steps + [s], x) == RunStep(s, RunSteps(steps, x))
  {
    assert (steps + [s])[..|steps|] == steps;
  }

  /** The compiled chain gives every row the tree's value, NULL, or error. */
  lemma {:induction false} CompileKeepsMeaning(n: Node, x: Option<int>)
    requires Analyze(n) != None
    ensures match Compile(n)
            case ScalarChain(s) => Analyze(s) == Some(0) && Eval(s, x) == Eval(n, x)
            case ColumnChain(steps) => StepsOk(steps) && RunSteps(steps, x) == Eval(n, x)
    decreases n
  {
    match n
    case Relabel(arg) => CompileKeepsMeaning(arg, x);
    case Op(f, _, args) =>
      var op := OpOf(f, |args|).value;
      if Analyze(n) == Some(1) {
        if |args| == 1 {
          CompileKeepsMeaning(args[0], x);
          RunAppend(Compile(args[0]).steps, Step(op, None, false), x);
        } else if Analyze(args[0]) == Some(1) {
          CompileKeepsMeaning(args[0], x);
          ScalarIgnoresColumn(args[1], x, None);
          RunAppend(Compile(args[0]).steps, Step(op, Some(args[1]), false), x);
        } else {
          CompileKeepsMeaning(args[1], x);
          ScalarIgnoresColumn(args[0], x, None);
          RunAppend(Compile(args[1]).steps, Step(op, Some(args[0]), true), x);
        }
      }
    case _ =>
  }

  // ----- filters -----

  datatype FilterParts = FilterParts(valueArg: nat, comparison: Comparison)

  /** analyze_filter: a built-in comparison with one side that holds the Var and a scalar side. */
  function AnalyzeFilter(n: Node): (r: Option<FilterParts>)
    ensures r != None ==>
      && r.value.valueArg < 2 && Strip(n).Op? && |Strip(n).args| == 2
      && Analyze(Strip(n).args[r.value.valueArg]) == Some(1)
      && Analyze(Strip(n).args[1 - r.value.valueArg]) == Some(0)
  {
    match Strip(n)
    case Op(f, result, args) =>
      if |args| != 2 || result != Bool then None
      else
        var l, r := Analyze(args[0]), Analyze(args[1]);
        if l == None || r == None || l.value + r.value != 1 then None
        else
          var valueArg := if l.value == 1 then 0 else 1;
          if f.Compares? then Some(FilterParts(valueArg, Normalized(f.op, valueArg))) else None
    case _ => None
  }

  datatype Verdict = True | False | Unknown | Error

  /** A comparison as the tree states it: both arguments, strictness, then the operator. */
  function Judge(n: Node, x: Option<int>): Verdict
    requires AnalyzeFilter(n) != None
  {
    var op, args := Strip(n).func.op, Strip(n).args;
    var l, r := Eval(args[0], x), Eval(args[1], x);
    if l == Failed || r == Failed then Error
    else if l.value == None || r.value == None then Unknown
    else if Compare(op, l.value.value, r.value.value) then True else False
  }

  /** The same comparison as the batch runs it: column value against scalar. */
  function JudgeParts(op: Comparison, value: Value, scalar: Value): Verdict {
    if value == Failed || scalar == Failed then Error
    else if value.value == None || scalar.value == None then Unknown
    else if Compare(op, value.value.value, scalar.value.value) then True else False
  }

  /** Putting the column on the left and turning the operator round keeps the verdict. */
  lemma PartsKeepVerdict(n: Node, x: Option<int>)
    requires AnalyzeFilter(n) != None
    ensures var p, args := AnalyzeFilter(n).value, Strip(n).args;
            Judge(n, x) == JudgeParts(p.comparison, Eval(args[p.valueArg], x), Eval(args[1 - p.valueArg], None))
  {
    hide Eval, Analyze;
    var p, args := AnalyzeFilter(n).value, Strip(n).args;
    ScalarIgnoresColumn(args[1 - p.valueArg], x, None);
    var v, s := Eval(args[p.valueArg], x), Eval(args[1 - p.valueArg], x);
    if v != Failed && s != Failed && v.value != None && s.value != None {
      NormalizedCompares(Strip(n).func.op, v.value.value, s.value.value);
    }
  }

  lemma JudgeRow(op: Comparison, value: Value, scalar: Value)
    ensures JudgeParts(op, value, scalar) == Error <==> value == Failed || scalar == Failed
    ensures JudgeParts(op, value, scalar) == True <==>
              && value != Failed && scalar != Failed && value.value != None && scalar.value != None
              && Compare(op, value.value.value, scalar.value.value)
  {}

  /** A filter is TRUE for a column value exactly if both its sides have a value and these compare
      so, and fails exactly if one side has no value. */
  lemma JudgeExact(n: Node, x: Option<int>)
    requires AnalyzeFilter(n) != None && Fits(x) && Int4Leaves(n)
    ensures var op, args := Strip(n).func.op, Strip(n).args;
            Judge(n, x) == True <==>
            exists l, r :: Denotes(args[0], x, Some(l)) && Denotes(args[1], x, Some(r)) &&
                           match op
                           case Eq => l == r
                           case Ne => l != r
                           case Lt => l < r
                           case Le => l <= r
                           case Gt => l > r
                           case Ge => l >= r
    ensures var args := Strip(n).args;
            Judge(n, x) == Error <==> (forall v :: !Denotes(args[0], x, v)) || (forall v :: !Denotes(args[1], x, v))
  {
    hide Eval, Analyze, AnalyzeFilter, Denotes;
    StripLeaves(n);
    var args := Strip(n).args;
    BothSides(n);
    EvalExact(args[0], x);
    EvalExact(args[1], x);
    FailsWithoutValue(args[0], x);
    FailsWithoutValue(args[1], x);
    if Judge(n, x) == True {
      assert Denotes(args[0], x, Some(Eval(args[0], x).value.value)) && Denotes(args[1], x, Some(Eval(args[1], x).value.value));
    }
  }

  lemma FailsWithoutValue(n: Node, x: Option<int>)
    requires Analyze(n) != None && Int4Leaves(n) && Fits(x)
    ensures Eval(n, x) == Failed <==> forall v :: !Denotes(n, x, v)
  {
    hide Eval, Analyze;
    EvalExact(n, x);
    if Eval(n, x) == Failed {
      forall v
        ensures !Denotes(n, x, v)
      {
        assert Eval(n, x) != Ok(v);
      }
    } else {
      var v := Eval(n, x).value;
      assert Eval(n, x) == Ok(v);
      assert Denotes(n, x, v);
    }
  }

  lemma {:induction false} StripLeaves(n: Node)
    requires Int4Leaves(n)
    ensures Int4Leaves(Strip(n))
  {
    if n.Relabel? {
      StripLeaves(n.arg);
    }
  }

  lemma BothSides(n: Node)
    requires AnalyzeFilter(n) != None
    ensures Analyze(Strip(n).args[0]) != None && Analyze(Strip(n).args[1]) != None && Strip(n).func.Compares?
  {}

  // ----- running a chain over a batch -----

  function Zeros(n: nat): (r: seq<int>)
    ensures |r| == n
  {
    seq(n, _ => 0)
  }

  function NoneOf(n: nat): (r: seq<bool>)
    ensures |r| == n && forall i | 0 <= i < n :: !r[i]
  {
    seq(n, _ => false)
  }

  /** One step applied to a row's value, as the kernel sees it. */
  function StepValue(op: ArithmeticOp, scalar: int, scalarOnLeft: bool, v: Option<int>): Value {
    if v == None then Ok(None)
    else if scalarOnLeft then Int4Arithmetic(op, scalar, v.value) else Int4Arithmetic(op, v.value, scalar)
  }

  lemma StepNull(op: ArithmeticOp, scalar: int, scalarOnLeft: bool, v: Option<int>)
    ensures StepValue(op, scalar, scalarOnLeft, v) != Failed ==>
              (StepValue(op, scalar, scalarOnLeft, v).value == None <==> v == None)
    ensures v == None ==> StepValue(op, scalar, scalarOnLeft, v) == Ok(None)
  {}

  lemma StepIsKernel(s: Step, v: Value)
    requires StepOk(s) && ScalarOf(s) != Failed && v != Failed
    ensures RunStep(s, v) == if ScalarOf(s).value == None then Ok(None)
                             else StepValue(s.op, ScalarOf(s).value.value, s.scalarOnLeft, v.value)
  {
    hide ScalarOf, Int4Arithmetic;
  }

  lemma FailedScalarFails(s: Step, v: Value)
    requires StepOk(s) && (ScalarOf(s) == Failed || v == Failed)
    ensures RunStep(s, v) == Failed
  {
    hide ScalarOf, Int4Arithmetic;
  }

  lemma RunPrefix(steps: seq<Step>, i: nat, x: Option<int>)
    requires StepsOk(steps) && i < |steps|
    ensures StepsOk(steps[..i]) && StepsOk(steps[..i + 1])
    ensures RunSteps(steps[..i + 1], x) == RunStep(steps[i], RunSteps(steps[..i], x))
  {
    assert steps[..i + 1][..i] == steps[..i];
  }

  /** Once a step fails for a row, the rest of the chain cannot make up for it. */
  lemma {:induction false} FailureStays(steps: seq<Step>, i: nat, x: Option<int>)
    requires StepsOk(steps) && i <= |steps|
    requires StepsOk(steps[..i]) && RunSteps(steps[..i], x) == Failed
    ensures RunSteps(steps, x) == Failed
    decreases |steps| - i
  {
    if i < |steps| {
      RunPrefix(steps, i, x);
      FailedScalarFails(steps[i], Failed);
      FailureStays(steps, i + 1, x);
    } else {
      assert steps[..i] == steps;
    }
  }

  lemma UnaryScalar(s: Step)
    requires StepOk(s) && s.scalar == None
    ensures ScalarOf(s) == Ok(Some(0))
  {}

  lemma RunNothing(steps: seq<Step>)
    ensures steps[..0] == [] && forall x :: RunSteps([], x) == Ok(x)
  {}

  /** Where a value vector lives: the batch's own column, or one of the two buffers. */
  datatype Source = Column | Buffer(index: nat)

  /** The bound form of a compiled expression. (PgBatchExpr) */
  class Evaluator {
    ghost const node: Node
    const chain: Chain

    var column: Vector<int>
    var selected: seq<bool>
    var capacity: nat
    var values: seq<seq<int>>
    var validity: seq<seq<bool>>
    var result: Source
    var ready: bool

    ghost predicate Compiled() {
      Analyze(node) != None && chain == Compile(node)
    }

    ghost predicate Valid()
      reads this
    {
      && Compiled()
      && column.Covers(|selected|)
      && |values| == |validity| == 2
      && |values[0]| == |validity[0]| == capacity
      && (Buffers() == 2 ==> |values[1]| == |validity[1]| == capacity)
      && (ready ==> Readable(result) && Shows(View(result)))
    }

    /** A vector that holds the tree's value for every selected row. */
    ghost predicate Shows(v: Vector<int>)
      requires Compiled() && column.Covers(|selected|) && v.Covers(|selected|)
      reads this
    {
      forall row | 0 <= row < |selected| && selected[row] :: Eval(node, column.At(row)) == Ok(v.At(row))
    }

    /** A chain of more than one step alternates; otherwise one buffer is enough. */
    function Buffers(): nat {
      if chain.ColumnChain? && |chain.steps| > 1 then 2 else 1
    }

    constructor (node: Node, column: Vector<int>, selected: seq<bool>)
      requires Analyze(node) != None
      requires column.Covers(|selected|)
      ensures Valid() && !ready
      ensures this.node == node && this.column == column && this.selected == selected
    {
      this.node := node;
      chain := Compile(node);
      this.column := column;
      this.selected := selected;
      capacity := 0;
      values := [[], []];
      validity := [[], []];
      result := Column;
      ready := false;
    }

    /** pg_batch_expr_bind: another batch, the same buffers with whatever they hold. */
    method Bind(column: Vector<int>, selected: seq<bool>)
      requires Valid() && column.Covers(|selected|)
      modifies this
      ensures Valid() && !ready
      ensures this.column == column && this.selected == selected
      ensures values == old(values) && validity == old(validity)
    {
      this.column := column;
      this.selected := selected;
      ready := false;
    }

    ghost predicate Usable(b: nat)
      reads this
    {
      b < Buffers() && |values| == |validity| == 2 && |selected| <= |values[b]| == |validity[b]|
    }

    ghost predicate Readable(source: Source)
      reads this
    {
      column.Covers(|selected|) && (source.Buffer? ==> Usable(source.index))
    }

    /** The vector a source shows for the bound batch. */
    function View(source: Source): (v: Vector<int>)
      requires Readable(source)
      reads this
      ensures v.Covers(|selected|)
    {
      if source == Column then column else Packed(values[source.index], Some(validity[source.index]), 0)
    }

    method EnsureCapacity()
      requires Valid() && !ready
      modifies `capacity, `values, `validity
      ensures Valid() && capacity >= |selected|
      ensures forall b | 0 <= b < Buffers() :: Usable(b)
    {
      if capacity >= |selected| {
        return;
      }
      var more := |selected| - capacity;
      values := values[0 := values[0] + Zeros(more)];
      validity := validity[0 := validity[0] + NoneOf(more)];
      if Buffers() == 2 {
        values := values[1 := values[1] + Zeros(more)];
        validity := validity[1 := validity[1] + NoneOf(more)];
      }
      capacity := |selected|;
    }

    /** MemSet of the validity map: rows beyond the batch keep what they had. */
    method ClearValidity(b: nat)
      requires Usable(b)
      modifies `validity
      ensures Usable(b) && |validity| == 2
      ensures |validity[b]| == |old(validity[b])|
      ensures forall row | 0 <= row < |selected| :: !validity[b][row]
      ensures validity[1 - b] == old(validity[1 - b])
    {
      validity := validity[b := NoneOf(|selected|) + validity[b][|selected|..]];
    }

    /** pg_batch_int4_arithmetic_scalar: one step into one buffer, reading the other source. */
    method ArithmeticScalar(input: Source, op: ArithmeticOp, scalar: int, scalarOnLeft: bool, b: nat) returns (ok: bool)
      requires Usable(b) && Readable(input) && input != Buffer(b)
      modifies `values, `validity
      ensures Usable(b) && values[1 - b] == old(values[1 - b]) && validity[1 - b] == old(validity[1 - b])
      ensures |values[b]| == |old(values[b])|
      ensures ok ==> forall row | 0 <= row < |selected| && selected[row] ::
                StepValue(op, scalar, scalarOnLeft, old(View(input)).At(row)) == Ok(View(Buffer(b)).At(row))
      ensures !ok ==> exists row | 0 <= row < |selected| && selected[row] ::
                StepValue(op, scalar, scalarOnLeft, old(View(input)).At(row)) == Failed
    {
      hide Int4Arithmetic, StepValue;
      ghost var source := View(input);
      ClearValidity(b);
      var row := 0;
      while row < |selected|
        invariant row <= |selected|
        invariant Usable(b) && values[1 - b] == old(values[1 - b]) && validity[1 - b] == old(validity[1 - b])
        invariant |values[b]| == |old(values[b])|
        invariant Readable(input) && View(input) == source
        invariant forall k | row <= k < |selected| :: !validity[b][k]
        invariant forall k | 0 <= k < row && selected[k] ::
          StepValue(op, scalar, scalarOnLeft, source.At(k)) == Ok(if validity[b][k] then Some(values[b][k]) else None)
      {
        if selected[row] && !View(input).IsNull(row) {
          var outcome := StepValue(op, scalar, scalarOnLeft, Some(View(input).ValueAt(row)));
          StepNull(op, scalar, scalarOnLeft, source.At(row));
          if outcome == Failed {
            return false;
          }
          values := values[b := values[b][row := outcome.value.value]];
          validity := validity[b := validity[b][row := true]];
        } else {
          StepNull(op, scalar, scalarOnLeft, source.At(row));
        }
        row := row + 1;
      }
      ok := true;
    }

    /** After some steps, a vector holds their value for every selected row. */
    ghost predicate Reached(steps: seq<Step>, v: Vector<int>)
      requires column.Covers(|selected|) && v.Covers(|selected|) && StepsOk(steps)
      reads this
    {
      forall row | 0 <= row < |selected| && selected[row] :: RunSteps(steps, column.At(row)) == Ok(v.At(row))
    }

    /** Some selected row makes the chain fail. */
    ghost predicate SomeRowFails(steps: seq<Step>)
      requires column.Covers(|selected|) && StepsOk(steps)
      reads this
    {
      exists row | 0 <= row < |selected| && selected[row] :: RunSteps(steps, column.At(row)) == Failed
    }

    /** One round of the step loop. */
    method RunStepInto(steps: seq<Step>, i: nat, input: Source, b: nat) returns (ok: bool)
      requires StepsOk(steps) && i < |steps| && StepsOk(steps[..i]) && StepsOk(steps[..i + 1])
      requires Usable(b) && Readable(input) && input != Buffer(b)
      requires Reached(steps[..i], View(input))
      modifies `values, `validity
      ensures Usable(b) && values[1 - b] == old(values[1 - b]) && validity[1 - b] == old(validity[1 - b])
      ensures |values[b]| == |old(values[b])|
      ensures ok ==> Reached(steps[..i + 1], View(Buffer(b)))
      ensures !ok ==> SomeRowFails(steps[..i + 1])
    {
      hide ScalarOf, StepValue, RunStep, RunSteps;
      ghost var source := View(input);
      var step := steps[i];
      var hasRows := AnyTrue(selected);
      var scalar := Ok(Some(0));
      if step.scalar != None && hasRows {
        scalar := ScalarOf(step);
      }
      if step.scalar == None {
        UnaryScalar(step);
      }
      forall row | 0 <= row < |selected| && selected[row]
        ensures RunSteps(steps[..i + 1], column.At(row)) == RunStep(step, Ok(source.At(row)))
      {
        RunPrefix(steps, i, column.At(row));
      }
      if scalar == Failed {
        ghost var row :| 0 <= row < |selected| && selected[row];
        FailedScalarFails(step, Ok(source.At(row)));
        return false;
      }
      forall row | 0 <= row < |selected| && selected[row]
        ensures RunStep(step, Ok(source.At(row))) == if scalar.value == None then Ok(None)
                else StepValue(step.op, scalar.value.value, step.scalarOnLeft, source.At(row))
      {
        StepIsKernel(step, Ok(source.At(row)));
      }
      if scalar.value == None {
        ClearValidity(b);
        return true;
      }
      ok := ArithmeticScalar(input, step.op, scalar.value.value, step.scalarOnLeft, b);
    }

    lemma FailureRemains(steps: seq<Step>, i: nat)
      requires column.Covers(|selected|) && StepsOk(steps) && i <= |steps| && StepsOk(steps[..i])
      requires SomeRowFails(steps[..i])
      ensures SomeRowFails(steps)
    {
      hide RunSteps, StepOk;
      var row :| 0 <= row < |selected| && selected[row] && RunSteps(steps[..i], column.At(row)) == Failed;
      FailureStays(steps, i, column.At(row));
    }

    /** The step loop of pg_batch_expr_get_int4: the two buffers take turns. */
    method RunChain(steps: seq<Step>) returns (ok: bool)
      requires Valid() && !ready && chain == ColumnChain(steps) && StepsOk(steps)
      modifies `capacity, `values, `validity, `result
      ensures Valid() && !ready
      ensures ok ==> Readable(result) && Reached(steps, View(result))
      ensures !ok ==> SomeRowFails(steps)
    {
      hide RunStep, RunSteps, StepOk, Compile, Analyze, Eval, SomeRowFails;
      if |steps| > 0 {
        EnsureCapacity();
      }
      result := Column;
      var b := 0;
      assert Reached(steps[..0], column) by {
        RunNothing(steps);
      }
      for i := 0 to |steps|
        invariant Valid() && b == i % 2
        invariant |steps| > 0 ==> capacity >= |selected|
        invariant result == if i == 0 then Column else Buffer(1 - b)
        invariant i > 0 ==> 1 - b < Buffers()
        invariant StepsOk(steps[..i]) && Readable(result) && Reached(steps[..i], View(result))
      {
        ok := RunStepInto(steps, i, result, b);
        if !ok {
          FailureRemains(steps, i + 1);
          return;
        }
        result := Buffer(b);
        b := 1 - b;
      }
      assert steps[..|steps|] == steps;
      ok := true;
    }

    /** build_scalar_vector: the scalar is evaluated once, and only for a batch with rows. */
    method BuildScalarVector(scalar: Node) returns (ok: bool)
      requires Valid() && !ready && chain == ScalarChain(scalar) && Analyze(scalar) == Some(0)
      modifies `capacity, `values, `validity, `result
      ensures Valid() && !ready
      ensures ok ==> Readable(result) && forall row | 0 <= row < |selected| && selected[row] ::
                Eval(scalar, None) == Ok(View(result).At(row))
      ensures !ok ==> Eval(scalar, None) == Failed && exists row :: 0 <= row < |selected| && selected[row]
    {
      hide Eval, Analyze;
      EnsureCapacity();
      ClearValidity(0);
      result := Buffer(0);
      var hasRows := AnyTrue(selected);
      if !hasRows {
        return true;
      }
      var value := Eval(scalar, None);
      if value == Failed {
        return false;
      }
      if value.value != None {
        for row := 0 to |selected|
          invariant Valid() && Usable(0) && result == Buffer(0)
          invariant forall k | 0 <= k < row && selected[k] :: validity[0][k] && values[0][k] == value.value.value
        {
          if selected[row] {
            values := values[0 := values[0][row := value.value.value]];
            validity := validity[0 := validity[0][row := true]];
          }
        }
      }
      ok := true;
    }

    /** pg_batch_expr_get_int4: every selected row gets the tree's value or NULL; it fails if and
        only if evaluating the tree for some selected row does. */
    method GetInt4() returns (ok: bool)
      requires Valid()
      modifies `capacity, `values, `validity, `result, `ready
      ensures Valid()
      ensures ok ==> ready && Readable(result) && Shows(View(result))
      ensures !ok ==> exists row | 0 <= row < |selected| && selected[row] :: Eval(node, column.At(row)) == Failed
    {
      hide Compile, Eval, Analyze, RunSteps, StepOk;
      if ready {
        return true;
      }
      CompileKeepsMeaning(node, None);
      forall row | 0 <= row < |selected| && selected[row]
        ensures match chain
                case ScalarChain(s) => Analyze(s) == Some(0) && Eval(s, None) == Eval(node, column.At(row))
                case ColumnChain(steps) => StepsOk(steps) && RunSteps(steps, column.At(row)) == Eval(node, column.At(row))
      {
        CompileKeepsMeaning(node, column.At(row));
        if chain.ScalarChain? {
          ScalarIgnoresColumn(chain.node, column.At(row), None);
        }
      }
      match chain {
        case ScalarChain(scalar) => ok := BuildScalarVector(scalar);
        case ColumnChain(steps) => ok := RunChain(steps);
      }
      ready := ok;
    }
  }

  /** A compiled filter: the value side, the comparison with it on the left, and the scalar side. */
  class FilterEvaluator {
    ghost const filter: Node
    const comparison: Comparison
    const scalar: Node
    const value: Evaluator

    ghost predicate Valid()
      reads this, value
    {
      && AnalyzeFilter(filter) != None
      && comparison == AnalyzeFilter(filter).value.comparison
      && value.node == Strip(filter).args[AnalyzeFilter(filter).value.valueArg]
      && scalar == Strip(filter).args[1 - AnalyzeFilter(filter).value.valueArg]
      && value.Valid()
    }

    /** pg_batch_expr_compile_filter */
    constructor (filter: Node, column: Vector<int>, selected: seq<bool>)
      requires AnalyzeFilter(filter) != None && column.Covers(|selected|)
      ensures Valid() && fresh(value) && !value.ready
      ensures this.filter == filter && value.column == column && value.selected == selected
    {
      this.filter := filter;
      var parts := AnalyzeFilter(filter).value;
      comparison := parts.comparison;
      scalar := Strip(filter).args[1 - parts.valueArg];
      value := new Evaluator(Strip(filter).args[parts.valueArg], column, selected);
    }

    /** pg_batch_expr_apply_filter: exactly the selected rows for which the comparison is TRUE
        stay, with four-lane compares or without; it fails if and only if judging some selected
        row does. */
    method ApplyFilter(simd: bool) returns (ok: bool)
      requires Valid()
      modifies value
      ensures Valid()
      ensures value.column == old(value.column) && |value.selected| == |old(value.selected)|
      ensures ok ==> forall row | 0 <= row < |value.selected| ::
                value.selected[row] <==> old(value.selected)[row] && Judge(filter, value.column.At(row)) == True
      ensures ok <==> forall row | 0 <= row < |value.selected| && old(value.selected)[row] ::
                Judge(filter, value.column.At(row)) != Error
    {
      hide Eval, Analyze, Judge, Strip, AnalyzeFilter, JudgeParts;
      var hasRows := AnyTrue(value.selected);
      if !hasRows {
        return true;
      }
      forall row | 0 <= row < |value.selected|
        ensures Judge(filter, value.column.At(row)) ==
                JudgeParts(comparison, Eval(value.node, value.column.At(row)), Eval(scalar, None))
      {
        PartsKeepVerdict(filter, value.column.At(row));
      }
      ok := value.GetInt4();
      if !ok {
        ghost var row :| 0 <= row < |value.selected| && value.selected[row] && Eval(value.node, value.column.At(row)) == Failed;
        JudgeRow(comparison, Failed, Eval(scalar, None));
        return;
      }
      var operand := Eval(scalar, None);
      if operand == Failed {
        ghost var row :| 0 <= row < |value.selected| && value.selected[row];
        JudgeRow(comparison, Eval(value.node, value.column.At(row)), Failed);
        return false;
      }
      ghost var before := value.selected;
      if operand.value == None {
        value.selected := NoneOf(|value.selected|);
      } else {
        var vector := value.View(value.result);
        value.selected := FilterInt4(vector, value.selected, comparison, operand.value.value, simd);
      }
      forall row | 0 <= row < |before| && before[row]
        ensures Judge(filter, value.column.At(row)) != Error
        ensures value.selected[row] <==> Judge(filter, value.column.At(row)) == True
      {
        JudgeRow(comparison, Eval(value.node, value.column.At(row)), operand);
      }
    }
  }
}
