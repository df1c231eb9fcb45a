/**
 * Properties of the calculator's state machine: the invariant every keypad input keeps,
 * what `performOperation` does and does not depend on, and worked scenarios, stated over
 * abstract numbers and an abstract backend.
 */
module CalculatorProofs {
  import opened CalculatorModel

  // ---------------------------------------------------------------------------
  // The keypad

  /** Each keypad label is routed as its colour suggests (App.tsx:108): the five
      "secondary" keys to `performOperation`, "." to `inputDecimal`, and the ten others,
      all single digits, to `inputDigit`. */
  lemma KeypadRouting(btn: string)
    requires btn in Keypad
    ensures Dispatch(btn).Operation? <==> btn in ["/", "*", "-", "+", "="]
    ensures Dispatch(btn).Decimal? <==> btn == "."
    ensures Dispatch(btn).Digit? <==> IsDigitKey(btn)
  {
  }

  // ---------------------------------------------------------------------------
  // One step keeps the invariant

  lemma InputDigitKeepsInv<N>(s: State<N>, digit: string)
    requires Inv(s) && IsDigitKey(digit)
    ensures Inv(InputDigit(s, digit))
  {
  }

  lemma InputDecimalKeepsInv<N>(s: State<N>)
    requires Inv(s)
    ensures Inv(InputDecimal(s))
  {
  }

  /** Every keypad key and Clear keep the invariant. */
  lemma PressKeepsInv<N>(num: Numerics<N>, backend: Backend<N>, s: State<N>, i: Input)
    requires Inv(s)
    requires i.Key? ==> i.btn in Keypad
    ensures Inv(Press(num, backend, s, i))
  {
  }

  /** The invariant holds from mount through any sequence of keypad inputs, including
      Clear: an operand is never stored without an operator, `loading` is low between
      events, and a number being typed has at most one "." and no redundant leading "0". */
  lemma {:induction false} RunKeepsInv<N>(num: Numerics<N>, backend: Backend<N>, s: State<N>, inputs: seq<Input>)
    requires Inv(s) && FromKeypad(inputs)
    ensures Inv(Run(num, backend, s, inputs))
    decreases |inputs|
  {
    if inputs != [] {
      PressKeepsInv(num, backend, s, inputs[0]);
      assert FromKeypad(inputs[1..]) by {
        forall k | 0 <= k < |inputs[1..]| && inputs[1..][k].Key?
          ensures inputs[1..][k].btn in Keypad
        {
          assert inputs[1..][k] == inputs[k + 1];
        }
      }
      RunKeepsInv(num, backend, Press(num, backend, s, inputs[0]), inputs[1..]);
    }
  }

  lemma InitialSatisfiesInv<N>()
    ensures Inv(Initial<N>())
  {
  }

  /** The invariant for every state reachable from mount. */
  lemma ReachableSatisfiesInv<N>(num: Numerics<N>, backend: Backend<N>, inputs: seq<Input>)
    requires FromKeypad(inputs)
    ensures var t := Run(num, backend, Initial(), inputs);
      (t.firstOperand.Some? ==> t.operator.Some?) && !t.loading &&
      (!t.waitingForSecondOperand ==> |t.display| >= 1 && AtMostOneDot(t.display) && NoLeadingZero(t.display))
  {
    InitialSatisfiesInv<N>();
    RunKeepsInv(num, backend, Initial(), inputs);
  }

  /** A sequence of inputs applied one at a time from the end. */
  lemma {:induction false} RunSnoc<N>(num: Numerics<N>, backend: Backend<N>, s: State<N>, inputs: seq<Input>, last: Input)
    ensures Run(num, backend, s, inputs + [last]) == Press(num, backend, Run(num, backend, s, inputs), last)
    decreases |inputs|
  {
    if inputs == [] {
      assert [last][1..] == [];
    } else {
      assert (inputs + [last])[1..] == inputs[1..] + [last];
      RunSnoc(num, backend, Press(num, backend, s, inputs[0]), inputs[1..], last);
    }
  }

  // ---------------------------------------------------------------------------
  // inputDecimal and clear

  /** Pressing "." twice has the same effect as pressing it once, in every state. */
  lemma DecimalIdempotent<N>(s: State<N>)
    ensures InputDecimal(InputDecimal(s)) == InputDecimal(s)
  {
  }

  /** A "." pressed while the number being typed already holds one changes no field. */
  lemma DecimalOnDottedEntryIsNoOp<N>(s: State<N>)
    requires !s.waitingForSecondOperand && '.' in s.display
    ensures InputDecimal(s) == s
  {
  }

  /** Clear brings any state back to the state at mount, except for `loading`. */
  lemma ClearResets<N>(s: State<N>)
    ensures Clear(s) == Initial<N>().(loading := s.loading)
    ensures !s.loading ==> Clear(s) == Initial()
  {
  }

  // ---------------------------------------------------------------------------
  // performOperation

  /** On every path the fresh-entry flag is raised and the stored operator becomes the one
      just pressed; only when an operand and a non-empty operator are stored is the
      display replaced, by the string form of the new operand. */
  lemma PerformOperationOutcome<N>(num: Numerics<N>, backend: Backend<N>, s: State<N>, next: string)
    ensures var t := PerformOperation(num, backend, s, next);
      t.waitingForSecondOperand && t.operator == Some(next) && t.firstOperand.Some? &&
      (Computes(s) ==> t.display == num.toString(t.firstOperand.value) && !t.loading) &&
      (!Computes(s) ==> t.display == s.display && t.loading == s.loading) &&
      (s.firstOperand.None? ==> t.firstOperand == Some(num.parseFloat(s.display))) &&
      (s.firstOperand.Some? && !Computes(s) ==> t.firstOperand == s.firstOperand)
  {
  }

  /** Unless an operand and one of the four arithmetic operators are stored, the backend is
      not consulted: two different backends give the same new state. */
  lemma NoBackendCallWithoutPendingOperator<N>(num: Numerics<N>, b1: Backend<N>, b2: Backend<N>,
                                               s: State<N>, next: string)
    requires s.firstOperand.None? || s.operator.None? || s.operator.value !in ArithmeticKeys
    ensures PerformOperation(num, b1, s, next) == PerformOperation(num, b2, s, next)
  {
  }

  /** With "=" stored, pressing an operator is not a no-op: the display is re-parsed and
      re-formatted, and the parsed value becomes the first operand. */
  lemma OperatorAfterEqualsReparses<N>(num: Numerics<N>, backend: Backend<N>, s: State<N>, next: string)
    requires s.firstOperand.Some? && s.operator == Some("=")
    ensures var t := PerformOperation(num, backend, s, next);
      t.display == num.toString(num.parseFloat(s.display)) &&
      t.firstOperand == Some(num.parseFloat(s.display))
  {
  }

  /** With an arithmetic operator stored, the backend operation is applied to the stored
      operand and the parsed display, and the result is both shown and kept. */
  lemma PendingOperatorApplied<N>(num: Numerics<N>, backend: Backend<N>, s: State<N>, next: string)
    requires s.firstOperand.Some? && s.operator.Some? && s.operator.value in ArithmeticKeys
    ensures var a, b := s.firstOperand.value, num.parseFloat(s.display);
      var t := PerformOperation(num, backend, s, next);
      var expected :=
        match s.operator.value
        case "+" => backend.add(a, b)
        case "-" => backend.subtract(a, b)
        case "*" => backend.multiply(a, b)
        case _ => if num.falsy(backend.divide(a, b)) then num.nan else backend.divide(a, b);
      t.firstOperand == Some(expected) && t.display == num.toString(expected)
  {
  }

  // ---------------------------------------------------------------------------
  // Scenarios

  /** 5 + 3 = shows the string form of the backend's sum of 5 and 3. */
  lemma ScenarioAdd<N>(num: Numerics<N>, backend: Backend<N>)
    ensures Run(num, backend, Initial(), [Key("5"), Key("+"), Key("3"), Key("=")]).display ==
            num.toString(backend.add(num.parseFloat("5"), num.parseFloat("3")))
  {
    var s1 := Press(num, backend, Initial(), Key("5"));
    var s2 := Press(num, backend, s1, Key("+"));
    var s3 := Press(num, backend, s2, Key("3"));
    assert s3 == State("3", Some(num.parseFloat("5")), Some("+"), false, false);
    assert Run(num, backend, Initial(), [Key("5"), Key("+"), Key("3"), Key("=")])
        == Run(num, backend, s1, [Key("+"), Key("3"), Key("=")])
        == Run(num, backend, s2, [Key("3"), Key("=")])
        == Run(num, backend, s3, [Key("=")]);
  }

  /** 6 / 0 = shows NaN when the backend's quotient is falsy. */
  lemma ScenarioDivideByZero<N>(num: Numerics<N>, backend: Backend<N>)
    requires num.falsy(backend.divide(num.parseFloat("6"), num.parseFloat("0")))
    ensures Run(num, backend, Initial(), [Key("6"), Key("/"), Key("0"), Key("=")]).display ==
            num.toString(num.nan)
  {
    var s1 := Press(num, backend, Initial(), Key("6"));
    var s2 := Press(num, backend, s1, Key("/"));
    var s3 := Press(num, backend, s2, Key("0"));
    assert s3 == State("0", Some(num.parseFloat("6")), Some("/"), false, false);
    assert Run(num, backend, Initial(), [Key("6"), Key("/"), Key("0"), Key("=")])
        == Run(num, backend, s1, [Key("/"), Key("0"), Key("=")])
        == Run(num, backend, s2, [Key("0"), Key("=")])
        == Run(num, backend, s3, [Key("=")]);
  }

  /** 9 * 2 + 1 = evaluates left to right: the product is kept as the first operand when
      "+" is pressed, and "=" adds 1 to it. */
  lemma ScenarioChain<N>(num: Numerics<N>, backend: Backend<N>)
    ensures Run(num, backend, Initial(), [Key("9"), Key("*"), Key("2"), Key("+")]).firstOperand ==
            Some(backend.multiply(num.parseFloat("9"), num.parseFloat("2")))
    ensures Run(num, backend, Initial(), [Key("9"), Key("*"), Key("2"), Key("+"), Key("1"), Key("=")]).display ==
            num.toString(backend.add(backend.multiply(num.parseFloat("9"), num.parseFloat("2")), num.parseFloat("1")))
  {
    var product := backend.multiply(num.parseFloat("9"), num.parseFloat("2"));
    var s1 := Press(num, backend, Initial(), Key("9"));
    var s2 := Press(num, backend, s1, Key("*"));
    var s3 := Press(num, backend, s2, Key("2"));
    assert s3 == State("2", Some(num.parseFloat("9")), Some("*"), false, false);
    var s4 := Press(num, backend, s3, Key("+"));
    assert s4 == State(num.toString(product), Some(product), Some("+"), true, false);
    assert Run(num, backend, Initial(), [Key("9"), Key("*"), Key("2"), Key("+")])
        == Run(num, backend, s1, [Key("*"), Key("2"), Key("+")])
        == Run(num, backend, s2, [Key("2"), Key("+")])
        == Run(num, backend, s3, [Key("+")]);
    var s5 := Press(num, backend, s4, Key("1"));
    assert s5 == State("1", Some(product), Some("+"), false, false);
    assert Run(num, backend, Initial(), [Key("9"), Key("*"), Key("2"), Key("+"), Key("1"), Key("=")])
        == Run(num, backend, s1, [Key("*"), Key("2"), Key("+"), Key("1"), Key("=")])
        == Run(num, backend, s2, [Key("2"), Key("+"), Key("1"), Key("=")])
        == Run(num, backend, s3, [Key("+"), Key("1"), Key("=")])
        == Run(num, backend, s4, [Key("1"), Key("=")])
        == Run(num, backend, s5, [Key("=")]);
  }

  /** Clear at any point returns to the state at mount. */
  lemma ScenarioClear<N>(num: Numerics<N>, backend: Backend<N>, inputs: seq<Input>)
    requires FromKeypad(inputs)
    ensures Run(num, backend, Initial(), inputs + [ClearButton]) == Initial()
  {
    ReachableSatisfiesInv(num, backend, inputs);
    RunSnoc(num, backend, Initial(), inputs, ClearButton);
  }
}
