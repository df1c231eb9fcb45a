/**
 * The `App` component of frontend/src/App.tsx as an object: the five `useState` cells are
 * fields, and each handler updates them in place. Every method states the new value of
 * each field and agrees with the corresponding step of `CalculatorModel`, so the
 * properties proved there hold of the object as well.
 */
module CalculatorApp {
  import M = CalculatorModel
  import CalculatorProofs

  class Calculator<N> {
    var display: string
    var firstOperand: M.Option<N>
    var operator: M.Option<string>
    var waitingForSecondOperand: bool
    var loading: bool

    /** `parseFloat`, `String(number)`, truthiness and `NaN` of the host. */
    const numerics: M.Numerics<N>
    /** The backend canister's four operations. */
    const backend: M.Backend<N>

    /** The five fields as a value. */
    function Snapshot(): M.State<N>
      reads this
    {
      M.State(display, firstOperand, operator, waitingForSecondOperand, loading)
    }

    ghost predicate Valid()
      reads this
    {
      M.Inv(Snapshot())
    }

    /** Mount: the initial values of App.tsx:30-34. */
    constructor (numerics: M.Numerics<N>, backend: M.Backend<N>)
      ensures display == "0" && firstOperand == M.None && operator == M.None
      ensures !waitingForSecondOperand && !loading
      ensures this.numerics == numerics && this.backend == backend
      ensures Snapshot() == M.Initial()
      ensures Valid()
    {
      display := "0";
      firstOperand := M.None;
      operator := M.None;
      waitingForSecondOperand := false;
      loading := false;
      this.numerics := numerics;
      this.backend := backend;
    }

    /** `inputDigit` (App.tsx:36-43). */
    method InputDigit(digit: string)
      modifies this
      ensures old(waitingForSecondOperand) ==> display == digit
      ensures !old(waitingForSecondOperand) ==>
                display == if old(display) == "0" then digit else old(display) + digit
      ensures !waitingForSecondOperand
      ensures firstOperand == old(firstOperand) && operator == old(operator) && loading == old(loading)
      ensures Snapshot() == M.InputDigit(old(Snapshot()), digit)
      ensures old(Valid()) && M.IsDigitKey(digit) ==> Valid()
    {
      ghost var before := Snapshot();
      if waitingForSecondOperand {
        display := digit;
        waitingForSecondOperand := false;
      } else {
        display := if display == "0" then digit else display + digit;
      }
      if M.Inv(before) && M.IsDigitKey(digit) {
        CalculatorProofs.InputDigitKeepsInv(before, digit);
      }
    }

    /** `inputDecimal` (App.tsx:45-54). */
    method InputDecimal()
      modifies this
      ensures old(waitingForSecondOperand) ==> display == "0."
      ensures !old(waitingForSecondOperand) ==>
                display == if '.' in old(display) then old(display) else old(display) + "."
      ensures !waitingForSecondOperand
      ensures firstOperand == old(firstOperand) && operator == old(operator) && loading == old(loading)
      ensures Snapshot() == M.InputDecimal(old(Snapshot()))
      ensures old(Valid()) ==> Valid()
    {
      ghost var before := Snapshot();
      if waitingForSecondOperand {
        display := "0.";
        waitingForSecondOperand := false;
        if M.Inv(before) {
          CalculatorProofs.InputDecimalKeepsInv(before);
        }
        return;
      }
      if '.' !in display {
        display := display + ".";
      }
      if M.Inv(before) {
        CalculatorProofs.InputDecimalKeepsInv(before);
      }
    }

    /** `clear` (App.tsx:56-61). */
    method Clear()
      modifies this
      ensures display == "0" && firstOperand == M.None && operator == M.None
      ensures !waitingForSecondOperand && loading == old(loading)
      ensures Snapshot() == M.Clear(old(Snapshot()))
      ensures old(Valid()) ==> Valid()
    {
      display := "0";
      firstOperand := M.None;
      operator := M.None;
      waitingForSecondOperand := false;
    }

    /** `performOperation` (App.tsx:63-78). The `await` on the backend is one atomic step:
        `loading` is raised, `calculateResult` runs, and `loading` is lowered. */
    method PerformOperation(nextOperator: string)
      modifies this
      ensures old(firstOperand).None? ==>
                firstOperand == M.Some(numerics.parseFloat(old(display))) && display == old(display) &&
                loading == old(loading)
      ensures M.Computes(old(Snapshot())) ==>
                var result := M.CalculateResult(numerics, backend, old(firstOperand).value,
                                                numerics.parseFloat(old(display)), old(operator).value);
                firstOperand == M.Some(result) && display == numerics.toString(result) && !loading
      ensures old(firstOperand).Some? && !M.Computes(old(Snapshot())) ==>
                firstOperand == old(firstOperand) && display == old(display) && loading == old(loading)
      ensures waitingForSecondOperand && operator == M.Some(nextOperator)
      ensures Snapshot() == M.PerformOperation(numerics, backend, old(Snapshot()), nextOperator)
      ensures old(Valid()) ==> Valid()
    {
      var inputValue := numerics.parseFloat(display);
      if firstOperand.None? {
        firstOperand := M.Some(inputValue);
      } else if operator.Some? && operator.value != "" {
        loading := true;
        var result := M.CalculateResult(numerics, backend, firstOperand.value, inputValue, operator.value);
        loading := false;
        display := numerics.toString(result);
        firstOperand := M.Some(result);
      }
      waitingForSecondOperand := true;
      operator := M.Some(nextOperator);
    }

    /** The keypad's `onClick` for the key labelled `btn` (App.tsx:109-119). */
    method OnClick(btn: string)
      requires btn in M.Keypad
      modifies this
      ensures Snapshot() == M.Press(numerics, backend, old(Snapshot()), M.Key(btn))
      ensures old(Valid()) ==> Valid()
    {
      CalculatorProofs.KeypadRouting(btn);
      if btn == "=" {
        PerformOperation("=");
      } else if btn in ["+", "-", "*", "/"] {
        PerformOperation(btn);
      } else if btn == "." {
        InputDecimal();
      } else {
        InputDigit(btn);
      }
    }
  }

  /** What a caller can conclude from the method contracts alone: 5 + 3 = shows the
      backend's sum, Clear returns to the state at mount, and 1 . . 2 shows "1.2". */
  method ClientExample<N>(numerics: M.Numerics<N>, backend: M.Backend<N>)
  {
    var c := new Calculator(numerics, backend);
    c.InputDigit("5");
    c.PerformOperation("+");
    c.InputDigit("3");
    c.PerformOperation("=");
    assert c.display == numerics.toString(backend.add(numerics.parseFloat("5"), numerics.parseFloat("3")));
    c.Clear();
    assert c.Snapshot() == M.Initial();
    c.InputDigit("1");
    c.InputDecimal();
    assert c.display == "1.";
    c.InputDecimal();
    c.InputDigit("2");
    assert c.display == "1.2";
  }
}
