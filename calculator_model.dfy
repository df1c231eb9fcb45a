/**
 * The calculator's input state machine (frontend/src/App.tsx), as values.
 *
 * Numbers are an abstract type `N`: parsing (`parseFloat`), formatting (`String(number)`),
 * JavaScript truthiness of a number and the NaN value are supplied by `Numerics`, and the
 * four arithmetic calls to the backend canister by `Backend`. Neither is interpreted here.
 */
module CalculatorModel {

  datatype Option<T> = None | Some(value: T)

  /** The host's number runtime: `parseFloat`, `String(number)`, falsiness, and `NaN`. */
  datatype Numerics<!N> = Numerics(
    parseFloat: string -> N,
    toString: N -> string,
    falsy: N -> bool,
    nan: N)

  /** The four operations the backend canister offers. */
  datatype Backend<!N> = Backend(
    add: (N, N) -> N,
    subtract: (N, N) -> N,
    multiply: (N, N) -> N,
    divide: (N, N) -> N)

  /** The five pieces of component state. */
  datatype State<N> = State(
    display: string,
    firstOperand: Option<N>,
    operator: Option<string>,
    waitingForSecondOperand: bool,
    loading: bool)

  /** The state at mount: display "0", no operand, no operator, both flags false. */
  function Initial<N>(): State<N> {
    State("0", None, None, false, false)
  }

  // ---------------------------------------------------------------------------
  // Keys

  /** The sixteen keypad labels, in the order they are laid out. */
  const Keypad: seq<string> :=
    ["7", "8", "9", "/", "4", "5", "6", "*", "1", "2", "3", "-", "0", ".", "=", "+"]

  /** The operators the keypad routes to `performOperation` besides "=". */
  const ArithmeticKeys: seq<string> := ["+", "-", "*", "/"]

  predicate IsDigitChar(c: char) {
    '0' <= c <= '9'
  }

  /** A key label that is one decimal digit. */
  predicate IsDigitKey(k: string) {
    |k| == 1 && IsDigitChar(k[0])
  }

  /** The handler a keypad key is routed to. */
  datatype Event = Digit(digit: string) | Decimal | Operation(op: string)

  /** One user input: a keypad key, or the separate Clear button. */
  datatype Input = Key(btn: string) | ClearButton

  /** The keypad's `onClick` routing: "=" and the four operators go to `performOperation`,
      "." to `inputDecimal`, everything else to `inputDigit`. */
  function Dispatch(btn: string): (e: Event)
    ensures e.Operation? <==> btn == "=" || btn in ArithmeticKeys
    ensures e.Operation? ==> e.op == btn
    ensures e.Decimal? <==> btn == "."
    ensures e.Digit? ==> e.digit == btn
  {
    if btn == "=" then Operation("=")
    else if btn in ArithmeticKeys then Operation(btn)
    else if btn == "." then Decimal
    else Digit(btn)
  }

  // ---------------------------------------------------------------------------
  // The display buffer during entry

  /** No two positions of `s` both hold a decimal point. */
  predicate AtMostOneDot(s: string) {
    forall i, j :: 0 <= i < j < |s| && s[i] == '.' ==> s[j] != '.'
  }

  /** `s` does not start with a "0" directly followed by another digit. */
  predicate NoLeadingZero(s: string) {
    !(|s| >= 2 && s[0] == '0' && IsDigitChar(s[1]))
  }

  /** What the display buffer looks like while a number is being typed. */
  predicate WellFormedEntry(s: string) {
    |s| >= 1 && AtMostOneDot(s) && NoLeadingZero(s)
  }

  // ---------------------------------------------------------------------------
  // Handlers

  /** `inputDigit` (App.tsx:36-43). */
  function InputDigit<N>(s: State<N>, digit: string): State<N> {
    if s.waitingForSecondOperand then
      s.(display := digit, waitingForSecondOperand := false)
    else
      s.(display := if s.display == "0" then digit else s.display + digit)
  }

  /** `inputDecimal` (App.tsx:45-54). */
  function InputDecimal<N>(s: State<N>): State<N> {
    if s.waitingForSecondOperand then
      s.(display := "0.", waitingForSecondOperand := false)
    else if '.' !in s.display then
      s.(display := s.display + ".")
    else
      s
  }

  /** `clear` (App.tsx:56-61); `loading` is not among the fields it resets. */
  function Clear<N>(s: State<N>): State<N> {
    s.(display := "0", firstOperand := None, operator := None, waitingForSecondOperand := false)
  }

  /** `calculateResult` (App.tsx:80-94): one backend call per arithmetic operator, a falsy
      quotient replaced by NaN, and the second operand for any other operator. */
  function CalculateResult<N>(num: Numerics<N>, backend: Backend<N>, firstOperand: N, secondOperand: N,
                              operator: string): (r: N)
    // addition, subtraction and multiplication return the backend's result unchanged
    ensures operator == "+" ==> r == backend.add(firstOperand, secondOperand)
    ensures operator == "-" ==> r == backend.subtract(firstOperand, secondOperand)
    ensures operator == "*" ==> r == backend.multiply(firstOperand, secondOperand)
    // a falsy quotient is replaced by NaN
    ensures operator == "/" && num.falsy(backend.divide(firstOperand, secondOperand)) ==> r == num.nan
    // so a division never yields a falsy value other than NaN
    ensures operator == "/" && num.falsy(r) ==> r == num.nan
    // a truthy quotient is passed through untouched
    ensures operator == "/" && !num.falsy(backend.divide(firstOperand, secondOperand)) ==>
              r == backend.divide(firstOperand, secondOperand)
    // without a backend operator the backend and the first operand play no part
    ensures operator !in ArithmeticKeys ==> r == secondOperand
  {
    match operator
    case "+" => backend.add(firstOperand, secondOperand)
    case "-" => backend.subtract(firstOperand, secondOperand)
    case "*" => backend.multiply(firstOperand, secondOperand)
    case "/" =>
      var result := backend.divide(firstOperand, secondOperand);
      if !num.falsy(result) then result else num.nan
    case _ => secondOperand
  }

  /** JavaScript truthiness of a string: only the empty string is falsy. */
  predicate Truthy(s: string) {
    s != ""
  }

  /** Whether `performOperation` would call `calculateResult` in state `s` (App.tsx:66-68). */
  predicate Computes<N>(s: State<N>) {
    s.firstOperand.Some? && s.operator.Some? && Truthy(s.operator.value)
  }

  /** `performOperation` (App.tsx:63-78), with the `await` taken as one atomic step:
      `loading` is raised, the result computed, and `loading` lowered again. */
  function PerformOperation<N>(num: Numerics<N>, backend: Backend<N>, s: State<N>, nextOperator: string): State<N> {
    var inputValue := num.parseFloat(s.display);
    var computed :=
      if s.firstOperand.None? then
        s.(firstOperand := Some(inputValue))
      else if Computes(s) then
        var result := CalculateResult(num, backend, s.firstOperand.value, inputValue, s.operator.value);
        s.(loading := false, display := num.toString(result), firstOperand := Some(result))
      else
        s;
    computed.(waitingForSecondOperand := true, operator := Some(nextOperator))
  }

  /** The handler a routed key runs. */
  function Apply<N>(num: Numerics<N>, backend: Backend<N>, s: State<N>, e: Event): State<N> {
    match e
    case Digit(d) => InputDigit(s, d)
    case Decimal => InputDecimal(s)
    case Operation(op) => PerformOperation(num, backend, s, op)
  }

  /** One user input: a keypad key through `onClick` (App.tsx:109-119), or Clear (App.tsx:126). */
  function Press<N>(num: Numerics<N>, backend: Backend<N>, s: State<N>, i: Input): State<N> {
    match i
    case Key(btn) => Apply(num, backend, s, Dispatch(btn))
    case ClearButton => Clear(s)
  }

  /** A sequence of inputs, applied one after another. */
  function Run<N>(num: Numerics<N>, backend: Backend<N>, s: State<N>, inputs: seq<Input>): State<N>
    decreases |inputs|
  {
    if inputs == [] then s else Run(num, backend, Press(num, backend, s, inputs[0]), inputs[1..])
  }

  /** Inputs that a user can actually produce: labels of the keypad, or Clear. */
  predicate FromKeypad(inputs: seq<Input>) {
    forall i :: 0 <= i < |inputs| && inputs[i].Key? ==> inputs[i].btn in Keypad
  }

  // ---------------------------------------------------------------------------
  // The state invariant

  /** An operand is never stored without an operator, and `loading` is low between events. */
  predicate OperandInvariant<N>(s: State<N>) {
    (s.firstOperand.Some? ==> s.operator.Some?) && !s.loading
  }

  /** Unless a fresh number is about to start, the display is a well-formed entry. */
  predicate DisplayInvariant<N>(s: State<N>) {
    !s.waitingForSecondOperand ==> WellFormedEntry(s.display)
  }

  predicate Inv<N>(s: State<N>) {
    OperandInvariant(s) && DisplayInvariant(s)
  }
}
