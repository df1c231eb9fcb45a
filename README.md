# Calculator input state machine

A model of the four-function calculator in `frontend/src/App.tsx`. The component keeps five
pieces of state: the display string, an optional first operand, an optional pending
operator, the "waiting for second operand" flag and the loading flag. Four handlers change
that state: `inputDigit`, `inputDecimal`, `clear` and `performOperation`. `calculateResult`
hands the arithmetic to a backend canister, and the keypad's `onClick` routes each key to
its handler.

Numbers are an abstract type `N`. `Numerics<N>` supplies the host's `parseFloat`,
`String(number)`, JavaScript falsiness of a number and the `NaN` value. `Backend<N>`
supplies the canister's `add`, `subtract`, `multiply` and `divide`. The model never
interprets either, so every property holds for any parser, formatter and backend.

Files:

- `calculator_model.dfy` (module `CalculatorModel`): the state as a datatype. Each handler
  is a pure step function on it. It also holds the keypad routing (`Dispatch`), one input
  (`Press`), a sequence of inputs (`Run`), and the state invariant (`Inv`).
- `calculator_app.dfy` (module `CalculatorApp`): class `Calculator`, with the five state
  fields updated in place by one method per handler. Each method states the new value of
  every field, equals the matching step function on `Snapshot()`, and keeps `Valid()`.
  It ends with `ClientExample`, a client that drives one object through 5 + 3 =, Clear
  and 1 . . 2 using only the method contracts.
- `calculator_proofs.dfy` (module `CalculatorProofs`): the invariant over every keypad
  sequence, what `performOperation` depends on, and the worked scenarios.
- `entry_reference.dfy` (module `EntryReference`): an independent description of what
  typing digits and "." shows, and the proof that the handlers agree with it. The
  description is: the text typed, with every "." after the first dropped and every
  redundant leading "0" stripped.

Some behaviours of the code are easy to miss:

- A repeated "=" is not a no-op. Once an operand is stored, `performOperation` takes the
  `else if (operator)` branch with the stored operator "=".
  `calculateResult` then returns the second operand. So the display becomes
  `String(parseFloat(display))` and that value becomes the first operand
  (`OperatorAfterEqualsReparses`).
- The stored operator is whatever key was pressed, "=" included (`PerformOperationOutcome`).
- `else if (operator)` tests JavaScript truthiness. An empty-string operator counts as
  absent (`Truthy`, `Computes`).
- Any falsy quotient becomes NaN, including a real quotient of zero (0 / 5). The model
  keeps this as written: `CalculateResult` says NaN is the only falsy value a division
  can give.

## Model

| member | source | states |
|---|---|---|
| `CalculatorModel.Dispatch` | frontend/src/App.tsx:109-119 | "=" and the four arithmetic labels go to `performOperation` with that label, "." goes to `inputDecimal`, and any other label goes to `inputDigit` with that label |
| `CalculatorModel.CalculateResult` | frontend/src/App.tsx:80-94 | "+", "-" and "*" return the matching backend result unchanged; for "/" a falsy quotient gives NaN and a truthy one is returned unchanged, so a division yields no falsy value except NaN; any other operator, "=" included, returns the second operand, whatever the first operand and the backend are |
| `CalculatorModel.Initial` | frontend/src/App.tsx:30-34 | the state at mount; no contract of its own, specified by `InitialSatisfiesInv`, `ClearResets` and `EntryFromMount` |
| `CalculatorModel.InputDigit` | frontend/src/App.tsx:36-43 | the `inputDigit` step on state values; no contract of its own, specified by `InputDigitKeepsInv`, `DigitEntryStep`, `EntryMatchesReference` and by `Calculator.InputDigit`, which equals it |
| `CalculatorModel.InputDecimal` | frontend/src/App.tsx:45-54 | the `inputDecimal` step on state values; no contract of its own, specified by `InputDecimalKeepsInv`, `DecimalIdempotent`, `DecimalOnDottedEntryIsNoOp`, `DecimalEntryStep` and by `Calculator.InputDecimal` |
| `CalculatorModel.Clear` | frontend/src/App.tsx:56-61 | the `clear` step on state values; no contract of its own, specified by `ClearResets`, `ScenarioClear` and by `Calculator.Clear` |
| `CalculatorModel.PerformOperation` | frontend/src/App.tsx:63-78 | the `performOperation` step, with the `await` taken atomically; no contract of its own, specified by `PerformOperationOutcome`, `NoBackendCallWithoutPendingOperator`, `OperatorAfterEqualsReparses`, `PendingOperatorApplied` and by `Calculator.PerformOperation` |
| `CalculatorModel.Apply` | frontend/src/App.tsx:110-118 | runs the handler a routed key names; no contract of its own, specified through `Press` by `PressKeepsInv` and `EntryStep` |
| `CalculatorModel.Press` | frontend/src/App.tsx:109-128 | one keypad key through `onClick`, or the Clear button; no contract of its own, specified by `PressKeepsInv`, `EntryStep` and by `Calculator.OnClick`, which equals it |
| `CalculatorModel.Run` | frontend/src/App.tsx:30-128 | a sequence of inputs from a given state; no contract of its own, specified by `RunKeepsInv`, `ReachableSatisfiesInv`, `EntryMatchesReference` and the scenario lemmas |
| `CalculatorProofs.KeypadRouting` | frontend/src/App.tsx:103-119 | of the sixteen keypad labels, exactly the five "secondary" ones `/ * - + =` reach `performOperation`, only "." reaches `inputDecimal`, and exactly the single-digit labels reach `inputDigit` |
| `CalculatorProofs.InputDigitKeepsInv` | frontend/src/App.tsx:36-43 | a digit keeps the invariant: the display stays non-empty, has at most one ".", and never starts with "0" followed by a digit |
| `CalculatorProofs.InputDecimalKeepsInv` | frontend/src/App.tsx:45-54 | "." keeps the invariant, including that the display holds at most one "." |
| `CalculatorProofs.PressKeepsInv` | frontend/src/App.tsx:56-78 | every keypad key and Clear keep the invariant: an operand is never stored without an operator, `loading` is low between events, and a number being typed is well-formed |
| `CalculatorProofs.RunKeepsInv` | frontend/src/App.tsx:30-78 | the invariant holds after any sequence of keypad inputs and Clear |
| `CalculatorProofs.InitialSatisfiesInv` | frontend/src/App.tsx:30-34 | the state at mount satisfies the invariant |
| `CalculatorProofs.ReachableSatisfiesInv` | frontend/src/App.tsx:30-78 | in every state reachable from mount: a first operand implies an operator, `loading` is false, and a display not awaiting a fresh number is non-empty, has at most one "." and has no redundant leading "0" |
| `CalculatorProofs.DecimalIdempotent` | frontend/src/App.tsx:45-54 | in every state, pressing "." twice is the same as pressing it once |
| `CalculatorProofs.DecimalOnDottedEntryIsNoOp` | frontend/src/App.tsx:51-53 | when no fresh number is pending and the display already holds ".", pressing "." leaves every field unchanged |
| `CalculatorProofs.ClearResets` | frontend/src/App.tsx:56-61 | from any state, Clear gives the state at mount except that `loading` keeps its value |
| `CalculatorProofs.PerformOperationOutcome` | frontend/src/App.tsx:63-78 | on every path the flag ends up true, the operator is the one just pressed, and an operand is stored. Only when an operand and a non-empty operator were stored does the display change, to the string form of the new operand, with `loading` low again. A first press stores `parseFloat(display)` and leaves the display alone |
| `CalculatorProofs.NoBackendCallWithoutPendingOperator` | frontend/src/App.tsx:63-94 | when no operand is stored, or the stored operator is not one of `+ - * /`, the new state is the same for any two backends: the backend is not consulted |
| `CalculatorProofs.OperatorAfterEqualsReparses` | frontend/src/App.tsx:68-92 | with an operand and "=" stored, an operator press sets the display to `String(parseFloat(display))` and the first operand to `parseFloat(display)`, so it is not a no-op |
| `CalculatorProofs.PendingOperatorApplied` | frontend/src/App.tsx:68-90 | with an operand `a` and an arithmetic operator stored, the matching backend operation is applied to `a` and the parsed display (a falsy quotient becomes NaN); the result is both shown and kept as the first operand |
| `CalculatorProofs.ScenarioAdd` | frontend/src/App.tsx:63-94 | 5 + 3 = shows the string form of `add(parseFloat("5"), parseFloat("3"))` |
| `CalculatorProofs.ScenarioDivideByZero` | frontend/src/App.tsx:88-90 | 6 / 0 = shows the string form of NaN when the backend's quotient is falsy |
| `CalculatorProofs.ScenarioChain` | frontend/src/App.tsx:63-78 | 9 * 2 + 1 = shows `add(multiply(9, 2), 1)`: the product becomes the first operand when "+" is pressed |
| `CalculatorProofs.ScenarioClear` | frontend/src/App.tsx:56-61 | any keypad sequence followed by Clear ends in the state at mount |
| `EntryReference.DigitEntryStep` | frontend/src/App.tsx:36-43 | a digit typed into an entry shows the reference form of the text typed so far followed by that digit; a lone "0" is replaced |
| `EntryReference.DecimalEntryStep` | frontend/src/App.tsx:45-54 | a "." typed into an entry shows the reference form of the text followed by "."; it is ignored when the entry already has one |
| `EntryReference.EntryStep` | frontend/src/App.tsx:109-119 | a digit or "." key routed through the keypad extends the entry as the reference says |
| `EntryReference.EntryMatchesReference` | frontend/src/App.tsx:36-54 | typing any sequence of digits and "." into a well-formed entry changes only the display, which equals the entry followed by the typed text with later "." dropped and redundant leading "0"s stripped |
| `EntryReference.EntryAfterOperator` | frontend/src/App.tsx:36-54 | right after an operator, when a fresh number is pending, typing a non-empty run of digits and "." changes only the display and the flag: the old display is discarded and the new one is the reference form of "0" followed by the typed text, with the flag lowered |
| `EntryReference.EntryFromMount` | frontend/src/App.tsx:30-54 | from mount, typing shows the typed text with the leading "0" suppressed and only the first "." kept |
| `EntryReference.ScenarioSecondDotIgnored` | frontend/src/App.tsx:45-54 | typing 1 . . 2 from mount shows "1.2" |
| `CalculatorApp.Calculator.constructor` | frontend/src/App.tsx:30-34 | the five fields start as "0", null, null, false, false, and the invariant holds |
| `CalculatorApp.Calculator.InputDigit` | frontend/src/App.tsx:36-43 | when waiting, the display becomes exactly the digit; otherwise a display of "0" is replaced by the digit and any other display gets the digit appended. The flag ends false, the other fields are unchanged, and a digit key keeps the invariant |
| `CalculatorApp.Calculator.InputDecimal` | frontend/src/App.tsx:45-54 | when waiting, the display becomes "0."; otherwise "." is appended only if the display has none. The flag ends false, the other fields are unchanged, and the invariant is kept |
| `CalculatorApp.Calculator.Clear` | frontend/src/App.tsx:56-61 | display "0", no operand, no operator, flag false, `loading` untouched |
| `CalculatorApp.Calculator.PerformOperation` | frontend/src/App.tsx:63-78 | a first press stores `parseFloat(display)` and keeps the display. With an operand and a truthy operator, both the display and the operand take `calculateResult`'s result, and `loading` is false after the call. Otherwise the operand and display are kept. Always: flag true and operator set to the key pressed |
| `CalculatorApp.Calculator.OnClick` | frontend/src/App.tsx:109-119 | a keypad key has exactly the effect of its handler, as `Press` routes it, and keeps the invariant |

## Left out

- Rendering, the MUI styled components and the spinner (App.tsx:1-27, 96-133): presentation only. The routing of keys to handlers is modelled; the layout is not.
- Real arithmetic and the backend canister (App.tsx:4, 83-89): a foreign asynchronous call whose code is not available. It is the uninterpreted `Backend<N>`.
- IEEE-754 parsing and formatting by `parseFloat` and `String(number)`: floating-point behaviour. Both are uninterpreted fields of `Numerics<N>`. So is JavaScript falsiness of a number, and nothing is assumed about it (not even that NaN is falsy).
- That the display parses to a finite number whenever an arithmetic call is made cannot be stated, with `parseFloat` uninterpreted. The code does not check it either.
- A backend call that rejects or never settles: `Backend<N>` is total and answers at once. In the code (App.tsx:69-77) a rejected `await` ends `performOperation` right after `setLoading(true)`. `loading` then stays true until a later `performOperation` call completes and lowers it at App.tsx:71; `clear` (App.tsx:56-61) never resets it, and neither `waitingForSecondOperand` nor `operator` is updated by the failed call. If the backend never settles again, `loading` stays true for good. So `CalculatorModel.OperandInvariant` (its `!loading` conjunct, and with it `ReachableSatisfiesInv`) and `CalculatorProofs.ScenarioClear` hold only because the modelled backend cannot fail.
- React's batched `useState` updates, stale closures, and a second key pressed while the backend call is pending: scheduling concerns. Each event, including the whole `await` in `performOperation`, is one atomic step. That step raises `loading`, computes, and lowers it. So `loading` is false between events, and Clear cannot meet an outstanding call.
- `CalculatorApp.Calculator.InputDigit`: keeps the display invariant only for a single-digit argument. The TypeScript handler accepts any string, but only keypad digits reach it.
- `CalculatorApp.Calculator.OnClick`: requires its label to be one of the sixteen keypad labels, as the source creates one closure per label of that array.
