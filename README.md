# Calculator input state machine

A Dafny model of the input state machine inside the iOS calculator's
`CalculatorViewController`. The controller turns button presses into two label
texts and a token string:

- the number label (`numberInput`);
- the operator label (`operatorInput`);
- the rows of the expression stack view (`expressionStackView`), one row per
  committed operator/operand pair;
- `totalCalculation`, the flat token string that Equals hands to the
  expression evaluator.

The handlers covered are the number and decimal-point buttons, the operator
buttons, Equals, and the AC / CE / sign-toggle button. UIKit wiring is not
modelled.

The model has four layers:

- `Strings` (strings.dfy) holds the plain string filters the controller uses:
  `removeComma`, `removeWhitespaces`, the `filter` that strips "-", counting
  ".", and `String.contains`.
- `CalculatorModel` (calculator_model.dfy) gives the controller's state as a
  value (`State`, with `Entry` for one stack-view row). Each button handler is
  a transition function (`NumberButton`, `OperatorButton`, `ResultButton`,
  `ChangeValueButton`), and `Run` applies a sequence of presses.
- `CalculatorProperties` (calculator_properties.dfy) proves what the handlers
  promise, for every formatter, zero test, evaluator and error text, except
  where a lemma's requires adds a condition on them
  (`ConsecutiveOperatorsReplace` needs the zero test to hold of "0" and "0"
  not to contain the error text). It also
  proves an invariant that every press keeps: the token string ends with the
  tokens of the rows still on screen, and it never holds a comma or a space.
- `CalculatorController` (calculator_view_controller.dfy) is the class
  `CalculatorViewController`. Its fields are the labels, the rows and the token
  string. Its methods mirror the Swift handlers and their guard helpers one for
  one, side effects included: `addNewNumber` writes the label before the
  decimal-point guard runs, `clearStackView` runs inside guards, and
  `isCurrentNumberEqualToZero` writes the operator label. Each handler is
  proved to produce exactly the matching transition of `CalculatorModel` and
  to keep the invariant.

Three collaborators that the controller calls but does not define are
parameters of the model. In `Collaborators`, and as constant fields of the
class, they are:

- `format`: `Double(_)` followed by the decimal `NumberFormatter`. None when
  either returns nil.
- `isZero`: the test `Double(text) != 0.0`, negated. Text that does not parse
  is not zero.
- `evaluate`: `ExpressionParser.parse(from:)`, then `result()`, then the
  formatter. None when the evaluator throws or the formatter returns nil; the
  display then stays as it was.

The localized divide-by-zero text is a fourth parameter, `dividedByZero`. This
file never writes it; it only looks for it as a substring of the number label.

The model follows the code as written, including the places where it differs
from the usual description of a pocket calculator:

- Equals resets nothing. The rows, the operator label and the token string
  survive a result. So "1 2 + 3 =" followed by "- 2 =" hands "12+3+15-2" to the
  evaluator, not "15-2" (`OperatorAfterResultExtendsOldExpression`).
- `clearStackView` drops the rows but not the token string.
- An operator press always leaves "0" in the number label, even when it was
  refused.
- Text holding a "." is shown exactly as typed and never reformatted.
- The first operand is refused by a literal comparison with "0". Later
  operands are compared with zero numerically.
- A failed evaluation leaves the number label as it was; there is no frozen
  error state.
- Two guards are named for the moment after a result has been shown:
  `isNotAdditionalNumberInputAfterResultHasBeenShown` and
  `isAdditionalOperatorAfterResultHasBeenShown`. Both test for rows with an
  empty operator label. Since Equals keeps the operator label, that state
  never arises from the start state as long as every operator button has a
  title (`RowsWithoutOperatorUnreachable`); only an operator button with an
  empty title leads into it. The model calls the
  state `RowsWithoutOperator` and keeps both branches as written, but for
  real buttons they are dead.
- As a consequence, a digit typed after Equals extends the shown result
  instead of starting a new number: after "15" is shown, "2" shows the
  formatting of "152" (`NumberAfterEqualsExtendsResult`).

## Model

| member | source | states |
|---|---|---|
| Strings.CountZeroIff | Calculator/Scene/Calculator/Controller/CalculatorViewController.swift:89 | the count of "." is below one exactly when the text holds no "." |
| Strings.Count | Calculator/Scene/Calculator/Controller/CalculatorViewController.swift:89 | the number of occurrences of a character never exceeds the text's length |
| Strings.CountAppend | Calculator/Scene/Calculator/Controller/CalculatorViewController.swift:89 | counting distributes over concatenation |
| Strings.CountSingle | Calculator/Scene/Calculator/Controller/CalculatorViewController.swift:89 | a one-character text counts one exactly when it is the counted character |
| Strings.RemoveAll | Calculator/Scene/Calculator/Controller/CalculatorViewController.swift:368 | the filtered text holds no occurrence of the removed character, is a subsequence of the input (other characters kept in order) and is shorter by exactly the number of occurrences; `RemoveAllUnique` shows this determines it |
| Strings.RemoveAllUnique | Calculator/Scene/Calculator/Controller/CalculatorViewController.swift:368 | any subsequence of the text that avoids the character and keeps every other occurrence equals the filtered text |
| Strings.RemoveAllAppend | Calculator/Scene/Calculator/Controller/CalculatorViewController.swift:130-134 | removal distributes over concatenation, so the kept characters stay in their order |
| Strings.RemoveAllSingle | Calculator/Scene/Calculator/Controller/CalculatorViewController.swift:130-134 | a one-character text is dropped exactly when it is the removed character and kept otherwise |
| Strings.RemoveAllKeepsOtherCount | Calculator/Scene/Calculator/Controller/CalculatorViewController.swift:293-296 | removing one character leaves the count of every other character unchanged |
| Strings.RemoveAllIdentity | Calculator/Scene/Calculator/Controller/CalculatorViewController.swift:130-134 | removing a character that does not occur returns the text unchanged |
| Strings.RemoveAllIdempotent | Calculator/Scene/Calculator/Controller/CalculatorViewController.swift:130-134 | stripping the same character twice is the same as stripping it once |
| Strings.RemoveComma | Calculator/Scene/Calculator/Controller/CalculatorViewController.swift:130-134 | the result holds no comma and is the input with exactly its commas taken out, the other characters kept in order |
| Strings.RemoveWhitespaces | Calculator/Scene/Calculator/Controller/CalculatorViewController.swift:372-376 | the result holds no space and is the input with exactly its spaces taken out, the other characters kept in order |
| Strings.ContainsIff | Calculator/Scene/Calculator/Controller/CalculatorViewController.swift:210 | the substring test holds exactly when the pattern occurs at some position of the text |
| CalculatorModel.Token | Calculator/Scene/Calculator/Controller/CalculatorViewController.swift:293-296 | a label's contribution to the token string is the label with exactly its spaces and commas taken out, the other characters kept in order |
| CalculatorModel.EntryTokens | Calculator/Scene/Calculator/Controller/CalculatorViewController.swift:293-298 | a row's tokens hold no comma and no space and are no longer than its two labels |
| CalculatorModel.Commit | Calculator/Scene/Calculator/Controller/CalculatorViewController.swift:248-303 | a commit keeps both labels, appends exactly one row (operator label, number label) after the existing ones, only extends the token string, and extends the flattened rows by exactly the tokens it appends |
| CalculatorModel.NumberButton | Calculator/Scene/Calculator/Controller/CalculatorViewController.swift:24-106 | a number press never changes the operator label or the token string, and keeps the rows except in the rows-without-operator state, where it empties them |
| CalculatorModel.OperatorButton | Calculator/Scene/Calculator/Controller/CalculatorViewController.swift:170-311 | after any operator press, accepted or refused, the number label is "0", the operator label is the old one or the title, and the token string has only grown |
| CalculatorModel.ResultButton | Calculator/Scene/Calculator/Controller/CalculatorViewController.swift:322-340 | Equals keeps the operator label, only extends the token string, and either keeps the rows or appends the one row (operator, number) |
| CalculatorModel.ChangeValueButton | Calculator/Scene/Calculator/Controller/CalculatorViewController.swift:342-353 | only "AC" touches anything but the number label; "AC" and "CE" leave "0" in it |
| CalculatorModel.ToggleSign | Calculator/Scene/Calculator/Controller/CalculatorViewController.swift:361-370 | "0" and "NAN" are kept; text not starting with "-" gets "-" in front; text starting with "-" is exactly that text with every "-" taken out, the rest in order |
| CalculatorProperties.CommaCheckMeaning | Calculator/Scene/Calculator/Controller/CalculatorViewController.swift:88-94 | the decimal-point guard refuses a press exactly when the title is "." and the number already holds a "." |
| CalculatorProperties.SecondDecimalPointIgnored | Calculator/Scene/Calculator/Controller/CalculatorViewController.swift:72-94 | outside the rows-without-operator state, "." on a number that already has a "." changes nothing at all |
| CalculatorProperties.DecimalTextStoredRaw | Calculator/Scene/Calculator/Controller/CalculatorViewController.swift:77-106 | when the typed text holds a ".", the number label becomes exactly old text + title, whatever the formatter does, and nothing else changes |
| CalculatorProperties.IntegerTextReformatted | Calculator/Scene/Calculator/Controller/CalculatorViewController.swift:28-38 | when the typed text holds no ".", the label shows the formatter's rendering of it with commas removed, or the raw typed text when formatting fails; nothing else changes |
| CalculatorProperties.NumberDropsRowsWithoutOperator | Calculator/Scene/Calculator/Controller/CalculatorViewController.swift:63-70 | with rows but no operator, a number press drops the rows and shows the raw title, and keeps the token string |
| CalculatorProperties.OperatorRejectedOnErrorText | Calculator/Scene/Calculator/Controller/CalculatorViewController.swift:205-216 | while the number holds the divide-by-zero text, an operator is refused, the rows are dropped, and the operator label and token string stay |
| CalculatorProperties.ZeroFirstOperandRejected | Calculator/Scene/Calculator/Controller/CalculatorViewController.swift:218-224 | with the literal "0" and no rows, an operator press leaves the whole state unchanged |
| CalculatorProperties.ZeroOperandReplacesOperator | Calculator/Scene/Calculator/Controller/CalculatorViewController.swift:235-246 | a numerically zero operand after committed rows only replaces the operator label; no row and no tokens are added |
| CalculatorProperties.AcceptedOperatorCommits | Calculator/Scene/Calculator/Controller/CalculatorViewController.swift:170-311 | an accepted operator adds exactly one row (old operator, number), extends the token string by both labels stripped of spaces and commas, shows the new operator and resets the number to "0" |
| CalculatorProperties.OperatorRecommitsRowsWithoutOperator | Calculator/Scene/Calculator/Controller/CalculatorViewController.swift:226-233 | with rows but an empty operator label, an operator replaces the rows by the single row ("", number) and extends the token string by the number alone |
| CalculatorProperties.OperatorGrowsHistoryIff | Calculator/Scene/Calculator/Controller/CalculatorViewController.swift:185-203 | an operator adds a row to the existing ones exactly when the guards accept it outside the rows-without-operator state |
| CalculatorProperties.ConsecutiveOperatorsReplace | Calculator/Scene/Calculator/Controller/CalculatorViewController.swift:185-246 | when "0" counts as zero, a second operator straight after an accepted one only replaces the operator label |
| CalculatorProperties.ResultIgnoredWithoutOperator | Calculator/Scene/Calculator/Controller/CalculatorViewController.swift:322-325 | Equals with an empty operator label changes nothing |
| CalculatorProperties.ResultCommitsAndEvaluates | Calculator/Scene/Calculator/Controller/CalculatorViewController.swift:322-340 | Equals commits one row as an accepted operator does, evaluates the grown token string and shows the answer (or keeps the number when evaluation fails); the rows, operator label and token string are not reset |
| CalculatorProperties.OperatorAfterResultExtendsOldExpression | Calculator/Scene/Calculator/Controller/CalculatorViewController.swift:322-340 | an accepted operator after Equals commits the shown result behind the old expression: the token string gains old operator, old number, old operator and result, in that order |
| CalculatorProperties.AllClearResets | Calculator/Scene/Calculator/Controller/CalculatorViewController.swift:344-359 | "AC" restores the initial state: "0", no operator, no rows, empty token string |
| CalculatorProperties.ClearEntryOnlyNumber | Calculator/Scene/Calculator/Controller/CalculatorViewController.swift:347-348 | "CE" sets the number label to "0" and changes nothing else |
| CalculatorProperties.SignToggleOnlyNumber | Calculator/Scene/Calculator/Controller/CalculatorViewController.swift:349-352 | every other title toggles the sign of the number label and changes nothing else |
| CalculatorProperties.ToggleSignTwice | Calculator/Scene/Calculator/Controller/CalculatorViewController.swift:361-370 | toggling twice restores any text that holds no "-" |
| CalculatorProperties.ToggleSignStripsNegation | Calculator/Scene/Calculator/Controller/CalculatorViewController.swift:361-370 | toggling "-" followed by text without "-" gives back that text |
| CalculatorProperties.InitialValid | Calculator/Scene/Calculator/Controller/CalculatorViewController.swift:16-22 | the state after loading satisfies the token-string invariant |
| CalculatorProperties.CommitValid | Calculator/Scene/Calculator/Controller/CalculatorViewController.swift:285-302 | committing a row appends the same tokens to the token string as to the flattened rows, so the rows stay a suffix of the token string, and adds no comma or space |
| CalculatorProperties.DroppedRowsValid | Calculator/Scene/Calculator/Controller/CalculatorViewController.swift:387-389 | dropping every row keeps the invariant, although the token string keeps the dropped rows' tokens |
| CalculatorProperties.StepValid | Calculator/Scene/Calculator/Controller/CalculatorViewController.swift:24-389 | every button press keeps the invariant: the token string ends with the tokens of the rows on screen and holds no comma or space |
| CalculatorProperties.RunValid | Calculator/Scene/Calculator/Controller/CalculatorViewController.swift:24-389 | any sequence of presses from a valid state ends in a valid state |
| CalculatorProperties.EvaluatorInputHasNoSeparators | Calculator/Scene/Calculator/Controller/CalculatorViewController.swift:329 | after any presses from the initial state, the token string given to the evaluator holds no comma and no space |
| CalculatorProperties.StepKeepsOperatorWithRows | Calculator/Scene/Calculator/Controller/CalculatorViewController.swift:322-359 | no press except an operator with an empty title leads into rows with an empty operator label: Equals keeps the label and only "AC" empties it, with the rows |
| CalculatorProperties.RunKeepsOperatorWithRows | Calculator/Scene/Calculator/Controller/CalculatorViewController.swift:322-359 | the same for any sequence of presses whose operator buttons all have titles |
| CalculatorProperties.RowsWithoutOperatorUnreachable | Calculator/Scene/Calculator/Controller/CalculatorViewController.swift:63-70 | from the start state, with titled operator buttons, the state this guard (and the one at lines 226-233) tests for never arises |
| CalculatorProperties.UntitledOperatorLeavesRowsWithoutOperator | Calculator/Scene/Calculator/Controller/CalculatorViewController.swift:176-183 | an accepted operator press with an empty title does lead into that state |
| CalculatorProperties.NumberAfterEqualsExtendsResult | Calculator/Scene/Calculator/Controller/CalculatorViewController.swift:24-106 | a digit after Equals is appended to the shown result and reformatted (or kept raw after a "."); rows, operator label and token string stay |
| CalculatorController.CalculatorViewController.constructor | Calculator/Scene/Calculator/Controller/CalculatorViewController.swift:18-22 | after loading: number "0", empty operator, no rows, empty token string |
| CalculatorController.CalculatorViewController.NumberButtonDidTapped | Calculator/Scene/Calculator/Controller/CalculatorViewController.swift:24-26 | the new state is the number-press transition of the old one, and the invariant is kept |
| CalculatorController.CalculatorViewController.UpdateNumberInput | Calculator/Scene/Calculator/Controller/CalculatorViewController.swift:28-38 | the guard chain followed by formatting yields exactly the number-press transition |
| CalculatorController.CalculatorViewController.CheckNumber | Calculator/Scene/Calculator/Controller/CalculatorViewController.swift:40-50 | returns the typed text only when it passed both guards and holds no "."; otherwise none, with each guard's effect on the labels |
| CalculatorController.CalculatorViewController.IsAdditionalNumberInput | Calculator/Scene/Calculator/Controller/CalculatorViewController.swift:52-61 | returns the current number, or none after starting a new number when rows exist with an empty operator label |
| CalculatorController.CalculatorViewController.IsNotAdditionalNumberInputAfterResultHasBeenShown | Calculator/Scene/Calculator/Controller/CalculatorViewController.swift:63-70 | false exactly when rows exist and the operator label is empty, after dropping the rows and showing the title |
| CalculatorController.CalculatorViewController.IsUsingComma | Calculator/Scene/Calculator/Controller/CalculatorViewController.swift:72-86 | refuses a second "." without effect; otherwise writes text + title to the label and passes it on only when it holds no "." |
| CalculatorController.CalculatorViewController.AddNewNumber | Calculator/Scene/Calculator/Controller/CalculatorViewController.swift:96-106 | writes number + title to the label and returns it |
| CalculatorController.CalculatorViewController.SetNumber | Calculator/Scene/Calculator/Controller/CalculatorViewController.swift:144-146 | only the number label changes |
| CalculatorController.CalculatorViewController.OperatorButtonDidTapped | Calculator/Scene/Calculator/Controller/CalculatorViewController.swift:170-174 | the new state is the operator-press transition of the old one, and the invariant is kept |
| CalculatorController.CalculatorViewController.UpdateOperatorInput | Calculator/Scene/Calculator/Controller/CalculatorViewController.swift:176-183 | the operator-press transition, except that the number label still holds its old text |
| CalculatorController.CalculatorViewController.CheckOperator | Calculator/Scene/Calculator/Controller/CalculatorViewController.swift:185-203 | accepts exactly when the number does not hold the error text, is not a literal "0" before any row, and is not zero after rows unless the operator label is empty; states each guard's effect on rows and labels |
| CalculatorController.CalculatorViewController.IsNumberEqualToNaN | Calculator/Scene/Calculator/Controller/CalculatorViewController.swift:205-216 | false exactly when the number holds the divide-by-zero text, after dropping the rows |
| CalculatorController.CalculatorViewController.OperatorButtonDidTappedWhileFirstOperandIsZero | Calculator/Scene/Calculator/Controller/CalculatorViewController.swift:218-224 | false exactly when the number label is the literal "0" and no row exists |
| CalculatorController.CalculatorViewController.IsAdditionalOperatorAfterResultHasBeenShown | Calculator/Scene/Calculator/Controller/CalculatorViewController.swift:226-233 | true exactly when rows exist and the operator label is empty, after dropping the rows |
| CalculatorController.CalculatorViewController.IsCurrentNumberEqualToZero | Calculator/Scene/Calculator/Controller/CalculatorViewController.swift:235-246 | false exactly when the number is zero and rows exist, after showing the pressed operator |
| CalculatorController.CalculatorViewController.AddCalculatorItems | Calculator/Scene/Calculator/Controller/CalculatorViewController.swift:248-254 | adds one row from the two labels and appends its tokens to the token string |
| CalculatorController.CalculatorViewController.MakeUIStackView | Calculator/Scene/Calculator/Controller/CalculatorViewController.swift:256-267 | the row holds the current operator and number labels, and the token string grows by their tokens |
| CalculatorController.CalculatorViewController.UpdateTotalInput | Calculator/Scene/Calculator/Controller/CalculatorViewController.swift:285-299 | the token string grows by the operator label, then the number label, each without spaces and commas |
| CalculatorController.CalculatorViewController.AddStackView | Calculator/Scene/Calculator/Controller/CalculatorViewController.swift:301-303 | the row is appended after the existing ones |
| CalculatorController.CalculatorViewController.SetOperator | Calculator/Scene/Calculator/Controller/CalculatorViewController.swift:305-307 | only the operator label changes, to the title |
| CalculatorController.CalculatorViewController.ResetNumberInput | Calculator/Scene/Calculator/Controller/CalculatorViewController.swift:309-311 | only the number label changes, to "0" |
| CalculatorController.CalculatorViewController.ResultButtonDidTapped | Calculator/Scene/Calculator/Controller/CalculatorViewController.swift:322-340 | the new state is the Equals transition of the old one, and the invariant is kept |
| CalculatorController.CalculatorViewController.ChangeValueButtonDidTapped | Calculator/Scene/Calculator/Controller/CalculatorViewController.swift:342-353 | the new state is the AC / CE / sign-toggle transition of the old one, and the invariant is kept |
| CalculatorController.CalculatorViewController.SetLabelText | Calculator/Scene/Calculator/Controller/CalculatorViewController.swift:355-359 | empties the operator label and the token string and shows the text; the rows stay |
| CalculatorController.CalculatorViewController.CheckNegativeNumber | Calculator/Scene/Calculator/Controller/CalculatorViewController.swift:361-370 | the number label becomes the sign toggle of the text, except that "0" and "NAN" leave it alone |
| CalculatorController.CalculatorViewController.ClearStackView | Calculator/Scene/Calculator/Controller/CalculatorViewController.swift:387-389 | drops every row and leaves both labels and the token string alone |

## Left out

- UIKit presentation is not modelled. This covers the outlets, label styling
  (`makeUILabel`, `setLabelProperty`), and the stack view's views beyond the
  (operator, operand) texts each row carries.
- `holdScrollDown` is not modelled. It is scroll geometry in floating point
  and changes no state of the machine.
- `Double(_)` parsing and the Foundation `NumberFormatter` are not modelled
  (`formatNumber`, `formatNumberForBeingRecognizedAsNumber`,
  `convertStringToDouble`, `formatNumberForExposure`, `setNumberFormatter`).
  They are floating point and locale-dependent, so they are the parameters
  `format`, `isZero` and `evaluate`, and nothing is assumed about them. The
  model applies `removeComma` itself before `format`, as the code does.
- `ExpressionParser` and `formula.result()` are not modelled. They are
  external; they enter only through `evaluate`. The `catch` branch only logs,
  and is modelled as "number label unchanged".
- The text of `CalculatorError.dividedByZero.localizedDescription` is not
  modelled. It is localized and defined elsewhere, so it is a parameter, and
  the constructor requires it to be non-empty because `contains` of an empty
  string is not clearly defined.
- `changeFormat` is not modelled. Nothing calls it, and it force-unwraps.
- The nil branches for a missing button title or label text are not modelled.
  UIKit optionals are taken as always present, so titles and labels are plain
  strings.
- Swift's `first`, `filter`, `count` and `contains` work on grapheme
  clusters (`Character`); the model works on single Dafny characters. A "-"
  followed by a combining mark is one `Character` other than "-" in Swift,
  but the model sees a leading '-'. Labels are taken to hold no combining
  sequences.
- `viewDidLoad` is modelled only as the constructor's final state. The label
  texts before it runs come from the storyboard.
