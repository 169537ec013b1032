/**
 * The view controller's state machine as the controller runs it: label texts
 * and the token string are fields that the button handlers overwrite step by
 * step, through the same chain of guard helpers, side effects included. Each
 * handler's new state is the matching transition of CalculatorModel, and each
 * keeps the token-string invariant of CalculatorProperties.
 */
module CalculatorController {
  import opened Wrappers
  import opened Strings
  import opened CalculatorModel
  import CalculatorProperties

  class CalculatorViewController {
    /** Text of the `numberInput` label. */
    var numberText: string
    /** Text of the `operatorInput` label. */
    var operatorText: string
    /** The rows of `expressionStackView`, oldest first. */
    var history: seq<Entry>
    /** The token string handed to the evaluator. */
    var totalCalculation: string

    /** `Double(_)` followed by the decimal `NumberFormatter`. */
    const format: string -> Option<string>
    /** `Double(text) == 0.0`. */
    const isZero: string -> bool
    /** `ExpressionParser.parse(from:)`, `result()` and the formatter. */
    const evaluate: string -> Option<string>
    /** The localized description of the divide-by-zero error. */
    const dividedByZero: string

    function State(): CalculatorModel.State
      reads this
    {
      CalculatorModel.State(numberText, operatorText, history, totalCalculation)
    }

    function Env(): Collaborators
    {
      Collaborators(format, isZero, evaluate, dividedByZero)
    }

    ghost predicate Valid()
      reads this
    {
      CalculatorProperties.Valid(State())
    }

    /** The controller once `viewDidLoad` has run: "0", no operator, no rows, no tokens. */
    constructor (format: string -> Option<string>, isZero: string -> bool,
                 evaluate: string -> Option<string>, dividedByZero: string)
      requires dividedByZero != ""
      ensures State() == Initial() && Valid()
      ensures this.format == format && this.isZero == isZero
      ensures this.evaluate == evaluate && this.dividedByZero == dividedByZero
    {
      this.format := format;
      this.isZero := isZero;
      this.evaluate := evaluate;
      this.dividedByZero := dividedByZero;
      numberText := "0";
      operatorText := "";
      history := [];
      totalCalculation := "";
    }

    // ------------------------------------------------------------ number buttons

    method NumberButtonDidTapped(title: string)
      requires Valid()
      modifies this
      ensures State() == NumberButton(old(State()), title, format)
      ensures Valid()
    {
      UpdateNumberInput(title);
      CalculatorProperties.StepValid(old(State()), Number(title), Env());
    }

    method UpdateNumberInput(title: string)
      modifies this
      ensures State() == NumberButton(old(State()), title, format)
    {
      var number := CheckNumber(title);
      if number.None? {
        return;
      }
      var formattedNumber := format(RemoveComma(number.value));
      if formattedNumber.None? {
        return;
      }
      SetNumber(formattedNumber.value);
    }

    /**
     * The typed text when it still needs formatting; None when a guard stopped
     * the press, after the guard's own effect on the labels.
     */
    method CheckNumber(title: string) returns (r: Option<string>)
      modifies this
      ensures RowsWithoutOperator(old(State())) ==> r == None && State() == NumberButton(old(State()), title, format)
      ensures !RowsWithoutOperator(old(State())) && !IsCommaButtonNotTappedTwice(title, old(numberText)) ==>
        r == None && State() == old(State())
      ensures !RowsWithoutOperator(old(State())) && IsCommaButtonNotTappedTwice(title, old(numberText)) ==>
        && State() == old(State()).(numberText := old(numberText) + title)
        && r == (if '.' in old(numberText) + title then None else Some(old(numberText) + title))
    {
      var first := IsAdditionalNumberInput(title);
      if first.None? {
        return None;
      }
      r := IsUsingComma(title, first.value);
    }

    /**
     * The current text, unless rows exist while the operator label is empty, in
     * which case the press starts a new number. (Equals leaves the operator label
     * set, so despite the Swift name that case does not follow a shown result.)
     */
    method IsAdditionalNumberInput(title: string) returns (r: Option<string>)
      modifies this
      ensures RowsWithoutOperator(old(State())) ==>
        r == None && State() == old(State()).(history := [], numberText := title)
      ensures !RowsWithoutOperator(old(State())) ==> r == Some(numberText) && State() == old(State())
    {
      var text := numberText;
      var ok := IsNotAdditionalNumberInputAfterResultHasBeenShown(title);
      if !ok {
        return None;
      }
      return Some(text);
    }

    /** False, after dropping the rows and showing the title, when rows exist while the operator label is empty. */
    method IsNotAdditionalNumberInputAfterResultHasBeenShown(title: string) returns (ok: bool)
      modifies this
      ensures ok == !RowsWithoutOperator(old(State()))
      ensures State() == if ok then old(State()) else old(State()).(history := [], numberText := title)
    {
      if !(|history| <= 0 || operatorText != "") {
        ClearStackView();
        numberText := title;
        return false;
      }
      return true;
    }

    /**
     * Refuses a second ".", otherwise writes the typed text to the label, and
     * passes it on only when it holds no ".".
     */
    method IsUsingComma(title: string, text: string) returns (r: Option<string>)
      modifies this
      ensures !IsCommaButtonNotTappedTwice(title, text) ==> r == None && State() == old(State())
      ensures IsCommaButtonNotTappedTwice(title, text) ==>
        && State() == old(State()).(numberText := text + title)
        && r == (if '.' in text + title then None else Some(text + title))
    {
      if !IsCommaButtonNotTappedTwice(title, text) {
        return None;
      }
      var newText := AddNewNumber(title, text);
      if '.' in newText {
        return None;
      }
      return Some(newText);
    }

    method AddNewNumber(title: string, number: string) returns (r: string)
      modifies this
      ensures r == number + title
      ensures State() == old(State()).(numberText := number + title)
    {
      numberText := number + title;
      return numberText;
    }

    method SetNumber(number: string)
      modifies this
      ensures State() == old(State()).(numberText := number)
    {
      numberText := number;
    }

    // ------------------------------------------------------------ operator buttons

    method OperatorButtonDidTapped(title: string)
      requires Valid()
      modifies this
      ensures State() == OperatorButton(old(State()), title, Env())
      ensures Valid()
    {
      UpdateOperatorInput(title);
      ResetNumberInput();
      CalculatorProperties.StepValid(old(State()), Operator(title), Env());
    }

    method UpdateOperatorInput(title: string)
      modifies this
      ensures State() == OperatorButton(old(State()), title, Env()).(numberText := old(numberText))
    {
      var ok := CheckOperator(title);
      if !ok {
        return;
      }
      AddCalculatorItems();
      SetOperator(title);
    }

    /** `checkOperator`: the four guards in order, each with its effect on the labels and rows. */
    method CheckOperator(title: string) returns (ok: bool)
      modifies this
      ensures ok == CalculatorProperties.OperatorAccepted(old(State()), Env())
      ensures var s := old(State());
        State() == (if Contains(s.numberText, dividedByZero) then s.(history := [])
                    else if s.numberText == "0" && |s.history| == 0 then s
                    else if RowsWithoutOperator(s) then s.(history := [])
                    else if isZero(s.numberText) && |s.history| > 0 then s.(operatorText := title)
                    else s)
    {
      var notError := IsNumberEqualToNaN();
      if !notError {
        return false;
      }
      var hasFirstOperand := OperatorButtonDidTappedWhileFirstOperandIsZero();
      if !hasFirstOperand {
        return false;
      }
      var orphanRows := IsAdditionalOperatorAfterResultHasBeenShown();
      if orphanRows {
        return true;
      }
      var nonZero := IsCurrentNumberEqualToZero(title);
      if !nonZero {
        return false;
      }
      return true;
    }

    /** False, after dropping the rows, while the number shows the divide-by-zero text. */
    method IsNumberEqualToNaN() returns (ok: bool)
      modifies this
      ensures ok == !Contains(old(numberText), dividedByZero)
      ensures State() == if ok then old(State()) else old(State()).(history := [])
    {
      if Contains(numberText, dividedByZero) {
        ClearStackView();
        return false;
      }
      return true;
    }

    /** False exactly when the number label is the literal "0" and no row exists yet. */
    method OperatorButtonDidTappedWhileFirstOperandIsZero() returns (ok: bool)
      ensures ok <==> numberText != "0" || history != []
    {
      if !(numberText != "0" || |history| > 0) {
        return false;
      }
      return true;
    }

    /** True, after dropping the rows, when rows exist while the operator label is empty. */
    method IsAdditionalOperatorAfterResultHasBeenShown() returns (orphanRows: bool)
      modifies this
      ensures orphanRows == RowsWithoutOperator(old(State()))
      ensures State() == if orphanRows then old(State()).(history := []) else old(State())
    {
      if operatorText == "" && |history| > 0 {
        ClearStackView();
        return true;
      }
      return false;
    }

    /** False, after showing the new operator, when a zero operand follows committed rows. */
    method IsCurrentNumberEqualToZero(title: string) returns (ok: bool)
      modifies this
      ensures ok == !(isZero(old(numberText)) && |old(history)| > 0)
      ensures State() == if ok then old(State()) else old(State()).(operatorText := title)
    {
      if !(!isZero(numberText) || |history| <= 0) {
        operatorText := title;
        return false;
      }
      return true;
    }

    /** `addCalculatorItems`: one row from the two labels, its tokens appended. */
    method AddCalculatorItems()
      modifies this
      ensures State() == Commit(old(State()))
    {
      var entry := MakeUIStackView();
      AddStackView(entry);
    }

    method MakeUIStackView() returns (e: Entry)
      modifies this
      ensures e == Entry(operatorText, numberText)
      ensures State() == old(State()).(totalCalculation := old(totalCalculation) + EntryTokens(e))
    {
      e := Entry(operatorText, numberText);
      UpdateTotalInput();
    }

    /** Appends the operator label, then the number label, spaces and commas removed. */
    method UpdateTotalInput()
      modifies this
      ensures State() == old(State()).(totalCalculation :=
        old(totalCalculation) + Token(old(operatorText)) + Token(old(numberText)))
    {
      var secondTrimmedOperand := RemoveComma(RemoveWhitespaces(numberText));
      var secondTrimmedOperator := RemoveComma(RemoveWhitespaces(operatorText));
      totalCalculation := totalCalculation + (secondTrimmedOperator + secondTrimmedOperand);
    }

    method AddStackView(e: Entry)
      modifies this
      ensures State() == old(State()).(history := old(history) + [e])
    {
      history := history + [e];
    }

    method SetOperator(title: string)
      modifies this
      ensures State() == old(State()).(operatorText := title)
    {
      operatorText := title;
    }

    method ResetNumberInput()
      modifies this
      ensures State() == old(State()).(numberText := "0")
    {
      numberText := "0";
    }

    // ------------------------------------------------------------ equals

    method ResultButtonDidTapped()
      requires Valid()
      modifies this
      ensures State() == ResultButton(old(State()), evaluate)
      ensures Valid()
    {
      if operatorText == "" {
        return;
      }
      AddCalculatorItems();
      var result := evaluate(totalCalculation);
      if result.Some? {
        SetNumber(result.value);
      }
      CalculatorProperties.StepValid(old(State()), Result, Env());
    }

    // ------------------------------------------------------------ AC, CE and the sign toggle

    method ChangeValueButtonDidTapped(title: string)
      requires Valid()
      modifies this
      ensures State() == ChangeValueButton(old(State()), title)
      ensures Valid()
    {
      if title == "AC" {
        ClearStackView();
        SetLabelText("0");
      } else if title == "CE" {
        numberText := "0";
      } else {
        CheckNegativeNumber(numberText);
      }
      CalculatorProperties.StepValid(old(State()), ChangeValue(title), Env());
    }

    /** Empties the operator label and the token string and shows `text`; the rows stay. */
    method SetLabelText(text: string)
      modifies this
      ensures State() == old(State()).(operatorText := "", numberText := text, totalCalculation := "")
    {
      operatorText := "";
      numberText := text;
      totalCalculation := "";
    }

    method CheckNegativeNumber(text: string)
      modifies this
      ensures State() == old(State()).(numberText := if text == "0" || text == "NAN" then old(numberText)
                                                    else ToggleSign(text))
    {
      if text == "0" {
        return;
      }
      if text == "NAN" {
        return;
      }
      if text == [] || text[0] != '-' {
        numberText := "-" + text;
        return;
      }
      numberText := RemoveAll(text, '-');
    }

    /** `clearStackView`: drops every row and leaves the labels and the token string alone. */
    method ClearStackView()
      modifies this
      ensures State() == old(State()).(history := [])
    {
      history := [];
    }
  }
}
