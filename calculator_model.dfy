/**
 * The calculator controller's input state machine as values: the four pieces of
 * state the button handlers read and write, and one transition function per
 * button handler. The class in CalculatorController performs these transitions
 * step by step, and CalculatorProperties proves what they promise.
 */
module CalculatorModel {
  import opened Wrappers
  import opened Strings

  /** One committed row of the expression history: the operator label and the operand label. */
  datatype Entry = Entry(operator: string, operand: string)

  /**
   * numberText and operatorText are the texts of the `numberInput` and
   * `operatorInput` labels, history stands for the rows of
   * `expressionStackView`, and totalCalculation is the token string that Equals
   * hands to the evaluator.
   */
  datatype State = State(
    numberText: string,
    operatorText: string,
    history: seq<Entry>,
    totalCalculation: string)

  /**
   * What the state machine consults but does not define.
   * format: `Double(_)` followed by the decimal `NumberFormatter`; None when
   *   either gives nil.
   * isZero: `Double(text) == 0.0` (false when the text does not parse).
   * evaluate: `ExpressionParser.parse(from:)`, `result()` and the formatter;
   *   None when the evaluator throws or the formatter gives nil.
   * dividedByZero: the localized description of the divide-by-zero error.
   */
  datatype Collaborators = Collaborators(
    format: string -> Option<string>,
    isZero: string -> bool,
    evaluate: string -> Option<string>,
    dividedByZero: string)

  /** The state `viewDidLoad` leaves behind. */
  function Initial(): State
  {
    State("0", "", [], "")
  }

  /**
   * Rows exist while the operator label is empty. The guards named
   * "after result has been shown" test this, but Equals leaves the operator
   * label set, so with non-empty operator titles this state never arises
   * (CalculatorProperties.RowsWithoutOperatorUnreachable).
   */
  predicate RowsWithoutOperator(s: State)
  {
    |s.history| > 0 && s.operatorText == ""
  }

  /** A label's contribution to the token string: spaces, then commas, removed. */
  function Token(text: string): (r: string)
    ensures ',' !in r && ' ' !in r
    ensures forall x :: x != ',' && x != ' ' ==> (x in r <==> x in text)
    ensures IsSubsequence(r, text) && |r| + Count(text, ',') + Count(text, ' ') == |text|
  {
    var spaceless := RemoveWhitespaces(text);
    RemoveAllKeepsOtherCount(text, ' ', ',');
    SubsequenceTransitive(RemoveComma(spaceless), spaceless, text);
    RemoveComma(spaceless)
  }

  /** A committed row's contribution to the token string: its operator, then its operand. */
  function EntryTokens(e: Entry): (r: string)
    ensures ',' !in r && ' ' !in r
    ensures |r| <= |e.operator| + |e.operand|
  {
    Token(e.operator) + Token(e.operand)
  }

  /** The token string a sequence of rows stands for, in commit order. */
  function Flatten(h: seq<Entry>): string
  {
    if h == [] then "" else Flatten(h[..|h| - 1]) + EntryTokens(h[|h| - 1])
  }

  /** `addCalculatorItems`: one row from the two labels, and its tokens appended to the token string. */
  function Commit(s: State): (r: State)
    ensures r.numberText == s.numberText && r.operatorText == s.operatorText
    ensures |r.history| == |s.history| + 1 && r.history[..|s.history|] == s.history
    ensures r.history[|s.history|] == Entry(s.operatorText, s.numberText)
    ensures s.totalCalculation <= r.totalCalculation
    ensures Flatten(r.history) == Flatten(s.history) + r.totalCalculation[|s.totalCalculation|..]
  {
    var e := Entry(s.operatorText, s.numberText);
    assert (s.history + [e])[..|s.history|] == s.history;
    s.(history := s.history + [e], totalCalculation := s.totalCalculation + EntryTokens(e))
  }

  /** `isCommaButtonNotTappedTwice`: a press is refused only when it is "." and the number already has a ".". */
  predicate IsCommaButtonNotTappedTwice(title: string, number: string)
  {
    title != "." || Count(number, '.') < 1
  }

  /**
   * `numberButtonDidTapped`. With rows but an empty operator label the rows are
   * dropped and the label shows the title; a second "." is ignored; text holding
   * a "." is kept exactly as typed; otherwise the typed text, commas removed, is
   * reformatted, and kept as typed when formatting fails.
   */
  function NumberButton(s: State, title: string, format: string -> Option<string>): (r: State)
    ensures r.operatorText == s.operatorText && r.totalCalculation == s.totalCalculation
    ensures r.history == s.history || (r.history == [] && RowsWithoutOperator(s))
  {
    if RowsWithoutOperator(s) then s.(history := [], numberText := title)
    else if !IsCommaButtonNotTappedTwice(title, s.numberText) then s
    else
      var newText := s.numberText + title;
      if '.' in newText then s.(numberText := newText)
      else match format(RemoveComma(newText))
        case Some(formatted) => s.(numberText := formatted)
        case None => s.(numberText := newText)
  }

  /**
   * `operatorButtonDidTapped`: `checkOperator`'s guards in order, the commit
   * when they pass, and the number reset to "0" whatever they decided.
   */
  function OperatorButton(s: State, title: string, c: Collaborators): (r: State)
    ensures r.numberText == "0"
    ensures r.operatorText == s.operatorText || r.operatorText == title
    ensures s.totalCalculation <= r.totalCalculation
  {
    if Contains(s.numberText, c.dividedByZero) then s.(history := [], numberText := "0")
    else if s.numberText == "0" && |s.history| == 0 then s.(numberText := "0")
    else if RowsWithoutOperator(s) then Commit(s.(history := [])).(operatorText := title, numberText := "0")
    else if c.isZero(s.numberText) && |s.history| > 0 then s.(operatorText := title, numberText := "0")
    else Commit(s).(operatorText := title, numberText := "0")
  }

  /**
   * `resultButtonDidTapped`: nothing without an operator; otherwise commit, then
   * show the evaluated token string when evaluation succeeds.
   */
  function ResultButton(s: State, evaluate: string -> Option<string>): (r: State)
    ensures r.operatorText == s.operatorText
    ensures s.totalCalculation <= r.totalCalculation
    ensures r.history == s.history || r.history == s.history + [Entry(s.operatorText, s.numberText)]
  {
    if s.operatorText == "" then s
    else
      var t := Commit(s);
      match evaluate(t.totalCalculation)
      case Some(result) => t.(numberText := result)
      case None => t
  }

  /**
   * `checkNegativeNumber`: the sign toggle on the number label's text. "0" and
   * "NAN" stay; text not starting with "-" gets one in front; text starting with
   * "-" loses every "-" and keeps its other characters in order.
   */
  function ToggleSign(text: string): (r: string)
    ensures text == "0" || text == "NAN" ==> r == text
    ensures text != "0" && text != "NAN" && (text == [] || text[0] != '-') ==> r == "-" + text
    ensures text != [] && text[0] == '-' ==>
      && '-' !in r
      && IsSubsequence(r, text)
      && |r| + Count(text, '-') == |text|
  {
    if text == "0" || text == "NAN" then text
    else if text == [] || text[0] != '-' then "-" + text
    else RemoveAll(text, '-')
  }

  /** `changeValueButtonDidTapped`: "AC", "CE", and every other title toggles the sign. */
  function ChangeValueButton(s: State, title: string): (r: State)
    ensures title != "AC" ==> r == s.(numberText := r.numberText)
    ensures title == "AC" || title == "CE" ==> r.numberText == "0"
  {
    if title == "AC" then s.(history := [], operatorText := "", numberText := "0", totalCalculation := "")
    else if title == "CE" then s.(numberText := "0")
    else s.(numberText := ToggleSign(s.numberText))
  }

  /** A button press, carrying the button's title where the handler reads it. */
  datatype Press = Number(title: string) | Operator(title: string) | Result | ChangeValue(title: string)

  function Step(s: State, p: Press, c: Collaborators): State
  {
    match p
    case Number(title) => NumberButton(s, title, c.format)
    case Operator(title) => OperatorButton(s, title, c)
    case Result => ResultButton(s, c.evaluate)
    case ChangeValue(title) => ChangeValueButton(s, title)
  }

  /** The state after handling the presses in order. */
  function Run(s: State, presses: seq<Press>, c: Collaborators): State
    decreases presses
  {
    if presses == [] then s else Run(Step(s, presses[0], c), presses[1..], c)
  }
}
