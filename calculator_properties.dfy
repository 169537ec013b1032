/**
 * What the calculator's button handlers promise, proved about the transition
 * functions of CalculatorModel for every choice of formatter, zero test,
 * evaluator and error text, unless a lemma's requires says otherwise.
 */
module CalculatorProperties {
  import opened Wrappers
  import opened Strings
  import opened CalculatorModel

  // ---------------------------------------------------------------- number buttons

  /** The decimal-point guard refuses exactly a "." pressed when the number already holds a ".". */
  lemma CommaCheckMeaning(title: string, number: string)
    ensures IsCommaButtonNotTappedTwice(title, number) <==> title != "." || '.' !in number
  {
    CountZeroIff(number, '.');
  }

  /** A second decimal point is ignored: nothing at all changes. */
  lemma SecondDecimalPointIgnored(s: State, format: string -> Option<string>)
    requires !RowsWithoutOperator(s)
    requires '.' in s.numberText
    ensures NumberButton(s, ".", format) == s
  {
    CommaCheckMeaning(".", s.numberText);
  }

  /**
   * Text holding a decimal point is stored exactly as typed: the formatter plays
   * no part, and nothing but the number label changes.
   */
  lemma DecimalTextStoredRaw(s: State, title: string, format: string -> Option<string>)
    requires !RowsWithoutOperator(s)
    requires title != "." || '.' !in s.numberText
    requires '.' in s.numberText + title
    ensures NumberButton(s, title, format) == s.(numberText := s.numberText + title)
  {
    CommaCheckMeaning(title, s.numberText);
  }

  /**
   * Text without a decimal point is replaced by the formatter's rendering of it
   * (commas removed first), or kept as typed when the formatter fails.
   */
  lemma IntegerTextReformatted(s: State, title: string, format: string -> Option<string>)
    requires !RowsWithoutOperator(s)
    requires '.' !in s.numberText + title
    ensures var r := NumberButton(s, title, format);
      && r == s.(numberText := r.numberText)
      && r.numberText == format(RemoveComma(s.numberText + title)).GetOr(s.numberText + title)
  {
  }

  /**
   * A number press while rows exist but the operator label is empty drops the
   * rows and shows the title, but keeps the token string and the (empty)
   * operator label.
   */
  lemma NumberDropsRowsWithoutOperator(s: State, title: string, format: string -> Option<string>)
    requires RowsWithoutOperator(s)
    ensures NumberButton(s, title, format)
         == State(title, s.operatorText, [], s.totalCalculation)
  {
  }

  // ---------------------------------------------------------------- operator buttons

  /** `checkOperator` lets the press through: the commit happens. */
  predicate OperatorAccepted(s: State, c: Collaborators)
  {
    && !Contains(s.numberText, c.dividedByZero)
    && !(s.numberText == "0" && |s.history| == 0)
    && (RowsWithoutOperator(s) || !(c.isZero(s.numberText) && |s.history| > 0))
  }

  /** While the number shows the error text, an operator is refused and the rows are dropped. */
  lemma OperatorRejectedOnErrorText(s: State, title: string, c: Collaborators)
    requires Contains(s.numberText, c.dividedByZero)
    ensures OperatorButton(s, title, c)
         == State("0", s.operatorText, [], s.totalCalculation)
  {
  }

  /** With the literal "0" and no rows there is no first operand: the press changes nothing. */
  lemma ZeroFirstOperandRejected(s: State, title: string, c: Collaborators)
    requires s.numberText == "0" && s.history == []
    ensures OperatorButton(s, title, c) == s
  {
  }

  /** A numerically zero operand after committed rows only replaces the operator label. */
  lemma ZeroOperandReplacesOperator(s: State, title: string, c: Collaborators)
    requires !Contains(s.numberText, c.dividedByZero)
    requires c.isZero(s.numberText) && |s.history| > 0 && s.operatorText != ""
    ensures OperatorButton(s, title, c) == s.(operatorText := title, numberText := "0")
  {
  }

  /**
   * An accepted operator (outside the rows-without-operator state) commits exactly one row built
   * from the two labels, extends the token string by their stripped texts, and
   * shows the new operator over a "0".
   */
  lemma AcceptedOperatorCommits(s: State, title: string, c: Collaborators)
    requires OperatorAccepted(s, c) && !RowsWithoutOperator(s)
    ensures var r := OperatorButton(s, title, c);
      && r.history == s.history + [Entry(s.operatorText, s.numberText)]
      && r.totalCalculation == s.totalCalculation + Token(s.operatorText) + Token(s.numberText)
      && r.operatorText == title
      && r.numberText == "0"
  {
  }

  /**
   * An operator while rows exist but the operator label is empty drops the old
   * rows and commits the number as the only row, with an empty operator; the
   * token string is not reset and grows by the number alone.
   */
  lemma OperatorRecommitsRowsWithoutOperator(s: State, title: string, c: Collaborators)
    requires !Contains(s.numberText, c.dividedByZero) && RowsWithoutOperator(s)
    ensures var r := OperatorButton(s, title, c);
      && r.history == [Entry("", s.numberText)]
      && r.totalCalculation == s.totalCalculation + Token(s.numberText)
      && r.operatorText == title
      && r.numberText == "0"
  {
  }

  /** A press adds a row to the existing ones exactly when the guards accept it outside the rows-without-operator state. */
  lemma OperatorGrowsHistoryIff(s: State, title: string, c: Collaborators)
    ensures |OperatorButton(s, title, c).history| == |s.history| + 1
        <==> OperatorAccepted(s, c) && !RowsWithoutOperator(s)
  {
  }

  /**
   * Two operators in a row, with the zero test true of "0", leave one row: the
   * second press only replaces the operator label the first one set.
   */
  lemma ConsecutiveOperatorsReplace(s: State, first: string, second: string, c: Collaborators)
    requires OperatorAccepted(s, c) && first != ""
    requires c.isZero("0") && !Contains("0", c.dividedByZero)
    ensures var once := OperatorButton(s, first, c);
      OperatorButton(once, second, c) == once.(operatorText := second)
  {
  }

  // ---------------------------------------------------------------- equals

  /** Equals without an operator is ignored. */
  lemma ResultIgnoredWithoutOperator(s: State, evaluate: string -> Option<string>)
    requires s.operatorText == ""
    ensures ResultButton(s, evaluate) == s
  {
  }

  /**
   * Equals with an operator commits one row exactly as an accepted operator
   * does, hands the grown token string to the evaluator and shows its answer
   * (or leaves the number when it fails); the rows, the operator label and the
   * token string are not reset.
   */
  lemma ResultCommitsAndEvaluates(s: State, evaluate: string -> Option<string>)
    requires s.operatorText != ""
    ensures var r := ResultButton(s, evaluate);
      && r.history == s.history + [Entry(s.operatorText, s.numberText)]
      && r.totalCalculation == s.totalCalculation + Token(s.operatorText) + Token(s.numberText)
      && r.operatorText == s.operatorText
      && r.numberText == evaluate(r.totalCalculation).GetOr(s.numberText)
  {
  }

  // ---------------------------------------------------------------- AC, CE and the sign toggle

  /** "AC" brings back the state `viewDidLoad` sets up. */
  lemma AllClearResets(s: State)
    ensures ChangeValueButton(s, "AC") == Initial()
  {
  }

  /** "CE" changes the number label only, to "0". */
  lemma ClearEntryOnlyNumber(s: State)
    ensures ChangeValueButton(s, "CE") == s.(numberText := "0")
  {
  }

  /** Every other title toggles the sign of the number and changes nothing else. */
  lemma SignToggleOnlyNumber(s: State, title: string)
    requires title != "AC" && title != "CE"
    ensures ChangeValueButton(s, title) == s.(numberText := ToggleSign(s.numberText))
  {
  }

  /** Toggling twice restores any text without a "-". */
  lemma ToggleSignTwice(text: string)
    requires '-' !in text
    ensures ToggleSign(ToggleSign(text)) == text
  {
    if text != "0" && text != "NAN" {
      var t := "-" + text;
      assert t[0] == '-' && t[1..] == text;
      RemoveAllIdentity(text, '-');
    }
  }

  /** Toggling a negative number gives back its digits. */
  lemma ToggleSignStripsNegation(body: string)
    requires '-' !in body
    ensures ToggleSign("-" + body) == body
  {
    var t := "-" + body;
    assert t[0] == '-' && t[1..] == body && t == [t[0]] + body;
    RemoveAllAppend([t[0]], body, '-');
    RemoveAllSingle('-', '-');
    RemoveAllIdentity(body, '-');
  }

  // ---------------------------------------------------------------- the token string

  /**
   * The token string ends with the flattened rows still on screen, and holds no
   * comma and no space. Dropping the rows (`clearStackView`) does not shorten
   * it, so it may start with tokens of rows no longer shown.
   */
  ghost predicate Valid(s: State)
  {
    && EndsWith(s.totalCalculation, Flatten(s.history))
    && ',' !in s.totalCalculation
    && ' ' !in s.totalCalculation
  }

  lemma InitialValid()
    ensures Valid(Initial())
  {
  }

  /** Committing a row keeps the token string in step with the rows. */
  lemma CommitValid(s: State)
    requires Valid(s)
    ensures Valid(Commit(s))
  {
  }

  lemma DroppedRowsValid(s: State)
    requires ',' !in s.totalCalculation && ' ' !in s.totalCalculation
    ensures Valid(s.(history := []))
  {
  }

  /** Every button press keeps the token string invariant. */
  lemma StepValid(s: State, p: Press, c: Collaborators)
    requires Valid(s)
    ensures Valid(Step(s, p, c))
  {
    match p
    case Number(title) =>
      if RowsWithoutOperator(s) { DroppedRowsValid(s.(numberText := title)); }
    case Operator(title) =>
      if Contains(s.numberText, c.dividedByZero) {
        DroppedRowsValid(s.(numberText := "0"));
      } else if s.numberText == "0" && |s.history| == 0 {
      } else if RowsWithoutOperator(s) {
        DroppedRowsValid(s);
        CommitValid(s.(history := []));
      } else if c.isZero(s.numberText) && |s.history| > 0 {
      } else {
        CommitValid(s);
      }
    case Result =>
      if s.operatorText != "" { CommitValid(s); }
    case ChangeValue(title) =>
  }

  /** From any valid state, every sequence of presses ends in a valid state. */
  lemma {:induction false} RunValid(s: State, presses: seq<Press>, c: Collaborators)
    requires Valid(s)
    ensures Valid(Run(s, presses, c))
    decreases presses
  {
    if presses != [] {
      StepValid(s, presses[0], c);
      RunValid(Step(s, presses[0], c), presses[1..], c);
    }
  }

  /** The token string the evaluator is handed never contains a grouping comma or a space. */
  lemma EvaluatorInputHasNoSeparators(presses: seq<Press>, c: Collaborators)
    ensures var s := Run(Initial(), presses, c);
      ',' !in s.totalCalculation && ' ' !in s.totalCalculation
  {
    InitialValid();
    RunValid(Initial(), presses, c);
  }

  // ---------------------------------------------------------------- chaining after a result

  /**
   * Equals followed by an accepted operator does not start a new expression:
   * the operator commits the shown result behind everything already in the
   * token string, so the evaluator next sees the old expression, the old
   * operator and the result (after "12+3=" shows 15, "-" leaves "12+3+15").
   */
  lemma OperatorAfterResultExtendsOldExpression(s: State, title: string, c: Collaborators)
    requires s.operatorText != ""
    requires OperatorAccepted(ResultButton(s, c.evaluate), c)
    ensures var shown := ResultButton(s, c.evaluate);
      var r := OperatorButton(shown, title, c);
      && r.totalCalculation == s.totalCalculation + Token(s.operatorText) + Token(s.numberText)
                                                  + Token(s.operatorText) + Token(shown.numberText)
      && r.history == s.history + [Entry(s.operatorText, s.numberText),
                                   Entry(s.operatorText, shown.numberText)]
  {
    var shown := ResultButton(s, c.evaluate);
    ResultCommitsAndEvaluates(s, c.evaluate);
    AcceptedOperatorCommits(shown, title, c);
  }

  // ---------------------------------------------------------------- the rows-without-operator state

  /**
   * Once the operator label is empty only while no row exists, every press
   * keeps it so, except an operator button whose title is empty.
   */
  lemma StepKeepsOperatorWithRows(s: State, p: Press, c: Collaborators)
    requires !RowsWithoutOperator(s)
    requires !(p.Operator? && p.title == "")
    ensures !RowsWithoutOperator(Step(s, p, c))
  {
  }

  /** The press sequences whose operator buttons all carry a title. */
  predicate TitledOperators(presses: seq<Press>)
  {
    forall i :: 0 <= i < |presses| && presses[i].Operator? ==> presses[i].title != ""
  }

  lemma {:induction false} RunKeepsOperatorWithRows(s: State, presses: seq<Press>, c: Collaborators)
    requires !RowsWithoutOperator(s) && TitledOperators(presses)
    ensures !RowsWithoutOperator(Run(s, presses, c))
    decreases presses
  {
    if presses != [] {
      StepKeepsOperatorWithRows(s, presses[0], c);
      assert TitledOperators(presses[1..]) by {
        forall i | 0 <= i < |presses[1..]| && presses[1..][i].Operator?
          ensures presses[1..][i].title != ""
        {
          assert presses[1..][i] == presses[i + 1];
        }
      }
      RunKeepsOperatorWithRows(Step(s, presses[0], c), presses[1..], c);
    }
  }

  /**
   * Rows with an empty operator label never arise from the start state when
   * every operator button has a title: Equals keeps the operator label, and
   * only "AC" empties it, together with the rows. The branches the source
   * names "after result has been shown" are therefore dead for real buttons.
   */
  lemma RowsWithoutOperatorUnreachable(presses: seq<Press>, c: Collaborators)
    requires TitledOperators(presses)
    ensures !RowsWithoutOperator(Run(Initial(), presses, c))
  {
    RunKeepsOperatorWithRows(Initial(), presses, c);
  }

  /** An accepted operator button with an empty title is the one way into that state. */
  lemma UntitledOperatorLeavesRowsWithoutOperator(s: State, c: Collaborators)
    requires OperatorAccepted(s, c)
    ensures RowsWithoutOperator(OperatorButton(s, "", c))
  {
  }

  /**
   * A digit typed after Equals does not start a new number: it is appended to
   * the shown result (after "15" is shown, "2" gives the formatting of "152"),
   * and the rows, the operator label and the token string stay.
   */
  lemma NumberAfterEqualsExtendsResult(s: State, title: string, c: Collaborators)
    requires s.operatorText != "" && '.' !in title
    ensures var shown := ResultButton(s, c.evaluate);
      var r := NumberButton(shown, title, c.format);
      && r.history == shown.history && r.operatorText == shown.operatorText
      && r.totalCalculation == shown.totalCalculation
      && ('.' in shown.numberText ==> r.numberText == shown.numberText + title)
      && ('.' !in shown.numberText ==>
            r.numberText == c.format(RemoveComma(shown.numberText + title)).GetOr(shown.numberText + title))
  {
    var shown := ResultButton(s, c.evaluate);
    assert !RowsWithoutOperator(shown);
    CommaCheckMeaning(title, shown.numberText);
  }
}
