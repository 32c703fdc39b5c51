/** The input editor of the pocket calculator: the expression being typed,
    the last result, and whether the input shows an evaluated result. */
module Calculator {

  /** The keys whose trailing occurrence the next operator replaces. */
  predicate IsOperator(c: char) {
    c in {'+', '-', '×', '÷', '%'}
  }

  /** No two operators stand next to each other. */
  predicate NoDoubledOperator(s: string) {
    forall i :: 0 <= i < |s| - 1 ==> !(IsOperator(s[i]) && IsOperator(s[i + 1]))
  }

  /** What the display shows: the input, or "0" when it is empty. */
  function Display(input: string): (shown: string)
    ensures shown != ""
    ensures input != "" ==> shown == input
  {
    if input == "" then "0" else input
  }

  class Calculator {
    var input: string
    var result: string
    var evaluated: bool

    constructor ()
      ensures input == "" && result == "" && !evaluated
    {
      input, result, evaluated := "", "", false;
    }

    /** A digit or the decimal point. Right after an evaluation it starts a
        new input; otherwise it is appended. */
    method NumberClick(value: string)
      modifies this`input, this`evaluated
      ensures old(evaluated) ==> input == value && !evaluated
      ensures !old(evaluated) ==> input == old(input) + value && !evaluated
      ensures |value| == 1 && !IsOperator(value[0]) && NoDoubledOperator(old(input)) ==> NoDoubledOperator(input)
    {
      if evaluated {
        input := value;
        evaluated := false;
      } else {
        input := input + value;
      }
    }

    /** An operator key (also "%", "(" and ")"). On an empty input only "-"
        has an effect, and it leaves `evaluated` as it was. Otherwise a
        trailing operator is replaced, anything else is extended, and the
        input no longer counts as evaluated. */
    method OperatorClick(op: string)
      modifies this`input, this`evaluated
      ensures old(input) == "" && op == "-" ==> input == "-" && evaluated == old(evaluated)
      ensures old(input) == "" && op != "-" ==> input == "" && evaluated == old(evaluated)
      ensures old(input) != "" && IsOperator(old(input)[|old(input)| - 1]) ==>
        input == old(input)[..|old(input)| - 1] + op && |input| == |old(input)| - 1 + |op| && !evaluated
      ensures old(input) != "" && !IsOperator(old(input)[|old(input)| - 1]) ==>
        input == old(input) + op && !evaluated
      ensures |op| == 1 && NoDoubledOperator(old(input)) ==> NoDoubledOperator(input)
    {
      if input == "" && op == "-" {
        input := "-";
        return;
      }
      if input != "" {
        var lastChar := input[|input| - 1];
        if IsOperator(lastChar) {
          input := input[..|input| - 1] + op;
        } else {
          input := input + op;
        }
        evaluated := false;
      }
    }

    /** AC: everything back to the start. */
    method Clear()
      modifies this
      ensures input == "" && result == "" && !evaluated
    {
      input := "";
      result := "";
      evaluated := false;
    }

    /** Drops the last character; an empty input stays empty. */
    method Backspace()
      modifies this`input
      ensures old(input) == "" ==> input == ""
      ensures old(input) != "" ==> input == old(input)[..|old(input)| - 1]
      ensures NoDoubledOperator(old(input)) ==> NoDoubledOperator(input)
    {
      if input != "" {
        input := input[..|input| - 1];
      }
    }
  }
}
