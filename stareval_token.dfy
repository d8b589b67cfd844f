/** Lexical tokens of the expression language. Only the binary-operator token
    is part of this model. Its operator type is a parameter `Op`, and the
    operator's own text form (its `toString`) is passed in as `opText`. */
module StarevalToken {
  import opened JavaLang

  /** An immutable token: the constructor keeps the operator as given and
      nothing can change it afterwards. */
  datatype Token<Op> = BinaryOperatorToken(op: Op)

  const Opener: string := "BinaryOp{"

  /** The closer is `)}`, not a lone `}`: the text form is printed this way. */
  const Closer: string := ")}"

  /** The text form of a token: the opener, the operator's text, the closer. */
  function ToString<Op>(t: Token<Op>, opText: Op -> string): string {
    Opener + opText(t.op) + Closer
  }

  /** Reads the operator text back out of a token's text form, if it has that form. */
  function OperatorText(s: string): Option<string> {
    if |Opener| + |Closer| <= |s| && s[..|Opener|] == Opener && s[|s| - |Closer|..] == Closer
    then Some(s[|Opener|..|s| - |Closer|])
    else None
  }

  /** The text form starts with `BinaryOp{`, ends with `)}` and holds the
      operator's text, unchanged, in between. */
  lemma ToStringShape<Op>(t: Token<Op>, opText: Op -> string)
    ensures var s := ToString(t, opText);
      && |s| == |Opener| + |opText(t.op)| + |Closer|
      && s[..|Opener|] == Opener
      && s[|s| - |Closer|..] == Closer
      && s[|Opener|..|s| - |Closer|] == opText(t.op)
  {
  }

  /** Reading the operator back out of the text form gives the operator's text. */
  lemma OperatorTextOfToString<Op>(t: Token<Op>, opText: Op -> string)
    ensures OperatorText(ToString(t, opText)) == Some(opText(t.op))
  {
  }

  /** The text form depends on nothing but the operator: two tokens print alike
      exactly when their operators' texts agree. */
  lemma ToStringDeterminedByOperator<Op>(t1: Token<Op>, t2: Token<Op>, opText: Op -> string)
    ensures ToString(t1, opText) == ToString(t2, opText) <==> opText(t1.op) == opText(t2.op)
  {
    if ToString(t1, opText) == ToString(t2, opText) {
      OperatorTextOfToString(t1, opText);
      OperatorTextOfToString(t2, opText);
    }
  }
}
