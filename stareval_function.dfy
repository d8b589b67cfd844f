/** The variable context of the expression evaluator: a map from variable name
    to the expression bound to it, and the constant expressions that the
    convenience setters bind. */
module StarevalFunction {
  import opened JavaLang

  /** The reusable output slot every evaluation writes its result into. Only the
      two slots the constant expressions write are modelled. */
  class FunctionReturn {
    var intReturn: int32
    var floatReturn: Float32

    constructor ()
      ensures intReturn == 0 && floatReturn == PositiveZero
    {
      intReturn := 0;
      floatReturn := PositiveZero;
    }
  }

  /** An expression a variable can be bound to. The two constant forms are the
      lambdas built by `setIntVariable` and `setFloatVariable`; `Compiled` stands
      for any other expression (parsed from text or wrapping a native value),
      whose evaluation is not part of this model. */
  datatype Expr =
    | IntConstant(intValue: int32)
    | FloatConstant(floatValue: Float32)
    | Compiled(id: nat)
  {
    predicate IsConstant() {
      IntConstant? || FloatConstant?
    }
  }

  /** Evaluates one of the constant expressions: it writes its value into the
      slot of its own type and leaves the other slot as it was. */
  method EvaluateConstant(e: Expr, ret: FunctionReturn)
    requires e.IsConstant()
    modifies ret
    ensures e.IntConstant? ==> ret.intReturn == e.intValue && ret.floatReturn == old(ret.floatReturn)
    ensures e.FloatConstant? ==> ret.floatReturn == e.floatValue && ret.intReturn == old(ret.intReturn)
  {
    if e.IntConstant? {
      ret.intReturn := e.intValue;
    } else {
      ret.floatReturn := e.floatValue;
    }
  }

  const MissingVariablePrefix: string := "Variable hasn't been set: "

  /** The message of the exception `getVariable` throws for an unbound name. */
  function MissingVariableMessage(name: string): string {
    MissingVariablePrefix + name
  }

  /** Recovers the variable name from a missing-variable message. */
  function MissingVariableName(message: string): Option<string> {
    if |MissingVariablePrefix| <= |message| && message[..|MissingVariablePrefix|] == MissingVariablePrefix
    then Some(message[|MissingVariablePrefix|..])
    else None
  }

  /** The message names exactly the variable that was looked up, so two
      different unbound names give two different messages. */
  lemma MissingVariableMessageNamesVariable(name: string)
    ensures MissingVariableName(MissingVariableMessage(name)) == Some(name)
  {
  }

  /** A context whose bindings live in one name-to-expression map. A value of
      `None` is a name that was explicitly bound to `null`. */
  class BasicFunctionContext {
    var variables: map<string, Option<Expr>>

    constructor ()
      ensures variables == map[]
    {
      variables := map[];
    }

    /** Binds or rebinds `name`; every other binding is left as it was. */
    method SetVariable(name: string, value: Option<Expr>)
      modifies this`variables
      ensures variables == old(variables)[name := value]
      ensures variables.Keys == old(variables).Keys + {name}
      ensures forall other :: other != name && other in old(variables) ==> variables[other] == old(variables)[other]
    {
      variables := variables[name := value];
    }

    /** Binds `name` to the constant expression that writes `value` into the int slot. */
    method SetIntVariable(name: string, value: int32)
      modifies this`variables
      ensures variables == old(variables)[name := Some(IntConstant(value))]
    {
      variables := variables[name := Some(IntConstant(value))];
    }

    /** Binds `name` to the constant expression that writes `value` into the float slot. */
    method SetFloatVariable(name: string, value: Float32)
      modifies this`variables
      ensures variables == old(variables)[name := Some(FloatConstant(value))]
    {
      variables := variables[name := Some(FloatConstant(value))];
    }

    /** Looks `name` up without changing anything; an unbound name, or one bound
        to `null`, throws an exception whose message names it. */
    method GetVariable(name: string) returns (r: Result<Expr>)
      ensures r.Ok? <==> name in variables && variables[name].Some?
      ensures r.Ok? ==> Some(r.value) == variables[name]
      ensures r.Thrown? ==> r.message == MissingVariableMessage(name)
    {
      var expression := if name in variables then variables[name] else None;
      if expression.None? {
        return Thrown(MissingVariableMessage(name));
      }
      return Ok(expression.value);
    }
  }

  /** After binding `name` twice, looking it up yields the second expression. */
  method LastWriteWins(ctx: BasicFunctionContext, name: string, first: Expr, second: Expr)
    returns (r: Result<Expr>)
    modifies ctx
    ensures r == Ok(second)
  {
    ctx.SetVariable(name, Some(first));
    ctx.SetVariable(name, Some(second));
    r := ctx.GetVariable(name);
  }

  /** Binding `name` leaves the lookup of every other name as it was. */
  method SetLeavesOthers(ctx: BasicFunctionContext, name: string, value: Expr, other: string)
    returns (before: Result<Expr>, after: Result<Expr>)
    requires other != name
    modifies ctx
    ensures before == after
  {
    before := ctx.GetVariable(other);
    ctx.SetVariable(name, Some(value));
    after := ctx.GetVariable(other);
  }

  /** Evaluating what `setIntVariable(name, value)` bound writes `value` into
      the int slot and nothing else. */
  method SetIntThenEvaluate(ctx: BasicFunctionContext, name: string, value: int32, ret: FunctionReturn)
    modifies ctx, ret
    ensures ret.intReturn == value && ret.floatReturn == old(ret.floatReturn)
  {
    ctx.SetIntVariable(name, value);
    var e := ctx.GetVariable(name);
    EvaluateConstant(e.value, ret);
  }

  /** Evaluating what `setFloatVariable(name, value)` bound writes `value` into
      the float slot and nothing else. */
  method SetFloatThenEvaluate(ctx: BasicFunctionContext, name: string, value: Float32, ret: FunctionReturn)
    modifies ctx, ret
    ensures ret.floatReturn == value && ret.intReturn == old(ret.intReturn)
  {
    ctx.SetFloatVariable(name, value);
    var e := ctx.GetVariable(name);
    EvaluateConstant(e.value, ret);
  }
}
