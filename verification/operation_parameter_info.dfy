/** How one formal parameter of an operation is bound to a part of an HTTP request. */
module OperationParameters {
  import opened Js

  /** The closed set of binding tags; one per parameter decorator. */
  datatype ParameterType = BODY | PATH | QUERY | MATRIX | HEADER | COOKIE | FORM | CONTEXT

  /** A parameter name is either a string or, for whole-value bindings, the class itself. */
  datatype ParameterName<C> = StringName(text: string) | ClassName(cls: C)

  /** One parameter descriptor: optional name, declared class, binding tag. */
  datatype OperationParameterInfo<C> = OperationParameterInfo(
    name: Opt<ParameterName<C>>,
    cls: C,
    paramType: ParameterType)

  /** The descriptor given to a parameter that carries no binding annotation. */
  function BodyParameter<C>(cls: C): OperationParameterInfo<C> {
    OperationParameterInfo(Undefined, cls, BODY)
  }
}
