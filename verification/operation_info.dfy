/**
 * Operation metadata: the descriptor stored per (owner, member), its lazy
 * default, and the merge of the owner's endpoint descriptor into it.
 *
 * The metadata store is an explicit map threaded through the calls.  As in
 * the modelled code, the merge works on the very descriptor the store holds,
 * so resolving an operation whose descriptor is stored writes the merged
 * descriptor back; a lazily built default is never stored.
 */
module OperationInfos {
  import opened Js
  import opened OperationParameters

  /** Class-level facts of a resource. */
  datatype EndpointInfo = EndpointInfo(
    httpMethods: Opt<set<string>>,
    resourcePath: Opt<string>,
    consumedMediaTypes: Opt<set<string>>,
    producedMediaTypes: Opt<set<string>>)

  /** Method-level facts of one operation: the endpoint fields plus parameters and return class. */
  datatype OperationInfo<C> = OperationInfo(
    httpMethods: Opt<set<string>>,
    resourcePath: Opt<string>,
    consumedMediaTypes: Opt<set<string>>,
    producedMediaTypes: Opt<set<string>>,
    parameters: Opt<seq<OperationParameterInfo<C>>>,
    returnClass: Opt<C>)

  /** What reflection reports about a method: its declared parameter classes
      in declaration order and its declared return class. */
  datatype MethodSignature<C> = MethodSignature(parameterClasses: seq<C>, returnClass: Opt<C>)

  /** Operation descriptors keyed by (owner, member). */
  type OperationStore<O(==), M(==), C> = map<(O, M), OperationInfo<C>>

  /** Endpoint descriptors keyed by owner. */
  type EndpointStore<O(==)> = map<O, EndpointInfo>

  /** The effective descriptor together with the store after the lookup. */
  datatype FullOperationInfo<O(==), M(==), C> = FullOperationInfo(info: OperationInfo<C>, store: OperationStore<O, M, C>)

  // ---------------------------------------------------------------------
  // What a merge means, field by field
  // ---------------------------------------------------------------------

  /** `merged` is the operation's set after merging the endpoint's set into it:
      when the endpoint has a set, exactly the members of either side;
      otherwise the operation's value, untouched. */
  ghost predicate SetMerged(merged: Opt<set<string>>, own: Opt<set<string>>, endpoint: Opt<set<string>>) {
    if endpoint.Undefined? then merged == own
    else
      && merged.Defined?
      && forall t :: t in merged.value <==> t in endpoint.value || (own.Defined? && t in own.value)
  }

  /** `merged` is the operation's path after merging: when the endpoint path is
      truthy, it starts with the endpoint path and continues with the text of
      the operation path (`"undefined"` when there is none); otherwise the
      operation's value, untouched. */
  ghost predicate PathMerged(merged: Opt<string>, own: Opt<string>, endpoint: Opt<string>) {
    if !IsTruthy(endpoint) then merged == own
    else
      && merged.Defined?
      && |endpoint.value| <= |merged.value|
      && merged.value[..|endpoint.value|] == endpoint.value
      && merged.value[|endpoint.value|..] == ToJsString(own)
  }

  /** `r` is `op` with the (possibly absent) endpoint descriptor merged in. */
  ghost predicate MergedFrom<C>(r: OperationInfo<C>, op: OperationInfo<C>, ep: Opt<EndpointInfo>) {
    match ep
    case Undefined => r == op
    case Defined(e) =>
      && SetMerged(r.httpMethods, op.httpMethods, e.httpMethods)
      && PathMerged(r.resourcePath, op.resourcePath, e.resourcePath)
      && SetMerged(r.consumedMediaTypes, op.consumedMediaTypes, e.consumedMediaTypes)
      && SetMerged(r.producedMediaTypes, op.producedMediaTypes, e.producedMediaTypes)
      && r.parameters == op.parameters
      && r.returnClass == op.returnClass
  }

  // ---------------------------------------------------------------------
  // Merge steps
  // ---------------------------------------------------------------------

  function MergeHttpMethods<C>(op: OperationInfo<C>, ep: EndpointInfo): (r: OperationInfo<C>)
    ensures SetMerged(r.httpMethods, op.httpMethods, ep.httpMethods)
    ensures r == op.(httpMethods := r.httpMethods)
  {
    if ep.httpMethods.Defined? then
      op.(httpMethods := Defined(op.httpMethods.OrElse({}) + ep.httpMethods.value))
    else op
  }

  function MergeResourcePaths<C>(op: OperationInfo<C>, ep: EndpointInfo): (r: OperationInfo<C>)
    ensures PathMerged(r.resourcePath, op.resourcePath, ep.resourcePath)
    ensures r == op.(resourcePath := r.resourcePath)
  {
    if IsTruthy(ep.resourcePath) then
      op.(resourcePath := Defined(ep.resourcePath.value + ToJsString(op.resourcePath)))
    else op
  }

  function MergeConsumedMediaTypes<C>(op: OperationInfo<C>, ep: EndpointInfo): (r: OperationInfo<C>)
    ensures SetMerged(r.consumedMediaTypes, op.consumedMediaTypes, ep.consumedMediaTypes)
    ensures r == op.(consumedMediaTypes := r.consumedMediaTypes)
  {
    if ep.consumedMediaTypes.Defined? then
      op.(consumedMediaTypes := Defined(op.consumedMediaTypes.OrElse({}) + ep.consumedMediaTypes.value))
    else op
  }

  function MergeProducedMediaTypes<C>(op: OperationInfo<C>, ep: EndpointInfo): (r: OperationInfo<C>)
    ensures SetMerged(r.producedMediaTypes, op.producedMediaTypes, ep.producedMediaTypes)
    ensures r == op.(producedMediaTypes := r.producedMediaTypes)
  {
    if ep.producedMediaTypes.Defined? then
      op.(producedMediaTypes := Defined(op.producedMediaTypes.OrElse({}) + ep.producedMediaTypes.value))
    else op
  }

  function MergeEndpointInfoIntoOperationInfo<C>(op: OperationInfo<C>, ep: Opt<EndpointInfo>): (r: OperationInfo<C>)
    ensures MergedFrom(r, op, ep)
  {
    match ep
    case Undefined => op
    case Defined(e) =>
      MergeProducedMediaTypes(MergeConsumedMediaTypes(MergeResourcePaths(MergeHttpMethods(op, e), e), e), e)
  }

  // ---------------------------------------------------------------------
  // Default descriptor and store access
  // ---------------------------------------------------------------------

  /** The parameter list built by pushing one BODY descriptor per declared class, in order. */
  function BodyParameters<C>(classes: seq<C>): (ps: seq<OperationParameterInfo<C>>)
    ensures |ps| == |classes|
    ensures forall i :: 0 <= i < |classes| ==> ps[i].cls == classes[i] && ps[i].paramType == BODY && ps[i].name.Undefined?
    decreases |classes|
  {
    if classes == [] then []
    else BodyParameters(classes[..|classes| - 1]) + [BodyParameter(classes[|classes| - 1])]
  }

  function InitializeOperationInfo<C>(sig: MethodSignature<C>): (r: OperationInfo<C>)
    ensures r.parameters.Defined? && |r.parameters.value| == |sig.parameterClasses|
    ensures forall i :: 0 <= i < |sig.parameterClasses| ==> r.parameters.value[i] == BodyParameter(sig.parameterClasses[i])
    ensures r.returnClass == sig.returnClass
    ensures r.httpMethods.Undefined? && r.resourcePath.Undefined?
    ensures r.consumedMediaTypes.Undefined? && r.producedMediaTypes.Undefined?
  {
    OperationInfo(Undefined, Undefined, Undefined, Undefined, Defined(BodyParameters(sig.parameterClasses)), sig.returnClass)
  }

  /** The stored descriptor, or a fresh default (which is not stored). */
  function GetOperationInfo<O(==), M(==), C>(store: OperationStore<O, M, C>, owner: O, member: M, sig: MethodSignature<C>): (r: OperationInfo<C>)
    ensures (owner, member) in store ==> r == store[(owner, member)]
    ensures (owner, member) !in store ==> r == InitializeOperationInfo(sig)
  {
    if (owner, member) in store then store[(owner, member)] else InitializeOperationInfo(sig)
  }

  function SetOperationInfo<O(==), M(==), C>(store: OperationStore<O, M, C>, owner: O, member: M, info: OperationInfo<C>): (s: OperationStore<O, M, C>)
    ensures s.Keys == store.Keys + {(owner, member)}
    ensures s[(owner, member)] == info
    ensures forall k :: k in store && k != (owner, member) ==> s[k] == store[k]
  {
    store[(owner, member) := info]
  }

  /** Endpoint lookup; `getEndpointInfo` itself is not part of this model. */
  function GetEndpointInfo<O(==)>(endpoints: EndpointStore<O>, owner: O): Opt<EndpointInfo> {
    if owner in endpoints then Defined(endpoints[owner]) else Undefined
  }

  /** Resolves the effective descriptor.  The merge mutates the descriptor
      `getOperationInfo` returned, which is the stored object whenever one
      exists, so in that case the store afterwards holds the merged value. */
  function GetFullOperationInfo<O(==), M(==), C>(
    store: OperationStore<O, M, C>, endpoints: EndpointStore<O>, owner: O, member: M, sig: MethodSignature<C>
  ): (r: FullOperationInfo<O, M, C>)
    ensures MergedFrom(r.info, GetOperationInfo(store, owner, member, sig), GetEndpointInfo(endpoints, owner))
    ensures (owner, member) in store ==> r.store == store[(owner, member) := r.info]
    ensures (owner, member) !in store ==> r.store == store
  {
    var info := MergeEndpointInfoIntoOperationInfo(GetOperationInfo(store, owner, member, sig), GetEndpointInfo(endpoints, owner));
    if (owner, member) in store then FullOperationInfo(info, store[(owner, member) := info])
    else FullOperationInfo(info, store)
  }
}
