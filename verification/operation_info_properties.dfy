/**
 * Properties of operation-metadata composition: the merge is fully
 * determined by its field-wise description, it is idempotent on the three
 * sets but not on the path, the lazy default is positionally aligned with
 * the declared parameters and never stored, and a stored descriptor
 * accumulates one copy of the endpoint path per resolution.
 */
module OperationInfoProperties {
  import opened Js
  import opened OperationParameters
  import opened OperationInfos

  // ---------------------------------------------------------------------
  // The merge description determines the merge
  // ---------------------------------------------------------------------

  lemma SetMergedIsFunctional(m1: Opt<set<string>>, m2: Opt<set<string>>, own: Opt<set<string>>, endpoint: Opt<set<string>>)
    requires SetMerged(m1, own, endpoint) && SetMerged(m2, own, endpoint)
    ensures m1 == m2
  {
    if endpoint.Defined? {
      assert m1.value == m2.value by {
        forall t ensures t in m1.value <==> t in m2.value {
        }
      }
    }
  }

  lemma PathMergedIsFunctional(m1: Opt<string>, m2: Opt<string>, own: Opt<string>, endpoint: Opt<string>)
    requires PathMerged(m1, own, endpoint) && PathMerged(m2, own, endpoint)
    ensures m1 == m2
  {
    if IsTruthy(endpoint) {
      var k := |endpoint.value|;
      assert m1.value == m1.value[..k] + m1.value[k..];
      assert m2.value == m2.value[..k] + m2.value[k..];
    }
  }

  /** Any two descriptors that satisfy the merge description are equal, so the
      contract of `MergeEndpointInfoIntoOperationInfo` pins its result down. */
  lemma MergedFromIsFunctional<C>(r1: OperationInfo<C>, r2: OperationInfo<C>, op: OperationInfo<C>, ep: Opt<EndpointInfo>)
    requires MergedFrom(r1, op, ep) && MergedFrom(r2, op, ep)
    ensures r1 == r2
  {
    if ep.Defined? {
      var e := ep.value;
      SetMergedIsFunctional(r1.httpMethods, r2.httpMethods, op.httpMethods, e.httpMethods);
      PathMergedIsFunctional(r1.resourcePath, r2.resourcePath, op.resourcePath, e.resourcePath);
      SetMergedIsFunctional(r1.consumedMediaTypes, r2.consumedMediaTypes, op.consumedMediaTypes, e.consumedMediaTypes);
      SetMergedIsFunctional(r1.producedMediaTypes, r2.producedMediaTypes, op.producedMediaTypes, e.producedMediaTypes);
    }
  }

  /** Merging never touches the parameter list or the return class. */
  lemma MergeKeepsParametersAndReturnClass<C>(op: OperationInfo<C>, ep: Opt<EndpointInfo>)
    ensures MergeEndpointInfoIntoOperationInfo(op, ep).parameters == op.parameters
    ensures MergeEndpointInfoIntoOperationInfo(op, ep).returnClass == op.returnClass
  {
  }

  // ---------------------------------------------------------------------
  // Merging the same endpoint twice
  // ---------------------------------------------------------------------

  /** A second merge of the same endpoint leaves the three sets as the first left them. */
  lemma RemergeKeepsSets<C>(op: OperationInfo<C>, e: EndpointInfo)
    ensures var once := MergeEndpointInfoIntoOperationInfo(op, Defined(e));
            var twice := MergeEndpointInfoIntoOperationInfo(once, Defined(e));
            && twice.httpMethods == once.httpMethods
            && twice.consumedMediaTypes == once.consumedMediaTypes
            && twice.producedMediaTypes == once.producedMediaTypes
            && twice.parameters == once.parameters
            && twice.returnClass == once.returnClass
  {
  }

  /** ... but a second merge prepends a truthy endpoint path again, so the
      merge is not idempotent. */
  lemma RemergePrependsPathAgain<C>(op: OperationInfo<C>, e: EndpointInfo)
    requires IsTruthy(e.resourcePath)
    ensures var once := MergeEndpointInfoIntoOperationInfo(op, Defined(e));
            var twice := MergeEndpointInfoIntoOperationInfo(once, Defined(e));
            && twice.resourcePath == Defined(e.resourcePath.value + e.resourcePath.value + ToJsString(op.resourcePath))
            && twice != once
  {
    var p := e.resourcePath.value;
    var once := MergeEndpointInfoIntoOperationInfo(op, Defined(e));
    var twice := MergeEndpointInfoIntoOperationInfo(once, Defined(e));
    assert once.resourcePath.value == p + ToJsString(op.resourcePath);
    assert twice.resourcePath.value == p + once.resourcePath.value;
    assert p + (p + ToJsString(op.resourcePath)) == p + p + ToJsString(op.resourcePath);
    assert |twice.resourcePath.value| > |once.resourcePath.value|;
  }

  // ---------------------------------------------------------------------
  // The lazy default
  // ---------------------------------------------------------------------

  /** The declared classes read back from a parameter list. */
  function ParameterClasses<C>(ps: seq<OperationParameterInfo<C>>): (cs: seq<C>)
    ensures |cs| == |ps|
    ensures forall i :: 0 <= i < |ps| ==> cs[i] == ps[i].cls
  {
    if ps == [] then [] else [ps[0].cls] + ParameterClasses(ps[1..])
  }

  /** The default parameter list can be zipped with the declared parameters:
      reading back its classes gives exactly the declared classes, and every
      entry is an unnamed BODY binding. */
  lemma DefaultParametersAlign<C>(sig: MethodSignature<C>)
    ensures var ps := InitializeOperationInfo(sig).parameters.value;
            && ParameterClasses(ps) == sig.parameterClasses
            && forall i :: 0 <= i < |ps| ==> ps[i].paramType == BODY && ps[i].name.Undefined?
  {
  }

  /** Two lookups of an empty slot give equal descriptors, and resolving it
      leaves the store as it was. */
  lemma EmptySlotLookupIsStable<O, M, C>(
    store: OperationStore<O, M, C>, endpoints: EndpointStore<O>, owner: O, member: M, sig: MethodSignature<C>)
    requires (owner, member) !in store
    ensures GetOperationInfo(store, owner, member, sig) == InitializeOperationInfo(sig)
    ensures GetFullOperationInfo(store, endpoints, owner, member, sig).store == store
    ensures var after := GetFullOperationInfo(store, endpoints, owner, member, sig).store;
            GetOperationInfo(after, owner, member, sig) == GetOperationInfo(store, owner, member, sig)
  {
  }

  // ---------------------------------------------------------------------
  // Raw store accessors
  // ---------------------------------------------------------------------

  /** After `setOperationInfo(o, k, d)`, `getOperationInfo(o, k)` returns `d`. */
  lemma GetAfterSet<O, M, C>(
    store: OperationStore<O, M, C>, owner: O, member: M, info: OperationInfo<C>, sig: MethodSignature<C>)
    ensures GetOperationInfo(SetOperationInfo(store, owner, member, info), owner, member, sig) == info
  {
  }

  /** ... and every other slot reads as before. */
  lemma GetOtherAfterSet<O, M, C>(
    store: OperationStore<O, M, C>, owner: O, member: M, info: OperationInfo<C>,
    owner': O, member': M, sig: MethodSignature<C>)
    requires (owner', member') != (owner, member)
    ensures GetOperationInfo(SetOperationInfo(store, owner, member, info), owner', member', sig)
         == GetOperationInfo(store, owner', member', sig)
  {
  }

  // ---------------------------------------------------------------------
  // Repeated resolution
  // ---------------------------------------------------------------------

  /** `n` copies of `s`, one after the other. */
  function Repeat(s: string, n: nat): string
  {
    if n == 0 then "" else s + Repeat(s, n - 1)
  }

  /** The result of resolving the same operation `n` times in a row, each
      call seeing the store the previous one left. */
  function ResolveRepeatedly<O(==), M(==), C>(
    store: OperationStore<O, M, C>, endpoints: EndpointStore<O>, owner: O, member: M, sig: MethodSignature<C>, n: nat
  ): FullOperationInfo<O, M, C>
    requires n >= 1
    decreases n
  {
    if n == 1 then GetFullOperationInfo(store, endpoints, owner, member, sig)
    else GetFullOperationInfo(ResolveRepeatedly(store, endpoints, owner, member, sig, n - 1).store, endpoints, owner, member, sig)
  }

  /** Resolving a stored operation writes the merge back, so the `n`-th
      resolution sees `n` copies of a truthy endpoint path in front of the
      stored path, while the sets stay as the first resolution made them. */
  lemma {:induction false} RepeatedResolutionAccumulatesPath<O, M, C>(
    store: OperationStore<O, M, C>, endpoints: EndpointStore<O>, owner: O, member: M, sig: MethodSignature<C>, n: nat)
    requires n >= 1
    requires (owner, member) in store && owner in endpoints
    requires IsTruthy(endpoints[owner].resourcePath)
    ensures var r := ResolveRepeatedly(store, endpoints, owner, member, sig, n);
            var first := GetFullOperationInfo(store, endpoints, owner, member, sig).info;
            && r.info.resourcePath
               == Defined(Repeat(endpoints[owner].resourcePath.value, n) + ToJsString(store[(owner, member)].resourcePath))
            && r.info == first.(resourcePath := r.info.resourcePath)
            && r.store == store[(owner, member) := r.info]
    decreases n
  {
    var e := endpoints[owner];
    var p := e.resourcePath.value;
    var t := ToJsString(store[(owner, member)].resourcePath);
    var first := GetFullOperationInfo(store, endpoints, owner, member, sig).info;
    var r := ResolveRepeatedly(store, endpoints, owner, member, sig, n);
    if n == 1 {
      assert Repeat(p, 1) == p;
      assert first.resourcePath.value == p + t;
    } else {
      RepeatedResolutionAccumulatesPath(store, endpoints, owner, member, sig, n - 1);
      var prev := ResolveRepeatedly(store, endpoints, owner, member, sig, n - 1);
      assert prev.store[(owner, member)] == prev.info;
      assert r.info == MergeEndpointInfoIntoOperationInfo(prev.info, Defined(e));
      RemergeKeepsSets(GetOperationInfo(store, owner, member, sig), e);
      RemergeKeepsSets(prev.info, e);
      assert r.info.resourcePath.value == p + (Repeat(p, n - 1) + t);
      assert p + (Repeat(p, n - 1) + t) == (p + Repeat(p, n - 1)) + t;
      assert r.store == prev.store[(owner, member) := r.info];
    }
  }

  /** An empty slot is resolved from a fresh default every time: every
      resolution gives the same descriptor and the store never changes. */
  lemma {:induction false} RepeatedResolutionOfEmptySlot<O, M, C>(
    store: OperationStore<O, M, C>, endpoints: EndpointStore<O>, owner: O, member: M, sig: MethodSignature<C>, n: nat)
    requires n >= 1
    requires (owner, member) !in store
    ensures ResolveRepeatedly(store, endpoints, owner, member, sig, n) == GetFullOperationInfo(store, endpoints, owner, member, sig)
    ensures ResolveRepeatedly(store, endpoints, owner, member, sig, n).store == store
    decreases n
  {
    if n > 1 {
      RepeatedResolutionOfEmptySlot(store, endpoints, owner, member, sig, n - 1);
    }
  }

  /** Resolving a stored operation against an endpoint with a truthy path
      changes what the store holds for that operation. */
  lemma ResolutionRewritesStoredEntry<O, M, C>(
    store: OperationStore<O, M, C>, endpoints: EndpointStore<O>, owner: O, member: M, sig: MethodSignature<C>)
    requires (owner, member) in store && owner in endpoints
    requires IsTruthy(endpoints[owner].resourcePath)
    ensures var after := GetFullOperationInfo(store, endpoints, owner, member, sig).store;
            (owner, member) in after && after[(owner, member)] != store[(owner, member)]
  {
  }

  // ---------------------------------------------------------------------
  // Worked examples
  // ---------------------------------------------------------------------

  /** Endpoint methods {GET, POST} merged into operation methods {POST}
      give exactly {GET, POST}. */
  lemma MethodUnionExample()
    ensures var op: OperationInfo<int> := OperationInfo(Defined({"POST"}), Undefined, Undefined, Undefined, Defined([]), Undefined);
            var e := EndpointInfo(Defined({"GET", "POST"}), Undefined, Undefined, Undefined);
            MergeEndpointInfoIntoOperationInfo(op, Defined(e)).httpMethods == Defined({"GET", "POST"})
  {
    assert {"POST"} + {"GET", "POST"} == {"GET", "POST"};
  }

  /** "/users" in front of "/{id}" gives "/users/{id}"; with no endpoint path
      the operation path passes through; with no operation path the text
      "undefined" is appended. */
  lemma PathConcatenationExamples()
    ensures var e := EndpointInfo(Undefined, Defined("/users"), Undefined, Undefined);
            var op: OperationInfo<int> := OperationInfo(Undefined, Defined("/{id}"), Undefined, Undefined, Defined([]), Undefined);
            MergeEndpointInfoIntoOperationInfo(op, Defined(e)).resourcePath == Defined("/users/{id}")
    ensures var e := EndpointInfo(Undefined, Undefined, Undefined, Undefined);
            var op: OperationInfo<int> := OperationInfo(Undefined, Defined("/{id}"), Undefined, Undefined, Defined([]), Undefined);
            MergeEndpointInfoIntoOperationInfo(op, Defined(e)).resourcePath == Defined("/{id}")
    ensures var e := EndpointInfo(Undefined, Defined("/users"), Undefined, Undefined);
            var op: OperationInfo<int> := OperationInfo(Undefined, Undefined, Undefined, Undefined, Defined([]), Undefined);
            MergeEndpointInfoIntoOperationInfo(op, Defined(e)).resourcePath == Defined("/usersundefined")
  {
    assert "/users" + "/{id}" == "/users/{id}";
    assert "/users" + "undefined" == "/usersundefined";
  }
}
