# Operation metadata composition and HTTP request building, in Dafny

This project models two parts of the tsxrs library.

1. **Operation metadata composition** (`packages/core/src/metadata/operation/OperationInfo.ts`).
   Each resource method has an operation descriptor (`OperationInfo`). It holds:
   - optional HTTP-method, consumed and produced media-type sets,
   - an optional resource path,
   - a parameter list,
   - a return class.

   The descriptor is resolved by merging the owning class's endpoint descriptor (`EndpointInfo`) into it:
   - sets are unioned;
   - the endpoint path is put in front of the operation path.

   When no descriptor is stored, a default is built instead: one unnamed `BODY` parameter per declared parameter class, in declaration order.
2. **The HTTP request builder** (`packages/http/src/http/HttpRequestBuilder.ts`).
   It accumulates a method, a path, query and matrix parameters, and cookies on top of the headers and payload its base class keeps. `build` snapshots that state into a request value.

Files:

- `js.dfy` (module `Js`): the JavaScript behaviours the code relies on.
  - `Opt<T>` is a property that may be `undefined`.
  - Objects are truthy even when empty, so `x || new Set()` only replaces `undefined` (`Opt.OrElse`).
  - A string is truthy unless it is `undefined` or `""` (`IsTruthy`).
  - `+` turns an `undefined` operand into the text `"undefined"` (`ToJsString`).
- `operation_parameter_info.dfy` (module `OperationParameters`): the parameter descriptor and the `ParameterType` tags.
- `operation_info.dfy` (module `OperationInfos`): descriptors, the merge steps, the default descriptor, store access and resolution. Three ghost predicates state what a merge means field by field: `SetMerged`, `PathMerged` and `MergedFrom`. The merge functions are specified by them.
- `operation_info_properties.dfy` (module `OperationInfoProperties`): lemmas about the merge and about repeated resolution.
- `http_request_builder.dfy` (module `HttpRequests`): the builder and the request.
- `http_request_builder_properties.dfy` (module `HttpRequestProperties`): lemmas about the builder.

The metadata store is an explicit `map<(O, M), OperationInfo<C>>`, keyed by owner and member. The endpoint store is a `map<O, EndpointInfo>`. Both are passed in, and the updated store is passed out. The class prototype and its constructor are the same owner `O` in this model.

### Behaviour of the code that the model keeps

- **Resolution writes back.** `mergeEndpointInfoIntoOperationInfo` mutates the descriptor it is given and returns it. `getOperationInfo` returns the stored object itself. So `getFullOperationInfo` leaves the merged descriptor in the store whenever one was stored. A default that was built lazily is never stored.
  - `GetFullOperationInfo` returns the effective descriptor together with the resulting store.
  - Re-merging leaves the three sets unchanged (`RemergeKeepsSets`).
  - A truthy endpoint path is prepended again on every resolution (`RepeatedResolutionAccumulatesPath`).
  - A caller might expect resolution to leave the store unchanged. The code writes the merge back, and the model follows the code (`ResolutionRewritesStoredEntry`).
- **Path concatenation is JavaScript `+`.**
  - The merge is skipped when the endpoint path is `undefined` or `""`.
  - When the operation path is `undefined`, the result ends in the text `undefined`: `"/users"` becomes `"/usersundefined"`.
  - One might expect `"/users"` here. The code yields `"/usersundefined"`, and the model follows the code (`PathConcatenationExamples`).
- **`withCookies()` with no arguments** still replaces an absent cookie list with an empty one. Adding the same cookies one `withCookie` call at a time therefore differs from one `withCookies` call in exactly one case: there are no cookies and no list yet (`OneByOneIsWithCookies`).

## Model

| member | source | states |
|---|---|---|
| `OperationInfos.MergeHttpMethods` | packages/core/src/metadata/operation/OperationInfo.ts:26-33 | When the endpoint has a method set, the result holds exactly the methods of the endpoint and those of the operation (none if absent). Otherwise the operation's value is kept. No other field changes. |
| `OperationInfos.MergeResourcePaths` | packages/core/src/metadata/operation/OperationInfo.ts:41-47 | When the endpoint path is truthy, the result starts with it and continues with the operation path, or with `"undefined"` when that is absent. Otherwise the path is kept. No other field changes. |
| `OperationInfos.MergeConsumedMediaTypes` | packages/core/src/metadata/operation/OperationInfo.ts:55-62 | Same union rule as for methods, on consumed media types. No other field changes. |
| `OperationInfos.MergeProducedMediaTypes` | packages/core/src/metadata/operation/OperationInfo.ts:70-77 | Same union rule as for methods, on produced media types. No other field changes. |
| `OperationInfos.MergeEndpointInfoIntoOperationInfo` | packages/core/src/metadata/operation/OperationInfo.ts:85-96 | An absent endpoint leaves the descriptor as it is. Otherwise all three sets are unioned and the path is prepended. Parameters and return class are kept. |
| `OperationInfos.BodyParameters` | packages/core/src/metadata/operation/OperationInfo.ts:113-119 | One entry per declared class, in order. Entry i has class i, tag `BODY` and no name. |
| `OperationInfos.InitializeOperationInfo` | packages/core/src/metadata/operation/OperationInfo.ts:104-122 | The default has one `BODY` parameter per declared class, positionally aligned. It has the declared return class and no sets or path. |
| `OperationInfos.GetOperationInfo` | packages/core/src/metadata/operation/OperationInfo.ts:130-138 | Returns the stored descriptor when one exists. Otherwise returns the default. |
| `OperationInfos.SetOperationInfo` | packages/core/src/metadata/operation/OperationInfo.ts:146-148 | The slot now holds the given descriptor. The store gains at most that key. Every other slot is unchanged. |
| `OperationInfos.GetFullOperationInfo` | packages/core/src/metadata/operation/OperationInfo.ts:156-162 | The result is the looked-up descriptor with the owner's endpoint merged in. A stored slot then holds the merged descriptor. An empty slot stays empty. |
| `OperationInfoProperties.MergedFromIsFunctional` | packages/core/src/metadata/operation/OperationInfo.ts:85-96 | The field-wise merge description admits exactly one result, so the merge's contract determines the merge. |
| `OperationInfoProperties.MergeKeepsParametersAndReturnClass` | packages/core/src/metadata/operation/OperationInfo.ts:85-96 | Merging never changes the parameter list or the return class. |
| `OperationInfoProperties.RemergeKeepsSets` | packages/core/src/metadata/operation/OperationInfo.ts:27-29 | Merging the same endpoint a second time leaves the three sets, the parameters and the return class as the first merge left them. |
| `OperationInfoProperties.RemergePrependsPathAgain` | packages/core/src/metadata/operation/OperationInfo.ts:41-47 | A second merge with a truthy endpoint path puts that path in front again, so the merge is not idempotent. |
| `OperationInfoProperties.DefaultParametersAlign` | packages/core/src/metadata/operation/OperationInfo.ts:104-122 | Reading back the classes of the default parameter list gives exactly the declared classes. Every entry is an unnamed `BODY` binding. |
| `OperationInfoProperties.EmptySlotLookupIsStable` | packages/core/src/metadata/operation/OperationInfo.ts:130-138 | An empty slot yields the default. Resolving it leaves the store unchanged, so a second lookup gives an equal descriptor. |
| `OperationInfoProperties.GetAfterSet` | packages/core/src/metadata/operation/OperationInfo.ts:130-148 | After the descriptor is set, looking it up returns it. |
| `OperationInfoProperties.GetOtherAfterSet` | packages/core/src/metadata/operation/OperationInfo.ts:146-148 | Setting one slot does not change what any other slot reads. |
| `OperationInfoProperties.RepeatedResolutionAccumulatesPath` | packages/core/src/metadata/operation/OperationInfo.ts:156-161 | For a stored operation, the n-th resolution returns a path made of n copies of the truthy endpoint path followed by the stored path. Every other field is as after the first resolution. The store holds that result. |
| `OperationInfoProperties.RepeatedResolutionOfEmptySlot` | packages/core/src/metadata/operation/OperationInfo.ts:130-138 | For an empty slot, every resolution in a row returns the same descriptor and the store never changes. |
| `OperationInfoProperties.ResolutionRewritesStoredEntry` | packages/core/src/metadata/operation/OperationInfo.ts:156-161 | Resolving a stored operation against a truthy endpoint path changes the stored descriptor. |
| `OperationInfoProperties.MethodUnionExample` | packages/core/src/metadata/operation/OperationInfo.ts:26-33 | {GET, POST} merged into {POST} gives exactly {GET, POST}. |
| `OperationInfoProperties.PathConcatenationExamples` | packages/core/src/metadata/operation/OperationInfo.ts:41-47 | "/users" with "/{id}" gives "/users/{id}". An absent endpoint path keeps "/{id}". An absent operation path gives "/usersundefined". |
| `HttpRequests.NewBuilder` | packages/http/src/http/HttpRequestBuilder.ts:10-14 | A fresh builder has no method, path or cookie list and empty query and matrix maps. |
| `HttpRequests.WithMethod` | packages/http/src/http/HttpRequestBuilder.ts:21-24 | Sets the method. Every other part is unchanged. |
| `HttpRequests.WithPath` | packages/http/src/http/HttpRequestBuilder.ts:31-34 | Sets the path. Every other part is unchanged. |
| `HttpRequests.WithQuery` | packages/http/src/http/HttpRequestBuilder.ts:42-45 | The query names gain the given name, which now maps to the value. Other names keep their values. Every other part is unchanged. |
| `HttpRequests.WithMatrix` | packages/http/src/http/HttpRequestBuilder.ts:52-55 | The matrix names gain the given name, which now maps to the value. Other names keep their values. Every other part is unchanged. |
| `HttpRequests.WithCookies` | packages/http/src/http/HttpRequestBuilder.ts:71-75 | The cookie list becomes the earlier cookies (none if absent) followed by the given ones. It is defined even when no cookie is given. Every other part is unchanged. |
| `HttpRequests.WithCookie` | packages/http/src/http/HttpRequestBuilder.ts:62-64 | The cookie list becomes the earlier cookies followed by the one given. Every other part is unchanged. |
| `HttpRequests.Build` | packages/http/src/http/HttpRequestBuilder.ts:81-83 | The request carries exactly the builder's method, path, query and matrix maps, headers, cookies and payload. |
| `HttpRequests.Of` | packages/http/src/http/HttpRequestBuilder.ts:91-96 | The builder has the given method and path, empty query and matrix maps, no cookie list, and the base builder's initial headers and payload. |
| `HttpRequestProperties.QueryOverwrites` | packages/http/src/http/HttpRequestBuilder.ts:42-45 | Setting a query name twice is the same as setting it once to the second value. |
| `HttpRequestProperties.QueryDistinctNamesCommute` | packages/http/src/http/HttpRequestBuilder.ts:42-45 | Query parameters under different names can be set in either order. |
| `HttpRequestProperties.MatrixOverwrites` | packages/http/src/http/HttpRequestBuilder.ts:52-55 | Setting a matrix name twice is the same as setting it once to the second value. |
| `HttpRequestProperties.QueryAndMatrixAreIndependent` | packages/http/src/http/HttpRequestBuilder.ts:42-55 | A query step and a matrix step commute, even under the same name. Each keeps its own value. |
| `HttpRequestProperties.CookiesAccumulateInCallOrder` | packages/http/src/http/HttpRequestBuilder.ts:71-75 | Two `withCookies` calls equal one call with both lists concatenated in call order. |
| `HttpRequestProperties.WithCookieIsSingleWithCookies` | packages/http/src/http/HttpRequestBuilder.ts:62-64 | `withCookie(c)` equals `withCookies` with the single cookie `c`. |
| `HttpRequestProperties.OneByOneIsWithCookies` | packages/http/src/http/HttpRequestBuilder.ts:62-75 | Cookies added one at a time equal one `withCookies` call with all of them. The exception is no cookies and no list yet: then only the single call creates an empty list. |
| `HttpRequestProperties.CookiesAreNeverDropped` | packages/http/src/http/HttpRequestBuilder.ts:71-75 | Every cookie held before a `withCookies` call is still held afterwards, at the same position. |
| `HttpRequestProperties.BuildSeesLastWrite` | packages/http/src/http/HttpRequestBuilder.ts:81-83 | A request built after a `withQuery`, `withMatrix`, `withCookies`, `withMethod` or `withPath` step is the request built before it, with only the part that step wrote replaced. |
| `HttpRequestProperties.OverwriteAndAccumulateExample` | packages/http/src/http/HttpRequestBuilder.ts:42-64 | a=1 then a=2 leaves the single entry a -> 2. Two `withCookie` calls leave both cookies, in call order. |

## Left out

- Reflection-based storage (`Reflect.getMetadata` and `Reflect.defineMetadata`) is replaced by the explicit store maps.
- `getEndpointInfo` is not part of this model. It is taken to be a lookup in the endpoint map (`GetEndpointInfo`), returning `undefined` for an owner without an entry.
- `TypeUtils.getReturnClass` and `TypeUtils.getParameterClasses` are foreign reflection calls. Their answers come in as a `MethodSignature` argument.
- Class constructors, `Cookie` and `HttpHeader` are opaque type parameters. So is the payload.
- `AbstractHttpMessageBuilder` is not part of this model. Its headers and payload are carried unchanged as `MessageParts`. Header and payload setters are not modelled. Its initial state is an argument of `NewBuilder` and `Of`.
- `HttpRequest`'s constructor is not part of this model. The request is a value record of the seven constructor arguments.
- `build` passes live `Map` and `Array` references in the code. The model's request is a value snapshot, so later builder changes showing through a built request are not modelled.
- Aliasing between different stored descriptors, or between a descriptor's sets and an endpoint's sets, is not modelled. Every descriptor is an independent value.
- `null` property values are not modelled; only `undefined` is.
- Insertion order of the query and matrix maps is not modelled. Map values have no order.
- Insertion order of the HTTP-method, consumed and produced media-type sets is not modelled. In the code they are JavaScript `Set`s, which keep the operation's own entries first and then the endpoint's new ones; the model's `set<string>` has no order.
- Every stored descriptor sits under its own (owner, member) key. Prototype inheritance of metadata is not modelled.
- `src/client/client-factory.spec.ts` (proxy creation with a stub provider) and `src/index.ts` (re-exports) have no behaviour of this core to model.
- `ParameterType.ts` is not part of this model. Its tag names are taken from the parameter decorators the package exports (`src/index.ts:1`). Only `BODY` is produced by the modelled code.
