# brckt request construction, in Dafny

brckt is a small helper over an HTTP client. It turns the arguments of a REST
call into a request: a verb, an absolute URI (base URL + path + optional query)
and an optional body. This project models that logic from `brckt.js` and proves
its properties:

- **Path builder** (`genResourceIdPath`). N tokens are split at `ceil(N/2)` into
  resource names and ids. They are interleaved as `res0/id0/res1/id1/...`, with
  the last resource name alone at the end when N is odd.
  - `Paths.GenResourceIdPath` is the source's loop, which pushes into an array and
    joins it.
  - It is proved equal to a recursive specification (`Interleave`, `Segments`,
    `JoinPath`).
  - Lemmas give that specification's positional shape, its permutation property
    and a "peel the first pair" equation.
- **Query and list dispatch** (`genQuery`, `listObjects`). Two arguments are a
  resource and a query. An odd count is a bare path. Any other even count is a
  path followed by the query taken from the last argument.
- **Generators** (`restify`, `restifyWithData`, `generate`) and the surface the
  factory returns. Each generated function is a Dafny function value from an
  argument list to a `Call`: the verb, relative path and data that `requestP`
  receives.
- **Configuration and `requestP`**.
  - The module-level `config` object is a class. Every factory call overwrites
    it.
  - The base URL is normalised to end in `/`.
  - The request options carry a body only when the data argument is truthy.
  - The transport's answer is classified into resolve, reject-with-status and
    reject-with-error.

JavaScript values are the datatype `JsValues.Value`. Truthiness, `String(v)` and
the text `Array.prototype.join` writes for an element are spelled out. The two
conversions differ on `undefined` and `null`: `+` writes `"undefined"` or `"null"`, while
`join` writes nothing. So the two-argument branch of `listObjects` gives the same
string as the general even-count rule exactly when the first argument is neither
of those (`Paths.TwoArgBranchAgrees`).

Three behaviours of `brckt.js` shape the model:

- The configuration is one module-level object (brckt.js:8, 111-113) that
  every factory call overwrites. A second factory call therefore retargets
  functions taken from the first client
  (`Transport.SecondFactoryRetargetsFirstClient`).
- The path builder accepts zero tokens and gives the empty path (brckt.js:74-89).
- A failure status rejects with `{statusCode, err: body}` (brckt.js:37).

## Model

| member | source | states |
|---|---|---|
| `JsValues.Initial` | brckt.js:52 | `_.initial`: every argument but the last, as a prefix of the list; empty for no arguments |
| `JsValues.Last` | brckt.js:53 | `_.last`: the last argument, which with `Initial` rebuilds the list; `undefined` for no arguments |
| `JsValues.InitialLastOfAppend` | brckt.js:51-53 | splitting `args + [x]` into initial and last gives back `args` and `x` |
| `JsValues.Truthy` | brckt.js:13 | JavaScript truthiness as `genQuery`'s `query ?` and `requestP`'s `if (data)` test it: falsy exactly for `undefined`, `null`, `false` and `""` |
| `JsValues.ToStr` | brckt.js:13 | `String(v)`, as `'?' + query` and `args[0] + ...` convert: non-empty for a truthy value, the string itself for a string |
| `JsValues.JoinText` | brckt.js:88 | the text `join` writes for an element: the same as `String(v)` exactly when `v` is neither `undefined` nor `null` |
| `Paths.CeilHalf` | brckt.js:75 | the split point `ceil(N/2)`: at least half of N, at most half of N+1 |
| `Paths.Interleave` | brckt.js:80-86 | the recursive segment order has as many entries as resources and ids together |
| `Paths.Segments` | brckt.js:75-86 | the pre-join segment array has exactly N entries |
| `Paths.InterleaveAt` | brckt.js:80-83 | entry 2j of the interleaving is resource j and entry 2j+1 is id j |
| `Paths.InterleaveLast` | brckt.js:84-86 | with one resource more than ids, the last entry is that resource |
| `Paths.InterleaveMultiset` | brckt.js:80-86 | the interleaving is a permutation of resources plus ids |
| `Paths.SegmentsAt` | brckt.js:75-83 | for j < floor(N/2), segment 2j is token j and segment 2j+1 is token ceil(N/2)+j |
| `Paths.SegmentsOddLast` | brckt.js:84-86 | for odd N, the last segment is the last resource name, with no id after it |
| `Paths.SegmentsPermutation` | brckt.js:75-86 | every token is used exactly once: the segments are a permutation of the tokens |
| `Paths.SegmentsPeel` | brckt.js:75-86 | for N >= 2 the segments are res0, id0, then the segments of the remaining tokens |
| `Paths.JoinPath` | brckt.js:88 | definition of `join('/')`; its properties are in `JoinPathBounds`, `JoinPathCons`, `JoinPathTwo`, `JoinPathPair` and `JoinPathNoQueryMark` |
| `Paths.JoinPathBounds` | brckt.js:88 | the joined text starts with the first segment's text, is at least N-1 characters long, and holds at least N-1 `/` separators |
| `Paths.ResourceIdPath` | brckt.js:74-89 | definition of what `genResourceIdPath` returns, as the join of `Segments`; its properties are in `SegmentsAt`, `SegmentsOddLast`, `SegmentsPermutation`, `ResourceIdPathPeel`, `ResourceIdPathShort` and `ResourceIdPathBounds` |
| `Paths.ResourceIdPathBounds` | brckt.js:74-89 | the path starts with the first resource name and is at least N-1 characters long |
| `Paths.JoinPathCons` | brckt.js:88 | `join('/')` of a segment and a non-empty rest is its text, `/`, and the joined rest |
| `Paths.JoinPathTwo` | brckt.js:88 | `join('/')` of two segments is their texts with one `/` between |
| `Paths.JoinPathPair` | brckt.js:88 | `join('/')` of two leading segments and a non-empty rest puts `/` between all three |
| `Paths.ResourceIdPathPeel` | brckt.js:74-89 | for N > 2 the path is `res0/id0/` followed by the path of the remaining tokens |
| `Paths.ResourceIdPathShort` | brckt.js:74-89 | no token gives the empty path; one token is the path; two tokens give `resource/id` |
| `Paths.ResourceIdPathThree` | brckt.js:74-89 | tokens `r0, r1, i0` give `r0/i0/r1` |
| `Paths.ResourceIdPathFour` | brckt.js:74-89 | tokens `r0, r1, i0, i1` give `r0/i0/r1/i1` |
| `Paths.SegmentsByPosition` | brckt.js:75-86 | any N values with the positional shape of the segments are the segments, so that shape determines them |
| `Paths.InterleaveSnoc` | brckt.js:80-83 | one more loop iteration appends resource i then id i to what was emitted |
| `Paths.InterleaveLeftover` | brckt.js:84-86 | the leftover resource is appended on its own after the pairs |
| `Paths.GenResourceIdPath` | brckt.js:74-89 | the loop over the array returns exactly the path of the recursive specification |
| `Paths.GenQuery` | brckt.js:12-14 | empty exactly for a falsy (empty or absent) query; otherwise `?` followed by the query's text |
| `Paths.QueryRoundTrip` | brckt.js:12-14 | appending `genQuery(q)` to a path without `?` is undone by splitting at the first `?`: path unchanged, query text back exactly when `q` is truthy |
| `Paths.ListPath` | brckt.js:91-107 | definition of the path `listObjects` requests, branch by argument count; its properties are in `ListOddHasNoQuery`, `ListEvenTakesQuery`, `TwoArgBranchAgrees`, `ListPathEndsInQuery` and `ListPathQuery` |
| `Paths.PathThenQuery` | brckt.js:102-106 | definition of the general even-count rule (path of all but the last argument, then `genQuery(last)`), which `ListPath` uses for even counts other than two |
| `Paths.ListPathEndsInQuery` | brckt.js:102-106 | with an even count and a truthy last argument, the list path ends in `?` followed by that argument's text |
| `Paths.ListOddHasNoQuery` | brckt.js:97-100 | an odd count lists the whole argument list's path with no query |
| `Paths.ListEvenTakesQuery` | brckt.js:102-106 | an even count other than two (none included) is the path of all but the last argument followed by `genQuery(last)` |
| `Paths.TwoArgBranchAgrees` | brckt.js:93-106 | the two-argument branch equals the general even rule iff the first argument is neither `undefined` nor `null` |
| `Paths.JoinPathNoQueryMark` | brckt.js:88 | joining segments whose texts have no `?` adds no `?` |
| `Paths.ResourceIdPathNoQueryMark` | brckt.js:74-89 | the path builder introduces no `?` of its own |
| `Paths.ListPathQuery` | brckt.js:91-107 | when no path argument's text contains `?` (the query argument may contain one), a list URI carries a query exactly when the count is even and the last argument is truthy; the query is that argument's text, and before it is the resource path |
| `Generators.VerbFn` | brckt.js:69-72 | definition of `_.partial(requestP, verb)`; its property is in `RawVerbsTakePathLiterally` |
| `Generators.Restify` | brckt.js:43-47 | definition of `restify`; its property is in `RestifySendsPath` |
| `Generators.RestifyWithData` | brckt.js:49-56 | definition of `restifyWithData`; its properties are in `WriteSplitsBody` and `WritePathIgnoresBody` |
| `Generators.ListObjects` | brckt.js:91-107 | definition of `listObjects` as the raw `get` of `ListPath` with no data; its properties are in the `ListPath` lemmas |
| `Generators.Generate` | brckt.js:59-65 | definition of `generate`; its properties are in `GenerateBinds` and `GenerateStaged` |
| `Generators.Surface` | brckt.js:115-134 | definition of the object the factory returns; its properties are in `BuildersBindDirectFunctions` and `RawVerbsTakePathLiterally` |
| `Generators.RestifySendsPath` | brckt.js:43-47 | a restified verb sends all arguments to the path builder and passes no data |
| `Generators.WriteSplitsBody` | brckt.js:49-56 | a write with arguments `a + [obj]` uses the path of `a` and forwards `obj` unchanged as the data |
| `Generators.WritePathIgnoresBody` | brckt.js:49-56 | the payload never reaches the path: writes differing only in the payload request the same path |
| `Generators.GenerateBinds` | brckt.js:59-65 | `generate(fn)(leading)(trailing)` is `fn(leading + trailing)` |
| `Generators.GenerateStaged` | brckt.js:59-65 | a bound function keeps no state: binding in two stages equals binding once |
| `Generators.BuildersBindDirectFunctions` | brckt.js:115-128 | each `buildXFn(leading)(trailing)` equals the direct function on `leading + trailing` |
| `Generators.RawVerbsTakePathLiterally` | brckt.js:69-72 | `get`, `post`, `put` and `delete` bypass the path builder and pass path and data as given |
| `Transport.NormalizeBaseUrl` | brckt.js:112 | the normalised base URL ends in `/`, extends the input, is at most one character longer, and is the input itself when that already ends in `/` |
| `Transport.NormalizeIdempotent` | brckt.js:112 | normalising twice is normalising once |
| `Transport.NormalizeSlashInsensitive` | brckt.js:112 | a URL already ending in `/` is unchanged; appending `/` first leaves the result unchanged iff the URL did not end in `/` |
| `Transport.Descriptor` | brckt.js:19-28 | definition of the request options `requestP` builds; its properties are in `DescriptorShape` |
| `Transport.DescriptorShape` | brckt.js:19-28 | the request URI is the base URL followed by the path; the body is the data, attached iff the data is truthy |
| `Transport.Classify` | brckt.js:29-38 | a transport error rejects unchanged; status 200..299 resolves with the body; any other status rejects with status and body |
| `Transport.Config.constructor` | brckt.js:8 | the shared configuration object starts with no base URL and no headers |
| `Transport.Config.Configure` | brckt.js:111-113 | the factory overwrites the shared configuration with the normalised base URL and the headers |
| `Transport.Config.RequestOptions` | brckt.js:19-28 | the options have the verb, the URI `config.baseUrl + uri` and the configured headers, and a body iff the data is truthy |
| `Transport.Config.RequestP` | brckt.js:16-41 | the outcome is the classification of the transport's answer to the options built from the current configuration |
| `Transport.Brckt` | brckt.js:111-135 | the factory writes the shared configuration and returns the surface of generators, direct functions and raw verbs |
| `Transport.SecondFactoryRetargetsFirstClient` | brckt.js:111-113 | after a second factory call the shared configuration holds the second base URL (normalised) and headers, and a function from the first client sends to that base URL with those headers |
| `SuiteUrls.NestedObjectPath` | test/test.js:118-123 | `users, posts, 4, 5` gives `users/4/posts/5` |
| `SuiteUrls.NestedListPath` | test/test.js:143-148 | `users, posts, 4` gives `users/4/posts` |
| `SuiteUrls.ShortPaths` | test/test.js:111-116 | `users` gives `users`; `users, 4` gives `users/4` |
| `SuiteUrls.ListCollectionUrl` | test/test.js:129-134 | `listObjects('users')` lists `users` |
| `SuiteUrls.ListWithQueryUrl` | test/test.js:136-141 | `listObjects('users', 'blah')` lists `users?blah` |
| `SuiteUrls.ListNestedUrl` | test/test.js:143-148 | `listObjects('users', 'posts', '4')` lists `users/4/posts` |
| `SuiteUrls.ListNestedWithQueryUrl` | test/test.js:150-155 | `listObjects('users', 'posts', '4', 'read=true')` lists `users/4/posts?read=true` |
| `SuiteUrls.TwoArgumentsAreResourceAndQuery` | brckt.js:93-96 | `listObjects('users', '4')` lists `users?4`, not `users/4` |
| `SuiteUrls.BuildListFnUrls` | test/test.js:49-63 | one bound list function serves two independent calls, with and without a query |
| `SuiteUrls.CreateObjectUrls` | test/test.js:181-195 | `createObject('users', obj)` posts `obj` unchanged to `users`, and `createObject('users', 'posts', '4', obj)` posts it to `users/4/posts` |
| `SuiteUrls.BuildCreateFnUrl` | test/test.js:82-89 | `buildCreateFn('users', 'posts')('4', obj)` posts `obj` unchanged to `users/4/posts` |
| `SuiteUrls.SuiteBaseUrl` | test/test.js:9 | `http://url.com/api`, with or without its trailing slash, normalises to `http://url.com/api/` |
| `SuiteUrls.BuildGetFnCall` | test/test.js:37-43 | `buildGetFn('users', 'posts')('4', '5')` is a GET of `users/4/posts/5` with no data |
| `SuiteUrls.GetObjectAbsoluteUri` | test/test.js:37-43 | with base `http://url.com/api` the nested GET asks for `http://url.com/api/users/4/posts/5`, with or without the trailing slash |
| `SuiteUrls.StatusBoundaries` | brckt.js:34-38 | statuses 200 and 299 resolve; 199 and 300 reject with status and body |

## Left out

- The `request` HTTP call, `Q.Promise` and the callback plumbing (brckt.js:1-3, 18, 29). These are asynchronous I/O through foreign libraries. The transport is a parameter `send: Request -> Response`, and the promise's settlement is the value `Outcome`.
- A falsy error in the transport callback (brckt.js:30 tests `if (err)`). `Response.Failed` stands for a callback whose error is truthy; a callback with a falsy error is `Received`.
- JSON encoding and decoding (`json: true`) and `res.toJSON()`. The status code is taken as given in `Response.Received`.
- JavaScript numbers, arrays and functions as arguments. Numbers are IEEE doubles, whose string conversion is not modelled. Arguments are `undefined`, `null`, booleans, strings and plain objects.
- Headers: any value in the source, forwarded verbatim. They are modelled as a string-to-string map.
- Generators.VerbFn: the raw verbs `get`, `post`, `put` and `delete` are modelled for string paths only. brckt.js:21 concatenates any value, so `get(undefined)` would request `<base>undefined`.
- The unused second parameter `arg` of `restify` (brckt.js:43), because it plays no part.
- The lodash functions are modelled directly: `_.partial` as the function values of `Generate` and `VerbFn`, `_.initial` and `_.last` as sequence slicing, `_.toArray` as the argument sequence itself.
- Transport.Config.constructor: the source's `config` starts as `{}` with `baseUrl` undefined. The model starts with the empty string and an empty header map. No request can be built before a factory call, because every request function is obtained from the factory.
