/** The path builder of brckt: `genResourceIdPath` turns N tokens, resource names
    first and ids second, into `res0/id0/res1/id1/...`, with the last resource name
    alone at the end when N is odd; `genQuery` and the arity-driven path of
    `listObjects` add an optional query string. */
module Paths {
  import opened JsValues

  /** `Math.ceil(n / 2)`: how many of n tokens are resource names. */
  function CeilHalf(n: nat): (h: nat)
    ensures n <= 2 * h <= n + 1
  {
    (n + 1) / 2
  }

  /** The order in which the loop of `genResourceIdPath` emits segments, stated
      recursively: the first resource, the first id, then the rest interleaved
      the same way; a resource left over (one more resource than ids) comes last. */
  function Interleave<T>(resources: seq<T>, ids: seq<T>): (r: seq<T>)
    requires |ids| <= |resources| <= |ids| + 1
    ensures |r| == |resources| + |ids|
    decreases ids
  {
    if ids == [] then resources
    else [resources[0], ids[0]] + Interleave(resources[1..], ids[1..])
  }

  /** The segments `genResourceIdPath` joins: the tokens split at `ceil(N/2)` into
      resource names and ids, interleaved. */
  function Segments(tokens: seq<Value>): (s: seq<Value>)
    ensures |s| == |tokens|
  {
    var half := CeilHalf(|tokens|);
    Interleave(tokens[..half], tokens[half..])
  }

  /** `segments.join('/')`. */
  function JoinPath(segments: seq<Value>): string
  {
    if segments == [] then ""
    else if |segments| == 1 then JoinText(segments[0])
    else JoinText(segments[0]) + "/" + JoinPath(segments[1..])
  }

  /** The joined text starts with the first segment's text and holds at least
      one `/` between each pair of segments. */
  lemma {:induction false} JoinPathBounds(segments: seq<Value>)
    ensures segments != [] ==> JoinText(segments[0]) <= JoinPath(segments)
    ensures |JoinPath(segments)| >= |segments| - 1
    ensures multiset(JoinPath(segments))['/'] >= |segments| - 1
  {
    if |segments| > 1 {
      JoinPathBounds(segments[1..]);
      var a := JoinText(segments[0]);
      var rest := JoinPath(segments[1..]);
      assert JoinPath(segments) == a + "/" + rest;
      assert multiset(a + "/" + rest) == multiset(a) + multiset("/") + multiset(rest);
    }
  }

  /** The value `genResourceIdPath(tokens)` returns. */
  function ResourceIdPath(tokens: seq<Value>): string
  {
    JoinPath(Segments(tokens))
  }

  /** The path starts with the first resource name and has at least one
      character per token after the first. */
  lemma ResourceIdPathBounds(tokens: seq<Value>)
    ensures tokens != [] ==> JoinText(tokens[0]) <= ResourceIdPath(tokens)
    ensures |ResourceIdPath(tokens)| >= |tokens| - 1
  {
    JoinPathBounds(Segments(tokens));
  }

  lemma {:induction false} InterleaveAt<T>(resources: seq<T>, ids: seq<T>, j: nat)
    requires |ids| <= |resources| <= |ids| + 1
    requires j < |ids|
    ensures Interleave(resources, ids)[2 * j] == resources[j]
    ensures Interleave(resources, ids)[2 * j + 1] == ids[j]
  {
    if j > 0 {
      InterleaveAt(resources[1..], ids[1..], j - 1);
    }
  }

  lemma {:induction false} InterleaveLast<T>(resources: seq<T>, ids: seq<T>)
    requires |resources| == |ids| + 1
    ensures Interleave(resources, ids)[2 * |ids|] == resources[|ids|]
  {
    if ids != [] {
      InterleaveLast(resources[1..], ids[1..]);
    }
  }

  lemma SplitHeadMultiset<T>(s: seq<T>)
    requires s != []
    ensures multiset(s) == multiset{s[0]} + multiset(s[1..])
  {
    assert s == [s[0]] + s[1..];
  }

  lemma {:induction false} InterleaveMultiset<T>(resources: seq<T>, ids: seq<T>)
    requires |ids| <= |resources| <= |ids| + 1
    ensures multiset(Interleave(resources, ids)) == multiset(resources) + multiset(ids)
  {
    if ids != [] {
      var rest := Interleave(resources[1..], ids[1..]);
      InterleaveMultiset(resources[1..], ids[1..]);
      assert Interleave(resources, ids) == [resources[0], ids[0]] + rest;
      SplitHeadMultiset(resources);
      SplitHeadMultiset(ids);
    }
  }

  /** Resource j and id j sit side by side in the pre-join segment array of
      `genResourceIdPath`, for every j below floor(N/2). */
  lemma SegmentsAt(tokens: seq<Value>, j: nat)
    requires j < |tokens| / 2
    ensures Segments(tokens)[2 * j] == tokens[j]
    ensures Segments(tokens)[2 * j + 1] == tokens[CeilHalf(|tokens|) + j]
  {
    var half := CeilHalf(|tokens|);
    InterleaveAt(tokens[..half], tokens[half..], j);
  }

  /** When N is odd the last segment is the last resource name, with no id after it. */
  lemma SegmentsOddLast(tokens: seq<Value>)
    requires |tokens| % 2 == 1
    ensures Segments(tokens)[|tokens| - 1] == tokens[CeilHalf(|tokens|) - 1]
  {
    var half := CeilHalf(|tokens|);
    InterleaveLast(tokens[..half], tokens[half..]);
  }

  /** The pre-join segment array is a permutation of the tokens: each token is
      used exactly once. */
  lemma SegmentsPermutation(tokens: seq<Value>)
    ensures multiset(Segments(tokens)) == multiset(tokens)
  {
    var half := CeilHalf(|tokens|);
    InterleaveMultiset(tokens[..half], tokens[half..]);
    assert tokens == tokens[..half] + tokens[half..];
  }

  /** The segments of N >= 2 tokens start with the first resource and the first
      id; the rest are the segments of the tokens left once those two are removed. */
  lemma SegmentsPeel(tokens: seq<Value>)
    requires |tokens| >= 2
    ensures Segments(tokens) ==
      [tokens[0], tokens[CeilHalf(|tokens|)]] +
      Segments(tokens[1..CeilHalf(|tokens|)] + tokens[CeilHalf(|tokens|) + 1..])
  {
    var half := CeilHalf(|tokens|);
    var rest := tokens[1..half] + tokens[half + 1..];
    assert CeilHalf(|rest|) == half - 1;
    assert rest[..half - 1] == tokens[..half][1..];
    assert rest[half - 1..] == tokens[half..][1..];
  }

  /** Joining one segment in front of at least one more. */
  lemma JoinPathCons(a: Value, tail: seq<Value>)
    requires tail != []
    ensures JoinPath([a] + tail) == JoinText(a) + "/" + JoinPath(tail)
  {
    assert ([a] + tail)[1..] == tail;
  }

  /** Joining exactly two segments. */
  lemma JoinPathTwo(a: Value, b: Value)
    ensures JoinPath([a, b]) == JoinText(a) + "/" + JoinText(b)
  {
    assert [a, b][1..] == [b];
  }

  lemma SlashAssoc(x: string, y: string, z: string)
    ensures x + "/" + (y + "/" + z) == x + "/" + y + "/" + z
  {
  }

  /** Joining two leading segments in front of a non-empty rest. */
  lemma JoinPathPair(a: Value, b: Value, tail: seq<Value>)
    requires tail != []
    ensures JoinPath([a, b] + tail) == JoinText(a) + "/" + JoinText(b) + "/" + JoinPath(tail)
  {
    assert [a, b] + tail == [a] + ([b] + tail);
    JoinPathCons(a, [b] + tail);
    JoinPathCons(b, tail);
    SlashAssoc(JoinText(a), JoinText(b), JoinPath(tail));
  }

  /** Peeling the first pair: for N > 2 the path is `res0/id0`, then `/` and the
      path of the remaining tokens, which are still resources first and ids
      second. */
  lemma ResourceIdPathPeel(tokens: seq<Value>)
    requires |tokens| > 2
    ensures ResourceIdPath(tokens) ==
      JoinText(tokens[0]) + "/" + JoinText(tokens[CeilHalf(|tokens|)]) + "/" +
      ResourceIdPath(tokens[1..CeilHalf(|tokens|)] + tokens[CeilHalf(|tokens|) + 1..])
  {
    var half := CeilHalf(|tokens|);
    var rest := tokens[1..half] + tokens[half + 1..];
    var tail := Segments(rest);
    assert Segments(tokens) == [tokens[0], tokens[half]] + tail by {
      SegmentsPeel(tokens);
    }
    assert tail != [];
    JoinPathPair(tokens[0], tokens[half], tail);
  }

  /** No token gives the empty path, one token is the path, and two tokens are
      `resource/id`. */
  lemma ResourceIdPathShort(tokens: seq<Value>)
    requires |tokens| <= 2
    ensures ResourceIdPath(tokens) ==
      if |tokens| == 0 then ""
      else if |tokens| == 1 then JoinText(tokens[0])
      else JoinText(tokens[0]) + "/" + JoinText(tokens[1])
  {
    if |tokens| == 2 {
      assert Segments(tokens) == [tokens[0], tokens[1]] + Interleave<Value>([], []);
      assert [tokens[0], tokens[1]] + [] == [tokens[0], tokens[1]];
      JoinPathTwo(tokens[0], tokens[1]);
    }
  }

  /** Three tokens `r0, r1, i0` give `r0/i0/r1`. */
  lemma ResourceIdPathThree(r0: Value, r1: Value, i0: Value)
    ensures ResourceIdPath([r0, r1, i0]) == JoinText(r0) + "/" + JoinText(i0) + "/" + JoinText(r1)
  {
    var tokens := [r0, r1, i0];
    assert tokens[1..CeilHalf(3)] + tokens[CeilHalf(3) + 1..] == [r1];
    ResourceIdPathPeel(tokens);
    ResourceIdPathShort([r1]);
  }

  /** Four tokens `r0, r1, i0, i1` give `r0/i0/r1/i1`. */
  lemma ResourceIdPathFour(r0: Value, r1: Value, i0: Value, i1: Value)
    ensures ResourceIdPath([r0, r1, i0, i1]) ==
      JoinText(r0) + "/" + JoinText(i0) + "/" + (JoinText(r1) + "/" + JoinText(i1))
  {
    var tokens := [r0, r1, i0, i1];
    assert tokens[1..CeilHalf(4)] + tokens[CeilHalf(4) + 1..] == [r1, i1];
    ResourceIdPathPeel(tokens);
    ResourceIdPathShort([r1, i1]);
  }

  /** The segments are determined by their positional shape: any sequence of N
      values with resource j and id j side by side for every j below floor(N/2),
      and the last resource at the end when N is odd, is the segment list. */
  lemma SegmentsByPosition(tokens: seq<Value>, s: seq<Value>)
    requires |s| == |tokens|
    requires forall j :: 0 <= j < |tokens| / 2 ==>
      s[2 * j] == tokens[j] && s[2 * j + 1] == tokens[CeilHalf(|tokens|) + j]
    requires |tokens| % 2 == 1 ==> s[|tokens| - 1] == tokens[CeilHalf(|tokens|) - 1]
    ensures s == Segments(tokens)
  {
    forall k | 0 <= k < |s|
      ensures s[k] == Segments(tokens)[k]
    {
      if k == 2 * (|tokens| / 2) {
        SegmentsOddLast(tokens);
      } else {
        SegmentsAt(tokens, k / 2);
      }
    }
  }

  /** Interleaving one more resource and id pair appends that pair. */
  lemma {:induction false} InterleaveSnoc<T>(resources: seq<T>, ids: seq<T>, r: T, d: T)
    requires |resources| == |ids|
    ensures Interleave(resources + [r], ids + [d]) == Interleave(resources, ids) + [r, d]
  {
    if ids != [] {
      assert (resources + [r])[1..] == resources[1..] + [r];
      assert (ids + [d])[1..] == ids[1..] + [d];
      InterleaveSnoc(resources[1..], ids[1..], r, d);
    }
  }

  /** A resource without an id, interleaved last, is appended on its own. */
  lemma {:induction false} InterleaveLeftover<T>(resources: seq<T>, ids: seq<T>, r: T)
    requires |resources| == |ids|
    ensures Interleave(resources + [r], ids) == Interleave(resources, ids) + [r]
  {
    if ids != [] {
      assert (resources + [r])[1..] == resources[1..] + [r];
      InterleaveLeftover(resources[1..], ids[1..], r);
    }
  }

  /** `genResourceIdPath` as the source writes it: split at `ceil(N/2)`, push
      resource i and id i for every id into an array, push the last resource
      when there are more resources than ids, and join with `/`. */
  method GenResourceIdPath(tokens: seq<Value>) returns (path: string)
    ensures path == ResourceIdPath(tokens)
  {
    var half := CeilHalf(|tokens|);
    var resources := tokens[..half];
    var ids := tokens[half..];
    var segments := new Value[|tokens|];
    var count := 0;
    for i := 0 to |ids|
      invariant count == 2 * i
      invariant segments[..count] == Interleave(resources[..i], ids[..i])
    {
      segments[count] := resources[i];
      segments[count + 1] := ids[i];
      assert segments[..count + 2] == segments[..count] + [resources[i], ids[i]];
      assert resources[..i + 1] == resources[..i] + [resources[i]];
      assert ids[..i + 1] == ids[..i] + [ids[i]];
      InterleaveSnoc(resources[..i], ids[..i], resources[i], ids[i]);
      count := count + 2;
    }
    assert ids[..|ids|] == ids;
    if |resources| > |ids| {
      segments[count] := resources[|resources| - 1];
      assert segments[..count + 1] == segments[..count] + [resources[|resources| - 1]];
      assert resources == resources[..|ids|] + [resources[|resources| - 1]];
      InterleaveLeftover(resources[..|ids|], ids, resources[|resources| - 1]);
      count := count + 1;
    } else {
      assert resources[..|ids|] == resources;
    }
    path := JoinPath(segments[..count]);
  }

  /** `genQuery(query)`: nothing for a falsy (empty or absent) query, otherwise
      `?` followed by the query's text. */
  function GenQuery(query: Value): (r: string)
    ensures r == "" <==> !Truthy(query)
    ensures Truthy(query) ==> r == "?" + ToStr(query)
  {
    if Truthy(query) then "?" + ToStr(query) else ""
  }

  /** Reading a URI back: the text before the first `?`, and the text after it
      when there is one. */
  function SplitQuery(uri: string): (string, Option<string>)
  {
    if uri == [] then ("", None)
    else if uri[0] == '?' then ("", Some(uri[1..]))
    else
      var (path, query) := SplitQuery(uri[1..]);
      ([uri[0]] + path, query)
  }

  /** Appending `genQuery(query)` to a path without `?` can be undone: the path
      comes back unchanged, and the query text comes back exactly when the query
      is truthy. */
  lemma {:induction false} QueryRoundTrip(path: string, query: Value)
    requires '?' !in path
    ensures SplitQuery(path + GenQuery(query)) ==
      (path, if Truthy(query) then Some(ToStr(query)) else None)
  {
    if path == [] {
      assert path + GenQuery(query) == GenQuery(query);
    } else {
      assert (path + GenQuery(query))[1..] == path[1..] + GenQuery(query);
      QueryRoundTrip(path[1..], query);
      assert [path[0]] + path[1..] == path;
    }
  }

  /** The path `listObjects(args)` requests: two arguments are a resource and a
      query; an odd count is a path with no query; any other even count is a
      path from all but the last argument followed by the query from the last. */
  function ListPath(args: seq<Value>): string
  {
    if |args| == 2 then ToStr(args[0]) + GenQuery(args[1])
    else if |args| % 2 == 1 then ResourceIdPath(args)
    else PathThenQuery(args)
  }

  /** The general even-count rule of `listObjects`, applied to any argument list. */
  function PathThenQuery(args: seq<Value>): string
  {
    ResourceIdPath(Initial(args)) + GenQuery(Last(args))
  }

  /** With an even count, a truthy last argument ends the list path as the
      query `?` followed by its text. */
  lemma ListPathEndsInQuery(args: seq<Value>)
    requires |args| % 2 == 0 && Truthy(Last(args))
    ensures var q := "?" + ToStr(Last(args));
      |q| <= |ListPath(args)| && ListPath(args)[|ListPath(args)| - |q|..] == q
  {
  }

  /** An odd count lists the collection that the whole argument list names,
      with no query. */
  lemma ListOddHasNoQuery(args: seq<Value>)
    requires |args| % 2 == 1
    ensures ListPath(args) == ResourceIdPath(args)
  {
  }

  /** Every even count other than two (including none) takes the last argument
      as the query. */
  lemma ListEvenTakesQuery(args: seq<Value>)
    requires |args| % 2 == 0 && |args| != 2
    ensures ListPath(args) == PathThenQuery(args)
  {
  }

  /** The two-argument branch gives the same string as the general even rule
      would, exactly when the first argument is neither `undefined` nor `null`:
      `+` spells those out, `join` writes nothing for them. */
  lemma TwoArgBranchAgrees(resource: Value, query: Value)
    ensures ListPath([resource, query]) == PathThenQuery([resource, query])
      <==> !(resource.Undefined? || resource.Null?)
  {
    var args := [resource, query];
    assert Initial(args) == [resource];
    ResourceIdPathShort([resource]);
    if resource.Undefined? || resource.Null? {
      assert |ListPath(args)| == |ToStr(resource)| + |GenQuery(query)|;
      assert |PathThenQuery(args)| == |GenQuery(query)|;
    }
  }

  /** No token's text contains a `?`. */
  predicate NoQueryMark(tokens: seq<Value>) {
    forall t :: t in tokens ==> '?' !in JoinText(t)
  }

  lemma {:induction false} JoinPathNoQueryMark(segments: seq<Value>)
    requires NoQueryMark(segments)
    ensures '?' !in JoinPath(segments)
  {
    if |segments| > 1 {
      assert segments[0] in segments;
      JoinPathNoQueryMark(segments[1..]);
    } else if |segments| == 1 {
      assert segments[0] in segments;
    }
  }

  /** The path builder adds no `?` of its own. */
  lemma ResourceIdPathNoQueryMark(tokens: seq<Value>)
    requires NoQueryMark(tokens)
    ensures '?' !in ResourceIdPath(tokens)
  {
    SegmentsPermutation(tokens);
    forall t | t in Segments(tokens) ensures t in tokens {
      assert t in multiset(Segments(tokens));
    }
    JoinPathNoQueryMark(Segments(tokens));
  }

  /** When no path argument's text contains `?`, the URI `listObjects` requests
      carries a query exactly when the argument count is even and the last
      argument is truthy, and that query is the last argument's text; the part
      before it is the resource path (for two arguments, the first argument). */
  lemma ListPathQuery(args: seq<Value>)
    requires NoQueryMark(if |args| % 2 == 1 then args else Initial(args))
    ensures SplitQuery(ListPath(args)) ==
      (if |args| == 2 then ToStr(args[0])
       else if |args| % 2 == 1 then ResourceIdPath(args)
       else ResourceIdPath(Initial(args)),
       if |args| % 2 == 0 && Truthy(Last(args)) then Some(ToStr(Last(args))) else None)
  {
    if |args| == 2 {
      assert Initial(args) == [args[0]] && Last(args) == args[1];
      assert args[0] in Initial(args);
      assert '?' !in ToStr(args[0]) by {
        if args[0].Undefined? || args[0].Null? {
          assert ToStr(args[0]) == "undefined" || ToStr(args[0]) == "null";
        }
      }
      QueryRoundTrip(ToStr(args[0]), args[1]);
    } else if |args| % 2 == 1 {
      ResourceIdPathNoQueryMark(args);
      QueryRoundTrip(ResourceIdPath(args), Undefined);
      assert ResourceIdPath(args) + GenQuery(Undefined) == ResourceIdPath(args);
    } else {
      ResourceIdPathNoQueryMark(Initial(args));
      QueryRoundTrip(ResourceIdPath(Initial(args)), Last(args));
    }
  }
}
