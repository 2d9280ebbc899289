/** The URLs the repository's test suite expects (test/test.js), stated as
    lemmas about the model. The suite's client is created with the base URL
    `http://url.com/api`, without a trailing slash. */
module SuiteUrls {
  import opened JsValues
  import opened Paths
  import opened Generators
  import opened Transport

  const Base: string := "http://url.com/api"

  /** `['users', 'posts', '4', '5']` gives `users/4/posts/5`. */
  lemma NestedObjectPath()
    ensures ResourceIdPath([Str("users"), Str("posts"), Str("4"), Str("5")]) == "users/4/posts/5"
  {
    ResourceIdPathFour(Str("users"), Str("posts"), Str("4"), Str("5"));
    assert "users" + "/" + "4" + "/" + ("posts" + "/" + "5") == "users/4/posts/5";
  }

  /** `['users', 'posts', '4']` gives `users/4/posts`. */
  lemma NestedListPath()
    ensures ResourceIdPath([Str("users"), Str("posts"), Str("4")]) == "users/4/posts"
  {
    ResourceIdPathThree(Str("users"), Str("posts"), Str("4"));
    assert "users" + "/" + "4" + "/" + "posts" == "users/4/posts";
  }

  /** A lone resource is its own path; a resource and an id are `resource/id`. */
  lemma ShortPaths()
    ensures ResourceIdPath([Str("users")]) == "users"
    ensures ResourceIdPath([Str("users"), Str("4")]) == "users/4"
  {
    ResourceIdPathShort([Str("users")]);
    ResourceIdPathShort([Str("users"), Str("4")]);
    assert "users" + "/" + "4" == "users/4";
  }

  /** `listObjects('users')` lists `users`. */
  lemma ListCollectionUrl()
    ensures ListObjects([Str("users")]).uri == "users"
  {
    ShortPaths();
  }

  /** `listObjects('users', 'blah')` lists `users?blah`. */
  lemma ListWithQueryUrl()
    ensures ListObjects([Str("users"), Str("blah")]).uri == "users?blah"
  {
    assert "users" + ("?" + "blah") == "users?blah";
  }

  /** `listObjects('users', 'posts', '4')` lists `users/4/posts`. */
  lemma ListNestedUrl()
    ensures ListObjects([Str("users"), Str("posts"), Str("4")]).uri == "users/4/posts"
  {
    NestedListPath();
  }

  /** `listObjects('users', 'posts', '4', 'read=true')` lists `users/4/posts?read=true`. */
  lemma ListNestedWithQueryUrl()
    ensures ListObjects([Str("users"), Str("posts"), Str("4"), Str("read=true")]).uri
      == "users/4/posts?read=true"
  {
    assert Initial([Str("users"), Str("posts"), Str("4"), Str("read=true")])
      == [Str("users"), Str("posts"), Str("4")];
    NestedListPath();
  }

  /** The two-argument special case reads `(resource, id)` as a resource and a
      query: `listObjects('users', '4')` lists `users?4`, not `users/4`. */
  lemma TwoArgumentsAreResourceAndQuery()
    ensures ListObjects([Str("users"), Str("4")]).uri == "users?4"
  {
  }

  /** `buildListFn('users', 'posts')` called with `('4')` and with
      `('4', 'read=true')`: one bound function, two independent requests. */
  lemma BuildListFnUrls()
    ensures Surface().buildListFn([Str("users"), Str("posts")])([Str("4")]).uri == "users/4/posts"
    ensures Surface().buildListFn([Str("users"), Str("posts")])([Str("4"), Str("read=true")]).uri
      == "users/4/posts?read=true"
  {
    assert [Str("users"), Str("posts")] + [Str("4")] == [Str("users"), Str("posts"), Str("4")];
    assert [Str("users"), Str("posts")] + [Str("4"), Str("read=true")]
      == [Str("users"), Str("posts"), Str("4"), Str("read=true")];
    ListNestedUrl();
    ListNestedWithQueryUrl();
  }

  /** `createObject('users', obj)` posts `obj` to `users`, and
      `createObject('users', 'posts', '4', obj)` posts it to `users/4/posts`. */
  lemma CreateObjectUrls(obj: Value)
    ensures Surface().createObject([Str("users"), obj]) == Call(Post, "users", obj)
    ensures Surface().createObject([Str("users"), Str("posts"), Str("4"), obj])
      == Call(Post, "users/4/posts", obj)
  {
    WriteSplitsBody(Post, [Str("users")], obj);
    assert [Str("users"), obj] == [Str("users")] + [obj];
    ShortPaths();
    assert [Str("users"), Str("posts"), Str("4"), obj] == [Str("users"), Str("posts"), Str("4")] + [obj];
    WriteSplitsBody(Post, [Str("users"), Str("posts"), Str("4")], obj);
    NestedListPath();
  }

  /** `buildCreateFn('users', 'posts')('4', obj)` posts `obj` to `users/4/posts`. */
  lemma BuildCreateFnUrl(obj: Value)
    ensures Surface().buildCreateFn([Str("users"), Str("posts")])([Str("4"), obj])
      == Call(Post, "users/4/posts", obj)
  {
    assert [Str("users"), Str("posts")] + [Str("4"), obj] == [Str("users"), Str("posts"), Str("4")] + [obj];
    WriteSplitsBody(Post, [Str("users"), Str("posts"), Str("4")], obj);
    NestedListPath();
  }

  /** The suite's base URL, with or without its trailing slash, normalises to
      `http://url.com/api/`. */
  lemma SuiteBaseUrl()
    ensures NormalizeBaseUrl(Base) == "http://url.com/api/"
    ensures NormalizeBaseUrl(Base + "/") == "http://url.com/api/"
  {
    assert Base + "/" == "http://url.com/api/";
  }

  /** `buildGetFn('users', 'posts')('4', '5')` is a GET of `users/4/posts/5`
      with no data. */
  lemma BuildGetFnCall()
    ensures Surface().buildGetFn([Str("users"), Str("posts")])([Str("4"), Str("5")])
      == Call(Get, "users/4/posts/5", Undefined)
  {
    assert [Str("users"), Str("posts")] + [Str("4"), Str("5")]
      == [Str("users"), Str("posts"), Str("4"), Str("5")];
    NestedObjectPath();
  }

  /** That call, against the suite's base URL, asks for
      `http://url.com/api/users/4/posts/5`, whether the base URL is given with
      or without its trailing slash. */
  lemma GetObjectAbsoluteUri(headers: Headers)
    ensures Descriptor(NormalizeBaseUrl(Base), headers,
                       Surface().buildGetFn([Str("users"), Str("posts")])([Str("4"), Str("5")])).uri
      == "http://url.com/api/users/4/posts/5"
    ensures NormalizeBaseUrl(Base + "/") == NormalizeBaseUrl(Base)
  {
    BuildGetFnCall();
    SuiteBaseUrl();
    assert "http://url.com/api/" + "users/4/posts/5" == "http://url.com/api/users/4/posts/5";
  }

  /** The status boundaries: 200 and 299 resolve, 199 and 300 reject with the
      status and the body. */
  lemma StatusBoundaries(body: Value)
    ensures Classify(Received(200, body)) == Resolve(body)
    ensures Classify(Received(299, body)) == Resolve(body)
    ensures Classify(Received(199, body)) == RejectStatus(199, body)
    ensures Classify(Received(300, body)) == RejectStatus(300, body)
  {
  }
}
