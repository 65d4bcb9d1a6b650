/** The examples of `build_operation_id` and `build_schema_identifier`:
    the docstring's path and the cases of tests/test_utils.py, each worked
    out from the general lemmas of the Identifiers module. */
module IdentifierExamples {
  import opened Wrappers
  import opened Strings
  import opened Models
  import opened Paths
  import opened Identifiers

  // ---------------------------------------------------------------------
  // Generic steps

  /** A segment without "/" in front of the rest of a path. */
  lemma SplitCons(a: string, b: string)
    requires '/' !in a
    ensures Split(a + "/" + b, '/') == [a] + Split(b, '/')
  {
    assert a + "/" + b == a + ['/'] + b;
    SplitAround(a, b, '/');
    SplitNoSeparator(a, '/');
  }

  /** The segments of a text written out as segments and separators. */
  lemma SplitTwo(s: string, a: string, b: string)
    requires s == a + "/" + b && '/' !in a && '/' !in b
    ensures Split(s, '/') == [a, b]
  {
    SplitCons(a, b);
    SplitNoSeparator(b, '/');
  }

  lemma SplitThree(s: string, a: string, b: string, c: string)
    requires s == a + "/" + (b + "/" + c) && '/' !in a && '/' !in b && '/' !in c
    ensures Split(s, '/') == [a, b, c]
  {
    SplitTwo(b + "/" + c, b, c);
    SplitCons(a, b + "/" + c);
  }

  lemma SplitFour(s: string, a: string, b: string, c: string, d: string)
    requires s == a + "/" + (b + "/" + (c + "/" + d)) && '/' !in a && '/' !in b && '/' !in c && '/' !in d
    ensures Split(s, '/') == [a, b, c, d]
  {
    SplitThree(b + "/" + (c + "/" + d), b, c, d);
    SplitCons(a, b + "/" + (c + "/" + d));
  }

  lemma SplitFive(s: string, a: string, b: string, c: string, d: string, e: string)
    requires s == a + "/" + (b + "/" + (c + "/" + (d + "/" + e)))
    requires '/' !in a && '/' !in b && '/' !in c && '/' !in d && '/' !in e
    ensures Split(s, '/') == [a, b, c, d, e]
  {
    SplitFour(b + "/" + (c + "/" + (d + "/" + e)), b, c, d, e);
    SplitCons(a, b + "/" + (c + "/" + (d + "/" + e)));
  }

  lemma SplitSix(s: string, a: string, b: string, c: string, d: string, e: string, f: string)
    requires s == a + "/" + (b + "/" + (c + "/" + (d + "/" + (e + "/" + f))))
    requires '/' !in a && '/' !in b && '/' !in c && '/' !in d && '/' !in e && '/' !in f
    ensures Split(s, '/') == [a, b, c, d, e, f]
  {
    SplitFive(b + "/" + (c + "/" + (d + "/" + (e + "/" + f))), b, c, d, e, f);
    SplitCons(a, b + "/" + (c + "/" + (d + "/" + (e + "/" + f))));
  }

  /** A path under the version prefix "/v1/". */
  lemma V1Version(path: string, rest: string)
    requires path == "/v1/" + rest && |rest| > 0
    ensures PathWithoutVersion(path) == Some(rest)
  {
    assert IsVersionPrefix("/v1/") by {
      assert "/v1/"[2..3] == "1";
    }
    VersionPrefixMatches("/v1/", rest);
  }

  /** A path with a placeholder segment is parameterised. */
  lemma ParameterizedAt(path: string, cs: seq<string>, i: nat)
    requires Split(path, '/') == cs && i < |cs| && IsParamSegment(cs[i])
    ensures IsParameterized(path)
  {
  }

  /** A path none of whose segments is a placeholder is not parameterised. */
  lemma NotParameterizedOf(path: string, cs: seq<string>)
    requires Split(path, '/') == cs && forall i :: 0 <= i < |cs| ==> !IsParamSegment(cs[i])
    ensures !IsParameterized(path)
  {
  }

  /** `build_path_params` on a path whose segments and template segments
      are known. */
  lemma PathParamsOf(path: string, cs: seq<string>, segs: seq<string>)
    requires Split(path, '/') == cs && Parameterize(cs) == segs
    ensures |segs| == |cs| && PathParams(path) == CollectParams(segs, cs, |cs|)
  {
    TemplateSegments(path);
  }

  lemma WordsOfPair(a: string, b: string, names: seq<string>)
    ensures Words([a, b], names) == Word(a, names) + Word(b, names)
  {
    WordsAppend([a], [b], names);
    assert [a] + [b] == [a, b];
    WordsOne(a, names);
    WordsOne(b, names);
  }

  /** The identifier from the text after the prefix and its words, when
      the method value and the words hold no "_". */
  lemma OperationIdOf(m: HTTPMethod, path: string, rest: string, words: string, id: string)
    requires PathWithoutVersion(path) == Some(rest) && OperationWords(path, rest) == words
    requires id == MethodValue(m) + words && '_' !in id
    ensures OperationId(m, path) == Ok(id)
  {
  }

  /** The words of a path that is not a template: the non-numeric segments
      of the text after the prefix, against the keys of `build_path_params`. */
  lemma WordsOfNumbered(path: string, rest: string, segs: seq<string>, names: seq<string>, words: string)
    requires !IsParameterized(path) && PathParams(path).Ok? && DictKeys(PathParams(path).value) == names
    requires NonDigitSegments(Split(rest, '/')) == segs && Words(segs, names) == words
    ensures OperationWords(path, rest) == words
  {
  }

  /** The words of a template: its segments that start no placeholder,
      against the names `findall` gives. */
  lemma WordsOfTemplate(path: string, rest: string, segs: seq<string>, names: seq<string>, words: string)
    requires IsParameterized(path) && FindParamNames(path) == names
    requires NonParamSegments(Split(rest, '/')) == segs && Words(segs, names) == words
    ensures OperationWords(path, rest) == words
  {
  }

  /** The schema identifier from the operation identifier. */
  lemma SchemaIdOf(m: HTTPMethod, path: string, id: string, t: SchemaType, sid: string)
    requires OperationId(m, path) == Ok(id) && |id| > 0
    requires sid == [Upper(id[0])] + id[1..] + Label(t)
    ensures SchemaId(m, path, t) == Ok(sid)
  {
  }

  // ---------------------------------------------------------------------
  // Words of the resources "posts" and "comments"

  lemma PostInPostId()
    ensures NamesContain(["post_id"], "post")
  {
    assert "post_id"[0..4] == "post";
    assert OccursAt("post", ["post_id"][0], 0);
  }

  lemma WordPosts(names: seq<string>)
    requires NamesContain(names, "post")
    ensures Word("posts", names) == "Post"
  {
    PostsLetters("posts");
    WordSingular("posts", "post", "Posts", "Post", names);
  }

  lemma WordComment(names: seq<string>)
    requires NamesContain(names, "comment")
    ensures Word("comments", names) == "Comment"
  {
    CommentsLetters("comments");
    WordSingular("comments", "comment", "Comments", "Comment", names);
  }

  lemma WordComments()
    ensures Word("comments", ["post_id"]) == "Comments"
  {
    CommentsLetters("comments");
    CommentNotInPostId(["post_id"]);
    WordPlural("comments", "comment", "Comments", ["post_id"]);
  }

  lemma PostsLetters(res: string)
    requires res == "posts"
    ensures DropLast(res) == "post" && Capitalize(res) == "Posts" && "Posts" == "Post" + ['s']
  {
    assert "post" + ['s'] == res;
  }

  lemma CommentsLetters(res: string)
    requires res == "comments"
    ensures DropLast(res) == "comment" && Capitalize(res) == "Comments" && "Comments" == "Comment" + ['s']
  {
    assert "comment" + ['s'] == res;
  }

  lemma CommentNotInPostId(names: seq<string>)
    requires names == ["post_id"]
    ensures !NamesContain(names, "comment")
  {
    forall i | 0 <= i <= |"post_id"| ensures !OccursAt("comment", "post_id", i) {
      if i == 0 {
        assert "post_id"[0..7][0] == 'p';
      }
    }
  }

  /** A segment whose stem is in a parameter name loses its last letter. */
  lemma WordSingular(res: string, stem: string, capres: string, cap: string, names: seq<string>)
    requires DropLast(res) == stem && Capitalize(res) == capres && NamesContain(names, stem)
    requires |capres| > 0 && capres == cap + [capres[|capres| - 1]]
    ensures Word(res, names) == cap
  {
    assert capres[..|capres| - 1] == cap;
  }

  /** A segment whose stem is in no parameter name keeps every letter. */
  lemma WordPlural(res: string, stem: string, capres: string, names: seq<string>)
    requires DropLast(res) == stem && Capitalize(res) == capres && !NamesContain(names, stem)
    ensures Word(res, names) == capres
  {
  }


  /** Against the one name "post_id", "posts" loses its "s" and "comments"
      keeps it. */
  lemma PostCommentsWords(segs: seq<string>, names: seq<string>)
    requires segs == ["posts", "comments"] && names == ["post_id"]
    ensures Words(segs, names) == "Post" + "Comments"
  {
    WordsOfPair("posts", "comments", names);
    PostInPostId();
    WordPosts(names);
    WordComments();
  }

  lemma PostAndCommentInNames()
    ensures NamesContain(["post_id", "comment_id"], "post")
    ensures NamesContain(["post_id", "comment_id"], "comment")
  {
    var names := ["post_id", "comment_id"];
    assert OccursAt("post", names[0], 0) by {
      assert "post_id"[0..4] == "post";
    }
    assert OccursAt("comment", names[1], 0) by {
      assert "comment_id"[0..7] == "comment";
    }
  }

  /** Against "post_id" and "comment_id", both lose their "s". */
  lemma PostCommentWords(segs: seq<string>, names: seq<string>)
    requires segs == ["posts", "comments"] && names == ["post_id", "comment_id"]
    ensures Words(segs, names) == "Post" + "Comment"
  {
    WordsOfPair("posts", "comments", names);
    PostAndCommentInNames();
    WordPosts(names);
    WordComment(names);
  }

  /** The identifiers the examples expect, written as their parts. */
  lemma ExpectedIds()
    ensures "getPostComments" == MethodValue(GET) + ("Post" + "Comments") && '_' !in "getPostComments"
    ensures "getPostComment" == MethodValue(GET) + ("Post" + "Comment") && '_' !in "getPostComment"
    ensures "postPostComments" == MethodValue(POST) + ("Post" + "Comments") && '_' !in "postPostComments"
    ensures "postAlbums" == MethodValue(POST) + "Albums" && '_' !in "postAlbums"
  {
  }

  /** The schema identifiers the examples expect, written as their parts. */
  lemma GetPostCommentSchemaIds(id: string)
    requires id == "getPostComment"
    ensures "GetPostCommentRequestParams" == [Upper(id[0])] + id[1..] + Label(RequestParams)
    ensures "GetPostCommentResponse" == [Upper(id[0])] + id[1..] + Label(ResponseBody)
  {
    assert [Upper(id[0])] + id[1..] == "GetPostComment";
  }

  lemma PostPostCommentsSchemaId(id: string)
    requires id == "postPostComments"
    ensures "PostPostCommentsRequestBody" == [Upper(id[0])] + id[1..] + Label(RequestBody)
  {
    assert [Upper(id[0])] + id[1..] == "PostPostComments";
  }

  lemma PostAlbumsSchemaId(id: string)
    requires id == "postAlbums"
    ensures "PostAlbumsRequestBody" == [Upper(id[0])] + id[1..] + Label(RequestBody)
  {
    assert [Upper(id[0])] + id[1..] == "PostAlbums";
  }

  // ---------------------------------------------------------------------
  // The docstring: GET /v1/posts/1/comments

  lemma DocTemplate()
    ensures Parameterize(["", "v1", "posts", "1", "comments"]) == ["", "v1", "posts", "{post_id}", "comments"]
  {
    var cs := ["", "v1", "posts", "1", "comments"];
    var want := ["", "v1", "posts", "{post_id}", "comments"];
    assert IsDigits(cs[3]);
    assert !IsDigit(cs[1][0]) && !IsDigit(cs[2][0]) && !IsDigit(cs[4][0]);
    ParameterizeSegments(cs);
    ExamplePlaceholders();
    var out := Parameterize(cs);
    assert forall k :: 0 <= k < 5 ==> out[k] == want[k];
  }

  lemma DocCollect()
    ensures CollectParams(["", "v1", "posts", "{post_id}", "comments"], ["", "v1", "posts", "1", "comments"], 5)
            == Ok([("post_id", 1)])
  {
    var cs := ["", "v1", "posts", "1", "comments"];
    var segs := ["", "v1", "posts", "{post_id}", "comments"];
    ExampleSegments();
    assert IsDigits("1") && DigitsValue("1") == 1;
    assert CollectParams(segs, cs, 3) == Ok([]) by {
      assert CollectParams(segs, cs, 1) == Ok([]);
      assert CollectParams(segs, cs, 2) == Ok([]);
    }
    assert DictKeys<int>([]) == [];
    assert Put([], "post_id", 1) == [("post_id", 1)];
    assert CollectParams(segs, cs, 4) == Ok([("post_id", 1)]);
  }

  /** `build_path_params` of the docstring's path finds one parameter. */
  lemma DocPathParams(path: string)
    requires Split(path, '/') == ["", "v1", "posts", "1", "comments"]
    ensures !IsParameterized(path)
    ensures PathParams(path) == Ok([("post_id", 1)])
  {
    var cs := ["", "v1", "posts", "1", "comments"];
    ExampleSegments();
    assert !IsParamSegment("1");
    NotParameterizedOf(path, cs);
    DocTemplate();
    PathParamsOf(path, cs, ["", "v1", "posts", "{post_id}", "comments"]);
    DocCollect();
  }

  lemma DocKeys()
    ensures DictKeys([("post_id", 1)]) == ["post_id"]
  {
  }

  lemma DocNumbered(path: string)
    requires path == "/v1/posts/1/comments"
    ensures !IsParameterized(path) && PathParams(path).Ok? && DictKeys(PathParams(path).value) == ["post_id"]
  {
    SplitFive(path, "", "v1", "posts", "1", "comments");
    DocPathParams(path);
    DocKeys();
  }

  lemma DocNonDigit()
    ensures NonDigitSegments(["posts", "1", "comments"]) == ["posts", "comments"]
  {
    var segs := ["posts", "1", "comments"];
    assert !IsDigit(segs[0][0]) && !IsDigit(segs[2][0]);
    assert IsDigits(segs[1]);
    assert NonDigitSegments(segs[3..]) == [];
    assert NonDigitSegments(segs[2..]) == [segs[2]] + NonDigitSegments(segs[3..]);
    assert NonDigitSegments(segs[1..]) == NonDigitSegments(segs[2..]);
  }

  lemma DocRest(rest: string)
    requires rest == "posts/1/comments"
    ensures NonDigitSegments(Split(rest, '/')) == ["posts", "comments"]
  {
    SplitThree(rest, "posts", "1", "comments");
    DocNonDigit();
  }

  /** "posts" loses its "s" because "post" is part of the name "post_id",
      "comments" keeps it, and "1" leaves no word. */
  lemma DocWords(path: string, rest: string)
    requires path == "/v1/posts/1/comments" && rest == "posts/1/comments"
    ensures OperationWords(path, rest) == "Post" + "Comments"
  {
    DocNumbered(path);
    DocRest(rest);
    PostCommentsWords(["posts", "comments"], ["post_id"]);
    WordsOfNumbered(path, rest, ["posts", "comments"], ["post_id"], "Post" + "Comments");
  }

  lemma DocOperationId(path: string, rest: string)
    requires path == "/v1/posts/1/comments" && rest == "posts/1/comments"
    ensures OperationId(GET, path) == Ok("getPostComments")
  {
    V1Version(path, rest);
    DocWords(path, rest);
    ExpectedIds();
    OperationIdOf(GET, path, rest, "Post" + "Comments", "getPostComments");
  }

  /** The example of the function's docstring. */
  lemma OperationIdExample()
    ensures OperationId(GET, "/v1/posts/1/comments") == Ok("getPostComments")
  {
    DocOperationId("/v1/posts/1/comments", "posts/1/comments");
  }

  // ---------------------------------------------------------------------
  // tests/test_utils.py: GET /v1/posts/100/comments/2

  /** The raw path is not parameterised, and `build_path_params` finds the
      two parameters of its docstring. */
  lemma RawPathParams(path: string)
    requires Split(path, '/') == ["", "v1", "posts", "100", "comments", "2"]
    ensures !IsParameterized(path)
    ensures PathParams(path) == Ok([("post_id", 100), ("comment_id", 2)])
  {
    var cs := ["", "v1", "posts", "100", "comments", "2"];
    ExampleSegments();
    assert !IsParamSegment("100") && !IsParamSegment("2");
    NotParameterizedOf(path, cs);
    ParameterizeExample();
    PathParamsOf(path, cs, ["", "v1", "posts", "{post_id}", "comments", "{comment_id}"]);
    PathParamsExample();
  }

  lemma RawKeys()
    ensures DictKeys([("post_id", 100), ("comment_id", 2)]) == ["post_id", "comment_id"]
  {
  }

  lemma RawNumbered(path: string)
    requires path == "/v1/posts/100/comments/2"
    ensures !IsParameterized(path) && PathParams(path).Ok?
    ensures DictKeys(PathParams(path).value) == ["post_id", "comment_id"]
  {
    SplitSix(path, "", "v1", "posts", "100", "comments", "2");
    RawPathParams(path);
    RawKeys();
  }

  lemma RawNonDigit()
    ensures NonDigitSegments(["posts", "100", "comments", "2"]) == ["posts", "comments"]
  {
    var segs := ["posts", "100", "comments", "2"];
    assert !IsDigit(segs[0][0]) && !IsDigit(segs[2][0]);
    ExampleDigits();
    assert NonDigitSegments(segs[3..]) == [];
    assert NonDigitSegments(segs[2..]) == [segs[2]] + NonDigitSegments(segs[3..]);
    assert NonDigitSegments(segs[1..]) == NonDigitSegments(segs[2..]);
  }

  lemma RawRest(rest: string)
    requires rest == "posts/100/comments/2"
    ensures NonDigitSegments(Split(rest, '/')) == ["posts", "comments"]
  {
    SplitFour(rest, "posts", "100", "comments", "2");
    RawNonDigit();
  }

  /** Both resources stand in front of a number, so both lose their "s". */
  lemma RawWords(path: string, rest: string)
    requires path == "/v1/posts/100/comments/2" && rest == "posts/100/comments/2"
    ensures OperationWords(path, rest) == "Post" + "Comment"
  {
    RawNumbered(path);
    RawRest(rest);
    PostCommentWords(["posts", "comments"], ["post_id", "comment_id"]);
    WordsOfNumbered(path, rest, ["posts", "comments"], ["post_id", "comment_id"], "Post" + "Comment");
  }

  lemma RawOperationId(path: string, rest: string)
    requires path == "/v1/posts/100/comments/2" && rest == "posts/100/comments/2"
    ensures OperationId(GET, path) == Ok("getPostComment")
  {
    V1Version(path, rest);
    RawWords(path, rest);
    ExpectedIds();
    OperationIdOf(GET, path, rest, "Post" + "Comment", "getPostComment");
  }

  /** tests/test_utils.py: the raw path gives "getPostComment". */
  lemma OperationIdRawPath()
    ensures OperationId(GET, "/v1/posts/100/comments/2") == Ok("getPostComment")
  {
    RawOperationId("/v1/posts/100/comments/2", "posts/100/comments/2");
  }

  lemma RawSchemaIds(path: string)
    requires path == "/v1/posts/100/comments/2"
    ensures SchemaId(GET, path, RequestParams) == Ok("GetPostCommentRequestParams")
    ensures SchemaId(GET, path, ResponseBody) == Ok("GetPostCommentResponse")
  {
    RawOperationId(path, "posts/100/comments/2");
    GetPostCommentSchemaIds("getPostComment");
    SchemaIdOf(GET, path, "getPostComment", RequestParams, "GetPostCommentRequestParams");
    SchemaIdOf(GET, path, "getPostComment", ResponseBody, "GetPostCommentResponse");
  }

  /** tests/test_utils.py: its RequestParams schema identifier. */
  lemma SchemaIdRawParams()
    ensures SchemaId(GET, "/v1/posts/100/comments/2", RequestParams) == Ok("GetPostCommentRequestParams")
  {
    RawSchemaIds("/v1/posts/100/comments/2");
  }

  /** tests/test_utils.py: its response schema identifier. */
  lemma SchemaIdRawResponse()
    ensures SchemaId(GET, "/v1/posts/100/comments/2", ResponseBody) == Ok("GetPostCommentResponse")
  {
    RawSchemaIds("/v1/posts/100/comments/2");
  }

  // ---------------------------------------------------------------------
  // tests/test_utils.py: POST /v1/posts/{post_id}/comments

  /** `findall` finds the template's one name. */
  lemma TemplateNames(path: string)
    requires path == "/v1/posts/" + ("{" + "post_id" + "}" + "/comments")
    ensures FindParamNames(path) == ["post_id"]
  {
    FindAfterNoBrace("/v1/posts/", "{" + "post_id" + "}" + "/comments");
    assert "post_id"[5..] == "id";
    FindOneName("post_id", "/comments");
  }

  lemma PostIdIsParamSegment()
    ensures IsParamSegment("{post_id}")
  {
    assert "{post_id}"[6..] == "id}";
  }

  lemma TemplateSplit(path: string)
    requires path == "/v1/posts/{post_id}/comments"
    ensures Split(path, '/') == ["", "v1", "posts", "{post_id}", "comments"]
  {
    SplitFive(path, "", "v1", "posts", "{post_id}", "comments");
  }

  /** The template's fourth segment is a placeholder. */
  lemma TemplateIsParameterized(path: string)
    requires path == "/v1/posts/{post_id}/comments"
    ensures IsParameterized(path)
  {
    TemplateSplit(path);
    PlaceholderAtThree(path);
  }

  lemma PlaceholderAtThree(path: string)
    requires Split(path, '/') == ["", "v1", "posts", "{post_id}", "comments"]
    ensures IsParameterized(path)
  {
    PostIdIsParamSegment();
    ParameterizedAt(path, ["", "v1", "posts", "{post_id}", "comments"], 3);
  }

  lemma TemplateNonParam()
    ensures NonParamSegments(["posts", "{post_id}", "comments"]) == ["posts", "comments"]
  {
    var segs := ["posts", "{post_id}", "comments"];
    assert OccursAt("id}", "{post_id}", 6) by {
      assert "{post_id}"[6..9] == "id}";
    }
    LastIdCloseAt("{post_id}", 6, 1, 6);
    assert StartsParam(segs[1]);
    assert !StartsParam(segs[0]) && !StartsParam(segs[2]);
    assert NonParamSegments(segs[3..]) == [];
    assert NonParamSegments(segs[2..]) == [segs[2]] + NonParamSegments(segs[3..]);
    assert NonParamSegments(segs[1..]) == NonParamSegments(segs[2..]);
  }

  lemma TemplateRest(rest: string)
    requires rest == "posts/{post_id}/comments"
    ensures NonParamSegments(Split(rest, '/')) == ["posts", "comments"]
  {
    SplitThree(rest, "posts", "{post_id}", "comments");
    TemplateNonParam();
  }

  /** The template is parameterised, so its words come from `findall` and
      its placeholder leaves none. */
  lemma TemplateWords(path: string, rest: string)
    requires path == "/v1/posts/{post_id}/comments" && rest == "posts/{post_id}/comments"
    ensures OperationWords(path, rest) == "Post" + "Comments"
  {
    TemplateIsParameterized(path);
    TemplateNames(path);
    TemplateRest(rest);
    PostCommentsWords(["posts", "comments"], ["post_id"]);
    WordsOfTemplate(path, rest, ["posts", "comments"], ["post_id"], "Post" + "Comments");
  }

  lemma TemplateOperationId(path: string, rest: string)
    requires path == "/v1/posts/{post_id}/comments" && rest == "posts/{post_id}/comments"
    ensures OperationId(POST, path) == Ok("postPostComments")
  {
    V1Version(path, rest);
    TemplateWords(path, rest);
    ExpectedIds();
    OperationIdOf(POST, path, rest, "Post" + "Comments", "postPostComments");
  }

  /** tests/test_utils.py: the template gives "postPostComments". */
  lemma OperationIdTemplate()
    ensures OperationId(POST, "/v1/posts/{post_id}/comments") == Ok("postPostComments")
  {
    TemplateOperationId("/v1/posts/{post_id}/comments", "posts/{post_id}/comments");
  }

  lemma TemplateSchemaId(path: string)
    requires path == "/v1/posts/{post_id}/comments"
    ensures SchemaId(POST, path, RequestBody) == Ok("PostPostCommentsRequestBody")
  {
    TemplateOperationId(path, "posts/{post_id}/comments");
    PostPostCommentsSchemaId("postPostComments");
    SchemaIdOf(POST, path, "postPostComments", RequestBody, "PostPostCommentsRequestBody");
  }

  /** tests/test_utils.py: its RequestBody schema identifier. */
  lemma SchemaIdTemplateBody()
    ensures SchemaId(POST, "/v1/posts/{post_id}/comments", RequestBody) == Ok("PostPostCommentsRequestBody")
  {
    TemplateSchemaId("/v1/posts/{post_id}/comments");
  }

  // ---------------------------------------------------------------------
  // tests/test_utils.py: POST /v1/albums

  lemma AlbumsCollect()
    ensures StepAt(["", "v1", "albums"], 3) == ["", "v1", "albums"]
    ensures CollectParams(["", "v1", "albums"], ["", "v1", "albums"], 3) == Ok([])
    ensures DictKeys<int>([]) == []
  {
    var cs := ["", "v1", "albums"];
    assert !IsDigits(cs[0]) && !IsDigit(cs[1][0]) && !IsDigit(cs[2][0]);
    StepAtNoDigits(cs, 3);
    assert CollectParams(cs, cs, 1) == Ok([]);
    assert CollectParams(cs, cs, 2) == Ok([]);
  }

  /** No number, so `build_path_params` finds nothing. */
  lemma AlbumsNumbered(path: string)
    requires path == "/v1/albums"
    ensures !IsParameterized(path) && PathParams(path).Ok? && DictKeys(PathParams(path).value) == []
  {
    var cs := ["", "v1", "albums"];
    SplitThree(path, "", "v1", "albums");
    ExampleSegments();
    assert !IsParamSegment("albums");
    NotParameterizedOf(path, cs);
    AlbumsCollect();
    PathParamsOf(path, cs, cs);
  }

  lemma AlbumsWordsOf()
    ensures NonDigitSegments(["albums"]) == ["albums"]
    ensures Words(["albums"], []) == "Albums"
  {
    assert NonDigitSegments(["albums"]) == ["albums"] + NonDigitSegments([]);
    assert !NamesContain([], DropLast("albums"));
    assert Capitalize("albums") == "Albums";
    WordsOne("albums", []);
  }

  /** "albums" keeps its "s". */
  lemma AlbumsWords(path: string, rest: string)
    requires path == "/v1/albums" && rest == "albums"
    ensures OperationWords(path, rest) == "Albums"
  {
    AlbumsNumbered(path);
    SplitNoSeparator(rest, '/');
    AlbumsWordsOf();
    WordsOfNumbered(path, rest, ["albums"], [], "Albums");
  }

  lemma AlbumsOperationId(path: string, rest: string)
    requires path == "/v1/albums" && rest == "albums"
    ensures OperationId(POST, path) == Ok("postAlbums")
  {
    V1Version(path, rest);
    AlbumsWords(path, rest);
    ExpectedIds();
    OperationIdOf(POST, path, rest, "Albums", "postAlbums");
  }

  lemma AlbumsSchemaId(path: string)
    requires path == "/v1/albums"
    ensures SchemaId(POST, path, RequestBody) == Ok("PostAlbumsRequestBody")
  {
    AlbumsOperationId(path, "albums");
    PostAlbumsSchemaId("postAlbums");
    SchemaIdOf(POST, path, "postAlbums", RequestBody, "PostAlbumsRequestBody");
  }

  /** tests/test_utils.py: the RequestBody schema identifier of
      POST /v1/albums. */
  lemma SchemaIdAlbumsBody()
    ensures SchemaId(POST, "/v1/albums", RequestBody) == Ok("PostAlbumsRequestBody")
  {
    AlbumsSchemaId("/v1/albums");
  }

  // ---------------------------------------------------------------------
  // The merged name of a template with two placeholders

  lemma MergedNames(path: string)
    requires path == "/v1/posts/" + ("{" + "post_id" + "}" + "/comments/" + "{" + "comment_id" + "}" + "")
    ensures FindParamNames(path) == ["post_id" + "}" + "/comments/" + "{" + "comment_id"]
  {
    FindAfterNoBrace("/v1/posts/", "{" + "post_id" + "}" + "/comments/" + "{" + "comment_id" + "}" + "");
    assert "comment_id"[8..] == "id";
    FindMergedNames("post_id", "/comments/", "comment_id", "");
  }

  lemma MergedName()
    ensures "post_id" + "}" + "/comments/" + "{" + "comment_id" == "post_id}/comments/{comment_id"
  {
  }

  /** `findall` on the template of the raw path: the greedy group runs
      from the first placeholder to the last, one name for both. */
  lemma MergedTemplateNames()
    ensures FindParamNames("/v1/posts/{post_id}/comments/{comment_id}") == ["post_id}/comments/{comment_id"]
  {
    MergedNames("/v1/posts/{post_id}/comments/{comment_id}");
    MergedName();
  }
}
