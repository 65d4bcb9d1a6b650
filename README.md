# oasbuilder in Dafny

oasbuilder reads recorded HTTP traffic (request path, method, query,
request body, status code, response body) and builds an OpenAPI 3
document from it. The document is a tree of small YAML files under a
destination directory:

- `paths/<endpoint dir>/<method>/_index.yml` is the operation.
- `paths/<endpoint dir>/<method>/responses/<status>/_index.yml` is the response.
- `components/schemas/<endpoint dir>/<method>/request_body.yml` and `.../responses/<status>/_index.yml` are the inferred JSON schemas.
- Index files list and reference their children: `_index.yml` per method, per endpoint, `paths/_index.yml`, `components/schemas/_index.yml` and the root `index.yml`.

This project models the core of that program:

- the path utilities: templates, directory names, path parameters,
  operation and schema identifiers;
- the schema inferencer;
- the data models;
- every writer;
- the driver loop of `main.py`: grouping of request paths into templates,
  de-duplication of `(template, method, status)` triples, the writers run for
  each new triple, and the index writers at the end.

Modules:

| module | models |
|---|---|
| `Wrappers` | Option and Result, with the Python exceptions the code can raise as error values |
| `Strings` | `split`, `join`, `replace`, `capitalize`, `isdigit`, `str(int)`, `sorted` on strings |
| `JsonData` | decoded JSON values (`json.loads` results) and Python's type names |
| `Models` | `oasbuilder/models`: schema kinds, HTTP methods, parameters, the index record |
| `Parser` | `OASParser.gettype` and `OASParser.parse` |
| `Paths` | `oasbuilder/utils`: directories, templates, path parameters |
| `Identifiers` | `build_operation_id`, `build_schema_identifier` |
| `IdentifierExamples` | the identifier examples of `tests/test_utils.py` and of the `build_operation_id` docstring |
| `DocTree` | the destination directory as a class `Tree` (files and directories), `write_text`, `mkdir(parents=True, exist_ok=True)`, `glob`, and the `ensure_dest_exists` decorator |
| `RequestSchema`, `ResponseSchema`, `ResponseContent`, `EndpointMethod`, `ResponsePattern`, `MethodPattern`, `EndpointPattern`, `SchemaIndex`, `IndexWriter` | one module per writer file |
| `Driver` | `write_schemas` and `main` in `main.py` |

Modelling choices:

- **Documents are structured values.** A YAML document is a structured
  `Value` (string, boolean, null, list, mapping). `yaml.dump` followed by
  `yaml.safe_load` is the identity on such values, so a written file holds
  its `Value`.
- **Each writer is a function plus a method.** A specification function
  (`Written`, `EnsuredWritten`) gives the outcome: result, files,
  directories. A method on the `Tree` is proved to produce exactly that
  outcome.
- **Scanning writers are loops proved against a set-based function.** The
  writers that scan the tree loop over it and are proved equal to a function
  of the set of entries.
- **The main loop is a fold.** The driver's loops are methods proved equal
  to folds over the hits and the paths. Lemmas about those folds state the
  de-duplication and indexing properties.

Behaviour the model keeps as the code has it:

- A numeric segment becomes a placeholder named after the previous segment, whatever that segment is; the first segment wraps around to the last (oasbuilder/utils/__init__.py:64-68).
- A directory name whose placeholders do not fill makes the endpoint-pattern writer fail with RuntimeError; the name is not skipped (oasbuilder/writer/endpoint_pattern.py:40-51).
- Two templates with the same schema identifier overwrite each other in the schema index, and nothing reports it (oasbuilder/writer/schema_index.py:73-93).

## Model

| member | source | states |
|---|---|---|
| Strings.Capitalize | oasbuilder/utils/__init__.py:110 | `str.capitalize`: same length, first character upper-cased, every other character lower-cased (ASCII) |
| Strings.DropLast | oasbuilder/utils/__init__.py:67 | `s[:-1]`: appending the dropped last character gives back `s`; empty stays empty |
| Strings.IntToString | oasbuilder/writer/response_schema.py:35 | `str(n)`: digits whose value is `n` when `n` is not negative, otherwise `-` followed by the digits of `-n` |
| Strings.IntToStringInjective | oasbuilder/writer/response_schema.py:35 | different statuses give different directory names |
| Strings.Replace | oasbuilder/utils/__init__.py:30 | `str.replace` of one character: same length, each occurrence of `a` becomes `b` and nothing else changes |
| Strings.Split | oasbuilder/utils/__init__.py:63 | `str.split(c)` yields at least one part and no part contains `c` |
| Strings.JoinSplit | oasbuilder/utils/__init__.py:63-69 | `c.join(s.split(c)) == s` for every string |
| Strings.SplitJoin | oasbuilder/utils/__init__.py:40-45 | splitting a join of parts free of the separator gives the parts back |
| Strings.ReplaceJoin | oasbuilder/utils/__init__.py:30 | replacing the separator of a join is joining with the new separator |
| Strings.BelowTotal | oasbuilder/writer/request_schema.py:93 | string order used by `sorted` is total |
| Strings.BelowAntisymmetric | oasbuilder/writer/request_schema.py:93 | string order is antisymmetric |
| Strings.BelowTransitive | oasbuilder/writer/request_schema.py:93 | string order is transitive |
| Strings.Insert | oasbuilder/writer/request_schema.py:93 | inserting into a sorted list keeps it sorted and adds exactly that element |
| Strings.SortStrings | oasbuilder/writer/request_schema.py:93 | `sorted`: the result is sorted and a permutation of the input |
| Strings.SortedDistinct | oasbuilder/writer/request_schema.py:93 | sorting distinct keys keeps them distinct |
| Models.LabelsDistinct | oasbuilder/models/__init__.py:9-12 | the three schema kinds have different labels |
| Models.MethodValue | oasbuilder/models/__init__.py:15-20 | every method value is one of the five lower-case values |
| Models.MethodByValue | oasbuilder/models/__init__.py:15-20 | `HTTPMethod(v)` succeeds exactly on the five values and inverts `MethodValue` |
| Models.MethodByName | main.py:111 | `HTTPMethod[name]` succeeds exactly on the five member names, else KeyError |
| Models.MethodValueRoundTrip | oasbuilder/models/__init__.py:15-20 | value lookup of a method's value is that method |
| Models.BuildOasJson | oasbuilder/models/__init__.py:49-62 | a parameter dumps to `in`, `name`, `required` and `schema.type`, None kept as null |
| Models.IndexInfoAsDict | oasbuilder/models/__init__.py:23-41 | `asdict` of the index record: exactly the five keys, nested info and servers |
| JsonData.TypeName | oasbuilder/parser/__init__.py:37 | `type(x).__name__` is one of the seven JSON type names |
| Parser.GetType | oasbuilder/parser/__init__.py:9-15 | `number` exactly for `float`; otherwise the first of string, boolean, integer that contains the name (substring test, earlier ones winning), else None |
| Parser.ScalarTypes | oasbuilder/parser/__init__.py:36-43 | str, bool, int and float map to string, boolean, integer, number; null and containers to None |
| Parser.Parse | oasbuilder/parser/__init__.py:18-35 | None exactly for null and the empty list; a non-empty list gives `type: array` with `items` the first element's schema (null when it has none); never `required` |
| Parser.ParseScalar | oasbuilder/parser/__init__.py:36-43 | a scalar gives exactly `type` from `gettype` of its Python type name, plus `format: float` exactly for a float |
| Parser.PropertiesKeys | oasbuilder/parser/__init__.py:23-28 | a member is a property exactly when its value is neither null nor an empty list |
| Parser.PropertiesValues | oasbuilder/parser/__init__.py:23-28 | with distinct member names, each member whose value is neither null nor an empty list is a property holding that value's parsed schema |
| Parser.ParseObject | oasbuilder/parser/__init__.py:20-29 | an object gives `type: object` and properties of exactly the members whose values are neither null nor an empty list, each holding its parsed schema |
| Parser.FirstElementOnly | oasbuilder/parser/__init__.py:30-35 | a list's schema depends on its first element only |
| Parser.NestedObjectExample | tests/test_parser.py:14-39 | a nested object drops its null and empty-list members |
| Paths.ToEndpointDir | oasbuilder/utils/__init__.py:29-30 | the leading character is dropped, every `/` becomes the delimiter, no `/` remains |
| Paths.EndpointDirOfSegments | oasbuilder/utils/__init__.py:29-30 | the directory of `/a/b/c` is the segments joined with the delimiter |
| Paths.Matches | oasbuilder/utils/__init__.py:34-35 | `re.findall(r"{[\w]+}")`: every match is a placeholder |
| Paths.Fill | oasbuilder/utils/__init__.py:39-44 | filling masks keeps the segment count; running out of matches is StopIteration |
| Paths.ToEndpointPath | oasbuilder/utils/__init__.py:33-47 | the result starts with `/`; without placeholders it is the delimiter replaced by `/` |
| Paths.MaskedJoin | oasbuilder/utils/__init__.py:38 | `re.sub` masks each delimiter-separated segment on its own |
| Paths.MatchesJoin | oasbuilder/utils/__init__.py:35 | the placeholders of a joined name are those of its segments, in order |
| Paths.FillRestores | oasbuilder/utils/__init__.py:39-44 | filling the masks with the found placeholders restores the segments |
| Paths.RoundTripSegments | oasbuilder/utils/__init__.py:29-47 | `to_endpoint_path(to_endpoint_dir(t)) == t` for templates with safe segments |
| Paths.RoundTripMasked | oasbuilder/utils/__init__.py:36-45 | the masked branch restores the template |
| Paths.RoundTrip | oasbuilder/utils/__init__.py:29-47 | directory name and back is the identity on round-trip-safe templates |
| Paths.Placeholder | oasbuilder/utils/__init__.py:66-67 | the placeholder is `{` + the previous segment minus its last character + `_id}` and is never all digits |
| Paths.StepAt | oasbuilder/utils/__init__.py:64-68 | after `i` loop turns the segments from `i` on are untouched |
| Paths.ParameterizeEndpointPath | oasbuilder/utils/__init__.py:57-69 | the loop computes the template of the path |
| Paths.StepAtSegments | oasbuilder/utils/__init__.py:64-68 | loop invariant: non-digit segments kept, digit segments named after the (already replaced) previous one, index 0 after the last |
| Paths.ParameterizeSegments | oasbuilder/utils/__init__.py:57-69 | the template keeps non-digit segments, replaces every digit segment, and has no digit segment left |
| Paths.ParameterizedNoSlash | oasbuilder/utils/__init__.py:67 | placeholders never contain `/` |
| Paths.TemplateSegments | oasbuilder/utils/__init__.py:63-69 | the segments of the template are the replaced segments of the path |
| Paths.ParameterizeIdempotent | oasbuilder/utils/__init__.py:57-69 | making a template of a template changes nothing |
| Paths.ExamplePlaceholders | oasbuilder/utils/__init__.py:58-62 | `posts` gives `{post_id}`, `comments` gives `{comment_id}` |
| Paths.ParameterizeExample | tests/test_utils.py:39-49 | `/v1/posts/100/comments/2` gives `/v1/posts/{post_id}/comments/{comment_id}` |
| Paths.IsParamSegment | oasbuilder/utils/__init__.py:73-75 | a whole match of `^{(.*_?id)}$` is never a numeric segment |
| Paths.ScanParameterized | oasbuilder/utils/__init__.py:72-77 | the loop returns True exactly when some segment is a whole parameter match |
| Paths.ParamName | oasbuilder/utils/__init__.py:88-93 | the `res_id` group: the segment is `{` + name + `}` and the name ends in `id` |
| Paths.PlaceholderIsParamSegment | oasbuilder/utils/__init__.py:67-93 | every placeholder the template makes matches the parameter pattern, with its name |
| Paths.Put | oasbuilder/utils/__init__.py:93 | dict assignment: an existing key is updated in place, a new key is appended |
| Paths.PathParams | oasbuilder/utils/__init__.py:80-94 | `build_path_params` fails only with ValueError |
| Paths.CollectParams | oasbuilder/utils/__init__.py:90-93 | the only failure is `int()` on a non-digit segment (ValueError) |
| Paths.CollectNext | oasbuilder/utils/__init__.py:90-93 | one loop turn: skip, store `int(orig[i])` under the name, or fail |
| Paths.BuildPathParams | oasbuilder/utils/__init__.py:80-94 | the method computes the path parameters of the path |
| Paths.CollectPathParams | oasbuilder/utils/__init__.py:89-94 | the loop computes the fold of the segments |
| Paths.CollectOk | oasbuilder/utils/__init__.py:90-93 | the fold succeeds exactly when every parameter segment sits over a digit segment |
| Paths.CollectContents | oasbuilder/utils/__init__.py:90-93 | names are distinct, every entry comes from a parameter segment, every parameter segment is listed |
| Paths.PathParamsOk | oasbuilder/utils/__init__.py:80-94 | `build_path_params` succeeds exactly on paths that are not already templates |
| Paths.PathParamsContents | oasbuilder/utils/__init__.py:80-94 | on a concrete path every digit segment yields its name and value, nothing else |
| Paths.PathParamsExample | oasbuilder/utils/__init__.py:81-85 | `/v1/posts/100/comments/2` gives `{post_id: 100, comment_id: 2}` in that order |
| Paths.ResponseDescription | oasbuilder/utils/__init__.py:50-54 | success text exactly for 200 to 299, error text otherwise |
| Paths.Child | oasbuilder/utils/__init__.py:19-26 | pathlib's `/`: empty and `.` names add nothing, others one component |
| Paths.EndpointDir | oasbuilder/utils/__init__.py:19-21 | `paths/` followed by at most one non-empty name without `/` |
| Paths.EndpointSchemaDir | oasbuilder/utils/__init__.py:24-26 | `components/schemas/` followed by at most one non-empty name without `/` |
| Paths.DirsOfTemplate | oasbuilder/utils/__init__.py:19-26 | a path and its template have the same endpoint and schema directories |
| Identifiers.PathWithoutVersion | oasbuilder/utils/__init__.py:103-105 | the `path` group is a nonempty proper suffix after a `/v<digits>/` prefix |
| Identifiers.VersionPrefixMatches | oasbuilder/utils/__init__.py:103-105 | every `/v<digits>/` prefix followed by text matches, with that text as the group |
| Identifiers.VersionedSplit | oasbuilder/utils/__init__.py:103-113 | the segments of a versioned path are "", the version, then the segments of the `path` group |
| Identifiers.LastIdClose | oasbuilder/utils/__init__.py:107 | greedy `.*_?id}` ends at the last `id}` in range |
| Identifiers.ParamMatchAt | oasbuilder/utils/__init__.py:107-108 | a match starts at `{` and ends at an `id}` |
| Identifiers.FindParamNames | oasbuilder/utils/__init__.py:107-108 | `findall`: every name ends in `id`; text without `{` has none |
| Identifiers.FindAfterNoBrace | oasbuilder/utils/__init__.py:107-108 | text without `{` in front adds no name |
| Identifiers.FindOneName | oasbuilder/utils/__init__.py:107-108 | one placeholder followed by brace-free text gives exactly its name |
| Identifiers.FindMergedNames | oasbuilder/utils/__init__.py:107-108 | greedy `.*`: two placeholders in one text give one merged name running from the first `{` to the last `id}` |
| Identifiers.Word | oasbuilder/utils/__init__.py:110-112 | a segment is capitalized, minus its last character when a parameter name contains the segment minus its last character |
| Identifiers.WordsAppend | oasbuilder/utils/__init__.py:109-115 | the words of two runs of segments are the words of each, in order |
| Identifiers.NonParamSegments | oasbuilder/utils/__init__.py:113-114 | exactly the segments that do not start a parameter match, in order |
| Identifiers.NonDigitSegments | oasbuilder/utils/__init__.py:122-123 | exactly the non-digit segments, in order |
| Identifiers.CamelCase | oasbuilder/utils/__init__.py:127-130 | the result has no `_`; text without `_` is kept as it is |
| Identifiers.CamelCaseKeepsPrefix | oasbuilder/utils/__init__.py:127-130 | camel-casing keeps an underscore-free prefix |
| Identifiers.OperationWords | oasbuilder/utils/__init__.py:106-124 | a template: the words of its non-parameter segments judged against the `findall` names; a concrete path: the words of its non-digit segments judged against the `build_path_params` keys |
| Identifiers.WordBeforeNumber | oasbuilder/utils/__init__.py:116-121 | in a concrete path the segment before a number loses its last letter (`posts` before `100` gives `Post`) |
| Identifiers.OperationId | oasbuilder/utils/__init__.py:97-130 | AttributeError exactly without a version prefix; otherwise the camel-cased method value followed by the words, which has no `_` and starts with the method value |
| Identifiers.SchemaId | oasbuilder/utils/__init__.py:133-137 | succeeds with the operation id; first character upper-cased, rest kept, kind label appended |
| Identifiers.SchemaIdsDistinct | oasbuilder/utils/__init__.py:133-137 | the three kinds never share a schema identifier for one operation |
| Identifiers.OneNumberTemplate | oasbuilder/utils/__init__.py:57-69 | with one numeric segment the template replaces just that segment |
| Identifiers.OneNumberKeys | oasbuilder/utils/__init__.py:80-94 | with one numeric segment `build_path_params` has the one key named after the segment before it |
| Identifiers.OneNumberTemplateNames | oasbuilder/utils/__init__.py:107-108 | `findall` on such a template gives that same one name |
| Identifiers.FilteredSegmentsAgree | oasbuilder/utils/__init__.py:113-123 | segments kept by the parameter filter on the template equal those kept by the digit filter on the path |
| Identifiers.OperationIdOfTemplate | oasbuilder/utils/__init__.py:97-130 | for a versioned path without braces and with at most one number, the operation id of its template equals its own |
| Identifiers.SchemaIdOfTemplate | oasbuilder/utils/__init__.py:133-137 | for such a path the schema ids of the path and of its template agree |
| IdentifierExamples.OperationIdExample | oasbuilder/utils/__init__.py:98-102 | GET `/v1/posts/1/comments` gives `getPostComments` |
| IdentifierExamples.OperationIdRawPath | tests/test_utils.py:56-57 | GET `/v1/posts/100/comments/2` gives `getPostComment` |
| IdentifierExamples.OperationIdTemplate | tests/test_utils.py:60-61 | POST `/v1/posts/{post_id}/comments` gives `postPostComments` |
| IdentifierExamples.SchemaIdRawParams | tests/test_utils.py:73-78 | GET `/v1/posts/100/comments/2`, request params, gives `GetPostCommentRequestParams` |
| IdentifierExamples.SchemaIdAlbumsBody | tests/test_utils.py:81-86 | POST `/v1/albums`, request body, gives `PostAlbumsRequestBody` |
| IdentifierExamples.SchemaIdRawResponse | tests/test_utils.py:89-94 | GET `/v1/posts/100/comments/2`, response, gives `GetPostCommentResponse` |
| IdentifierExamples.SchemaIdTemplateBody | tests/test_utils.py:97-102 | POST `/v1/posts/{post_id}/comments`, request body, gives `PostPostCommentsRequestBody` |
| IdentifierExamples.MergedTemplateNames | oasbuilder/utils/__init__.py:107-108 | the template with two placeholders yields the single merged name `post_id}/comments/{comment_id` |
| DocTree.Prefixes | oasbuilder/utils/decorators.py:4-12 | the directories `mkdir(parents=True)` makes are exactly the prefixes |
| DocTree.MkdirResult | oasbuilder/utils/decorators.py:9 | `mkdir` succeeds exactly when no prefix is a file (FileExistsError or NotADirectoryError) |
| DocTree.WriteResult | oasbuilder/writer/request_schema.py:89 | `write_text` succeeds exactly when the parent is a directory and the target is not |
| DocTree.WrittenFrame | oasbuilder/writer/request_schema.py:87-89 | a write keeps the tree well formed and changes the one file or nothing |
| DocTree.EnsuredFrame | oasbuilder/utils/decorators.py:4-12 | the decorator adds the parent's prefixes as directories, then writes the one file or nothing |
| DocTree.EnsuredIdempotent | oasbuilder/utils/decorators.py:4-12 | writing the same value twice leaves the tree as after the first write |
| DocTree.EnsuredOk | oasbuilder/utils/decorators.py:4-12 | a successful write: the target holds the value, the parent directories exist |
| DocTree.EnsuredEntries | oasbuilder/utils/decorators.py:4-12 | the new entries are the parent's prefixes and the file |
| DocTree.EnsuredAgain | oasbuilder/utils/decorators.py:4-12 | rewriting a file that already holds the value changes nothing |
| DocTree.GlobIgnoresPrefixes | oasbuilder/writer/method_pattern.py:46 | `**/*.yml` matching ignores the directories a write makes |
| DocTree.Tree.constructor | main.py:91 | the destination starts as an empty root directory |
| DocTree.Tree.MakeDirs | oasbuilder/utils/decorators.py:9 | `mkdir(parents=True, exist_ok=True)` on the tree |
| DocTree.Tree.WriteText | oasbuilder/writer/request_schema.py:89 | `write_text` on the tree |
| DocTree.Tree.Glob | oasbuilder/writer/schema_index.py:70 | the listing enumerates the matching `.yml` files, each once |
| RequestSchema.ParamsSchema | oasbuilder/writer/request_schema.py:54-56 | the parsed query with no `required`, or null when nothing parses |
| RequestSchema.RequiredNames | oasbuilder/writer/request_schema.py:93 | `sorted(keys)`: sorted, a permutation of the keys, distinct for distinct keys |
| RequestSchema.BodySchema | oasbuilder/writer/request_schema.py:91-94 | an object gives `type`, `properties` and `required`; anything else is AttributeError |
| RequestSchema.RequiredBeyondProperties | oasbuilder/writer/request_schema.py:92-93 | a null member is required but has no property |
| RequestSchema.BodyExample | tests/writers/test_request_schema.py:62-113 | title, body, userId give the expected schema with `required` sorted |
| RequestSchema.SortedUnique | oasbuilder/writer/request_schema.py:93 | two sorted permutations of one list are equal |
| RequestSchema.WriteParams | oasbuilder/writer/request_schema.py:42-56 | writes the params schema to `.../<method>/request_params.yml` |
| RequestSchema.WriteBody | oasbuilder/writer/request_schema.py:79-94 | writes the body schema to `.../<method>/request_body.yml` |
| ResponseSchema.WriteResponseSchema | oasbuilder/writer/response_schema.py:29-46 | writes the schema to `components/schemas/.../responses/<status>/_index.yml` |
| ResponseSchema.ListResponseFails | oasbuilder/writer/response_schema.py:43-46 | a list response has no `keys()`: nothing is written |
| ResponseContent.ResponseFragment | oasbuilder/writer/response_content.py:59-78 | description from the status; content exactly for a dict or list body, referring to the response schema id |
| ResponseContent.NotFoundExample | tests/writers/test_response_content.py:50-71 | a 404 without body gives only the error description |
| ResponseContent.WriteResponseContent | oasbuilder/writer/response_content.py:45-57 | writes the fragment to `paths/.../responses/<status>/_index.yml` |
| EndpointMethod.PathParameters | oasbuilder/writer/method.py:83-98 | one required integer `path` parameter per path parameter, in order |
| EndpointMethod.QueryParameters | oasbuilder/writer/method.py:99-112 | one optional `query` parameter per query member, typed by `gettype` |
| EndpointMethod.Dumped | oasbuilder/writer/method.py:113-114 | the parameters dumped in order |
| EndpointMethod.MethodFragment | oasbuilder/writer/method.py:64-115 | fails exactly when the operation id, the path parameters or the query's `keys()` fail, with that error |
| EndpointMethod.MethodFragmentShape | oasbuilder/writer/method.py:64-115 | summary, operationId, responses ref; requestBody exactly for a truthy body; parameters exactly when there are any |
| EndpointMethod.Assemble | oasbuilder/writer/method.py:64-115 | the fragment's keys and values from its parts |
| EndpointMethod.TemplateFails | oasbuilder/writer/method.py:83-85 | a versioned path that already holds a placeholder fails with ValueError |
| EndpointMethod.WriteMethod | oasbuilder/writer/method.py:52-62 | writes the fragment to `paths/<dir>/<method>/_index.yml` |
| ResponsePattern.ResponseIndex | oasbuilder/writer/response_pattern.py:35-50 | a mapping whose every key is a status code of digits referring to `<code>/_index.yml` |
| ResponsePattern.ResponseIndexEntries | oasbuilder/writer/response_pattern.py:35-50 | a code is listed exactly when it is digits with an `_index.yml` below, as a ref to it |
| ResponsePattern.ListsWrittenStatus | oasbuilder/writer/response_pattern.py:35-50 | a written response is listed exactly when its status is not negative |
| ResponsePattern.IndexIgnoresOwnWrite | oasbuilder/writer/response_pattern.py:28-55 | writing the index does not change what it lists |
| ResponsePattern.WriteResponseIndexIdempotent | oasbuilder/writer/response_pattern.py:28-55 | a second run leaves the tree as the first left it |
| ResponsePattern.StatusIndexStep | oasbuilder/writer/response_pattern.py:43-49 | one loop turn adds a matching code or nothing |
| ResponsePattern.BuildResponseIndex | oasbuilder/writer/response_pattern.py:41-50 | the loop computes the index of the tree's entries |
| ResponsePattern.WriteResponseIndex | oasbuilder/writer/response_pattern.py:28-55 | writes the index to `.../<method>/responses/_index.yml` |
| MethodPattern.LastMethodAt | oasbuilder/writer/method_pattern.py:40-44 | greedy `.*` picks the last method segment followed by `responses/<3 digits>` |
| MethodPattern.MethodGroup | oasbuilder/writer/method_pattern.py:40-50 | the captured group is a method value |
| MethodPattern.MethodsIn | oasbuilder/writer/method_pattern.py:39-53 | the methods found are method values |
| MethodPattern.EndpointMethodIndex | oasbuilder/writer/method_pattern.py:34-53 | a mapping whose every key is a method value referring to `<method>/_index.yml` |
| MethodPattern.ListsRespondingMethod | oasbuilder/writer/method_pattern.py:34-53 | a method with a written 3-digit response is listed with a ref to its index |
| MethodPattern.IndexIgnoresOwnWrite | oasbuilder/writer/method_pattern.py:27-37 | writing the index does not change what it lists |
| MethodPattern.WriteMethodIndexIdempotent | oasbuilder/writer/method_pattern.py:27-37 | a second run leaves the tree as the first left it |
| MethodPattern.MethodsInStep | oasbuilder/writer/method_pattern.py:45-52 | one loop turn adds the captured method or nothing |
| MethodPattern.FindEndpointMethods | oasbuilder/writer/method_pattern.py:39-53 | the loop computes the set of methods found |
| MethodPattern.WriteMethodIndex | oasbuilder/writer/method_pattern.py:27-37 | writes the index to `paths/<dir>/_index.yml` |
| EndpointPattern.NameRunLen | oasbuilder/writer/endpoint_pattern.py:39 | the longest run of `[\w{}-]` characters |
| EndpointPattern.EndpointDirGroup | oasbuilder/writer/endpoint_pattern.py:39-44 | the group is `v`, a digit and at least one more name character, a prefix of the name |
| EndpointPattern.VersionedGroup | oasbuilder/writer/endpoint_pattern.py:39-44 | a versioned template's directory matches whole |
| EndpointPattern.EndpointIndex | oasbuilder/writer/endpoint_pattern.py:30-51 | fails only with RuntimeError; otherwise a mapping |
| EndpointPattern.EndpointIndexEntries | oasbuilder/writer/endpoint_pattern.py:30-51 | every key is an endpoint path starting with `/`, referring to the index of its directory |
| EndpointPattern.ListsEndpoint | oasbuilder/writer/endpoint_pattern.py:30-51 | every written versioned endpoint is listed under its template with a ref to its index |
| EndpointPattern.WithoutEndpointRoot | oasbuilder/writer/endpoint_pattern.py:26-28 | without `paths/` the write fails and changes nothing |
| EndpointPattern.WriteEndpointIndexIdempotent | oasbuilder/writer/endpoint_pattern.py:24-35 | a second run leaves the tree as the first left it |
| EndpointPattern.PathIndexStep | oasbuilder/writer/endpoint_pattern.py:40-51 | one loop turn adds the recovered template or nothing |
| EndpointPattern.BuildEndpointIndex | oasbuilder/writer/endpoint_pattern.py:30-51 | the loop computes the index, or RuntimeError for a name whose placeholders do not fill |
| EndpointPattern.WriteEndpointIndex | oasbuilder/writer/endpoint_pattern.py:24-28 | writes `paths/_index.yml` without making directories |
| SchemaIndex.LastRootBelow | oasbuilder/writer/schema_index.py:21-36 | greedy `.*` picks the last `components/schemas` pair a pattern can follow |
| SchemaIndex.RequestCapture | oasbuilder/writer/schema_index.py:20-30 | a request-params or request-body path captures its kind and a method value |
| SchemaIndex.ResponseCapture | oasbuilder/writer/schema_index.py:31-36 | a response schema path captures the response kind and a method value |
| SchemaIndex.Classify | oasbuilder/writer/schema_index.py:20-36 | a captured path names a method value; a request-params or request-body capture comes from a file of that name |
| SchemaIndex.CaptureId | oasbuilder/writer/schema_index.py:83-89 | the identifier of a capture fails only with RuntimeError or AttributeError |
| SchemaIndex.Entry | oasbuilder/writer/schema_index.py:73-93 | an entry's document is the file's own content |
| SchemaIndex.Contributions | oasbuilder/writer/schema_index.py:73-93 | one contribution per listed path, in glob order |
| SchemaIndex.FoldErrors | oasbuilder/writer/schema_index.py:61-93 | the build fails exactly when some path fails, with the first failure |
| SchemaIndex.FoldKeys | oasbuilder/writer/schema_index.py:61-93 | the identifiers are exactly those some path yields |
| SchemaIndex.FoldValues | oasbuilder/writer/schema_index.py:61-93 | the last path yielding an identifier gives its document |
| SchemaIndex.FoldNext | oasbuilder/writer/schema_index.py:73-93 | one loop turn: keep the error, skip, or store |
| SchemaIndex.FoldSkips | oasbuilder/writer/schema_index.py:73-93 | an unclassified path anywhere changes nothing |
| SchemaIndex.FoldErrorStays | oasbuilder/writer/schema_index.py:73-93 | once failed, the build stays failed |
| SchemaIndex.BuildContents | oasbuilder/writer/schema_index.py:61-93 | errors, keys and documents of the index in terms of the files |
| SchemaIndex.OwnDestUnclassified | oasbuilder/writer/schema_index.py:21-36 | `components/schemas/_index.yml` matches no pattern |
| SchemaIndex.WriteSchemaIndexIdempotent | oasbuilder/writer/schema_index.py:54-65 | a second run, wherever its own index shows up in the listing, leaves the tree as it was |
| SchemaIndex.BuildIgnoresOwnIndex | oasbuilder/writer/schema_index.py:61-93 | the index file in the listing does not change the index |
| SchemaIndex.CaptureIdOfTemplate | oasbuilder/writer/schema_index.py:83-89 | the captured directory gives the schema id of the template |
| SchemaIndex.ClassifiesParams | oasbuilder/writer/schema_index.py:20-25 | the params schema path of a template classifies as params of its method |
| SchemaIndex.ClassifiesBody | oasbuilder/writer/schema_index.py:26-30 | the body schema path classifies as body of its method |
| SchemaIndex.ClassifiesResponse | oasbuilder/writer/schema_index.py:31-36 | a 3-digit response schema path classifies as response of its method |
| SchemaIndex.IndexesWrittenSchema | oasbuilder/writer/schema_index.py:67-93 | a written schema file is indexed under its schema id with its content |
| SchemaIndex.BuildSchemaIndex | oasbuilder/writer/schema_index.py:61-93 | the loop computes the index of the listed files |
| SchemaIndex.WriteSchemaIndex | oasbuilder/writer/schema_index.py:54-65 | writes `components/schemas/_index.yml`; the order enumerates the `.yml` files |
| IndexWriter.IndexDocument | oasbuilder/writer/index.py:28-54 | openapi, info, servers, paths ref, components |
| IndexWriter.PathsRefIsEndpointIndex | oasbuilder/writer/index.py:43 | the paths ref names `paths/_index.yml` |
| IndexWriter.WriteIndex | oasbuilder/writer/index.py:48-50 | writes `index.yml`; fails only when it is a directory |
| Driver.WithoutUnsafe | main.py:88 | `urlsplit` deletes every tab, carriage return and line feed and keeps every other character |
| Driver.BeforeQuery | main.py:88 | the text before the first `#` or `?`: a prefix of the input holding neither, cut only at one of them |
| Driver.LastIndexOf | main.py:88 | `str.rfind`: the last index holding the character, or -1 |
| Driver.IndexFrom | main.py:88 | `str.find` from a start: the first index at or after it holding the character, or -1 |
| Driver.WithoutParams | main.py:88 | `_splitparams`: a prefix keeping every `/`, whose last segment holds no `;`, cut only at a `;` |
| Driver.UrlPath | main.py:88 | `urlparse(...).path`: no tab, line break, `?` or `#`, and no `;` after the last `/`; a request path that has none of these is kept as it is |
| Driver.UrlPathDropsParams | main.py:88 | `/v1/posts;jsessionid=7?page=2` gives `/v1/posts` |
| Driver.RequestPaths | main.py:85-88 | one parsed path per recorded path, none holding `?` or `#` |
| Driver.TemplatesDistinct | main.py:85-90 | every template is grouped once |
| Driver.TemplatesOfPaths | main.py:85-90 | the groups are exactly the templates of the parsed paths (`TemplateList`: the template of each path, in order), each its own template |
| Driver.GroupPaths | main.py:85-93 | the loop computes the templates in first-seen order |
| Driver.DecodeHit | main.py:110-128 | KeyError for an unknown method, decode error for a bad query or request; bad response content becomes None; otherwise the decoded method, status, query, request and response |
| Driver.ThenFrame | main.py:140-170 | a write step changes only its file and stops after an error |
| Driver.ThenIfFrame | main.py:50-67 | a guarded write step runs only when its guard holds |
| Driver.GuardedPairFrame | main.py:50-67 | two guarded writes change only their files |
| Driver.SchemasEffect | main.py:41-67 | `write_schemas` writes the body schema for a truthy request and the response schema for a non-empty dict or list |
| Driver.StepsFrame | main.py:150-170 | the three writers change only their files |
| Driver.HitFrame | main.py:140-170 | a hit changes only its files and writes response, response index and method |
| Driver.HitStep | main.py:110-170 | a decode error stops with that error; a decoded hit adds its triple to `pattern_set`; a seen triple changes no file |
| Driver.HitsFold | main.py:109-170 | every triple the hit loop adds belongs to the template being processed |
| Driver.HitStepInvariant | main.py:130-170 | a hit records its triple and the triple's response exists after |
| Driver.HitsFoldGrows | main.py:109-170 | the hit loop only adds triples and files |
| Driver.HitsFoldHandled | main.py:109-170 | after the loop every hit is handled |
| Driver.HitsFoldRecorded | main.py:109-170 | every recorded triple has its response file |
| Driver.HitStepSeen | main.py:135-136 | a seen triple is skipped |
| Driver.DuplicatesChangeNothing | main.py:130-138 | hits whose triples are seen change nothing |
| Driver.ReplayChangesNothing | main.py:109-170 | replaying the same hits changes nothing |
| Driver.MethodIndexListsHits | main.py:109-171 | the method index lists the method of every 3-digit hit |
| Driver.TemplateHitFails | main.py:164-170 | a hit on a versioned template fails at the method writer |
| Driver.PathsFold | main.py:93-171 | every triple the path loop adds belongs to one of the templates |
| Driver.PathsFoldGrows | main.py:93-171 | the path loop only adds triples and files |
| Driver.RootEmbedsSchemaIndex | main.py:172-188 | the root index embeds the schema index as components and refers to the path index |
| Driver.WriteSchemas | main.py:41-67 | the method computes `write_schemas` |
| Driver.WriteHit | main.py:140-170 | the writers for one new triple |
| Driver.ProcessHit | main.py:109-170 | one turn of the hit loop |
| Driver.ProcessPath | main.py:93-171 | one turn of the path loop |
| Driver.ProcessPaths | main.py:93-171 | the loop computes the path fold |
| Driver.WriteRoot | main.py:172-188 | the endpoint index, schema index and root index |
| Driver.RunOutcome | main.py:70-188 | a successful run leaves the root index, the path index and the schema index in the tree |
| Driver.Run | main.py:70-188 | `main` up to the bundling tools |

## Left out

- Elasticsearch is not modelled. Each search is a parameter: `raws` for the aggregation, `search` for the per-path query (main.py:72-105).
- `json.loads` is not modelled. It is the parameter `decode`, which returns None for text that is not JSON.
- The bundling and HTML tools run by `subprocess` after the root index (main.py:190-225) are left out: they are outside programs.
- Environment variables become the `Settings` record. Logging is left out; it has no effect on the tree.
- YAML and JSON text are not modelled. Documents are structured values, and `yaml.dump`/`safe_load` is taken to be the identity on them.
- Floating-point values are kept only for their type name and truthiness.
- The regex engine is not modelled. Each pattern is rewritten as string functions, and the newline quirks of `.` and `$` are left out.
- `str.isdigit`, `str.capitalize` and the string order are ASCII only. No Unicode.
- Driver.UrlPath: does not model `urlparse`'s handling of a scheme (`name:` before the path) or a network location (a path starting with `//`), nor the stripping of leading control characters and spaces that newer Python versions perform. None of these applies to a request path that starts with a single `/`.
- Identifiers.SchemaIdOfTemplate: the schema ids of a path and of its template are proved equal only for a versioned path without braces and with at most one numeric segment (Identifiers.OperationIdOfTemplate likewise). With two or more, `findall` merges the names of the template (IdentifierExamples.MergedTemplateNames), and no general agreement is proved.
- The result of `parse_qs` (main.py:90) is never used, so it is not modelled.
- DocTree.Tree.Glob: the order of `glob` is unspecified. The methods return it as an output that enumerates the matches, and the schema index depends on it (the last document for an identifier wins).
- The request-params writer is modelled (RequestSchema.WriteParams), but `main.py` never calls it, so the driver does not either.
- `oasbuilder/constants` is not part of this model. The template reference key is modelled as `"$$ref"`, the value tests/writers/test_method_writer.py:55-87 expects. tests/writers/test_response_content.py:21-49 expects `"$ref"` for the same constant.
- The response-pattern writer's pattern puts the destination path into a regex unescaped. The model treats that text literally, which matches whenever the path has no regex metacharacters.
- EndpointMethod.TemplateFails: modelled as written. `build_path_params` calls `int()` on a placeholder when the method writer receives a template, so every versioned template with a placeholder ends in ValueError. Driver.TemplateHitFails follows.
