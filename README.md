# django-htmx-view in Dafny

A model of the core of django-htmx-view: the `HTMXViewMixin` that turns every
`hx_`-prefixed method of a Django class-based view into a URL route and sends a
request on that route to its method, the `register_htmx_view` decorator that
lets such an action answer only one HTTP method, and the example to-do
application's three actions over its table of items.

The modules follow the source files:

- `Text` (text.dfy) holds the Python string operations route synthesis uses:
  `startswith`, `endswith`, `str.replace` (one left-to-right pass whose
  matches do not overlap) and `str.join`. It also holds `IndexOf` and
  `Split`, which route synthesis does not use; they serve the parser that
  reads routes back in the round-trip lemmas.
- `Http` (http.dfy) holds requests (method and POST data) and responses
  (status, headers and an abstract body).
- `Mixins` (mixins.dfy) models htmx_view/mixins.py. `build_url_param` is a
  function. `htmx_urls` is imperative: `CollectActions`, `BuildRoute` and
  `HtmxUrls` are methods with the source's loops. Each is proved equal to a
  specification function (`Actions`, `RouteOf`, `Routes`). Lemmas prove the
  properties of those functions, and `ParseRoute` is the inverse that the
  round-trip lemma relates them to. `dispatch` is a function returning the
  handler it selects.
- `HtmxUtils` (utils.dfy) models htmx_view/utils.py. The wrapper is a
  function of the configured method, the action and the call.
- `TodoViews` (todo_views.dfy) models example/todo/views.py.
  - `TodoView` is a class whose fields hold the item table (`items`) and the
    next primary key (`nextId`).
  - Its methods `HxCreate`, `HxToggle` and `HxDelete` update those fields in
    place.
  - Each method is proved to take exactly the step of a pure step function
    (`CreateStep`, `ToggleStep`, `DeleteStep`). The lemmas are about those
    step functions.

Python reflection is replaced by an explicit input. A view class is the list
of its `dir()` entries in `dir()` order. Each entry gives its name, whether it
is callable, the parameters `inspect.signature` reports (name and annotation),
and the method its `register_htmx_view` gate allows.

The converter tag is modelled as the code computes it, not as its names
suggest. Comparing with `type(int)` and `type(UUID)`
(htmx_view/mixins.py:71-75) evidently intends `int` parameters to get the
`int` converter and `UUID` parameters the `uuid` converter. But both
expressions are the metaclass `type`. So `int` is never produced, and an
`int` or `UUID` annotation gets `str`; only an annotation that is `type`
itself gets `uuid`. `Mixins.ConverterTag` states this, and
`TodoViews.TodoRoutes` shows its effect on the example application: the
toggle route is `todos/toggle/<str:todo_id>/`.

## Model

| member | source | states |
|---|---|---|
| Mixins.Converter.Name | htmx_view/mixins.py:71-75 | the three converter names are at least three characters long and contain neither `:` nor `/` |
| Mixins.UrlParameter.BuildUrlParam | htmx_view/mixins.py:17-18 | a segment is wrapped in `<` and `>`, and it contains no `/` when the parameter name has none |
| Mixins.UrlParamRoundTrip | htmx_view/mixins.py:17-18 | reading a built `<tag:name>` segment back, splitting at the first `:`, gives the parameter it was built from |
| Mixins.ConverterTag | htmx_view/mixins.py:71-75 | the tag is `uuid` exactly when the annotation is the metaclass `type`; it is never `int`; `int` and `UUID` annotations get `str` |
| Mixins.Actions | htmx_view/mixins.py:42-46 | only callable attributes whose name starts with `hx_` are selected, at most one per attribute, all taken from the class |
| Mixins.ActionsComplete | htmx_view/mixins.py:42-46 | every callable `hx_` attribute is selected |
| Mixins.ActionsAppend | htmx_view/mixins.py:42-46 | selection keeps `dir()` order: it distributes over concatenation of attribute lists |
| Mixins.CollectActions | htmx_view/mixins.py:42-46 | the list the comprehension builds equals `Actions` of the class |
| Mixins.CleanedName | htmx_view/mixins.py:55 | `replace("hx_", "")` on the method name; its properties are stated by `CleanedNameRestores`, `CleanedNamesCollide` and the `ReplaceAll` lemmas |
| Text.ReplaceAll | htmx_view/mixins.py:55 | Python's `str.replace`: one left-to-right pass, matches not overlapping; stated by `ReplaceAllNoMatch`, `ReplaceAllRemoves`, `ReplaceAllKeepsChars` and `CleanedNamesCollide` |
| Mixins.CleanedNameRestores | htmx_view/mixins.py:55 | for a name starting with `hx_`, prefixing `hx_` to the cleaned name gives the name back exactly when the rest of the name holds no further `hx_` |
| Mixins.CleanedNamesCollide | htmx_view/mixins.py:55 | `hx_hx_` + x and `hx_` + x get the same cleaned name, so two actions can share a route |
| Text.ReplaceAllNoMatch | htmx_view/mixins.py:55 | `replace` leaves a string without a match unchanged |
| Text.ReplaceAllRemoves | htmx_view/mixins.py:55 | removing matches never lengthens a string, and strictly shortens one that has a match |
| Text.ReplaceAllKeepsChars | htmx_view/mixins.py:55 | removing matches introduces no character the input lacked |
| Mixins.UrlParams | htmx_view/mixins.py:64-82 | no URL parameter is named `self`, `request` or `_request`, and there are at most as many as signature parameters |
| Mixins.UrlParamsOne | htmx_view/mixins.py:67-82 | a parameter named `self`, `request` or `_request` yields nothing; any other yields exactly `UrlParameter(name, tag)` with its own name and `ConverterTag` of its annotation |
| Mixins.UrlParamsAppend | htmx_view/mixins.py:67-82 | the URL parameters of a concatenated signature are the concatenation of the URL parameters; with `UrlParamsOne` this pins `UrlParams` down: each kept parameter appears once, in declaration order |
| Mixins.UrlParamNamesFromSignature | htmx_view/mixins.py:77-82 | a character absent from every parameter name is absent from every URL parameter name |
| Mixins.Segments | htmx_view/mixins.py:85-87 | one segment per URL parameter |
| Mixins.PathSuffix | htmx_view/mixins.py:57-88 | the suffix `path_suffix` grows into, grouped as the method builds it; stated by `PathSuffixShape` and, through `RouteOf`, by `RouteShape` and `RouteRoundTrip` |
| Mixins.RouteOf | htmx_view/mixins.py:55-101 | the route, reverse name and `hx_method_name` of one action; stated by `RouteShape`, `RouteRoundTrip`, `ReverseNameRoundTrip` and `RouteSelectsItsHandler`, and equal to what `BuildRoute` assembles |
| Mixins.Routes | htmx_view/mixins.py:34-103 | the list `htmx_urls` returns; stated by `HtmxUrls`, `RoutesForAt`, `ActionsComplete` and `ActionsAppend` |
| Mixins.PathSuffixShape | htmx_view/mixins.py:57-62 | the suffix after `path` is a `/` exactly when `path` does not end with one, followed by the action part |
| Mixins.ActionPartShape | htmx_view/mixins.py:84-88 | the action part starts with `cleaned/` and ends with `/` |
| Mixins.RouteShape | htmx_view/mixins.py:57-97 | every route starts with `path`, the `/` that `path` may lack, the view's `hx_method_name` and `/`, and ends with `/` |
| Mixins.RoutesFor | htmx_view/mixins.py:50-101 | one route per action |
| Mixins.RoutesForAt | htmx_view/mixins.py:50-101 | the k-th route is the route of the k-th action |
| Mixins.RoutesSeeOnlySignatures | htmx_view/mixins.py:42-53 | classes alike in names, callability and signatures get the same routes |
| Mixins.BuildRoute | htmx_view/mixins.py:51-101 | the route the loop body assembles step by step equals `RouteOf` the action |
| Mixins.HtmxUrls | htmx_view/mixins.py:34-103 | the list `htmx_urls` returns equals `Routes` of the class: one route per callable `hx_` attribute, in `dir()` order |
| Mixins.RouteRoundTrip | htmx_view/mixins.py:55-97 | reading a route back under `path` gives the cleaned name and the URL parameters in declaration order, when names hold no `/` |
| Mixins.ReverseNameRoundTrip | htmx_view/mixins.py:90 | the reverse name is `name + sep` followed by the view's `hx_method_name` |
| Mixins.Dispatch | htmx_view/mixins.py:25-31 | the handler `hx_<hx_method_name>` is called exactly when `hx_method_name` is truthy and the view has that attribute, with the same request, args and kwargs; otherwise default dispatch runs with them |
| Mixins.RouteSelectsItsHandler | htmx_view/mixins.py:26-30 | a synthesized route dispatches to the action it was built for exactly when the action's name after `hx_` is non-empty and holds no further `hx_` |
| HtmxUtils.Wrap | htmx_view/utils.py:18-26 | a request whose method differs from the configured one gets status 405 with an empty body and no headers; otherwise the result is exactly the action's on the same call |
| HtmxUtils.MethodNotAllowed | htmx_view/utils.py:25 | `HttpResponse("", status=405)`; stated by the first ensures of `Wrap`: status 405, empty body, no headers |
| HtmxUtils.Decorate | htmx_view/utils.py:17 | the decorated method as route synthesis sees it: name and parameters kept by `functools.wraps`; stated by `DecoratingKeepsRoutes` |
| HtmxUtils.RejectionIgnoresEverythingElse | htmx_view/utils.py:24-25 | the rejection depends only on the request method: it is the same whatever the action, self, args and kwargs |
| HtmxUtils.DecoratingKeepsRoutes | htmx_view/utils.py:17 | decorating an action method leaves the synthesized routes unchanged |
| TodoViews.FormErrorResponse | example/todo/views.py:31-42 | the form block with status 200 and exactly the headers `HX-Retarget: this` and `HX-Reswap: outerHTML`; stated through `IsFormError` in the ensures of `CreateStep` |
| TodoViews.Create | example/todo/views.py:44-58 | the body of `hx_create` under the gate; stated by the ensures of `CreateStep` for POST requests and by `ActionsAreWrapped` |
| TodoViews.Toggle | example/todo/views.py:60-69 | the body of `hx_toggle` under the gate; stated by the ensures of `ToggleStep` for POST requests and by `ActionsAreWrapped` |
| TodoViews.Delete | example/todo/views.py:71-76 | the body of `hx_delete` under the gate; stated by the ensures of `DeleteStep` for POST requests and by `ActionsAreWrapped` |
| TodoViews.CreateStep | example/todo/views.py:29-58 | non-POST gets 405; an invalid form gets the form-error response with the form's errors; the title "error" gets it with the one title error; all three leave the table unchanged. Otherwise exactly one row is added under a fresh key, titled as submitted and not done, the table grows by one, and the row is rendered; the key invariant is kept |
| TodoViews.ToggleStep | example/todo/views.py:60-69 | non-POST gets 405 and a missing row 404, neither changing anything; otherwise the row's done flag is negated, its title and every other row are kept, and the row is rendered |
| TodoViews.DeleteStep | example/todo/views.py:71-76 | non-POST gets 405 and a missing row 404, neither changing anything; otherwise exactly that row is removed and the response is exactly 204 with an empty body and no headers |
| TodoViews.ActionsAreWrapped | example/todo/views.py:29-30 | each action's response is the POST gate's `wrap` applied to the undecorated action |
| TodoViews.ToggleTwiceRestores | example/todo/views.py:62-64 | toggling the same row twice restores the table |
| TodoViews.DeletedRowIsGone | example/todo/views.py:73-75 | after a delete the row is absent, and toggling or deleting it again gets 404 and changes nothing |
| TodoViews.DeleteIgnoresDoneFlag | example/todo/views.py:73-75 | the done flag flipped before deletion cannot be observed: deleting gives the same table whatever its value |
| TodoViews.OnlyPostChangesTheTable | example/todo/views.py:29-30 | a request that is not a POST leaves the table unchanged, whichever action it reaches |
| TodoViews.TodoRoutes | example/todo/urls.py:9 | the example's `htmx_urls(path="todos", name="todo")` gives `todos/create/`, `todos/delete/<str:todo_id>/` and `todos/toggle/<str:todo_id>/`, named `todo->create`, `todo->delete`, `todo->toggle` |
| TodoViews.TodoView.constructor | example/todo/models.py:6-8 | a view over an empty table, keys starting at 1 |
| TodoViews.TodoView.HxCreate | example/todo/views.py:29-58 | the new fields and the response are exactly `CreateStep` of the old fields; the key invariant is kept |
| TodoViews.TodoView.HxToggle | example/todo/views.py:60-69 | the new fields and the response are exactly `ToggleStep` of the old fields; the key invariant is kept |
| TodoViews.TodoView.HxDelete | example/todo/views.py:71-76 | the new fields and the response are exactly `DeleteStep` of the old fields; the key invariant is kept |

## Left out

- Python reflection (`dir`, `callable`, `getattr`, `hasattr`, `inspect.signature`) is not modelled. The class is given as its list of attributes in `dir()` order, and `dispatch` is given the set of names `hasattr` accepts.
- Django's `as_view`, `django.urls.path` and `URLPattern` are not modelled. A route is a record of its pattern, its name and the `hx_method_name` its view is built with. The `**initkwargs` passed through to `as_view` are not modelled.
- Mixins.Dispatch: the framework's verb-based `View.dispatch` is not modelled. The fallback is only the selection `DefaultDispatch` carrying the unchanged request and arguments.
- Mixins.Dispatch: `hasattr` also accepts an attribute that is not callable, such as `hx_method_name` itself, reached by an action named `hx_hx_method_name` whose cleaned name is `method_name`. Python then fails with a `TypeError` when it calls it. The model returns `CallHandler` all the same and does not model that failure.
- Mixins.Truthy: `hx_method_name` is modelled as `None` or a string, the only values route synthesis gives it.
- Template rendering (`render`, `render_block_to_string`) is not modelled. A rendered body records what it shows: the form block with its errors, or one row.
- Form binding and validation are a parameter, `Validator`. A form is valid exactly when it has no errors. Django's removal of `title` from `cleaned_data` by `add_error` is not modelled; nothing reads it afterwards.
- The database is not modelled; it is a map from key to row. New keys come from a counter that only grows, where a real database assigns them. The `max_length=255` of the title column and transactions are not modelled.
- `get_object_or_404` raising `Http404` is modelled as the 404 response the framework turns it into.
- The `get` list page of `TodoView` is not part of this model.
- TodoViews.TodoView.HxToggle and TodoViews.TodoView.HxDelete take the row key as an integer. Under the `str` converter the route actually captures a string, which the lookup converts. A non-numeric key, which makes the lookup fail with an error, is not modelled.
- TodoViews.ActionsAreWrapped: the row key reaches the undecorated action through the lemma's parameter rather than by reading `kwargs`.
- TodoViews.TodoViewAttributes lists only the `hx_` entries of `dir(TodoView)`. Entries without the prefix never become routes (`Mixins.Actions`).
- Headers that `HttpResponse` adds by itself, such as `Content-Type`, are not modelled. A response's headers are only those the source sets.
- `str.replace` with an empty pattern is not modelled; the pattern is always `hx_`.
