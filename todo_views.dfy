/**
 * The example to-do application (example/todo): `TodoView` and its three
 * POST-only htmx actions `hx_create`, `hx_toggle` and `hx_delete` over the
 * table of `TodoItem` rows.
 *
 * Each action is specified by a step function from the table before the
 * request to the table after it and the response; the class `TodoView`
 * carries the table as fields and its methods are proved to take exactly
 * those steps.
 */
module TodoViews {
  import opened Wrappers
  import opened Http
  import HtmxUtils
  import Mixins
  import opened Text

  /** A row of the `TodoItem` model: its title and whether it is done (new rows are not). */
  datatype TodoItem = TodoItem(title: string, isDone: bool)

  /** One message the form attaches to one of its fields. */
  datatype FieldError = FieldError(field: string, message: string)

  /**
   * `TodoCreateForm(request.POST)` once validated: the cleaned title and the
   * field errors. As for any bound form, it is valid exactly when it has no errors.
   */
  datatype BoundForm = BoundForm(title: string, errors: seq<FieldError>) {
    predicate IsValid() {
      errors == []
    }
  }

  /** Binding and cleaning the posted data, which the form library does. */
  type Validator = PostData -> BoundForm

  /** What a rendered body shows. */
  datatype Page =
    | FormBlock(errors: seq<FieldError>)       // the "form" block of todo/todo.html
    | ItemFragment(id: int, todo: TodoItem)    // todo/todo_item.html for one row
    | NotFoundPage                             // the page `get_object_or_404` leads to

  type TodoResponse = Response<Page>

  const POST: HtmxUtils.AllowedMethod := "POST"
  const ERROR_TITLE := "error"
  const TITLE_ERROR := FieldError("title", "This is an error!")

  /** `form_error_response`: the form block, retargeted at the form element and swapped whole. */
  function FormErrorResponse(errors: seq<FieldError>): TodoResponse {
    Response(200, map["HX-Retarget" := "this", "HX-Reswap" := "outerHTML"], Rendered(FormBlock(errors)))
  }

  /** A successful render of one row. */
  function ItemResponse(id: int, todo: TodoItem): TodoResponse {
    Response(200, map[], Rendered(ItemFragment(id, todo)))
  }

  /** `get_object_or_404` finding no row. */
  function NotFound(): TodoResponse {
    Response(404, map[], Rendered(NotFoundPage))
  }

  /** `HttpResponse("", status=204)`. */
  function NoContent(): TodoResponse {
    Response(204, map[], Empty)
  }

  /** The table: rows by primary key, and the key the next created row receives. */
  datatype Store = Store(items: map<int, TodoItem>, nextId: int)

  /** Keys are positive, and every stored key was handed out before `nextId`. */
  ghost predicate KeysIssued(s: Store) {
    0 < s.nextId && forall id :: id in s.items ==> 0 < id < s.nextId
  }

  datatype Outcome = Outcome(store: Store, response: TodoResponse)

  /** A response that sends the form back, with the two htmx headers and no others. */
  predicate IsFormError(r: TodoResponse) {
    r.status == 200 && r.body.Rendered? && r.body.page.FormBlock?
    && r.headers == map["HX-Retarget" := "this", "HX-Reswap" := "outerHTML"]
  }

  /** The body of `hx_create` below the method gate. */
  function Create(validate: Validator, s: Store, post: PostData): Outcome {
    var form := validate(post);
    if !form.IsValid() then Outcome(s, FormErrorResponse(form.errors))
    else if form.title == ERROR_TITLE then Outcome(s, FormErrorResponse(form.errors + [TITLE_ERROR]))
    else
      var todo := TodoItem(form.title, false);
      Outcome(Store(s.items[s.nextId := todo], s.nextId + 1), ItemResponse(s.nextId, todo))
  }

  /** The request `hx_create` accepts and adds a row for. */
  predicate CreatesRow(validate: Validator, request: Request) {
    request.verb == POST && validate(request.post).IsValid() && validate(request.post).title != ERROR_TITLE
  }

  /**
   * `hx_create` behind `register_htmx_view(method="POST")`: a request that
   * is not a POST gets 405; an invalid form, or the title "error" (which
   * gains the field error "This is an error!"), gets the form back with its
   * errors and the htmx retarget headers; anything else adds exactly one row,
   * under a fresh key, titled as submitted and not done, and renders it.
   */
  function CreateStep(validate: Validator, s: Store, request: Request): (o: Outcome)
    ensures KeysIssued(s) ==> KeysIssued(o.store)
    ensures o.store == s <==> !CreatesRow(validate, request)
    ensures request.verb != POST ==> o.response == HtmxUtils.MethodNotAllowed()
    ensures request.verb == POST && !validate(request.post).IsValid() ==>
              IsFormError(o.response) && o.response.body.page.errors == validate(request.post).errors
    ensures request.verb == POST && validate(request.post).IsValid() && validate(request.post).title == ERROR_TITLE ==>
              IsFormError(o.response) && o.response.body.page.errors == [TITLE_ERROR]
    ensures CreatesRow(validate, request) ==>
              o.store.items == s.items[s.nextId := TodoItem(validate(request.post).title, false)]
              && o.store.nextId == s.nextId + 1
              && o.response == ItemResponse(s.nextId, TodoItem(validate(request.post).title, false))
    ensures KeysIssued(s) && CreatesRow(validate, request) ==>
              s.nextId !in s.items && |o.store.items| == |s.items| + 1
  {
    if request.verb != POST then Outcome(s, HtmxUtils.MethodNotAllowed())
    else
      var o := Create(validate, s, request.post);
      assert KeysIssued(s) ==> s.nextId !in s.items;
      o
  }

  /** The body of `hx_toggle` below the method gate. */
  function Toggle(s: Store, todoId: int): Outcome {
    if todoId !in s.items then Outcome(s, NotFound())
    else
      var todo := s.items[todoId].(isDone := !s.items[todoId].isDone);
      Outcome(s.(items := s.items[todoId := todo]), ItemResponse(todoId, todo))
  }

  /**
   * `hx_toggle` behind the POST gate: flips the done flag of the row with
   * key `todoId`, keeps its title and every other row, and renders it; a
   * missing row gets 404 and a request that is not a POST gets 405, both
   * leaving the table as it was.
   */
  function ToggleStep(s: Store, request: Request, todoId: int): (o: Outcome)
    ensures KeysIssued(s) ==> KeysIssued(o.store)
    ensures o.store.nextId == s.nextId && o.store.items.Keys == s.items.Keys
    ensures forall id :: id in s.items && id != todoId ==> o.store.items[id] == s.items[id]
    ensures request.verb != POST ==> o == Outcome(s, HtmxUtils.MethodNotAllowed())
    ensures request.verb == POST && todoId !in s.items ==> o == Outcome(s, NotFound())
    ensures request.verb == POST && todoId in s.items ==>
              o.store.items[todoId].title == s.items[todoId].title
              && o.store.items[todoId].isDone == !s.items[todoId].isDone
              && o.response == ItemResponse(todoId, o.store.items[todoId])
  {
    if request.verb != POST then Outcome(s, HtmxUtils.MethodNotAllowed()) else Toggle(s, todoId)
  }

  /** The body of `hx_delete` below the method gate: the flag flip happens on a copy that is then deleted. */
  function Delete(s: Store, todoId: int): Outcome {
    if todoId !in s.items then Outcome(s, NotFound())
    else
      var todo := s.items[todoId].(isDone := !s.items[todoId].isDone);
      Outcome(s.(items := s.items - {todoId}), NoContent())
  }

  /**
   * `hx_delete` behind the POST gate: removes the row with key `todoId` and
   * nothing else and answers 204 with an empty body; a missing row gets 404
   * and a request that is not a POST gets 405, both leaving the table as it was.
   */
  function DeleteStep(s: Store, request: Request, todoId: int): (o: Outcome)
    ensures KeysIssued(s) ==> KeysIssued(o.store)
    ensures o.store.nextId == s.nextId
    ensures request.verb != POST ==> o == Outcome(s, HtmxUtils.MethodNotAllowed())
    ensures request.verb == POST && todoId !in s.items ==> o == Outcome(s, NotFound())
    ensures request.verb == POST && todoId in s.items ==>
              o.store.items.Keys == s.items.Keys - {todoId}
              && (forall id :: id in o.store.items ==> o.store.items[id] == s.items[id])
              && o.response == NoContent()
  {
    if request.verb != POST then Outcome(s, HtmxUtils.MethodNotAllowed()) else Delete(s, todoId)
  }

  /** The gate in front of each action is the decorator's `wrap` around the undecorated action. */
  lemma ActionsAreWrapped(validate: Validator, s: Store, request: Request, todoId: int)
    ensures CreateStep(validate, s, request).response
            == HtmxUtils.Wrap(POST, (c: HtmxUtils.Call<Store, int>) => Create(validate, c.self, c.request.post).response,
                              HtmxUtils.Call(s, request, [], map[]))
    ensures ToggleStep(s, request, todoId).response
            == HtmxUtils.Wrap(POST, (c: HtmxUtils.Call<Store, int>) => Toggle(c.self, todoId).response,
                              HtmxUtils.Call(s, request, [], map["todo_id" := todoId]))
    ensures DeleteStep(s, request, todoId).response
            == HtmxUtils.Wrap(POST, (c: HtmxUtils.Call<Store, int>) => Delete(c.self, todoId).response,
                              HtmxUtils.Call(s, request, [], map["todo_id" := todoId]))
  {
  }

  /** Toggling the same row twice restores the table. */
  lemma ToggleTwiceRestores(s: Store, request: Request, todoId: int)
    ensures ToggleStep(ToggleStep(s, request, todoId).store, request, todoId).store == s
  {
    if request.verb == POST && todoId in s.items {
      var once := ToggleStep(s, request, todoId).store;
      var twice := ToggleStep(once, request, todoId).store;
      assert twice.items[todoId] == s.items[todoId];
      assert twice.items == s.items;
    }
  }

  /** Once a row is deleted, toggling or deleting it again finds nothing and changes nothing. */
  lemma DeletedRowIsGone(s: Store, request: Request, todoId: int)
    requires request.verb == POST
    ensures var gone := DeleteStep(s, request, todoId).store;
            todoId !in gone.items
            && ToggleStep(gone, request, todoId) == Outcome(gone, NotFound())
            && DeleteStep(gone, request, todoId) == Outcome(gone, NotFound())
  {
  }

  /** The done flag `hx_delete` flips before deleting cannot be observed: the outcome is the same whatever its value. */
  lemma DeleteIgnoresDoneFlag(s: Store, request: Request, todoId: int, done: bool)
    requires todoId in s.items
    ensures DeleteStep(s.(items := s.items[todoId := s.items[todoId].(isDone := done)]), request, todoId).store.items
            == DeleteStep(s, request, todoId).store.items || request.verb != POST
  {
    if request.verb == POST {
      var flipped := s.items[todoId := s.items[todoId].(isDone := done)];
      assert flipped - {todoId} == s.items - {todoId};
    }
  }

  /** A request that is not a POST leaves the table as it was, whichever action it reaches. */
  lemma OnlyPostChangesTheTable(validate: Validator, s: Store, request: Request, todoId: int)
    requires request.verb != POST
    ensures CreateStep(validate, s, request).store == s
    ensures ToggleStep(s, request, todoId).store == s
    ensures DeleteStep(s, request, todoId).store == s
  {
  }

  /**
   * The `hx_` entries of `dir(TodoView)`, in `dir` order: the three decorated
   * actions and the mixin's non-callable `hx_method_name`. The entries
   * without the prefix are not listed; no route is made from them.
   */
  function TodoViewAttributes(): seq<Mixins.Attribute> {
    var self := Mixins.Param("self", Mixins.NoAnnotation);
    var request := Mixins.Param("request", Mixins.OtherClass("HttpRequest"));
    var todoId := Mixins.Param("todo_id", Mixins.IntClass);
    [ Mixins.Attribute(Mixins.HX_PREFIX + "create", true, [self, request], Some("POST")),
      Mixins.Attribute(Mixins.HX_PREFIX + "delete", true, [self, Mixins.Param("_request", Mixins.OtherClass("HttpRequest")), todoId], Some("POST")),
      Mixins.Attribute("hx_method_name", false, [], None),
      Mixins.Attribute(Mixins.HX_PREFIX + "toggle", true, [self, request, todoId], Some("POST")) ]
  }

  /**
   * The routes `TodoView().htmx_urls(path="todos", name="todo")` registers:
   * one per action, in name order, the `int` row key captured by the `str`
   * converter.
   */
  lemma TodoRoutes()
    ensures Mixins.Routes("todos", "todo", Mixins.DEFAULT_SEPARATOR, TodoViewAttributes())
            == [ Mixins.Route("todos/create/", "todo->create", "create"),
                 Mixins.Route("todos/delete/<str:todo_id>/", "todo->delete", "delete"),
                 Mixins.Route("todos/toggle/<str:todo_id>/", "todo->toggle", "toggle") ]
  {
    var cls := TodoViewAttributes();
    TodoRoutesOf(cls[0], cls[1], cls[2], cls[3]);
  }

  /** The same routes for any four attributes with those names, callabilities and signatures. */
  lemma TodoRoutesOf(c: Mixins.Attribute, d: Mixins.Attribute, m: Mixins.Attribute, t: Mixins.Attribute)
    requires c.name == Mixins.HX_PREFIX + "create" && c.isCallable
    requires |c.params| == 2 && c.params[0].name in Mixins.SKIP_PARAMS && c.params[1].name in Mixins.SKIP_PARAMS
    requires d.name == Mixins.HX_PREFIX + "delete" && d.isCallable
    requires |d.params| == 3 && d.params[0].name in Mixins.SKIP_PARAMS && d.params[1].name in Mixins.SKIP_PARAMS
    requires d.params[2] == Mixins.Param("todo_id", Mixins.IntClass)
    requires !m.isCallable
    requires t.name == Mixins.HX_PREFIX + "toggle" && t.isCallable
    requires |t.params| == 3 && t.params[0].name in Mixins.SKIP_PARAMS && t.params[1].name in Mixins.SKIP_PARAMS
    requires t.params[2] == Mixins.Param("todo_id", Mixins.IntClass)
    ensures Mixins.Routes("todos", "todo", "->", [c, d, m, t])
            == [ Mixins.Route("todos/create/", "todo->create", "create"),
                 Mixins.Route("todos/delete/<str:todo_id>/", "todo->delete", "delete"),
                 Mixins.Route("todos/toggle/<str:todo_id>/", "todo->toggle", "toggle") ]
  {
    ActionName("create", c);
    ActionName("delete", d);
    ActionName("toggle", t);
    RoutesOfFour("todos", "todo", "->", c, d, m, t);
    CreateRoute(c);
    KeyedRoute("delete", d);
    KeyedRoute("toggle", t);
    CreatePath();
    DeletePath();
    TogglePath();
    ReverseNames();
  }

  /** The routes of a class whose attributes are three actions and, third, one that is not. */
  lemma RoutesOfFour(path: string, name: string, sep: string,
                     c: Mixins.Attribute, d: Mixins.Attribute, m: Mixins.Attribute, t: Mixins.Attribute)
    requires Mixins.IsAction(c) && Mixins.IsAction(d) && !m.isCallable && Mixins.IsAction(t)
    ensures Mixins.Routes(path, name, sep, [c, d, m, t])
            == [Mixins.RouteOf(path, name, sep, c), Mixins.RouteOf(path, name, sep, d), Mixins.RouteOf(path, name, sep, t)]
  {
    FourActions(c, d, m, t);
    Mixins.RoutesForSnoc(path, name, sep, [], c);
    Mixins.RoutesForSnoc(path, name, sep, [c], d);
    Mixins.RoutesForSnoc(path, name, sep, [c, d], t);
    assert [c] == [] + [c];
    assert [c, d] == [c] + [d];
    assert [c, d, t] == [c, d] + [t];
  }

  /** `"hx_" + cleaned` names an action when callable. */
  lemma ActionName(cleaned: string, a: Mixins.Attribute)
    requires a.name == Mixins.HX_PREFIX + cleaned && a.isCallable
    ensures Mixins.IsAction(a)
  {
    assert a.name[..3] == Mixins.HX_PREFIX;
  }

  /** Route synthesis selects the three actions and skips the non-callable third attribute. */
  lemma FourActions(a0: Mixins.Attribute, a1: Mixins.Attribute, a2: Mixins.Attribute, a3: Mixins.Attribute)
    requires Mixins.IsAction(a0) && Mixins.IsAction(a1) && !a2.isCallable && Mixins.IsAction(a3)
    ensures Mixins.Actions([a0, a1, a2, a3]) == [a0, a1, a3]
  {
    var cls := [a0, a1, a2, a3];
    assert cls[..3] == [a0, a1, a2] && cls[..3][..2] == [a0, a1] && cls[..3][..2][..1] == [a0] && [a0][..0] == [];
    assert Mixins.Actions([a0]) == [a0];
    assert Mixins.Actions([a0, a1]) == [a0, a1];
    assert Mixins.Actions([a0, a1, a2]) == [a0, a1];
  }

  /** `"hx_" + cleaned` loses exactly its prefix when `cleaned` has no `h`. */
  lemma CleanedAction(cleaned: string)
    requires 'h' !in cleaned
    ensures Mixins.CleanedName(Mixins.HX_PREFIX + cleaned) == cleaned
  {
    var s := Mixins.HX_PREFIX + cleaned;
    assert s[..3] == Mixins.HX_PREFIX && s[3..] == cleaned;
    assert !Contains(cleaned, Mixins.HX_PREFIX) by {
      forall i | 0 <= i <= |cleaned| ensures !OccursAt(cleaned, Mixins.HX_PREFIX, i) {
        if i + 3 <= |cleaned| {
          assert cleaned[i..i + 3][0] == cleaned[i];
        }
      }
    }
    ReplaceAllNoMatch(cleaned, Mixins.HX_PREFIX, "");
  }

  /** The route of `hx_create`, whose parameters are all skipped. */
  lemma CreateRoute(a: Mixins.Attribute)
    requires a.name == Mixins.HX_PREFIX + "create"
    requires |a.params| == 2 && a.params[0].name in Mixins.SKIP_PARAMS && a.params[1].name in Mixins.SKIP_PARAMS
    ensures Mixins.RouteOf("todos", "todo", "->", a)
            == Mixins.Route("todos" + ("/" + ("create" + "/")), "todo" + "->" + "create", "create")
  {
    CleanedAction("create");
    var ps := a.params;
    assert ps[..1] == [ps[0]] && [ps[0]][..0] == [] && ps[..2] == ps;
    assert Mixins.UrlParams(ps[..1]) == [];
  }

  /** The route of an action taking one `int` row key after the skipped parameters. */
  lemma KeyedRoute(cleaned: string, a: Mixins.Attribute)
    requires a.name == Mixins.HX_PREFIX + cleaned && 'h' !in cleaned
    requires |a.params| == 3 && a.params[0].name in Mixins.SKIP_PARAMS && a.params[1].name in Mixins.SKIP_PARAMS
    requires a.params[2] == Mixins.Param("todo_id", Mixins.IntClass)
    ensures Mixins.RouteOf("todos", "todo", "->", a)
            == Mixins.Route("todos" + ("/" + (cleaned + "/")) + Mixins.UrlParameter("todo_id", Mixins.Str).BuildUrlParam() + "/",
                            "todo" + "->" + cleaned, cleaned)
  {
    CleanedAction(cleaned);
    KeyParams(a.params);
  }

  /** Only the row key becomes a URL parameter, with the `str` converter. */
  lemma KeyParams(ps: seq<Mixins.Param>)
    requires |ps| == 3 && ps[0].name in Mixins.SKIP_PARAMS && ps[1].name in Mixins.SKIP_PARAMS
    requires ps[2] == Mixins.Param("todo_id", Mixins.IntClass)
    ensures Mixins.UrlParams(ps) == [Mixins.UrlParameter("todo_id", Mixins.Str)]
  {
    assert ps[..2][..1] == [ps[0]] && [ps[0]][..0] == [] && ps[..3][..2] == ps[..2] && ps[..3] == ps;
    assert Mixins.UrlParams(ps[..1]) == [];
    assert Mixins.UrlParams(ps[..2]) == [];
  }

  /** The literal route strings, assembled. */
  lemma CreatePath()
    ensures "todos" + ("/" + ("create" + "/")) == "todos/create/"
  {
  }

  lemma DeletePath()
    ensures "todos" + ("/" + ("delete" + "/")) + Mixins.UrlParameter("todo_id", Mixins.Str).BuildUrlParam() + "/"
            == "todos/delete/<str:todo_id>/"
  {
    assert Mixins.Converter.Str.Name() == "str";
  }

  lemma TogglePath()
    ensures "todos" + ("/" + ("toggle" + "/")) + Mixins.UrlParameter("todo_id", Mixins.Str).BuildUrlParam() + "/"
            == "todos/toggle/<str:todo_id>/"
  {
    assert Mixins.Converter.Str.Name() == "str";
  }

  lemma ReverseNames()
    ensures "todo" + "->" + "create" == "todo->create"
    ensures "todo" + "->" + "delete" == "todo->delete"
    ensures "todo" + "->" + "toggle" == "todo->toggle"
  {
  }

  /** `TodoView`: the view object, holding the table it works on. */
  class TodoView {
    const validate: Validator
    var items: map<int, TodoItem>
    var nextId: int

    ghost predicate Valid()
      reads this
    {
      KeysIssued(State())
    }

    function State(): Store
      reads this
    {
      Store(items, nextId)
    }

    /** A view over an empty table whose first row will get key 1. */
    constructor (validate: Validator)
      ensures Valid() && this.validate == validate && State() == Store(map[], 1)
    {
      this.validate := validate;
      items := map[];
      nextId := 1;
    }

    /** `hx_create`, as the POST gate lets it run. */
    method HxCreate(request: Request) returns (response: TodoResponse)
      requires Valid()
      modifies this
      ensures Valid()
      ensures Outcome(State(), response) == CreateStep(validate, old(State()), request)
    {
      if request.verb != POST {
        return HtmxUtils.MethodNotAllowed();
      }
      var form := validate(request.post);
      if !form.IsValid() {
        return FormErrorResponse(form.errors);
      }
      var title := form.title;
      if title == ERROR_TITLE {
        form := form.(errors := form.errors + [TITLE_ERROR]);
        return FormErrorResponse(form.errors);
      }
      var newTodo := TodoItem(title, false);
      var id := nextId;
      items := items[id := newTodo];
      nextId := nextId + 1;
      response := ItemResponse(id, newTodo);
    }

    /** `hx_toggle`, as the POST gate lets it run. */
    method HxToggle(request: Request, todoId: int) returns (response: TodoResponse)
      requires Valid()
      modifies this
      ensures Valid()
      ensures Outcome(State(), response) == ToggleStep(old(State()), request, todoId)
    {
      if request.verb != POST {
        return HtmxUtils.MethodNotAllowed();
      }
      if todoId !in items {
        return NotFound();
      }
      var todo := items[todoId];
      todo := todo.(isDone := !todo.isDone);
      items := items[todoId := todo];
      response := ItemResponse(todoId, todo);
    }

    /** `hx_delete`, as the POST gate lets it run. */
    method HxDelete(request: Request, todoId: int) returns (response: TodoResponse)
      requires Valid()
      modifies this
      ensures Valid()
      ensures Outcome(State(), response) == DeleteStep(old(State()), request, todoId)
    {
      if request.verb != POST {
        return HtmxUtils.MethodNotAllowed();
      }
      if todoId !in items {
        return NotFound();
      }
      var todo := items[todoId];
      todo := todo.(isDone := !todo.isDone);
      items := items - {todoId};
      response := NoContent();
    }
  }
}
