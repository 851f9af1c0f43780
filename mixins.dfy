/**
 * `HTMXViewMixin` from htmx_view/mixins.py: synthesis of one URL route per
 * `hx_`-prefixed action method of a view class, and the dispatch override
 * that sends a request to the action its route was built for.
 *
 * Python reflection (`dir`, `callable`, `inspect.signature`) is replaced by
 * an explicit input: the class's attributes in `dir()` order, each with its
 * name, whether it is callable, and its signature's parameters.
 */
module Mixins {
  import opened Wrappers
  import opened Text

  /** A Python annotation object, as `inspect.Parameter.annotation` holds it. */
  datatype Annotation =
    | NoAnnotation             // `inspect.Parameter.empty`, itself a class
    | IntClass                 // the class `int`
    | StrClass                 // the class `str`
    | UuidClass                // the class `uuid.UUID`
    | TypeClass                // the metaclass `type`
    | OtherClass(name: string) // any other class
    | Forward(text: string)    // a string annotation such as `"int"`

  /** Python's `type(x)` of an annotation: every class is an instance of `type`, a string of `str`. */
  function TypeOf(a: Annotation): Annotation {
    match a
    case Forward(_) => StrClass
    case _ => TypeClass
  }

  /** One parameter of a method's signature. */
  datatype Param = Param(name: string, annotation: Annotation)

  /**
   * One entry of `dir(cls)`: its name, whether `callable(getattr(cls, name))`,
   * the parameters `inspect.signature` reports for it, and the HTTP method
   * `register_htmx_view` gates it on, if it was decorated.
   */
  datatype Attribute = Attribute(name: string, isCallable: bool, params: seq<Param>, gate: Option<string>)

  const HX_PREFIX: string := "hx_"
  const SKIP_PARAMS: set<string> := {"self", "request", "_request"}
  const DEFAULT_SEPARATOR: string := "->"

  /** The three Django path converters route synthesis can name. */
  datatype Converter = Str | Int | Uuid {
    /** The converter's name as written in a route: `"str"`, `"int"` or `"uuid"`. */
    function Name(): (s: string)
      ensures |s| >= 3 && ':' !in s && '/' !in s
    {
      match this
      case Str => "str"
      case Int => "int"
      case Uuid => "uuid"
    }
  }

  /** The `UrlParameter` named tuple: a parameter name and its converter. */
  datatype UrlParameter = UrlParameter(name: string, annotation: Converter) {
    /** `build_url_param`: the path segment `<annotation:name>`. */
    function BuildUrlParam(): (segment: string)
      ensures |segment| >= 6 && segment[0] == '<' && segment[|segment| - 1] == '>'
      ensures '/' !in name ==> '/' !in segment
    {
      "<" + (annotation.Name() + ":" + name) + ">"
    }
  }

  /** Reads a converter name back. */
  function ParseConverter(s: string): Option<Converter> {
    if s == "str" then Some(Str)
    else if s == "int" then Some(Int)
    else if s == "uuid" then Some(Uuid)
    else None
  }

  /** Reads a `<tag:name>` path segment back, splitting at the first `:`. */
  function ParseUrlParam(segment: string): Option<UrlParameter> {
    if |segment| < 2 || segment[0] != '<' || segment[|segment| - 1] != '>' then None
    else
      var inner := segment[1..|segment| - 1];
      match IndexOf(inner, ':')
      case None => None
      case Some(i) =>
        match ParseConverter(inner[..i])
        case None => None
        case Some(c) => Some(UrlParameter(inner[i + 1..], c))
  }

  lemma ConverterRoundTrip(c: Converter)
    ensures ParseConverter(c.Name()) == Some(c)
  {
    match c
    case Str =>
    case Int => assert "int" != "str" by { assert "int"[0] != "str"[0]; }
    case Uuid =>
      assert "uuid" != "str" && "uuid" != "int" by { assert "uuid"[0] != "str"[0] && "uuid"[0] != "int"[0]; }
  }

  /** A built segment reads back as the parameter it was built from. */
  lemma UrlParamRoundTrip(p: UrlParameter)
    ensures ParseUrlParam(p.BuildUrlParam()) == Some(p)
  {
    var inner := p.annotation.Name() + ":" + p.name;
    var segment := p.BuildUrlParam();
    assert segment[1..|segment| - 1] == inner;
    IndexOfAfter(p.annotation.Name(), ':', p.name);
    ConverterRoundTrip(p.annotation);
  }

  /**
   * The converter of a parameter, with the two comparisons of the source
   * taken literally: the annotation is compared with `type(int)` and then with
   * `type(UUID)`, both of which are the metaclass `type`. So only an
   * annotation that is `type` itself gets a converter other than `str`, and
   * that converter is `uuid`: `int` is never produced, and `int` or `UUID`
   * annotations get `str`.
   */
  function ConverterTag(annotation: Annotation): (tag: Converter)
    ensures tag == Uuid <==> annotation == TypeClass
    ensures tag != Int
    ensures annotation == IntClass || annotation == UuidClass ==> tag == Str
  {
    var tag := Str;
    var tag := if annotation == TypeOf(IntClass) then Int else tag;
    if annotation == TypeOf(UuidClass) then Uuid else tag
  }

  /** `callable(getattr(cls, attr)) and attr.startswith("hx_")`. */
  predicate IsAction(a: Attribute) {
    a.isCallable && StartsWith(a.name, HX_PREFIX)
  }

  /** The attributes route synthesis turns into routes, in `dir()` order. */
  function Actions(cls: seq<Attribute>): (acts: seq<Attribute>)
    ensures |acts| <= |cls|
    ensures forall k :: 0 <= k < |acts| ==> IsAction(acts[k]) && acts[k] in cls
  {
    if cls == [] then []
    else
      var last := cls[|cls| - 1];
      Actions(cls[..|cls| - 1]) + (if IsAction(last) then [last] else [])
  }

  /** Every callable `hx_` attribute is selected. */
  lemma {:induction false} ActionsComplete(cls: seq<Attribute>, a: Attribute)
    requires a in cls && IsAction(a)
    ensures a in Actions(cls)
  {
    var last := cls[|cls| - 1];
    if a != last {
      assert cls == cls[..|cls| - 1] + [last];
      ActionsComplete(cls[..|cls| - 1], a);
    }
  }

  /** Selection keeps the order of `dir()`: it distributes over concatenation. */
  lemma {:induction false} ActionsAppend(xs: seq<Attribute>, ys: seq<Attribute>)
    ensures Actions(xs + ys) == Actions(xs) + Actions(ys)
    decreases |ys|
  {
    if ys == [] {
      assert xs + ys == xs;
    } else {
      var last := ys[|ys| - 1];
      assert (xs + ys)[..|xs + ys| - 1] == xs + ys[..|ys| - 1];
      ActionsAppend(xs, ys[..|ys| - 1]);
    }
  }

  /** `method_name.replace("hx_", "")`: every occurrence is removed, not only the prefix. */
  function CleanedName(methodName: string): string {
    ReplaceAll(methodName, HX_PREFIX, "")
  }

  /**
   * Every `hx_` is removed, not only the prefix: `"hx_" + cleaned` gives back
   * an action's name exactly when the rest of the name holds no further `hx_`.
   */
  lemma CleanedNameRestores(methodName: string)
    requires StartsWith(methodName, HX_PREFIX)
    ensures HX_PREFIX + CleanedName(methodName) == methodName
            <==> !Contains(methodName[|HX_PREFIX|..], HX_PREFIX)
  {
    var rest := methodName[|HX_PREFIX|..];
    assert CleanedName(methodName) == ReplaceAll(rest, HX_PREFIX, "");
    assert HX_PREFIX + rest == methodName;
    ReplaceAllRemoves(rest, HX_PREFIX);
    if !Contains(rest, HX_PREFIX) {
      ReplaceAllNoMatch(rest, HX_PREFIX, "");
    }
  }

  /** Hence distinct actions can share a cleaned name, and so a route: `hx_hx_` + x and `hx_` + x. */
  lemma CleanedNamesCollide(x: string)
    ensures CleanedName(HX_PREFIX + HX_PREFIX + x) == CleanedName(HX_PREFIX + x)
  {
    var once, twice := HX_PREFIX + x, HX_PREFIX + HX_PREFIX + x;
    assert twice[..3] == HX_PREFIX && twice[3..] == once;
    assert once[..3] == HX_PREFIX && once[3..] == x;
  }

  /**
   * The URL parameters of a signature: every parameter not named `self`,
   * `request` or `_request`, in declaration order, with its converter tag.
   */
  function UrlParams(params: seq<Param>): (ups: seq<UrlParameter>)
    ensures |ups| <= |params|
    ensures forall k :: 0 <= k < |ups| ==> ups[k].name !in SKIP_PARAMS
  {
    if params == [] then []
    else
      var p := params[|params| - 1];
      UrlParams(params[..|params| - 1])
        + (if p.name in SKIP_PARAMS then [] else [UrlParameter(p.name, ConverterTag(p.annotation))])
  }

  /**
   * What one parameter becomes: nothing when it is named `self`, `request` or
   * `_request`, otherwise one URL parameter with its own name and converter tag.
   */
  lemma UrlParamsOne(p: Param)
    ensures UrlParams([p]) == if p.name in SKIP_PARAMS then [] else [UrlParameter(p.name, ConverterTag(p.annotation))]
  {
    assert [p][..0] == [];
  }

  /** Each kept parameter appears once, in declaration order. */
  lemma {:induction false} UrlParamsAppend(xs: seq<Param>, ys: seq<Param>)
    ensures UrlParams(xs + ys) == UrlParams(xs) + UrlParams(ys)
    decreases |ys|
  {
    if ys == [] {
      assert xs + ys == xs;
    } else {
      assert (xs + ys)[..|xs + ys| - 1] == xs + ys[..|ys| - 1];
      UrlParamsAppend(xs, ys[..|ys| - 1]);
    }
  }

  /** A kept parameter's name comes from the signature. */
  lemma {:induction false} UrlParamNamesFromSignature(params: seq<Param>, c: char)
    requires forall k :: 0 <= k < |params| ==> c !in params[k].name
    ensures forall k :: 0 <= k < |UrlParams(params)| ==> c !in UrlParams(params)[k].name
  {
    if params != [] {
      UrlParamNamesFromSignature(params[..|params| - 1], c);
    }
  }

  /** `[u.build_url_param() for u in url_params]`. */
  function Segments(ups: seq<UrlParameter>): (segs: seq<string>)
    ensures |segs| == |ups|
  {
    if ups == [] then [] else [ups[0].BuildUrlParam()] + Segments(ups[1..])
  }

  /** One synthesized route: its path pattern, its reverse name, and the `hx_method_name` its view is built with. */
  datatype Route = Route(route: string, urlName: string, hxMethodName: string)

  /**
   * The part of a route after `path`: a `/` unless `path` already ends in one,
   * the cleaned name and `/`, then the `<tag:name>` segments joined by `/`
   * and a closing `/` when there are URL parameters.
   */
  function PathSuffix(path: string, cleaned: string, ups: seq<UrlParameter>): string {
    var suffix := if EndsWith(path, "/") then cleaned + "/" else "/" + (cleaned + "/");
    if ups == [] then suffix else suffix + Join(Segments(ups), "/") + "/"
  }

  /** The route route synthesis produces for one action of the class. */
  function RouteOf(path: string, name: string, sep: string, a: Attribute): Route {
    var cleaned := CleanedName(a.name);
    Route(path + PathSuffix(path, cleaned, UrlParams(a.params)), name + sep + cleaned, cleaned)
  }

  /** What follows `path`: the `/` that `path` may lack. */
  function Lead(path: string): string {
    if EndsWith(path, "/") then "" else "/"
  }

  /** What follows the lead: `action/`, then `seg1/.../segN/` when there are URL parameters. */
  function ActionPart(cleaned: string, ups: seq<UrlParameter>): string {
    if ups == [] then cleaned + "/" else cleaned + "/" + Join(Segments(ups), "/") + "/"
  }

  /** Every route suffix is the lead (a `/` exactly when `path` does not end in one) and the action part. */
  lemma PathSuffixShape(path: string, cleaned: string, ups: seq<UrlParameter>)
    ensures PathSuffix(path, cleaned, ups) == Lead(path) + ActionPart(cleaned, ups)
  {
    if ups != [] {
      var j := Join(Segments(ups), "/");
      assert ActionPart(cleaned, ups) == (cleaned + "/") + j + "/";
    }
  }

  /** The action part starts with `cleaned/` and, so every route, ends with `/`. */
  lemma ActionPartShape(cleaned: string, ups: seq<UrlParameter>)
    ensures StartsWith(ActionPart(cleaned, ups), cleaned + "/")
    ensures EndsWith(ActionPart(cleaned, ups), "/")
  {
    var ap := ActionPart(cleaned, ups);
    if ups != [] {
      var j := Join(Segments(ups), "/");
      assert ap == (cleaned + "/") + (j + "/");
    }
    assert ap[..|cleaned + "/"|] == cleaned + "/";
    assert ap[|ap| - 1..] == "/";
  }

  /**
   * Every route is `path`, then a `/` only when `path` lacks one, then the
   * cleaned name and `/`; it ends with `/` whatever the parameters.
   */
  lemma RouteShape(path: string, name: string, sep: string, a: Attribute)
    ensures var r := RouteOf(path, name, sep, a);
            StartsWith(r.route, path + Lead(path) + (r.hxMethodName + "/")) && EndsWith(r.route, "/")
  {
    var cleaned := CleanedName(a.name);
    var ups := UrlParams(a.params);
    var ap := ActionPart(cleaned, ups);
    PathSuffixShape(path, cleaned, ups);
    ActionPartShape(cleaned, ups);
    assert RouteOf(path, name, sep, a).route == (path + Lead(path)) + ap;
    StartsWithAppend(path + Lead(path), ap, cleaned + "/");
    EndsWithAppend(path + Lead(path), ap, "/");
  }

  /** What `htmx_urls` returns: one route per action, in `dir()` order. */
  function Routes(path: string, name: string, sep: string, cls: seq<Attribute>): (urls: seq<Route>) {
    RoutesFor(path, name, sep, Actions(cls))
  }

  /** The routes of a list of actions, one each, in order. */
  function RoutesFor(path: string, name: string, sep: string, acts: seq<Attribute>): (urls: seq<Route>)
    ensures |urls| == |acts|
  {
    if acts == [] then []
    else RoutesFor(path, name, sep, acts[..|acts| - 1]) + [RouteOf(path, name, sep, acts[|acts| - 1])]
  }

  lemma RoutesForSnoc(path: string, name: string, sep: string, acts: seq<Attribute>, a: Attribute)
    ensures RoutesFor(path, name, sep, acts + [a]) == RoutesFor(path, name, sep, acts) + [RouteOf(path, name, sep, a)]
  {
    assert (acts + [a])[..|acts|] == acts;
  }

  /** Two attributes route synthesis cannot tell apart: same name, callability and signature. */
  predicate SeenAlike(a: Attribute, b: Attribute) {
    a.name == b.name && a.isCallable == b.isCallable && a.params == b.params
  }

  /** Route synthesis reads only names, callability and signatures: classes alike in those get the same routes. */
  lemma {:induction false} RoutesSeeOnlySignatures(path: string, name: string, sep: string, c1: seq<Attribute>, c2: seq<Attribute>)
    requires |c1| == |c2|
    requires forall k :: 0 <= k < |c1| ==> SeenAlike(c1[k], c2[k])
    ensures Routes(path, name, sep, c1) == Routes(path, name, sep, c2)
  {
    if c1 != [] {
      var n := |c1| - 1;
      var a1, a2 := c1[n], c2[n];
      assert forall k :: 0 <= k < n ==> SeenAlike(c1[..n][k], c2[..n][k]);
      RoutesSeeOnlySignatures(path, name, sep, c1[..n], c2[..n]);
      var acts1, acts2 := Actions(c1[..n]), Actions(c2[..n]);
      assert RoutesFor(path, name, sep, acts1) == RoutesFor(path, name, sep, acts2);
      assert SeenAlike(a1, a2);
      if IsAction(a1) {
        assert Actions(c1) == acts1 + [a1];
        assert Actions(c2) == acts2 + [a2];
        RoutesForSnoc(path, name, sep, acts1, a1);
        RoutesForSnoc(path, name, sep, acts2, a2);
        RouteOfSeesSignature(path, name, sep, a1, a2);
      } else {
        assert Actions(c1) == acts1;
        assert Actions(c2) == acts2;
      }
    }
  }

  lemma RouteOfSeesSignature(path: string, name: string, sep: string, a: Attribute, b: Attribute)
    requires SeenAlike(a, b)
    ensures RouteOf(path, name, sep, a) == RouteOf(path, name, sep, b)
  {
  }

  /** The `k`-th route is the route of the `k`-th action. */
  lemma {:induction false} RoutesForAt(path: string, name: string, sep: string, acts: seq<Attribute>, k: nat)
    requires k < |acts|
    ensures RoutesFor(path, name, sep, acts)[k] == RouteOf(path, name, sep, acts[k])
  {
    if k < |acts| - 1 {
      RoutesForAt(path, name, sep, acts[..|acts| - 1], k);
    }
  }

  /** The list comprehension of `htmx_urls`: the callable `hx_` attributes, in `dir()` order. */
  method CollectActions(cls: seq<Attribute>) returns (methodNameList: seq<Attribute>)
    ensures methodNameList == Actions(cls)
  {
    methodNameList := [];
    for i := 0 to |cls|
      invariant methodNameList == Actions(cls[..i])
    {
      var attr := cls[i];
      assert cls[..i + 1][..i] == cls[..i];
      if attr.isCallable && StartsWith(attr.name, HX_PREFIX) {
        methodNameList := methodNameList + [attr];
      }
    }
    assert cls[..|cls|] == cls;
  }

  /**
   * The body of the loop of `htmx_urls` for one action: the suffix is built
   * step by step from the cleaned name, then one `UrlParameter` is appended per
   * parameter that is not skipped.
   */
  method BuildRoute(path: string, name: string, sep: string, action: Attribute) returns (url: Route)
    ensures url == RouteOf(path, name, sep, action)
  {
    var methodParameters := action.params;
    var cleanedMethodName := ReplaceAll(action.name, HX_PREFIX, "");
    var pathSuffix := cleanedMethodName + "/";
    if !EndsWith(path, "/") {
      pathSuffix := "/" + pathSuffix;
    }

    var urlParams: seq<UrlParameter> := [];
    for k := 0 to |methodParameters|
      invariant urlParams == UrlParams(methodParameters[..k])
    {
      var param := methodParameters[k];
      assert methodParameters[..k + 1][..k] == methodParameters[..k];
      if param.name in SKIP_PARAMS {
        continue;
      }
      var urlParamType := Str;
      if param.annotation == TypeOf(IntClass) {
        urlParamType := Int;
      }
      if param.annotation == TypeOf(UuidClass) {
        urlParamType := Uuid;
      }
      urlParams := urlParams + [UrlParameter(param.name, urlParamType)];
    }
    assert methodParameters[..|methodParameters|] == methodParameters;

    if urlParams != [] {
      pathSuffix := pathSuffix + Join(Segments(urlParams), "/");
      pathSuffix := pathSuffix + "/";
    }
    var urlName := name + sep + cleanedMethodName;
    url := Route(path + pathSuffix, urlName, cleanedMethodName);
  }

  /** `HTMXViewMixin.htmx_urls`: one route per callable `hx_` attribute, in `dir()` order. */
  method HtmxUrls(cls: seq<Attribute>, path: string, name: string, sep: string) returns (urls: seq<Route>)
    ensures urls == Routes(path, name, sep, cls)
  {
    var methodNameList := CollectActions(cls);
    urls := [];
    for j := 0 to |methodNameList|
      invariant urls == RoutesFor(path, name, sep, methodNameList[..j])
    {
      var url := BuildRoute(path, name, sep, methodNameList[j]);
      assert methodNameList[..j + 1][..j] == methodNameList[..j];
      urls := urls + [url];
    }
    assert methodNameList[..|methodNameList|] == methodNameList;
  }

  /** A route pattern read back: the action segment and the typed parameters. */
  datatype RouteParts = RouteParts(action: string, params: seq<UrlParameter>)

  function ParseUrlParams(segments: seq<string>): Option<seq<UrlParameter>> {
    if segments == [] then Some([])
    else match (ParseUrlParam(segments[0]), ParseUrlParams(segments[1..]))
      case (Some(p), Some(ps)) => Some([p] + ps)
      case _ => None
  }

  /** Reads `action/seg1/.../segN/` back: drop the final `/`, split on `/`. */
  function ParseActionPart(body: string): Option<RouteParts> {
    if body == [] || body[|body| - 1] != '/' then None
    else
      var parts := Split(body[..|body| - 1], '/');
      match ParseUrlParams(parts[1..])
      case None => None
      case Some(ups) => Some(RouteParts(parts[0], ups))
  }

  /**
   * Reads a route pattern under `path` back into its action and parameters:
   * after `path` comes the `/` that `path` may lack, then the action part.
   */
  function ParseRoute(path: string, route: string): Option<RouteParts> {
    if !StartsWith(route, path) then None
    else
      var rest := route[|path|..];
      if EndsWith(path, "/") then ParseActionPart(rest)
      else if rest != [] && rest[0] == '/' then ParseActionPart(rest[1..])
      else None
  }

  /** A built segment in front of parsable segments parses as its parameter in front. */
  lemma ParseUrlParamsCons(p: UrlParameter, rest: seq<string>, ps: seq<UrlParameter>)
    requires ParseUrlParams(rest) == Some(ps)
    ensures ParseUrlParams([p.BuildUrlParam()] + rest) == Some([p] + ps)
  {
    var segments := [p.BuildUrlParam()] + rest;
    assert segments[0] == p.BuildUrlParam() && segments[1..] == rest;
    UrlParamRoundTrip(p);
  }

  lemma {:induction false} ParseSegments(ups: seq<UrlParameter>)
    ensures ParseUrlParams(Segments(ups)) == Some(ups)
  {
    if ups != [] {
      ParseSegments(ups[1..]);
      ParseUrlParamsCons(ups[0], Segments(ups[1..]), ups[1..]);
      assert [ups[0]] + ups[1..] == ups;
    }
  }

  lemma {:induction false} SegmentsWithoutSlash(ups: seq<UrlParameter>)
    requires forall k :: 0 <= k < |ups| ==> '/' !in ups[k].name
    ensures forall k :: 0 <= k < |ups| ==> '/' !in Segments(ups)[k]
  {
    if ups != [] {
      SegmentsWithoutSlash(ups[1..]);
    }
  }

  /** The action part reads back as its action and parameters when neither contains `/`. */
  lemma ActionPartRoundTrip(cleaned: string, ups: seq<UrlParameter>)
    requires '/' !in cleaned
    requires forall k :: 0 <= k < |ups| ==> '/' !in ups[k].name
    ensures ParseActionPart(ActionPart(cleaned, ups)) == Some(RouteParts(cleaned, ups))
  {
    var segs := Segments(ups);
    var body := ActionPart(cleaned, ups);
    SegmentsWithoutSlash(ups);
    var parts := [cleaned] + segs;
    assert parts[1..] == segs;
    if ups == [] {
      assert body[..|body| - 1] == cleaned == Join(parts, "/");
    } else {
      assert body[..|body| - 1] == cleaned + "/" + Join(segs, "/") == Join(parts, "/");
    }
    SplitJoin(parts, '/');
    ParseSegments(ups);
  }

  /**
   * Route synthesis is invertible: the route of an action whose name and
   * parameter names hold no `/` reads back as its cleaned name and its URL
   * parameters, in declaration order.
   */
  lemma RouteRoundTrip(path: string, name: string, sep: string, a: Attribute)
    requires '/' !in a.name
    requires forall k :: 0 <= k < |a.params| ==> '/' !in a.params[k].name
    ensures ParseRoute(path, RouteOf(path, name, sep, a).route)
            == Some(RouteParts(CleanedName(a.name), UrlParams(a.params)))
  {
    var cleaned := CleanedName(a.name);
    var ups := UrlParams(a.params);
    var ap := ActionPart(cleaned, ups);
    var route := RouteOf(path, name, sep, a).route;
    PathSuffixShape(path, cleaned, ups);
    assert route == path + PathSuffix(path, cleaned, ups);
    assert route == path + (Lead(path) + ap);
    assert route[..|path|] == path;
    assert route[|path|..] == Lead(path) + ap;
    if !EndsWith(path, "/") {
      assert (Lead(path) + ap)[1..] == ap;
    }
    ReplaceAllKeepsChars(a.name, HX_PREFIX, '/');
    UrlParamNamesFromSignature(a.params, '/');
    ActionPartRoundTrip(cleaned, ups);
  }

  /** The reverse name `name + sep + cleaned` gives back the action once the base and separator are known. */
  lemma ReverseNameRoundTrip(path: string, name: string, sep: string, a: Attribute)
    ensures var r := RouteOf(path, name, sep, a);
            StartsWith(r.urlName, name + sep) && r.urlName[|name + sep|..] == r.hxMethodName
  {
  }

  /** Which handler `dispatch` runs, with the arguments it passes on. */
  datatype Selection<R, A> =
    | CallHandler(handler: string, request: R, args: seq<A>, kwargs: map<string, A>)
    | DefaultDispatch(request: R, args: seq<A>, kwargs: map<string, A>)

  /** Python truthiness of `self.hx_method_name` (`None` or a string). */
  predicate Truthy(hxMethodName: Option<string>) {
    hxMethodName.Some? && hxMethodName.value != ""
  }

  /**
   * `HTMXViewMixin.dispatch`: when `hx_method_name` is set and the view has an
   * attribute `hx_<hx_method_name>`, that handler is called with the same
   * request and arguments; otherwise the framework's verb-based dispatch runs.
   * `attributes` is the set of names `hasattr(self, ...)` accepts.
   */
  function Dispatch<R, A>(hxMethodName: Option<string>, attributes: set<string>,
                          request: R, args: seq<A>, kwargs: map<string, A>): (s: Selection<R, A>)
    ensures s.CallHandler? <==> Truthy(hxMethodName) && HX_PREFIX + hxMethodName.value in attributes
    ensures s.CallHandler? ==> s.handler == HX_PREFIX + hxMethodName.value
    ensures s.request == request && s.args == args && s.kwargs == kwargs
  {
    if Truthy(hxMethodName) && HX_PREFIX + hxMethodName.value in attributes then
      CallHandler(HX_PREFIX + hxMethodName.value, request, args, kwargs)
    else
      DefaultDispatch(request, args, kwargs)
  }

  function AttributeNames(cls: seq<Attribute>): set<string> {
    set a | a in cls :: a.name
  }

  /**
   * A synthesized route dispatches to the action it was built for exactly when
   * the action's name after its `hx_` prefix is non-empty and holds no further
   * `hx_`: otherwise the cleaned name is empty (so `hx_method_name` is falsy)
   * or shorter than that remainder, and `"hx_" + cleaned` names something else.
   */
  lemma RouteSelectsItsHandler<R, A>(path: string, name: string, sep: string, cls: seq<Attribute>,
                                     k: nat, request: R, args: seq<A>, kwargs: map<string, A>)
    requires k < |Actions(cls)|
    ensures var a := Actions(cls)[k];
            var r := RouteOf(path, name, sep, a);
            Dispatch(Some(r.hxMethodName), AttributeNames(cls), request, args, kwargs)
              == CallHandler(a.name, request, args, kwargs)
            <==> a.name[|HX_PREFIX|..] != "" && !Contains(a.name[|HX_PREFIX|..], HX_PREFIX)
  {
    var a := Actions(cls)[k];
    var rest := a.name[|HX_PREFIX|..];
    var cleaned := CleanedName(a.name);
    assert a.name[..|HX_PREFIX|] == HX_PREFIX;
    assert cleaned == ReplaceAll(rest, HX_PREFIX, "");
    assert HX_PREFIX + rest == a.name;
    assert a.name in AttributeNames(cls);
    ReplaceAllRemoves(rest, HX_PREFIX);
    if rest != "" && !Contains(rest, HX_PREFIX) {
      ReplaceAllNoMatch(rest, HX_PREFIX, "");
    }
  }
}
