/**
 * `register_htmx_view` from htmx_view/utils.py: a decorator that lets an
 * action run only for requests with the configured HTTP method and answers
 * every other request with an empty 405 response.
 */
module HtmxUtils {
  import opened Wrappers
  import opened Http
  import Mixins

  /** The configured method: `Literal["GET", "POST"]`. */
  type AllowedMethod = m: string | m == "GET" || m == "POST" witness "GET"

  /** What `wrap` receives: `self`, the request, `*args` and `**kwargs`. */
  datatype Call<S, A> = Call(self: S, request: Request, args: seq<A>, kwargs: map<string, A>)

  /** `HttpResponse("", status=405)`. */
  function MethodNotAllowed<B>(): Response<B> {
    Response(405, map[], Empty)
  }

  /**
   * `wrap`, the function the decorator returns for an action configured with
   * `method`: a request whose method differs, by exact comparison, gets an
   * empty 405 response and the action is not consulted; otherwise the result
   * is exactly the action's on the same call.
   */
  function Wrap<S, A, B>(allowed: AllowedMethod, action: Call<S, A> -> Response<B>, call: Call<S, A>): (r: Response<B>)
    ensures call.request.verb != allowed ==> r.status == 405 && r.headers == map[] && r.body == Empty
    ensures call.request.verb == allowed ==> r == action(call)
  {
    if call.request.verb != allowed then MethodNotAllowed() else action(call)
  }

  /**
   * The gate's decision reads only the request's method: a rejected call gets
   * the same response whatever the action, the other request fields, the
   * arguments and `self`.
   */
  lemma RejectionIgnoresEverythingElse<S, A, B>(allowed: AllowedMethod,
                                                action1: Call<S, A> -> Response<B>, call1: Call<S, A>,
                                                action2: Call<S, A> -> Response<B>, call2: Call<S, A>)
    requires call1.request.verb == call2.request.verb != allowed
    ensures Wrap(allowed, action1, call1) == Wrap(allowed, action2, call2)
  {
  }

  /**
   * The decorated method as route synthesis sees it: `functools.wraps` keeps
   * the name and points `inspect.signature` at the action's own parameters,
   * so only the gate changes.
   */
  function Decorate(allowed: AllowedMethod, f: Mixins.Attribute): Mixins.Attribute {
    f.(isCallable := true, gate := Some(allowed))
  }

  /** Decorating an action method leaves the synthesized routes unchanged. */
  lemma DecoratingKeepsRoutes(path: string, name: string, sep: string, cls: seq<Mixins.Attribute>,
                              k: nat, allowed: AllowedMethod)
    requires k < |cls| && cls[k].isCallable
    ensures Mixins.Routes(path, name, sep, cls[k := Decorate(allowed, cls[k])])
            == Mixins.Routes(path, name, sep, cls)
  {
    var decorated := cls[k := Decorate(allowed, cls[k])];
    assert forall j :: 0 <= j < |cls| ==> Mixins.SeenAlike(decorated[j], cls[j]);
    Mixins.RoutesSeeOnlySignatures(path, name, sep, decorated, cls);
  }
}
