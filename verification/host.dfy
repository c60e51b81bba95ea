/**
 * What the surrounding Python runtime and the werkzeug toolkit supply to the
 * views: opaque Python objects, requests, responses, the environment that
 * hands out template renderers, and the behaviour of the wrapped callables.
 * None of it is implemented by the views; it is only passed around.
 */
module Host {
  import opened Wrappers

  /** A Python object an action may return; only its identity matters here. */
  datatype Value = Value(id: nat)

  /** A Python callable (a decorated function, or a bound method of a class
      view), identified by object identity. */
  datatype Func = Func(id: nat)

  /** A werkzeug request; the views never look inside it. */
  datatype Request = Request(id: nat)

  /** A werkzeug `Response`. `contentType == None` stands for the content type
      werkzeug picks when the constructor is given none. */
  datatype Response = Response(body: string, contentType: Option<string>)

  /** What an action returns: an already formed `Response`, or any other value. */
  datatype Outcome = Resp(response: Response) | Plain(value: Value)

  /** The application environment; `getRenderer(template)` is the render
      function `env.get_renderer(template)` returns. */
  datatype Env = Env(getRenderer: Option<string> -> Value -> string)

  /** The arguments a view is called with: `(env, req, *args, **kwargs)`. */
  datatype Invocation = Invocation(env: Env, req: Request, args: seq<Value>, kwargs: map<string, Value>)

  /** Behaviour the views cannot see: what calling each Python callable with an
      invocation returns, and the JSON encoder `json.dumps`. */
  datatype Runtime = Runtime(run: (Func, Invocation) -> Outcome, dumps: Value -> string)
}
