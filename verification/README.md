# werkzeug_dispatch views, modelled in Dafny

werkzeug_dispatch lets an application bind named views to HTTP methods and
content types on top of werkzeug. Its own logic is in
`werkzeug_dispatch/views.py`, and that is what this project models:

- how a `View` (and its subclasses `TemplateView` and `JsonView`) turns its set
  of methods into `Binding` records (name, callable, method, content type);
- how `ClassView` turns the candidate methods GET, HEAD, POST, PUT and DELETE
  that an instance defines into bindings;
- what calling a view returns: `View` passes on its action's result, while
  `TemplateView` and `JsonView` return a werkzeug `Response` unchanged and wrap
  anything else, either rendered through the environment's template renderer
  or JSON-encoded with content type `text/json`;
- what the initialisers accept and default (`methods={'GET'}`,
  `content_type=None`, `template=None`), and the `TypeError` raised for
  arguments they do not accept;
- the decorators `expose`, `expose_html` and `expose_json`. Each registers
  exactly one view with a dispatcher and hands back the decorated function.
  `expose_html` supplies `content_type="text/html"` when the caller gave none.

Files:

- `wrappers.dfy`: `Option` and `Result`.
- `host.dfy`: what werkzeug and the Python runtime supply. Python objects and
  callables are identified only by identity. A `Runtime` gives what each
  callable returns for an invocation, and the JSON encoder. An `Env` gives the
  template renderer.
- `dispatch.dfy`: the dispatcher, as a class whose registry is a sequence that
  `Add` appends to.
- `views.dfy`: the views, the initialisers, `__call__` and the decorators.
- `view_properties.dfy`: lemmas about binding counts, defaults, nesting of
  views and registration.

Views are never changed after construction, so they are datatype values. The
kind of a view (`PlainView`, `TemplateView(template)`, `JsonView`) selects
which `__call__` applies. The decorators change the dispatcher, so they are
methods with `modifies dispatcher`. `expose_html` rewrites its keyword
dictionary before forwarding it, and `ExposeHtml` does the same on a local map.
Bindings are sets, because the source iterates over sets, whose order Python
leaves unspecified.

Observed in the source, and modelled as written:

- `JsonView.__init__` accepts only `methods`. So `expose_json` called with
  `content_type` or `template` raises `TypeError`, and a JSON view's content
  type is always `text/json`.
- `TemplateView.__call__` does not use the view's own `content_type` when it
  wraps a rendered value. The response gets werkzeug's default content type.
  The view's content type only reaches its bindings.

## Model

| member | source | states |
|---|---|---|
| `Views.View.GetBindings` | werkzeug_dispatch/views.py:28-32 | the methods named by the bindings are exactly the view's methods; every binding has the view's name, the view itself as callable and the view's content type |
| `Views.View.Call` | werkzeug_dispatch/views.py:25-26 | a plain view returns its action's result unmodified; a response from the action is returned unchanged by every kind of view; template and JSON views always return a response, and a JSON view's response has content type "text/json" unless the action produced the response |
| `Views.ClassView.GetBindings` | werkzeug_dispatch/views.py:94-99 | the bindings' methods are exactly the candidates GET, HEAD, POST, PUT, DELETE that the instance has as attributes; each invokes that attribute, carries the instance's name and has no content type |
| `Views.CheckArguments` | werkzeug_dispatch/views.py:19 | calling an initialiser with keyword-only parameters succeeds exactly when no extra positional argument and no unknown keyword is given; an unknown keyword is the error reported when both are wrong |
| `Views.NewView` | werkzeug_dispatch/views.py:19-23 | `View(...)` succeeds exactly when only `methods` and `content_type` are passed as keywords; it keeps name and action, and `methods` defaults to {"GET"} and `content_type` to None |
| `Views.NewTemplateView` | werkzeug_dispatch/views.py:46-53 | `TemplateView(...)` accepts exactly the keywords `methods`, `template`, `content_type`, with defaults {"GET"}, None, None, and keeps name and action |
| `Views.NewJsonView` | werkzeug_dispatch/views.py:76-78 | `JsonView(...)` accepts only the keyword `methods` (default {"GET"}) and its content type is always "text/json" |
| `Views.CallView` | werkzeug_dispatch/views.py:25-26 | calling a plain view gives its action's result for the same invocation, unmodified |
| `Views.CallTemplate` | werkzeug_dispatch/views.py:55-59 | a response from the action is returned unchanged; any other value becomes a response whose body is the template renderer's output for that value, with werkzeug's default content type |
| `Views.CallJson` | werkzeug_dispatch/views.py:80-84 | a response from the action is returned unchanged; any other value becomes a response whose body is its JSON encoding and whose content type is "text/json" |
| `Views.Expose` | werkzeug_dispatch/views.py:62-66 | on success exactly one template view, built from the given name, function and arguments, is appended to the registry and the function itself is returned; on a `TypeError` the registry is unchanged; nothing but the dispatcher is modified |
| `Views.HtmlDefaults` | werkzeug_dispatch/views.py:69-71 | the forwarded keywords are the caller's plus `content_type`; every keyword the caller gave keeps its value, and `content_type` is "text/html" only when the caller gave none |
| `Views.ExposeHtml` | werkzeug_dispatch/views.py:69-72 | behaves as `Expose` with the keywords after the "text/html" default is applied |
| `Views.ExposeJson` | werkzeug_dispatch/views.py:87-91 | on success exactly one JSON view is appended to the registry and the function itself is returned; on a `TypeError` the registry is unchanged |
| `Dispatch.Dispatcher.Add` | werkzeug_dispatch/views.py:64 | `dispatcher.add`, as the decorators use it: the registry grows by exactly the given factory |
| `ViewProperties.CountByMethod` | werkzeug_dispatch/views.py:28-32 | a set of bindings in which no two share a method has exactly one binding per method |
| `ViewProperties.ViewBindingCount` | werkzeug_dispatch/views.py:28-32 | a view yields exactly as many bindings as it has methods |
| `ViewProperties.ViewBindingsDifferOnlyInMethod` | werkzeug_dispatch/views.py:28-32 | all bindings of a view share its name, callable and content type, and two bindings differ exactly when their methods differ |
| `ViewProperties.TwoMethodView` | werkzeug_dispatch/views.py:28-32 | a view with methods {GET, POST} yields exactly two bindings, one per method, with the same name and content type |
| `ViewProperties.DefaultMethodsGiveOneGetBinding` | werkzeug_dispatch/views.py:19 | a view with the default methods yields one binding, for GET |
| `ViewProperties.UnspecifiedMethodsMeanGet` | werkzeug_dispatch/views.py:47 | a `View`, `TemplateView` or `JsonView` built without `methods` yields exactly one binding, for GET |
| `ViewProperties.JsonBindingsCarryTextJson` | werkzeug_dispatch/views.py:76-78 | every binding of a JSON view carries "text/json", and passing `content_type` to a JSON view raises `TypeError` |
| `ViewProperties.ClassViewBindingCount` | werkzeug_dispatch/views.py:94-99 | a class view yields one binding per candidate method it defines, so at most five |
| `ViewProperties.ClassViewWithGetAndPost` | werkzeug_dispatch/views.py:96-99 | an instance defining only GET and POST among the candidates yields exactly two bindings, invoking those two attributes |
| `ViewProperties.NestedViewsKeepInnerResponse` | werkzeug_dispatch/views.py:57-58 | a template or JSON view whose action calls another template or JSON view returns the inner view's response unchanged |
| `ViewProperties.ExposeHtmlDefaultsContentType` | werkzeug_dispatch/views.py:69-72 | `expose_html` builds the same view as `expose` would from the same arguments, except that its content type is "text/html" when the caller gave none; an explicit content type, even None, is kept |
| `ViewProperties.RegistersAppendsOne` | werkzeug_dispatch/views.py:62-66 | a decorator keeps every earlier registration, appends at most one view (exactly one on success) and returns the decorated function on success |

## Left out

- `werkzeug_dispatch/__init__.py` only re-exports names. It has no logic to model.
- The dispatcher's routing, and the modules `werkzeug_dispatch.bindings` and `werkzeug_dispatch.dispatch`, are not part of this model. `Binding` is modelled as its record shape, and `Dispatcher.add` as an append to a registry.
- `json.dumps` is an uninterpreted total function. Its `TypeError` on values that cannot be serialised is not modelled.
- Template rendering is the uninterpreted `Env.getRenderer`. A template given as a callable is not modelled. Only a template name or None is.
- Exceptions raised by an action are not modelled. They propagate through every view unchanged.
- `Views.NewView`, `Views.NewTemplateView`, `Views.NewJsonView` require keyword values of the documented types (`WellTyped`). A `methods` given as a list or tuple (which may repeat a method and then yield repeated bindings), or as a string, is not modelled.
- `Views.CheckArguments` does not model passing `name` or `action` again by keyword. Python reports that as a different `TypeError` message, and here it is an unexpected keyword. Nor does it model the text of the messages.
- `Views.ExposeHtml` takes the dispatcher and name as separate parameters. Passing them to `expose_html` by keyword is not modelled.
- `Views.Expose`, `Views.ExposeHtml`, `Views.ExposeJson` combine building the decorator and applying it to the function. In the source these are two calls, and building the decorator alone has no effect.
- `Views.ClassView.GetBindings` models `hasattr`/`getattr` as a map from attribute names to callables. The instance's `name` is a field that a subclass supplies, and the source never sets it. Attribute lookups that run code (properties, `__getattr__`) are not modelled.
- The order in which bindings are yielded is not modelled, because Python's set iteration order is unspecified. Bindings are sets.
- The `Response` is only its body and content type. werkzeug's default content type is represented as `None`.
