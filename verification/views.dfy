/**
 * The views of werkzeug_dispatch: wrappers that turn a plain function into
 * bindings (name, callable, HTTP method, content type) for a dispatcher, the
 * rules by which a view post-processes what its function returns, and the
 * `expose` decorators that register views with a dispatcher.
 *
 * A view is never changed after it is built, so views are values here. The
 * four Python classes become one datatype whose `kind` says which `__call__`
 * applies; `ClassView` is a separate datatype because it shares nothing with
 * `View` but the binding-factory role.
 */
module Views {
  import opened Wrappers
  import opened Host
  import Dispatch

  /** A value passed to a view initialiser, after `name` and `action`. Only the
      three shapes the initialisers document are modelled. */
  datatype Arg = MethodSet(methods: set<string>) | Text(text: string) | NoneArg

  /** The `TypeError` Python raises when an initialiser is called with
      arguments it does not accept. */
  datatype TypeError = UnexpectedKeyword | TooManyPositional

  /** Which class a view is an instance of, with the state only that class has. */
  datatype ViewKind = PlainView | TemplateView(template: Option<string>) | JsonView

  /** An instance of `View` or one of its subclasses. */
  datatype View = View(kind: ViewKind, name: string, action: Func, methods: set<string>, contentType: Option<string>)
  {
    /** `get_bindings`: one binding per configured method, each with the view
        itself as its callable. */
    function GetBindings(): (bs: set<Binding>)
      ensures MethodsOf(bs) == methods
      ensures forall b | b in bs :: b == Binding(name, ViewItself(this), b.httpMethod, contentType)
    {
      var bs := set m | m in methods :: Binding(name, ViewItself(this), m, contentType);
      assert forall m | m in methods :: Binding(name, ViewItself(this), m, contentType) in bs;
      bs
    }

    /** `__call__(env, req, *args, **kwargs)`, dispatched on the view's class. */
    function Call(rt: Runtime, inv: Invocation): (r: Outcome)
      ensures kind.PlainView? ==> r == rt.run(action, inv)
      ensures rt.run(action, inv).Resp? ==> r == rt.run(action, inv)
      ensures !kind.PlainView? ==> r.Resp?
      ensures kind.JsonView? ==> r.response.contentType == Some(JsonContentType) || rt.run(action, inv).Resp?
    {
      match kind
      case PlainView => CallView(this, rt, inv)
      case TemplateView(template) => Resp(CallTemplate(this, template, rt, inv))
      case JsonView => Resp(CallJson(this, rt, inv))
    }
  }

  /** What a binding invokes: a whole view, or an attribute of a class view. */
  datatype Callable = ViewItself(view: View) | Attribute(f: Func)

  /** The record a binding factory yields for the dispatcher. */
  datatype Binding = Binding(name: string, callable: Callable, httpMethod: string, contentType: Option<string>)

  /** An instance of a `ClassView` subclass: the `name` the subclass supplies
      and the attributes `hasattr`/`getattr` find on the instance. */
  datatype ClassView = ClassView(name: string, attributes: map<string, Func>)
  {
    /** `get_bindings`: one binding per candidate method the instance has as an
        attribute, invoking that attribute, with no content type. */
    function GetBindings(): (bs: set<Binding>)
      ensures MethodsOf(bs) == ClassViewMethods * attributes.Keys
      ensures forall b | b in bs ::
        b.httpMethod in attributes && b == Binding(name, Attribute(attributes[b.httpMethod]), b.httpMethod, None)
    {
      var bs := set m | m in ClassViewMethods && m in attributes :: Binding(name, Attribute(attributes[m]), m, None);
      assert forall m | m in ClassViewMethods && m in attributes :: Binding(name, Attribute(attributes[m]), m, None) in bs;
      bs
    }
  }

  const DefaultMethods: set<string> := {"GET"}
  const ClassViewMethods: set<string> := {"GET", "HEAD", "POST", "PUT", "DELETE"}
  const JsonContentType := "text/json"
  const HtmlContentType := "text/html"

  /** The methods named by a set of bindings. */
  function MethodsOf(bs: set<Binding>): set<string>
  {
    set b | b in bs :: b.httpMethod
  }

  /** No two distinct bindings share a method. */
  ghost predicate OnePerMethod(bs: set<Binding>)
  {
    forall b1, b2 | b1 in bs && b2 in bs && b1.httpMethod == b2.httpMethod :: b1 == b2
  }

  // ---------------------------------------------------------------------------
  // Construction

  /** Keyword values have the types the initialisers document: `methods` a set
      of method names, `template` and `content_type` a string or None. */
  predicate WellTyped(kwargs: map<string, Arg>)
  {
    && ("methods" in kwargs ==> kwargs["methods"].MethodSet?)
    && ("template" in kwargs ==> !kwargs["template"].MethodSet?)
    && ("content_type" in kwargs ==> !kwargs["content_type"].MethodSet?)
  }

  /** Python's binding of the arguments after `name` and `action` to an
      initialiser whose other parameters are the keyword-only `accepted`:
      keywords are checked before the positional count. */
  function CheckArguments(args: seq<Arg>, kwargs: map<string, Arg>, accepted: set<string>): (e: Option<TypeError>)
    ensures e == None <==> |args| == 0 && kwargs.Keys <= accepted
    ensures e == Some(UnexpectedKeyword) <==> !(kwargs.Keys <= accepted)
  {
    if !(kwargs.Keys <= accepted) then Some(UnexpectedKeyword)
    else if |args| != 0 then Some(TooManyPositional)
    else None
  }

  /** The `methods` keyword, defaulting to `{'GET'}`. */
  function MethodsArg(kwargs: map<string, Arg>): set<string>
    requires WellTyped(kwargs)
  {
    if "methods" in kwargs then kwargs["methods"].methods else DefaultMethods
  }

  /** A string-or-None keyword, defaulting to None. */
  function TextArg(kwargs: map<string, Arg>, key: string): Option<string>
    requires key in kwargs ==> !kwargs[key].MethodSet?
  {
    if key in kwargs && kwargs[key].Text? then Some(kwargs[key].text) else None
  }

  /** `View(name, action, *args, **kwargs)`. */
  function NewView(name: string, action: Func, args: seq<Arg>, kwargs: map<string, Arg>): (r: Result<View, TypeError>)
    requires WellTyped(kwargs)
    ensures r.Success? <==> |args| == 0 && kwargs.Keys <= {"methods", "content_type"}
    ensures r.Success? ==> r.value.kind == PlainView && r.value.name == name && r.value.action == action
    ensures r.Success? && "methods" !in kwargs ==> r.value.methods == {"GET"}
    ensures r.Success? && "methods" in kwargs ==> r.value.methods == kwargs["methods"].methods
    ensures r.Success? && "content_type" !in kwargs ==> r.value.contentType == None
    ensures r.Success? && "content_type" in kwargs ==>
      r.value.contentType == (if kwargs["content_type"].Text? then Some(kwargs["content_type"].text) else None)
  {
    match CheckArguments(args, kwargs, {"methods", "content_type"})
    case Some(e) => Failure(e)
    case None => Success(View(PlainView, name, action, MethodsArg(kwargs), TextArg(kwargs, "content_type")))
  }

  /** `TemplateView(name, action, *args, **kwargs)`. */
  function NewTemplateView(name: string, action: Func, args: seq<Arg>, kwargs: map<string, Arg>): (r: Result<View, TypeError>)
    requires WellTyped(kwargs)
    ensures r.Success? <==> |args| == 0 && kwargs.Keys <= {"methods", "template", "content_type"}
    ensures r.Success? ==> r.value.kind.TemplateView? && r.value.name == name && r.value.action == action
    ensures r.Success? && "methods" !in kwargs ==> r.value.methods == {"GET"}
    ensures r.Success? && "methods" in kwargs ==> r.value.methods == kwargs["methods"].methods
    ensures r.Success? && "template" !in kwargs ==> r.value.kind.template == None
    ensures r.Success? && "template" in kwargs ==>
      r.value.kind.template == (if kwargs["template"].Text? then Some(kwargs["template"].text) else None)
    ensures r.Success? && "content_type" !in kwargs ==> r.value.contentType == None
    ensures r.Success? && "content_type" in kwargs ==>
      r.value.contentType == (if kwargs["content_type"].Text? then Some(kwargs["content_type"].text) else None)
  {
    match CheckArguments(args, kwargs, {"methods", "template", "content_type"})
    case Some(e) => Failure(e)
    case None =>
      var template := TextArg(kwargs, "template");
      Success(View(TemplateView(template), name, action, MethodsArg(kwargs), TextArg(kwargs, "content_type")))
  }

  /** `JsonView(name, action, *args, **kwargs)`: only `methods` is accepted and
      the content type is always "text/json". */
  function NewJsonView(name: string, action: Func, args: seq<Arg>, kwargs: map<string, Arg>): (r: Result<View, TypeError>)
    requires WellTyped(kwargs)
    ensures r.Success? <==> |args| == 0 && kwargs.Keys <= {"methods"}
    ensures r.Success? ==> r.value.kind == JsonView && r.value.name == name && r.value.action == action
    ensures r.Success? ==> r.value.contentType == Some("text/json")
    ensures r.Success? && "methods" !in kwargs ==> r.value.methods == {"GET"}
    ensures r.Success? && "methods" in kwargs ==> r.value.methods == kwargs["methods"].methods
  {
    match CheckArguments(args, kwargs, {"methods"})
    case Some(e) => Failure(e)
    case None => Success(View(JsonView, name, action, MethodsArg(kwargs), Some(JsonContentType)))
  }

  // ---------------------------------------------------------------------------
  // Calling a view

  /** `View.__call__`: the action's result, whatever it is. */
  function CallView(v: View, rt: Runtime, inv: Invocation): (r: Outcome)
    ensures r == rt.run(v.action, inv)
  {
    rt.run(v.action, inv)
  }

  /** `TemplateView.__call__`: a response is returned as it is; any other value
      is rendered by the environment's renderer for the template and wrapped in
      a response of werkzeug's default content type. */
  function CallTemplate(v: View, template: Option<string>, rt: Runtime, inv: Invocation): (r: Response)
    ensures rt.run(v.action, inv).Resp? ==> r == rt.run(v.action, inv).response
    ensures rt.run(v.action, inv).Plain? ==>
      r.body == inv.env.getRenderer(template)(rt.run(v.action, inv).value) && r.contentType == None
  {
    var res := rt.run(v.action, inv);
    if res.Resp? then res.response
    else Response(inv.env.getRenderer(template)(res.value), None)
  }

  /** `JsonView.__call__`: a response is returned as it is; any other value is
      JSON-encoded into a response of content type "text/json". */
  function CallJson(v: View, rt: Runtime, inv: Invocation): (r: Response)
    ensures rt.run(v.action, inv).Resp? ==> r == rt.run(v.action, inv).response
    ensures rt.run(v.action, inv).Plain? ==>
      r.body == rt.dumps(rt.run(v.action, inv).value) && r.contentType == Some("text/json")
  {
    var res := CallView(v, rt, inv);
    if res.Resp? then res.response
    else Response(rt.dumps(res.value), Some(JsonContentType))
  }

  // ---------------------------------------------------------------------------
  // Registering views

  /** The effect of applying an `expose*` decorator to `f`, given the view the
      decorator builds (or the error building it raised): on success the view
      is appended to the registry and `f` itself is returned; on failure the
      registry is left as it was and the error propagates. */
  ghost predicate Registers(made: Result<View, TypeError>, f: Func,
                            before: seq<View>, after: seq<View>, r: Result<Func, TypeError>)
  {
    match made
    case Success(v) => r == Success(f) && after == before + [v]
    case Failure(e) => r == Failure(e) && after == before
  }

  /** `expose(dispatcher, name, *args, **kwargs)` applied to `f`. */
  method Expose(dispatcher: Dispatch.Dispatcher<View>, name: string, args: seq<Arg>, kwargs: map<string, Arg>, f: Func)
    returns (r: Result<Func, TypeError>)
    requires WellTyped(kwargs)
    modifies dispatcher
    ensures Registers(NewTemplateView(name, f, args, kwargs), f, old(dispatcher.factories), dispatcher.factories, r)
  {
    var view := NewTemplateView(name, f, args, kwargs);
    match view
    case Failure(e) =>
      r := Failure(e);
    case Success(v) =>
      dispatcher.Add(v);
      r := Success(f);
  }

  /** The keyword arguments `expose_html` forwards: `content_type` set to
      "text/html" when the caller gave none, every other entry unchanged. */
  function HtmlDefaults(kwargs: map<string, Arg>): (kw: map<string, Arg>)
    ensures kw.Keys == kwargs.Keys + {"content_type"}
    ensures forall k | k in kwargs :: kw[k] == kwargs[k]
    ensures "content_type" !in kwargs ==> kw["content_type"] == Text("text/html")
  {
    if "content_type" in kwargs then kwargs else kwargs["content_type" := Text(HtmlContentType)]
  }

  /** `expose_html(dispatcher, name, *args, **kwargs)` applied to `f`. */
  method ExposeHtml(dispatcher: Dispatch.Dispatcher<View>, name: string, args: seq<Arg>, kwargs: map<string, Arg>, f: Func)
    returns (r: Result<Func, TypeError>)
    requires WellTyped(kwargs)
    modifies dispatcher
    ensures WellTyped(HtmlDefaults(kwargs))
    ensures Registers(NewTemplateView(name, f, args, HtmlDefaults(kwargs)), f, old(dispatcher.factories), dispatcher.factories, r)
  {
    var kw := kwargs;
    if "content_type" !in kw {
      kw := kw["content_type" := Text(HtmlContentType)];
    }
    r := Expose(dispatcher, name, args, kw, f);
  }

  /** `expose_json(dispatcher, name, *args, **kwargs)` applied to `f`. */
  method ExposeJson(dispatcher: Dispatch.Dispatcher<View>, name: string, args: seq<Arg>, kwargs: map<string, Arg>, f: Func)
    returns (r: Result<Func, TypeError>)
    requires WellTyped(kwargs)
    modifies dispatcher
    ensures Registers(NewJsonView(name, f, args, kwargs), f, old(dispatcher.factories), dispatcher.factories, r)
  {
    var view := NewJsonView(name, f, args, kwargs);
    match view
    case Failure(e) =>
      r := Failure(e);
    case Success(v) =>
      dispatcher.Add(v);
      r := Success(f);
  }
}
