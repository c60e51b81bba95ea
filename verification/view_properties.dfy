/**
 * Properties of the views that relate several calls or hold for all inputs:
 * how many bindings a view yields and what they share, the defaults the
 * initialisers and `expose_html` apply, and how responses pass through
 * nested views.
 */
module ViewProperties {
  import opened Wrappers
  import opened Host
  import opened Views

  // ---------------------------------------------------------------------------
  // Bindings

  /** A set of bindings with no two sharing a method has one binding per method. */
  lemma {:induction false} CountByMethod(bs: set<Binding>)
    requires OnePerMethod(bs)
    ensures |MethodsOf(bs)| == |bs|
  {
    if bs != {} {
      var b :| b in bs;
      var rest := bs - {b};
      assert OnePerMethod(rest);
      CountByMethod(rest);
      assert MethodsOf(bs) == MethodsOf(rest) + {b.httpMethod};
      assert b.httpMethod !in MethodsOf(rest);
    }
  }

  /** A view yields exactly as many bindings as it has methods. */
  lemma ViewBindingCount(v: View)
    ensures |v.GetBindings()| == |v.methods|
  {
    CountByMethod(v.GetBindings());
  }

  /** The bindings of a view share its name, the view itself as callable and its
      content type, and two of them differ exactly when their methods do. */
  lemma ViewBindingsDifferOnlyInMethod(v: View)
    ensures forall b | b in v.GetBindings() ::
      b.name == v.name && b.callable == ViewItself(v) && b.contentType == v.contentType
    ensures forall b1, b2 | b1 in v.GetBindings() && b2 in v.GetBindings() ::
      b1 == b2 <==> b1.httpMethod == b2.httpMethod
  {
  }

  /** A view configured with methods GET and POST yields exactly two bindings,
      one for each, with the same name and content type. */
  lemma TwoMethodView(v: View)
    requires v.methods == {"GET", "POST"}
    ensures |v.GetBindings()| == 2
    ensures v.GetBindings() == {Binding(v.name, ViewItself(v), "GET", v.contentType),
                                Binding(v.name, ViewItself(v), "POST", v.contentType)}
  {
    ViewBindingCount(v);
    var get := Binding(v.name, ViewItself(v), "GET", v.contentType);
    var post := Binding(v.name, ViewItself(v), "POST", v.contentType);
    assert get.httpMethod in MethodsOf(v.GetBindings());
    assert post.httpMethod in MethodsOf(v.GetBindings());
  }

  /** A view whose methods are the default has a single binding, for GET. */
  lemma DefaultMethodsGiveOneGetBinding(v: View)
    requires v.methods == DefaultMethods
    ensures v.GetBindings() == {Binding(v.name, ViewItself(v), "GET", v.contentType)}
  {
  }

  /** Every initialiser called without `methods` builds a view with a single
      binding, for GET. */
  lemma UnspecifiedMethodsMeanGet(name: string, action: Func, args: seq<Arg>, kwargs: map<string, Arg>)
    requires WellTyped(kwargs) && "methods" !in kwargs
    ensures NewView(name, action, args, kwargs).Success? ==>
      var v := NewView(name, action, args, kwargs).value;
      v.GetBindings() == {Binding(name, ViewItself(v), "GET", v.contentType)}
    ensures NewTemplateView(name, action, args, kwargs).Success? ==>
      var v := NewTemplateView(name, action, args, kwargs).value;
      v.GetBindings() == {Binding(name, ViewItself(v), "GET", v.contentType)}
    ensures NewJsonView(name, action, args, kwargs).Success? ==>
      var v := NewJsonView(name, action, args, kwargs).value;
      v.GetBindings() == {Binding(name, ViewItself(v), "GET", Some("text/json"))}
  {
  }

  /** Every binding of a JSON view carries "text/json"; a caller cannot choose
      another content type, since the initialiser rejects the keyword. */
  lemma JsonBindingsCarryTextJson(name: string, action: Func, args: seq<Arg>, kwargs: map<string, Arg>)
    requires WellTyped(kwargs)
    ensures NewJsonView(name, action, args, kwargs).Success? ==>
      forall b | b in NewJsonView(name, action, args, kwargs).value.GetBindings() :: b.contentType == Some("text/json")
    ensures "content_type" in kwargs ==> NewJsonView(name, action, args, kwargs) == Failure(UnexpectedKeyword)
  {
  }

  /** A class view yields one binding per candidate method it defines, so at
      most five. */
  lemma ClassViewBindingCount(c: ClassView)
    ensures |c.GetBindings()| == |ClassViewMethods * c.attributes.Keys|
    ensures |c.GetBindings()| <= 5
  {
    CountByMethod(c.GetBindings());
    assert |ClassViewMethods| == 5;
    assert ClassViewMethods * c.attributes.Keys <= ClassViewMethods;
  }

  /** A class view defining only GET and POST among the candidates yields
      exactly two bindings, invoking those two attributes. */
  lemma ClassViewWithGetAndPost(c: ClassView)
    requires "GET" in c.attributes && "POST" in c.attributes
    requires "HEAD" !in c.attributes && "PUT" !in c.attributes && "DELETE" !in c.attributes
    ensures |c.GetBindings()| == 2
    ensures c.GetBindings() == {Binding(c.name, Attribute(c.attributes["GET"]), "GET", None),
                                Binding(c.name, Attribute(c.attributes["POST"]), "POST", None)}
  {
    assert ClassViewMethods * c.attributes.Keys == {"GET", "POST"};
    ClassViewBindingCount(c);
    assert "GET" in MethodsOf(c.GetBindings());
    assert "POST" in MethodsOf(c.GetBindings());
  }

  // ---------------------------------------------------------------------------
  // Calling views

  /** A template or JSON view whose action calls another template or JSON view
      returns that view's response unchanged: wrapping a response is a no-op. */
  lemma NestedViewsKeepInnerResponse(outer: View, inner: View, rt: Runtime, inv: Invocation)
    requires !outer.kind.PlainView? && !inner.kind.PlainView?
    requires rt.run(outer.action, inv) == inner.Call(rt, inv)
    ensures outer.Call(rt, inv) == inner.Call(rt, inv)
  {
  }

  // ---------------------------------------------------------------------------
  // Registering views

  /** `expose_html` builds the view `expose` would build from the same
      arguments, except that the content type defaults to "text/html"; an
      explicit content type, even None, is kept. */
  lemma ExposeHtmlDefaultsContentType(name: string, f: Func, args: seq<Arg>, kwargs: map<string, Arg>)
    requires WellTyped(kwargs)
    ensures WellTyped(HtmlDefaults(kwargs))
    ensures NewTemplateView(name, f, args, HtmlDefaults(kwargs)).Success?
        <==> NewTemplateView(name, f, args, kwargs).Success?
    ensures NewTemplateView(name, f, args, kwargs).Success? ==>
      var plain := NewTemplateView(name, f, args, kwargs).value;
      var html := NewTemplateView(name, f, args, HtmlDefaults(kwargs)).value;
      && html.contentType == (if "content_type" in kwargs then plain.contentType else Some("text/html"))
      && html == plain.(contentType := html.contentType)
  {
  }

  /** Registering appends at most one view, keeps everything registered before,
      and a successful registration hands back the decorated function. */
  lemma RegistersAppendsOne(made: Result<View, TypeError>, f: Func,
                            before: seq<View>, after: seq<View>, r: Result<Func, TypeError>)
    requires Registers(made, f, before, after, r)
    ensures r.Success? <==> made.Success?
    ensures r.Success? ==> r.value == f && |after| == |before| + 1 && after[|before|] == made.value
    ensures r.Failure? ==> after == before
    ensures after[..|before|] == before
  {
  }
}
