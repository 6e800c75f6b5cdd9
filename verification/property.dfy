/** A plugin property: an expression rendered and converted to its target
    type on first use, with the converted value cached afterwards. On the
    wire a property is its expression alone. */
module Properties {
  import opened Wrappers

  /** `expression` is what is serialised; `value` is the cache, `None` while
      it holds Java's `null`. */
  datatype Property<T> = Property(expression: string, value: Option<T>)

  /** What `as` can throw: the renderer's failure, or the conversion's. */
  datatype PropertyError = RenderError(message: string) | ConversionError(message: string)

  /** The run context's renderer: an expression to its rendering, or the
      reason it could not be rendered. */
  type Renderer = string -> Result<string, string>

  /** Conversion of a rendered string to the target type; `Success(None)`
      is a conversion that yields `null`. */
  type Converter<T> = string -> Result<Option<T>, string>

  /** The property after a call to `as`, what the call returned, and whether
      it invoked the renderer. */
  datatype Resolution<T> = Resolution(property: Property<T>,
                                      result: Result<Option<T>, PropertyError>,
                                      rendered: bool)

  /** The package constructor used by the deserializer: an expression and
      an empty cache. */
  function FromExpression<T>(expression: string): (p: Property<T>)
    ensures p.expression == expression
    ensures p.value.None?
  {
    Property(expression, None)
  }

  /** A property holding a literal: its encoding as the expression, so that
      it survives serialisation, and the literal itself in the cache. */
  function Of<T>(v: T, encode: T -> string): (p: Property<T>)
    ensures p.value == Some(v)
    ensures Serialize(p) == encode(v)
  {
    Property(encode(v), Some(v))
  }

  /** Renders and converts the expression when the cache is empty, caching
      what the conversion yields; returns the cache otherwise. */
  function As<T(==)>(p: Property<T>, render: Renderer, convert: Converter<T>): (r: Resolution<T>)
    ensures r.property.expression == p.expression
    // a filled cache is returned as is, without rendering
    ensures p.value.Some? ==> r == Resolution(p, Success(p.value), false)
    // an empty cache is filled by rendering then converting
    ensures p.value.None? ==> r.rendered
    ensures p.value.None? && r.result.Success? ==>
              && render(p.expression).Success?
              && convert(render(p.expression).value) == Success(r.result.value)
    ensures p.value.None? && render(p.expression).Success?
            && convert(render(p.expression).value).Success? ==>
              r.result == Success(convert(render(p.expression).value).value)
    // the renderer's or the conversion's error reaches the caller unchanged
    ensures p.value.None? && render(p.expression).Failure? ==>
              r.result == Failure(RenderError(render(p.expression).error))
    ensures p.value.None? && render(p.expression).Success?
            && convert(render(p.expression).value).Failure? ==>
              r.result == Failure(ConversionError(convert(render(p.expression).value).error))
    // what is returned is what is cached; a failure caches nothing
    ensures r.result.Success? ==> r.property.value == r.result.value
    ensures r.result.Failure? ==> r.property == p
  {
    match p.value
    case Some(_) => Resolution(p, Success(p.value), false)
    case None =>
      match render(p.expression)
      case Failure(e) => Resolution(p, Failure(RenderError(e)), true)
      case Success(rendered) =>
        match convert(rendered)
        case Failure(e) => Resolution(p, Failure(ConversionError(e)), true)
        case Success(v) => Resolution(Property(p.expression, v), Success(v), true)
  }

  /** `getExpression`, the only thing the serializer writes: the cache
      never reaches the wire, and reading the string back yields the
      property with its cache emptied. */
  function Serialize<T>(p: Property<T>): (s: string)
    ensures Deserialize<T>(s) == Property(p.expression, None)
  {
    p.expression
  }

  /** The deserializer: the string read becomes the expression, and the
      cache starts empty, so the first `as` renders. */
  function Deserialize<T>(s: string): (p: Property<T>)
    ensures p.expression == s
    ensures p.value.None?
  {
    FromExpression(s)
  }

  // ---------------------------------------------------------------------------
  // Properties relating several calls.

  /** Serialisation keeps the expression and drops the cache; a string read
      back is written out unchanged. */
  lemma SerializeRoundTrip<T>(p: Property<T>, s: string)
    ensures Deserialize<T>(Serialize(p)) == Property(p.expression, None)
    ensures Serialize(Deserialize<T>(s)) == s
  {
  }

  /** A filled cache makes the renderer and converter irrelevant: any
      context gives the same answer. */
  lemma CachedIgnoresContext<T>(p: Property<T>, r1: Renderer, c1: Converter<T>,
                                r2: Renderer, c2: Converter<T>)
    requires p.value.Some?
    ensures As(p, r1, c1) == As(p, r2, c2)
  {
  }

  /** A literal property never renders, even with a renderer that fails on
      every input. */
  lemma LiteralNeverRenders<T>(v: T, encode: T -> string, render: Renderer, convert: Converter<T>)
    ensures var r := As(Of(v, encode), render, convert);
            !r.rendered && r.result == Success(Some(v))
  {
  }

  /** A null conversion leaves the cache empty: the next call renders again. */
  lemma NullConversionIsNotCached<T>(p: Property<T>, render: Renderer, convert: Converter<T>,
                                     render2: Renderer, convert2: Converter<T>)
    requires p.value.None?
    requires render(p.expression).Success? && convert(render(p.expression).value) == Success(None)
    ensures var first := As(p, render, convert);
            && first.result == Success(None)
            && first.property == p
            && As(first.property, render2, convert2).rendered
  {
  }

  /** A literal serialised and read back resolves to itself, given a
      renderer that leaves its encoding alone and a conversion that decodes
      it. The copy read back has lost the literal's guarantee: resolving it
      calls the renderer. */
  lemma LiteralRoundTrip<T>(v: T, encode: T -> string, render: Renderer, convert: Converter<T>)
    requires render(encode(v)) == Success(encode(v))
    requires convert(encode(v)) == Success(Some(v))
    ensures var r := As(Deserialize<T>(Serialize(Of(v, encode))), render, convert);
            r.result == Success(Some(v)) && r.rendered
  {
  }

  // ---------------------------------------------------------------------------
  // A sequence of `as` calls on one property, one context per call.

  /** The property after the calls, what each call returned, and how many
      calls invoked the renderer. */
  datatype Session<T> = Session(property: Property<T>,
                                results: seq<Result<Option<T>, PropertyError>>,
                                renders: nat)

  /** `as` called once per renderer in `renders`, in order, with the
      property each call leaves behind. */
  function AsEach<T(==)>(p: Property<T>, renders: seq<Renderer>, convert: Converter<T>): (s: Session<T>)
    ensures |s.results| == |renders|
    ensures s.renders <= |renders|
    ensures s.property.expression == p.expression
    // an empty cache is rendered by the first call
    ensures p.value.None? && |renders| > 0 ==> s.renders >= 1
    // a value the session cached is one that some call returned
    ensures s.property.value.Some? && s.property.value != p.value ==>
              exists i :: 0 <= i < |s.results| && s.results[i] == Success(s.property.value)
    decreases |renders|
  {
    if |renders| == 0 then Session(p, [], 0)
    else
      var first := As(p, renders[0], convert);
      var rest := AsEach(first.property, renders[1..], convert);
      var s := Session(rest.property, [first.result] + rest.results,
                       rest.renders + (if first.rendered then 1 else 0));
      assert s.results[0] == first.result;
      assert forall j :: 0 <= j < |rest.results| ==> s.results[j + 1] == rest.results[j];
      s
  }

  /** Once the cache holds a value, every later call returns it, whatever
      the context, and none renders. */
  lemma {:induction false} CachedSessionNeverRenders<T>(p: Property<T>, renders: seq<Renderer>,
                                                        convert: Converter<T>)
    requires p.value.Some?
    ensures var s := AsEach(p, renders, convert);
            && s.renders == 0
            && s.property == p
            && forall i :: 0 <= i < |s.results| ==> s.results[i] == Success(p.value)
    decreases |renders|
  {
    if |renders| > 0 {
      CachedSessionNeverRenders(p, renders[1..], convert);
    }
  }

  /** Renders at most once: when the first call caches a value, every call
      returns that value and only the first one renders. */
  lemma RendersAtMostOnce<T>(p: Property<T>, renders: seq<Renderer>, convert: Converter<T>)
    requires |renders| > 0
    requires As(p, renders[0], convert).result.Success?
    requires As(p, renders[0], convert).result.value.Some?
    ensures var s := AsEach(p, renders, convert);
            && s.renders <= 1
            && forall i :: 0 <= i < |s.results| ==> s.results[i] == s.results[0]
  {
    var first := As(p, renders[0], convert);
    CachedSessionNeverRenders(first.property, renders[1..], convert);
  }
}
