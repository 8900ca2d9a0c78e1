/**
 * The base error contract of haystack/errors.py: construction (telemetry event,
 * stored message, dropped docs link, status code), attribute lookup with the
 * `__getattr__` fallback into `__cause__`, and `__str__`/`__repr__`.
 *
 * An error's attributes are an `ErrorState` value; the `ErrorObject` class holds
 * the same fields and its constructor is the imperative `__init__`.
 */
module Errors {
  import opened Wrappers
  import opened Taxonomy
  import opened Telemetry

  // ---------------------------------------------------------------- values

  /** A Python value read from an attribute; anything else than None, str and int is Other. */
  datatype Value = NoneValue | StrValue(s: string) | IntValue(i: int) | OtherValue

  /** The two exceptions the error methods can raise while being looked at. */
  datatype PyError = AttributeError(name: string) | TypeError

  /**
   * The object stored in `__cause__`: an arbitrary exception, seen only through its
   * attributes, or another Haystack error (whose lookups fall back in turn).
   */
  datatype Obj = Plain(attrs: map<string, Value>) | Haystack(err: ErrorState)

  /**
   * The instance attributes of a Haystack error. `message` is None when the
   * attribute was never assigned; `statusCode` is None when the kind never assigns
   * `status_code`, and Some(None) when it assigned Python's None.
   */
  datatype ErrorState = ErrorState(
    kind: Kind,
    message: Option<string>,
    docsLink: Option<string>,
    statusCode: Option<Option<int>>,
    cause: Option<Obj>)

  /** Python truthiness of an optional string: neither None nor empty. */
  predicate Truthy(s: Option<string>) {
    s.Some? && s.value != ""
  }

  // ---------------------------------------------------------- construction

  /**
   * The keyword arguments of one constructor call; a None field was not passed.
   * `docsLink` and `statusCode` wrap the Optional[...] the caller passes.
   */
  datatype Args = Args(
    message: Option<string>,
    docsLink: Option<Option<string>>,
    sendMessageInEvent: Option<bool>,
    statusCode: Option<Option<int>>)

  /**
   * The call matches the kind's `__init__` signature: only exposed parameters are
   * passed. Every class takes a call with at most a message; only the root takes
   * all of `docs_link` and `send_message_in_event`.
   */
  predicate Accepts(k: Kind, args: Args)
    ensures args.docsLink.None? && args.sendMessageInEvent.None? && args.statusCode.None? ==> Accepts(k, args)
    ensures k == HaystackError ==> (Accepts(k, args) <==> args.statusCode.None?)
  {
    var s := SignatureOf(k);
    && (args.docsLink.Some? ==> s.docsLink.Exposed?)
    && (args.sendMessageInEvent.Some? ==> s.sendMessageInEvent.Exposed?)
    && (args.statusCode.Some? ==> s.statusCode.Some? && s.statusCode.value.Exposed?)
  }

  /** The value a parameter takes: the caller's when passed, the class's otherwise. */
  function Resolve<T>(p: Param<T>, given: Option<T>): T
    requires given.Some? ==> p.Exposed?
  {
    if given.Some? then given.value else p.value
  }

  /**
   * Whether the message goes into the telemetry payload, stated from the tree
   * instead of the table: the caller's flag when one was passed, otherwise true
   * except for the document-store and remote-API families.
   */
  predicate ReportsMessage(k: Kind, args: Args) {
    args.sendMessageInEvent.GetOr(!(IsA(k, DocumentStoreError) || IsRemoteApi(k)))
  }

  /** The telemetry gate: the message, possibly None, only when the flag is set. */
  function Payload(sendMessageInEvent: bool, message: Option<string>): (p: EventPayload)
    ensures "message" in p <==> sendMessageInEvent
    ensures p.Keys <= {"message"}
    ensures "message" in p ==> p["message"] == message
  {
    if sendMessageInEvent then map["message" := message] else map[]
  }

  /** With the flag off, nothing of the message reaches telemetry; with it on, all of it does. */
  lemma PayloadRedaction(sendMessageInEvent: bool, m1: Option<string>, m2: Option<string>)
    ensures !sendMessageInEvent ==> Payload(sendMessageInEvent, m1) == Payload(sendMessageInEvent, m2)
    ensures sendMessageInEvent ==> (Payload(sendMessageInEvent, m1) == Payload(sendMessageInEvent, m2) <==> m1 == m2)
  {
    if sendMessageInEvent && Payload(true, m1) == Payload(true, m2) {
      assert Payload(true, m1)["message"] == m1;
    }
  }

  const RaisedSuffix := " raised"

  /** The event name: the concrete class name followed by " raised". */
  function EventName(k: Kind): (r: string)
    ensures |r| == |Name(k)| + |RaisedSuffix|
    ensures r[..|Name(k)|] == Name(k) && r[|Name(k)|..] == RaisedSuffix
  {
    Name(k) + RaisedSuffix
  }

  /** Reads the kind back from an event name; None for names no kind produces. */
  function ParseEventName(s: string): Option<Kind> {
    if |s| >= |RaisedSuffix| && s[|s| - |RaisedSuffix|..] == RaisedSuffix
    then KindOfName(s[..|s| - |RaisedSuffix|])
    else None
  }

  lemma {:induction false} EventNameRoundTrip(k: Kind)
    ensures ParseEventName(EventName(k)) == Some(k)
  {
    var s := EventName(k);
    assert s[..|s| - |RaisedSuffix|] == Name(k);
    assert s[|s| - |RaisedSuffix|..] == RaisedSuffix;
    NameRoundTrip(k);
  }

  /** Distinct kinds emit distinct event names: a FilterError is never reported as its parent. */
  lemma {:induction false} EventNamesDistinct(k1: Kind, k2: Kind)
    ensures EventName(k1) == EventName(k2) <==> k1 == k2
  {
    EventNameRoundTrip(k1);
    EventNameRoundTrip(k2);
  }

  /** The one event `__init__` sends. */
  function ConstructionEvent(k: Kind, args: Args): (ev: Event)
    requires Accepts(k, args)
    ensures ParseEventName(ev.name) == Some(k)
    ensures ev.payload == if ReportsMessage(k, args) then map["message" := args.message] else map[]
  {
    EventNameRoundTrip(k);
    SignatureFollowsTree(k);
    Event(EventName(k), Payload(Resolve(SignatureOf(k).sendMessageInEvent, args.sendMessageInEvent), args.message))
  }

  /**
   * The attributes after `__init__` (and the subclass's own assignments) ran.
   * Whatever docs link was passed or defaulted, `docs_link` ends up None.
   */
  function Construct(k: Kind, args: Args): (e: ErrorState)
    requires Accepts(k, args)
    ensures e.kind == k && e.cause == None
    ensures e.docsLink == None
    ensures e.message.Some? <==> Truthy(args.message)
    ensures e.message.Some? ==> e.message == args.message
  {
    var s := SignatureOf(k);
    SignatureFollowsTree(k);
    ErrorState(
      k,
      if Truthy(args.message) then args.message else None,
      None,
      if s.statusCode.Some? then Some(Resolve(s.statusCode.value, args.statusCode)) else None,
      None)
  }

  /**
   * `status_code` exists exactly on the OpenAI and Cohere kinds: the rate-limit kind
   * always holds 429, the others hold what the caller passed (None by default).
   */
  lemma StatusCodeOfConstructed(k: Kind, args: Args)
    requires Accepts(k, args)
    ensures Construct(k, args).statusCode.Some? <==> IsRemoteApi(k)
    ensures k == OpenAIRateLimitError ==> Construct(k, args).statusCode == Some(Some(429))
    ensures IsRemoteApi(k) && k != OpenAIRateLimitError ==>
      Construct(k, args).statusCode == Some(args.statusCode.GetOr(None))
  {
  }

  /** The document-store family sends an empty payload unless DocumentStoreError itself is asked to. */
  lemma DocumentStoreFamilyRedacts(k: Kind, args: Args)
    requires IsA(k, DocumentStoreError) && Accepts(k, args)
    ensures k != DocumentStoreError ==> ConstructionEvent(k, args).payload == map[]
    ensures ConstructionEvent(k, args).payload == map[] <==> args.sendMessageInEvent != Some(true)
  {
  }

  /** Modeling, pipeline and node kinds report the message (NodeError unless told not to). */
  lemma ReportingKindsSendMessage(k: Kind, args: Args)
    requires k in {ModelingError, PipelineError, PipelineSchemaError, PipelineConfigError, NodeError, AudioNodeError, ImageToTextError}
    requires Accepts(k, args) && args.sendMessageInEvent != Some(false)
    ensures ConstructionEvent(k, args).payload == map["message" := args.message]
    ensures k != NodeError ==> args.sendMessageInEvent == None
  {
  }

  /** OpenAI and Cohere errors send the message only when the caller opts in. */
  lemma RemoteApiOptIn(k: Kind, args: Args)
    requires IsRemoteApi(k) && Accepts(k, args)
    ensures ConstructionEvent(k, args).payload == map["message" := args.message] <==> args.sendMessageInEvent == Some(true)
    ensures ConstructionEvent(k, args).payload == map[] <==> args.sendMessageInEvent != Some(true)
  {
    if args.sendMessageInEvent == Some(true) {
      assert "message" in ConstructionEvent(k, args).payload;
    } else {
      assert "message" !in ConstructionEvent(k, args).payload;
    }
  }

  // ------------------------------------------------------------- attributes

  /**
   * An attribute found on the object itself, without any fallback. A Haystack
   * error always has `docs_link`, and has no attribute of its own besides it,
   * `message` (when one was stored) and `status_code` (on the kinds that assign it).
   */
  function OwnAttr(o: Obj, name: string): (r: Option<Value>)
    ensures o.Haystack? && name == "docs_link" ==> r.Some?
    ensures o.Haystack? && name == "message" ==> (r.Some? <==> o.err.message.Some?)
    ensures o.Haystack? && name == "status_code" ==> (r.Some? <==> o.err.statusCode.Some?)
    ensures o.Haystack? && name !in {"message", "docs_link", "status_code"} ==> r.None?
  {
    match o
    case Plain(attrs) => if name in attrs then Some(attrs[name]) else None
    case Haystack(e) =>
      if name == "message" && e.message.Some? then Some(StrValue(e.message.value))
      else if name == "docs_link" then Some(if e.docsLink.Some? then StrValue(e.docsLink.value) else NoneValue)
      else if name == "status_code" && e.statusCode.Some? then
        Some(if e.statusCode.value.Some? then IntValue(e.statusCode.value.value) else NoneValue)
      else None
  }

  /**
   * `getattr(o, name)`: the object's own attribute, else, for a Haystack error,
   * its `__getattr__` hook. A lookup that falls back never yields the value found
   * further down, only None, and every failure is an AttributeError for `name`.
   */
  function GetAttr(o: Obj, name: string): (r: Result<Value, PyError>)
    decreases o, 1
    ensures OwnAttr(o, name).Some? ==> r == Ok(OwnAttr(o, name).value)
    ensures OwnAttr(o, name).None? && r.Ok? ==> r.value == NoneValue
    ensures r.Err? ==> r.error == AttributeError(name)
  {
    match OwnAttr(o, name)
    case Some(v) => Ok(v)
    case None =>
      match o
      case Plain(_) => Err(AttributeError(name))
      case Haystack(e) => GetAttrHook(e, name)
  }

  /**
   * `HaystackError.__getattr__`: without a cause the lookup fails; with one it is
   * repeated on the cause and its outcome kept, but its value dropped (no `return`).
   */
  function GetAttrHook(e: ErrorState, name: string): (r: Result<Value, PyError>)
    decreases Haystack(e), 0
    ensures e.cause.None? ==> r == Err(AttributeError(name))
    ensures e.cause.Some? ==> (r.Ok? <==> GetAttr(e.cause.value, name).Ok?)
    ensures r.Ok? ==> r.value == NoneValue
    ensures r.Err? ==> r.error == AttributeError(name)
  {
    match e.cause
    case None => Err(AttributeError(name))
    case Some(c) =>
      match GetAttr(c, name)
      case Ok(_) => Ok(NoneValue)
      case Err(x) => Err(x)
  }

  /** The object followed by the causes reached through Haystack errors, outermost first. */
  function Chain(o: Obj): (c: seq<Obj>)
    decreases o
    ensures |c| >= 1 && c[0] == o
  {
    match o
    case Plain(_) => [o]
    case Haystack(e) => if e.cause.Some? then [o] + Chain(e.cause.value) else [o]
  }

  /** Some object along the cause chain of `o` has `name` as an attribute of its own. */
  predicate OwnedAlongChain(o: Obj, name: string) {
    exists i :: 0 <= i < |Chain(o)| && OwnAttr(Chain(o)[i], name).Some?
  }

  /** Past its head, the chain of an error with a cause is the chain of that cause. */
  lemma OwnedAlongChainStep(e: ErrorState, name: string)
    requires e.cause.Some?
    ensures OwnedAlongChain(Haystack(e), name) <==>
      OwnAttr(Haystack(e), name).Some? || OwnedAlongChain(e.cause.value, name)
  {
    var o, rest := Haystack(e), e.cause.value;
    var c := Chain(o);
    assert c == [o] + Chain(rest);
    if OwnedAlongChain(o, name) && OwnAttr(o, name).None? {
      var i :| 0 <= i < |c| && OwnAttr(c[i], name).Some?;
      assert i > 0 && c[i] == Chain(rest)[i - 1];
    }
    if OwnedAlongChain(rest, name) {
      var j :| 0 <= j < |Chain(rest)| && OwnAttr(Chain(rest)[j], name).Some?;
      assert c[j + 1] == Chain(rest)[j];
    }
    if OwnAttr(o, name).Some? {
      assert OwnAttr(c[0], name).Some?;
    }
  }

  /** An error without the attribute answers the lookup exactly when its cause does. */
  lemma GetAttrFallsBackOneStep(e: ErrorState, name: string)
    requires OwnAttr(Haystack(e), name).None? && e.cause.Some?
    ensures GetAttr(Haystack(e), name).Ok? <==> GetAttr(e.cause.value, name).Ok?
  {
  }

  /** A lookup succeeds exactly when some object along the cause chain has the attribute itself. */
  lemma {:induction false} GetAttrAlongChain(o: Obj, name: string)
    ensures GetAttr(o, name).Ok? <==> OwnedAlongChain(o, name)
    decreases o
  {
    assert OwnAttr(o, name).Some? ==> OwnAttr(Chain(o)[0], name).Some?;
    match o
    case Plain(_) =>
      assert Chain(o) == [o];
    case Haystack(e) =>
      if e.cause.None? {
        assert Chain(o) == [o];
      } else {
        GetAttrAlongChain(e.cause.value, name);
        OwnedAlongChainStep(e, name);
        if OwnAttr(o, name).None? {
          GetAttrFallsBackOneStep(e, name);
        }
      }
  }

  /** The value on the cause is not passed through: the lookup yields None whatever it was. */
  lemma DelegationDropsValue(e: ErrorState, name: string, v: Value)
    requires OwnAttr(Haystack(e), name).None?
    requires e.cause.Some? && OwnAttr(e.cause.value, name) == Some(v)
    ensures GetAttr(Haystack(e), name) == Ok(NoneValue)
  {
  }

  // -------------------------------------------------------------- rendering

  const DocsHint := "\n\nCheck out the documentation at "

  /**
   * The text `__str__` builds from a message and a docs link: the message
   * unchanged when the link is unset or empty, else the message, a blank line,
   * the hint and the link.
   */
  function Render(message: string, docsLink: Option<string>): (r: string)
    ensures |r| >= |message| && r[..|message|] == message
    ensures r == message <==> !Truthy(docsLink)
    ensures Truthy(docsLink) ==>
      |r| == |message| + |DocsHint| + |docsLink.value| &&
      r[|message|..|message| + |DocsHint|] == DocsHint &&
      r[|message| + |DocsHint|..] == docsLink.value
  {
    if Truthy(docsLink) then message + DocsHint + docsLink.value else message
  }

  /**
   * `str(e)`: reads `self.message` (through the fallback when it was never
   * assigned); None or any non-string there makes `str` raise TypeError.
   */
  function Str(e: ErrorState): (r: Result<string, PyError>)
    ensures e.message.Some? ==> r == Ok(Render(e.message.value, e.docsLink))
    ensures e.message.None? ==> r.Err?
  {
    match GetAttr(Haystack(e), "message")
    case Err(x) => Err(x)
    case Ok(StrValue(m)) => Ok(Render(m, e.docsLink))
    case Ok(_) => Err(TypeError)
  }

  /** `repr(e)` is `str(e)`, text or failure alike. */
  function Repr(e: ErrorState): (r: Result<string, PyError>)
    ensures r == Str(e)
  {
    Str(e)
  }

  /**
   * On a constructed error, whatever cause is attached later, `str` and `repr`
   * give the message itself when one was stored (the documentation hint never
   * appears); otherwise they fail: TypeError when the fallback found `message`
   * down the cause chain, AttributeError when it did not.
   */
  lemma StrOfConstructed(k: Kind, args: Args, cause: Option<Obj>)
    requires Accepts(k, args)
    ensures var e := Construct(k, args).(cause := cause);
      && Repr(e) == Str(e)
      && Str(e) == (if Truthy(args.message) then Ok(args.message.value)
                    else if cause.Some? && GetAttr(cause.value, "message").Ok? then Err(TypeError)
                    else Err(AttributeError("message")))
  {
  }

  /**
   * The attributes a constructed error answers itself: `docs_link` (None), and
   * `message` exactly when it was truthy.
   */
  lemma OwnAttrsOfConstructed(k: Kind, args: Args, cause: Option<Obj>)
    requires Accepts(k, args)
    ensures var o := Haystack(Construct(k, args).(cause := cause));
      && GetAttr(o, "docs_link") == Ok(NoneValue)
      && (OwnAttr(o, "message").Some? <==> Truthy(args.message))
      && (Truthy(args.message) ==> GetAttr(o, "message") == Ok(StrValue(args.message.value)))
  {
  }

  // ------------------------------------------------------------ the object

  /** A Haystack error instance; its constructor is `__init__` of the chosen kind. */
  class ErrorObject {
    const kind: Kind
    var message: Option<string>
    var docsLink: Option<string>
    var statusCode: Option<Option<int>>
    var cause: Option<Obj>

    function State(): ErrorState
      reads this
    {
      ErrorState(kind, message, docsLink, statusCode, cause)
    }

    /**
     * `kind(**args)`: sends exactly one event, then assigns the attributes.
     * `__cause__` starts unset.
     */
    constructor (kind: Kind, args: Args, sink: Sink)
      requires Accepts(kind, args)
      modifies sink
      ensures sink.events == old(sink.events) + [ConstructionEvent(kind, args)]
      ensures State() == Construct(kind, args)
    {
      var sig := SignatureOf(kind);
      var payload := Payload(Resolve(sig.sendMessageInEvent, args.sendMessageInEvent), args.message);
      sink.Send(EventName(kind), payload);
      this.kind := kind;
      message := if Truthy(args.message) then args.message else None;
      docsLink := None;
      statusCode := if sig.statusCode.Some? then Some(Resolve(sig.statusCode.value, args.statusCode)) else None;
      cause := None;
    }

    /** `raise self from c`: attaches the cause the fallback will search; nothing else changes. */
    method SetCause(c: Option<Obj>)
      modifies this
      ensures State() == old(State()).(cause := c)
    {
      cause := c;
    }
  }
}
