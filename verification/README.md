# Haystack error taxonomy — a Dafny model

This project models `haystack/errors.py`, the error classes of Haystack: the base
`HaystackError` and its fourteen subclasses (modeling, pipeline, document-store,
node and remote-API errors). It covers:

- what constructing an error does: one telemetry event named `"<class name> raised"`,
  whose payload carries the message only when `send_message_in_event` is set; the
  message stored only when it is truthy; `docs_link` reset to None; and `status_code`
  on the OpenAI and Cohere errors;
- the per-class constructor table: which parameters each class exposes and the
  defaults it forwards;
- attribute lookup with the `__getattr__` fallback into `__cause__`;
- `__str__` and `__repr__`.

Modules:

- `Wrappers` (`wrappers.dfy`): `Option` and `Result`.
- `Taxonomy` (`taxonomy.dfy`): the `Kind` datatype (one value per class), class names,
  the parent tree and `IsA`, the `ValueError` second base of `DuplicateDocumentError`,
  and `SignatureOf`, the per-kind constructor table, with lemmas tying the table to the tree.
- `Telemetry` (`telemetry.dfy`): the `send_custom_event` collaborator, a `Sink` whose
  ghost `events` log records every event in order.
- `Errors` (`errors.dfy`): the attribute values (`ErrorState`), the cause (`Obj`: any
  exception seen through its attributes, or another Haystack error), the pure
  payload, lookup and rendering functions, and the `ErrorObject` class: one instance of
  any Haystack error class, whose constructor is that class's `__init__`.

A constructor call is `new ErrorObject(kind, args, sink)`. `Args` lists the keyword
arguments that were passed, and `Accepts(kind, args)` says they fit that class's
signature. Python rejects any other call with a TypeError before `__init__` runs.

The code departs from what its docstring (haystack/errors.py:12-14) and its
constructor defaults (haystack/errors.py:46, 56, 74) suggest; the model follows the code:

- `docs_link` is always None after construction (line 27). The default links the
  constructors pass are discarded, so `str(e)` never shows the documentation hint
  on a constructed error.
- `__getattr__` has no `return` (line 31), so a lookup that falls back to the cause
  yields None rather than the cause's value, although the docstring promises the
  cause's content. A failure on the cause still propagates.
- Failures inside `send_custom_event` are not caught by the constructor (line 23).
- When no message is stored, `str(e)` fails. It raises AttributeError when no object
  down the cause chain has a `message` attribute. Otherwise the fallback yields None,
  and `str` raises TypeError.

## Model

| member | source | states |
|---|---|---|
| `Taxonomy.NameRoundTrip` | haystack/errors.py:23 | the class name of each kind reads back to that kind, so names identify kinds |
| `Taxonomy.Parent` | haystack/errors.py:43-156 | every class but `HaystackError` has exactly one Haystack base, one level closer to the root |
| `Taxonomy.IsA` | haystack/errors.py:43-156 | `issubclass` along the tree: a kind is a subclass of itself and of its parent's ancestors, and an ancestor is never deeper than its descendant |
| `Taxonomy.EveryKindIsHaystackError` | haystack/errors.py:43-156 | every kind is a subclass of `HaystackError` |
| `Taxonomy.IsATransitive` | haystack/errors.py:43-156 | subclassing is transitive along the tree |
| `Taxonomy.IsAAntisymmetric` | haystack/errors.py:43-156 | two kinds that are subclasses of each other are the same kind (no cycles) |
| `Taxonomy.DuplicateDocumentCapabilities` | haystack/errors.py:100-104 | `DuplicateDocumentError` is both a `DocumentStoreError` (and so a `HaystackError`) and a `ValueError`; every `ValueError` kind is a document-store error |
| `Taxonomy.DocumentStoreFamily` | haystack/errors.py:79-104 | the kinds derived from `DocumentStoreError` are exactly it, `FilterError`, `PineconeDocumentStoreError` and `DuplicateDocumentError` |
| `Taxonomy.RemoteApiFamily` | haystack/errors.py:121-149 | the remote-API kinds are exactly `OpenAIError`, `OpenAIRateLimitError` and `CohereError` |
| `Taxonomy.PipelineFamily` | haystack/errors.py:50-76 | the kinds derived from `PipelineError` are exactly it, `PipelineSchemaError` and `PipelineConfigError` |
| `Taxonomy.SignatureOf` | haystack/errors.py:43-156 | the keyword parameters and defaults of each `__init__`: a default docs link comes with a way to replace it, except on `PipelineSchemaError`, which forwards its parent's; a pinned status code is 429; the root exposes `docs_link` and `send_message_in_event` and has no `status_code` |
| `Taxonomy.SignatureFollowsTree` | haystack/errors.py:43-156 | in the per-kind constructor table, sending the message defaults to false exactly for the document-store and OpenAI/Cohere families; `status_code` exists exactly on those remote-API kinds and is pinned, to 429, exactly on `OpenAIRateLimitError`; only `ModelingError` and the pipeline family default to a docs link |
| `Telemetry.Sink.Send` | haystack/errors.py:23 | sending appends exactly one event with the given name and payload to the log |
| `Errors.Accepts` | haystack/errors.py:19-156 | a call fits a class's signature iff it passes only parameters that class exposes; a call with at most a message fits every class; the root takes anything but `status_code` |
| `Errors.EventName` | haystack/errors.py:23 | the event name is the concrete class name followed by `" raised"` |
| `Errors.Payload` | haystack/errors.py:22 | the payload has a `message` key iff the flag is set, no other key, and that key holds the message (None included) |
| `Errors.PayloadRedaction` | haystack/errors.py:22 | with the flag off, payloads for any two messages are equal; with it on, they are equal iff the messages are |
| `Errors.EventNameRoundTrip` | haystack/errors.py:23 | the event name `"<class name> raised"` parses back to the concrete kind |
| `Errors.EventNamesDistinct` | haystack/errors.py:23 | two kinds have the same event name iff they are the same kind, so a `FilterError` is not reported as a `DocumentStoreError` |
| `Errors.ConstructionEvent` | haystack/errors.py:22-23 | the constructor's event names the concrete kind; its payload is `{"message": message}` when the caller's flag, or otherwise the family default, says to report, and `{}` otherwise |
| `Errors.Construct` | haystack/errors.py:19-27 | after construction the kind is the concrete class, there is no cause, `docs_link` is None whatever was passed, and `message` is stored iff it is truthy, unchanged |
| `Errors.StatusCodeOfConstructed` | haystack/errors.py:121-149 | `status_code` is set exactly on OpenAI/Cohere kinds; `OpenAIRateLimitError` always holds 429; the others hold the caller's value, None by default |
| `Errors.DocumentStoreFamilyRedacts` | haystack/errors.py:79-104 | the three document-store subclasses always send `{}`; `DocumentStoreError` sends `{}` unless it is passed `send_message_in_event=True` |
| `Errors.ReportingKindsSendMessage` | haystack/errors.py:43-156 | modeling, pipeline, audio and image-to-text errors always send `{"message": message}`, and so does `NodeError` unless it is passed False |
| `Errors.RemoteApiOptIn` | haystack/errors.py:121-149 | OpenAI, OpenAI rate-limit and Cohere errors send the message iff the caller passes True, else `{}` |
| `Errors.OwnAttr` | haystack/errors.py:25-27 | a Haystack error always has `docs_link` of its own, `message` iff one was stored, `status_code` iff its kind assigned one (lines 128, 149), and no other own attribute |
| `Errors.GetAttr` | haystack/errors.py:29-31 | an own attribute is returned as is; a lookup that falls back yields only None; every failure is an AttributeError for the name looked up |
| `Errors.GetAttrHook` | haystack/errors.py:29-31 | with no cause the fallback fails; with a cause it succeeds iff the lookup on the cause does, and then yields None |
| `Errors.GetAttrFallsBackOneStep` | haystack/errors.py:29-31 | an error without the attribute answers a lookup exactly when its cause does |
| `Errors.GetAttrAlongChain` | haystack/errors.py:29-31 | a lookup succeeds iff some object along the cause chain has the attribute of its own |
| `Errors.DelegationDropsValue` | haystack/errors.py:31 | when the cause holds a value for the attribute, the lookup yields None, not that value |
| `Errors.Render` | haystack/errors.py:33-37 | the text starts with the message; it is the message alone iff the docs link is unset or empty, and otherwise ends with the blank line, the hint and the link |
| `Errors.Str` | haystack/errors.py:33-37 | with a stored message `str` renders it with the docs link; without one `str` fails |
| `Errors.Repr` | haystack/errors.py:39-40 | `repr` gives exactly what `str` gives, text or failure |
| `Errors.StrOfConstructed` | haystack/errors.py:25-40 | on a constructed error with any cause, `str` and `repr` equal the message when it was truthy (never the hint); otherwise TypeError if the cause chain has `message`, else AttributeError |
| `Errors.OwnAttrsOfConstructed` | haystack/errors.py:25-27 | a constructed error answers `docs_link` with None, and it has `message` of its own iff the message was truthy, in which case the lookup returns it |
| `Errors.ErrorObject.constructor` | haystack/errors.py:19-27 | construction appends exactly the one construction event to the sink, and the new attributes are `Construct(kind, args)` |
| `Errors.ErrorObject.SetCause` | haystack/errors.py:29-31 | attaching a cause changes only the cause the fallback searches |

## Left out

- The real `send_custom_event` and its transport are not part of this model. It is
  the `Sink` log, and its failures are neither modelled nor swallowed.
- Python's exception machinery is left out. `raise … from` is the caller attaching
  a cause with `SetCause`. `Exception.__init__`, `args` and the other built-in
  attributes are not modelled.
- Errors.GetAttr, Errors.ErrorObject.SetCause: a cause is a finite, acyclic snapshot of the
  wrapped error's attributes, not a reference. A looping cause chain, which makes line 31
  recurse until RecursionError, is not modelled. A `__cause__` assigned to the wrapped
  error after it was attached is not seen by the outer lookup.
- Attribute lookup is limited to `message`, `docs_link` and `status_code` on Haystack
  errors, plus an attribute map for any other cause. A cause's own `__getattr__` is
  not modelled.
- Multiple inheritance is reduced to the `IsValueError` tag on `DuplicateDocumentError`.
  Method resolution order is not modelled.
- Positional arguments are not modelled. A call is its set of keyword arguments.
- Docs-link URLs appear only as the constructor defaults. Line 27 discards them.
