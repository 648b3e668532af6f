# sanic-jinja2 request glue, modelled in Dafny

sanic-jinja2 connects the Jinja2 template engine to the Sanic web framework.
Most of the package hands work to those two libraries. This model covers the
three pieces of logic the package owns, all in `sanic_jinja2/__init__.py`:

- **Flash mailbox** (`mailbox.dfy`, module `Mailbox`). `_flash` appends a
  `(category, message)` pair to the list stored under the session key
  `"_flashes"`. `_get_flashed_messages` pops that whole list in one step. It
  can keep only the pairs whose category is in a non-empty `category_filter`.
  It can also return only the messages (`with_categories=False`). A request
  without a session makes both operations silent no-ops. The session is a
  `map<string, Value>`, and "no session attached" is `None`.
- **Context assembler** (`context.dfy`, module `RequestContext`).
  `update_request_context` fills `gettext`, `ngettext`, `_`, `session`,
  `request` and `get_flashed_messages` with `dict.setdefault` semantics. The
  babel keys come first, so babel's translator, not `fake_trans`, becomes `_`.
  Context values are tokens that name what they stand for. Whether the babel
  extension is installed is a boolean on the request. A falsy request is
  `None`.
- **Template decorator** (`decorator.dfy`, module `TemplateDecorator`). This
  is the decision made by `SanicJinja2.template(...)`'s `wrapped`. An
  `HTTPResponse` from the handler is passed through. Otherwise the handler's
  value is normalised (`None` becomes `{}`). Then one of three `ServerError`s
  (status 500) is raised, checked in a fixed order. If none applies, the
  mapping is rendered with content type `"text/html; charset=" + encoding`.
  Two facts are inputs: whether the template environment exists, and whether
  its loader finds the template.

`wrappers.dfy` (module `Wrappers`) holds the shared `Option` and `Result` types.

No call to `update_request_context` appears in the decorator (lines
174-235), so a template rendered through the decorator gets only the
handler's keys. Lines 220-221 hold a commented-out merge of a different
request entry, which the model ignores.
`Decide` renders the handler's mapping exactly as returned, and
`RenderUsesHandlerMapping` states this.

## Model

| member | source | states |
|---|---|---|
| Mailbox.AddFlash | sanic_jinja2/__init__.py:142-147 | With a session, `_flashes` afterwards is the old list (empty when absent) with one pair appended: the message, and the given category or `"message"` when the argument is omitted. Every other session key is unchanged. Without a session nothing changes. A non-list `_flashes` is an error. |
| Mailbox.FilterByCategory | sanic_jinja2/__init__.py:50-51 | The filtered list is no longer than the input. Every kept pair comes from the input and has a listed category. |
| Mailbox.MessagesOf | sanic_jinja2/__init__.py:53-54 | The projection has the same length as the pairs, and entry i is the message of pair i. |
| Mailbox.GetFlashed | sanic_jinja2/__init__.py:45-56 | Without a session the result is empty and no state changes. With one, `_flashes` is removed and no other key changes. The result holds pairs exactly when `with_categories` is set. With no filter the result is the pending list. With a filter, a pair is in the result iff it was pending and its category is listed. |
| Mailbox.FilterMembership | sanic_jinja2/__init__.py:50-51 | A pair is in the filtered list iff it is in the input and its category is in the filter (both directions). |
| Mailbox.FilterCount | sanic_jinja2/__init__.py:50-51 | Each matching pair keeps its multiplicity, and each non-matching pair occurs zero times. |
| Mailbox.FilterAppend | sanic_jinja2/__init__.py:50-51 | Filtering a concatenation is the concatenation of the filtered parts, so the original relative order is kept. |
| Mailbox.FilterNoMatch | sanic_jinja2/__init__.py:50-51 | A filter that matches no pending category yields the empty sequence. |
| Mailbox.FilterAllMatch | sanic_jinja2/__init__.py:50-51 | A filter that lists every pending category returns the whole pending list. |
| Mailbox.FilteredRead | sanic_jinja2/__init__.py:49-51 | A read with a non-empty filter returns exactly the filtered pending pairs and leaves the session without `_flashes`. |
| Mailbox.MessagesProjectPairs | sanic_jinja2/__init__.py:53-56 | For the same session and filter, a `with_categories=False` read succeeds iff the `with_categories=True` read does. It leaves the same session and returns each pair's message, with the same length and order. |
| Mailbox.DrainOnce | sanic_jinja2/__init__.py:46-49 | After a successful read, an immediate second read (any flags) succeeds, returns nothing and changes nothing. |
| Mailbox.FlashesAccumulate | sanic_jinja2/__init__.py:142-147 | Any run of `_flash` calls on a session appends its pairs in call order after the pending ones, and leaves every other key alone. |
| Mailbox.ReadAfterFlashes | sanic_jinja2/__init__.py:45-56 | After flashes on an empty mailbox, an unfiltered read returns the flashed pairs in call order. A filtered read returns exactly the matching pairs. Both restore the session to its state before the flashes. |
| RequestContext.SetDefault | sanic_jinja2/__init__.py:38 | `setdefault` adds the key, keeps every existing entry, and gives the new value only to a key that was absent. |
| RequestContext.AddBabel | sanic_jinja2/__init__.py:27-33 | The babel step adds only `gettext`, `ngettext` and `_`, overwrites nothing, and binds an absent `_` to whatever `gettext` then holds. |
| RequestContext.AddTranslations | sanic_jinja2/__init__.py:27-33 | With babel installed, the babel step is applied: an absent `gettext`/`ngettext` gets babel's translator and an absent `_` gets the resulting `gettext`. Without babel, the context is unchanged. |
| RequestContext.AddStandard | sanic_jinja2/__init__.py:38-42 | Adds exactly `_`, `request` and `get_flashed_messages`, overwrites nothing, and gives absent ones `fake_trans`, the request and the reader bound to it. |
| RequestContext.AddSession | sanic_jinja2/__init__.py:35-36 | `session` is added only when the request has a session, and then refers to that request's live session object. |
| RequestContext.UpdateRequestContext | sanic_jinja2/__init__.py:23-42 | No key already in the context changes. Only the six reserved keys can appear. A falsy request leaves the context unchanged. `_`, `request` and `get_flashed_messages` are always present afterwards. `session` is present iff it was supplied or the request has one, and likewise for `gettext`/`ngettext` with babel. An absent `gettext`/`ngettext` gets babel's gettext/ngettext for the request when babel is installed. The other added values refer to the request, its session and a reader bound to it. |
| RequestContext.StubTranslatesWithoutBabel | sanic_jinja2/__init__.py:19-38 | Without babel and without a supplied `_`, `_` is `fake_trans`. Through `Translate` and `FakeTransCall`, the model of `fake_trans`, it translates every text to itself. |
| RequestContext.BabelTranslatorWins | sanic_jinja2/__init__.py:27-33 | With babel and without a supplied `_`, `_` equals the resulting `gettext` entry: babel's, or the caller's own `gettext`. |
| RequestContext.UpdateIdempotent | sanic_jinja2/__init__.py:23-42 | Assembling a second time for the same request changes nothing. |
| RequestContext.BoundReaderReadsLiveSession | sanic_jinja2/__init__.py:40-42 | Calling the bound `get_flashed_messages` (`CallFlashReader`, the model of calling the partial) performs the mailbox read on whatever the request's session holds when it is called, not on a copy taken when the context was built. |
| RequestContext.ReaderDrainsOnFirstCall | sanic_jinja2/__init__.py:40-49 | When a template calls the bound reader twice, the second call returns nothing and changes nothing, whatever filters either call uses, because the first call pops every pending pair. |
| RequestContext.ReaderSecondCallExample | sanic_jinja2/__init__.py:40-51 | With `("error", "e")` and `("info", "i")` pending, a read filtered to `error` returns `["e"]`, and a following read filtered to `info` returns `[]`. |
| TemplateDecorator.Decide | sanic_jinja2/__init__.py:187-235 | An `HTTPResponse` passes through unchanged. Otherwise the result is an error iff the environment is missing, the template is not found, or the value is not a mapping. A missing environment always gives the engine error. A found environment with a missing template always gives the not-found error. With both found, the error is the not-a-mapping error. Every error has status 500 and its fixed message: the engine message, the not-found message naming the template, or the not-a-mapping message naming the type. A render uses the template name, the given status and headers, content type `"text/html; charset=" + encoding`, and the mapping with `None` read as `{}`. |
| TemplateDecorator.FirstFailure | sanic_jinja2/__init__.py:200-219 | Reference definition of the error order. The result is empty iff every check passes; otherwise it is the error of a failing check that all earlier checks passed. |
| TemplateDecorator.ErrorsInCheckOrder | sanic_jinja2/__init__.py:200-219 | For a non-response value, the decorator renders iff no check fails, and otherwise raises the error of the first failing check: environment, then template, then mapping. |
| TemplateDecorator.DefaultsRenderUtf8Html | sanic_jinja2/__init__.py:164-235 | With the decorator's defaults, a returned mapping renders with status 200 and content type `text/html; charset=utf-8`. |
| TemplateDecorator.RenderUsesHandlerMapping | sanic_jinja2/__init__.py:220-235 | The decorator renders the handler's own keys. No reserved context key is added on this path. |

## Left out

- Template lookup and rendering (`get_template`, `render`, `render_async`, `from_string`, `get_template_attribute`) belong to Jinja2. Whether a template exists is a boolean input. Rendered text is not modelled.
- The render helpers `render`, `render_string`, `render_async`, `render_string_async` and `render_source` only call `update_request_context` (modelled) and then Jinja2 and `sanic.response.html`, so they have no logic of their own to model.
- Babel's `_make_new_gettext` / `_make_new_ngettext` and the translation lookup are foreign calls. Their results are the tokens `BabelGettext` / `BabelNgettext`, and `Translate` gives them no value.
- `init_app`, `add_env`, `__init__`, the `add_flash_to_request` middleware and `CONTEXT_PROCESSORS` registration change opaque app and environment objects during setup.
- Coroutine wrapping (`asyncio.coroutine`, `iscoroutinefunction`), the `enable_async` choice between `render` and `render_async`, and the `HTTPMethodView` test that picks the request argument are framework runtime behaviour, so none is modelled. The request is not an input to `Decide`.
- The decorator's `IndexError` when the handler is called with no positional argument is not modelled.
- `str(type(context))` in the not-a-mapping message is an input string (`typeRepr`), not computed.
- Mailbox.GetFlashed: a `_flashes` value that is not a list is an error on every path. In Python the pop happens first. A value that cannot be iterated then raises `TypeError`, except with no filter and `with_categories=True`, where it is returned as is. An iterable value, such as a tuple of pairs, is read normally. The model rejects both kinds.
- Mailbox.AddFlash: a non-list `_flashes` is an error. Python raises there too (no `append`), but the model does not say which exception.
- RequestContext.UpdateRequestContext: the falsy request is `None`. In old Sanic versions the request was a dict subclass, so a request with no stored entries was also falsy. The model does not distinguish that case.
- RequestContext.CallFlashReader: the session a bound reader reads is passed in at call time, because the model has no shared mutable session object. The caller must pass the bound request's current session.
- Session persistence, concurrency between requests and cancellation belong to the framework and the session extension.
