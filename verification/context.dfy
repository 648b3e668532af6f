/**
 The per-request context assembler. Before a template is rendered it fills the
 reserved names of the context mapping with `setdefault` semantics, so a name
 the caller already supplied is never overwritten: the babel translators
 `gettext` and `ngettext` (and `_` bound to the resulting `gettext`) when the
 babel extension is installed, the request's `session` when it has one, the
 identity stub `fake_trans` as `_`, the `request` itself and the bound reader
 `get_flashed_messages`.
 */
module RequestContext {
  import opened Wrappers
  import Mailbox

  /**
   The parts of a request the assembler looks at. The session's contents are
   not part of the request value: the session is a live object that changes
   as flashes are added and read, so every reader is given its current state.
   */
  datatype Request = Request(
    id: nat,                 // identity of the request object
    hasSession: bool,        // "session" is in the request
    babelInstalled: bool     // "babel" is in the application's extensions
  )

  /**
   A template context value. Values the assembler creates are tokens naming
   what they stand for; everything else the caller supplied is `Supplied`.
   `SessionHandle` and `FlashReader` are references to the request, not
   copies of its session, as in Python, where both share the live object.
   */
  datatype Value =
    | FakeTrans                                  // the identity translator `fake_trans`
    | BabelGettext(gettextOf: Request)           // babel's gettext for this request's locale
    | BabelNgettext(ngettextOf: Request)         // babel's ngettext for this request's locale
    | SessionHandle(sessionOf: Request)          // `request["session"]`, the live object
    | RequestHandle(request: Request)            // the request object itself
    | FlashReader(readerOf: Request)             // `partial(_get_flashed_messages, request)`
    | Supplied(token: nat)                       // any caller-supplied value

  type Context = map<string, Value>

  const GettextKey: string := "gettext"
  const NgettextKey: string := "ngettext"
  const TranslateKey: string := "_"
  const SessionKey: string := "session"
  const RequestKey: string := "request"
  const FlashReaderKey: string := "get_flashed_messages"

  /** Every name the assembler may add. */
  const ReservedKeys: set<string> :=
    {GettextKey, NgettextKey, TranslateKey, SessionKey, RequestKey, FlashReaderKey}

  /** `fake_trans(text, *args, **kwargs)`: the remaining arguments are ignored. */
  function FakeTransCall(text: string, args: seq<string>): string {
    text
  }

  /**
   What calling a context value as a translator yields: `Some` for the
   identity stub, `None` for babel's translators, whose catalogues are not
   part of this model, and for values that are not translators.
   */
  function Translate(v: Value, text: string): Option<string> {
    if v.FakeTrans? then Some(FakeTransCall(text, [])) else None
  }

  /**
   Calls the bound reader a context holds: `Some(result)` when `v` is a
   `get_flashed_messages` bound to a request, `None` for any other value.
   `live` is what the bound request's "session" entry holds at the time of
   the call (`None` when it has none); the result carries its new state.
   */
  function CallFlashReader(v: Value, live: Option<Mailbox.Session>, withCategories: bool,
                           categoryFilter: seq<string>)
    : Option<Result<(Option<Mailbox.Session>, Mailbox.Flashed), Mailbox.MailboxError>>
  {
    if v.FlashReader? then Some(Mailbox.GetFlashed(live, withCategories, categoryFilter))
    else None
  }

  /** `dict.setdefault(key, v)`: adds `key` only when it is absent. */
  function SetDefault(ctx: Context, key: string, v: Value): (r: Context)
    ensures r.Keys == ctx.Keys + {key}
    ensures forall k :: k in ctx ==> r[k] == ctx[k]
    ensures key !in ctx ==> r[key] == v
  {
    if key in ctx then ctx else ctx[key := v]
  }

  /** The babel step: `gettext`, `ngettext`, then `_` bound to whatever `gettext` now holds. */
  function AddBabel(req: Request, ctx: Context): (r: Context)
    ensures r.Keys == ctx.Keys + {GettextKey, NgettextKey, TranslateKey}
    ensures forall k :: k in ctx ==> r[k] == ctx[k]
    ensures GettextKey !in ctx ==> r[GettextKey] == BabelGettext(req)
    ensures NgettextKey !in ctx ==> r[NgettextKey] == BabelNgettext(req)
    ensures TranslateKey !in ctx ==> r[TranslateKey] == r[GettextKey]
  {
    var withGettext := SetDefault(ctx, GettextKey, BabelGettext(req));
    var withNgettext := SetDefault(withGettext, NgettextKey, BabelNgettext(req));
    SetDefault(withNgettext, TranslateKey, withNgettext[GettextKey])
  }

  /** The babel step when babel is installed, nothing otherwise. */
  function AddTranslations(req: Request, ctx: Context): (r: Context)
    ensures r.Keys == if req.babelInstalled then ctx.Keys + {GettextKey, NgettextKey, TranslateKey} else ctx.Keys
    ensures forall k :: k in ctx ==> r[k] == ctx[k]
    ensures req.babelInstalled && GettextKey !in ctx ==> r[GettextKey] == BabelGettext(req)
    ensures req.babelInstalled && NgettextKey !in ctx ==> r[NgettextKey] == BabelNgettext(req)
    ensures req.babelInstalled && TranslateKey !in ctx ==> r[TranslateKey] == r[GettextKey]
  {
    if req.babelInstalled then AddBabel(req, ctx) else ctx
  }

  /** The session step: `session` is added only when the request has one. */
  function AddSession(req: Request, ctx: Context): (r: Context)
    ensures r.Keys == if req.hasSession then ctx.Keys + {SessionKey} else ctx.Keys
    ensures forall k :: k in ctx ==> r[k] == ctx[k]
    ensures SessionKey !in ctx && req.hasSession ==> r[SessionKey] == SessionHandle(req)
  {
    if req.hasSession then SetDefault(ctx, SessionKey, SessionHandle(req)) else ctx
  }

  /** The unconditional step: the stub `_`, then `request`, then the bound reader. */
  function AddStandard(req: Request, ctx: Context): (r: Context)
    ensures r.Keys == ctx.Keys + {TranslateKey, RequestKey, FlashReaderKey}
    ensures forall k :: k in ctx ==> r[k] == ctx[k]
    ensures TranslateKey !in ctx ==> r[TranslateKey] == FakeTrans
    ensures RequestKey !in ctx ==> r[RequestKey] == RequestHandle(req)
    ensures FlashReaderKey !in ctx ==> r[FlashReaderKey] == FlashReader(req)
  {
    var withStub := SetDefault(ctx, TranslateKey, FakeTrans);
    var withRequest := SetDefault(withStub, RequestKey, RequestHandle(req));
    SetDefault(withRequest, FlashReaderKey, FlashReader(req))
  }

  /**
   `update_request_context(request, context)`: `None` stands for a falsy
   request, for which the context is left as it is.
   */
  function UpdateRequestContext(request: Option<Request>, ctx: Context): (r: Context)
    ensures forall k :: k in ctx ==> k in r && r[k] == ctx[k]
    ensures r.Keys <= ctx.Keys + ReservedKeys
    ensures request.None? ==> r == ctx
    ensures request.Some? ==> {TranslateKey, RequestKey, FlashReaderKey} <= r.Keys
    ensures request.Some? ==>
      (SessionKey in r <==> SessionKey in ctx || request.value.hasSession)
    ensures request.Some? ==>
      (GettextKey in r <==> GettextKey in ctx || request.value.babelInstalled)
    ensures request.Some? ==>
      (NgettextKey in r <==> NgettextKey in ctx || request.value.babelInstalled)
    ensures request.Some? && request.value.babelInstalled && GettextKey !in ctx ==>
      r[GettextKey] == BabelGettext(request.value)
    ensures request.Some? && request.value.babelInstalled && NgettextKey !in ctx ==>
      r[NgettextKey] == BabelNgettext(request.value)
    ensures request.Some? && RequestKey !in ctx ==> r[RequestKey] == RequestHandle(request.value)
    ensures request.Some? && FlashReaderKey !in ctx ==> r[FlashReaderKey] == FlashReader(request.value)
    ensures request.Some? && SessionKey !in ctx && request.value.hasSession ==>
      r[SessionKey] == SessionHandle(request.value)
  {
    match request
    case None => ctx
    case Some(req) =>
      var translated := AddTranslations(req, ctx);
      var withSession := AddSession(req, translated);
      AddStandard(req, withSession)
  }

  /** Without babel and without a caller-supplied `_`, `_` translates every text to itself. */
  lemma StubTranslatesWithoutBabel(req: Request, ctx: Context, text: string)
    requires !req.babelInstalled
    requires TranslateKey !in ctx
    ensures UpdateRequestContext(Some(req), ctx)[TranslateKey] == FakeTrans
    ensures Translate(UpdateRequestContext(Some(req), ctx)[TranslateKey], text) == Some(text)
  {
  }

  /**
   With babel and without a caller-supplied `_`, `_` is the resulting `gettext`
   entry (babel's, or the caller's own `gettext`), never the stub.
   */
  lemma BabelTranslatorWins(req: Request, ctx: Context)
    requires req.babelInstalled
    requires TranslateKey !in ctx
    ensures var r := UpdateRequestContext(Some(req), ctx);
      && r[TranslateKey] == r[GettextKey]
      && r[TranslateKey] == (if GettextKey in ctx then ctx[GettextKey] else BabelGettext(req))
  {
  }

  /** Assembling twice for the same request adds nothing the first pass did not. */
  lemma UpdateIdempotent(request: Option<Request>, ctx: Context)
    ensures UpdateRequestContext(request, UpdateRequestContext(request, ctx))
         == UpdateRequestContext(request, ctx)
  {
  }

  /**
   The reader the assembler binds is the mailbox read on whatever the bound
   request's session holds when it is called, not on a copy taken when the
   context was built.
   */
  lemma BoundReaderReadsLiveSession(req: Request, ctx: Context, live: Option<Mailbox.Session>,
                                    withCategories: bool, categoryFilter: seq<string>)
    requires FlashReaderKey !in ctx
    ensures CallFlashReader(UpdateRequestContext(Some(req), ctx)[FlashReaderKey], live,
                            withCategories, categoryFilter)
         == Some(Mailbox.GetFlashed(live, withCategories, categoryFilter))
  {
  }

  /**
   A template that calls the bound reader twice gets the flashes only from the
   first call, whatever filters either call uses: the first call pops every
   pending pair, matching or not.
   */
  lemma ReaderDrainsOnFirstCall(req: Request, ctx: Context, live: Option<Mailbox.Session>,
                                withCategories: bool, categoryFilter: seq<string>,
                                again: bool, againFilter: seq<string>)
    requires FlashReaderKey !in ctx
    requires Mailbox.GetFlashed(live, withCategories, categoryFilter).Ok?
    ensures var reader := UpdateRequestContext(Some(req), ctx)[FlashReaderKey];
      var first := CallFlashReader(reader, live, withCategories, categoryFilter).value.value;
      var second := CallFlashReader(reader, first.0, again, againFilter);
      && second.Some? && second.value.Ok?
      && second.value.value.0 == first.0
      && second.value.value.1.IsEmpty()
  {
    Mailbox.DrainOnce(live, withCategories, categoryFilter, again, againFilter);
  }

  /**
   The two-call case with concrete flashes: with `("error", "e")` and
   `("info", "i")` pending, reading "error" returns `["e"]`, and a following
   read of "info" returns nothing.
   */
  lemma ReaderSecondCallExample(req: Request, ctx: Context)
    requires FlashReaderKey !in ctx
    ensures var reader := UpdateRequestContext(Some(req), ctx)[FlashReaderKey];
      var live := Some(map[Mailbox.FlashesKey := Mailbox.FlashList([Mailbox.Flash("error", "e"), Mailbox.Flash("info", "i")])]);
      var first := CallFlashReader(reader, live, false, ["error"]);
      && first == Some(Ok((Some(map[]), Mailbox.Messages(["e"]))))
      && CallFlashReader(reader, first.value.value.0, false, ["info"])
         == Some(Ok((Some(map[]), Mailbox.Messages([]))))
  {
    var live := map[Mailbox.FlashesKey := Mailbox.FlashList([Mailbox.Flash("error", "e"), Mailbox.Flash("info", "i")])];
    assert live - {Mailbox.FlashesKey} == map[];
    var es := [Mailbox.Flash("error", "e"), Mailbox.Flash("info", "i")];
    assert es[1..] == [Mailbox.Flash("info", "i")];
    assert es[1..][1..] == [];
    assert Mailbox.FilterByCategory(es, ["error"]) == [Mailbox.Flash("error", "e")];
    assert Mailbox.MessagesOf([Mailbox.Flash("error", "e")]) == ["e"];
  }
}
