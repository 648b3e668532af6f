/**
 The flash mailbox: an ordered sequence of (category, message) pairs kept in
 the session under the reserved key "_flashes". A flash appends one pair; a
 read pops the whole sequence at once, optionally keeps only the pairs whose
 category is in a filter, and optionally projects the pairs to their messages.
 A request without a session makes both operations silent no-ops.
 */
module Mailbox {
  import opened Wrappers

  /** One flashed message with its category label. */
  datatype Flash = Flash(category: string, message: string)

  /** A session value: the flash list, or any other value the application stored. */
  datatype Value = FlashList(entries: seq<Flash>) | Opaque(token: nat)

  /** The session object reachable from a request: a mapping of keys to values. */
  type Session = map<string, Value>

  /** The reserved session key of the mailbox. */
  const FlashesKey: string := "_flashes"

  /** The category `_flash` uses when the caller gives none. */
  const DefaultCategory: string := "message"

  /** The value under "_flashes" is something other than a list of pairs. */
  datatype MailboxError = FlashesNotAList

  /** What a read returns: the pairs themselves, or only their message strings. */
  datatype Flashed = Pairs(pairs: seq<Flash>) | Messages(texts: seq<string>)
  {
    predicate IsEmpty() {
      match this
      case Pairs(ps) => |ps| == 0
      case Messages(ts) => |ts| == 0
    }
  }

  /** `a` and `b` agree on every key other than `key`. */
  ghost predicate SameExcept(a: Session, b: Session, key: string) {
    forall k :: k != key ==> (k in a <==> k in b) && (k in a ==> a[k] == b[k])
  }

  /** The pending flashes of a session, the empty sequence when the key is absent. */
  function Pending(s: Session): Result<seq<Flash>, MailboxError> {
    if FlashesKey !in s then Ok([])
    else match s[FlashesKey]
      case FlashList(es) => Ok(es)
      case Opaque(_) => Err(FlashesNotAList)
  }

  /**
   Appends `(category, message)` to the session's flashes; no-op without a
   session. `category` is `None` when the caller omits the argument, and the
   pair then carries `DefaultCategory`.
   */
  function AddFlash(session: Option<Session>, message: string, category: Option<string>)
    : (r: Result<Option<Session>, MailboxError>)
    ensures session.None? ==> r == Ok(None)
    ensures session.Some? && Pending(session.value).Err? ==> r == Err(FlashesNotAList)
    ensures session.Some? && Pending(session.value).Ok? ==>
      && r.Ok? && r.value.Some?
      && FlashesKey in r.value.value
      && Pending(r.value.value)
         == Ok(Pending(session.value).value
               + [Flash(if category.Some? then category.value else "message", message)])
      && SameExcept(r.value.value, session.value, FlashesKey)
  {
    match session
    case None => Ok(None)
    case Some(s) =>
      match Pending(s)
      case Err(e) => Err(e)
      case Ok(es) =>
        var tag := if category.Some? then category.value else DefaultCategory;
        Ok(Some(s[FlashesKey := FlashList(es + [Flash(tag, message)])]))
  }

  /** The pairs of `es` whose category is one of `categories`, in their original order. */
  function FilterByCategory(es: seq<Flash>, categories: seq<string>): (r: seq<Flash>)
    ensures |r| <= |es|
    ensures forall i :: 0 <= i < |r| ==> r[i] in es && r[i].category in categories
  {
    if |es| == 0 then []
    else
      var rest := FilterByCategory(es[1..], categories);
      if es[0].category in categories then [es[0]] + rest else rest
  }

  /** The message component of each pair: `[x[1] for x in flashes]`. */
  function MessagesOf(es: seq<Flash>): (r: seq<string>)
    ensures |r| == |es|
    ensures forall i :: 0 <= i < |es| ==> r[i] == es[i].message
  {
    if |es| == 0 then [] else [es[0].message] + MessagesOf(es[1..])
  }

  /**
   Pops the flashes out of the session in one step, keeps only the pairs whose
   category is in a non-empty `categoryFilter`, and returns the pairs, or only
   their messages when `withCategories` is false. Without a session it returns
   an empty result and changes nothing.
   */
  function GetFlashed(session: Option<Session>, withCategories: bool, categoryFilter: seq<string>)
    : (r: Result<(Option<Session>, Flashed), MailboxError>)
    ensures session.None? ==> r.Ok? && r.value.0.None? && r.value.1.IsEmpty()
    ensures session.Some? ==> (r.Ok? <==> Pending(session.value).Ok?)
    ensures r.Ok? ==> (r.value.1.Pairs? <==> withCategories)
    ensures r.Ok? && session.Some? ==>
      && r.value.0.Some?
      && FlashesKey !in r.value.0.value
      && SameExcept(r.value.0.value, session.value, FlashesKey)
    ensures r.Ok? && session.Some? && withCategories && |categoryFilter| == 0 ==>
      r.value.1.pairs == Pending(session.value).value
    ensures r.Ok? && session.Some? && withCategories ==>
      forall f :: f in r.value.1.pairs <==>
        f in Pending(session.value).value && (|categoryFilter| == 0 || f.category in categoryFilter)
  {
    match session
    case None => Ok((None, if withCategories then Pairs([]) else Messages([])))
    case Some(s) =>
      match Pending(s)
      case Err(e) => Err(e)
      case Ok(es) =>
        var kept := if |categoryFilter| > 0 then FilterByCategory(es, categoryFilter) else es;
        FilterMembership(es, categoryFilter);
        Ok((Some(s - {FlashesKey}), if withCategories then Pairs(kept) else Messages(MessagesOf(kept))))
  }

  /** A run of `_flash` calls, applied in order; stops at the first error. */
  function FlashAll(session: Option<Session>, fs: seq<Flash>): Result<Option<Session>, MailboxError> {
    if |fs| == 0 then Ok(session)
    else
      match FlashAll(session, fs[..|fs| - 1])
      case Err(e) => Err(e)
      case Ok(s) => AddFlash(s, fs[|fs| - 1].message, Some(fs[|fs| - 1].category))
  }

  // ---------------------------------------------------------------------------
  // The filter: membership, multiplicity and order.
  // ---------------------------------------------------------------------------

  /** A pair survives the filter exactly when it was pending and its category is listed. */
  lemma {:induction false} FilterMembership(es: seq<Flash>, categories: seq<string>)
    ensures forall f :: f in FilterByCategory(es, categories) <==> f in es && f.category in categories
  {
    if |es| > 0 {
      FilterMembership(es[1..], categories);
      assert es == [es[0]] + es[1..];
    }
  }

  /** The filter keeps every matching pair as often as it occurs and drops every other one. */
  lemma {:induction false} FilterCount(es: seq<Flash>, categories: seq<string>, f: Flash)
    ensures multiset(FilterByCategory(es, categories))[f]
         == if f.category in categories then multiset(es)[f] else 0
  {
    if |es| > 0 {
      FilterCount(es[1..], categories, f);
      assert es == [es[0]] + es[1..];
    }
  }

  /** Filtering commutes with concatenation, so relative order is kept. */
  lemma {:induction false} FilterAppend(a: seq<Flash>, b: seq<Flash>, categories: seq<string>)
    ensures FilterByCategory(a + b, categories)
         == FilterByCategory(a, categories) + FilterByCategory(b, categories)
  {
    if |a| > 0 {
      FilterAppend(a[1..], b, categories);
      assert (a + b)[0] == a[0];
      assert (a + b)[1..] == a[1..] + b;
    } else {
      assert a + b == b;
    }
  }

  /** A filter that no pending category matches yields the empty sequence. */
  lemma {:induction false} FilterNoMatch(es: seq<Flash>, categories: seq<string>)
    requires forall i :: 0 <= i < |es| ==> es[i].category !in categories
    ensures FilterByCategory(es, categories) == []
  {
    if |es| > 0 {
      FilterNoMatch(es[1..], categories);
    }
  }

  /** A filter that lists every pending category keeps the whole sequence. */
  lemma {:induction false} FilterAllMatch(es: seq<Flash>, categories: seq<string>)
    requires forall i :: 0 <= i < |es| ==> es[i].category in categories
    ensures FilterByCategory(es, categories) == es
  {
    if |es| > 0 {
      FilterAllMatch(es[1..], categories);
    }
  }

  // ---------------------------------------------------------------------------
  // The mailbox over a request.
  // ---------------------------------------------------------------------------

  /** A filtered read returns exactly the filtered pending pairs. */
  lemma FilteredRead(s: Session, categoryFilter: seq<string>)
    requires Pending(s).Ok?
    requires |categoryFilter| > 0
    ensures GetFlashed(Some(s), true, categoryFilter)
         == Ok((Some(s - {FlashesKey}), Pairs(FilterByCategory(Pending(s).value, categoryFilter))))
  {
  }

  /** Reading without categories gives the messages of the read with categories, pair by pair. */
  lemma MessagesProjectPairs(session: Option<Session>, categoryFilter: seq<string>)
    ensures GetFlashed(session, false, categoryFilter).Ok? <==> GetFlashed(session, true, categoryFilter).Ok?
    ensures GetFlashed(session, false, categoryFilter).Ok? ==>
      var plain := GetFlashed(session, false, categoryFilter).value;
      var full := GetFlashed(session, true, categoryFilter).value;
      && plain.0 == full.0
      && |plain.1.texts| == |full.1.pairs|
      && forall i :: 0 <= i < |full.1.pairs| ==> plain.1.texts[i] == full.1.pairs[i].message
  {
  }

  /** A read drains the mailbox: an immediate second read is empty and changes nothing more. */
  lemma DrainOnce(session: Option<Session>, withCategories: bool, categoryFilter: seq<string>,
                  again: bool, againFilter: seq<string>)
    requires GetFlashed(session, withCategories, categoryFilter).Ok?
    ensures var after := GetFlashed(session, withCategories, categoryFilter).value.0;
      && GetFlashed(after, again, againFilter).Ok?
      && GetFlashed(after, again, againFilter).value.0 == after
      && GetFlashed(after, again, againFilter).value.1.IsEmpty()
  {
    var after := GetFlashed(session, withCategories, categoryFilter).value.0;
    if after.Some? {
      assert after.value - {FlashesKey} == after.value;
    }
  }

  /** A run of flashes appends its pairs, in call order, after the pending ones. */
  lemma {:induction false} FlashesAccumulate(s: Session, fs: seq<Flash>)
    requires Pending(s).Ok?
    ensures FlashAll(Some(s), fs).Ok? && FlashAll(Some(s), fs).value.Some?
    ensures Pending(FlashAll(Some(s), fs).value.value) == Ok(Pending(s).value + fs)
    ensures SameExcept(FlashAll(Some(s), fs).value.value, s, FlashesKey)
  {
    if |fs| > 0 {
      var init := fs[..|fs| - 1];
      FlashesAccumulate(s, init);
      var p := Pending(s).value;
      var mid := FlashAll(Some(s), init).value;
      assert FlashAll(Some(s), fs) == AddFlash(mid, fs[|fs| - 1].message, Some(fs[|fs| - 1].category));
      assert Flash(fs[|fs| - 1].category, fs[|fs| - 1].message) == fs[|fs| - 1];
      assert p + fs == (p + init) + [fs[|fs| - 1]];
    } else {
      assert Pending(s).value + fs == Pending(s).value;
    }
  }

  /**
   After a run of flashes on a session with an empty mailbox, an unfiltered read
   returns the pairs in call order and a filtered read exactly the matching
   ones, in the same relative order.
   */
  lemma ReadAfterFlashes(s: Session, fs: seq<Flash>, categoryFilter: seq<string>)
    requires FlashesKey !in s
    ensures var after := FlashAll(Some(s), fs);
      && after.Ok?
      && GetFlashed(after.value, true, []) == Ok((Some(s), Pairs(fs)))
      && GetFlashed(after.value, true, categoryFilter)
         == Ok((Some(s), Pairs(if |categoryFilter| == 0 then fs else FilterByCategory(fs, categoryFilter))))
  {
    FlashesAccumulate(s, fs);
    assert Pending(s).value + fs == fs;
    var t := FlashAll(Some(s), fs).value.value;
    assert t - {FlashesKey} == s;
  }
}
