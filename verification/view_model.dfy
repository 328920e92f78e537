/** What app/components/PostInsights.tsx and app/components/AccountInsightsTable.tsx share: filtering a
    fixed metric order down to the metrics present, and turning a failed response into the text shown. */
module ViewModel {
  import opened Wrappers

  // ---------------------------------------------------------------------------
  // Ordered filtering
  // ---------------------------------------------------------------------------

  /** `a` can be obtained from `b` by deleting elements. */
  predicate IsSubsequence<T(==)>(a: seq<T>, b: seq<T>)
    decreases |b|
  {
    a == [] || (b != [] && (if a[0] == b[0] then IsSubsequence(a[1..], b[1..]) else IsSubsequence(a, b[1..])))
  }

  /** `order.filter(metric => metric in keys)`. */
  function KeepPresent(order: seq<string>, keys: set<string>): (kept: seq<string>)
    ensures forall m :: m in kept <==> m in order && m in keys
    ensures |kept| <= |order|
  {
    if order == [] then []
    else if order[0] in keys then [order[0]] + KeepPresent(order[1..], keys)
    else KeepPresent(order[1..], keys)
  }

  /** Nothing is kept when no key is in the order list. */
  lemma {:induction false} KeepPresentNone(order: seq<string>, keys: set<string>)
    requires forall m :: m in keys ==> m !in order
    ensures KeepPresent(order, keys) == []
  {
    if order != [] {
      assert order[0] !in keys;
      KeepPresentNone(order[1..], keys);
    }
  }

  /** The kept metrics appear in the order of the order list. */
  lemma {:induction false} KeepPresentIsSubsequence(order: seq<string>, keys: set<string>)
    ensures IsSubsequence(KeepPresent(order, keys), order)
  {
    if order != [] {
      KeepPresentIsSubsequence(order[1..], keys);
      var rest := KeepPresent(order[1..], keys);
      if order[0] in keys {
        assert ([order[0]] + rest)[1..] == rest;
      } else if rest != [] {
        assert rest[0] in rest;
      }
    }
  }

  predicate NoDuplicates<T(==)>(s: seq<T>) {
    forall i, j :: 0 <= i < j < |s| ==> s[i] != s[j]
  }

  /** Without duplicates in the order list, the kept list has none either. */
  lemma {:induction false} KeepPresentDistinct(order: seq<string>, keys: set<string>)
    requires NoDuplicates(order)
    ensures NoDuplicates(KeepPresent(order, keys))
  {
    if order != [] {
      KeepPresentDistinct(order[1..], keys);
      var rest := KeepPresent(order[1..], keys);
      assert order[0] !in order[1..] by {
        forall i | 0 <= i < |order[1..]| ensures order[1..][i] != order[0] {
          assert order[1..][i] == order[i + 1];
        }
      }
      assert order[0] !in rest;
      if order[0] in keys {
        var kept := [order[0]] + rest;
        assert KeepPresent(order, keys) == kept;
        forall i, j | 0 <= i < j < |kept| ensures kept[i] != kept[j] {
          assert kept[j] == rest[j - 1] && rest[j - 1] in rest;
          if i > 0 {
            assert kept[i] == rest[i - 1];
          } else {
            assert kept[i] == order[0];
          }
        }
      }
    }
  }

  // ---------------------------------------------------------------------------
  // The message shown for a failed response
  // ---------------------------------------------------------------------------

  /** The `facebookError` object of an error response. */
  datatype FacebookErrorBody = FacebookErrorBody(message: Option<string>, errorUserMsg: Option<string>)

  /** The fields of an error response the components read; a body that is not JSON reads as `{}`. */
  datatype ErrorBody = ErrorBody(error: Option<string>, message: Option<string>, facebookError: Option<FacebookErrorBody>)

  const UNREADABLE_BODY: ErrorBody := ErrorBody(None, None, None)

  /** `body?.message ?? body?.facebookError?.message ?? body?.facebookError?.error_user_msg`:
      the first of the three that is present, even when it is empty. */
  function ApiMessage(body: ErrorBody): (m: Option<string>)
    ensures m.Some? <==>
      body.message.Some? || (body.facebookError.Some?
                             && (body.facebookError.value.message.Some? || body.facebookError.value.errorUserMsg.Some?))
    ensures body.message.Some? ==> m == body.message
    ensures m.Some? && body.message.None? ==>
      m == body.facebookError.value.message || (body.facebookError.value.message.None? && m == body.facebookError.value.errorUserMsg)
  {
    match body.message
    case Some(_) => body.message
    case None =>
      match body.facebookError
      case None => None
      case Some(fb) => if fb.message.Some? then fb.message else fb.errorUserMsg
  }

  /** The three texts of a component: for an expired session, for a failure (followed by the API message
      when there is one), and for a response that could not be read at all. */
  datatype Texts = Texts(expired: string, failure: string, unexpected: string)

  /** The error text: the expired text for `not_authenticated`, else the failure text with the API
      message appended after a space when that message is non-empty, else the failure text alone. */
  function ErrorMessage(body: ErrorBody, texts: Texts): (text: string)
    ensures body.error == Some("not_authenticated") ==> text == texts.expired
    ensures body.error != Some("not_authenticated") ==>
      (if Truthy(ApiMessage(body)) then text == texts.failure + " " + ApiMessage(body).value
       else text == texts.failure)
  {
    if body.error == Some("not_authenticated") then texts.expired
    else
      var api := ApiMessage(body);
      if Truthy(api) then texts.failure + " " + api.value else texts.failure
  }

  /** An empty top-level `message` hides the Graph API's own message: `??` stops at the empty string
      and the truthiness test then drops it, so the generic text is shown. */
  lemma EmptyMessageHidesFacebookMessage(body: ErrorBody, texts: Texts)
    requires body.error != Some("not_authenticated")
    requires body.message == Some("")
    ensures ErrorMessage(body, texts) == texts.failure
  {
  }

  /** The priority of the three sources: expired beats any message, a top-level message beats the
      Graph API's, and the Graph API's `message` beats its `error_user_msg`. */
  lemma MessagePriority(body: ErrorBody, texts: Texts, m: string)
    requires body.error != Some("not_authenticated") && m != ""
    ensures body.message == Some(m) ==> ErrorMessage(body, texts) == texts.failure + " " + m
    ensures body.message.None? && body.facebookError.Some? && body.facebookError.value.message == Some(m) ==>
      ErrorMessage(body, texts) == texts.failure + " " + m
    ensures (body.message.None? && body.facebookError.Some? && body.facebookError.value.message.None?
             && body.facebookError.value.errorUserMsg == Some(m)) ==>
      ErrorMessage(body, texts) == texts.failure + " " + m
  {
  }

  /** A body that could not be read gives the failure text alone. */
  lemma UnreadableBodyMessage(texts: Texts)
    ensures ErrorMessage(UNREADABLE_BODY, texts) == texts.failure
  {
  }
}
