/** The Yelp adapter: the discovery call to the AI chat API with its
    request defaults and response normalisation, and the two per-id fetch
    loops (business details and reviews). Every HTTP exchange is a
    function parameter that yields the response or the error. */
module YelpChat {

  import opened Outcomes
  import opened JsValues
  import opened Records

  /** The only error `queryYelpAI` ever throws. */
  const DiscoveryFailure := "Failed to query Yelp AI Chat API"

  /** What `fetchReviews` throws when a stored value has no `length`. The
      source's message says "of null" for a null `reviews`; one message
      stands for both, since the handler only ever answers with its generic
      500 and no client sees this text. */
  const ReviewsTypeError := "TypeError: Cannot read properties of undefined (reading 'length')"

  datatype HttpError = HttpError(message: string)

  /** The `userContext` argument of `queryYelpAI`; a missing field is `Undefined`. */
  datatype UserContext = UserContext(locale: Value, latitude: Value, longitude: Value, chatId: Value)

  /** The body posted to the chat API; `chatId` is absent unless supplied. */
  datatype Payload = Payload(query: Value, locale: Value, latitude: Value, longitude: Value, chatId: Option<Value>)

  const DefaultLocale := Str("en_US")
  const DefaultLatitude := Num(40.7128)
  const DefaultLongitude := Num(-74.0060)

  /** The request body: each `user_context` field is the supplied value when
      it is truthy and the default otherwise (so a latitude of 0 is
      replaced); `chat_id` is sent only when it is truthy. */
  function BuildPayload(query: Value, ctx: UserContext): (p: Payload)
    ensures p.query == query
    ensures Truthy(p.locale) && Truthy(p.latitude) && Truthy(p.longitude)
    ensures p.locale == (if Truthy(ctx.locale) then ctx.locale else DefaultLocale)
    ensures p.latitude == (if Truthy(ctx.latitude) then ctx.latitude else DefaultLatitude)
    ensures p.longitude == (if Truthy(ctx.longitude) then ctx.longitude else DefaultLongitude)
    ensures p.chatId.Some? <==> Truthy(ctx.chatId)
    ensures p.chatId.Some? ==> p.chatId.value == ctx.chatId
  {
    Payload(query, Or(ctx.locale, DefaultLocale), Or(ctx.latitude, DefaultLatitude),
            Or(ctx.longitude, DefaultLongitude), if Truthy(ctx.chatId) then Some(ctx.chatId) else None)
  }

  /** The context a payload carries. */
  function ContextOf(p: Payload): UserContext {
    UserContext(p.locale, p.latitude, p.longitude, if p.chatId.Some? then p.chatId.value else Undefined)
  }

  /** Applying the defaults to an already defaulted request changes nothing. */
  lemma {:induction false} BuildPayloadIdempotent(query: Value, ctx: UserContext)
    ensures BuildPayload(query, ContextOf(BuildPayload(query, ctx))) == BuildPayload(query, ctx)
  {
  }

  datatype SearchResults = SearchResults(businesses: Option<seq<Business>>)

  /** An entry of `response.business_results`: its businesses sit either
      under `search_results.businesses` or directly under `businesses`. */
  datatype BusinessResult = BusinessResult(searchResults: Option<SearchResults>, businesses: Option<seq<Business>>)

  datatype TagMeta = TagMeta(businessId: Option<string>)

  datatype Tag = Tag(tagType: Option<string>, meta: Option<TagMeta>)

  datatype ChatReply = ChatReply(text: Option<string>, businessResults: Option<seq<BusinessResult>>, tags: Option<seq<Tag>>)

  /** The JSON body the chat API answers with. */
  datatype ChatData = ChatData(chatId: Value, response: Option<ChatReply>)

  /** What `queryYelpAI` resolves to. */
  datatype YelpResult = YelpResult(
    chatId: Value,
    conversationalResponse: string,
    businesses: seq<Business>,
    businessIds: seq<string>,
    raw: ChatData)

  /** The businesses one `business_results` entry contributes: those under
      `search_results` when present, otherwise its own, never both. */
  function Contribution(r: BusinessResult): seq<Business> {
    if r.searchResults.Some? && r.searchResults.value.businesses.Some? then r.searchResults.value.businesses.value
    else if r.businesses.Some? then r.businesses.value
    else []
  }

  /** The business list: the contributions of the entries in encounter order. */
  function MergedBusinesses(rs: seq<BusinessResult>): seq<Business> {
    if rs == [] then [] else MergedBusinesses(rs[..|rs| - 1]) + Contribution(rs[|rs| - 1])
  }

  lemma {:induction false} MergedBusinessesAppend(a: seq<BusinessResult>, b: seq<BusinessResult>)
    ensures MergedBusinesses(a + b) == MergedBusinesses(a) + MergedBusinesses(b)
  {
    if b == [] {
      assert a + b == a;
    } else {
      var front, last := b[..|b| - 1], b[|b| - 1];
      assert (a + b)[..|a + b| - 1] == a + front;
      assert (a + b)[|a + b| - 1] == last;
      MergedBusinessesAppend(a, front);
      assert MergedBusinesses(a + b) == MergedBusinesses(a + front) + Contribution(last);
      assert MergedBusinesses(b) == MergedBusinesses(front) + Contribution(last);
    }
  }

  /** Entry `i` contributes its businesses right after those of the entries
      before it and right before those of the entries after it. */
  lemma {:induction false} MergedBusinessesAt(rs: seq<BusinessResult>, i: nat)
    requires i < |rs|
    ensures MergedBusinesses(rs) == MergedBusinesses(rs[..i]) + Contribution(rs[i]) + MergedBusinesses(rs[i + 1..])
  {
    var before, after := rs[..i + 1], rs[i + 1..];
    assert rs == before + after;
    MergedBusinessesAppend(before, after);
    assert before[..|before| - 1] == rs[..i];
    assert MergedBusinesses(before) == MergedBusinesses(rs[..i]) + Contribution(rs[i]);
  }

  /** A business is in the merged list exactly when some entry contributes it. */
  lemma {:induction false} MergedBusinessesMember(rs: seq<BusinessResult>, b: Business)
    ensures b in MergedBusinesses(rs) <==> exists i :: 0 <= i < |rs| && b in Contribution(rs[i])
  {
    if rs != [] {
      var n := |rs| - 1;
      var front := rs[..n];
      assert MergedBusinesses(rs) == MergedBusinesses(front) + Contribution(rs[n]);
      MergedBusinessesMember(front, b);
      if b in MergedBusinesses(rs) {
        if b in MergedBusinesses(front) {
          var i :| 0 <= i < n && b in Contribution(front[i]);
          assert front[i] == rs[i];
        } else {
          assert b in Contribution(rs[n]);
        }
      }
      if exists i :: 0 <= i < |rs| && b in Contribution(rs[i]) {
        var i :| 0 <= i < |rs| && b in Contribution(rs[i]);
        if i < n {
          assert front[i] == rs[i];
          assert b in MergedBusinesses(front);
        }
      }
    }
  }

  /** The merged list is empty exactly when no entry contributes a business. */
  lemma {:induction false} MergedBusinessesEmpty(rs: seq<BusinessResult>)
    ensures MergedBusinesses(rs) == [] <==> forall i :: 0 <= i < |rs| ==> Contribution(rs[i]) == []
  {
    var merged := MergedBusinesses(rs);
    if merged != [] {
      MergedBusinessesMember(rs, merged[0]);
    }
    if i :| 0 <= i < |rs| && Contribution(rs[i]) != [] {
      MergedBusinessesMember(rs, Contribution(rs[i])[0]);
    }
  }

  /** A tag names a business when its type is `'business'` and it carries a
      truthy `meta.business_id`. */
  predicate IsBusinessTag(t: Tag) {
    t.tagType == Some("business") && t.meta.Some? && t.meta.value.businessId.Some? && t.meta.value.businessId.value != ""
  }

  /** The business ids named by the tags, in tag order; each is non-empty. */
  function TaggedIds(tags: seq<Tag>): (ids: seq<string>)
    ensures |ids| <= |tags|
    ensures forall k :: 0 <= k < |ids| ==> ids[k] != ""
  {
    if tags == [] then []
    else
      var last := tags[|tags| - 1];
      TaggedIds(tags[..|tags| - 1]) + (if IsBusinessTag(last) then [last.meta.value.businessId.value] else [])
  }

  /** An id is collected exactly when some business tag carries it. */
  lemma {:induction false} TaggedIdsMember(tags: seq<Tag>, id: string)
    ensures id in TaggedIds(tags) <==>
      exists i :: 0 <= i < |tags| && IsBusinessTag(tags[i]) && tags[i].meta.value.businessId.value == id
  {
    if tags != [] {
      var n := |tags| - 1;
      TaggedIdsMember(tags[..n], id);
      if id in TaggedIds(tags[..n]) {
        var i :| 0 <= i < n && IsBusinessTag(tags[..n][i]) && tags[..n][i].meta.value.businessId.value == id;
        assert tags[..n][i] == tags[i];
      }
      if exists i :: 0 <= i < |tags| && IsBusinessTag(tags[i]) && tags[i].meta.value.businessId.value == id {
        var i :| 0 <= i < |tags| && IsBusinessTag(tags[i]) && tags[i].meta.value.businessId.value == id;
        if i < n {
          assert tags[..n][i] == tags[i];
        }
      }
    }
  }

  function ResultsOf(data: ChatData): seq<BusinessResult> {
    if data.response.Some? && data.response.value.businessResults.Some? then data.response.value.businessResults.value else []
  }

  function TagsOf(data: ChatData): seq<Tag> {
    if data.response.Some? && data.response.value.tags.Some? then data.response.value.tags.value else []
  }

  /** `response?.text || ''`. */
  function ReplyText(data: ChatData): string {
    if data.response.Some? && data.response.value.text.Some? then data.response.value.text.value else ""
  }

  /** The normalised discovery result for a chat API answer: the chat id
      and the raw answer pass through, a missing `response`,
      `business_results` or `tags` gives empty lists, a missing text an
      empty reply, and there is at most one non-empty id per tag. */
  function Normalize(data: ChatData): (y: YelpResult)
    ensures y.chatId == data.chatId && y.raw == data
    ensures data.response.None? ==> y.businesses == [] && y.businessIds == []
    ensures data.response.None? || data.response.value.text.None? ==> y.conversationalResponse == ""
    ensures data.response.Some? && data.response.value.text.Some? ==> y.conversationalResponse == data.response.value.text.value
    ensures data.response.Some? && data.response.value.businessResults.None? ==> y.businesses == []
    ensures data.response.Some? && data.response.value.tags.None? ==> y.businessIds == []
    ensures |y.businessIds| <= |TagsOf(data)| && forall k :: 0 <= k < |y.businessIds| ==> y.businessIds[k] != ""
    ensures y.businesses == MergedBusinesses(ResultsOf(data)) && y.businessIds == TaggedIds(TagsOf(data))
  {
    YelpResult(data.chatId, ReplyText(data), MergedBusinesses(ResultsOf(data)), TaggedIds(TagsOf(data)), data)
  }

  /** `queryYelpAI(userQuery, userContext)`: posts the defaulted payload and
      normalises the answer; any failure of the call becomes the single
      discovery error. */
  method QueryYelpAI(userQuery: Value, ctx: UserContext, post: Payload -> Result<ChatData, HttpError>)
    returns (r: Result<YelpResult, string>)
    ensures post(BuildPayload(userQuery, ctx)).Failure? ==> r == Failure(DiscoveryFailure)
    ensures post(BuildPayload(userQuery, ctx)).Success? ==> r == Success(Normalize(post(BuildPayload(userQuery, ctx)).value))
  {
    var payload := BuildPayload(userQuery, ctx);
    var response := post(payload);
    if response.Failure? {
      return Failure(DiscoveryFailure);
    }
    var data := response.value;

    var businesses: seq<Business> := [];
    if data.response.Some? && data.response.value.businessResults.Some? {
      var results := data.response.value.businessResults.value;
      for i := 0 to |results|
        invariant businesses == MergedBusinesses(results[..i])
      {
        var result := results[i];
        if result.searchResults.Some? && result.searchResults.value.businesses.Some? {
          businesses := businesses + result.searchResults.value.businesses.value;
        } else if result.businesses.Some? {
          businesses := businesses + result.businesses.value;
        }
        assert results[..i + 1][..i] == results[..i];
      }
      assert results[..|results|] == results;
    }

    var businessIds: seq<string> := [];
    if data.response.Some? && data.response.value.tags.Some? {
      var tags := data.response.value.tags.value;
      for i := 0 to |tags|
        invariant businessIds == TaggedIds(tags[..i])
      {
        var tag := tags[i];
        if tag.tagType == Some("business") && tag.meta.Some? && tag.meta.value.businessId.Some?
          && tag.meta.value.businessId.value != ""
        {
          businessIds := businessIds + [tag.meta.value.businessId.value];
        }
        assert tags[..i + 1][..i] == tags[..i];
      }
      assert tags[..|tags|] == tags;
    }

    var text := if data.response.Some? && data.response.value.text.Some? then data.response.value.text.value else "";
    return Success(YelpResult(data.chatId, text, businesses, businessIds, data));
  }

  /** The successfully fetched detail records, in id order. */
  function FetchedDetails(ids: seq<string>, get: string -> Result<Business, HttpError>): (details: seq<Business>)
    ensures |details| <= |ids|
  {
    if ids == [] then []
    else
      var last := get(ids[|ids| - 1]);
      FetchedDetails(ids[..|ids| - 1], get) + (if last.Success? then [last.value] else [])
  }

  lemma {:induction false} FetchedDetailsAppend(a: seq<string>, b: seq<string>, get: string -> Result<Business, HttpError>)
    ensures FetchedDetails(a + b, get) == FetchedDetails(a, get) + FetchedDetails(b, get)
  {
    if b == [] {
      assert a + b == a;
    } else {
      assert (a + b)[..|a + b| - 1] == a + b[..|b| - 1];
      FetchedDetailsAppend(a, b[..|b| - 1], get);
    }
  }

  /** A record is returned exactly when the fetch of some input id yielded it. */
  lemma {:induction false} FetchedDetailsMember(ids: seq<string>, get: string -> Result<Business, HttpError>, b: Business)
    ensures b in FetchedDetails(ids, get) <==> exists i :: 0 <= i < |ids| && get(ids[i]) == Success(b)
  {
    if ids != [] {
      var n := |ids| - 1;
      FetchedDetailsMember(ids[..n], get, b);
      if b in FetchedDetails(ids[..n], get) {
        var i :| 0 <= i < n && get(ids[..n][i]) == Success(b);
        assert ids[..n][i] == ids[i];
      }
      if exists i :: 0 <= i < |ids| && get(ids[i]) == Success(b) {
        var i :| 0 <= i < |ids| && get(ids[i]) == Success(b);
        if i < n {
          assert ids[..n][i] == ids[i];
        }
      }
    }
  }

  /** When no fetch fails, the i-th record is the i-th id's. */
  lemma {:induction false} FetchedDetailsAllSucceed(ids: seq<string>, get: string -> Result<Business, HttpError>)
    requires forall i :: 0 <= i < |ids| ==> get(ids[i]).Success?
    ensures |FetchedDetails(ids, get)| == |ids|
    ensures forall i :: 0 <= i < |ids| ==> FetchedDetails(ids, get)[i] == get(ids[i]).value
  {
    if ids != [] {
      var n := |ids| - 1;
      var prior := ids[..n];
      assert forall i :: 0 <= i < n ==> prior[i] == ids[i];
      FetchedDetailsAllSucceed(prior, get);
      var d := FetchedDetails(ids, get);
      assert d == FetchedDetails(prior, get) + [get(ids[n]).value];
      forall i | 0 <= i < |ids|
        ensures d[i] == get(ids[i]).value
      {
        if i < n {
          assert d[i] == FetchedDetails(prior, get)[i];
        }
      }
    }
  }

  /** `fetchBusinessDetails(businessIds)`: one GET per id in order; a failed
      GET is skipped. */
  method FetchBusinessDetails(ids: seq<string>, get: string -> Result<Business, HttpError>)
    returns (details: seq<Business>)
    ensures details == FetchedDetails(ids, get)
  {
    details := [];
    for i := 0 to |ids|
      invariant details == FetchedDetails(ids[..i], get)
    {
      var response := get(ids[i]);
      if response.Success? {
        details := details + [response.value];
      }
      assert ids[..i + 1][..i] == ids[..i];
    }
    assert ids[..|ids|] == ids;
  }

  /** The body of a reviews GET; `reviews` is absent when the field is
      missing (undefined or null). */
  datatype ReviewsPayload = ReviewsPayload(reviews: Option<seq<Review>>)

  /** What `fetchReviews` stores for one id: the response's `reviews`, or
      `[]` when the GET failed. */
  function StoredReviews(response: Result<ReviewsPayload, HttpError>): Option<seq<Review>> {
    match response
    case Success(p) => p.reviews
    case Failure(_) => Some([])
  }

  /** The distinct ids in order of first occurrence: the key order of an
      object assigned once per id. */
  function FirstOccurrences(ids: seq<string>): (keys: seq<string>)
    ensures forall k :: k in keys <==> k in ids
    ensures forall i, j :: 0 <= i < j < |keys| ==> keys[i] != keys[j]
  {
    if ids == [] then []
    else
      var prior := FirstOccurrences(ids[..|ids| - 1]);
      var last := ids[|ids| - 1];
      assert forall k :: k in ids <==> k in ids[..|ids| - 1] || k == last;
      if last in prior then prior else prior + [last]
  }

  /** The object `fetchReviews` fills: each id assigned, in order, what is
      stored for it. */
  function StoredMap(ids: seq<string>, get: string -> Result<ReviewsPayload, HttpError>): JsObject<Option<seq<Review>>> {
    if ids == [] then EmptyObject()
    else Put(StoredMap(ids[..|ids| - 1], get), ids[|ids| - 1], StoredReviews(get(ids[|ids| - 1])))
  }

  /** The filled object has a key for every id, once, in order of first
      occurrence, holding what was stored for that id. */
  lemma {:induction false} StoredMapShape(ids: seq<string>, get: string -> Result<ReviewsPayload, HttpError>)
    ensures StoredMap(ids, get).keys == FirstOccurrences(ids)
    ensures forall k :: k in StoredMap(ids, get).entries <==> k in ids
    ensures forall k :: k in StoredMap(ids, get).entries ==> StoredMap(ids, get).entries[k] == StoredReviews(get(k))
  {
    if ids != [] {
      var n := |ids| - 1;
      StoredMapShape(ids[..n], get);
      assert forall k :: k in ids <==> k in ids[..n] || k == ids[n];
    }
  }

  /** What `fetchReviews` resolves to: the reviews by id, or the error its
      final count throws when a stored value is missing; every key holds
      what its GET gave (`[]` for a failed one). */
  function ReviewsResult(ids: seq<string>, get: string -> Result<ReviewsPayload, HttpError>): (r: Result<JsObject<seq<Review>>, string>)
    ensures r.Failure? ==> r.error == ReviewsTypeError
    ensures r.Success? ==> forall k :: k in r.value.entries ==> k in ids && StoredReviews(get(k)) == Some(r.value.entries[k])
  {
    StoredMapShape(ids, get);
    var all := StoredMap(ids, get);
    if HasMissing(all) then Failure(ReviewsTypeError) else Success(Unwrapped(all))
  }

  /** Some id stored a missing (undefined or null) value. */
  predicate HasMissing(all: JsObject<Option<seq<Review>>>) {
    exists k :: k in all.entries && all.entries[k].None?
  }

  /** The same object, seen as holding arrays only. */
  function Unwrapped(all: JsObject<Option<seq<Review>>>): (r: JsObject<seq<Review>>)
    requires !HasMissing(all)
    ensures r.keys == all.keys
    ensures forall k :: k in r.entries <==> k in all.entries
    ensures forall k :: k in r.entries ==> all.entries[k] == Some(r.entries[k])
  {
    Dict(all.keys, map k | k in all.entries :: all.entries[k].value)
  }

  /** The result has a key for every input id; a failed GET gives `[]`, a
      successful one its `reviews`; it is an error exactly when some
      response had no `reviews` field. */
  lemma {:induction false} ReviewsResultShape(ids: seq<string>, get: string -> Result<ReviewsPayload, HttpError>)
    ensures var r := ReviewsResult(ids, get);
      r.Failure? <==> exists i :: 0 <= i < |ids| && StoredReviews(get(ids[i])).None?
    ensures var r := ReviewsResult(ids, get);
      r.Failure? ==> r.error == ReviewsTypeError
    ensures var r := ReviewsResult(ids, get);
      r.Success? ==> r.value.keys == FirstOccurrences(ids) && forall k :: k in r.value.entries <==> k in ids
    ensures var r := ReviewsResult(ids, get);
      r.Success? ==> forall k :: k in r.value.entries && get(k).Failure? ==> r.value.entries[k] == []
    ensures var r := ReviewsResult(ids, get);
      r.Success? ==> forall k :: k in r.value.entries && get(k).Success? ==> get(k).value.reviews == Some(r.value.entries[k])
  {
    StoredMapShape(ids, get);
    var all := StoredMap(ids, get);
    if exists i :: 0 <= i < |ids| && StoredReviews(get(ids[i])).None? {
      var i :| 0 <= i < |ids| && StoredReviews(get(ids[i])).None?;
      assert ids[i] in all.entries && all.entries[ids[i]].None?;
    }
    if HasMissing(all) {
      var k :| k in all.entries && all.entries[k].None?;
      var i :| 0 <= i < |ids| && ids[i] == k;
    }
  }

  /** `fetchReviews(businessIds)`: one GET per id, each result stored under
      its id (a failed GET stores `[]`); the final count of all reviews
      throws when a stored value is missing. */
  method FetchReviews(ids: seq<string>, get: string -> Result<ReviewsPayload, HttpError>)
    returns (r: Result<JsObject<seq<Review>>, string>)
    ensures r == ReviewsResult(ids, get)
  {
    var all := CollectReviews(ids, get);
    if HasMissing(all) {
      return Failure(ReviewsTypeError);
    }
    return Success(Unwrapped(all));
  }

  /** The `allReviews[businessId] = ...` loop of `fetchReviews`. */
  method CollectReviews(ids: seq<string>, get: string -> Result<ReviewsPayload, HttpError>)
    returns (all: JsObject<Option<seq<Review>>>)
    ensures all == StoredMap(ids, get)
  {
    all := EmptyObject();
    for i := 0 to |ids|
      invariant all == StoredMap(ids[..i], get)
    {
      assert ids[..i + 1][..i] == ids[..i];
      all := Put(all, ids[i], StoredReviews(get(ids[i])));
    }
    assert ids[..|ids|] == ids;
  }
}
