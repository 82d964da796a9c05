/** The `POST /analyze` handler: discovery through the chat API, the
    business-details fallback, the review lookup, the market analysis and
    the merge of the response, with every collaborator an abstract outcome. */
module AnalyzeHandler {

  import opened Outcomes
  import opened JsValues
  import opened Records
  import opened YelpChat
  import opened JsonRecovery
  import opened Gemini

  const QueryRequired := "Query is required"
  const NoCompetitors := "No competitors found to analyze."
  const AnalyzeFailure := "Failed to analyze market opportunity."

  /** The user context the handler passes to discovery: New York City's
      coordinates, no locale and no chat id. */
  const DiscoveryContext := UserContext(Undefined, Num(40.7128), Num(-74.0060), Undefined)

  /** The collaborators: the chat API, the business-details and reviews
      GETs, the model call and `JSON.parse`. */
  datatype Services = Services(
    post: Payload -> Result<ChatData, HttpError>,
    details: string -> Result<Business, HttpError>,
    reviews: string -> Result<ReviewsPayload, HttpError>,
    generate: AnalysisPrompt -> Result<string, GenerationError>,
    parse: Parser)

  /** The collaborator calls a request makes, in order. */
  datatype Call =
    | Discovery
    | LookUpDetails(ids: seq<string>)
    | LookUpReviews(ids: seq<string>)
    | Analysis

  datatype Response = Response(status: nat, body: JsObject<Value>)

  /** `{ error: message }`. */
  function ErrorBody(message: string): (r: JsObject<Value>)
    ensures r.keys == ["error"] && Get(r, "error") == Some(Str(message))
  {
    Put(EmptyObject(), "error", Str(message))
  }

  /** `{ error: 'No competitors found to analyze.', yelp_response }`. */
  function NotFoundBody(conversation: string): (r: JsObject<Value>)
    ensures r.keys == ["error", "yelp_response"]
    ensures Get(r, "error") == Some(Str(NoCompetitors)) && Get(r, "yelp_response") == Some(Str(conversation))
  {
    Put(ErrorBody(NoCompetitors), "yelp_response", Str(conversation))
  }

  /** Whether the business-details fallback runs. */
  predicate NeedsDetails(y: YelpResult) {
    |y.businesses| == 0 && |y.businessIds| > 0
  }

  /** The details fetch, when the fallback runs. */
  function DetailCalls(y: YelpResult): seq<Call> {
    if NeedsDetails(y) then [LookUpDetails(y.businessIds)] else []
  }

  /** The business list after the fallback: the discovered businesses when
      there are any or there is no id to look up, otherwise at most one
      fetched record per id. */
  function Competitors(y: YelpResult, details: string -> Result<Business, HttpError>): (bs: seq<Business>)
    ensures !NeedsDetails(y) ==> bs == y.businesses
    ensures |y.businesses| > 0 ==> bs == y.businesses
    ensures NeedsDetails(y) ==> bs == FetchedDetails(y.businessIds, details) && |bs| <= |y.businessIds|
  {
    if NeedsDetails(y) then FetchedDetails(y.businessIds, details) else y.businesses
  }

  /** `yelpResult.business_ids || businesses.map(b => b.id)`: an array,
      even an empty one, is truthy, so the businesses' own ids are used
      only when the field is absent. */
  function ReviewIds(businessIds: Option<seq<string>>, bs: seq<Business>): seq<string> {
    if businessIds.Some? then businessIds.value else seq(|bs|, i requires 0 <= i < |bs| => bs[i].id)
  }

  /** What `analyzeResults` resolves to: its single error, or an analysis
      that lists personas; a failed model call is that error. */
  function AnalysisOf(bs: seq<Business>, query: Value, conversation: string, reviews: JsObject<seq<Review>>, s: Services)
    : (r: Result<JsObject<Value>, string>)
    ensures r.Failure? ==> r.error == AnalysisFailure
    ensures r.Success? ==> Truthy(Field(r.value, "personas"))
    ensures var reply := s.generate(PromptFor(bs, query, conversation, reviews));
      (reply.Failure? ==> r.Failure?) && (reply.Success? ==> r == DecodeAnalysis(reply.value, s.parse))
  {
    var reply := s.generate(PromptFor(bs, query, conversation, reviews));
    if reply.Failure? then Failure(AnalysisFailure) else DecodeAnalysis(reply.value, s.parse)
  }

  /** `{ ...analysisResult, yelp_insight, chat_id, reviews }`: every key of
      the analysis is kept in its place, and the three added keys win over
      same-named analysis keys. */
  function MergeResponse(analysis: JsObject<Value>, y: YelpResult, reviews: JsObject<seq<Review>>): (r: JsObject<Value>)
    ensures Get(r, "yelp_insight") == Some(Str(y.conversationalResponse))
    ensures Get(r, "chat_id") == Some(y.chatId)
    ensures Get(r, "reviews") == Some(ReviewsValue(reviews))
    ensures forall k :: k != "yelp_insight" && k != "chat_id" && k != "reviews" ==> Get(r, k) == Get(analysis, k)
  {
    var a := Put(analysis, "yelp_insight", Str(y.conversationalResponse));
    var b := Put(a, "chat_id", y.chatId);
    Put(b, "reviews", ReviewsValue(reviews))
  }

  /** The merged body lists the analysis keys first, in their order, and
      adds at most the three handler keys after them. */
  lemma {:induction false} MergeKeepsKeyOrder(analysis: JsObject<Value>, y: YelpResult, reviews: JsObject<seq<Review>>)
    ensures var r := MergeResponse(analysis, y, reviews);
      analysis.keys <= r.keys && |r.keys| <= |analysis.keys| + 3
  {
    var a := Put(analysis, "yelp_insight", Str(y.conversationalResponse));
    var b := Put(a, "chat_id", y.chatId);
    PutExtendsKeys(analysis, "yelp_insight", Str(y.conversationalResponse));
    PutExtendsKeys(a, "chat_id", y.chatId);
    PutExtendsKeys(b, "reviews", ReviewsValue(reviews));
    PrefixTransitive(analysis.keys, a.keys, b.keys);
    PrefixTransitive(analysis.keys, b.keys, MergeResponse(analysis, y, reviews).keys);
  }

  /** `queryYelpAI(query, { latitude, longitude })` as the handler sees it:
      the request carries the default locale, New York City's coordinates
      and no chat id; a failed call is the single discovery error, and an
      answer is normalised. */
  function Discover(query: Value, s: Services): (r: Result<YelpResult, string>)
    ensures var reply := s.post(Payload(query, DefaultLocale, Num(40.7128), Num(-74.0060), None));
      (r.Success? <==> reply.Success?) && (r.Failure? ==> r.error == DiscoveryFailure)
    ensures var reply := s.post(Payload(query, DefaultLocale, Num(40.7128), Num(-74.0060), None));
      r.Success? ==> r.value.raw == reply.value && r.value.chatId == reply.value.chatId
    ensures var reply := s.post(Payload(query, DefaultLocale, Num(40.7128), Num(-74.0060), None));
      r.Success? ==> r.value == Normalize(reply.value)
  {
    var reply := s.post(BuildPayload(query, DiscoveryContext));
    if reply.Failure? then Failure(DiscoveryFailure) else Success(Normalize(reply.value))
  }

  /** The rest of a request once competitors were found: the reviews for
      the discovery's ids, then the analysis and the merge. */
  function AfterCompetitors(query: Value, y: YelpResult, bs: seq<Business>, s: Services): (r: (Response, seq<Call>))
    ensures r.1 == [LookUpReviews(y.businessIds)] || r.1 == [LookUpReviews(y.businessIds), Analysis]
    ensures r.0.status == 200 || r.0 == Response(500, ErrorBody(AnalyzeFailure))
    ensures r.0.status == 200 ==> r.1 == [LookUpReviews(y.businessIds), Analysis]
    ensures var reviews := ReviewsResult(y.businessIds, s.reviews);
      reviews.Failure? ==> r == (Response(500, ErrorBody(AnalyzeFailure)), [LookUpReviews(y.businessIds)])
    ensures var reviews := ReviewsResult(y.businessIds, s.reviews);
      reviews.Success? ==>
        var analysis := AnalysisOf(bs, query, y.conversationalResponse, reviews.value, s);
        (analysis.Failure? ==> r == (Response(500, ErrorBody(AnalyzeFailure)), [LookUpReviews(y.businessIds), Analysis]))
        && (analysis.Success? ==> r.0 == Response(200, MergeResponse(analysis.value, y, reviews.value)))
  {
    var ids := ReviewIds(Some(y.businessIds), bs);
    var reviews := ReviewsResult(ids, s.reviews);
    if reviews.Failure? then (Response(500, ErrorBody(AnalyzeFailure)), [LookUpReviews(ids)])
    else
      var analysis := AnalysisOf(bs, query, y.conversationalResponse, reviews.value, s);
      if analysis.Failure? then (Response(500, ErrorBody(AnalyzeFailure)), [LookUpReviews(ids), Analysis])
      else (Response(200, MergeResponse(analysis.value, y, reviews.value)), [LookUpReviews(ids), Analysis])
  }

  /** The rest of a request once discovery answered: the details fallback,
      the 404 when there is still nothing to analyze, and the rest. */
  function AfterDiscovery(query: Value, y: YelpResult, s: Services): (r: (Response, seq<Call>))
    ensures r.0.status in {200, 404, 500}
    ensures r.0.status == 500 ==> r.0.body == ErrorBody(AnalyzeFailure)
    ensures r.0.status == 404 <==> |Competitors(y, s.details)| == 0
    ensures r.0.status == 404 ==> r.0.body == NotFoundBody(y.conversationalResponse)
    ensures r.0.status == 404 ==> r.1 == DetailCalls(y)
    ensures r.1 == DetailCalls(y) || r.1 == DetailCalls(y) + [LookUpReviews(y.businessIds)]
      || r.1 == DetailCalls(y) + [LookUpReviews(y.businessIds), Analysis]
  {
    var found := DetailCalls(y);
    var bs := Competitors(y, s.details);
    if |bs| == 0 then (Response(404, NotFoundBody(y.conversationalResponse)), found)
    else
      var rest := AfterCompetitors(query, y, bs, s);
      (rest.0, found + rest.1)
  }

  /** After discovery, the details of `ids` are fetched exactly when there
      are business ids but no businesses, and `ids` are those ids. */
  lemma {:induction false} DetailCallsAfterDiscovery(query: Value, y: YelpResult, s: Services, ids: seq<string>)
    ensures LookUpDetails(ids) in AfterDiscovery(query, y, s).1 <==> NeedsDetails(y) && ids == y.businessIds
  {
    CallsAfterDiscovery(y, AfterDiscovery(query, y, s).1, ids);
  }

  /** After discovery, reviews are only ever requested for the business ids. */
  lemma {:induction false} ReviewCallsAfterDiscovery(query: Value, y: YelpResult, s: Services, ids: seq<string>)
    requires LookUpReviews(ids) in AfterDiscovery(query, y, s).1
    ensures ids == y.businessIds
  {
    CallsAfterDiscovery(y, AfterDiscovery(query, y, s).1, ids);
  }

  /** What a call list of the shape `AfterDiscovery` produces contains. */
  lemma {:induction false} CallsAfterDiscovery(y: YelpResult, calls: seq<Call>, ids: seq<string>)
    requires calls == DetailCalls(y) || calls == DetailCalls(y) + [LookUpReviews(y.businessIds)]
      || calls == DetailCalls(y) + [LookUpReviews(y.businessIds), Analysis]
    ensures LookUpDetails(ids) in calls <==> NeedsDetails(y) && ids == y.businessIds
    ensures LookUpReviews(ids) in calls ==> ids == y.businessIds
  {
    var found := DetailCalls(y);
    assert LookUpDetails(ids) in found <==> NeedsDetails(y) && ids == y.businessIds;
    assert LookUpReviews(ids) !in found;
  }

  /** The response and the calls made, for a request with body field `query`. */
  function AnalyzeOutcome(query: Value, s: Services): (r: (Response, seq<Call>))
    ensures r.0.status in {200, 400, 404, 500}
    ensures r.0.status == 400 <==> !Truthy(query)
    ensures r.0.status == 400 ==> r.0.body == ErrorBody(QueryRequired) && r.1 == []
    ensures r.0.status == 500 ==> r.0.body == ErrorBody(AnalyzeFailure)
    ensures r.0.status != 400 ==> |r.1| > 0 && r.1[0] == Discovery
  {
    if !Truthy(query) then (Response(400, ErrorBody(QueryRequired)), [])
    else
      var discovery := Discover(query, s);
      if discovery.Failure? then (Response(500, ErrorBody(AnalyzeFailure)), [Discovery])
      else
        var rest := AfterDiscovery(query, discovery.value, s);
        (rest.0, [Discovery] + rest.1)
  }

  /** The handler, step by step: early exits with 400, 404 and 500, and the
      local business list reassigned by the details fallback. */
  method HandleAnalyze(query: Value, s: Services) returns (response: Response, calls: seq<Call>)
    ensures (response, calls) == AnalyzeOutcome(query, s)
  {
    if !Truthy(query) {
      return Response(400, ErrorBody(QueryRequired)), [];
    }
    calls := [Discovery];
    var yelpResult := QueryYelpAI(query, DiscoveryContext, s.post);
    assert yelpResult == Discover(query, s);
    if yelpResult.Failure? {
      return Response(500, ErrorBody(AnalyzeFailure)), calls;
    }
    var rest;
    response, rest := AnalyzeCompetitors(query, yelpResult.value, s);
    calls := [Discovery] + rest;
  }

  /** The details fallback, the 404 and the steps after it. */
  method AnalyzeCompetitors(query: Value, y: YelpResult, s: Services) returns (response: Response, calls: seq<Call>)
    ensures (response, calls) == AfterDiscovery(query, y, s)
  {
    calls := [];
    var businesses := y.businesses;
    if |businesses| == 0 && |y.businessIds| > 0 {
      calls := [LookUpDetails(y.businessIds)];
      businesses := FetchBusinessDetails(y.businessIds, s.details);
    }
    assert businesses == Competitors(y, s.details);
    if |businesses| == 0 {
      return Response(404, NotFoundBody(y.conversationalResponse)), calls;
    }
    var rest;
    response, rest := RequestAnalysis(query, y, businesses, s);
    calls := calls + rest;
  }

  /** The reviews, analysis and merge steps of the handler. */
  method RequestAnalysis(query: Value, y: YelpResult, businesses: seq<Business>, s: Services)
    returns (response: Response, calls: seq<Call>)
    ensures (response, calls) == AfterCompetitors(query, y, businesses, s)
  {
    var ids := ReviewIds(Some(y.businessIds), businesses);
    calls := [LookUpReviews(ids)];
    var reviews := FetchReviews(ids, s.reviews);
    if reviews.Failure? {
      return Response(500, ErrorBody(AnalyzeFailure)), calls;
    }
    calls := [LookUpReviews(ids), Analysis];
    var analysisResult := AnalyzeResults(businesses, query, y.conversationalResponse, reviews.value, s.generate, s.parse);
    assert analysisResult == AnalysisOf(businesses, query, y.conversationalResponse, reviews.value, s);
    if analysisResult.Failure? {
      return Response(500, ErrorBody(AnalyzeFailure)), calls;
    }
    var body := MergeResponse(analysisResult.value, y, reviews.value);
    return Response(200, body), calls;
  }

  /** The detail fetch runs only when discovery found no businesses but did
      find business ids, and it asks for exactly those ids. */
  lemma {:induction false} DetailsFetchedOnlyWithoutBusinesses(query: Value, s: Services, ids: seq<string>)
    requires LookUpDetails(ids) in AnalyzeOutcome(query, s).1
    ensures Truthy(query) && Discover(query, s).Success?
    ensures NeedsDetails(Discover(query, s).value) && ids == Discover(query, s).value.businessIds
  {
    var y := Discover(query, s).value;
    assert LookUpDetails(ids) in AfterDiscovery(query, y, s).1;
    DetailCallsAfterDiscovery(query, y, s, ids);
  }

  /** Once discovery answered, the details of `ids` are fetched exactly
      when it found business ids but no businesses, and `ids` are those ids. */
  lemma {:induction false} DetailsFetchedIffNoBusinesses(query: Value, s: Services, ids: seq<string>)
    requires Truthy(query) && Discover(query, s).Success?
    ensures var y := Discover(query, s).value;
      LookUpDetails(ids) in AnalyzeOutcome(query, s).1 <==> NeedsDetails(y) && ids == y.businessIds
  {
    var y := Discover(query, s).value;
    DetailCallsAfterDiscovery(query, y, s, ids);
    assert AnalyzeOutcome(query, s).1 == [Discovery] + AfterDiscovery(query, y, s).1;
  }

  /** A 404 means discovery answered but left nothing to analyze, and its
      body carries the discovery's conversational text. */
  lemma {:induction false} NotFoundCarriesReply(query: Value, s: Services)
    requires AnalyzeOutcome(query, s).0.status == 404
    ensures Discover(query, s).Success? && |Competitors(Discover(query, s).value, s.details)| == 0
    ensures Get(AnalyzeOutcome(query, s).0.body, "yelp_response") == Some(Str(Discover(query, s).value.conversationalResponse))
  {
    assert AnalyzeOutcome(query, s).0 == AfterDiscovery(query, Discover(query, s).value, s).0;
  }

  /** A 404 follows discovery and at most the details fetch: neither the
      reviews nor the analysis were requested. */
  lemma {:induction false} NotFoundStopsEarly(query: Value, s: Services)
    requires AnalyzeOutcome(query, s).0.status == 404
    ensures Discover(query, s).Success?
    ensures AnalyzeOutcome(query, s).1 == [Discovery] + DetailCalls(Discover(query, s).value)
  {
    var rest := AfterDiscovery(query, Discover(query, s).value, s);
    assert AnalyzeOutcome(query, s) == (rest.0, [Discovery] + rest.1);
  }

  /** Reviews are requested for the discovery's business ids, even when
      that list is empty. */
  lemma {:induction false} ReviewsRequestedForBusinessIds(query: Value, s: Services, ids: seq<string>)
    requires LookUpReviews(ids) in AnalyzeOutcome(query, s).1
    ensures Discover(query, s).Success? && ids == Discover(query, s).value.businessIds
  {
    var y := Discover(query, s).value;
    assert LookUpReviews(ids) in AfterDiscovery(query, y, s).1;
    ReviewCallsAfterDiscovery(query, y, s, ids);
  }

  /** A 200 body holds every key of the analysis, with the discovery text,
      the chat id and the reviews set over any same-named analysis keys. */
  lemma {:induction false} SuccessMergesAnalysis(query: Value, s: Services)
    requires AnalyzeOutcome(query, s).0.status == 200
    ensures Discover(query, s).Success?
    ensures var y := Discover(query, s).value;
      var reviews := ReviewsResult(y.businessIds, s.reviews);
      reviews.Success? &&
      var analysis := AnalysisOf(Competitors(y, s.details), query, y.conversationalResponse, reviews.value, s);
      analysis.Success? && AnalyzeOutcome(query, s).0.body == MergeResponse(analysis.value, y, reviews.value)
  {
    var y := Discover(query, s).value;
    assert AnalyzeOutcome(query, s).0 == AfterDiscovery(query, y, s).0;
  }

  /** The converse: a request whose every step succeeds is answered 200
      with the merged analysis. */
  lemma {:induction false} SuccessWhenEveryStepSucceeds(query: Value, s: Services)
    requires Truthy(query) && Discover(query, s).Success?
    requires var y := Discover(query, s).value;
      |Competitors(y, s.details)| > 0 && ReviewsResult(y.businessIds, s.reviews).Success?
    requires var y := Discover(query, s).value;
      var reviews := ReviewsResult(y.businessIds, s.reviews);
      AnalysisOf(Competitors(y, s.details), query, y.conversationalResponse, reviews.value, s).Success?
    ensures var y := Discover(query, s).value;
      var reviews := ReviewsResult(y.businessIds, s.reviews);
      var analysis := AnalysisOf(Competitors(y, s.details), query, y.conversationalResponse, reviews.value, s);
      AnalyzeOutcome(query, s).0 == Response(200, MergeResponse(analysis.value, y, reviews.value))
  {
    var y := Discover(query, s).value;
    assert AnalyzeOutcome(query, s).0 == AfterDiscovery(query, y, s).0;
    assert AfterDiscovery(query, y, s).0 == AfterCompetitors(query, y, Competitors(y, s.details), s).0;
  }

  /** A 200 body keeps every key of the analysis, so it always lists
      personas. */
  lemma {:induction false} SuccessListsPersonas(query: Value, s: Services)
    requires AnalyzeOutcome(query, s).0.status == 200
    ensures Truthy(Field(AnalyzeOutcome(query, s).0.body, "personas"))
  {
    SuccessMergesAnalysis(query, s);
    var y := Discover(query, s).value;
    var reviews := ReviewsResult(y.businessIds, s.reviews);
    var analysis := AnalysisOf(Competitors(y, s.details), query, y.conversationalResponse, reviews.value, s);
    assert Get(MergeResponse(analysis.value, y, reviews.value), "personas") == Get(analysis.value, "personas");
  }
}
