/** `analyzeResults` (services/gemini.js): the business projection and the
    review section that go into the prompt, the model call, and the
    recovery of the analysis object from its reply. The model call is a
    function parameter; the fixed prompt wording is not modelled. */
module Gemini {

  import opened Outcomes
  import opened Text
  import opened JsValues
  import opened Records
  import opened JsonRecovery

  /** A failed `generateContent` call. */
  datatype GenerationError = GenerationError(message: string)

  /** One entry of `businessData`: what the prompt shows of a business. */
  datatype BusinessSummary = BusinessSummary(
    id: string,
    name: string,
    rating: real,
    reviewCount: nat,
    price: Option<string>,
    categories: string,
    url: string)

  /** `b.categories.map(c => c.title)`. */
  function CategoryTitles(cs: seq<Category>): seq<string> {
    seq(|cs|, i requires 0 <= i < |cs| => cs[i].title)
  }

  /** `businesses.map(b => ({ ... }))` for one business: the projection
      keeps the identifying fields and names every category. */
  function Summarize(b: Business): (s: BusinessSummary)
    ensures s.id == b.id && s.name == b.name && s.rating == b.rating && s.reviewCount == b.reviewCount
    ensures s.price == b.price && s.url == b.url
    ensures forall k :: 0 <= k < |b.categories| ==> Contains(s.categories, b.categories[k].title)
  {
    var titles := CategoryTitles(b.categories);
    var joined := Join(titles, ", ");
    assert forall k :: 0 <= k < |b.categories| ==> Contains(joined, b.categories[k].title) by {
      forall k | 0 <= k < |b.categories|
        ensures Contains(joined, b.categories[k].title)
      {
        JoinContainsPiece(titles, ", ", k);
      }
    }
    BusinessSummary(b.id, b.name, b.rating, b.reviewCount, b.price, joined, b.url)
  }

  /** One summary per business, in order. */
  function Summaries(bs: seq<Business>): (data: seq<BusinessSummary>)
    ensures |data| == |bs|
    ensures forall i :: 0 <= i < |bs| ==> data[i] == Summarize(bs[i])
  {
    seq(|bs|, i requires 0 <= i < |bs| => Summarize(bs[i]))
  }

  // ---------------------------------------------------------- review section

  const ReviewsHeader := "\n\nCustomer Reviews:\n"

  /** The line for the review at 0-based position `idx`: numbered from 1,
      quoting the review's text, ending the line. */
  function ReviewLine(idx: nat, r: Review): (line: string)
    ensures "  Review " + NatToString(idx + 1) + " (" <= line
    ensures line[|line| - 1] == '\n'
    ensures Contains(line, Quoted(r.text))
  {
    var number := "  Review " + NatToString(idx + 1) + " (";
    var head := number + NatToString(r.rating) + "\U{2B50}): ";
    ContainsMiddle(head, Quoted(r.text), "\n");
    var line := head + Quoted(r.text) + "\n";
    assert line[..|number|] == number;
    line
  }

  function Quoted(s: string): string {
    "\"" + s + "\""
  }

  /** The lines of a business's reviews, numbered from 1. */
  function ReviewLines(rs: seq<Review>): string {
    if rs == [] then "" else ReviewLines(rs[..|rs| - 1]) + ReviewLine(|rs| - 1, rs[|rs| - 1])
  }

  /** `reviews[b.id] || []`. */
  function ReviewsFor(reviews: JsObject<seq<Review>>, id: string): seq<Review> {
    Get(reviews, id).GetOr([])
  }

  /** A business's block: its name line and review lines, or nothing when
      it has no reviews. */
  function BusinessBlock(b: Business, reviews: JsObject<seq<Review>>): (block: string)
    ensures block == "" <==> ReviewsFor(reviews, b.id) == []
    ensures block != "" ==> "\n" + b.name + ":\n" <= block
  {
    var rs := ReviewsFor(reviews, b.id);
    if rs == [] then ""
    else
      var name := "\n" + b.name + ":\n";
      var block := name + ReviewLines(rs);
      assert block[..|name|] == name;
      block
  }

  /** The blocks of `bs` in order; empty exactly when none of them has a review. */
  function Blocks(bs: seq<Business>, reviews: JsObject<seq<Review>>): (blocks: string)
    ensures blocks == "" <==> forall i :: 0 <= i < |bs| ==> ReviewsFor(reviews, bs[i].id) == []
  {
    if bs == [] then ""
    else
      var front := bs[..|bs| - 1];
      assert forall i :: 0 <= i < |front| ==> front[i] == bs[i];
      Blocks(front, reviews) + BusinessBlock(bs[|bs| - 1], reviews)
  }

  /** The review section of the prompt: empty exactly when the review map
      has no keys (it may then still list no business at all, when none
      has a review), and otherwise headed by "Customer Reviews". */
  function ReviewSectionOf(bs: seq<Business>, reviews: JsObject<seq<Review>>): (section: string)
    ensures section == "" <==> |reviews.keys| == 0
    ensures |reviews.keys| > 0 ==> ReviewsHeader <= section
  {
    if |reviews.keys| == 0 then ""
    else
      var section := ReviewsHeader + Blocks(bs, reviews);
      assert section[..|ReviewsHeader|] == ReviewsHeader;
      section
  }

  /** Builds the review section with nested appends, as the source does. */
  method BuildReviewSection(bs: seq<Business>, reviews: JsObject<seq<Review>>) returns (section: string)
    ensures section == ReviewSectionOf(bs, reviews)
  {
    section := "";
    if |reviews.keys| > 0 {
      section := ReviewsHeader;
      for i := 0 to |bs|
        invariant section == ReviewsHeader + Blocks(bs[..i], reviews)
      {
        BlocksStep(bs, reviews, i);
        ConcatAssoc(ReviewsHeader, Blocks(bs[..i], reviews), BusinessBlock(bs[i], reviews));
        section := AppendBlock(section, bs[i], reviews);
      }
      assert bs[..|bs|] == bs;
    }
  }

  /** The outer `forEach` body: the business's name line and its reviews,
      when it has any. */
  method AppendBlock(start: string, b: Business, reviews: JsObject<seq<Review>>) returns (section: string)
    ensures section == start + BusinessBlock(b, reviews)
  {
    section := start;
    var rs := ReviewsFor(reviews, b.id);
    if |rs| > 0 {
      var nameLine := "\n" + b.name + ":\n";
      section := section + nameLine;
      section := AppendReviewLines(section, rs);
      ConcatAssoc(start, nameLine, ReviewLines(rs));
    } else {
      assert start + "" == start;
    }
  }

  lemma {:induction false} BlocksStep(bs: seq<Business>, reviews: JsObject<seq<Review>>, i: nat)
    requires i < |bs|
    ensures Blocks(bs[..i + 1], reviews) == Blocks(bs[..i], reviews) + BusinessBlock(bs[i], reviews)
  {
    assert bs[..i + 1][..i] == bs[..i];
  }

  /** The inner `forEach`: appends a business's numbered review lines. */
  method AppendReviewLines(start: string, rs: seq<Review>) returns (section: string)
    ensures section == start + ReviewLines(rs)
  {
    section := start;
    for j := 0 to |rs|
      invariant section == start + ReviewLines(rs[..j])
    {
      var line := ReviewLine(j, rs[j]);
      ReviewLinesStep(rs, j);
      ConcatAssoc(start, ReviewLines(rs[..j]), line);
      section := section + line;
    }
    assert rs[..|rs|] == rs;
  }

  lemma {:induction false} ReviewLinesStep(rs: seq<Review>, j: nat)
    requires j < |rs|
    ensures ReviewLines(rs[..j + 1]) == ReviewLines(rs[..j]) + ReviewLine(j, rs[j])
  {
    assert rs[..j + 1][..j] == rs[..j];
  }

  /** A business's block lists its reviews in order, numbered from 1. */
  lemma {:induction false} ReviewLinesAt(rs: seq<Review>, k: nat)
    requires k < |rs|
    ensures Contains(ReviewLines(rs), ReviewLine(k, rs[k]))
  {
    var n := |rs|;
    if k == n - 1 {
      ContainsMiddle(ReviewLines(rs[..n - 1]), ReviewLine(k, rs[k]), "");
      assert ReviewLines(rs[..n - 1]) + ReviewLine(k, rs[k]) + "" == ReviewLines(rs);
    } else {
      ReviewLinesAt(rs[..n - 1], k);
      assert rs[..n - 1][k] == rs[k];
      ContainsExtendRight(ReviewLines(rs[..n - 1]), ReviewLine(n - 1, rs[n - 1]), ReviewLine(k, rs[k]));
    }
  }

  lemma {:induction false} BlocksAt(bs: seq<Business>, reviews: JsObject<seq<Review>>, i: nat)
    requires i < |bs|
    ensures Contains(Blocks(bs, reviews), BusinessBlock(bs[i], reviews))
  {
    var n := |bs|;
    if i == n - 1 {
      ContainsMiddle(Blocks(bs[..n - 1], reviews), BusinessBlock(bs[i], reviews), "");
      assert Blocks(bs[..n - 1], reviews) + BusinessBlock(bs[i], reviews) + "" == Blocks(bs, reviews);
    } else {
      BlocksAt(bs[..n - 1], reviews, i);
      assert bs[..n - 1][i] == bs[i];
      ContainsExtendRight(Blocks(bs[..n - 1], reviews), BusinessBlock(bs[n - 1], reviews), BusinessBlock(bs[i], reviews));
    }
  }

  /** Every review of every listed business appears, numbered and quoted,
      in the section, after its business's name. */
  lemma {:induction false} ReviewSectionQuotesEveryReview(bs: seq<Business>, reviews: JsObject<seq<Review>>, i: nat, k: nat)
    requires i < |bs| && k < |ReviewsFor(reviews, bs[i].id)|
    ensures Contains(ReviewSectionOf(bs, reviews), "\n" + bs[i].name + ":\n")
    ensures Contains(ReviewSectionOf(bs, reviews), ReviewLine(k, ReviewsFor(reviews, bs[i].id)[k]))
    ensures Contains(ReviewSectionOf(bs, reviews), Quoted(ReviewsFor(reviews, bs[i].id)[k].text))
  {
    var block := BusinessBlock(bs[i], reviews);
    SectionContainsBlock(bs, reviews, i);
    BlockQuotesReview(bs[i], reviews, k);
    var r := ReviewsFor(reviews, bs[i].id)[k];
    ContainsTransitive(ReviewSectionOf(bs, reviews), block, "\n" + bs[i].name + ":\n");
    ContainsTransitive(ReviewSectionOf(bs, reviews), block, ReviewLine(k, r));
    ContainsTransitive(ReviewSectionOf(bs, reviews), block, Quoted(r.text));
  }

  lemma {:induction false} SectionContainsBlock(bs: seq<Business>, reviews: JsObject<seq<Review>>, i: nat)
    requires i < |bs| && ReviewsFor(reviews, bs[i].id) != []
    ensures Contains(ReviewSectionOf(bs, reviews), BusinessBlock(bs[i], reviews))
  {
    assert bs[i].id in reviews.entries;
    assert |reviews.keys| > 0;
    BlocksAt(bs, reviews, i);
    ContainsExtendLeft(ReviewsHeader, Blocks(bs, reviews), BusinessBlock(bs[i], reviews));
  }

  lemma {:induction false} BlockQuotesReview(b: Business, reviews: JsObject<seq<Review>>, k: nat)
    requires k < |ReviewsFor(reviews, b.id)|
    ensures Contains(BusinessBlock(b, reviews), "\n" + b.name + ":\n")
    ensures Contains(BusinessBlock(b, reviews), ReviewLine(k, ReviewsFor(reviews, b.id)[k]))
    ensures Contains(BusinessBlock(b, reviews), Quoted(ReviewsFor(reviews, b.id)[k].text))
  {
    var rs := ReviewsFor(reviews, b.id);
    var r := rs[k];
    var name := "\n" + b.name + ":\n";
    var block := BusinessBlock(b, reviews);
    assert block == "" + name + ReviewLines(rs);
    ContainsMiddle("", name, ReviewLines(rs));
    ReviewLinesAt(rs, k);
    ContainsExtendLeft(name, ReviewLines(rs), ReviewLine(k, r));
    ContainsTransitive(block, ReviewLine(k, r), Quoted(r.text));
  }

  // ----------------------------------------------------------------- prompt

  /** What the analysis prompt is made of; its fixed wording is not modelled. */
  datatype AnalysisPrompt = AnalysisPrompt(
    userQuery: Value,
    yelpResponse: string,
    businessData: seq<BusinessSummary>,
    reviewSection: string)

  /** The persona-extraction step and the non-empty `personas` instruction
      are included exactly when the review section is non-empty. */
  predicate AsksForPersonas(p: AnalysisPrompt) {
    p.reviewSection != ""
  }

  /** The prompt carries the query, the discovery text and one summary per
      business, and asks for personas exactly when the review map has a key. */
  function PromptFor(bs: seq<Business>, userQuery: Value, yelpResponse: string, reviews: JsObject<seq<Review>>): (p: AnalysisPrompt)
    ensures p.userQuery == userQuery && p.yelpResponse == yelpResponse
    ensures |p.businessData| == |bs| && forall i :: 0 <= i < |bs| ==> p.businessData[i] == Summarize(bs[i])
    ensures AsksForPersonas(p) <==> |reviews.keys| > 0
  {
    AnalysisPrompt(userQuery, yelpResponse, Summaries(bs), ReviewSectionOf(bs, reviews))
  }

  // --------------------------------------------------------------- analysis

  /** `analyzeResults(businesses, userQuery, yelpResponse, reviews)`. */
  method AnalyzeResults(
    businesses: seq<Business>, userQuery: Value, yelpResponse: string, reviews: JsObject<seq<Review>>,
    generate: AnalysisPrompt -> Result<string, GenerationError>, parse: Parser)
    returns (r: Result<JsObject<Value>, string>)
    ensures var reply := generate(PromptFor(businesses, userQuery, yelpResponse, reviews));
      reply.Failure? ==> r == Failure(AnalysisFailure)
    ensures var reply := generate(PromptFor(businesses, userQuery, yelpResponse, reviews));
      reply.Success? ==> r == DecodeAnalysis(reply.value, parse)
  {
    var businessData := Summaries(businesses);
    var reviewSection := BuildReviewSection(businesses, reviews);
    var prompt := AnalysisPrompt(userQuery, yelpResponse, businessData, reviewSection);
    var reply := generate(prompt);
    if reply.Failure? {
      return Failure(AnalysisFailure);
    }
    r := RecoverAnalysis(reply.value, parse);
  }

  /** The reply handling of `analyzeResults`: strip fences, extract the
      object, parse, repair and parse again when that fails, then default
      `personas`. */
  method RecoverAnalysis(text: string, parse: Parser) returns (r: Result<JsObject<Value>, string>)
    ensures r == DecodeAnalysis(text, parse)
  {
    var cleanText := StripFences(text);
    var jsonMatch := ExtractObject(cleanText);
    if jsonMatch.None? {
      return Failure(AnalysisFailure);
    }
    var jsonString := jsonMatch.value;
    var parsed := parse(jsonString);
    if parsed.None? {
      jsonString := Repair(jsonString);
      parsed := parse(jsonString);
      if parsed.None? {
        return Failure(AnalysisFailure);
      }
    }
    assert parsed == ParseWithRepair(jsonMatch.value, parse);
    var result := parsed.value;
    if !Truthy(Field(result, "personas")) {
      result := Put(result, "personas", Arr([]));
    }
    assert result == EnsurePersonas(parsed.value);
    return Success(result);
  }
}
