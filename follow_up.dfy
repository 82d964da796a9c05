/** The follow-up side of the Gemini service: the context text handed to
    the model with a follow-up question, the reading of its answer (JSON
    when it parses, otherwise a structure recovered from plain text), and
    the suggested follow-up question. */
module FollowUp {

  import opened Outcomes
  import opened Text
  import opened JsValues
  import opened Records
  import opened JsonRecovery
  import opened Gemini

  const FollowUpFailure := "Failed to answer follow-up question"

  // ------------------------------------------------------ list-line cleaning

  /** `\d` of a JavaScript regular expression: ASCII digits only. */
  predicate IsDigit(c: char) {
    '0' <= c <= '9'
  }

  /** `/^[\d\-\*•]/`: a line that starts like a list item. */
  predicate StartsLikeItem(line: string) {
    |line| > 0 && (IsDigit(line[0]) || line[0] == '-' || line[0] == '*' || line[0] == '•')
  }

  /** The class `[\d\-\*•.\s]` stripped from the front of an item. */
  predicate IsMarker(c: char) {
    IsDigit(c) || c == '-' || c == '*' || c == '•' || c == '.' || IsSpace(c)
  }

  /** Length of the leading run of marker characters. */
  function MarkerRun(s: string): (n: nat)
    ensures n <= |s|
    ensures forall i :: 0 <= i < n ==> IsMarker(s[i])
    ensures n < |s| ==> !IsMarker(s[n])
  {
    if s != [] && IsMarker(s[0]) then MarkerRun(s[1..]) + 1 else 0
  }

  /** `line.trim() && (line.match(/^[\d\-\*•]/) || line.length > 20)`. */
  predicate KeepLine(line: string) {
    Trim(line) != "" && (StartsLikeItem(line) || Utf16Length(line) > 20)
  }

  /** `m.replace(/^[\d\-\*•.\s]+/, '').trim()`: the line is its leading
      run of markers, then the item, then trailing white space. Past the
      markers there is no leading white space left, so only the end is
      trimmed (`CleanLineTrims`). */
  function CleanLine(m: string): (r: string)
    ensures r == [] || !IsMarker(r[0])
    ensures MarkerRun(m) + |r| <= |m| && r == m[MarkerRun(m)..MarkerRun(m) + |r|]
    ensures AllSpace(m[MarkerRun(m) + |r|..])
  {
    var k := MarkerRun(m);
    TrimEndOfSuffix(m, k);
    TrimEnd(m[k..])
  }

  /** The cleaned line is the `trim` of what follows the markers. */
  lemma {:induction false} CleanLineTrims(m: string)
    ensures CleanLine(m) == Trim(m[MarkerRun(m)..])
  {
    var k := MarkerRun(m);
    var t := m[k..];
    if t != [] {
      assert t[0] == m[k];
    }
    TrimKeepsLeadingNonSpace(t);
  }

  /** Trimming the end of a suffix of `m` keeps a slice of `m` and drops
      only white space. */
  lemma {:induction false} TrimEndOfSuffix(m: string, k: nat)
    requires k <= |m|
    ensures var r := TrimEnd(m[k..]); k + |r| <= |m| && r == m[k..k + |r|] && AllSpace(m[k + |r|..])
  {
    var t := m[k..];
    var r := TrimEnd(t);
    assert t[..|r|] == m[k..k + |r|];
    assert t[|r|..] == m[k + |r|..];
  }

  /** A text that does not start with white space keeps its first
      character through `trim`. */
  lemma {:induction false} TrimKeepsLeadingNonSpace(t: string)
    requires t == [] || !IsSpace(t[0])
    ensures Trim(t) == TrimEnd(t)
    ensures Trim(t) != [] ==> t != [] && Trim(t)[0] == t[0]
  {
    if t != [] {
      assert TrimStart(t) == t;
    }
  }

  /** An item that went through the cleaner is not changed by it again. */
  lemma {:induction false} CleanLineIdempotent(m: string)
    ensures CleanLine(CleanLine(m)) == CleanLine(m)
  {
    var c := CleanLine(m);
    assert MarkerRun(c) == 0;
    assert c[0..] == c;
    TrimIdempotent(m[MarkerRun(m)..]);
  }

  /** A line that is kept and still has text after cleaning. */
  predicate Item(line: string) {
    KeepLine(line) && CleanLine(line) != ""
  }

  /** The `filter`, `map` and `filter` pipeline over `list.split(/\n+/)`;
      each stage works line by line, so they are applied together here. */
  function CleanItems(lines: seq<string>): (items: seq<string>)
    ensures |items| <= |lines|
    ensures forall k :: 0 <= k < |items| ==> items[k] != [] && !IsMarker(items[k][0])
  {
    if lines == [] then []
    else
      var n := |lines| - 1;
      var prior := CleanItems(lines[..n]);
      if Item(lines[n]) then prior + [CleanLine(lines[n])] else prior
  }

  /** The `keyMoves` or `risksToAvoid` list recovered from a section's text. */
  function CleanList(section: string): (items: seq<string>)
    ensures forall k :: 0 <= k < |items| ==> items[k] != [] && !IsMarker(items[k][0])
  {
    CleanItems(SplitLines(section))
  }

  /** Exactly the lines that pass the filters give an item, cleaned, in order. */
  lemma {:induction false} CleanItemsAppend(lines: seq<string>, more: seq<string>)
    ensures CleanItems(lines + more) == CleanItems(lines) + CleanItems(more)
  {
    if more == [] {
      assert lines + more == lines;
    } else {
      var n := |more| - 1;
      var front := more[..n];
      assert (lines + more)[..|lines + more| - 1] == lines + front;
      assert (lines + more)[|lines + more| - 1] == more[n];
      CleanItemsAppend(lines, front);
      var last := if Item(more[n]) then [CleanLine(more[n])] else [];
      assert CleanItems(more) == CleanItems(front) + last;
      ConcatAssoc(CleanItems(lines), CleanItems(front), last);
    }
  }

  /** A single line gives an item exactly when it passes both filters. */
  lemma {:induction false} CleanItemsOfLine(line: string)
    ensures Item(line) ==> CleanItems([line]) == [CleanLine(line)]
    ensures !Item(line) ==> CleanItems([line]) == []
  {
    assert [line][..0] == [];
  }

  /** No cleaned item holds a line feed: every item lies within one line. */
  lemma {:induction false} CleanListItemsAreSingleLines(section: string, k: nat)
    requires k < |CleanList(section)|
    ensures '\n' !in CleanList(section)[k]
  {
    SplitLinesHaveNoLineFeed(section);
    CleanItemsWithin(SplitLines(section), k);
  }

  lemma {:induction false} CleanItemsWithin(lines: seq<string>, k: nat)
    requires forall j :: 0 <= j < |lines| ==> '\n' !in lines[j]
    requires k < |CleanItems(lines)|
    ensures '\n' !in CleanItems(lines)[k]
  {
    var n := |lines| - 1;
    var prior := CleanItems(lines[..n]);
    if k < |prior| {
      PriorItem(lines, k);
      CleanItemsWithin(lines[..n], k);
    } else {
      LastItem(lines, k);
      CleanLineWithin(lines[n]);
    }
  }

  lemma {:induction false} PriorItem(lines: seq<string>, k: nat)
    requires |lines| > 0 && k < |CleanItems(lines[..|lines| - 1])|
    ensures k < |CleanItems(lines)| && CleanItems(lines)[k] == CleanItems(lines[..|lines| - 1])[k]
  {
  }

  lemma {:induction false} LastItem(lines: seq<string>, k: nat)
    requires |lines| > 0 && |CleanItems(lines[..|lines| - 1])| <= k < |CleanItems(lines)|
    ensures CleanItems(lines)[k] == CleanLine(lines[|lines| - 1])
  {
  }

  lemma {:induction false} CleanLineWithin(m: string)
    requires '\n' !in m
    ensures '\n' !in CleanLine(m)
  {
    var t := m[MarkerRun(m)..];
    SliceLacks(m, MarkerRun(m), |m|, '\n');
    var a := TrimStart(t);
    SliceLacks(t, |t| - |a|, |t|, '\n');
    SliceLacks(a, 0, |TrimEnd(a)|, '\n');
  }

  lemma SliceLacks(s: string, i: nat, j: nat, c: char)
    requires i <= j <= |s| && c !in s
    ensures c !in s[i..j]
  {
  }

  // ------------------------------------------------- the plain-text fallback

  /** What the three section-header regular expressions capture in the
      reply: the text after "Main Insight"/"Key Insight", after "Key Moves"
      and after "Risks to Avoid", when they match. */
  datatype SectionMatches = SectionMatches(
    mainInsight: Option<string>,
    keyMoves: Option<string>,
    risksToAvoid: Option<string>)

  /** The answer: the parsed JSON object, or a structure built from text. */
  datatype FollowUpAnswer =
    | Parsed(obj: JsObject<Value>)
    | Structured(mainInsight: string, keyMoves: seq<string>, risksToAvoid: seq<string>)

  /** `text.split('\n\n').filter(p => p.trim())`, first element trimmed, or
      the empty string when every paragraph is blank. */
  function FirstParagraph(text: string): (r: string)
    ensures r == [] || (!IsSpace(r[0]) && !IsSpace(r[|r| - 1]))
  {
    FirstNonBlank(SplitOn(text, "\n\n"))
  }

  /** The first paragraph that is not blank, trimmed; empty when all are blank. */
  function FirstNonBlank(paragraphs: seq<string>): (r: string)
    ensures r == [] || (!IsSpace(r[0]) && !IsSpace(r[|r| - 1]))
    ensures r == [] <==> forall i :: 0 <= i < |paragraphs| ==> Trim(paragraphs[i]) == []
  {
    if paragraphs == [] then ""
    else if Trim(paragraphs[0]) != "" then Trim(paragraphs[0])
    else FirstNonBlank(paragraphs[1..])
  }

  /** What `FirstNonBlank` returns is the trimmed text of the first
      paragraph that is not blank. */
  lemma {:induction false} FirstNonBlankIsFirst(paragraphs: seq<string>, i: nat)
    requires FirstNonBlankAt(paragraphs, i)
    ensures FirstNonBlank(paragraphs) == Trim(paragraphs[i])
  {
    if i > 0 {
      var rest := paragraphs[1..];
      assert Trim(paragraphs[0]) == [];
      assert FirstNonBlankAt(rest, i - 1) by {
        forall j | 0 <= j < i - 1
          ensures Trim(rest[j]) == []
        {
          assert rest[j] == paragraphs[j + 1];
        }
      }
      FirstNonBlankIsFirst(rest, i - 1);
    }
  }

  /** Paragraph `i` is the first one that is not blank. */
  predicate FirstNonBlankAt(paragraphs: seq<string>, i: nat) {
    i < |paragraphs| && Trim(paragraphs[i]) != [] && forall j :: 0 <= j < i ==> Trim(paragraphs[j]) == []
  }

  /** `mainInsightMatch[1].trim()`, or the first paragraph: trimmed either way. */
  function InsightOf(text: string, m: SectionMatches): (r: string)
    ensures r == [] || (!IsSpace(r[0]) && !IsSpace(r[|r| - 1]))
    ensures m.mainInsight.None? && r == [] ==> Trim(text) == []
  {
    if m.mainInsight.Some? then Trim(m.mainInsight.value)
    else
      var p := FirstParagraph(text);
      if p == [] then BlankParagraphsOnly(text); p else p
  }

  /** A list section's items, or none when the section was not found. */
  function ListOf(section: Option<string>): (items: seq<string>)
    ensures section.None? ==> items == []
    ensures forall k :: 0 <= k < |items| ==> items[k] != [] && !IsMarker(items[k][0]) && '\n' !in items[k]
  {
    if section.Some? then
      assert forall k :: 0 <= k < |CleanList(section.value)| ==> '\n' !in CleanList(section.value)[k] by {
        forall k | 0 <= k < |CleanList(section.value)| ensures '\n' !in CleanList(section.value)[k] {
          CleanListItemsAreSingleLines(section.value, k);
        }
      }
      CleanList(section.value)
    else []
  }

  /** The structure recovered from a reply that is not JSON. */
  function FallbackAnswer(text: string, m: SectionMatches): (r: FollowUpAnswer)
    ensures r.Structured?
    ensures Trim(text) != [] ==> r.mainInsight != [] || |r.keyMoves| > 0
    ensures forall k :: 0 <= k < |r.keyMoves| ==> r.keyMoves[k] != [] && !IsMarker(r.keyMoves[k][0])
    ensures forall k :: 0 <= k < |r.risksToAvoid| ==> r.risksToAvoid[k] != [] && !IsMarker(r.risksToAvoid[k][0])
  {
    var insight := InsightOf(text, m);
    var moves := ListOf(m.keyMoves);
    if insight != [] || |moves| > 0 then Structured(insight, moves, ListOf(m.risksToAvoid))
    else Structured(Trim(text), [], [])
  }

  /** The structure is kept exactly when it found an insight or a key move;
      otherwise the whole trimmed reply becomes the insight. */
  lemma {:induction false} FallbackKeepsFoundStructure(text: string, m: SectionMatches)
    ensures var r := FallbackAnswer(text, m);
      InsightOf(text, m) != [] || |ListOf(m.keyMoves)| > 0
      <==> r.mainInsight == InsightOf(text, m) && r.keyMoves == ListOf(m.keyMoves)
           && r.risksToAvoid == ListOf(m.risksToAvoid) && (r.mainInsight != [] || r.keyMoves != [])
    ensures var r := FallbackAnswer(text, m);
      InsightOf(text, m) == [] && |ListOf(m.keyMoves)| == 0 ==> r == Structured(Trim(text), [], [])
  {
  }

  /** The first-paragraph rule finds an insight in every reply that is not
      blank. */
  lemma {:induction false} BlankParagraphsOnly(text: string)
    requires FirstParagraph(text) == []
    ensures Trim(text) == []
  {
    var ps := SplitOn(text, "\n\n");
    JoinSplitOn(text, "\n\n");
    BlankJoin(ps);
    TrimStartAllSpace(text);
  }

  /** Pieces that trim to nothing joined by blank lines are all white space. */
  lemma {:induction false} BlankJoin(ps: seq<string>)
    requires |ps| > 0
    requires forall i :: 0 <= i < |ps| ==> Trim(ps[i]) == []
    ensures AllSpace(JoinFront(ps, "\n\n"))
  {
    TrimEmptyIsSpace(ps[0]);
    if |ps| > 1 {
      BlankJoin(ps[1..]);
      AllSpaceAppend(ps[0], "\n\n");
      AllSpaceAppend(ps[0] + "\n\n", JoinFront(ps[1..], "\n\n"));
    }
  }

  lemma {:induction false} TrimEmptyIsSpace(s: string)
    requires Trim(s) == []
    ensures AllSpace(s)
  {
    var a := TrimStart(s);
    assert a[|TrimEnd(a)|..] == a;
    assert |a| == 0;
    assert s[..|s| - |a|] == s;
  }

  lemma AllSpaceAppend(a: string, b: string)
    requires AllSpace(a) && AllSpace(b)
    ensures AllSpace(a + b)
  {
  }

  // ------------------------------------------------- the suggested question

  const RisksQuestion := "What are the biggest risks I should consider before entering this market?"
  const GapsQuestion := "What would be the most effective way to capitalize on these market gaps?"
  const PricingQuestion := "What pricing strategy would be most competitive in this market?"
  const ChannelsQuestion := "What marketing channels would resonate most with the identified customer personas?"
  const DifferentiationQuestion := "How can I differentiate my business from existing competitors?"
  const ValidationQuestion := "What initial steps should I take to validate this opportunity?"

  /** What is thrown when `summary.toLowerCase` is called on a value that
      is not a string. */
  const SummaryTypeError := "summary.toLowerCase is not a function"

  function PersonaQuestion(name: string): string {
    "How can I specifically address " + name + "'s pain points in my business model?"
  }

  /** The suggested question, by priority: the top persona's pain points,
      then market gaps, then pricing, then the risks default. A truthy
      summary that is not a string cannot be lower-cased and throws. */
  function SuggestedQuestion(personas: Option<seq<Persona>>, summary: Value): (r: Result<string, string>)
    ensures r.Failure? <==> Truthy(summary) && !summary.Str?
    ensures r.Success? ==> |r.value| > 0
  {
    if Truthy(summary) && !summary.Str? then Failure(SummaryTypeError)
    else if personas.Some? && |personas.value| > 0 then Success(PersonaQuestion(personas.value[0].name))
    else if summary.Str? && MentionsAny(summary.s, "gap", "opportunity") then Success(GapsQuestion)
    else if summary.Str? && MentionsAny(summary.s, "price", "pricing") then Success(PricingQuestion)
    else Success(RisksQuestion)
  }

  /** `summary.toLowerCase().includes(a) || summary.toLowerCase().includes(b)`. */
  predicate MentionsAny(summary: string, a: string, b: string) {
    Contains(AsciiLower(summary), a) || Contains(AsciiLower(summary), b)
  }

  /** `generateFollowUpQuestion`: pushes every question that applies, in
      order, and returns the first. */
  method GenerateFollowUpQuestion(personas: Option<seq<Persona>>, summary: Value)
    returns (r: Result<string, string>)
    ensures r == SuggestedQuestion(personas, summary)
  {
    var questions: seq<string> := [];
    if personas.Some? && |personas.value| > 0 {
      var topPersona := personas.value[0];
      questions := questions + [PersonaQuestion(topPersona.name)];
      questions := questions + [ChannelsQuestion];
    }
    if Truthy(summary) {
      if !summary.Str? {
        return Failure(SummaryTypeError);
      }
      var lower := AsciiLower(summary.s);
      if Contains(lower, "gap") || Contains(lower, "opportunity") {
        questions := questions + [GapsQuestion];
      }
      if Contains(lower, "price") || Contains(lower, "pricing") {
        questions := questions + [PricingQuestion];
      }
    }
    questions := questions + [RisksQuestion];
    questions := questions + [DifferentiationQuestion];
    questions := questions + [ValidationQuestion];
    return Success(questions[0]);
  }

  /** The persona question names the top persona. */
  lemma {:induction false} SuggestedQuestionNamesTopPersona(personas: seq<Persona>, summary: Value)
    requires |personas| > 0 && !(Truthy(summary) && !summary.Str?)
    ensures SuggestedQuestion(Some(personas), summary).Success?
    ensures Contains(SuggestedQuestion(Some(personas), summary).value, personas[0].name)
  {
    ContainsMiddle("How can I specifically address ", personas[0].name, "'s pain points in my business model?");
  }

  // ------------------------------------------------------- the context text

  /** What the client sends back about the analysis it is asking about. */
  datatype FollowUpContext = FollowUpContext(
    query: Value,
    businesses: Option<seq<Business>>,
    reviews: Option<JsObject<seq<Review>>>,
    personas: Option<seq<Persona>>,
    summary: Value)

  /** The prompt's variable parts: the context text and the question. */
  datatype FollowUpPrompt = FollowUpPrompt(context: string, question: string)

  /** Template-literal conversion of a value to text (`${v}`). */
  type Display = Value -> string

  function ContextHeader(query: Value, summary: Value, show: Display): string {
    "Original user query: \"" + show(query) + "\"\n\nMarket Analysis Summary: " + show(summary) + "\n\n"
  }

  /** `b.price || 'N/A'`: a present, non-empty price is shown as given. */
  function PriceText(price: Option<string>): (r: string)
    ensures r != []
    ensures price.Some? && price.value != "" ==> r == price.value
    ensures price.None? || price.value == "" ==> r == "N/A"
  {
    if price.Some? && price.value != "" then price.value else "N/A"
  }

  function CompetitorLine(idx: nat, b: Business, show: Display): string {
    NatToString(idx + 1) + ". " + b.name + " - Rating: " + show(Num(b.rating))
    + ", Reviews: " + NatToString(b.reviewCount) + ", Price: " + PriceText(b.price) + "\n"
  }

  function CompetitorLines(bs: seq<Business>, show: Display): string {
    if bs == [] then "" else CompetitorLines(bs[..|bs| - 1], show) + CompetitorLine(|bs| - 1, bs[|bs| - 1], show)
  }

  /** The competitor list, present when there is at least one business. */
  function CompetitorsPart(bs: Option<seq<Business>>, show: Display): string {
    if bs.Some? && |bs.value| > 0 then "Competitors analyzed:\n" + CompetitorLines(bs.value, show) + "\n" else ""
  }

  /** `businesses.find(b => b.id === id)`. */
  function Find(bs: seq<Business>, id: string): (r: Option<Business>)
    ensures r.None? <==> forall i :: 0 <= i < |bs| ==> bs[i].id != id
    ensures r.Some? ==> exists i :: 0 <= i < |bs| && bs[i] == r.value && FirstWithId(bs, id, i)
  {
    if bs == [] then None
    else if bs[0].id == id then (assert FirstWithId(bs, id, 0); Some(bs[0]))
    else
      var r := Find(bs[1..], id);
      if r.Some? then
        var i :| 0 <= i < |bs[1..]| && bs[1..][i] == r.value && FirstWithId(bs[1..], id, i);
        assert FirstWithId(bs, id, i + 1);
        r
      else r
  }

  predicate FirstWithId(bs: seq<Business>, id: string, i: nat) {
    i < |bs| && bs[i].id == id && forall j :: 0 <= j < i ==> bs[j].id != id
  }

  /** `  - "<first 150 code units of the text>..."`. */
  function Snippet(r: Review): string {
    "  - \"" + Utf16Prefix(r.text, 150) + "...\"\n"
  }

  function Snippets(rs: seq<Review>): string {
    if rs == [] then "" else Snippets(rs[..|rs| - 1]) + Snippet(rs[|rs| - 1])
  }

  /** `businessReviews.slice(0, 3)`. */
  function FirstThree(rs: seq<Review>): (r: seq<Review>)
    ensures |r| <= 3 && r <= rs
    ensures |r| == if |rs| < 3 then |rs| else 3
    ensures |rs| <= 3 ==> r == rs
  {
    if |rs| < 3 then rs else rs[..3]
  }

  /** One business's insight block: its name and up to three snippets,
      when it has reviews and is in the business list. */
  function InsightBlock(id: string, rv: JsObject<seq<Review>>, bs: seq<Business>): string {
    var brs := ReviewsFor(rv, id);
    var b := Find(bs, id);
    if |brs| > 0 && b.Some? then "\n" + b.value.name + ":\n" + Snippets(FirstThree(brs)) else ""
  }

  function InsightBlocks(ids: seq<string>, rv: JsObject<seq<Review>>, bs: seq<Business>): string {
    if ids == [] then "" else InsightBlocks(ids[..|ids| - 1], rv, bs) + InsightBlock(ids[|ids| - 1], rv, bs)
  }

  /** The review insights, in key order of the review map; `None` when
      there are review keys but no business list to look them up in, where
      `businesses.find` throws. */
  function InsightsPart(bs: Option<seq<Business>>, rv: Option<JsObject<seq<Review>>>): Option<string> {
    if rv.None? || |rv.value.keys| == 0 then Some("")
    else if bs.None? then None
    else Some("Customer review insights:\n" + InsightBlocks(rv.value.keys, rv.value, bs.value) + "\n")
  }

  function GoalsLine(goals: Option<seq<string>>): string {
    if goals.Some? && |goals.value| > 0 then "   Goals: " + Join(goals.value, ", ") + "\n" else ""
  }

  /** `painPoints.map(pp => pp.point)`. */
  function Points(pps: seq<PainPoint>): seq<string> {
    seq(|pps|, i requires 0 <= i < |pps| => pps[i].point)
  }

  function PainPointsLine(pps: Option<seq<PainPoint>>): string {
    if pps.Some? && |pps.value| > 0 then "   Pain Points: " + Join(Points(pps.value), ", ") + "\n" else ""
  }

  function PersonaEntry(idx: nat, p: Persona): string {
    NatToString(idx + 1) + ". " + p.name + " - " + p.demographic + "\n" + GoalsLine(p.goals) + PainPointsLine(p.painPoints)
  }

  function PersonaEntries(ps: seq<Persona>): string {
    if ps == [] then "" else PersonaEntries(ps[..|ps| - 1]) + PersonaEntry(|ps| - 1, ps[|ps| - 1])
  }

  function PersonasPart(ps: Option<seq<Persona>>): string {
    if ps.Some? && |ps.value| > 0 then "Customer Personas identified:\n" + PersonaEntries(ps.value) else ""
  }

  /** The context text, or `None` when building it throws, which happens
      exactly when there are review keys and no business list. */
  function ContextOf(ctx: FollowUpContext, show: Display): (r: Option<string>)
    ensures r.None? <==> ctx.businesses.None? && ctx.reviews.Some? && |ctx.reviews.value.keys| > 0
  {
    var insights := InsightsPart(ctx.businesses, ctx.reviews);
    if insights.None? then None
    else Some(ContextHeader(ctx.query, ctx.summary, show) + CompetitorsPart(ctx.businesses, show)
              + insights.value + PersonasPart(ctx.personas))
  }

  /** Builds the context text by appending, as the source does. */
  method BuildContext(ctx: FollowUpContext, show: Display) returns (r: Option<string>)
    ensures r == ContextOf(ctx, show)
  {
    var contextText := ContextHeader(ctx.query, ctx.summary, show);
    contextText := AppendCompetitors(contextText, ctx.businesses, show);
    var withInsights := AppendInsights(contextText, ctx.businesses, ctx.reviews);
    if withInsights.None? {
      return None;
    }
    contextText := AppendPersonas(withInsights.value, ctx.personas);
    ConcatAssoc(ContextHeader(ctx.query, ctx.summary, show) + CompetitorsPart(ctx.businesses, show),
                InsightsPart(ctx.businesses, ctx.reviews).value, PersonasPart(ctx.personas));
    return Some(contextText);
  }

  method AppendCompetitors(start: string, bs: Option<seq<Business>>, show: Display) returns (text: string)
    ensures text == start + CompetitorsPart(bs, show)
  {
    text := start;
    if bs.Some? && |bs.value| > 0 {
      text := text + "Competitors analyzed:\n";
      var lines := bs.value;
      for i := 0 to |lines|
        invariant text == start + "Competitors analyzed:\n" + CompetitorLines(lines[..i], show)
      {
        assert lines[..i + 1][..i] == lines[..i];
        var line := CompetitorLine(i, lines[i], show);
        ConcatAssoc(start + "Competitors analyzed:\n", CompetitorLines(lines[..i], show), line);
        text := text + line;
      }
      assert lines[..|lines|] == lines;
      text := text + "\n";
      ConcatAssoc(start, "Competitors analyzed:\n", CompetitorLines(lines, show));
      ConcatAssoc(start, "Competitors analyzed:\n" + CompetitorLines(lines, show), "\n");
    } else {
      assert start + "" == start;
    }
  }

  method AppendInsights(start: string, bs: Option<seq<Business>>, rv: Option<JsObject<seq<Review>>>)
    returns (r: Option<string>)
    ensures r.None? <==> InsightsPart(bs, rv).None?
    ensures r.Some? ==> r.value == start + InsightsPart(bs, rv).value
  {
    if rv.None? || |rv.value.keys| == 0 {
      assert start + "" == start;
      return Some(start);
    }
    if bs.None? {
      // `businesses.find` is reached on the first key and throws.
      return None;
    }
    var header := start + "Customer review insights:\n";
    var ids := rv.value.keys;
    var text := AppendInsightBlocks(header, ids, rv.value, bs.value);
    text := text + "\n";
    ConcatAssoc(start, "Customer review insights:\n", InsightBlocks(ids, rv.value, bs.value));
    ConcatAssoc(start, "Customer review insights:\n" + InsightBlocks(ids, rv.value, bs.value), "\n");
    return Some(text);
  }

  /** The `Object.keys(reviews).forEach` loop. */
  method AppendInsightBlocks(start: string, ids: seq<string>, rv: JsObject<seq<Review>>, bs: seq<Business>)
    returns (text: string)
    ensures text == start + InsightBlocks(ids, rv, bs)
  {
    text := start;
    for i := 0 to |ids|
      invariant text == start + InsightBlocks(ids[..i], rv, bs)
    {
      assert ids[..i + 1][..i] == ids[..i];
      ConcatAssoc(start, InsightBlocks(ids[..i], rv, bs), InsightBlock(ids[i], rv, bs));
      text := AppendInsightBlock(text, ids[i], rv, bs);
    }
    assert ids[..|ids|] == ids;
  }

  /** One key of the review map: look the business up, then list up to
      three snippets. */
  method AppendInsightBlock(start: string, id: string, rv: JsObject<seq<Review>>, bs: seq<Business>)
    returns (text: string)
    ensures text == start + InsightBlock(id, rv, bs)
  {
    text := start;
    var businessReviews := ReviewsFor(rv, id);
    var business := Find(bs, id);
    if |businessReviews| > 0 && business.Some? {
      var head := "\n" + business.value.name + ":\n";
      text := text + head;
      var top := FirstThree(businessReviews);
      for j := 0 to |top|
        invariant text == start + head + Snippets(top[..j])
      {
        assert top[..j + 1][..j] == top[..j];
        ConcatAssoc(start + head, Snippets(top[..j]), Snippet(top[j]));
        text := text + Snippet(top[j]);
      }
      assert top[..|top|] == top;
      ConcatAssoc(start, head, Snippets(top));
    } else {
      assert start + "" == start;
    }
  }

  method AppendPersonas(start: string, ps: Option<seq<Persona>>) returns (text: string)
    ensures text == start + PersonasPart(ps)
  {
    if ps.Some? && |ps.value| > 0 {
      text := AppendPersonaEntries(start + "Customer Personas identified:\n", ps.value);
      ConcatAssoc(start, "Customer Personas identified:\n", PersonaEntries(ps.value));
    } else {
      text := start;
      assert start + "" == start;
    }
  }

  method AppendPersonaEntries(start: string, personas: seq<Persona>) returns (text: string)
    ensures text == start + PersonaEntries(personas)
  {
    text := start;
    for i := 0 to |personas|
      invariant text == start + PersonaEntries(personas[..i])
    {
      assert personas[..i + 1][..i] == personas[..i];
      ConcatAssoc(start, PersonaEntries(personas[..i]), PersonaEntry(i, personas[i]));
      text := AppendPersonaEntry(text, i, personas[i]);
    }
    assert personas[..|personas|] == personas;
  }

  /** One persona: its numbered line, then goals and pain points when it
      has any. */
  method AppendPersonaEntry(start: string, idx: nat, p: Persona) returns (text: string)
    ensures text == start + PersonaEntry(idx, p)
  {
    var line := NatToString(idx + 1) + ". " + p.name + " - " + p.demographic + "\n";
    text := start + line;
    if p.goals.Some? && |p.goals.value| > 0 {
      text := text + ("   Goals: " + Join(p.goals.value, ", ") + "\n");
    }
    ConcatAssoc(start, line, GoalsLine(p.goals));
    var afterGoals := text;
    if p.painPoints.Some? && |p.painPoints.value| > 0 {
      text := text + ("   Pain Points: " + Join(Points(p.painPoints.value), ", ") + "\n");
    }
    ConcatAssoc(start, line + GoalsLine(p.goals), PainPointsLine(p.painPoints));
  }

  /** Every persona's name appears in the context text. */
  lemma {:induction false} PersonaNamesInContext(ctx: FollowUpContext, show: Display, i: nat)
    requires ContextOf(ctx, show).Some? && ctx.personas.Some? && i < |ctx.personas.value|
    ensures Contains(ContextOf(ctx, show).value, ctx.personas.value[i].name)
  {
    var ps := ctx.personas.value;
    EntriesNamePersona(ps, i);
    ContainsExtendLeft("Customer Personas identified:\n", PersonaEntries(ps), ps[i].name);
    var before := ContextHeader(ctx.query, ctx.summary, show) + CompetitorsPart(ctx.businesses, show)
                  + InsightsPart(ctx.businesses, ctx.reviews).value;
    ContainsExtendLeft(before, PersonasPart(ctx.personas), ps[i].name);
  }

  lemma {:induction false} EntriesNamePersona(ps: seq<Persona>, i: nat)
    requires i < |ps|
    ensures Contains(PersonaEntries(ps), ps[i].name)
  {
    var n := |ps| - 1;
    if i == n {
      EntryNamesPersona(n, ps[n]);
      ContainsExtendLeft(PersonaEntries(ps[..n]), PersonaEntry(n, ps[n]), ps[n].name);
    } else {
      assert ps[..n][i] == ps[i];
      EntriesNamePersona(ps[..n], i);
      ContainsExtendRight(PersonaEntries(ps[..n]), PersonaEntry(n, ps[n]), ps[i].name);
    }
  }

  lemma {:induction false} EntryNamesPersona(idx: nat, p: Persona)
    ensures Contains(PersonaEntry(idx, p), p.name)
  {
    var number := NatToString(idx + 1) + ". ";
    ContainsMiddle(number, p.name, []);
    assert number + p.name + [] == number + p.name;
    var s := number + p.name;
    ContainsExtendRight(s, " - ", p.name);
    ContainsExtendRight(s + " - ", p.demographic, p.name);
    ContainsExtendRight(s + " - " + p.demographic, "\n", p.name);
    ContainsExtendRight(s + " - " + p.demographic + "\n", GoalsLine(p.goals), p.name);
    ContainsExtendRight(s + " - " + p.demographic + "\n" + GoalsLine(p.goals), PainPointsLine(p.painPoints), p.name);
  }

  // -------------------------------------------------------------- answering

  /** What `answerFollowUpQuestion` makes of the reply: the extracted object
      when it parses as it is (no repair is tried), otherwise the structure
      recovered from the raw reply. */
  function DecodeAnswer(text: string, parse: Parser, sections: string -> SectionMatches): (r: FollowUpAnswer)
    ensures Trim(text) != [] && r.Structured? ==> r.mainInsight != [] || |r.keyMoves| > 0
    ensures var x := ExtractObject(StripFences(text));
      x.Some? && parse(x.value).Some? ==> r == Parsed(parse(x.value).value)
    ensures ExtractObject(StripFences(text)).None? ==> r == FallbackAnswer(text, sections(text))
  {
    var x := ExtractObject(StripFences(text));
    if x.Some? && parse(x.value).Some? then Parsed(parse(x.value).value)
    else FallbackAnswer(text, sections(text))
  }

  /** Unlike the market analysis, a follow-up reply whose object does not
      parse as it is falls back to the text, even when the repaired object
      would parse. */
  lemma {:induction false} DecodeAnswerNeverRepairs(text: string, parse: Parser, sections: string -> SectionMatches)
    requires ExtractObject(StripFences(text)).Some?
    requires parse(ExtractObject(StripFences(text)).value).None?
    ensures DecodeAnswer(text, parse, sections) == FallbackAnswer(text, sections(text))
    ensures DecodeAnswer(text, parse, sections).Structured?
  {
  }

  /** The fallback fills the structure field by field. */
  method RecoverStructure(text: string, m: SectionMatches) returns (r: FollowUpAnswer)
    ensures r == FallbackAnswer(text, m)
  {
    var mainInsight := "";
    var keyMoves: seq<string> := [];
    var risksToAvoid: seq<string> := [];
    if m.mainInsight.Some? {
      mainInsight := Trim(m.mainInsight.value);
    } else {
      var paragraph := FirstParagraph(text);
      if paragraph != "" {
        mainInsight := paragraph;
      }
    }
    if m.keyMoves.Some? {
      keyMoves := CleanList(m.keyMoves.value);
    }
    if m.risksToAvoid.Some? {
      risksToAvoid := CleanList(m.risksToAvoid.value);
    }
    assert mainInsight == InsightOf(text, m);
    assert keyMoves == ListOf(m.keyMoves) && risksToAvoid == ListOf(m.risksToAvoid);
    if mainInsight != "" || |keyMoves| > 0 {
      return Structured(mainInsight, keyMoves, risksToAvoid);
    }
    return Structured(Trim(text), [], []);
  }

  /** `answerFollowUpQuestion(question, context)`: every failure, of the
      context builder or of the model call, becomes one generic error. */
  method AnswerFollowUpQuestion(
    question: string, ctx: FollowUpContext, show: Display,
    generate: FollowUpPrompt -> Result<string, GenerationError>, parse: Parser,
    sections: string -> SectionMatches)
    returns (r: Result<FollowUpAnswer, string>)
    ensures ContextOf(ctx, show).None? ==> r == Failure(FollowUpFailure)
    ensures ContextOf(ctx, show).Some? ==>
      var reply := generate(FollowUpPrompt(ContextOf(ctx, show).value, question));
      r == if reply.Failure? then Failure(FollowUpFailure) else Success(DecodeAnswer(reply.value, parse, sections))
  {
    var contextText := BuildContext(ctx, show);
    if contextText.None? {
      return Failure(FollowUpFailure);
    }
    var reply := generate(FollowUpPrompt(contextText.value, question));
    if reply.Failure? {
      return Failure(FollowUpFailure);
    }
    var text := reply.value;
    var cleanText := StripFences(text);
    var jsonMatch := ExtractObject(cleanText);
    if jsonMatch.Some? {
      var parsed := parse(jsonMatch.value);
      if parsed.Some? {
        return Success(Parsed(parsed.value));
      }
    }
    var structured := RecoverStructure(text, sections(text));
    return Success(structured);
  }
}
