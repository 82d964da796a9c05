/** The records the services exchange: businesses and reviews as returned
    by the Yelp APIs, personas as produced by the analysis. */
module Records {

  import opened Outcomes
  import opened JsValues

  datatype Category = Category(title: string)

  /** A business record from discovery or from the business-details API. */
  datatype Business = Business(
    id: string,
    name: string,
    rating: real,
    reviewCount: nat,
    price: Option<string>,
    categories: seq<Category>,
    url: string)

  /** A review from the reviews API (its rating is a whole number of stars). */
  datatype Review = Review(rating: nat, text: string, userName: string, timeCreated: string)

  datatype PainPoint = PainPoint(point: string, quote: string)

  datatype Persona = Persona(
    name: string,
    demographic: string,
    goals: Option<seq<string>>,
    painPoints: Option<seq<PainPoint>>)

  /** A review as it is sent back to the client. */
  function ReviewValue(r: Review): Value {
    Obj(Dict(["rating", "text", "user", "time_created"],
             map["rating" := Num(r.rating as real),
                 "text" := Str(r.text),
                 "user" := Obj(Dict(["name"], map["name" := Str(r.userName)])),
                 "time_created" := Str(r.timeCreated)]))
  }

  /** The review mapping (business id to its reviews) as a response value. */
  function ReviewsValue(reviews: JsObject<seq<Review>>): Value {
    Obj(Dict(reviews.keys,
             map k | k in reviews.entries :: Arr(seq(|reviews.entries[k]|, i requires 0 <= i < |reviews.entries[k]| => ReviewValue(reviews.entries[k][i])))))
  }
}
