/** The input guards of three POST handlers in server/server.py. Each reads
    fields of the JSON body, tests them with Python truthiness, and answers
    with a constant payload or with HTTP 400; a body that is not a JSON
    object makes `data.get` raise, which the handler turns into HTTP 500. */
module RequestGuards {

  /** A JSON value as `request.get_json()` decodes it. */
  datatype Json =
    | JNull
    | JBool(b: bool)
    | JNumber(n: real)
    | JString(s: string)
    | JArray(items: seq<Json>)
    | JObject(fields: map<string, Json>)

  /** Python truthiness of the decoded value: `None`, `False`, zero and
      empty strings, lists and dicts are false, everything else is true. */
  predicate Truthy(v: Json)
  {
    match v
    case JNull => false
    case JBool(b) => b
    case JNumber(n) => n != 0.0
    case JString(s) => s != ""
    case JArray(items) => items != []
    case JObject(fields) => fields != map[]
  }

  /** `data.get(key, default)`. */
  function Get(fields: map<string, Json>, key: string, default: Json): (v: Json)
    ensures key in fields ==> v == fields[key]
    ensures key !in fields ==> v == default
  {
    if key in fields then fields[key] else default
  }

  /** The field is present and truthy. */
  predicate Given(fields: map<string, Json>, key: string)
  {
    key in fields && Truthy(fields[key])
  }

  /** The JSON reply and its status: 200 with a payload, 400 with an error
      message, or 500 when reading the body raised. */
  datatype Reply = Success(payload: Json) | BadRequest(message: string) | ServerError

  /** The message all three guards answer with when they refuse. */
  const MissingInput: string := "Please provide at least one user and one film or genre."

  /** The placeholder result of both skew handlers. */
  const Higher: Json := JString("higher")

  /** The placeholder rating of movie_prediction. */
  const PredictedRating: Json := JNumber(4.37)

  /** calculate_users_skew: at least one user, and at least one film or genre. */
  function UsersSkew(body: Json): (r: Reply)
    ensures r.ServerError? <==> !body.JObject?
    ensures r.Success? <==>
              body.JObject? && Given(body.fields, "users")
              && (Given(body.fields, "films") || Given(body.fields, "genres"))
    ensures r.Success? ==> r.payload == Higher
    ensures r.BadRequest? ==> r.message == MissingInput
  {
    match body
    case JObject(data) =>
      var genres := Get(data, "genres", JNull);
      var films := Get(data, "films", JNull);
      var users := Get(data, "users", JNull);
      if Truthy(users) && (Truthy(films) || Truthy(genres)) then Success(Higher)
      else BadRequest(MissingInput)
    case _ => ServerError
  }

  /** movie_prediction: refuses only when `tags`, `users` and `ratings` are
      all falsy. Missing `tags` and `users` default to empty lists, but
      `ratings` defaults to `[0, 10]`, which is truthy, so a refusal needs a
      falsy `ratings` in the body. */
  function MoviePrediction(body: Json): (r: Reply)
    ensures r.ServerError? <==> !body.JObject?
    ensures r.BadRequest? <==>
              body.JObject? && !Given(body.fields, "tags") && !Given(body.fields, "users")
              && "ratings" in body.fields && !Truthy(body.fields["ratings"])
    ensures r.Success? ==> r.payload == PredictedRating
    ensures r.BadRequest? ==> r.message == MissingInput
  {
    match body
    case JObject(data) =>
      var tags := Get(data, "tags", JArray([]));
      var users := Get(data, "users", JArray([]));
      var ratings := Get(data, "ratings", JArray([JNumber(0.0), JNumber(10.0)]));
      if Truthy(tags) || Truthy(users) || Truthy(ratings) then Success(PredictedRating)
      else BadRequest(MissingInput)
    case _ => ServerError
  }

  /** calculate_personalities_skew: both a personality and a genre. */
  function PersonalitiesSkew(body: Json): (r: Reply)
    ensures r.ServerError? <==> !body.JObject?
    ensures r.Success? <==> body.JObject? && Given(body.fields, "personality") && Given(body.fields, "genre")
    ensures r.Success? ==> r.payload == Higher
    ensures r.BadRequest? ==> r.message == MissingInput
  {
    match body
    case JObject(data) =>
      var genre := Get(data, "genre", JNull);
      var personality := Get(data, "personality", JNull);
      if Truthy(personality) && Truthy(genre) then Success(Higher)
      else BadRequest(MissingInput)
    case _ => ServerError
  }

  /** A request without `ratings` always gets the prediction, whatever else
      it holds. */
  lemma OmittedRatingsSucceeds(fields: map<string, Json>)
    requires "ratings" !in fields
    ensures MoviePrediction(JObject(fields)) == Success(PredictedRating)
  {
  }

  /** An empty `ratings` is refused when `tags` and `users` are empty or
      absent: only an absent `ratings` falls back to its truthy default. */
  lemma EmptyRatingsAreRefused()
    ensures MoviePrediction(JObject(map["tags" := JArray([]), "users" := JArray([]), "ratings" := JArray([])]))
         == BadRequest(MissingInput)
    ensures MoviePrediction(JObject(map["ratings" := JArray([])])) == BadRequest(MissingInput)
  {
  }

  /** Without users, the user skew is refused, whatever films or genres are sent. */
  lemma UsersSkewNeedsUsers(fields: map<string, Json>)
    requires "users" !in fields || !Truthy(fields["users"])
    ensures UsersSkew(JObject(fields)) == BadRequest(MissingInput)
  {
  }

  /** Users alone are not enough for the user skew: a film or a genre is needed too. */
  lemma UsersSkewNeedsFilmOrGenre(users: seq<Json>)
    requires users != []
    ensures UsersSkew(JObject(map["users" := JArray(users)])) == BadRequest(MissingInput)
    ensures UsersSkew(JObject(map["users" := JArray(users), "genres" := JArray(users)])) == Success(Higher)
  {
  }

  /** A falsy personality or genre, such as an empty string, is refused like a missing one. */
  lemma PersonalitiesSkewRefusesEmptyText(genre: string)
    ensures PersonalitiesSkew(JObject(map["personality" := JString(""), "genre" := JString(genre)]))
         == BadRequest(MissingInput)
  {
  }
}
