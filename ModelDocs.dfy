/** A saved wrestling-robot model as the database stores it (backend/models/Model.js):
    the fields with their defaults, the per-user ratings limited to [1, 5], and
    the average rating calculateRating keeps. */
module ModelDocs {
  import opened JsRuntime
  import opened Learning

  /** Ids of users and models, standing for database ObjectIds. */
  type Id = nat

  /** One user's rating of a model. */
  datatype Rating = Rating(user: Id, value: real)

  /** The validators of a rating value: min 1, max 5. */
  predicate ValidRatingValue(v: real) {
    1.0 <= v <= 5.0
  }

  /** The two required objects of modelData, kept as the JSON text the client sent. */
  datatype ModelPayload = ModelPayload(robot1: string, robot2: string)

  datatype ModelDoc = ModelDoc(
    name: string,
    description: Option<string>,
    owner: Id,
    isPublic: bool,
    tags: seq<string>,
    parameters: Parameters,
    modelData: ModelPayload,
    downloads: nat,
    ratings: seq<Rating>,
    rating: real)

  const DefaultNumEpisodes: real := 100.0
  const DefaultMaxSteps: real := 500.0

  /** The parameters sub-document: a missing field takes the schema default
      (only a missing one: unlike configure's `||`, an explicit 0 is kept), and
      explorationRate, which the schema does not declare, is dropped. */
  function StoredParameters(p: Parameters): (r: Parameters)
    ensures r.explorationRate.None?
    ensures r.numEpisodes.Some? && r.maxSteps.Some? && r.learningRate.Some? && r.discountFactor.Some? &&
            r.explorationDecay.Some? && r.minExplorationRate.Some? && r.simpleMode.Some?
    ensures p.learningRate.Some? ==> r.learningRate == p.learningRate
    ensures p.maxSteps.None? ==> r.maxSteps == Some(DefaultMaxSteps)
  {
    Parameters(
      Some(if p.numEpisodes.Some? then p.numEpisodes.value else DefaultNumEpisodes),
      Some(if p.maxSteps.Some? then p.maxSteps.value else DefaultMaxSteps),
      Some(if p.learningRate.Some? then p.learningRate.value else DefaultLearningRate),
      Some(if p.discountFactor.Some? then p.discountFactor.value else DefaultDiscountFactor),
      None,
      Some(if p.explorationDecay.Some? then p.explorationDecay.value else DefaultExplorationDecay),
      Some(if p.minExplorationRate.Some? then p.minExplorationRate.value else DefaultMinExplorationRate),
      Some(if p.simpleMode.Some? then p.simpleMode.value else true))
  }

  /** Configuring a learner from stored parameters always starts exploring at
      the default rate 1.0, since no stored model carries an exploration rate. */
  lemma StoredParametersExploreFromDefault(p: Parameters)
    ensures RatesOf(StoredParameters(p)).explorationRate == DefaultExplorationRate
    ensures StoredParameters(StoredParameters(p)) == StoredParameters(p)
  {
  }

  /** A new document: isPublic false unless given, no downloads, no ratings, rating 0. */
  function NewModel(name: string, description: Option<string>, owner: Id, isPublic: Option<bool>,
                    tags: seq<string>, parameters: Parameters, modelData: ModelPayload): (d: ModelDoc)
    ensures d.isPublic == (isPublic == Some(true))
    ensures d.downloads == 0 && d.ratings == [] && d.rating == 0.0
    ensures d.owner == owner && d.name == name && d.parameters == StoredParameters(parameters)
  {
    ModelDoc(name, description, owner, isPublic == Some(true), tags, StoredParameters(parameters),
             modelData, 0, [], 0.0)
  }

  /** ratings.reduce((total, r) => total + r.value, 0). */
  function SumValues(ratings: seq<Rating>): real {
    if |ratings| == 0 then 0.0 else SumValues(ratings[..|ratings| - 1]) + ratings[|ratings| - 1].value
  }

  /** calculateRating: 0 for no ratings, otherwise the mean of the values. */
  function CalculateRating(ratings: seq<Rating>): (r: real)
    ensures |ratings| == 0 ==> r == 0.0
    ensures |ratings| > 0 ==> r * |ratings| as real == SumValues(ratings)
  {
    if |ratings| == 0 then 0.0 else SumValues(ratings) / |ratings| as real
  }

  predicate AllValid(ratings: seq<Rating>) {
    forall i :: 0 <= i < |ratings| ==> ValidRatingValue(ratings[i].value)
  }

  /** The sum of n values in [1, 5] lies in [n, 5n]. */
  lemma {:induction false} SumValuesBounds(ratings: seq<Rating>)
    requires AllValid(ratings)
    ensures |ratings| as real <= SumValues(ratings) <= 5.0 * |ratings| as real
  {
    if |ratings| > 0 {
      var init := ratings[..|ratings| - 1];
      assert AllValid(init) by {
        forall i | 0 <= i < |init| ensures ValidRatingValue(init[i].value) {
          assert init[i] == ratings[i];
        }
      }
      SumValuesBounds(init);
    }
  }

  /** With every value in [1, 5], so is the average. */
  lemma RatingWithinBounds(ratings: seq<Rating>)
    requires |ratings| > 0 && AllValid(ratings)
    ensures ValidRatingValue(CalculateRating(ratings))
  {
    SumValuesBounds(ratings);
    var n := |ratings| as real;
    var r := CalculateRating(ratings);
    assert r * n == SumValues(ratings);
    CancelPositive(1.0, r, n);
    CancelPositive(r, 5.0, n);
  }

  /** A positive factor can be cancelled from both sides of an inequality. */
  lemma CancelPositive(a: real, b: real, n: real)
    requires 0.0 < n && a * n <= b * n
    ensures a <= b
  {
  }

  /** Replacing one value in place changes the sum by the difference. */
  lemma {:induction false} SumValuesReplace(ratings: seq<Rating>, i: nat, v: real)
    requires i < |ratings|
    ensures SumValues(ratings[i := ratings[i].(value := v)]) == SumValues(ratings) - ratings[i].value + v
    decreases |ratings|
  {
    var t := ratings[i := ratings[i].(value := v)];
    if i == |ratings| - 1 {
      assert t[..|t| - 1] == ratings[..|ratings| - 1];
    } else {
      assert t[..|t| - 1] == ratings[..|ratings| - 1][i := ratings[i].(value := v)];
      SumValuesReplace(ratings[..|ratings| - 1], i, v);
    }
  }

  /** Appending a rating adds its value to the sum. */
  lemma SumValuesAppend(ratings: seq<Rating>, r: Rating)
    ensures SumValues(ratings + [r]) == SumValues(ratings) + r.value
  {
    assert (ratings + [r])[..|ratings|] == ratings;
  }
}
