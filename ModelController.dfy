/** The record-keeping handlers of backend/controllers/modelController.js on
    an in-memory table of model documents: who may see, change and delete a
    model, the field merge of an update, rating with one rating per user,
    and the download counter. */
module ModelController {
  import opened JsRuntime
  import opened Learning
  import opened Express
  import opened ModelDocs

  // ---------------------------------------------------------------------------
  // Validation and access

  /** rateModel's guard `!rating || rating < 1 || rating > 5`, negated. */
  predicate RatingAccepted(rating: Option<real>) {
    !(!TruthyNumber(rating) || rating.value < 1.0 || rating.value > 5.0)
  }

  /** A rating is accepted exactly when it is given and lies in [1, 5]; the
      falsy 0 is below the range anyway. */
  lemma RatingAcceptedIsRange(rating: Option<real>)
    ensures RatingAccepted(rating) <==> rating.Some? && ValidRatingValue(rating.value)
  {
  }

  /** getModelById: public models are visible to all, private ones to their owner. */
  predicate CanView(m: ModelDoc, requester: Id) {
    m.isPublic || m.owner == requester
  }

  /** updateModel: the owner only. */
  predicate CanUpdate(m: ModelDoc, requester: Id) {
    m.owner == requester
  }

  /** deleteModel: the owner or an admin. */
  predicate CanDelete(m: ModelDoc, requester: Id, isAdmin: bool) {
    m.owner == requester || isAdmin
  }

  /** Whoever may update a model may also see and delete it; an admin may
      delete any model, and only the owner may update a model or see a private one. */
  lemma AccessRules(m: ModelDoc, requester: Id, isAdmin: bool)
    ensures CanUpdate(m, requester) ==> CanView(m, requester) && CanDelete(m, requester, isAdmin)
    ensures isAdmin ==> CanDelete(m, requester, isAdmin)
    ensures !m.isPublic ==> (CanView(m, requester) <==> CanUpdate(m, requester))
  {
  }

  // ---------------------------------------------------------------------------
  // Ratings

  /** ratings.findIndex(r => r.user == user): the first index, or -1. */
  function FindRating(ratings: seq<Rating>, user: Id): (i: int)
    ensures -1 <= i < |ratings|
    ensures i >= 0 ==> ratings[i].user == user && forall j :: 0 <= j < i ==> ratings[j].user != user
    ensures i == -1 <==> forall j :: 0 <= j < |ratings| ==> ratings[j].user != user
  {
    if |ratings| == 0 then -1
    else if ratings[0].user == user then 0
    else
      var j := FindRating(ratings[1..], user);
      if j < 0 then -1 else j + 1
  }

  /** No user has rated twice. */
  ghost predicate UniqueUsers(ratings: seq<Rating>) {
    forall i, j :: 0 <= i < j < |ratings| ==> ratings[i].user != ratings[j].user
  }

  /** The user's rating replaced in place, or appended when the user has none. */
  function Upsert(ratings: seq<Rating>, user: Id, v: real): seq<Rating> {
    var i := FindRating(ratings, user);
    if i != -1 then ratings[i := ratings[i].(value := v)] else ratings + [Rating(user, v)]
  }

  /** An existing rating is replaced where it stands and the count is kept; a
      new user's rating goes at the end and the count grows by one; every other
      rating is untouched, and no user ever appears twice. */
  lemma UpsertProperties(ratings: seq<Rating>, user: Id, v: real)
    ensures var r, i := Upsert(ratings, user, v), FindRating(ratings, user);
      (i != -1 ==> |r| == |ratings| && r[i] == Rating(user, v) &&
                   forall j :: 0 <= j < |ratings| && j != i ==> r[j] == ratings[j]) &&
      (i == -1 ==> r == ratings + [Rating(user, v)]) &&
      (UniqueUsers(ratings) ==> UniqueUsers(r))
    ensures exists j :: 0 <= j < |Upsert(ratings, user, v)| && Upsert(ratings, user, v)[j] == Rating(user, v)
  {
    var r, i := Upsert(ratings, user, v), FindRating(ratings, user);
    if i != -1 {
      assert r[i] == Rating(user, v);
    } else {
      assert r[|ratings|] == Rating(user, v);
    }
  }

  /** After the upsert, all values valid stay valid and the average is in [1, 5]. */
  lemma UpsertKeepsRatingsValid(ratings: seq<Rating>, user: Id, v: real)
    requires AllValid(ratings) && ValidRatingValue(v)
    ensures AllValid(Upsert(ratings, user, v))
    ensures ValidRatingValue(CalculateRating(Upsert(ratings, user, v)))
  {
    UpsertProperties(ratings, user, v);
    var r := Upsert(ratings, user, v);
    assert AllValid(r) by {
      forall j | 0 <= j < |r| ensures ValidRatingValue(r[j].value) {
        if j < |ratings| && r[j] != ratings[j] {
          assert r[j] == Rating(user, v);
        }
      }
    }
    RatingWithinBounds(r);
  }

  /** The new average after an upsert, from the old sum. */
  lemma UpsertSum(ratings: seq<Rating>, user: Id, v: real)
    ensures var i := FindRating(ratings, user);
      SumValues(Upsert(ratings, user, v)) ==
        if i != -1 then SumValues(ratings) - ratings[i].value + v else SumValues(ratings) + v
  {
    var i := FindRating(ratings, user);
    if i != -1 {
      SumValuesReplace(ratings, i, v);
    } else {
      SumValuesAppend(ratings, Rating(user, v));
    }
  }

  // ---------------------------------------------------------------------------
  // updateModel's merge

  /** The body of an update request; a missing field is None. */
  datatype ModelUpdate = ModelUpdate(
    name: Option<string>,
    description: Option<string>,
    isPublic: Option<bool>,
    tags: Option<seq<string>>,
    parameters: Option<Parameters>,
    modelData: Option<ModelPayload>)

  /** The conditional assignments of updateModel: name only when truthy, so an
      empty name is ignored; description and isPublic whenever present, so ""
      and false do apply; tags, parameters and modelData whenever present
      (arrays and objects are truthy). The parameters are stored through the
      schema, so explorationRate is dropped and missing fields read back as
      their defaults. Nothing else changes. */
  function MergeUpdate(m: ModelDoc, u: ModelUpdate): (r: ModelDoc)
    ensures r.name == (if TruthyString(u.name) then u.name.value else m.name)
    ensures r.description == (if u.description.Some? then u.description else m.description)
    ensures r.isPublic == (if u.isPublic.Some? then u.isPublic.value else m.isPublic)
    ensures r.tags == (if u.tags.Some? then u.tags.value else m.tags)
    ensures r.parameters == (if u.parameters.Some? then StoredParameters(u.parameters.value) else m.parameters)
    ensures u.parameters.Some? ==> r.parameters.explorationRate.None?
    ensures r.modelData == (if u.modelData.Some? then u.modelData.value else m.modelData)
    ensures r.owner == m.owner && r.downloads == m.downloads && r.ratings == m.ratings && r.rating == m.rating
  {
    var m1 := if TruthyString(u.name) then m.(name := u.name.value) else m;
    var m2 := if u.description.Some? then m1.(description := u.description) else m1;
    var m3 := if u.isPublic.Some? then m2.(isPublic := u.isPublic.value) else m2;
    var m4 := if u.tags.Some? then m3.(tags := u.tags.value) else m3;
    var m5 := if u.parameters.Some? then m4.(parameters := StoredParameters(u.parameters.value)) else m4;
    if u.modelData.Some? then m5.(modelData := u.modelData.value) else m5
  }

  /** An empty request changes nothing, and applying a request twice is applying it once. */
  lemma MergeUpdateLaws(m: ModelDoc, u: ModelUpdate)
    ensures MergeUpdate(m, ModelUpdate(None, None, None, None, None, None)) == m
    ensures MergeUpdate(MergeUpdate(m, u), u) == MergeUpdate(m, u)
  {
  }

  // ---------------------------------------------------------------------------
  // The table of models

  /** Each stored model: every user rated at most once, all values in [1, 5],
      the stored rating is the average of the values, and the parameters are
      as the schema stores them. */
  ghost predicate Consistent(m: ModelDoc) {
    UniqueUsers(m.ratings) && AllValid(m.ratings) && m.rating == CalculateRating(m.ratings) &&
    StoredParameters(m.parameters) == m.parameters
  }

  /** A new document is consistent. */
  lemma NewModelIsConsistent(name: string, description: Option<string>, owner: Id, isPublic: Option<bool>,
                             tags: seq<string>, parameters: Parameters, modelData: ModelPayload)
    ensures Consistent(NewModel(name, description, owner, isPublic, tags, parameters, modelData))
  {
    StoredParametersExploreFromDefault(parameters);
  }

  /** An update keeps a model consistent: the merge touches no rating, and
      parameters it brings are stored through the schema. */
  lemma MergeUpdateKeepsConsistent(m: ModelDoc, u: ModelUpdate)
    requires Consistent(m)
    ensures Consistent(MergeUpdate(m, u))
  {
    if u.parameters.Some? {
      StoredParametersExploreFromDefault(u.parameters.value);
    }
  }

  /** A learner configured from any stored model, created or updated, starts
      exploring at the default rate 1.0. */
  lemma StoredModelExploresFromDefault(m: ModelDoc)
    requires Consistent(m)
    ensures m.parameters.explorationRate.None?
    ensures RatesOf(m.parameters).explorationRate == DefaultExplorationRate
  {
    StoredParametersExploreFromDefault(m.parameters);
  }

  class ModelStore {
    var models: map<Id, ModelDoc>

    ghost predicate Valid()
      reads this
    {
      forall id :: id in models ==> Consistent(models[id])
    }

    constructor ()
      ensures models == map[] && Valid()
    {
      models := map[];
    }

    /** getModelById: 404 for an unknown id, 403 for a private model of someone else. */
    method GetModelById(id: Id, requester: Id) returns (status: Status, model: Option<ModelDoc>)
      ensures id !in models ==> status == NotFound && model.None?
      ensures id in models ==>
        (status == Ok <==> CanView(models[id], requester)) &&
        (status == Ok ==> model == Some(models[id])) &&
        (status != Ok ==> status == Forbidden && model.None?)
    {
      if id !in models {
        return NotFound, None;
      }
      var m := models[id];
      if !m.isPublic && m.owner != requester {
        return Forbidden, None;
      }
      return Ok, Some(m);
    }

    method UpdateModel(id: Id, requester: Id, u: ModelUpdate) returns (status: Status)
      requires Valid()
      modifies this
      ensures Valid()
      ensures id !in old(models) ==> status == NotFound && models == old(models)
      ensures id in old(models) && !CanUpdate(old(models)[id], requester) ==> status == Forbidden && models == old(models)
      ensures id in old(models) && CanUpdate(old(models)[id], requester) ==>
        status == Ok && models == old(models)[id := MergeUpdate(old(models)[id], u)]
    {
      if id !in models {
        return NotFound;
      }
      var m := models[id];
      if m.owner != requester {
        return Forbidden;
      }
      MergeUpdateKeepsConsistent(m, u);
      m := MergeUpdate(m, u);
      models := models[id := m];
      return Ok;
    }

    method DeleteModel(id: Id, requester: Id, isAdmin: bool) returns (status: Status)
      requires Valid()
      modifies this
      ensures Valid()
      ensures id !in old(models) ==> status == NotFound && models == old(models)
      ensures id in old(models) && !CanDelete(old(models)[id], requester, isAdmin) ==>
        status == Forbidden && models == old(models)
      ensures id in old(models) && CanDelete(old(models)[id], requester, isAdmin) ==>
        status == Ok && models == old(models) - {id}
    {
      if id !in models {
        return NotFound;
      }
      if models[id].owner != requester && !isAdmin {
        return Forbidden;
      }
      models := models - {id};
      return Ok;
    }

    /** rateModel: 400 before any lookup for a rating outside [1, 5], 404 for an
        unknown id, 403 for a private model; otherwise the upsert and the new
        average, stored and returned. */
    method RateModel(id: Id, requester: Id, rating: Option<real>) returns (status: Status, average: Option<real>)
      requires Valid()
      modifies this
      ensures Valid()
      ensures status == BadRequest <==> !RatingAccepted(rating)
      ensures status != Ok ==> models == old(models) && average.None?
      ensures RatingAccepted(rating) && id !in old(models) ==> status == NotFound
      ensures RatingAccepted(rating) && id in old(models) && !old(models)[id].isPublic ==> status == Forbidden
      ensures RatingAccepted(rating) && id in old(models) && old(models)[id].isPublic ==> status == Ok
      ensures status == Ok ==>
        id in old(models) && old(models)[id].isPublic &&
        var rs := Upsert(old(models)[id].ratings, requester, rating.value);
        models == old(models)[id := old(models)[id].(ratings := rs, rating := CalculateRating(rs))] &&
        average == Some(CalculateRating(rs)) && ValidRatingValue(average.value)
    {
      if !TruthyNumber(rating) || rating.value < 1.0 || rating.value > 5.0 {
        return BadRequest, None;
      }
      if id !in models {
        return NotFound, None;
      }
      var m := models[id];
      if !m.isPublic {
        return Forbidden, None;
      }
      var ratingIndex := FindRating(m.ratings, requester);
      if ratingIndex != -1 {
        m := m.(ratings := m.ratings[ratingIndex := m.ratings[ratingIndex].(value := rating.value)]);
      } else {
        m := m.(ratings := m.ratings + [Rating(requester, rating.value)]);
      }
      UpsertProperties(old(models)[id].ratings, requester, rating.value);
      UpsertKeepsRatingsValid(old(models)[id].ratings, requester, rating.value);
      m := m.(rating := CalculateRating(m.ratings));
      models := models[id := m];
      return Ok, Some(m.rating);
    }

    /** incrementDownloads: 404 for an unknown id, otherwise downloads up by one. */
    method IncrementDownloads(id: Id) returns (status: Status, downloads: Option<nat>)
      requires Valid()
      modifies this
      ensures Valid()
      ensures id !in old(models) ==> status == NotFound && downloads.None? && models == old(models)
      ensures id in old(models) ==>
        status == Ok && models == old(models)[id := old(models)[id].(downloads := old(models)[id].downloads + 1)] &&
        downloads == Some(old(models)[id].downloads + 1)
    {
      if id !in models {
        return NotFound, None;
      }
      var m := models[id].(downloads := models[id].downloads + 1);
      models := models[id := m];
      return Ok, Some(m.downloads);
    }
  }
}
