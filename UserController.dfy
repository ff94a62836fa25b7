/** The account and favourites handlers of backend/controllers/userController.js
    on an in-memory table of user documents (backend/models/User.js): the
    duplicate check of register, the truthy-only profile merge, and adding
    and removing favourite models. */
module UserController {
  import opened JsRuntime
  import opened Express

  /** Ids of users and of the models they favour, standing for ObjectIds. */
  type Id = nat

  /** A user document; the password is kept as given (hashing is not modelled). */
  datatype UserDoc = UserDoc(username: string, email: string, password: string, isAdmin: bool, favorites: seq<Id>)

  /** The schema validators: every field required, a username of at least 3
      characters and a password of at least 6. */
  predicate MeetsSchema(u: UserDoc) {
    |u.username| >= 3 && u.email != "" && |u.password| >= 6
  }

  /** A document saved without errors: it meets the schema. Favourites, added
      only when absent, never repeat. */
  ghost predicate WellFormedUser(u: UserDoc) {
    MeetsSchema(u) && NoDuplicates(u.favorites)
  }

  ghost predicate NoDuplicates(xs: seq<Id>) {
    forall i, j :: 0 <= i < j < |xs| ==> xs[i] != xs[j]
  }

  /** The unique indexes on username and email: no two stored users share either. */
  ghost predicate UniqueAccounts(users: map<Id, UserDoc>) {
    forall a, b :: a in users && b in users && a != b ==>
      users[a].username != users[b].username && users[a].email != users[b].email
  }

  /** register's `findOne({$or: [{email}, {username}]})`, and the unique-index
      clash of a save: some user other than `self` has this username or email. */
  predicate Taken(users: map<Id, UserDoc>, self: Option<Id>, username: string, email: string) {
    exists id :: id in users && Some(id) != self && (users[id].username == username || users[id].email == email)
  }

  // ---------------------------------------------------------------------------
  // Favourites

  /** favorites.filter(favorite => favorite != modelId). */
  function RemoveAll(xs: seq<Id>, x: Id): (r: seq<Id>)
    ensures |r| <= |xs|
    ensures forall y :: y in r <==> y in xs && y != x
  {
    if |xs| == 0 then []
    else if xs[0] == x then RemoveAll(xs[1..], x)
    else [xs[0]] + RemoveAll(xs[1..], x)
  }

  /** The filter keeps the other elements in their order: it distributes over
      concatenation and leaves a list without x as it is. */
  lemma {:induction false} RemoveAllAppend(a: seq<Id>, b: seq<Id>, x: Id)
    ensures RemoveAll(a + b, x) == RemoveAll(a, x) + RemoveAll(b, x)
  {
    if |a| > 0 {
      assert (a + b)[1..] == a[1..] + b;
      RemoveAllAppend(a[1..], b, x);
    } else {
      assert a + b == b;
    }
  }

  lemma {:induction false} RemoveAllAbsent(xs: seq<Id>, x: Id)
    requires x !in xs
    ensures RemoveAll(xs, x) == xs
  {
    if |xs| > 0 {
      assert xs == [xs[0]] + xs[1..];
      RemoveAllAbsent(xs[1..], x);
    }
  }

  /** Removing keeps favourites free of repeats. */
  lemma {:induction false} RemoveAllNoDuplicates(xs: seq<Id>, x: Id)
    requires NoDuplicates(xs)
    ensures NoDuplicates(RemoveAll(xs, x))
  {
    if |xs| > 0 {
      var t := xs[1..];
      assert NoDuplicates(t) by {
        forall i, j | 0 <= i < j < |t| ensures t[i] != t[j] {
          assert t[i] == xs[i + 1] && t[j] == xs[j + 1];
        }
      }
      RemoveAllNoDuplicates(t, x);
      if xs[0] != x {
        assert xs[0] !in t by {
          forall j | 0 <= j < |t| ensures t[j] != xs[0] {
            assert t[j] == xs[j + 1];
          }
        }
        var r := RemoveAll(t, x);
        assert xs[0] !in r;
        forall i, j | 0 <= i < j < |[xs[0]] + r| ensures ([xs[0]] + r)[i] != ([xs[0]] + r)[j] {
          if i == 0 {
            assert ([xs[0]] + r)[j] == r[j - 1];
          } else {
            assert ([xs[0]] + r)[i] == r[i - 1] && ([xs[0]] + r)[j] == r[j - 1];
          }
        }
      }
    }
  }

  /** Adding a model that was not a favourite and then removing it restores
      the list. */
  lemma AddThenRemove(xs: seq<Id>, x: Id)
    requires x !in xs
    ensures RemoveAll(xs + [x], x) == xs
  {
    RemoveAllAppend(xs, [x], x);
    RemoveAllAbsent(xs, x);
    assert RemoveAll([x], x) == [];
  }

  /** Appending an absent id keeps the favourites free of repeats. */
  lemma AppendNoDuplicates(xs: seq<Id>, x: Id)
    requires NoDuplicates(xs) && x !in xs
    ensures NoDuplicates(xs + [x])
  {
    var r := xs + [x];
    forall i, j | 0 <= i < j < |r| ensures r[i] != r[j] {
      if j == |xs| {
        assert r[i] == xs[i];
      } else {
        assert r[i] == xs[i] && r[j] == xs[j];
      }
    }
  }

  // ---------------------------------------------------------------------------
  // The profile merge

  /** updateProfile's `if (field) user.field = field`: only truthy fields apply,
      so an empty string leaves the stored value. */
  function MergeProfile(u: UserDoc, username: Option<string>, email: Option<string>, password: Option<string>): (r: UserDoc)
    ensures r.username == (if TruthyString(username) then username.value else u.username)
    ensures r.email == (if TruthyString(email) then email.value else u.email)
    ensures r.password == (if TruthyString(password) then password.value else u.password)
    ensures r.isAdmin == u.isAdmin && r.favorites == u.favorites
  {
    var u1 := if TruthyString(username) then u.(username := username.value) else u;
    var u2 := if TruthyString(email) then u1.(email := email.value) else u1;
    if TruthyString(password) then u2.(password := password.value) else u2
  }

  /** An empty request, or one of empty strings, changes nothing; a request
      applied twice is applied once. */
  lemma MergeProfileLaws(u: UserDoc, username: Option<string>, email: Option<string>, password: Option<string>)
    ensures MergeProfile(u, None, None, None) == u
    ensures MergeProfile(u, Some(""), Some(""), Some("")) == u
    ensures var v := MergeProfile(u, username, email, password);
      MergeProfile(v, username, email, password) == v
  {
  }

  // ---------------------------------------------------------------------------
  // The table of users

  class UserStore {
    var users: map<Id, UserDoc>
    var nextId: Id

    ghost predicate Valid()
      reads this
    {
      UniqueAccounts(users) &&
      forall id :: id in users ==> id < nextId && WellFormedUser(users[id])
    }

    constructor ()
      ensures users == map[] && nextId == 0 && Valid()
    {
      users := map[];
      nextId := 0;
    }

    /** register: 400 when the email or the username is already used, a 500
        from the failing save when the schema rejects the fields, otherwise a
        new non-admin user without favourites under a fresh id. */
    method Register(username: string, email: string, password: string) returns (status: Status, id: Option<Id>)
      requires Valid()
      modifies this
      ensures Valid()
      ensures Taken(old(users), None, username, email) ==> status == BadRequest
      ensures status != Created ==> id.None? && users == old(users) && nextId == old(nextId)
      ensures !Taken(old(users), None, username, email) && !MeetsSchema(UserDoc(username, email, password, false, [])) ==>
        status == ServerError
      ensures status == Created <==> !Taken(old(users), None, username, email) && MeetsSchema(UserDoc(username, email, password, false, []))
      ensures status == Created ==>
        id == Some(old(nextId)) && old(nextId) !in old(users) &&
        users == old(users)[old(nextId) := UserDoc(username, email, password, false, [])] &&
        nextId == old(nextId) + 1
    {
      if exists other :: other in users && (users[other].username == username || users[other].email == email) {
        return BadRequest, None;
      }
      var user := UserDoc(username, email, password, false, []);
      if !(|username| >= 3 && email != "" && |password| >= 6) {
        return ServerError, None;
      }
      users := users[nextId := user];
      id := Some(nextId);
      nextId := nextId + 1;
      status := Created;
    }

    /** updateProfile: 404 for an unknown user; the truthy-only merge, which the
        save rejects with a 500 when it breaks the schema or a unique index. */
    method UpdateProfile(requester: Id, username: Option<string>, email: Option<string>, password: Option<string>)
      returns (status: Status)
      requires Valid()
      modifies this
      ensures Valid() && nextId == old(nextId)
      ensures requester !in old(users) ==> status == NotFound
      ensures status != Ok ==> users == old(users)
      ensures requester in old(users) ==>
        var v := MergeProfile(old(users)[requester], username, email, password);
        (status == Ok <==> MeetsSchema(v) && !Taken(old(users), Some(requester), v.username, v.email)) &&
        (status == Ok ==> users == old(users)[requester := v]) &&
        (status != Ok ==> status == ServerError)
    {
      if requester !in users {
        return NotFound;
      }
      var v := MergeProfile(users[requester], username, email, password);
      if !(|v.username| >= 3 && v.email != "" && |v.password| >= 6) {
        return ServerError;
      }
      if exists other :: other in users && other != requester && (users[other].username == v.username || users[other].email == v.email) {
        return ServerError;
      }
      users := users[requester := v];
      return Ok;
    }

    /** addToFavorites: 404 for an unknown user, 400 when the model is
        already a favourite, otherwise the model appended. */
    method AddToFavorites(requester: Id, modelId: Id) returns (status: Status)
      requires Valid()
      modifies this
      ensures Valid() && nextId == old(nextId)
      ensures requester !in old(users) ==> status == NotFound && users == old(users)
      ensures requester in old(users) && modelId in old(users)[requester].favorites ==>
        status == BadRequest && users == old(users)
      ensures requester in old(users) && modelId !in old(users)[requester].favorites ==>
        status == Ok &&
        users == old(users)[requester := old(users)[requester].(favorites := old(users)[requester].favorites + [modelId])]
    {
      if requester !in users {
        return NotFound;
      }
      var user := users[requester];
      if modelId in user.favorites {
        return BadRequest;
      }
      AppendNoDuplicates(user.favorites, modelId);
      users := users[requester := user.(favorites := user.favorites + [modelId])];
      return Ok;
    }

    /** removeFromFavorites: 404 for an unknown user, otherwise every
        occurrence of the model filtered out (also when there was none). */
    method RemoveFromFavorites(requester: Id, modelId: Id) returns (status: Status)
      requires Valid()
      modifies this
      ensures Valid() && nextId == old(nextId)
      ensures requester !in old(users) ==> status == NotFound && users == old(users)
      ensures requester in old(users) ==>
        status == Ok &&
        users == old(users)[requester := old(users)[requester].(favorites := RemoveAll(old(users)[requester].favorites, modelId))]
    {
      if requester !in users {
        return NotFound;
      }
      var user := users[requester];
      RemoveAllNoDuplicates(user.favorites, modelId);
      users := users[requester := user.(favorites := RemoveAll(user.favorites, modelId))];
      return Ok;
    }
  }
}
