/** The two stores the core talks to: the Redis session cache and the Mongo user
    collection. The connection modules (`utils/redis.ts`, `models/user.model.ts`) are not
    part of this model; each call the handlers make becomes one atomic map operation. */
module Stores {
  import opened Base

  /** `redis`: user id to user snapshot. Snapshots are stored as JSON; the model takes
      `JSON.parse(JSON.stringify(u)) == u` and stores `u` itself. No entry ever expires. */
  class SessionCache {
    var entries: map<UserId, User>

    constructor ()
      ensures entries == map[]
    {
      entries := map[];
    }

    /** `redis.get(key)`: the snapshot, or `None` for a missing key. */
    method Get(key: UserId) returns (r: Option<User>)
      ensures r.Some? <==> key in entries
      ensures r.Some? ==> r.value == entries[key]
    {
      if key in entries {
        r := Some(entries[key]);
      } else {
        r := None;
      }
    }

    /** `redis.set(key, value)` with no expiry. */
    method Set(key: UserId, snapshot: User)
      modifies this
      ensures entries == old(entries)[key := snapshot]
    {
      entries := entries[key := snapshot];
    }

    /** `redis.del(key)`; deleting a missing key is not an error. */
    method Del(key: UserId)
      modifies this
      ensures entries == old(entries) - {key}
    {
      entries := entries - {key};
    }
  }

  /** Every document is filed under its own email. */
  predicate KeyedByEmail(users: map<string, User>)
  {
    forall e :: e in users ==> users[e].email == e
  }

  /** A document as a query returns it: with or without the password field. */
  function Projected(u: User, withPassword: bool): User
  {
    if withPassword then u else u.(password := None)
  }

  /** The document a `userModel.create({name, email, password})` call stores. */
  function NewDocument(id: UserId, d: Draft): User
  {
    User(id, d.name, d.email, Some(Hash(d.password)))
  }

  /** The `_id` index and the email-keyed documents agree: each id names exactly one
      document, filed under its own email, and every stored document has a password hash. */
  predicate Indexed(users: map<string, User>, emailOf: map<UserId, string>)
  {
    && KeyedByEmail(users)
    && (forall e :: e in users ==>
          users[e].id in emailOf && emailOf[users[e].id] == e && users[e].password.Some?)
    && (forall id :: id in emailOf ==> emailOf[id] in users && users[emailOf[id]].id == id)
  }

  /** Every session belongs to a stored user and is filed under that user's own id. */
  predicate SessionsBacked(cache: map<UserId, User>, emailOf: map<UserId, string>)
  {
    forall k :: k in cache ==> cache[k].id == k && k in emailOf
  }

  /** `userModel`: documents filed by email (the unique field `findOne({email})` looks up)
      together with the `_id` index that `findById` uses. */
  class UserStore {
    var users: map<string, User>
    var emailOf: map<UserId, string>

    ghost predicate Valid()
      reads this
    {
      Indexed(users, emailOf)
    }

    constructor ()
      ensures Valid() && users == map[] && emailOf == map[]
    {
      users := map[];
      emailOf := map[];
    }

    /** `userModel.findOne({email})`, with `.select("+password")` when `withPassword`. */
    method FindByEmail(email: string, withPassword: bool) returns (r: Option<User>)
      ensures r.Some? <==> email in users
      ensures r.Some? ==> r.value == Projected(users[email], withPassword)
    {
      if email in users {
        r := Some(Projected(users[email], withPassword));
      } else {
        r := None;
      }
    }

    /** `userModel.findById(id)`: the document without its password field. */
    method FindById(id: UserId) returns (r: Option<User>)
      requires Valid()
      ensures r.Some? <==> id in emailOf
      ensures r.Some? ==> r.value == Projected(users[emailOf[id]], false) && r.value.id == id
    {
      if id in emailOf {
        r := Some(Projected(users[emailOf[id]], false));
      } else {
        r := None;
      }
    }

    /** `userModel.create(...)` for a fresh `_id` and an email no document has. */
    method Create(id: UserId, d: Draft) returns (u: User)
      requires Valid()
      requires d.email !in users && id !in emailOf
      modifies this
      ensures Valid()
      ensures u == NewDocument(id, d)
      ensures users == old(users)[d.email := u] && emailOf == old(emailOf)[id := d.email]
    {
      u := NewDocument(id, d);
      users := users[d.email := u];
      emailOf := emailOf[id := d.email];
    }

    /** `user.save()` after `user.name`/`user.email` were assigned: the stored document keeps
        its password and is filed under its (possibly new) email. */
    method Save(id: UserId, name: string, email: string)
      requires Valid()
      requires id in emailOf
      requires email == emailOf[id] || email !in users
      modifies this
      ensures Valid()
      ensures users == (old(users) - {old(emailOf[id])})[email := old(users[emailOf[id]]).(name := name, email := email)]
      ensures emailOf == old(emailOf)[id := email]
    {
      var previous := emailOf[id];
      var doc := users[previous].(name := name, email := email);
      users := (users - {previous})[email := doc];
      emailOf := emailOf[id := email];
    }
  }
}
