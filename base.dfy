/** Values shared by every part of the session and authentication model. */
module Base {

  /** An optional value: `None` stands for JavaScript's `undefined`, `null` or a missing field. */
  datatype Option<+T> = None | Some(value: T)

  /** A JavaScript number as far as this model needs one: an exact integer, or NaN. */
  datatype JsNumber = Finite(value: int) | NaN

  /** A Mongo `_id` rendered as a string; it is also the session-cache key. */
  type UserId = string

  /** A stored password hash. The hashing itself (a save hook of the user model) is not part
      of this model; `Hash` stands for it as an injective function. */
  datatype Digest = Digest(of: string)

  function Hash(password: string): Digest
  {
    Digest(password)
  }

  /** A user document. `password` is `None` when the document was loaded without the
      password field, which the user model only returns on request (`.select("+password")`). */
  datatype User = User(id: UserId, name: string, email: string, password: Option<Digest>)

  /** The draft user carried by an activation token: name, email and password, no avatar. */
  datatype Draft = Draft(name: string, email: string, password: string)
}
