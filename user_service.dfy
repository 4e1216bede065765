/** `server/services/user.service.ts`: the read-only session lookup behind `GET /me`. */
module UserService {
  import opened Base
  import opened Http

  /** `getUserById(id, res)`: one cache read, then `404 {message}` (note: no `success`
      field) or `201 {success: true, user}` carrying the cached snapshot itself. */
  function GetUserById(cache: map<UserId, User>, id: UserId): (r: Reply)
    ensures r.cookies == []
    ensures r.status == 201 <==> id in cache
    ensures id !in cache ==> r.status == 404 && r.body == EMPTY_BODY.(message := Some("User not found"))
    ensures id in cache ==> r.body == EMPTY_BODY.(success := Some(true), user := Some(cache[id]))
  {
    if id !in cache then Reply(404, EMPTY_BODY.(message := Some("User not found")), [])
    else Reply(201, EMPTY_BODY.(success := Some(true), user := Some(cache[id])), [])
  }
}
