/** The request records of the room API (server/app/services/schema.py). */
module Schema {
  import opened Wrappers

  /** The `add_user` record: a player as it is sent to and stored by the server. */
  datatype User = User(id: string, name: string, score: int)

  /** The value `score` takes when the request omits it. */
  const DefaultScore: int := 0

  /** Builds an `add_user` record from its fields, `score` being optional. */
  function MakeUser(id: string, name: string, score: Option<int>): (u: User)
    ensures u.id == id && u.name == name
    ensures u.score == (if score.Some? then score.value else 0)
  {
    User(id, name, score.GetOr(DefaultScore))
  }

  /** The body of a join request: one room id and exactly one user. */
  datatype JoinRoomRequest = JoinRoomRequest(roomId: string, user: User)
}
