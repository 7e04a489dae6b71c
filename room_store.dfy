/** The Redis-backed room store (server/app/services/redis_services.py). Redis is a map from
    key to hash; each hash field that holds JSON is kept as the decoded value. */
module RoomStore {
  import opened Wrappers
  import opened Types
  import opened Schema

  function RoomKey(roomId: string): string {
    "room:" + roomId + ":state"
  }

  function EventsChannel(roomId: string): string {
    "room:" + roomId + ":events"
  }

  /** Distinct rooms never share a state key. */
  lemma RoomKeyInjective(a: string, b: string)
    requires RoomKey(a) == RoomKey(b)
    ensures a == b
  {
    var k := RoomKey(a);
    assert k[5..|k| - 6] == a;
    assert RoomKey(b)[5..|k| - 6] == b;
  }

  /** Distinct rooms never share an events channel. */
  lemma EventsChannelInjective(a: string, b: string)
    requires EventsChannel(a) == EventsChannel(b)
    ensures a == b
  {
    var c := EventsChannel(a);
    assert c[5..|c| - 7] == a;
    assert EventsChannel(b)[5..|c| - 7] == b;
  }

  /** A state key is never an events channel, whatever the two room ids. */
  lemma KeyIsNeverChannel(a: string, b: string)
    ensures RoomKey(a) != EventsChannel(b)
  {
    var k, c := RoomKey(a), EventsChannel(b);
    assert k[|k| - 1] == 'e';
    assert c[|c| - 1] == 's';
  }

  /** One room hash. A field is `None` when the hash lacks it: writing one field of a missing
      key creates a hash holding that field alone. */
  datatype RoomRecord = RoomRecord(
    players: Option<seq<User>>,
    currentDrawer: Option<string>,
    round: Option<string>,
    maxRounds: Option<int>,
    word: Option<string>,
    strokes: Option<seq<Stroke>>,
    started: Option<int>)

  /** What a read of a missing key sees: no fields at all. */
  const NoFields := RoomRecord(None, None, None, None, None, None, None)

  /** The hash stored under `key`, or no fields when the key is missing. */
  function Fetch(store: map<string, RoomRecord>, key: string): RoomRecord {
    if key in store then store[key] else NoFields
  }

  /** The players list a read decodes, `[]` when the field is missing. */
  function PlayersOf(rec: RoomRecord): seq<User> {
    rec.players.GetOr([])
  }

  function StrokesOf(rec: RoomRecord): seq<Stroke> {
    rec.strokes.GetOr([])
  }

  /** The hash `create_room` writes. */
  function NewRoom(creator: User, maxRounds: int): (rec: RoomRecord)
    ensures rec != NoFields
  {
    RoomRecord(Some([creator]), Some(""), Some("0"), Some(maxRounds), Some(""), Some([]), Some(0))
  }

  /** A new room holds only its creator, with score 0, no strokes, round "0", no drawer, no word, not started. */
  lemma NewRoomShape(id: string, name: string, maxRounds: int)
    ensures var rec := NewRoom(User(id, name, 0), maxRounds);
      && PlayersOf(rec) == [User(id, name, 0)] && PlayersOf(rec)[0].score == 0
      && StrokesOf(rec) == []
      && rec.round == Some("0") && rec.currentDrawer == Some("") && rec.word == Some("")
      && rec.started == Some(0) && rec.maxRounds == Some(maxRounds)
  {
  }

  /** The room state as `get_room_state` returns it: lists decoded, `[]` for a missing list. */
  datatype RoomView = RoomView(
    players: seq<User>,
    strokes: seq<Stroke>,
    currentDrawer: Option<string>,
    round: Option<string>,
    maxRounds: Option<int>,
    word: Option<string>,
    started: Option<int>)

  function View(rec: RoomRecord): (v: RoomView)
    ensures v.players == PlayersOf(rec) && v.strokes == StrokesOf(rec)
  {
    RoomView(PlayersOf(rec), StrokesOf(rec), rec.currentDrawer, rec.round, rec.maxRounds, rec.word, rec.started)
  }

  /** The players list without anyone whose id is `id`. */
  function RemoveById(ps: seq<User>, id: string): (r: seq<User>)
    ensures |r| <= |ps|
    ensures forall u :: u in r ==> u in ps && u.id != id
  {
    if ps == [] then []
    else if ps[0].id != id then [ps[0]] + RemoveById(ps[1..], id)
    else RemoveById(ps[1..], id)
  }

  /** Every player whose id differs from `id` is kept. */
  lemma {:induction false} RemoveByIdKeepsOthers(ps: seq<User>, id: string, u: User)
    requires u in ps && u.id != id
    ensures u in RemoveById(ps, id)
  {
    if ps[0] != u {
      RemoveByIdKeepsOthers(ps[1..], id, u);
    }
  }

  /** Removal works element by element, so the kept players stay in their original order. */
  lemma {:induction false} RemoveByIdConcat(a: seq<User>, b: seq<User>, id: string)
    ensures RemoveById(a + b, id) == RemoveById(a, id) + RemoveById(b, id)
  {
    if a == [] {
      assert a + b == b;
    } else {
      assert (a + b)[1..] == a[1..] + b;
      RemoveByIdConcat(a[1..], b, id);
    }
  }

  /** An id nobody has leaves the list as it is. */
  lemma {:induction false} RemoveAbsentId(ps: seq<User>, id: string)
    requires forall u :: u in ps ==> u.id != id
    ensures RemoveById(ps, id) == ps
  {
    if ps != [] {
      RemoveAbsentId(ps[1..], id);
    }
  }

  /** Removing the same id twice is the same as removing it once. */
  lemma RemoveByIdIdempotent(ps: seq<User>, id: string)
    ensures RemoveById(RemoveById(ps, id), id) == RemoveById(ps, id)
  {
    RemoveAbsentId(RemoveById(ps, id), id);
  }

  /** The store after `clear_strokes` or `clear_canvas`: the strokes field set to `[]`. */
  function Cleared(store: map<string, RoomRecord>, key: string): (s: map<string, RoomRecord>)
    ensures key in s && StrokesOf(s[key]) == []
    ensures forall k :: k in s <==> k in store || k == key
  {
    store[key := Fetch(store, key).(strokes := Some([]))]
  }

  /** Clearing changes only the strokes of that room, and clearing twice is clearing once. */
  lemma ClearedProperties(store: map<string, RoomRecord>, key: string)
    ensures Cleared(store, key)[key].(strokes := Fetch(store, key).strokes) == Fetch(store, key)
    ensures forall k :: k in store && k != key ==> Cleared(store, key)[k] == store[k]
    ensures Cleared(Cleared(store, key), key) == Cleared(store, key)
  {
  }

  datatype HttpError = HttpError(status: int, detail: string)

  const RoomFull := HttpError(409, "Room is full")
  const RoomNotFound := HttpError(404, "Room not found")

  /** The one kind of event the store publishes: `{"type": "ROOM_STATE", "state": ...}`. */
  datatype Event = RoomStateEvent(state: Option<RoomView>)

  /** One message handed to Redis pub/sub. */
  datatype Publication = Publication(channel: string, event: Event)

  /** The response of `create_room`. */
  datatype Created = Created(roomId: string, player: User)

  /** `GlobalMemory`: the Redis keyspace and the log of published events. */
  class GlobalMemory {
    const maxPlayers: nat
    const maxRounds: int
    var store: map<string, RoomRecord>
    var published: seq<Publication>

    /** Every stored hash has at least one field and at most `maxPlayers` players. */
    ghost predicate Valid()
      reads this
    {
      && maxPlayers > 0
      && forall k :: k in store ==> store[k] != NoFields && |PlayersOf(store[k])| <= maxPlayers
    }

    constructor (maxPlayers: nat, maxRounds: int)
      requires maxPlayers > 0
      ensures Valid() && this.maxPlayers == maxPlayers && this.maxRounds == maxRounds
      ensures store == map[] && published == []
    {
      this.maxPlayers := maxPlayers;
      this.maxRounds := maxRounds;
      store := map[];
      published := [];
    }

    /** `room_exists`. Redis never keeps an empty hash, which `Valid()` records, so a stored key is an existing room. */
    method RoomExists(roomId: string) returns (exists_: bool)
      requires Valid()
      ensures exists_ <==> RoomKey(roomId) in store
    {
      exists_ := RoomKey(roomId) in store;
    }

    /** `create_room`; `creatorId` stands for the first eight characters of a fresh uuid. */
    method CreateRoom(roomId: string, name: string, creatorId: string) returns (result: Created)
      requires Valid()
      modifies this
      ensures Valid()
      ensures result == Created(roomId, User(creatorId, name, 0))
      ensures store == old(store)[RoomKey(roomId) := NewRoom(User(creatorId, name, 0), maxRounds)]
      ensures published == old(published)
    {
      var creator := User(creatorId, name, 0);
      store := store[RoomKey(roomId) := NewRoom(creator, maxRounds)];
      result := Created(roomId, creator);
    }

    /** `add_player`: refuse a full room, otherwise append the user and publish the new state. */
    method AddPlayer(roomId: string, user: User) returns (r: Result<seq<User>, HttpError>)
      requires Valid()
      modifies this
      ensures Valid()
      ensures var key := RoomKey(roomId);
        var before := PlayersOf(Fetch(old(store), key));
        if |before| >= maxPlayers then
          && r == Failure(RoomFull)
          && store == old(store) && published == old(published)
        else
          var rec := Fetch(old(store), key).(players := Some(before + [user]));
          && r == Success(before + [user])
          && store == old(store)[key := rec]
          && published == old(published) + [Publication(EventsChannel(roomId), RoomStateEvent(Some(View(rec))))]
    {
      var key := RoomKey(roomId);
      var players := PlayersOf(Fetch(store, key));
      if |players| >= maxPlayers {
        return Failure(RoomFull);
      }
      players := players + [user];
      store := store[key := Fetch(store, key).(players := Some(players))];
      var state := GetRoomState(roomId);
      PublishEvents(roomId, RoomStateEvent(state));
      r := Success(players);
    }

    /** `remove_player`: drop every player with the id, keep the others in order. */
    method RemovePlayer(roomId: string, playerId: string) returns (players: seq<User>)
      requires Valid()
      modifies this
      ensures Valid()
      ensures var key := RoomKey(roomId);
        && players == RemoveById(PlayersOf(Fetch(old(store), key)), playerId)
        && store == old(store)[key := Fetch(old(store), key).(players := Some(players))]
        && published == old(published)
    {
      var key := RoomKey(roomId);
      players := RemoveById(PlayersOf(Fetch(store, key)), playerId);
      store := store[key := Fetch(store, key).(players := Some(players))];
    }

    /** `add_stroke`: a missing room is an error; otherwise the stroke goes at the end. */
    method AddStroke(roomId: string, stroke: Stroke) returns (r: Result<(), HttpError>)
      requires Valid()
      modifies this
      ensures Valid()
      ensures var key := RoomKey(roomId);
        if key !in old(store) then
          r == Failure(RoomNotFound) && store == old(store)
        else
          && r == Success(())
          && store == old(store)[key := old(store)[key].(strokes := Some(StrokesOf(old(store)[key]) + [stroke]))]
      ensures published == old(published)
    {
      var key := RoomKey(roomId);
      if key !in store {
        return Failure(RoomNotFound);
      }
      var strokes := StrokesOf(store[key]) + [stroke];
      store := store[key := store[key].(strokes := Some(strokes))];
      r := Success(());
    }

    /** `clear_strokes` */
    method ClearStrokes(roomId: string)
      requires Valid()
      modifies this
      ensures Valid()
      ensures store == Cleared(old(store), RoomKey(roomId)) && published == old(published)
    {
      var key := RoomKey(roomId);
      store := store[key := Fetch(store, key).(strokes := Some([]))];
    }

    /** `clear_canvas`: the same write as `clear_strokes`. */
    method ClearCanvas(roomId: string)
      requires Valid()
      modifies this
      ensures Valid()
      ensures store == Cleared(old(store), RoomKey(roomId)) && published == old(published)
    {
      var key := RoomKey(roomId);
      store := store[key := Fetch(store, key).(strokes := Some([]))];
    }

    /** `get_room_state`: `None` exactly when the room is missing (`hgetall` of a missing key is empty; no stored hash is). */
    method GetRoomState(roomId: string) returns (state: Option<RoomView>)
      requires Valid()
      ensures state.None? <==> RoomKey(roomId) !in store
      ensures state.Some? ==> state.value == View(store[RoomKey(roomId)])
    {
      var key := RoomKey(roomId);
      if key !in store {
        return None;
      }
      state := Some(View(store[key]));
    }

    /** `publish_events`: the event goes out on the room's events channel. */
    method PublishEvents(roomId: string, event: Event)
      modifies this
      ensures published == old(published) + [Publication(EventsChannel(roomId), event)]
      ensures store == old(store)
    {
      published := published + [Publication(EventsChannel(roomId), event)];
    }
  }
}
