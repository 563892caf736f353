/** The module-level `room_directory` of app.py (line 39): room codes mapped to
    the host's access token and the room's playlist id, filled in by the OAuth
    callback and read by `find_room`, `search` and `get_devices`. */
module Rooms {
  import opened Results
  import opened Uuid
  import opened SearchQuery

  /** One directory record: `{"Access Token": ..., "Playlist ID": ...}`. */
  datatype Room = Room(accessToken: string, playlistId: string)

  /** What `find_room` renders for a posted code. */
  datatype Page = RoomPage(roomCode: string) | NotFoundPage

  /** `KeyError` is what indexing the directory with an absent code raises;
      `UuidsExhausted` stands for the supply of drawn UUIDs running out before
      a free code turned up, where the source would keep drawing. */
  datatype Error = KeyError(key: string) | UuidsExhausted

  /** An outgoing GET request: its URL and its `Authorization` header. */
  datatype Request = Request(url: string, authorization: string)

  const DevicesUrl := "https://api.spotify.com/v1/me/player/devices"

  /** `"Bearer {}".format(token)`. */
  function BearerHeader(token: string): string {
    "Bearer " + token
  }

  /** Every drawn UUID is in canonical text form, as `str(uuid.uuid4())` is. */
  predicate AllCanonical(uuids: seq<string>) {
    forall i :: 0 <= i < |uuids| ==> IsCanonicalUuid(uuids[i])
  }

  /** Which draw the re-roll loop (app.py:112-114) stops at: the first UUID
      whose room code is not taken, or None when every draw collides. */
  function FirstFree(taken: set<string>, uuids: seq<string>): (r: Option<nat>)
    requires AllCanonical(uuids)
    ensures r.Some? ==> r.value < |uuids| && RoomCode(uuids[r.value]) !in taken
    ensures r.Some? ==> forall j :: 0 <= j < r.value ==> RoomCode(uuids[j]) in taken
    ensures r.None? <==> forall j :: 0 <= j < |uuids| ==> RoomCode(uuids[j]) in taken
    decreases |uuids|
  {
    if uuids == [] then None
    else if RoomCode(uuids[0]) !in taken then Some(0)
    else match FirstFree(taken, uuids[1..])
      case None => None
      case Some(k) => Some(k + 1)
  }

  /** Every existing code keeps its record in `after`. */
  predicate Extends(before: map<string, Room>, after: map<string, Room>) {
    forall code :: code in before ==> code in after && after[code] == before[code]
  }

  /** The directory after one room creation (app.py:112-128): the record goes
      under the first free drawn code; nothing else changes. */
  function Created(rooms: map<string, Room>, accessToken: string, playlistId: string,
                   uuids: seq<string>): (r: map<string, Room>)
    requires AllCanonical(uuids)
    ensures Extends(rooms, r)
    ensures FirstFree(rooms.Keys, uuids).None? ==> r == rooms
    ensures FirstFree(rooms.Keys, uuids).Some? ==>
      var code := RoomCode(uuids[FirstFree(rooms.Keys, uuids).value]);
      && code !in rooms
      && r.Keys == rooms.Keys + {code}
      && |r| == |rooms| + 1
      && r[code] == Room(accessToken, playlistId)
  {
    match FirstFree(rooms.Keys, uuids)
    case None => rooms
    case Some(i) => rooms[RoomCode(uuids[i]) := Room(accessToken, playlistId)]
  }

  /** One completed OAuth callback: the host's token, the id of the playlist
      created for the room, and the UUIDs drawn for its code. */
  datatype Login = Login(accessToken: string, playlistId: string, uuids: seq<string>)

  predicate AllLoginsCanonical(logins: seq<Login>) {
    forall i :: 0 <= i < |logins| ==> AllCanonical(logins[i].uuids)
  }

  /** The directory after a run of callbacks, in order. */
  function Replay(rooms: map<string, Room>, logins: seq<Login>): map<string, Room>
    requires AllLoginsCanonical(logins)
    decreases |logins|
  {
    if logins == [] then rooms
    else
      var l := logins[0];
      Replay(Created(rooms, l.accessToken, l.playlistId, l.uuids), logins[1..])
  }

  /** No code path removes or overwrites a room when callbacks run one after
      another: across any such run every existing code keeps its record and
      the directory never shrinks. */
  lemma {:induction false} ReplayKeepsRooms(rooms: map<string, Room>, logins: seq<Login>)
    requires AllLoginsCanonical(logins)
    ensures Extends(rooms, Replay(rooms, logins))
    ensures |rooms| <= |Replay(rooms, logins)|
    decreases |logins|
  {
    if logins != [] {
      var l := logins[0];
      var next := Created(rooms, l.accessToken, l.playlistId, l.uuids);
      assert AllLoginsCanonical(logins[1..]) by {
        forall i | 0 <= i < |logins| - 1 ensures AllCanonical(logins[1..][i].uuids) {
          assert logins[1..][i] == logins[i + 1];
        }
      }
      ReplayKeepsRooms(next, logins[1..]);
      assert Replay(rooms, logins) == Replay(next, logins[1..]);
    }
  }

  /** Every key the callbacks put into the directory is a five-digit hex code. */
  lemma {:induction false} ReplayKeepsCodes(rooms: map<string, Room>, logins: seq<Login>)
    requires AllLoginsCanonical(logins)
    requires forall code :: code in rooms ==> IsRoomCode(code)
    ensures forall code :: code in Replay(rooms, logins) ==> IsRoomCode(code)
    decreases |logins|
  {
    if logins != [] {
      var l := logins[0];
      var next := Created(rooms, l.accessToken, l.playlistId, l.uuids);
      assert AllLoginsCanonical(logins[1..]) by {
        forall i | 0 <= i < |logins| - 1 ensures AllCanonical(logins[1..][i].uuids) {
          assert logins[1..][i] == logins[i + 1];
        }
      }
      ReplayKeepsCodes(next, logins[1..]);
    }
  }

  /** The room directory itself, updated in place by the callback route. */
  class Directory {
    var rooms: map<string, Room>

    /** Every key was cut from a UUID by `room_code`. */
    ghost predicate Valid()
      reads this
    {
      forall code :: code in rooms ==> IsRoomCode(code)
    }

    /** `room_directory = dict()`. */
    constructor ()
      ensures Valid() && rooms == map[]
    {
      rooms := map[];
    }

    /** The callback's room creation: draw room codes from `uuids` until one is
        free (app.py:112-114), then store the token and the new playlist's id
        under it (app.py:125-128) and return the code. */
    method CreateRoom(accessToken: string, playlistId: string, uuids: seq<string>)
        returns (r: Result<string, Error>)
      requires Valid()
      requires AllCanonical(uuids)
      modifies this
      ensures Valid()
      ensures rooms == Created(old(rooms), accessToken, playlistId, uuids)
      ensures r.Ok? <==> FirstFree(old(rooms).Keys, uuids).Some?
      ensures r.Ok? ==> r.value !in old(rooms) && rooms == old(rooms)[r.value := Room(accessToken, playlistId)]
      ensures r.Ok? ==> r.value == RoomCode(uuids[FirstFree(old(rooms).Keys, uuids).value])
      ensures r.Err? ==> r.error == UuidsExhausted && rooms == old(rooms)
    {
      if |uuids| == 0 {
        return Err(UuidsExhausted);
      }
      var i := 0;
      var rc := RoomCode(uuids[0]);
      while rc in rooms
        invariant 0 <= i < |uuids|
        invariant rc == RoomCode(uuids[i])
        invariant forall j :: 0 <= j < i ==> RoomCode(uuids[j]) in rooms
        invariant rooms == old(rooms)
        decreases |uuids| - i
      {
        i := i + 1;
        if i == |uuids| {
          return Err(UuidsExhausted);
        }
        rc := RoomCode(uuids[i]);
      }
      rooms := rooms[rc := Room(accessToken, playlistId)];
      r := Ok(rc);
    }

    /** `find_room` on a POST: the room page for a known code, the not-found
        page otherwise; the directory is only read. */
    method FindRoom(code: string) returns (page: Page)
      ensures page.RoomPage? <==> code in rooms
      ensures page.RoomPage? ==> page.roomCode == code
    {
      if code in rooms {
        page := RoomPage(code);
      } else {
        page := NotFoundPage;
      }
    }

    /** The request `search` sends for a posted song name (app.py:139-142):
        the room's token must be present, otherwise indexing raises. */
    method Search(code: string, songName: string) returns (r: Result<Request, Error>)
      ensures r.Err? <==> code !in rooms
      ensures r.Err? ==> r.error == KeyError(code)
      ensures r.Ok? ==> r.value.authorization == BearerHeader(rooms[code].accessToken)
      ensures r.Ok? ==> r.value.url == SearchUrl(songName)
    {
      if code !in rooms {
        return Err(KeyError(code));
      }
      var header := BearerHeader(rooms[code].accessToken);
      var query := FormatQuery(songName);
      r := Ok(Request(SearchEndpoint + query, header));
    }

    /** The request `get_devices` sends (app.py:41-44), under the same
        present-key condition. */
    method GetDevices(code: string) returns (r: Result<Request, Error>)
      ensures r.Err? <==> code !in rooms
      ensures r.Err? ==> r.error == KeyError(code)
      ensures r.Ok? ==> r.value == Request(DevicesUrl, BearerHeader(rooms[code].accessToken))
    {
      if code !in rooms {
        return Err(KeyError(code));
      }
      r := Ok(Request(DevicesUrl, BearerHeader(rooms[code].accessToken)));
    }
  }

  /** A room just created is found by its code, and every other code is found
      exactly when it was a key before, also when the draws ran out. */
  method CreateThenFind(d: Directory, accessToken: string, playlistId: string, uuids: seq<string>, other: string)
      returns (created: Result<string, Error>, page: Page, otherPage: Page)
    requires d.Valid() && AllCanonical(uuids)
    modifies d
    ensures created.Ok? ==> page == RoomPage(created.value)
    ensures (created.Err? || other != created.value) ==> (otherPage.RoomPage? <==> other in old(d.rooms))
  {
    created := d.CreateRoom(accessToken, playlistId, uuids);
    var code := if created.Ok? then created.value else other;
    page := d.FindRoom(code);
    otherPage := d.FindRoom(other);
  }
}
