# Collabify room directory, room codes and search queries

Collabify is a Flask app for shared Spotify queues. A host logs in with
Spotify. The OAuth callback then mints a short room code, creates a playlist
and records the room in an in-memory directory. Guests join by posting a room
code, and they search the catalog through the host's access token.

This project models the parts of `app.py` that are logic rather than HTTP
plumbing:

- **Room codes** (module `Uuid`). `room_code()` takes characters 24 to 28 of a
  UUID's canonical text (section 3 of RFC 4122). That slice lies inside the
  12-digit node group, so every room code is five lower-case hex digits. Every
  such string is the code of some UUID.
- **The room directory** (module `Rooms`). `room_directory` is a class with a
  `map<string, Room>` field.
  - `CreateRoom` is the callback's re-roll loop and insert. It draws codes
    from a supplied sequence of UUID texts and stops at the first code that is
    not a key. It then stores the token and the new playlist's id under that
    code.
  - `FindRoom` is the membership test of `find_room`.
  - `Search` and `GetDevices` build the outgoing requests. An absent code is
    the `KeyError` that indexing the dict raises.
  - The pure function `Created` specifies one creation. `Replay` runs many in
    order. The lemmas about it show that, when callbacks run one after
    another, no room is ever removed or overwritten.
- **Search query formatting** (module `SearchQuery`). `search` builds
  `song_name.replace(" ", "%20") + "&type=track"` and appends it to the search
  endpoint.
  - Only the space is percent-encoded (section 2.1 of RFC 3986). `&` and `#`
    pass through as they are.
  - The lemmas pin down where each input character lands in the query. They
    count the extra `&` separator the query always carries. They show that
    decoding `%20` undoes the encoding for every name that does not already
    contain the text `%20`. For a name that does, the query equals the query
    of the name with a space in place of that text.

## Model

| member | source | states |
|---|---|---|
| `Uuid.NodeField` | app.py:50 | the last group of a canonical UUID text is 12 lower-case hex digits |
| `Uuid.RoomCode` | app.py:48-50 | the room code is exactly 5 characters, all lower-case hex digits: the first five digits of the UUID's node group |
| `Uuid.RoomCodeOnto` | app.py:48-50 | every 5-digit lower-case hex string is the room code of some canonical version-4 UUID, so the possible codes are exactly these strings |
| `SearchQuery.EncodeSpaces` | app.py:141 | `replace(" ", "%20")` leaves no space, and the result is two characters longer per space |
| `SearchQuery.FormatQuery` | app.py:141 | the query has no space, ends with `&type=track`, and its length is the input length + 2 × spaces + 11 |
| `SearchQuery.SearchUrl` | app.py:60 | the search URL is the fixed `https://api.spotify.com/v1/search?q=` prefix followed by the formatted query, and it ends with `&type=track` |
| `SearchQuery.EncodeSpacesAt` | app.py:141 | input character i lands at position i + 2 × (spaces before it): a space there is `%20`, any other character is copied unchanged, so order is kept |
| `SearchQuery.EncodeSpacesAppend` | app.py:141 | the encoding of a concatenation is the concatenation of the encodings |
| `SearchQuery.EncodeSpacesKeepsCount` | app.py:141 | every character other than space, `%`, `2` and `0` occurs in the encoding exactly as often as in the input |
| `SearchQuery.AmpersandsInQuery` | app.py:141 | `&` is not escaped: the query has one more `&` than the song name |
| `SearchQuery.HashesInQuery` | app.py:141 | `#` is not escaped: the query has as many `#` as the song name |
| `SearchQuery.DecodeEncodeSpaces` | app.py:141 | decoding `%20` back to spaces gives back every song name that does not already contain the text `%20` |
| `SearchQuery.EncodeSpacesInjective` | app.py:141 | two song names without `%20` that give the same encoding are equal |
| `SearchQuery.LiteralEscapeCollides` | app.py:141 | a song name containing the text `%20` anywhere gives the same query as the name with a space in its place |
| `Rooms.FirstFree` | app.py:112-114 | the re-roll loop stops at the first draw whose code is not a key, and every earlier draw collided; None exactly when every draw collides |
| `Rooms.Created` | app.py:112-128 | creating a room adds exactly one key, the first free code, whose record holds the token and playlist id; every existing entry is unchanged; nothing changes when every draw collides |
| `Rooms.ReplayKeepsRooms` | app.py:112-128 | across any run of room creations made one after another, every existing code keeps its record and the directory never shrinks |
| `Rooms.ReplayKeepsCodes` | app.py:112-128 | across any run of room creations every key of the directory stays a 5-digit hex room code |
| `Rooms.Directory.constructor` | app.py:39 | the directory starts empty |
| `Rooms.Directory.CreateRoom` | app.py:112-128 | the returned code was not a key; the directory afterwards is the old one plus that code mapped to the token and playlist id, as `Created` says; all keys stay room codes; an exhausted draw supply changes nothing |
| `Rooms.Directory.FindRoom` | app.py:150-157 | the room page with the posted code exactly when the code is a key, the not-found page otherwise; the directory is only read |
| `Rooms.Directory.Search` | app.py:137-142 | a present code gives a request to `SearchUrl(song name)` carrying the room's bearer token; an absent code is a `KeyError`; the directory is only read |
| `Rooms.Directory.GetDevices` | app.py:41-44 | a present code gives a request to the devices URL carrying the room's bearer token; an absent code is a `KeyError`; the directory is only read |
| `Rooms.CreateThenFind` | app.py:112-157 | a room just created is found by its code; every other code, and every code when the draws ran out, is found exactly when it was a key before |

## Left out

- The OAuth token exchange and its JSON parsing (app.py:79-94) are network I/O, so they are not modelled. The access token is an input.
- The profile fetch, playlist fetch and playlist creation (app.py:100-107, app.py:121-123) are HTTP calls. The created playlist's id is an input to `CreateRoom`.
- The HTTP requests themselves are not modelled. This covers `add_song`, the request in `search_fr` and the request in `get_devices` (app.py:41-63). `Search` and `GetDevices` stop at the request they would send.
- `uuid.uuid4()` randomness is replaced by a supplied sequence of canonical UUID texts.
- Rooms.Directory.CreateRoom: the source re-rolls without bound. The model bounds the draws with a finite supply so that every call terminates, and reports `UuidsExhausted` when every draw collides, where the source would keep drawing.
- The authorize URL builder (app.py:72) depends on `urllib.parse.quote`, which is library behaviour outside this model.
- Template rendering, Flask routing and the GET branches of `search` and `find_room` are not modelled. Those branches return nothing. The rendered search results page is not modelled either.
- database_setup.py is a table declaration with no logic of its own, so it is not part of this model.
- Playback restarts and the per-room track counter are not in `app.py`, so they are not part of this model.
- Rooms.Directory.CreateRoom: the collision check (app.py:113) and the insert (app.py:125) are one step in the model. In the source, the playlist-creation request (app.py:121-123) runs between them, and the development server (app.py:161) handles requests in threads. Two overlapping callbacks can both draw the same free code, and the later insert replaces the earlier room. The model does not capture this, and its no-overwrite lemmas hold only for callbacks that do not overlap.
- Other concurrent requests are not modelled: the model treats each lookup as atomic.
