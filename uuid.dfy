/** The canonical text form of a UUID (section 3 of RFC 4122) and the room code
    that app.py cuts out of it. */
module Uuid {

  /** A lower-case hexadecimal digit, as Python's `str(uuid.UUID)` writes them. */
  predicate IsLowerHex(c: char) {
    '0' <= c <= '9' || 'a' <= c <= 'f'
  }

  /** Positions of the four hyphens in the 8-4-4-4-12 layout. */
  predicate IsHyphenPosition(i: int) {
    i == 8 || i == 13 || i == 18 || i == 23
  }

  /** 36 characters: 32 lower-case hex digits in groups of 8, 4, 4, 4 and 12,
      separated by hyphens. */
  predicate IsCanonicalUuid(u: string) {
    && |u| == 36
    && forall i :: 0 <= i < 36 ==> if IsHyphenPosition(i) then u[i] == '-' else IsLowerHex(u[i])
  }

  /** The last group of the canonical text: the 12 hex digits of the node field. */
  function NodeField(u: string): (node: string)
    requires IsCanonicalUuid(u)
    ensures |node| == 12
    ensures forall i :: 0 <= i < 12 ==> IsLowerHex(node[i])
  {
    u[24..]
  }

  /** What `uuid.uuid4()` adds to the canonical form: the version digit is 4
      and the variant digit is one of 8, 9, a, b (section 4.4 of RFC 4122). */
  predicate IsVersion4(u: string)
    requires IsCanonicalUuid(u)
  {
    u[14] == '4' && (u[19] == '8' || u[19] == '9' || u[19] == 'a' || u[19] == 'b')
  }

  /** What a room code looks like: five lower-case hex digits. */
  predicate IsRoomCode(code: string) {
    && |code| == 5
    && forall i :: 0 <= i < 5 ==> IsLowerHex(code[i])
  }

  /** `str(id)[24:29]`: the first five digits of the node field. */
  function RoomCode(u: string): (code: string)
    requires IsCanonicalUuid(u)
    ensures IsRoomCode(code)
    ensures code == NodeField(u)[..5]
  {
    u[24..29]
  }

  /** Every five-digit lower-case hex string is the room code of some
      version-4 UUID, so the codes `uuid4` can yield are exactly the set
      IsRoomCode describes. */
  lemma RoomCodeOnto(code: string)
    requires IsRoomCode(code)
    ensures exists u :: IsCanonicalUuid(u) && IsVersion4(u) && RoomCode(u) == code
  {
    var u := "00000000-0000-4000-8000-" + code + "0000000";
    assert |u| == 36;
    forall i | 0 <= i < 36
      ensures if IsHyphenPosition(i) then u[i] == '-' else IsLowerHex(u[i])
    {
      if 24 <= i < 29 {
        assert u[i] == code[i - 24];
      }
    }
    assert u[24..29] == code;
    assert IsCanonicalUuid(u) && IsVersion4(u) && RoomCode(u) == code;
  }
}
