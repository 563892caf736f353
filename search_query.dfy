/** The search request's query text: `song_name.replace(" ", "%20") + "&type=track"`
    (app.py:141), appended to the search endpoint (app.py:60). Only the space
    is percent-encoded (section 2.1 of RFC 3986); every other character,
    including the reserved `&` and `#`, is copied as it is. */
module SearchQuery {

  const SearchEndpoint := "https://api.spotify.com/v1/search?q="
  const TrackFilter := "&type=track"
  const EscapedSpace := "%20"

  /** How many times `c` occurs in `s`. */
  function Occurrences(s: string, c: char): nat {
    if s == [] then 0 else (if s[0] == c then 1 else 0) + Occurrences(s[1..], c)
  }

  /** Python's `s.replace(" ", "%20")`: each space becomes three characters. */
  function EncodeSpaces(s: string): (r: string)
    ensures ' ' !in r
    ensures |r| == |s| + 2 * Occurrences(s, ' ')
  {
    if s == [] then []
    else (if s[0] == ' ' then EscapedSpace else [s[0]]) + EncodeSpaces(s[1..])
  }

  /** The `q` parameter value built by `search` from the submitted song name. */
  function FormatQuery(songName: string): (q: string)
    ensures ' ' !in q
    ensures |q| == |songName| + 2 * Occurrences(songName, ' ') + |TrackFilter|
    ensures q[|q| - |TrackFilter|..] == TrackFilter
  {
    EncodeSpaces(songName) + TrackFilter
  }

  /** The URL that `search_fr` requests for a song name. */
  function SearchUrl(songName: string): (url: string)
    ensures |url| == |SearchEndpoint| + |songName| + 2 * Occurrences(songName, ' ') + |TrackFilter|
    ensures url[..|SearchEndpoint|] == SearchEndpoint
    ensures url[|SearchEndpoint|..] == FormatQuery(songName)
    ensures url[|url| - |TrackFilter|..] == TrackFilter
  {
    SearchEndpoint + FormatQuery(songName)
  }

  /** Reference reading of an encoded query: each `%20` back to a space. */
  function DecodeSpaces(t: string): string
    decreases |t|
  {
    if |t| >= 3 && t[..3] == EscapedSpace then [' '] + DecodeSpaces(t[3..])
    else if t == [] then []
    else [t[0]] + DecodeSpaces(t[1..])
  }

  /** Whether `s` already holds the text `%20` somewhere. */
  predicate ContainsEscapedSpace(s: string)
    decreases |s|
  {
    |s| >= 3 && (s[..3] == EscapedSpace || ContainsEscapedSpace(s[1..]))
  }

  lemma {:induction false} OccurrencesAppend(a: string, b: string, c: char)
    ensures Occurrences(a + b, c) == Occurrences(a, c) + Occurrences(b, c)
  {
    if a == [] {
      assert a + b == b;
    } else {
      assert (a + b)[0] == a[0];
      assert (a + b)[1..] == a[1..] + b;
      OccurrencesAppend(a[1..], b, c);
    }
  }

  /** Encoding distributes over concatenation: it works character by character. */
  lemma {:induction false} EncodeSpacesAppend(a: string, b: string)
    ensures EncodeSpaces(a + b) == EncodeSpaces(a) + EncodeSpaces(b)
  {
    if a == [] {
      assert a + b == b;
    } else {
      assert (a + b)[0] == a[0];
      assert (a + b)[1..] == a[1..] + b;
      EncodeSpacesAppend(a[1..], b);
    }
  }

  /** The count over a prefix of length i, split into its first character
      and the rest. */
  lemma PrefixOccurrences(s: string, i: nat, c: char)
    requires 0 < i <= |s|
    ensures Occurrences(s[..i], c) == (if s[0] == c then 1 else 0) + Occurrences(s[1..][..i - 1], c)
  {
    assert s[..i][0] == s[0] && s[..i][1..] == s[1..][..i - 1];
  }

  /** Text found at position q of `rest` is found at |head| + q of head + rest. */
  lemma EscapeShifts(head: string, rest: string, q: nat)
    requires q + 3 <= |rest| && rest[q..q + 3] == EscapedSpace
    ensures |head| + q + 3 <= |head + rest|
    ensures (head + rest)[|head| + q..|head| + q + 3] == EscapedSpace
  {
    assert (head + rest)[|head| + q..|head| + q + 3] == rest[q..q + 3];
  }

  /** Character `i` of the input lands at position `i` plus two for every
      earlier space: a space there is spelled `%20`, any other character is
      copied unchanged. So the characters keep their order. */
  lemma {:induction false} EncodeSpacesAt(s: string, i: nat)
    requires i < |s|
    ensures var r, p := EncodeSpaces(s), i + 2 * Occurrences(s[..i], ' ');
      if s[i] == ' ' then p + 3 <= |r| && r[p..p + 3] == EscapedSpace
      else p < |r| && r[p] == s[i]
  {
    var t := s[1..];
    var head := if s[0] == ' ' then EscapedSpace else [s[0]];
    assert EncodeSpaces(s) == head + EncodeSpaces(t);
    if i == 0 {
      assert s[..0] == [];
    } else {
      EncodeSpacesAt(t, i - 1);
      PrefixOccurrences(s, i, ' ');
      assert t[i - 1] == s[i];
      var q := (i - 1) + 2 * Occurrences(t[..i - 1], ' ');
      assert i + 2 * Occurrences(s[..i], ' ') == |head| + q;
      if s[i] == ' ' {
        EscapeShifts(head, EncodeSpaces(t), q);
      }
    }
  }

  /** A character other than the space and the three of `%20` occurs in the
      encoding exactly as often as in the input. */
  lemma {:induction false} EncodeSpacesKeepsCount(s: string, c: char)
    requires c != ' ' && c != '%' && c != '2' && c != '0'
    ensures Occurrences(EncodeSpaces(s), c) == Occurrences(s, c)
  {
    if s != [] {
      var head := if s[0] == ' ' then EscapedSpace else [s[0]];
      assert EncodeSpaces(s) == head + EncodeSpaces(s[1..]);
      if s[0] == ' ' {
        assert head[1..] == "20" && head[1..][1..] == "0" && head[1..][1..][1..] == [];
        assert Occurrences(head[1..][1..], c) == 0;
        assert Occurrences(head[1..], c) == 0;
      } else {
        assert head[1..] == [];
      }
      assert Occurrences(head, c) == if s[0] == c then 1 else 0;
      OccurrencesAppend(head, EncodeSpaces(s[1..]), c);
      EncodeSpacesKeepsCount(s[1..], c);
    }
  }

  /** An `&` in the song name reaches the query unescaped, so the query holds
      one parameter separator more than the song name has ampersands. */
  lemma AmpersandsInQuery(songName: string)
    ensures Occurrences(FormatQuery(songName), '&') == Occurrences(songName, '&') + 1
  {
    EncodeSpacesKeepsCount(songName, '&');
    OccurrencesAppend(EncodeSpaces(songName), TrackFilter, '&');
  }

  /** A `#` in the song name reaches the query unescaped as well. */
  lemma HashesInQuery(songName: string)
    ensures Occurrences(FormatQuery(songName), '#') == Occurrences(songName, '#')
  {
    EncodeSpacesKeepsCount(songName, '#');
    OccurrencesAppend(EncodeSpaces(songName), TrackFilter, '#');
  }

  /** An encoding that starts with `%20` while the input does not start with
      a space comes from an input that starts with the text `%20`. */
  lemma EscapeAtStartComesFromInput(s: string)
    requires s != [] && s[0] != ' '
    requires |EncodeSpaces(s)| >= 3 && EncodeSpaces(s)[..3] == EscapedSpace
    ensures |s| >= 3 && s[..3] == EscapedSpace
  {
    var r := EncodeSpaces(s);
    assert r[0] == r[..3][0] == '%' && r[1] == r[..3][1] == '2' && r[2] == r[..3][2] == '0';
    assert r == [s[0]] + EncodeSpaces(s[1..]);
    assert s[0] == '%';
    var t := s[1..];
    assert t != [] && EncodeSpaces(t)[0] == r[1];
    assert EncodeSpaces(t) == (if t[0] == ' ' then EscapedSpace else [t[0]]) + EncodeSpaces(t[1..]);
    assert t[0] == '2';
    var w := t[1..];
    assert EncodeSpaces(t) == [t[0]] + EncodeSpaces(w);
    assert w != [] && EncodeSpaces(w)[0] == r[2];
    assert EncodeSpaces(w) == (if w[0] == ' ' then EscapedSpace else [w[0]]) + EncodeSpaces(w[1..]);
    assert w[0] == '0';
    assert s[..3] == [s[0], t[0], w[0]];
  }

  /** Decoding undoes the encoding for every song name that does not already
      contain the text `%20`. */
  lemma {:induction false} DecodeEncodeSpaces(s: string)
    requires !ContainsEscapedSpace(s)
    ensures DecodeSpaces(EncodeSpaces(s)) == s
  {
    if s != [] {
      var r := EncodeSpaces(s);
      assert !ContainsEscapedSpace(s[1..]);
      DecodeEncodeSpaces(s[1..]);
      if s[0] == ' ' {
        assert r[..3] == EscapedSpace && r[3..] == EncodeSpaces(s[1..]);
      } else {
        assert r[1..] == EncodeSpaces(s[1..]);
        if |r| >= 3 && r[..3] == EscapedSpace {
          EscapeAtStartComesFromInput(s);
          assert false;
        }
      }
    }
  }

  /** Song names without `%20` that give the same query are the same name. */
  lemma EncodeSpacesInjective(a: string, b: string)
    requires !ContainsEscapedSpace(a) && !ContainsEscapedSpace(b)
    requires EncodeSpaces(a) == EncodeSpaces(b)
    ensures a == b
  {
    DecodeEncodeSpaces(a);
    DecodeEncodeSpaces(b);
  }

  /** A song name that contains the text `%20` gives the same query as the
      name with a space in its place: the encoding cannot be undone for such
      names. */
  lemma LiteralEscapeCollides(a: string, b: string)
    ensures FormatQuery(a + "%20" + b) == FormatQuery(a + " " + b)
  {
    assert EncodeSpaces("%20") == "%20" by {
      assert "%20"[1..] == "20" && "20"[1..] == "0" && "0"[1..] == "";
    }
    assert EncodeSpaces(" ") == "%20" by {
      assert " "[1..] == "";
    }
    EncodeSpacesAppend(a + "%20", b);
    EncodeSpacesAppend(a, "%20");
    EncodeSpacesAppend(a + " ", b);
    EncodeSpacesAppend(a, " ");
  }
}
