/**
 * Asset keys and the string form under which the sensor's cursor stores them.
 *
 * An asset key is a path of string segments. The cursor is a flat map from a key's
 * string form to a storage id, so the string form must be reversible: here each
 * segment is written with `\` and `/` escaped by a backslash and closed by `/`.
 */
module AssetKeys {
  import opened Wrappers

  datatype AssetKey = AssetKey(path: seq<string>)

  function EscapeChar(c: char): string {
    if c == '\\' || c == '/' then ['\\', c] else [c]
  }

  function EscapeSegment(s: string): string {
    if s == [] then [] else EscapeChar(s[0]) + EscapeSegment(s[1..])
  }

  function EncodePath(p: seq<string>): string {
    if p == [] then [] else EscapeSegment(p[0]) + "/" + EncodePath(p[1..])
  }

  /** The string form of a key, used as the key of the persisted cursor map. */
  function KeyString(k: AssetKey): string {
    EncodePath(k.path)
  }

  /**
   * Reads one escaped segment up to its closing `/`; returns the segment and what follows.
   * A backslash must be followed by the backslash or slash it escapes.
   */
  function ReadSegment(s: string): (r: Option<(string, string)>)
    ensures r.Some? ==> |r.value.1| < |s|
    decreases |s|
  {
    if s == [] then None
    else if s[0] == '/' then Some(([], s[1..]))
    else if s[0] == '\\' then
      if |s| < 2 || !(s[1] == '\\' || s[1] == '/') then None
      else match ReadSegment(s[2..])
        case None => None
        case Some((seg, rest)) => Some(([s[1]] + seg, rest))
    else match ReadSegment(s[1..])
      case None => None
      case Some((seg, rest)) => Some(([s[0]] + seg, rest))
  }

  function DecodePath(s: string): Option<seq<string>>
    decreases |s|
  {
    if s == [] then Some([])
    else match ReadSegment(s)
      case None => None
      case Some((seg, rest)) =>
        match DecodePath(rest)
        case None => None
        case Some(p) => Some([seg] + p)
  }

  /** The key a cursor entry's string names; None for a string no key encodes to. */
  function DecodeKey(s: string): (r: Option<AssetKey>)
    ensures r.Some? ==> KeyString(r.value) == s
  {
    DecodePathEncodes(s);
    match DecodePath(s)
    case None => None
    case Some(p) => Some(AssetKey(p))
  }

  lemma EscapeCons(c: char, seg: string)
    ensures EscapeSegment([c] + seg) == EscapeChar(c) + EscapeSegment(seg)
  {
    assert ([c] + seg)[1..] == seg;
  }

  /** A segment that was read is the escaped form of what the input held before its closing `/`. */
  lemma {:induction false} ReadSegmentEscapes(s: string)
    ensures ReadSegment(s).Some? ==> EscapeSegment(ReadSegment(s).value.0) + "/" + ReadSegment(s).value.1 == s
    decreases |s|
  {
    if s == [] {
    } else if s[0] == '/' {
      assert "/" + s[1..] == s;
    } else if s[0] == '\\' {
      if |s| >= 2 && (s[1] == '\\' || s[1] == '/') {
        ReadSegmentEscapes(s[2..]);
        match ReadSegment(s[2..])
        case None =>
        case Some((seg, rest)) =>
          EscapeCons(s[1], seg);
          assert s == [s[0], s[1]] + s[2..];
      }
    } else {
      ReadSegmentEscapes(s[1..]);
      match ReadSegment(s[1..])
      case None =>
      case Some((seg, rest)) =>
        EscapeCons(s[0], seg);
        assert s == [s[0]] + s[1..];
    }
  }

  /** Encoding undoes decoding: a string that decodes is the string form of what it decodes to. */
  lemma {:induction false} DecodePathEncodes(s: string)
    ensures DecodePath(s).Some? ==> EncodePath(DecodePath(s).value) == s
    decreases |s|
  {
    if s != [] {
      ReadSegmentEscapes(s);
      match ReadSegment(s)
      case None =>
      case Some((seg, rest)) =>
        DecodePathEncodes(rest);
        match DecodePath(rest)
        case None =>
        case Some(p) =>
          assert ([seg] + p)[1..] == p;
    }
  }

  lemma {:induction false} ReadEscapedSegment(seg: string, rest: string)
    ensures ReadSegment(EscapeSegment(seg) + "/" + rest) == Some((seg, rest))
    decreases |seg|
  {
    if seg == [] {
      assert EscapeSegment(seg) + "/" + rest == "/" + rest;
    } else {
      var tail := EscapeSegment(seg[1..]) + "/" + rest;
      assert EscapeSegment(seg) + "/" + rest == EscapeChar(seg[0]) + tail;
      ReadEscapedSegment(seg[1..], rest);
      var s := EscapeChar(seg[0]) + tail;
      if seg[0] == '\\' || seg[0] == '/' {
        assert s[2..] == tail;
      } else {
        assert s[1..] == tail;
      }
      assert [seg[0]] + seg[1..] == seg;
    }
  }

  /** Decoding undoes encoding. */
  lemma {:induction false} DecodeEncodePath(p: seq<string>)
    ensures DecodePath(EncodePath(p)) == Some(p)
    decreases |p|
  {
    if p != [] {
      var rest := EncodePath(p[1..]);
      ReadEscapedSegment(p[0], rest);
      DecodeEncodePath(p[1..]);
      assert EncodePath(p) != [] by {
        assert |EncodePath(p)| >= 1;
      }
      assert [p[0]] + p[1..] == p;
    }
  }

  /** The string form of a key decodes back to the key. */
  lemma KeyStringRoundTrip(k: AssetKey)
    ensures DecodeKey(KeyString(k)) == Some(k)
  {
    DecodeEncodePath(k.path);
  }

  /** Distinct keys have distinct string forms, so cursor entries of distinct assets never collide. */
  lemma KeyStringInjective(a: AssetKey, b: AssetKey)
    ensures KeyString(a) == KeyString(b) ==> a == b
  {
    KeyStringRoundTrip(a);
    KeyStringRoundTrip(b);
  }
}
