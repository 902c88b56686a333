/** Canonical annotation keys and the typed annotation descriptors of the
    `constant` package: a key paired with a parse and a format function. */
module Constant {
  import opened Wrappers

  /** A canonical annotation key of the form "<entity>/<field>". */
  type AnnotationKey = string

  /** The player display-name key; its wire value is "player/name". */
  const PlayerName: AnnotationKey := "player/name"

  /** The errors a descriptor's Parse reports, each carrying the rejected text. */
  datatype ParseError = InvalidBool(raw: string) | InvalidUUID(raw: string) | InvalidEnum(raw: string)

  /** The `(T, error)` pair that Parse returns. */
  datatype Parsed<T> = Parsed(value: T, err: Option<ParseError>)

  /** `AnnotationDescriptor[T]`: the key and the parse/format pair. */
  datatype AnnotationDescriptor<!T> = AnnotationDescriptor(
    key: AnnotationKey,
    parse: string -> Parsed<T>,
    format: T -> string)

  /** The passthrough descriptor: Parse and Format are both the identity. */
  function NewStringAnnotationDesc(key: AnnotationKey): (d: AnnotationDescriptor<string>)
    ensures d.key == key
    ensures forall s :: d.parse(s) == Parsed(s, None)
    ensures forall v :: d.parse(d.format(v)) == Parsed(v, None)
  {
    AnnotationDescriptor(key, s => Parsed(s, None), v => v)
  }

  /** Text of a Go bool as `%t` and the bool descriptor's Format print it. */
  function FormatBool(b: bool): string {
    if b then "true" else "false"
  }

  /** The bool descriptor: only the exact texts "true" and "false" parse. */
  function NewBoolAnnotationDesc(key: AnnotationKey): (d: AnnotationDescriptor<bool>)
    ensures d.key == key
    ensures forall s :: d.parse(s).err.None? <==> s == "true" || s == "false"
    ensures forall s :: d.parse(s).err.None? ==> d.parse(s).value == (s == "true")
    ensures forall s :: d.parse(s).err.Some? ==> d.parse(s) == Parsed(false, Some(InvalidBool(s)))
    ensures forall b :: d.format(b) == FormatBool(b)
    ensures forall b :: d.parse(d.format(b)) == Parsed(b, None)
  {
    AnnotationDescriptor(
      key,
      s => if s == "true" then Parsed(true, None)
           else if s == "false" then Parsed(false, None)
           else Parsed(false, Some(InvalidBool(s))),
      v => if v then "true" else "false")
  }

  // ---------------------------------------------------------------------------
  // UUID text: the pattern 8-4-4-4-12 hex digits of section 3 of RFC 4122,
  // either letter case, no version or variant check.

  predicate IsHexDigit(c: char) {
    '0' <= c <= '9' || 'a' <= c <= 'f' || 'A' <= c <= 'F'
  }

  predicate HexRun(s: string) {
    forall i :: 0 <= i < |s| ==> IsHexDigit(s[i])
  }

  /** `s` is `lens[0]` hex digits, then for each further length a hyphen and
      that many hex digits, anchored at both ends: the shape of the source's
      regular expression, group by group. */
  predicate MatchesGroups(s: string, lens: seq<nat>)
    decreases |lens|
  {
    if |lens| == 0 then false
    else if |lens| == 1 then |s| == lens[0] && HexRun(s)
    else
      && |s| > lens[0]
      && HexRun(s[..lens[0]])
      && s[lens[0]] == '-'
      && MatchesGroups(s[lens[0] + 1..], lens[1..])
  }

  /** The group lengths of the UUID pattern. */
  const UUIDGroups: seq<nat> := [8, 4, 4, 4, 12]

  predicate MatchesUUIDPattern(s: string) {
    MatchesGroups(s, UUIDGroups)
  }

  predicate IsHyphenPosition(i: int) {
    i == 8 || i == 13 || i == 18 || i == 23
  }

  /** The character-level description: 36 characters, a hyphen at positions
      8, 13, 18 and 23 and a hex digit of either case everywhere else. */
  predicate IsCanonicalUUID(s: string) {
    && |s| == 36
    && forall i :: 0 <= i < 36 ==> if IsHyphenPosition(i) then s[i] == '-' else IsHexDigit(s[i])
  }

  lemma HexRunSlice(s: string, lo: nat, hi: nat)
    requires lo <= hi <= |s|
    ensures HexRun(s[lo..hi]) <==> forall i :: lo <= i < hi ==> IsHexDigit(s[i])
  {
    if forall i :: lo <= i < hi ==> IsHexDigit(s[i]) {
      forall j | 0 <= j < hi - lo ensures IsHexDigit(s[lo..hi][j]) {
        assert s[lo..hi][j] == s[lo + j];
      }
    }
    if HexRun(s[lo..hi]) {
      forall i | lo <= i < hi ensures IsHexDigit(s[i]) {
        assert s[lo..hi][i - lo] == s[i];
      }
    }
  }

  /** One step of the pattern: a group of `n` hex digits followed by a hyphen. */
  lemma UnfoldGroup(s: string, n: nat, rest: seq<nat>)
    requires |rest| > 0
    ensures MatchesGroups(s, [n] + rest) <==>
      |s| > n && HexRun(s[..n]) && s[n] == '-' && MatchesGroups(s[n + 1..], rest)
  {
    assert ([n] + rest)[1..] == rest;
  }

  /** The group-by-group pattern and the character-level predicate accept
      exactly the same strings. */
  lemma {:induction false} UUIDPatternIsCanonical(s: string)
    ensures MatchesUUIDPattern(s) <==> IsCanonicalUUID(s)
  {
    assert UUIDGroups == [8] + ([4] + ([4] + ([4] + [12])));
    UnfoldGroup(s, 8, [4, 4, 4, 12]);
    if |s| > 8 {
      var t1 := s[9..];
      UnfoldGroup(t1, 4, [4, 4, 12]);
      if |t1| > 4 {
        var t2 := t1[5..];
        assert t2 == s[14..];
        UnfoldGroup(t2, 4, [4, 12]);
        if |t2| > 4 {
          var t3 := t2[5..];
          assert t3 == s[19..];
          UnfoldGroup(t3, 4, [12]);
          if |t3| > 4 {
            var t4 := t3[5..];
            assert t4 == s[24..];
            assert MatchesGroups(t4, [12]) <==> |t4| == 12 && HexRun(t4);
            if |s| == 36 {
              assert t1[..4] == s[9..13];
              assert t2[..4] == s[14..18];
              assert t3[..4] == s[19..23];
              assert t1[4] == s[13] && t2[4] == s[18] && t3[4] == s[23];
              HexRunSlice(s, 0, 8);
              HexRunSlice(s, 9, 13);
              HexRunSlice(s, 14, 18);
              HexRunSlice(s, 19, 23);
              HexRunSlice(s, 24, 36);
              assert s[..8] == s[0..8];
              assert s[24..] == s[24..36];
            }
          }
        }
      }
    }
  }

  lemma UUIDPatternIsCanonicalAll()
    ensures forall s :: MatchesUUIDPattern(s) <==> IsCanonicalUUID(s)
  {
    forall s ensures MatchesUUIDPattern(s) <==> IsCanonicalUUID(s) {
      UUIDPatternIsCanonical(s);
    }
  }

  /** The UUID descriptor: Parse returns its input when it matches the
      pattern and "" with an error otherwise; Format is the identity. */
  function NewUUIDAnnotationDesc(key: AnnotationKey): (d: AnnotationDescriptor<string>)
    ensures d.key == key
    ensures forall s :: IsCanonicalUUID(s) ==> d.parse(s) == Parsed(s, None)
    ensures forall s :: !IsCanonicalUUID(s) ==> d.parse(s) == Parsed("", Some(InvalidUUID(s)))
    ensures forall v :: d.format(v) == v
  {
    UUIDPatternIsCanonicalAll();
    AnnotationDescriptor(
      key,
      s => if MatchesUUIDPattern(s) then Parsed(s, None) else Parsed("", Some(InvalidUUID(s))),
      v => v)
  }

  /** The enum descriptor over a string-like domain: Parse admits exactly the
      members of `allowed` and yields the zero value "" with an error for any
      other text; Format is the string conversion, i.e. the identity. */
  function NewEnumAnnotationDesc(key: AnnotationKey, allowed: seq<string>): (d: AnnotationDescriptor<string>)
    ensures d.key == key
    ensures forall s :: d.parse(s).err.None? <==> s in allowed
    ensures forall s :: s in allowed ==> d.parse(s) == Parsed(s, None)
    ensures forall s :: s !in allowed ==> d.parse(s) == Parsed("", Some(InvalidEnum(s)))
    ensures forall v :: d.format(v) == v
  {
    var members := set v | v in allowed;
    AnnotationDescriptor(
      key,
      s => if s in members then Parsed(s, None) else Parsed("", Some(InvalidEnum(s))),
      v => v)
  }

  /** Every accepted UUID text survives Format then Parse unchanged. */
  lemma UUIDRoundTrip(key: AnnotationKey, u: string)
    requires IsCanonicalUUID(u)
    ensures var d := NewUUIDAnnotationDesc(key); d.parse(d.format(u)) == Parsed(u, None)
  {
  }

  /** Every allowed enum value survives Format then Parse unchanged. */
  lemma EnumRoundTrip(key: AnnotationKey, allowed: seq<string>, v: string)
    requires v in allowed
    ensures var d := NewEnumAnnotationDesc(key, allowed); d.parse(d.format(v)) == Parsed(v, None)
  {
  }

  /** The two sample texts of the descriptor tests: a lower-case UUID is
      accepted, "bad-uuid" is not. */
  lemma UUIDSamples()
    ensures IsCanonicalUUID("123e4567-e89b-12d3-a456-426614174000")
    ensures !IsCanonicalUUID("bad-uuid")
  {
  }
}
