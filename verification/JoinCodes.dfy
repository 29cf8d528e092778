/** The one-time join code: a versioned payload with a list of endpoint hints, in one
    canonical text form (internal/enroll/join_code.go). How a single hint is normalized
    is left to the rules. */
module JoinCodes {
  import opened Common
  import opened Order
  import Base64Url

  type Bytes16 = s: Text | |s| == 16 witness seq(16, i => 0)

  type Bytes32 = s: Text | |s| == 32 witness seq(32, i => 0)

  datatype JoinError = InvalidJoinCode | UnsupportedVersion

  datatype JoinCode = JoinCode(
    version: Byte, caFingerprint: Bytes32, endpointHints: seq<Text>, tokenID: Bytes16, secret: Bytes32)

  /** strings.TrimSpace, and the host, port and URL part of normalizeHint. */
  datatype HintRules = HintRules(trim: Text -> Text, authority: Text -> Option<Text>)

  const PREFIX: Text := [115, 112, 114, 95]
  const MAGIC: Text := [83, 80, 82]
  const PROTOCOL_V1: Byte := 1
  const HEADER_LENGTH: nat := 3 + 1 + 32 + 2 + 16 + 32
  const MAX_UINT16: nat := 65535
  const EXCLUDED: Text := [61, 43, 47]

  // --------------------------------------------------------------------- hints

  function NormalizeHint(r: HintRules, hint: Text): Option<Text> {
    if hint == [] || r.trim(hint) != hint || 0 in hint then None else r.authority(hint)
  }

  predicate ValidHint(r: HintRules, hint: Text) {
    && hint != [] && |hint| <= MAX_UINT16 && r.trim(hint) == hint && 0 !in hint
    && NormalizeHint(r, hint) == Some(hint)
  }

  /** canonicalHints: valid hints in strictly increasing order. */
  predicate AreCanonical(r: HintRules, hints: seq<Text>) {
    && |hints| <= MAX_UINT16
    && (forall i :: 0 <= i < |hints| ==> ValidHint(r, hints[i]))
    && (forall i :: 0 < i < |hints| ==> Below(hints[i - 1], hints[i]))
  }

  function NormalizeAll(r: HintRules, hints: seq<Text>): Option<seq<Text>> {
    if hints == [] then Some([])
    else
      match NormalizeHint(r, hints[0])
      case None => None
      case Some(h) =>
        match NormalizeAll(r, hints[1..])
        case None => None
        case Some(rest) => Some([h] + rest)
  }

  function Self(t: Text): Text { t }

  function CanonicalHints(r: HintRules, hints: seq<Text>): Result<seq<Text>, JoinError> {
    match NormalizeAll(r, hints)
    case None => Err(InvalidJoinCode)
    case Some(all) =>
      var sorted := SortBy(all, Self);
      if AreCanonical(r, sorted) then Ok(sorted) else Err(InvalidJoinCode)
  }

  // ------------------------------------------------------------------- payload

  predicate IsZero(s: Text) {
    forall i :: 0 <= i < |s| ==> s[i] == 0
  }

  /** Big-endian, of the low sixteen bits. */
  function Uint16(n: nat): (t: Text)
    ensures |t| == 2
  {
    var high: int, low: int := n / 256 % 256, n % 256;
    [high, low]
  }

  function ReadUint16(p: Text, offset: nat): nat
    requires offset + 2 <= |p|
  {
    var high: int, low: int := p[offset], p[offset + 1];
    high * 256 + low
  }

  function HintBytes(hints: seq<Text>): Text {
    if hints == [] then [] else Uint16(|hints[0]|) + hints[0] + HintBytes(hints[1..])
  }

  function Header(code: JoinCode): (h: Text)
    ensures |h| == 38
  {
    MAGIC + [code.version] + code.caFingerprint + Uint16(|code.endpointHints|)
  }

  function Payload(code: JoinCode): Text {
    Header(code) + HintBytes(code.endpointHints) + code.tokenID + code.secret
  }

  function Encode(r: HintRules, code: JoinCode): Result<Text, JoinError> {
    if code.version != PROTOCOL_V1 then Err(UnsupportedVersion)
    else if IsZero(code.caFingerprint) || IsZero(code.tokenID) || IsZero(code.secret) then Err(InvalidJoinCode)
    else if !AreCanonical(r, code.endpointHints) then Err(InvalidJoinCode)
    else Ok(PREFIX + Base64Url.Encode(Payload(code)))
  }

  datatype HintList = HintList(hints: seq<Text>, end: nat)

  /** The hints starting at the offset, and where they end. */
  function DecodeHints(r: HintRules, p: Text, offset: nat, count: nat): Option<HintList>
    decreases count
  {
    if count == 0 then Some(HintList([], offset))
    else if offset + 2 > |p| then None
    else
      var length := ReadUint16(p, offset);
      if length == 0 || offset + 2 + length > |p| then None
      else
        var hint := p[offset + 2..offset + 2 + length];
        if !ValidHint(r, hint) then None
        else
          match DecodeHints(r, p, offset + 2 + length, count - 1)
          case None => None
          case Some(rest) => Some(HintList([hint] + rest.hints, rest.end))
  }

  predicate HasPrefix(s: Text, prefix: Text) {
    |prefix| <= |s| && s[..|prefix|] == prefix
  }

  function DecodePayload(r: HintRules, p: Text): Result<JoinCode, JoinError> {
    if |p| < HEADER_LENGTH || p[..3] != MAGIC then Err(InvalidJoinCode)
    else if p[3] != PROTOCOL_V1 then Err(UnsupportedVersion)
    else
      match DecodeHints(r, p, 38, ReadUint16(p, 36))
      case None => Err(InvalidJoinCode)
      case Some(list) => Assemble(r, p, list)
  }

  /** The code around the hints; the trailer must end the payload exactly. */
  function Assemble(r: HintRules, p: Text, list: HintList): Result<JoinCode, JoinError>
    requires |p| >= HEADER_LENGTH
  {
    if list.end + 48 != |p| then Err(InvalidJoinCode)
    else
      var code := JoinCode(p[3], p[4..36], list.hints, p[list.end..list.end + 16], p[list.end + 16..]);
      if IsZero(code.caFingerprint) || IsZero(code.tokenID) || IsZero(code.secret) || !AreCanonical(r, code.endpointHints)
      then Err(InvalidJoinCode)
      else Ok(code)
  }

  function Decode(r: HintRules, encoded: Text): Result<JoinCode, JoinError> {
    if !HasPrefix(encoded, PREFIX) || |encoded| == |PREFIX| then Err(InvalidJoinCode)
    else
      var body := encoded[|PREFIX|..];
      if exists c :: c in EXCLUDED && c in body then Err(InvalidJoinCode)
      else
        match Base64Url.Decode(body)
        case None => Err(InvalidJoinCode)
        case Some(p) => if Base64Url.Encode(p) != body then Err(InvalidJoinCode) else DecodePayload(r, p)
  }

  // ------------------------------------------------------------------- methods

  /** JoinCode.Encode: the payload is built by appending. */
  method EncodeJoinCode(r: HintRules, code: JoinCode) returns (result: Result<Text, JoinError>)
    ensures result == Encode(r, code)
  {
    if code.version != PROTOCOL_V1 { return Err(UnsupportedVersion); }
    if IsZero(code.caFingerprint) || IsZero(code.tokenID) || IsZero(code.secret) { return Err(InvalidJoinCode); }
    var canonical := CheckCanonicalHints(r, code.endpointHints);
    if !canonical { return Err(InvalidJoinCode); }
    var payload := Header(code);
    for i := 0 to |code.endpointHints|
      invariant payload + HintBytes(code.endpointHints[i..]) == Header(code) + HintBytes(code.endpointHints)
    {
      var hint := code.endpointHints[i];
      ghost var rest := HintBytes(code.endpointHints[i + 1..]);
      assert code.endpointHints[i..][1..] == code.endpointHints[i + 1..];
      assert payload + (Uint16(|hint|) + hint + rest) == payload + Uint16(|hint|) + hint + rest;
      payload := payload + Uint16(|hint|);
      payload := payload + hint;
    }
    assert payload == Header(code) + HintBytes(code.endpointHints);
    payload := payload + code.tokenID + code.secret;
    result := Ok(PREFIX + Base64Url.Encode(payload));
  }

  method CheckCanonicalHints(r: HintRules, hints: seq<Text>) returns (ok: bool)
    ensures ok == AreCanonical(r, hints)
  {
    if |hints| > MAX_UINT16 { return false; }
    for i := 0 to |hints|
      invariant forall j :: 0 <= j < i ==> ValidHint(r, hints[j]) && (j > 0 ==> Below(hints[j - 1], hints[j]))
    {
      if !ValidHint(r, hints[i]) || (i > 0 && !Below(hints[i - 1], hints[i])) { return false; }
    }
    ok := true;
  }

  /** Every read stays inside the payload, whatever lengths it announces. */
  method DecodeJoinCode(r: HintRules, encoded: Text) returns (result: Result<JoinCode, JoinError>)
    ensures result == Decode(r, encoded)
  {
    if !HasPrefix(encoded, PREFIX) || |encoded| == |PREFIX| { return Err(InvalidJoinCode); }
    var body := encoded[|PREFIX|..];
    if exists c :: c in EXCLUDED && c in body { return Err(InvalidJoinCode); }
    var decoded := Base64Url.Decode(body);
    if decoded.None? || Base64Url.Encode(decoded.value) != body { return Err(InvalidJoinCode); }
    result := ReadPayload(r, decoded.value);
  }

  method ReadPayload(r: HintRules, payload: Text) returns (result: Result<JoinCode, JoinError>)
    ensures result == DecodePayload(r, payload)
  {
    hide DecodeHints, ReadUint16, IsZero, AreCanonical;
    if |payload| < HEADER_LENGTH || payload[..3] != MAGIC { return Err(InvalidJoinCode); }
    if payload[3] != PROTOCOL_V1 { return Err(UnsupportedVersion); }
    var offset := 36;
    var count := ReadUint16(payload, offset);
    offset := offset + 2;
    var list := ReadHints(r, payload, offset, count);
    if list.None? { return Err(InvalidJoinCode); }
    offset := list.value.end;
    if offset + 16 + 32 != |payload| { return Err(InvalidJoinCode); }
    var tokenID := payload[offset..offset + 16];
    offset := offset + 16;
    var code := JoinCode(payload[3], payload[4..36], list.value.hints, tokenID, payload[offset..]);
    if IsZero(code.caFingerprint) || IsZero(code.tokenID) || IsZero(code.secret) { return Err(InvalidJoinCode); }
    var canonical := CheckCanonicalHints(r, code.endpointHints);
    if !canonical { return Err(InvalidJoinCode); }
    result := Ok(code);
  }

  method ReadHints(r: HintRules, payload: Text, start: nat, count: nat) returns (list: Option<HintList>)
    requires start <= |payload|
    ensures list == DecodeHints(r, payload, start, count)
  {
    var offset: nat := start;
    var hints: seq<Text> := [];
    PrependNothing(DecodeHints(r, payload, start, count));
    for i := 0 to count
      invariant i <= count && offset <= |payload|
      invariant DecodeHints(r, payload, start, count) == Prepend(hints, DecodeHints(r, payload, offset, count - i))
    {
      if offset + 2 > |payload| { return None; }
      var length := ReadUint16(payload, offset);
      offset := offset + 2;
      if length == 0 || offset + length > |payload| { return None; }
      var hint := payload[offset..offset + length];
      if !ValidHint(r, hint) { return None; }
      PrependTwice(hints, hint, DecodeHints(r, payload, offset + length, count - i - 1));
      hints := hints + [hint];
      offset := offset + length;
    }
    assert hints + [] == hints;
    list := Some(HintList(hints, offset));
  }

  ghost function Prepend(hints: seq<Text>, rest: Option<HintList>): Option<HintList> {
    if rest.None? then None else Some(HintList(hints + rest.value.hints, rest.value.end))
  }

  lemma PrependNothing(rest: Option<HintList>)
    ensures Prepend([], rest) == rest
  {
    if rest.Some? { assert [] + rest.value.hints == rest.value.hints; }
  }

  lemma PrependTwice(hints: seq<Text>, hint: Text, rest: Option<HintList>)
    ensures Prepend(hints, Prepend([hint], rest)) == Prepend(hints + [hint], rest)
  {
    if rest.Some? { assert hints + ([hint] + rest.value.hints) == hints + [hint] + rest.value.hints; }
  }

  // ---------------------------------------------------------------- round trips

  lemma Uint16RoundTrip(n: nat, p: Text, offset: nat)
    requires n <= MAX_UINT16 && offset + 2 <= |p|
    ensures p[offset..offset + 2] == Uint16(n) <==> ReadUint16(p, offset) == n
  {
    assert p[offset..offset + 2] == [p[offset], p[offset + 1]];
  }

  lemma HintAtOffset(before: Text, hint: Text, after: Text)
    requires |hint| <= MAX_UINT16
    ensures var p := before + Uint16(|hint|) + hint + after;
      && ReadUint16(p, |before|) == |hint|
      && p[|before| + 2..|before| + 2 + |hint|] == hint
  {
    var p := before + Uint16(|hint|) + hint + after;
    assert p[|before|..|before| + 2] == Uint16(|hint|);
    Uint16RoundTrip(|hint|, p, |before|);
  }

  lemma FirstHintDecodes(r: HintRules, p: Text, before: Text, hint: Text, rest: Text, count: nat)
    requires ValidHint(r, hint) && p == before + Uint16(|hint|) + hint + rest && count > 0
    ensures var next := |before| + 2 + |hint|;
      DecodeHints(r, p, |before|, count) ==
        match DecodeHints(r, p, next, count - 1)
        case None => None
        case Some(list) => Some(HintList([hint] + list.hints, list.end))
  {
    HintAtOffset(before, hint, rest);
    assert |hint| <= MAX_UINT16 && hint != [];
    hide ValidHint, ReadUint16, Uint16;
  }

  lemma {:induction false} HintsDecodeFrom(r: HintRules, hints: seq<Text>, before: Text, after: Text)
    requires forall i :: 0 <= i < |hints| ==> ValidHint(r, hints[i])
    ensures DecodeHints(r, before + HintBytes(hints) + after, |before|, |hints|) ==
      Some(HintList(hints, |before| + |HintBytes(hints)|))
    decreases |hints|
  {
    hide ValidHint, ReadUint16, Uint16;
    var p := before + HintBytes(hints) + after;
    if hints != [] {
      var rest := HintBytes(hints[1..]) + after;
      var head := before + Uint16(|hints[0]|) + hints[0];
      assert p == head + rest;
      FirstHintDecodes(r, p, before, hints[0], rest, |hints|);
      assert p == head + HintBytes(hints[1..]) + after;
      HintsDecodeFrom(r, hints[1..], head, after);
      hide DecodeHints;
      assert hints == [hints[0]] + hints[1..];
    }
  }

  /** Decoding an encoded code gives back that code. */
  lemma DecodeOfEncoded(r: HintRules, code: JoinCode)
    ensures Encode(r, code).Ok? ==> Decode(r, Encode(r, code).value) == Ok(code)
  {
    if Encode(r, code).Ok? {
      DecodePayloadOfEncoded(r, code);
      hide Payload, DecodePayload, AreCanonical;
      BodyDecodes(Payload(code));
    }
  }

  lemma DecodePayloadOfEncoded(r: HintRules, code: JoinCode)
    requires Encode(r, code).Ok?
    ensures Payload(code) != [] && DecodePayload(r, Payload(code)) == Ok(code)
  {
    var p := Payload(code);
    var before := Header(code) + HintBytes(code.endpointHints);
    TrailerParts(before, code.tokenID, code.secret, p);
    HintsDecodeFrom(r, code.endpointHints, Header(code), code.tokenID + code.secret);
    assert p == before + (code.tokenID + code.secret);
    assert p[..38] == Header(code);
    HeaderParts(code, p);
    assert DecodeHints(r, p, 38, |code.endpointHints|) == Some(HintList(code.endpointHints, |before|));
    hide DecodeHints, HintBytes, Header, Uint16, ReadUint16, Payload, AreCanonical, IsZero;
    assert Assemble(r, p, HintList(code.endpointHints, |before|)) == Ok(code);
  }

  lemma TrailerParts(before: Text, a: Bytes16, b: Bytes32, p: Text)
    requires p == before + a + b
    ensures |p| == |before| + 48 && p[|before|..|before| + 16] == a && p[|before| + 16..] == b
  {
  }

  lemma HeaderParts(code: JoinCode, p: Text)
    requires |p| >= 38 && p[..38] == Header(code) && |code.endpointHints| <= MAX_UINT16
    ensures p[..3] == MAGIC && p[3] == code.version && p[4..36] == code.caFingerprint
    ensures ReadUint16(p, 36) == |code.endpointHints|
  {
    var h := Header(code);
    assert p[..3] == p[..38][..3] && p[4..36] == p[..38][4..36] && p[36..38] == p[..38][36..38];
    assert h[..3] == MAGIC && h[4..36] == code.caFingerprint && h[36..38] == Uint16(|code.endpointHints|);
    assert p[3] == p[..38][3];
    Uint16RoundTrip(|code.endpointHints|, p, 36);
  }

  lemma BodyDecodes(p: Text)
    requires p != []
    ensures var body := Base64Url.Encode(p);
      && (PREFIX + body)[|PREFIX|..] == body && body != []
      && (forall c :: c in EXCLUDED ==> c !in body)
      && Base64Url.Decode(body) == Some(p)
  {
    var body := Base64Url.Encode(p);
    Base64Url.DecodeOfEncoded(p);
    Base64Url.EncodedIsCanonical(p);
  }

  lemma {:induction false} DecodedHintsReencode(r: HintRules, p: Text, offset: nat, count: nat)
    requires offset <= |p| && DecodeHints(r, p, offset, count).Some?
    ensures var list := DecodeHints(r, p, offset, count).value;
      && |list.hints| == count && offset <= list.end <= |p|
      && p[offset..list.end] == HintBytes(list.hints)
    decreases count
  {
    if count > 0 {
      var length := ReadUint16(p, offset);
      var next := offset + 2 + length;
      DecodedHintsReencode(r, p, next, count - 1);
      var list := DecodeHints(r, p, offset, count).value;
      Uint16RoundTrip(length, p, offset);
      assert list.hints[1..] == DecodeHints(r, p, next, count - 1).value.hints;
      assert p[offset..list.end] == p[offset..offset + 2] + p[offset + 2..next] + p[next..list.end];
    }
  }

  /** Encoding what an accepted string decodes to gives back that string. */
  lemma EncodeOfDecoded(r: HintRules, encoded: Text)
    ensures Decode(r, encoded).Ok? ==> Encode(r, Decode(r, encoded).value) == Ok(encoded)
  {
    if Decode(r, encoded).Ok? {
      var p := Base64Url.Decode(encoded[|PREFIX|..]).value;
      PayloadOfDecoded(r, p);
      assert encoded == PREFIX + encoded[|PREFIX|..];
    }
  }

  lemma PayloadOfDecoded(r: HintRules, p: Text)
    requires DecodePayload(r, p).Ok?
    ensures Payload(DecodePayload(r, p).value) == p
  {
    var count := ReadUint16(p, 36);
    var code := DecodePayload(r, p).value;
    var end := DecodeHints(r, p, 38, count).value.end;
    DecodedHintsReencode(r, p, 38, count);
    Uint16RoundTrip(count, p, 36);
    hide Uint16, ReadUint16, DecodeHints, HintBytes, AreCanonical, IsZero;
    TakeApart(p, end);
    hide DecodePayload;
  }

  lemma TakeApart(p: Text, end: nat)
    requires |p| >= 38 && 38 <= end && end + 16 <= |p|
    ensures p[..38] == p[..3] + [p[3]] + p[4..36] + p[36..38]
    ensures p == p[..38] + p[38..end] + p[end..end + 16] + p[end + 16..]
  {
  }

  /** The decoder accepts exactly the strings the encoder produces, and no two codes
      share a string. */
  lemma AcceptedIsEncoded(r: HintRules, encoded: Text)
    ensures Decode(r, encoded).Ok? <==> exists code :: Encode(r, code) == Ok(encoded)
    ensures forall c, d :: Encode(r, c) == Ok(encoded) && Encode(r, d) == Ok(encoded) ==> c == d
  {
    forall c, d | Encode(r, c) == Ok(encoded) && Encode(r, d) == Ok(encoded) ensures c == d {
      DecodeOfEncoded(r, c);
      DecodeOfEncoded(r, d);
    }
    hide Encode, Decode;
    if Decode(r, encoded).Ok? { EncodeOfDecoded(r, encoded); }
    if code :| Encode(r, code) == Ok(encoded) { DecodeOfEncoded(r, code); }
  }

  // ------------------------------------------------------------------- the wire

  predicate InTwoBytes(high: int, low: int, n: int) {
    high * 256 + low == n
  }

  /** An encoded code is `spr_` and the base64 of: `SPR`, the version 1, the fingerprint,
      the number of hints in two bytes, high byte first, the hints, token and secret. */
  lemma WireFormat(r: HintRules, code: JoinCode)
    ensures Encode(r, code).Ok? ==>
      var p := Payload(code);
      var hints := HintBytes(code.endpointHints);
      && Encode(r, code).value == [115, 112, 114, 95] + Base64Url.Encode(p)
      && |p| == 38 + |hints| + 48
      && p[..3] == [83, 80, 82] && p[3] == 1 && p[4..36] == code.caFingerprint
      && InTwoBytes(p[36], p[37], |code.endpointHints|)
      && p[38..38 + |hints|] == hints
      && p[38 + |hints|..54 + |hints|] == code.tokenID && p[54 + |hints|..] == code.secret
  {
    if Encode(r, code).Ok? {
      var p, hints := Payload(code), HintBytes(code.endpointHints);
      TrailerParts(Header(code) + hints, code.tokenID, code.secret, p);
      assert p[..38] == Header(code);
      HeaderParts(code, p);
      assert p[38..38 + |hints|] == hints;
      hide HintBytes, Header, AreCanonical, IsZero;
    }
  }

  /** A hint of this content, after its length, stands at the offset. */
  predicate HintAt(p: Text, offset: nat, hint: Text) {
    && |p| >= offset + 2 + |hint|
    && InTwoBytes(p[offset], p[offset + 1], |hint|)
    && p[offset + 2..offset + 2 + |hint|] == hint
  }

  lemma HintFurtherOn(first: Text, rest: Text, offset: nat, hint: Text)
    requires HintAt(rest, offset, hint)
    ensures HintAt(first + rest, |first| + offset, hint) && (first + rest)[..|first| + offset] == first + rest[..offset]
  {
    var p := first + rest;
    assert p[|first| + offset] == rest[offset] && p[|first| + offset + 1] == rest[offset + 1];
    assert p[|first| + offset + 2..|first| + offset + 2 + |hint|] == rest[offset + 2..offset + 2 + |hint|];
  }

  /** Each hint is written after its length, high byte first, behind those before it. */
  lemma {:induction false} HintsAreLengthPrefixed(hints: seq<Text>, i: nat)
    requires i < |hints| && |hints[i]| <= MAX_UINT16
    ensures var before := HintBytes(hints[..i]);
      HintAt(HintBytes(hints), |before|, hints[i]) && HintBytes(hints)[..|before|] == before
    decreases |hints|
  {
    if i == 0 {
      assert HintBytes(hints[..0]) == [];
      FirstHint(hints);
    } else {
      assert hints[..i][1..] == hints[1..][..i - 1] && hints[..i][0] == hints[0];
      var first := Uint16(|hints[0]|) + hints[0];
      assert HintBytes(hints[..i]) == first + HintBytes(hints[1..][..i - 1]);
      assert HintBytes(hints) == first + HintBytes(hints[1..]);
      hide *;
      HintsAreLengthPrefixed(hints[1..], i - 1);
      HintFurtherOn(first, HintBytes(hints[1..]), |HintBytes(hints[1..][..i - 1])|, hints[i]);
    }
  }

  lemma FirstHint(hints: seq<Text>)
    requires hints != [] && |hints[0]| <= MAX_UINT16
    ensures HintAt(HintBytes(hints), 0, hints[0])
  {
    var length := Uint16(|hints[0]|);
    assert InTwoBytes(length[0], length[1], |hints[0]|);
    assert HintBytes(hints) == length + hints[0] + HintBytes(hints[1..]);
    hide Uint16, HintBytes, InTwoBytes;
    assert (length + hints[0] + HintBytes(hints[1..]))[2..2 + |hints[0]|] == hints[0];
  }

  /** Encoding refuses exactly another version, and then what is zero or not canonical. */
  lemma EncodeAnswers(r: HintRules, code: JoinCode)
    ensures Encode(r, code) == Err(UnsupportedVersion) <==> code.version != 1
    ensures Encode(r, code).Ok? <==>
      && code.version == 1
      && (exists i :: 0 <= i < 32 && code.caFingerprint[i] != 0)
      && (exists i :: 0 <= i < 16 && code.tokenID[i] != 0)
      && (exists i :: 0 <= i < 32 && code.secret[i] != 0)
      && AreCanonical(r, code.endpointHints)
  {
    hide AreCanonical;
  }

  /** Decoding tells another version from every other fault: the text is canonical base64
      behind the prefix, and everything before the version byte is as it should be. */
  lemma OtherVersionIsTold(r: HintRules, encoded: Text)
    ensures Decode(r, encoded) == Err(UnsupportedVersion) <==>
      exists p: Text :: encoded == [115, 112, 114, 95] + Base64Url.Encode(p) && |p| >= 86 && p[..3] == [83, 80, 82] && p[3] != 1
  {
    if Decode(r, encoded) == Err(UnsupportedVersion) {
      var p := Base64Url.Decode(encoded[4..]).value;
      hide DecodeHints, Assemble;
      assert encoded == PREFIX + encoded[4..];
      assert encoded == [115, 112, 114, 95] + Base64Url.Encode(p);
    }
    if p: Text :| encoded == [115, 112, 114, 95] + Base64Url.Encode(p) && |p| >= 86 && p[..3] == [83, 80, 82] && p[3] != 1 {
      BodyDecodes(p);
      assert encoded == PREFIX + Base64Url.Encode(p);
    }
  }

  // ------------------------------------------------------------- canonical hints

  lemma {:induction false} NormalizeAllOfConcat(r: HintRules, a: seq<Text>, b: seq<Text>)
    ensures NormalizeAll(r, a + b) ==
      if NormalizeAll(r, a).None? || NormalizeAll(r, b).None? then None
      else Some(NormalizeAll(r, a).value + NormalizeAll(r, b).value)
    decreases |a|
  {
    if a == [] {
      assert a + b == b;
      if NormalizeAll(r, b).Some? { assert [] + NormalizeAll(r, b).value == NormalizeAll(r, b).value; }
    } else {
      NormalizeAllOfConcat(r, a[1..], b);
      assert (a + b)[1..] == a[1..] + b;
      if NormalizeAll(r, a).Some? && NormalizeAll(r, b).Some? {
        var h, x, y := NormalizeHint(r, a[0]).value, NormalizeAll(r, a[1..]).value, NormalizeAll(r, b).value;
        assert [h] + (x + y) == ([h] + x) + y;
      }
    }
  }

  lemma WithoutOne(a: seq<Text>, head: seq<Text>, tail: seq<Text>)
    requires a != [] && multiset(a) == multiset(head + ([a[0]] + tail))
    ensures multiset(a[1..]) == multiset(head + tail)
  {
    assert a == [a[0]] + a[1..];
    assert multiset(a) == multiset{a[0]} + multiset(a[1..]);
    assert multiset(head + ([a[0]] + tail)) == multiset(head) + multiset{a[0]} + multiset(tail);
    assert multiset(a[1..]) == multiset(a) - multiset{a[0]};
  }

  lemma OneMoreAlike(h: Text, x: seq<Text>, y: seq<Text>, z: seq<Text>)
    requires multiset(x) == multiset(y + z)
    ensures multiset([h] + x) == multiset(y + ([h] + z))
  {
  }

  /** Normalizing one list or a reordering of it fails alike, and gives the same hints. */
  lemma {:induction false} NormalizeAllPermutes(r: HintRules, a: seq<Text>, b: seq<Text>)
    requires multiset(a) == multiset(b)
    ensures NormalizeAll(r, a).Some? == NormalizeAll(r, b).Some?
    ensures NormalizeAll(r, a).Some? ==> multiset(NormalizeAll(r, a).value) == multiset(NormalizeAll(r, b).value)
    decreases |a|
  {
    if a == [] {
      assert |b| == |multiset(b)| == |multiset(a)| == 0;
    } else {
      assert a[0] in multiset(b);
      var j: nat :| j < |b| && b[j] == a[0];
      var head, tail := b[..j], b[j + 1..];
      assert b == head + ([a[0]] + tail);
      WithoutOne(a, head, tail);
      NormalizeAllPermutes(r, a[1..], head + tail);
      NormalizeAllOfConcat(r, head, tail);
      NormalizeAllOfConcat(r, head, [a[0]] + tail);
      assert ([a[0]] + tail)[0] == a[0] && ([a[0]] + tail)[1..] == tail;
      hide NormalizeHint;
      assert NormalizeAll(r, a).Some? == NormalizeAll(r, b).Some?;
      if NormalizeAll(r, a).Some? {
        var h, x, y, z := NormalizeHint(r, a[0]).value, NormalizeAll(r, a[1..]).value,
          NormalizeAll(r, head).value, NormalizeAll(r, tail).value;
        assert NormalizeAll(r, a).value == [h] + x && NormalizeAll(r, b).value == y + ([h] + z);
        hide NormalizeAll;
        OneMoreAlike(h, x, y, z);
      }
    }
  }

  lemma {:induction false} IncreasingIsDistinct(s: seq<Text>, i: nat, j: nat)
    requires forall k :: 0 < k < |s| ==> Below(s[k - 1], s[k])
    requires i < j < |s|
    ensures Below(s[i], s[j]) && s[i] != s[j]
    decreases j
  {
    if i < j - 1 {
      IncreasingIsDistinct(s, i, j - 1);
      BelowIsTransitive(s[i], s[j - 1], s[j]);
    }
    BelowIsStrict(s[i], s[j]);
  }

  lemma CanonicalIsSorted(r: HintRules, hints: seq<Text>)
    requires AreCanonical(r, hints)
    ensures SortedBy(hints, Self) && DistinctBy(hints, Self)
  {
    forall i, j | 0 <= i < j < |hints| ensures Below(hints[i], hints[j]) && !Below(hints[j], hints[i]) && hints[i] != hints[j] {
      IncreasingIsDistinct(hints, i, j);
      BelowIsStrict(hints[i], hints[j]);
    }
  }

  /** The canonical hints do not depend on the order the hints were given in. */
  lemma CanonicalHintsForgetOrder(r: HintRules, a: seq<Text>, b: seq<Text>)
    requires multiset(a) == multiset(b)
    ensures CanonicalHints(r, a) == CanonicalHints(r, b)
  {
    NormalizeAllPermutes(r, a, b);
    if NormalizeAll(r, a).Some? {
      var x, y := NormalizeAll(r, a).value, NormalizeAll(r, b).value;
      if CanonicalHints(r, a).Ok? { SortsAlike(r, x, y); }
      if CanonicalHints(r, b).Ok? { SortsAlike(r, y, x); }
    }
  }

  lemma SortsAlike(r: HintRules, x: seq<Text>, y: seq<Text>)
    requires multiset(x) == multiset(y) && AreCanonical(r, SortBy(x, Self))
    ensures SortBy(x, Self) == SortBy(y, Self)
  {
    CanonicalIsSorted(r, SortBy(x, Self));
    DistinctIsOrderless(SortBy(x, Self), x, Self);
    SortForgetsOrder(x, y, Self);
  }

  lemma {:induction false} ValidHintsAreNormal(r: HintRules, hints: seq<Text>)
    requires forall i :: 0 <= i < |hints| ==> ValidHint(r, hints[i])
    ensures NormalizeAll(r, hints) == Some(hints)
  {
    if hints != [] {
      ValidHintsAreNormal(r, hints[1..]);
      assert hints == [hints[0]] + hints[1..];
    }
  }

  /** Canonical hints are their own canonical form, and exactly those are accepted as they
      are. */
  lemma CanonicalHintsAreFixed(r: HintRules, hints: seq<Text>)
    ensures CanonicalHints(r, hints) == Ok(hints) <==> AreCanonical(r, hints)
    ensures CanonicalHints(r, hints).Ok? ==> CanonicalHints(r, CanonicalHints(r, hints).value) == CanonicalHints(r, hints)
  {
    if AreCanonical(r, hints) { CanonicalIsNormal(r, hints); }
    if CanonicalHints(r, hints).Ok? { CanonicalIsNormal(r, CanonicalHints(r, hints).value); }
  }

  lemma CanonicalIsNormal(r: HintRules, hints: seq<Text>)
    requires AreCanonical(r, hints)
    ensures CanonicalHints(r, hints) == Ok(hints)
  {
    ValidHintsAreNormal(r, hints);
    CanonicalIsSorted(r, hints);
    SortedIsFixed(hints, Self);
  }

  /** A nonempty text without outer space and without a zero byte. */
  predicate IsPlain(r: HintRules, hint: Text) {
    |hint| > 0 && r.trim(hint) == hint && forall k :: 0 <= k < |hint| ==> hint[k] > 0
  }

  /** Hints have a canonical form exactly when each is plain and normalizes to a plain,
      short enough text that stays as it is, all of these differ, and they are not too
      many; the form is then just these texts in increasing order. */
  lemma CanonicalHintsAnswer(r: HintRules, hints: seq<Text>, normal: seq<Option<Text>>)
    requires |normal| == |hints| && forall i :: 0 <= i < |hints| ==> normal[i] == r.authority(hints[i])
    ensures CanonicalHints(r, hints).Ok? <==>
      && |hints| < 65536
      && (forall i :: 0 <= i < |hints| ==> IsPlain(r, hints[i]) && normal[i].Some? && |normal[i].value| < 65536)
      && (forall i :: 0 <= i < |hints| ==> IsPlain(r, normal[i].value) && r.authority(normal[i].value) == normal[i])
      && (forall i, j :: 0 <= i < j < |hints| ==> normal[i] != normal[j])
    ensures CanonicalHints(r, hints).Ok? ==>
      var c := CanonicalHints(r, hints).value;
      && |c| == |hints| && (forall i, j :: 0 <= i < j < |c| ==> Below(c[i], c[j]))
      && (forall i :: 0 <= i < |hints| ==> normal[i].value in c)
  {
    NormalizeAllIsEach(r, hints);
    forall h ensures NormalizeHint(r, h) == (if IsPlain(r, h) then r.authority(h) else None) { OneHint(r, h); }
    forall h ensures ValidHint(r, h) <==> IsPlain(r, h) && |h| < 65536 && r.authority(h) == Some(h) { OneHint(r, h); }
    hide AreCanonical, NormalizeAll, NormalizeHint, ValidHint, IsPlain, SortBy;
    if NormalizeAll(r, hints).Some? {
      var all := NormalizeAll(r, hints).value;
      assert forall i :: 0 <= i < |all| ==> normal[i] == Some(all[i]);
      SortedIsCanonical(r, all);
    }
  }

  lemma OneHint(r: HintRules, h: Text)
    ensures NormalizeHint(r, h) == if IsPlain(r, h) then r.authority(h) else None
    ensures ValidHint(r, h) <==> IsPlain(r, h) && |h| < 65536 && r.authority(h) == Some(h)
  {
    assert 0 in h <==> exists k :: 0 <= k < |h| && h[k] == 0;
  }

  /** Sorting valid hints gives canonical ones exactly when they differ. */
  lemma SortedIsCanonical(r: HintRules, all: seq<Text>)
    ensures var s := SortBy(all, Self);
      && (AreCanonical(r, s) <==>
            && |all| < 65536 && (forall i :: 0 <= i < |all| ==> ValidHint(r, all[i]))
            && (forall i, j :: 0 <= i < j < |all| ==> all[i] != all[j]))
      && (AreCanonical(r, s) ==>
            && |s| == |all| && (forall i, j :: 0 <= i < j < |s| ==> Below(s[i], s[j]))
            && (forall i :: 0 <= i < |all| ==> all[i] in s))
  {
    SortKeepsMembers(all);
    SortIncreases(all);
    hide ValidHint, SortBy, Below;
  }

  lemma SortKeepsMembers(all: seq<Text>)
    ensures var s := SortBy(all, Self);
      && |s| == |all| && (forall i :: 0 <= i < |all| ==> all[i] in s)
      && (forall i :: 0 <= i < |s| ==> exists j :: 0 <= j < |all| && all[j] == s[i])
  {
    var s := SortBy(all, Self);
    hide SortBy;
    assert |s| == |multiset(s)| == |multiset(all)| == |all|;
    assert forall i :: 0 <= i < |all| ==> all[i] in multiset(s);
    assert forall i :: 0 <= i < |s| ==> s[i] in multiset(all);
  }

  lemma SortIncreases(all: seq<Text>)
    ensures var s := SortBy(all, Self);
      && ((forall i, j :: 0 <= i < j < |all| ==> all[i] != all[j]) <==> (forall i :: 0 < i < |s| ==> Below(s[i - 1], s[i])))
      && ((forall i :: 0 < i < |s| ==> Below(s[i - 1], s[i])) ==> forall i, j :: 0 <= i < j < |s| ==> Below(s[i], s[j]))
  {
    var s := SortBy(all, Self);
    SortIsSorted(all, Self);
    hide SortBy, Below;
    if forall i :: 0 < i < |s| ==> Below(s[i - 1], s[i]) {
      forall i, j | 0 <= i < j < |s| ensures Below(s[i], s[j]) && s[i] != s[j] { IncreasingIsDistinct(s, i, j); }
      assert DistinctBy(s, Self);
      DistinctIsOrderless(s, all, Self);
      assert forall i, j :: 0 <= i < j < |all| ==> Self(all[i]) != Self(all[j]);
    }
    if forall i, j :: 0 <= i < j < |all| ==> all[i] != all[j] {
      assert DistinctBy(all, Self);
      DistinctIsOrderless(all, s, Self);
      DistinctSortedIncreases(s);
    }
  }

  lemma {:induction false} NormalizeAllIsEach(r: HintRules, hints: seq<Text>)
    ensures NormalizeAll(r, hints).Some? <==> forall i :: 0 <= i < |hints| ==> NormalizeHint(r, hints[i]).Some?
    ensures NormalizeAll(r, hints).Some? ==>
      var all := NormalizeAll(r, hints).value;
      |all| == |hints| && forall i :: 0 <= i < |hints| ==> NormalizeHint(r, hints[i]) == Some(all[i])
  {
    if hints != [] {
      NormalizeAllIsEach(r, hints[1..]);
      assert forall i :: 0 < i < |hints| ==> hints[i] == hints[1..][i - 1];
    }
  }

  lemma DistinctSortedIncreases(s: seq<Text>)
    requires SortedBy(s, Self) && DistinctBy(s, Self)
    ensures forall i, j :: 0 <= i < j < |s| ==> Below(s[i], s[j])
  {
    forall i, j | 0 <= i < j < |s| ensures Below(s[i], s[j]) {
      BelowIsTotal(s[i], s[j]);
      assert Self(s[i]) != Self(s[j]) && !Below(Self(s[j]), Self(s[i]));
    }
  }
}
