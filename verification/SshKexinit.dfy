/**
 The SSH_MSG_KEXINIT packet: building the client's (sections 6 and 7.1 of RFC 4253), reading the
 server's, and the name-lists inside (section 5 of RFC 4251).
 */
module SshKexinit {
  import opened Bytes
  import opened Wrappers

  const MAX_TOTAL_PACKET_BYTES: nat := 35_000
  const PACKET_LENGTH_FIELD_BYTES: nat := 4
  const MAX_PACKET_LENGTH_FIELD_VALUE: nat := MAX_TOTAL_PACKET_BYTES - PACKET_LENGTH_FIELD_BYTES
  const MAX_NAME_LIST_BYTES: nat := 8 * 1024
  const MAX_ALGORITHM_NAMES: nat := 128
  const SSH_MSG_KEXINIT: char := 20 as char
  const U32_LIMIT: nat := 0x1_0000_0000

  type NameList = seq<string>

  datatype Error =
    | LengthTruncated | TooLarge | InvalidLength | PacketTruncated | InvalidPadding
    | PayloadTruncated | NotKexinit | ListTooLong | ListNotAscii | TooManyNames | InvalidName
    | InvalidBoolean | InvalidReserved | TrailingBytes

  /** A KEXINIT payload carries ten name-lists. */
  function ListCount(): nat { 10 }

  // ----- Names -----

  /** The parts between separators, as Rust's `split`. */
  function Split(s: string, separator: char): (parts: seq<string>)
    ensures |parts| > 0
    ensures forall i :: 0 <= i < |parts| ==> separator !in parts[i]
  {
    if s == [] then [[]]
    else
      var rest := Split(s[1..], separator);
      if s[0] == separator then [[]] + rest else [[s[0]] + rest[0]] + rest[1..]
  }

  function Join(names: seq<string>, separator: char): string {
    if names == [] then []
    else if |names| == 1 then names[0]
    else names[0] + [separator] + Join(names[1..], separator)
  }

  predicate IsAlphanumeric(c: char) {
    'a' <= c <= 'z' || 'A' <= c <= 'Z' || '0' <= c <= '9'
  }

  predicate ValidLabel(part: string) {
    && 0 < |part| <= 63
    && (forall i :: 0 <= i < |part| ==> IsAlphanumeric(part[i]) || part[i] == '-')
    && IsAlphanumeric(part[0])
    && IsAlphanumeric(part[|part| - 1])
  }

  predicate ValidDomainName(domain: string) {
    && 0 < |domain| <= 253
    && var labels := Split(domain, '.');
       forall i :: 0 <= i < |labels| ==> ValidLabel(labels[i])
  }

  predicate ValidAlgorithmName(name: string) {
    && 0 < |name| <= 64
    && (forall i :: 0 <= i < |name| ==> IsGraphic(name[i]) && name[i] != ',')
    && var parts := Split(name, '@');
       |parts| <= 2 && parts[0] != [] && (|parts| == 2 ==> ValidDomainName(parts[1]))
  }

  predicate ValidList(names: NameList) {
    && |names| <= MAX_ALGORITHM_NAMES
    && |Join(names, ',')| <= MAX_NAME_LIST_BYTES
    && forall i :: 0 <= i < |names| ==> ValidAlgorithmName(names[i])
  }

  // ----- The wire format -----

  function EncodeList(names: NameList): string
    requires |Join(names, ',')| < U32_LIMIT
  {
    EncodeU32(|Join(names, ',')|) + Join(names, ',')
  }

  predicate Encodable(lists: seq<NameList>) {
    forall i :: 0 <= i < |lists| ==> |Join(lists[i], ',')| < U32_LIMIT
  }

  function EncodeLists(lists: seq<NameList>): string
    requires Encodable(lists)
  {
    if lists == [] then [] else EncodeList(lists[0]) + EncodeLists(lists[1..])
  }

  predicate AllValid(lists: seq<NameList>)
    ensures AllValid(lists) ==> Encodable(lists)
  {
    forall i :: 0 <= i < |lists| ==> ValidList(lists[i])
  }

  /** The first_kex_packet_follows flag and the reserved field. */
  function Trailer(follows: bool): (s: string)
    ensures |s| == 5 && IsBytes(s)
  {
    [ByteAt(if follows then 1 else 0)] + EncodeU32(0)
  }

  function Payload(cookie: string, lists: seq<NameList>, follows: bool): string
    requires Encodable(lists)
  {
    [SSH_MSG_KEXINIT] + cookie + (EncodeLists(lists) + Trailer(follows))
  }

  function PaddingLength(payloadLength: nat): nat {
    var padding := 8 - (4 + 1 + payloadLength) % 8;
    if padding < 4 then padding + 8 else padding
  }

  predicate FitsPacket(payload: string) {
    4 + 1 + |payload| + PaddingLength(|payload|) <= MAX_TOTAL_PACKET_BYTES
  }

  /** The framed packet, its padding taken from the front of 16 random bytes. */
  function Packet(payload: string, random: string): string
    requires |random| == 16 && 1 + |payload| + 16 < U32_LIMIT
  {
    var padding := PaddingLength(|payload|);
    EncodeU32(1 + |payload| + padding) + [ByteAt(padding)] + payload + random[..padding]
  }

  // ----- Decoding, on values -----

  function DecodeList(s: string): (r: Result<(NameList, string), Error>)
    ensures r.Ok? ==> |r.value.1| <= |s| && r.value.1 == s[|s| - |r.value.1|..]
  {
    if |s| < 4 then Err(PayloadTruncated)
    else
      var length := DecodeU32(s[..4]);
      if length > MAX_NAME_LIST_BYTES then Err(ListTooLong)
      else if 4 + length > |s| then Err(PayloadTruncated)
      else
        var bytes := s[4..4 + length];
        var rest := s[4 + length..];
        if bytes == [] then Ok(([], rest))
        else if !IsUtf8(bytes) then Err(ListNotAscii)
        else
          var names := Split(bytes, ',');
          if |names| > MAX_ALGORITHM_NAMES then Err(TooManyNames)
          else if exists i :: 0 <= i < |names| && !ValidAlgorithmName(names[i]) then Err(InvalidName)
          else Ok((names, rest))
  }

  function DecodeLists(n: nat, s: string): (r: Result<(seq<NameList>, string), Error>)
    ensures r.Ok? ==> |r.value.0| == n && |r.value.1| <= |s| && r.value.1 == s[|s| - |r.value.1|..]
  {
    if n == 0 then Ok(([], s))
    else
      match DecodeList(s)
      case Err(error) => Err(error)
      case Ok((names, rest)) =>
        match DecodeLists(n - 1, rest)
        case Err(error) => Err(error)
        case Ok((lists, remaining)) => Ok(([names] + lists, remaining))
  }

  function DecodePayload(payload: string): Result<seq<NameList>, Error>
  {
    if |payload| < 1 then Err(PayloadTruncated)
    else if payload[0] != SSH_MSG_KEXINIT then Err(NotKexinit)
    else if |payload| < 17 then Err(PayloadTruncated)
    else
      match DecodeLists(ListCount(), payload[17..])
      case Err(error) => Err(error)
      case Ok((lists, rest)) =>
        match DecodeTrailer(rest)
        case Some(error) => Err(error)
        case None => Ok(lists)
  }

  function DecodeTrailer(rest: string): Option<Error>
  {
    if |rest| < 1 then Some(PayloadTruncated)
    else if rest[0] as int > 1 then Some(InvalidBoolean)
    else if |rest| < 5 then Some(PayloadTruncated)
    else if DecodeU32(rest[1..5]) != 0 then Some(InvalidReserved)
    else if |rest| > 5 then Some(TrailingBytes)
    else None
  }

  lemma TrailerDecodes(rest: string)
    requires IsBytes(rest)
    ensures DecodeTrailer(rest).None? <==> rest == Trailer(false) || rest == Trailer(true)
  {
    DecodeEncodeU32(0);
    assert Trailer(false)[1..5] == EncodeU32(0) == Trailer(true)[1..5];
    if DecodeTrailer(rest).None? {
      EncodeDecodeU32(rest[1..5]);
      assert rest == [rest[0]] + rest[1..5];
      assert rest[0] == ByteAt(0) || rest[0] == ByteAt(1);
    }
  }

  function DecodePacket(stream: string): Result<seq<NameList>, Error>
  {
    if |stream| < 4 then Err(LengthTruncated)
    else
      var packetLength := DecodeU32(stream[..4]);
      if packetLength > MAX_PACKET_LENGTH_FIELD_VALUE then Err(TooLarge)
      else if packetLength < 12 || (packetLength + 4) % 8 != 0 then Err(InvalidLength)
      else if |stream| < 4 + packetLength then Err(PacketTruncated)
      else
        var packet := stream[4..4 + packetLength];
        var paddingLength := packet[0] as int;
        if paddingLength < 4 || paddingLength >= packetLength - 1 then Err(InvalidPadding)
        else
          var payload := packet[1..packetLength - paddingLength];
          DecodePayload(payload)
  }

  // ----- Names survive the separator -----

  lemma {:induction false} SplitJoin(names: seq<string>, separator: char)
    requires names != []
    requires forall i :: 0 <= i < |names| ==> separator !in names[i]
    ensures Split(Join(names, separator), separator) == names
    decreases |Join(names, separator)|, |names|
  {
    var s := Join(names, separator);
    if names[0] == [] {
      if |names| > 1 {
        assert s[1..] == Join(names[1..], separator);
        SplitJoin(names[1..], separator);
      }
    } else {
      var shorter := [names[0][1..]] + names[1..];
      assert shorter[1..] == names[1..];
      assert s[1..] == Join(shorter, separator);
      SplitJoin(shorter, separator);
      assert [s[0]] + shorter[0] == names[0];
    }
  }

  /** n separators make n + 1 parts. */
  lemma {:induction false} SplitCounts(s: string, separator: char)
    ensures |Split(s, separator)| == multiset(s)[separator] + 1
  {
    if s != [] {
      assert s == [s[0]] + s[1..];
      SplitCounts(s[1..], separator);
    }
  }

  lemma {:induction false} JoinSplit(s: string, separator: char)
    ensures Join(Split(s, separator), separator) == s
  {
    if s != [] {
      JoinSplit(s[1..], separator);
      var rest := Split(s[1..], separator);
      var parts := Split(s, separator);
      if s[0] == separator {
        assert parts[1..] == rest;
      } else {
        assert parts[1..] == rest[1..];
        if |rest| > 1 {
          assert s == [s[0]] + (rest[0] + [separator] + Join(rest[1..], separator));
        }
      }
    }
  }

  lemma {:induction false} NoSeparator(s: string, separator: char)
    requires separator !in s
    ensures Split(s, separator) == [s]
  {
    if s != [] {
      assert s == [s[0]] + s[1..];
      NoSeparator(s[1..], separator);
      assert [s[0]] + s[1..] == s;
    }
  }

  // ----- What an algorithm name is -----

  /** Labels of letters, digits and inner hyphens, with dots between them. */
  ghost predicate IsDomain(domain: string) {
    && 0 < |domain| <= 253
    && exists labels: seq<string> ::
         labels != [] && domain == Join(labels, '.') && forall i :: 0 <= i < |labels| ==> IsLabel(labels[i])
  }

  predicate IsLabel(part: string) {
    && 1 <= |part| <= 63
    && part[0] != '-' && part[|part| - 1] != '-'
    && forall i :: 0 <= i < |part| ==>
         || 'a' <= part[i] <= 'z' || 'A' <= part[i] <= 'Z' || '0' <= part[i] <= '9' || part[i] == '-'
  }

  /** A plain name, or a name of its own at a domain (section 6 of RFC 4251). */
  ghost predicate IsAlgorithmName(name: string) {
    && 1 <= |name| <= 64
    && (forall i :: 0 <= i < |name| ==> '!' <= name[i] <= '~' && name[i] != ',')
    && ('@' in name ==>
          exists local, domain :: name == local + ['@'] + domain && local != [] && '@' !in local && IsDomain(domain))
  }

  lemma LabelExactly(part: string)
    ensures ValidLabel(part) <==> IsLabel(part)
    ensures IsLabel(part) ==> '.' !in part && '@' !in part
  {
  }

  lemma {:induction false} NotInJoin(names: seq<string>, separator: char, c: char)
    requires c != separator && forall i :: 0 <= i < |names| ==> c !in names[i]
    ensures c !in Join(names, separator)
  {
    if |names| > 1 {
      NotInJoin(names[1..], separator, c);
    }
  }

  lemma DomainExactly(domain: string)
    ensures ValidDomainName(domain) <==> IsDomain(domain)
    ensures IsDomain(domain) ==> '@' !in domain
  {
    hide ValidLabel, IsLabel;
    var parts := Split(domain, '.');
    forall i | 0 <= i < |parts| ensures ValidLabel(parts[i]) <==> IsLabel(parts[i]) {
      LabelExactly(parts[i]);
    }
    JoinSplit(domain, '.');
    if IsDomain(domain) {
      var labels :| labels != [] && domain == Join(labels, '.') && forall i :: 0 <= i < |labels| ==> IsLabel(labels[i]);
      forall i | 0 <= i < |labels| ensures '.' !in labels[i] && '@' !in labels[i] {
        LabelExactly(labels[i]);
      }
      SplitJoin(labels, '.');
      NotInJoin(labels, '.', '@');
    }
  }

  /** The checks of the parser accept exactly the algorithm names. */
  lemma AlgorithmNameExactly(name: string)
    ensures ValidAlgorithmName(name) <==> IsAlgorithmName(name)
  {
    hide ValidDomainName, IsDomain;
    var parts := Split(name, '@');
    JoinSplit(name, '@');
    if '@' !in name {
      NoSeparator(name, '@');
    } else {
      if |parts| == 2 {
        assert name == parts[0] + ['@'] + parts[1];
        DomainExactly(parts[1]);
      }
      if IsAlgorithmName(name) {
        var local, domain :| name == local + ['@'] + domain && local != [] && '@' !in local && IsDomain(domain);
        DomainExactly(domain);
        assert Join([local, domain], '@') == name;
        SplitJoin([local, domain], '@');
      }
    }
  }

  lemma DomainIsGraphic(labels: seq<string>, i: nat)
    requires forall k :: 0 <= k < |labels| ==> IsLabel(labels[k])
    requires i < |Join(labels, '.')|
    ensures '!' <= Join(labels, '.')[i] <= '~' && Join(labels, '.')[i] != ','
    decreases |labels|
  {
    if |labels| > 1 && i > |labels[0]| {
      DomainIsGraphic(labels[1..], i - |labels[0]| - 1);
    } else if |labels| > 0 && i < |labels[0]| {
      assert Join(labels, '.')[i] == labels[0][i];
    }
  }

  /** Any plain name at any domain is accepted, up to 64 characters. */
  lemma NameAtDomain(local: string, domain: string)
    requires local != [] && |local| + 1 + |domain| <= 64 && IsDomain(domain)
    requires forall i :: 0 <= i < |local| ==> '!' <= local[i] <= '~' && local[i] !in {',', '@'}
    ensures ValidAlgorithmName(local + ['@'] + domain)
  {
    hide ValidAlgorithmName, Join, IsLabel;
    var labels :| labels != [] && domain == Join(labels, '.') && forall i :: 0 <= i < |labels| ==> IsLabel(labels[i]);
    forall i | 0 <= i < |domain| ensures '!' <= domain[i] <= '~' && domain[i] != ',' {
      DomainIsGraphic(labels, i);
    }
    AlgorithmNameExactly(local + ['@'] + domain);
  }

  /** A valid list is never taken for the empty one. */
  lemma {:induction false} JoinedIsGraphic(names: NameList)
    requires forall i :: 0 <= i < |names| ==> ValidAlgorithmName(names[i])
    ensures names != [] ==> Join(names, ',') != []
    ensures forall i :: 0 <= i < |Join(names, ',')| ==> IsGraphic(Join(names, ',')[i])
  {
    if |names| > 1 {
      JoinedIsGraphic(names[1..]);
    }
  }

  // ----- Decoding undoes encoding -----

  lemma DecodeEncodedList(names: NameList, rest: string)
    requires ValidList(names) && IsBytes(rest)
    ensures IsBytes(EncodeList(names) + rest)
    ensures DecodeList(EncodeList(names) + rest) == Ok((names, rest))
  {
    var joined := Join(names, ',');
    var s := EncodeList(names) + rest;
    JoinedIsGraphic(names);
    AsciiIsUtf8(joined);
    DecodeEncodeU32(|joined|);
    assert s[..4] == EncodeU32(|joined|);
    assert s[4..4 + |joined|] == joined;
    assert s[4 + |joined|..] == rest;
    if names != [] {
      SplitJoin(names, ',');
    }
  }

  lemma {:induction false} DecodeEncodedLists(lists: seq<NameList>, rest: string)
    requires AllValid(lists)
    requires IsBytes(rest)
    ensures IsBytes(EncodeLists(lists) + rest)
    ensures DecodeLists(|lists|, EncodeLists(lists) + rest) == Ok((lists, rest))
  {
    hide ValidList, DecodeList, EncodeList;
    if lists == [] {
      assert EncodeLists(lists) + rest == rest;
    } else {
      assert AllValid(lists[1..]);
      DecodeEncodedLists(lists[1..], rest);
      var tail := EncodeLists(lists[1..]) + rest;
      assert EncodeLists(lists) + rest == EncodeList(lists[0]) + tail;
      DecodeEncodedList(lists[0], tail);
      assert [lists[0]] + lists[1..] == lists;
    }
  }

  lemma DecodeEncodedPayload(cookie: string, lists: seq<NameList>, follows: bool)
    requires |cookie| == 16 && IsBytes(cookie)
    requires |lists| == ListCount() && AllValid(lists)
    ensures IsBytes(Payload(cookie, lists, follows))
    ensures DecodePayload(Payload(cookie, lists, follows)) == Ok(lists)
  {
    hide AllValid, DecodeLists, EncodeLists, DecodeTrailer, Trailer;
    var payload := Payload(cookie, lists, follows);
    DecodeEncodedLists(lists, Trailer(follows));
    TrailerDecodes(Trailer(follows));
    assert payload[17..] == EncodeLists(lists) + Trailer(follows);
  }

  /** Padding is 4 to 11 bytes, fills the packet to a multiple of 8 and fits the random bytes. */
  lemma PaddingFills(payloadLength: nat)
    ensures 4 <= PaddingLength(payloadLength) <= 11
    ensures (4 + 1 + payloadLength + PaddingLength(payloadLength)) % 8 == 0
  {
  }

  // ----- Encoding undoes decoding -----

  lemma EncodeDecodedList(s: string, names: NameList, rest: string)
    requires IsBytes(s) && DecodeList(s) == Ok((names, rest))
    ensures ValidList(names) && IsBytes(rest)
    ensures s == EncodeList(names) + rest
  {
    var length := DecodeU32(s[..4]);
    var bytes := s[4..4 + length];
    EncodeDecodeU32(s[..4]);
    if bytes != [] {
      JoinSplit(bytes, ',');
    }
    assert Join(names, ',') == bytes;
    assert s == s[..4] + bytes + rest;
  }

  lemma NoLists(s: string)
    ensures AllValid([]) && EncodeLists([]) + s == s
    ensures DecodeLists(0, s) == Ok(([], s))
  {
  }

  lemma FirstDecoded(n: nat, s: string, lists: seq<NameList>, rest: string)
    returns (names: NameList, after: string, others: seq<NameList>)
    requires n > 0 && DecodeLists(n, s) == Ok((lists, rest))
    ensures DecodeList(s) == Ok((names, after)) && DecodeLists(n - 1, after) == Ok((others, rest))
    ensures lists == [names] + others
  {
    hide DecodeList;
    names, after := DecodeList(s).value.0, DecodeList(s).value.1;
    others := DecodeLists(n - 1, after).value.0;
  }

  lemma OneMoreList(s: string, names: NameList, after: string, others: seq<NameList>, rest: string)
    requires ValidList(names) && AllValid(others)
    requires s == EncodeList(names) + after && after == EncodeLists(others) + rest
    ensures AllValid([names] + others)
    ensures s == EncodeLists([names] + others) + rest
  {
    hide EncodeList;
    assert ([names] + others)[1..] == others;
    assert EncodeList(names) + (EncodeLists(others) + rest) == (EncodeList(names) + EncodeLists(others)) + rest;
  }

  lemma {:induction false} EncodeDecodedLists(n: nat, s: string, lists: seq<NameList>, rest: string)
    requires IsBytes(s) && DecodeLists(n, s) == Ok((lists, rest))
    ensures AllValid(lists) && IsBytes(rest)
    ensures s == EncodeLists(lists) + rest
  {
    hide ValidList, DecodeList, EncodeList, EncodeLists, AllValid, DecodeLists, IsBytes;
    if n == 0 {
      NoLists(s);
    } else {
      var names, after, others := FirstDecoded(n, s, lists, rest);
      EncodeDecodedList(s, names, after);
      EncodeDecodedLists(n - 1, after, others, rest);
      OneMoreList(s, names, after, others, rest);
    }
  }

  /** Every accepted payload is, byte for byte, the encoding of its cookie, its lists and its flag. */
  lemma EncodeDecodedPayload(payload: string, lists: seq<NameList>)
    requires IsBytes(payload) && DecodePayload(payload) == Ok(lists)
    ensures |lists| == ListCount() && AllValid(lists)
    ensures |payload| >= 17
    ensures payload == Payload(payload[1..17], lists, false) || payload == Payload(payload[1..17], lists, true)
  {
    hide AllValid, DecodeLists, EncodeLists, DecodeTrailer, Trailer;
    var rest := DecodeLists(ListCount(), payload[17..]).value.1;
    EncodeDecodedLists(ListCount(), payload[17..], lists, rest);
    TrailerDecodes(rest);
    assert payload == [payload[0]] + payload[1..17] + payload[17..];
  }

  // ----- Framing -----

  /** The framing rules of section 6 of RFC 4253, with the size limit. */
  predicate Framed(payload: string, padding: string) {
    && |payload| >= 1
    && 4 <= |padding| < 256
    && 4 + 1 + |payload| + |padding| <= MAX_TOTAL_PACKET_BYTES
    && (4 + 1 + |payload| + |padding|) % 8 == 0
  }

  function Frame(payload: string, padding: string): string
    requires Framed(payload, padding)
  {
    EncodeU32(1 + |payload| + |padding|) + ([ByteAt(|padding|)] + payload + padding)
  }

  /** A reader takes the payload out of any frame, whatever follows it. */
  lemma UnframeFrame(payload: string, padding: string, rest: string)
    requires Framed(payload, padding)
    ensures DecodePacket(Frame(payload, padding) + rest) == DecodePayload(payload)
  {
    hide DecodePayload, DecodeU32, EncodeU32;
    var packetLength := 1 + |payload| + |padding|;
    var packet := [ByteAt(|padding|)] + payload + padding;
    var stream := Frame(payload, padding) + rest;
    DecodeEncodeU32(packetLength);
    assert stream[..4] == EncodeU32(packetLength);
    assert stream[4..4 + packetLength] == packet;
    assert packet[1..packetLength - |padding|] == payload;
  }

  lemma SliceIsBytes(s: string, i: nat, j: nat)
    requires IsBytes(s) && i <= j <= |s|
    ensures IsBytes(s[i..j])
  {
    hide IsByte;
    forall k | 0 <= k < j - i ensures IsByte(s[i..j][k]) {
      assert s[i..j][k] == s[i + k];
    }
  }

  /** An accepted stream begins with a frame around the payload that was accepted. */
  lemma FrameUnframed(stream: string) returns (payload: string, padding: string)
    requires IsBytes(stream) && DecodePacket(stream).Ok?
    ensures Framed(payload, padding) && IsBytes(payload)
    ensures Frame(payload, padding) <= stream
    ensures DecodePayload(payload) == DecodePacket(stream)
  {
    hide DecodePayload, DecodeU32, EncodeU32;
    var packetLength := DecodeU32(stream[..4]);
    var packet := stream[4..4 + packetLength];
    var paddingLength := packet[0] as int;
    payload := packet[1..packetLength - paddingLength];
    padding := packet[packetLength - paddingLength..];
    SliceIsBytes(stream, 0, 4);
    EncodeDecodeU32(stream[..4]);
    SliceIsBytes(stream, 4, 4 + packetLength);
    assert IsByte(packet[0]);
    SliceIsBytes(packet, 1, packetLength - paddingLength);
    assert packet == [ByteAt(paddingLength)] + payload + padding;
    assert stream[..4 + packetLength] == stream[..4] + packet;
    assert Frame(payload, padding) == stream[..4 + packetLength];
  }

  lemma AcceptedFrame(stream: string, lists: seq<NameList>) returns (cookie: string, follows: bool, padding: string)
    requires IsBytes(stream) && DecodePacket(stream) == Ok(lists)
    ensures IsKexinitFrame(stream, cookie, lists, follows, padding)
  {
    hide DecodePacket, DecodePayload, Framed, Frame, Payload, AllValid;
    var payload;
    payload, padding := FrameUnframed(stream);
    EncodeDecodedPayload(payload, lists);
    cookie := payload[1..17];
    follows := payload == Payload(cookie, lists, true);
  }

  lemma FrameAccepted(stream: string, cookie: string, lists: seq<NameList>, follows: bool, padding: string)
    requires IsKexinitFrame(stream, cookie, lists, follows, padding)
    ensures DecodePacket(stream) == Ok(lists)
  {
    hide DecodePacket, DecodePayload, Framed, Payload, AllValid;
    var payload := Payload(cookie, lists, follows);
    var frame := Frame(payload, padding);
    assert stream == frame + stream[|frame|..];
    UnframeFrame(payload, padding, stream[|frame|..]);
    DecodeEncodedPayload(cookie, lists, follows);
  }

  /** What the packet reader accepts, exactly: a frame around the encoding of a cookie, ten valid
      name-lists and a flag; and the lists it returns are those. */
  lemma AcceptsExactly(stream: string, lists: seq<NameList>)
    requires IsBytes(stream)
    ensures DecodePacket(stream) == Ok(lists) <==>
            exists cookie, follows, padding :: IsKexinitFrame(stream, cookie, lists, follows, padding)
  {
    hide DecodePacket, DecodePayload, IsKexinitFrame;
    if DecodePacket(stream) == Ok(lists) {
      var cookie, follows, padding := AcceptedFrame(stream, lists);
    }
    forall cookie, follows, padding | IsKexinitFrame(stream, cookie, lists, follows, padding)
      ensures DecodePacket(stream) == Ok(lists)
    {
      FrameAccepted(stream, cookie, lists, follows, padding);
    }
  }

  predicate IsKexinitFrame(stream: string, cookie: string, lists: seq<NameList>, follows: bool, padding: string) {
    && |cookie| == 16 && IsBytes(cookie)
    && |lists| == ListCount() && AllValid(lists)
    && Framed(Payload(cookie, lists, follows), padding)
    && Frame(Payload(cookie, lists, follows), padding) <= stream
  }

  /** Building a packet and reading it back gives the same ten name-lists, for every valid choice of
      lists that fits the packet limit, and whatever follows on the stream. */
  lemma PacketRoundTrip(cookie: string, lists: seq<NameList>, follows: bool, random: string, rest: string)
    requires |cookie| == 16 && IsBytes(cookie) && |random| == 16
    requires |lists| == ListCount() && AllValid(lists)
    requires FitsPacket(Payload(cookie, lists, follows))
    ensures DecodePacket(Packet(Payload(cookie, lists, follows), random) + rest) == Ok(lists)
  {
    var payload := Payload(cookie, lists, follows);
    var padding := random[..PaddingLength(|payload|)];
    PaddingFills(|payload|);
    hide DecodePacket, DecodePayload, Payload, AllValid, EncodeU32, PaddingLength;
    assert Packet(payload, random) == Frame(payload, padding);
    UnframeFrame(payload, padding, rest);
    DecodeEncodedPayload(cookie, lists, follows);
  }

  // ----- The client's packet -----

  method AppendNameList(payload0: string, names: NameList) returns (payload: string)
    requires |Join(names, ',')| < U32_LIMIT
    ensures payload == payload0 + EncodeList(names)
  {
    var value := Join(names, ',');
    payload := payload0 + EncodeU32(|value|);
    payload := payload + value;
  }

  lemma {:induction false} EncodeListsAppend(lists: seq<NameList>, names: NameList)
    requires Encodable(lists) && |Join(names, ',')| < U32_LIMIT
    ensures EncodeLists(lists + [names]) == EncodeLists(lists) + EncodeList(names)
  {
    if lists == [] {
      assert lists + [names] == [names];
    } else {
      EncodeListsAppend(lists[1..], names);
      assert (lists + [names])[1..] == lists[1..] + [names];
    }
  }

  /** The loop over the name-lists. */
  method AppendNameLists(payload0: string, lists: seq<NameList>) returns (payload: string)
    requires Encodable(lists)
    ensures payload == payload0 + EncodeLists(lists)
  {
    hide EncodeList;
    payload := payload0;
    var i := 0;
    while i < |lists|
      invariant 0 <= i <= |lists|
      invariant payload == payload0 + EncodeLists(lists[..i])
    {
      payload := AppendNameList(payload, lists[i]);
      EncodeListsAppend(lists[..i], lists[i]);
      assert lists[..i + 1] == lists[..i] + [lists[i]];
      i := i + 1;
    }
    assert lists[..i] == lists;
  }

  /** Builds the packet for any lists; the cookie and the padding come from the random source. */
  method KexinitPacket(lists: seq<NameList>, cookie: string, random: string) returns (packet: string)
    requires |cookie| == 16 && |random| == 16
    requires Encodable(lists) && |Payload(cookie, lists, false)| + 17 < U32_LIMIT
    ensures packet == Packet(Payload(cookie, lists, false), random)
    ensures |packet| % 8 == 0
  {
    hide EncodeLists, EncodeU32;
    var payload := [SSH_MSG_KEXINIT];
    payload := payload + cookie;
    payload := AppendNameLists(payload, lists);
    payload := payload + [ByteAt(0)];
    payload := payload + EncodeU32(0);
    assert payload == Payload(cookie, lists, false);
    var paddingLength := 8 - (4 + 1 + |payload|) % 8;
    if paddingLength < 4 {
      paddingLength := paddingLength + 8;
    }
    var packetLength := 1 + |payload| + paddingLength;
    packet := EncodeU32(packetLength);
    packet := packet + [ByteAt(paddingLength)];
    packet := packet + payload;
    packet := packet + random[..paddingLength];
    PaddingFills(|payload|);
  }

  // ----- Reading the server's packet -----

  class Cursor {
    const bytes: string
    var position: nat

    ghost predicate Valid()
      reads this
    {
      position <= |bytes|
    }

    /** What is still to be read. */
    ghost function Rest(): string
      reads this
      requires Valid()
    {
      bytes[position..]
    }

    constructor (bytes: string)
      ensures Valid() && this.bytes == bytes && position == 0
    {
      this.bytes := bytes;
      position := 0;
    }

    method Take(length: nat) returns (r: Result<string, Error>)
      requires Valid()
      modifies this
      ensures Valid()
      ensures if length <= |old(Rest())|
              then r == Ok(old(Rest())[..length]) && Rest() == old(Rest())[length..]
              else r == Err(PayloadTruncated) && position == old(position)
    {
      var end := position + length;
      if end > |bytes| {
        return Err(PayloadTruncated);
      }
      r := Ok(bytes[position..end]);
      assert bytes[end..] == bytes[position..][length..] && bytes[position..end] == bytes[position..][..length];
      position := end;
    }

    method Byte() returns (r: Result<char, Error>)
      requires Valid()
      modifies this
      ensures Valid()
      ensures if old(Rest()) != []
              then r == Ok(old(Rest())[0]) && Rest() == old(Rest())[1..]
              else r == Err(PayloadTruncated) && position == old(position)
    {
      var taken := Take(1);
      match taken
      case Err(error) => r := Err(error);
      case Ok(value) => r := Ok(value[0]);
    }

    method U32() returns (r: Result<nat, Error>)
      requires Valid()
      modifies this
      ensures Valid()
      ensures if 4 <= |old(Rest())|
              then r == Ok(DecodeU32(old(Rest())[..4])) && Rest() == old(Rest())[4..]
              else r == Err(PayloadTruncated) && position == old(position)
    {
      var taken := Take(4);
      match taken
      case Err(error) => r := Err(error);
      case Ok(value) => r := Ok(DecodeU32(value));
    }

    method ReadNameList() returns (r: Result<NameList, Error>)
      requires Valid()
      modifies this
      ensures Valid()
      ensures var decoded := DecodeList(old(Rest()));
              if decoded.Ok? then r == Ok(decoded.value.0) && Rest() == decoded.value.1
              else r == Err(decoded.error)
    {
      var length := U32();
      if length.Err? {
        return Err(length.error);
      }
      if length.value > MAX_NAME_LIST_BYTES {
        return Err(ListTooLong);
      }
      var taken := Take(length.value);
      if taken.Err? {
        return Err(taken.error);
      }
      var text := taken.value;
      assert old(Rest())[4..][..length.value] == old(Rest())[4..4 + length.value];
      assert old(Rest())[4..][length.value..] == old(Rest())[4 + length.value..];
      if text == [] {
        return Ok([]);
      }
      if !IsUtf8(text) {
        return Err(ListNotAscii);
      }
      var names := Split(text, ',');
      if |names| > MAX_ALGORITHM_NAMES {
        return Err(TooManyNames);
      }
      if exists i :: 0 <= i < |names| && !ValidAlgorithmName(names[i]) {
        return Err(InvalidName);
      }
      r := Ok(names);
    }
  }

  lemma NothingPrepended(rest: Result<(seq<NameList>, string), Error>)
    ensures Prepended([], rest) == rest
  {
    if rest.Ok? {
      assert [] + rest.value.0 == rest.value.0;
    }
  }

  lemma OnePrepended(lists: seq<NameList>, n: nat, s: string)
    requires n > 0
    ensures DecodeList(s).Err? ==> Prepended(lists, DecodeLists(n, s)) == Err(DecodeList(s).error)
    ensures DecodeList(s).Ok? ==>
              Prepended(lists, DecodeLists(n, s)) ==
                Prepended(lists + [DecodeList(s).value.0], DecodeLists(n - 1, DecodeList(s).value.1))
  {
    hide DecodeList;
    if DecodeList(s).Ok? && DecodeLists(n - 1, DecodeList(s).value.1).Ok? {
      var others := DecodeLists(n - 1, DecodeList(s).value.1).value.0;
      assert lists + ([DecodeList(s).value.0] + others) == lists + [DecodeList(s).value.0] + others;
    }
  }

  lemma AllPrepended(lists: seq<NameList>, s: string)
    ensures Prepended(lists, DecodeLists(0, s)) == Ok((lists, s))
  {
    assert lists + [] == lists;
  }

  /** The loop that reads the name-lists one after the other. */
  method ReadLists(cursor: Cursor, count: nat) returns (r: Result<seq<NameList>, Error>)
    requires cursor.Valid()
    modifies cursor
    ensures cursor.Valid()
    ensures var decoded := DecodeLists(count, old(cursor.Rest()));
            if decoded.Ok? then r == Ok(decoded.value.0) && cursor.Rest() == decoded.value.1
            else r == Err(decoded.error)
  {
    hide DecodeList, DecodeLists, Prepended;
    ghost var all := DecodeLists(count, cursor.Rest());
    var lists: seq<NameList> := [];
    NothingPrepended(all);
    var i := 0;
    while i < count
      invariant 0 <= i <= count && cursor.Valid()
      invariant all == Prepended(lists, DecodeLists(count - i, cursor.Rest()))
    {
      OnePrepended(lists, count - i, cursor.Rest());
      var names := cursor.ReadNameList();
      if names.Err? {
        return Err(names.error);
      }
      lists := lists + [names.value];
      i := i + 1;
    }
    AllPrepended(lists, cursor.Rest());
    r := Ok(lists);
  }

  /** The flag, the reserved field and the end of the payload. */
  method ReadTrailer(cursor: Cursor) returns (problem: Option<Error>)
    requires cursor.Valid()
    modifies cursor
    ensures cursor.Valid()
    ensures problem == DecodeTrailer(old(cursor.Rest()))
  {
    ghost var rest := cursor.Rest();
    var follows := cursor.Byte();
    if follows.Err? {
      return Some(follows.error);
    }
    if follows.value as int > 1 {
      return Some(InvalidBoolean);
    }
    var reserved := cursor.U32();
    if reserved.Err? {
      return Some(reserved.error);
    }
    assert rest[1..][..4] == rest[1..5];
    if reserved.value != 0 {
      return Some(InvalidReserved);
    }
    if |cursor.bytes| - cursor.position != 0 {
      assert cursor.Rest() != [];
      return Some(TrailingBytes);
    }
    assert |cursor.Rest()| == 0;
    problem := None;
  }

  method ParseKexinit(payload: string) returns (r: Result<seq<NameList>, Error>)
    ensures r == DecodePayload(payload)
  {
    hide DecodeLists, DecodeTrailer;
    var cursor := new Cursor(payload);
    assert cursor.Rest() == payload;
    var kind := cursor.Byte();
    if kind.Err? {
      return Err(kind.error);
    }
    if kind.value != SSH_MSG_KEXINIT {
      return Err(NotKexinit);
    }
    var cookie := cursor.Take(16);
    if cookie.Err? {
      return Err(cookie.error);
    }
    assert cursor.Rest() == payload[17..];
    var parsed := ReadLists(cursor, ListCount());
    if parsed.Err? {
      return Err(parsed.error);
    }
    var problem := ReadTrailer(cursor);
    if problem.Some? {
      return Err(problem.value);
    }
    r := Ok(parsed.value);
  }

  /** The outcome of the whole when these lists have been read and the rest decodes like this. */
  function Prepended(lists: seq<NameList>, rest: Result<(seq<NameList>, string), Error>)
    : Result<(seq<NameList>, string), Error> {
    if rest.Ok? then Ok((lists + rest.value.0, rest.value.1)) else rest
  }

  method ReadServerKexinit(stream: string) returns (r: Result<seq<NameList>, Error>)
    ensures r == DecodePacket(stream)
  {
    if |stream| < PACKET_LENGTH_FIELD_BYTES {
      return Err(LengthTruncated);
    }
    var packetLength := DecodeU32(stream[..4]);
    if packetLength > MAX_PACKET_LENGTH_FIELD_VALUE {
      return Err(TooLarge);
    }
    if packetLength < 12 || (packetLength + 4) % 8 != 0 {
      return Err(InvalidLength);
    }
    if |stream| - 4 < packetLength {
      return Err(PacketTruncated);
    }
    var packet := stream[4..4 + packetLength];
    var paddingLength := packet[0] as int;
    if paddingLength < 4 || paddingLength >= packetLength - 1 {
      return Err(InvalidPadding);
    }
    var payloadEnd := packetLength - paddingLength;
    r := ParseKexinit(packet[1..payloadEnd]);
  }
}
