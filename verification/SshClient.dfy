/** The client's own KEXINIT packet: the fixed preference lists, built into one valid frame. */
module SshClient {
  import opened Bytes
  import opened SshKexinit
  import opened SshNegotiation
  import opened Wrappers

  function ClientLists(): seq<NameList> {
    [KEX_ALGORITHMS, HOST_KEY_ALGORITHMS, CIPHER_ALGORITHMS, CIPHER_ALGORITHMS, MAC_ALGORITHMS,
     MAC_ALGORITHMS, COMPRESSION_ALGORITHMS, COMPRESSION_ALGORITHMS, [], []]
  }

  /** Standard names, without the domain that a private name carries. */
  predicate PlainName(name: string) {
    0 < |name| <= 64 && forall i :: 0 <= i < |name| ==> IsGraphic(name[i]) && name[i] != ',' && name[i] != '@'
  }

  predicate PlainList(names: NameList) {
    |names| <= 8 && forall i :: 0 <= i < |names| ==> PlainName(names[i])
  }

  lemma {:induction false} NoSeparatorNoSplit(s: string, separator: char)
    requires separator !in s
    ensures Split(s, separator) == [s]
  {
    if s != [] {
      NoSeparatorNoSplit(s[1..], separator);
      assert [s[0]] + s[1..] == s;
    }
  }

  lemma PlainNameIsValid(name: string)
    requires PlainName(name)
    ensures ValidAlgorithmName(name)
  {
    NoSeparatorNoSplit(name, '@');
  }

  lemma {:induction false} JoinLength(names: NameList)
    requires forall i :: 0 <= i < |names| ==> PlainName(names[i])
    ensures |Join(names, ',')| <= 65 * |names|
  {
    if |names| > 1 {
      JoinLength(names[1..]);
    }
  }

  lemma PlainListIsValid(names: NameList)
    requires PlainList(names)
    ensures ValidList(names) && |Join(names, ',')| <= 520
  {
    JoinLength(names);
    forall i | 0 <= i < |names| ensures ValidAlgorithmName(names[i]) {
      PlainNameIsValid(names[i]);
    }
  }

  lemma StrongKexIsPlain()
    ensures PlainName("curve25519-sha256") && PlainName("ecdh-sha2-nistp256")
  {
  }

  lemma Group16IsPlain() ensures PlainName("diffie-hellman-group16-sha512") {}

  lemma Group14IsPlain() ensures PlainName("diffie-hellman-group14-sha256") {}

  lemma LegacyKexIsPlain()
    ensures PlainName("diffie-hellman-group14-sha1") && PlainName("diffie-hellman-group1-sha1")
  {
  }

  lemma KexIsPlain()
    ensures PlainList(KEX_ALGORITHMS)
  {
    StrongKexIsPlain();
    Group16IsPlain();
    Group14IsPlain();
    LegacyKexIsPlain();
    hide PlainName;
  }

  lemma Ed25519IsPlain() ensures PlainName("ssh-ed25519") {}

  lemma EcdsaP256IsPlain() ensures PlainName("ecdsa-sha2-nistp256") {}

  lemma RsaSha2IsPlain() ensures PlainName("rsa-sha2-512") && PlainName("rsa-sha2-256") {}

  lemma RsaAndDssIsPlain() ensures PlainName("ssh-rsa") && PlainName("ssh-dss") {}

  lemma HostKeyIsPlain()
    ensures PlainList(HOST_KEY_ALGORITHMS)
  {
    Ed25519IsPlain();
    EcdsaP256IsPlain();
    RsaSha2IsPlain();
    RsaAndDssIsPlain();
    hide PlainName;
  }

  lemma CtrIsPlain() ensures PlainName("aes256-ctr") && PlainName("aes128-ctr") {}

  lemma TripleDesIsPlain() ensures PlainName("3des-cbc") {}

  lemma ArcfourIsPlain() ensures PlainName("arcfour") && PlainName("arcfour128") && PlainName("arcfour256") {}

  lemma CipherIsPlain()
    ensures PlainList(CIPHER_ALGORITHMS)
  {
    CtrIsPlain();
    TripleDesIsPlain();
    ArcfourIsPlain();
    hide PlainName;
  }

  lemma HmacSha2IsPlain() ensures PlainName("hmac-sha2-512") && PlainName("hmac-sha2-256") {}

  lemma HmacSha1IsPlain() ensures PlainName("hmac-sha1") {}

  lemma HmacMd5IsPlain() ensures PlainName("hmac-md5") && PlainName("hmac-md5-96") {}

  lemma MacIsPlain()
    ensures PlainList(MAC_ALGORITHMS)
  {
    HmacSha2IsPlain();
    HmacSha1IsPlain();
    HmacMd5IsPlain();
    hide PlainName;
  }

  lemma CompressionIsPlain() ensures PlainList(COMPRESSION_ALGORITHMS) {}

  lemma {:induction false} EncodedLength(lists: seq<NameList>)
    requires forall i :: 0 <= i < |lists| ==> PlainList(lists[i])
    ensures AllValid(lists) && |EncodeLists(lists)| <= 524 * |lists|
  {
    if lists != [] {
      PlainListIsValid(lists[0]);
      EncodedLength(lists[1..]);
      assert lists == [lists[0]] + lists[1..];
    }
  }

  lemma PlainEmpty() ensures PlainList([]) {}

  lemma ClientPayloadFits(cookie: string)
    requires |cookie| == 16
    ensures |ClientLists()| == ListCount() && AllValid(ClientLists())
    ensures FitsPacket(Payload(cookie, ClientLists(), false))
  {
    KexIsPlain();
    HostKeyIsPlain();
    CipherIsPlain();
    MacIsPlain();
    CompressionIsPlain();
    PlainEmpty();
    hide PlainList, EncodeLists, AllValid;
    var lists := ClientLists();
    assert forall i :: 0 <= i < |lists| ==> PlainList(lists[i]);
    EncodedLength(lists);
    PaddingFills(|Payload(cookie, lists, false)|);
  }

  /** Sends the client's preferences: a well-formed packet that a reader of the same rules takes
      apart into exactly these lists. No conversion in it can fail and no slice is out of range. */
  method ClientKexinitPacket(cookie: string, random: string) returns (packet: string)
    requires |cookie| == 16 && IsBytes(cookie) && |random| == 16 && IsBytes(random)
    ensures DecodePacket(packet) == Ok(ClientLists())
    ensures |packet| % 8 == 0 && |packet| <= MAX_TOTAL_PACKET_BYTES
  {
    hide ClientLists, AllValid, Payload, DecodePacket;
    ClientPayloadFits(cookie);
    packet := KexinitPacket(ClientLists(), cookie, random);
    PacketRoundTrip(cookie, ClientLists(), false, random, []);
    assert packet + [] == packet;
  }
}
