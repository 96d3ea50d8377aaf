/**
 Findings: what every rule emits, and the list made of it, deduplicated and sorted. The wording of
 a rule (title, description, remediation) is fixed with its identifier and is not spelled out.
 */
module Findings {
  import opened Ordering
  import opened Wrappers
  import Cname
  import RsaModulus
  import SshNegotiation

  datatype Severity = Info | Low | Medium | High | Critical

  datatype Category = Network | HttpCategory | TlsCategory | Mail

  datatype Confidence = LowConfidence | MediumConfidence | HighConfidence

  /** The rule identifiers, in the alphabetical order of their texts. */
  datatype RuleId =
    | DnsAxfrAllowed | DnsCnameDanglingIndicator | DnsDnssecBogus | DnsWildcardDetected
    | HttpHstsMissing | HttpHttpsDowngrade | HttpNoHttpsRedirect | HttpSecurityTxtMissing
    | HttpVersionDisclosure | MailDmarcMonitoring | MailSmtpStarttlsNotAdvertised | MailSpfMultiple
    | NetDatabaseExposed | NetSshLegacyAlgorithm | NetSshReachable
    | TlsCertExpired | TlsCertExpiring | TlsCertNotYetValid | TlsCertSha1Signature
    | TlsCertWeakRsaKey | TlsObsoleteProtocol | TlsValidationFailed

  function IdRank(id: RuleId): nat {
    match id
    case DnsAxfrAllowed => 0 case DnsCnameDanglingIndicator => 1 case DnsDnssecBogus => 2
    case DnsWildcardDetected => 3 case HttpHstsMissing => 4 case HttpHttpsDowngrade => 5
    case HttpNoHttpsRedirect => 6 case HttpSecurityTxtMissing => 7 case HttpVersionDisclosure => 8
    case MailDmarcMonitoring => 9 case MailSmtpStarttlsNotAdvertised => 10 case MailSpfMultiple => 11
    case NetDatabaseExposed => 12 case NetSshLegacyAlgorithm => 13 case NetSshReachable => 14
    case TlsCertExpired => 15 case TlsCertExpiring => 16 case TlsCertNotYetValid => 17
    case TlsCertSha1Signature => 18 case TlsCertWeakRsaKey => 19 case TlsObsoleteProtocol => 20
    case TlsValidationFailed => 21
  }

  function SeverityRank(severity: Severity): nat {
    match severity case Info => 0 case Low => 1 case Medium => 2 case High => 3 case Critical => 4
  }

  datatype Evidence = Evidence(location: string, observed: string)

  datatype Finding = Finding(
    id: RuleId, severity: Severity, category: Category, target: string,
    evidence: seq<Evidence>, references: nat, confidence: Confidence)

  function MakeFinding(id: RuleId, severity: Severity, category: Category, target: string,
                       location: string, observed: string, confidence: Confidence): Finding
  {
    Finding(id, severity, category, target, [Evidence(location, observed)], 0, confidence)
  }

  function WithReferences(finding: Finding, count: nat): Finding {
    finding.(references := count)
  }

  // ----- Observations -----

  datatype Dns = Dns(
    chain: seq<Cname.Hop>, dangling: seq<Cname.Observation>,
    wildcard: Option<string>, allowedTransfers: seq<string>, bogus: Option<seq<string>>,
    spf: seq<string>, dmarc: Option<(Option<string>, string)>)

  datatype Port = Port(tcp: bool, open: bool, number: nat, address: string)

  datatype Host = Host(ports: seq<Port>)

  datatype ServiceKind = Ssh | Https | Smtp | OtherService

  datatype Service = Service(
    address: string, port: nat, kind: ServiceKind, highConfidence: bool, banner: Option<string>,
    starttls: bool, ssh: Option<SshNegotiation.Outcome>)

  datatype Http = Http(
    url: string, finalUrl: Option<string>, status: Option<nat>, redirects: seq<string>,
    headers: map<string, string>, securityTxt: Option<bool>)

  datatype Tls = Tls(
    address: string, handshakeSucceeded: bool, errors: seq<string>,
    keyAlgorithm: Option<string>, keyBits: Option<nat>, signature: Option<string>,
    validFrom: Option<int>, validUntil: Option<int>, protocol: Option<string>)

  datatype Observations = Observations(
    dns: Option<Dns>, hosts: seq<Host>, services: seq<Service>, http: seq<Http>, tls: seq<Tls>)

  const DATABASE_PORTS: set<nat> := {
    1433, 1521, 2483, 2484, 3306, 5432, 6379, 7474, 7687, 8123, 9000, 9042, 9200, 11211, 27017, 33060}
  const SHA1_SIGNATURE_OIDS: set<string> := {
    "1.2.840.113549.1.1.5", "1.2.840.10040.4.3", "1.2.840.10045.4.1"}

  // ----- Text -----

  function Decimal(n: int): string
    decreases if n < 0 then 1 - n else n
  {
    if n < 0 then "-" + Decimal(-n)
    else if n < 10 then ["0123456789"[n]]
    else Decimal(n / 10) + ["0123456789"[n % 10]]
  }

  function JoinWith(parts: seq<string>, separator: string): string {
    if parts == [] then ""
    else if |parts| == 1 then parts[0]
    else parts[0] + separator + JoinWith(parts[1..], separator)
  }

  function Or(text: Option<string>, default_: string): string {
    if text.Some? then text.value else default_
  }

  /** `contains` of a text. */
  predicate HasPart(text: string, part: string) {
    exists i :: 0 <= i <= |text| && part <= text[i..]
  }

  predicate IsDigits(text: string) {
    text != [] && forall i :: 0 <= i < |text| ==> '0' <= text[i] <= '9'
  }

  /** The number that digits stand for. */
  function Digits(text: string): nat
    requires forall i :: 0 <= i < |text| ==> '0' <= text[i] <= '9'
  {
    if text == [] then 0
    else Digits(text[..|text| - 1]) * 10 + (text[|text| - 1] as int - '0' as int)
  }

  lemma DigitReads(k: nat)
    requires k < 10
    ensures '0' <= "0123456789"[k] <= '9' && "0123456789"[k] as int - '0' as int == k
  {
  }

  lemma DigitsExtend(front: string, c: char)
    requires IsDigits(front) && '0' <= c <= '9'
    ensures IsDigits(front + [c]) && Digits(front + [c]) == Digits(front) * 10 + (c as int - '0' as int)
  {
    var text := front + [c];
    assert text[..|text| - 1] == front;
  }

  lemma OneDigit(c: char)
    requires '0' <= c <= '9'
    ensures IsDigits([c]) && Digits([c]) == c as int - '0' as int
  {
    assert Digits([c][..0]) == 0;
  }

  /** A number is shown in digits that read back as it, without a leading zero, after a sign when negative. */
  lemma {:induction false} DecimalReads(n: int)
    ensures n >= 0 ==> IsDigits(Decimal(n)) && Digits(Decimal(n)) == n && (Decimal(n)[0] == '0' ==> n == 0)
    ensures n < 0 ==> Decimal(n) == ['-'] + Decimal(-n)
    decreases if n < 0 then 1 - n else n
  {
    hide Digits;
    if n >= 10 {
      DecimalReads(n / 10);
      DigitReads(n % 10);
      DigitsExtend(Decimal(n / 10), "0123456789"[n % 10]);
    } else if n >= 0 {
      DigitReads(n);
      OneDigit("0123456789"[n]);
    }
  }

  /** Joined parts stand in their order with the separator between any two of them. */
  lemma {:induction false} JoinedBetween(parts: seq<string>, separator: string, i: nat)
    requires 0 < i < |parts|
    ensures JoinWith(parts, separator) == JoinWith(parts[..i], separator) + separator + JoinWith(parts[i..], separator)
    ensures JoinWith([parts[0]], separator) == parts[0]
  {
    if i > 1 {
      JoinedBetween(parts[1..], separator, i - 1);
      assert parts[1..][..i - 1] == parts[..i][1..] && parts[1..][i - 1..] == parts[i..];
      var front, back := JoinWith(parts[..i][1..], separator), JoinWith(parts[i..], separator);
      assert parts[0] + separator + (front + separator + back) == (parts[0] + separator + front) + separator + back;
    }
  }

  /** A part is in a text exactly when something stands before it and something after. */
  lemma HasPartExactly(text: string, part: string)
    ensures HasPart(text, part) <==> exists before, after :: text == before + part + after
  {
    if HasPart(text, part) {
      var i :| 0 <= i <= |text| && part <= text[i..];
      assert text == text[..i] + part + text[i..][|part|..];
    }
    if before, after :| text == before + part + after {
      assert part <= text[|before|..];
    }
  }

  function StatusText(status: Option<nat>): string {
    "status " + Decimal(if status.Some? then status.value else 0)
  }

  // ----- The rules -----

  function When(condition: bool, finding: Finding): seq<Finding> {
    if condition then [finding] else []
  }

  function DanglingFinding(target: string, hop: Cname.Hop): Finding {
    MakeFinding(DnsCnameDanglingIndicator, Medium, Network, target, "Primary CNAME chain",
                hop.source + " -> " + hop.target + "; status=NXDOMAIN", MediumConfidence)
  }

  function ZoneFindings(target: string, dns: Dns): seq<Finding> {
    When(dns.wildcard.Some?,
         MakeFinding(DnsWildcardDetected, Info, Network, target, "Wildcard DNS detection",
                     Or(dns.wildcard, ""), HighConfidence))
    + When(dns.allowedTransfers != [],
           MakeFinding(DnsAxfrAllowed, High, Network, target, "Authoritative AXFR",
                       JoinWith(dns.allowedTransfers, " | "), HighConfidence))
    + When(dns.bogus.Some?,
           MakeFinding(DnsDnssecBogus, High, Network, target, "DNSSEC validation",
                       BogusText(dns.bogus), HighConfidence))
  }

  function MailFindings(target: string, dns: Dns): seq<Finding> {
    When(|dns.spf| > 1,
         MakeFinding(MailSpfMultiple, Medium, Mail, target, "DNS TXT", JoinWith(dns.spf, " | "), HighConfidence))
    + When(dns.dmarc.Some? && dns.dmarc.value.0 == Some("none"),
           MakeFinding(MailDmarcMonitoring, Low, Mail, target, "_dmarc TXT",
                       if dns.dmarc.Some? then dns.dmarc.value.1 else "", HighConfidence))
  }

  /** The rules of the DNS and mail groups, after the dangling destinations. */
  function DnsFindings(target: string, dns: Dns): seq<Finding> {
    ZoneFindings(target, dns) + MailFindings(target, dns)
  }

  function BogusText(bogus: Option<seq<string>>): string {
    if bogus.Some? && JoinWith(bogus.value, " | ") != "" then JoinWith(bogus.value, " | ")
    else "aggregate DNSSEC status: bogus"
  }

  function PortFindings(port: Port): seq<Finding> {
    When(port.tcp && port.open && port.number in DATABASE_PORTS,
         MakeFinding(NetDatabaseExposed, High, Network, port.address, "TCP connect", "open", MediumConfidence))
  }

  function SshFindings(service: Service): seq<Finding> {
    if service.kind != Ssh then []
    else
      [MakeFinding(NetSshReachable, Info, Network, service.address, "service banner",
                   Or(service.banner, "SSH identification received"), HighConfidence)]
      + LegacyFindings(service)
  }

  function LegacyFindings(service: Service): seq<Finding> {
    var legacy := if service.ssh.Some? then SshNegotiation.LegacyFinding(service.ssh.value) else None;
    if legacy.None? then []
    else
      [WithReferences(
         MakeFinding(NetSshLegacyAlgorithm, Medium, Network, service.address,
                     "SSH KEXINIT client-first preference intersection",
                     JoinWith(legacy.value, ", "), MediumConfidence), 5)]
  }

  function SmtpFindings(service: Service): seq<Finding> {
    When(service.kind == Smtp && service.highConfidence && HasPart(Or(service.banner, ""), "250") && !service.starttls,
         MakeFinding(MailSmtpStarttlsNotAdvertised, Medium, Mail, service.address, "SMTP EHLO capabilities",
                     Or(service.banner, "EHLO response received"), HighConfidence))
  }

  /** Where the redirects ended. */
  function EffectiveUrl(o: Http): string {
    Or(o.finalUrl, o.url)
  }

  /** The first redirect to a plaintext URL. */
  function Downgrade(redirects: seq<string>): Option<string> {
    if redirects == [] then None
    else if "http://" <= redirects[0] then Some(redirects[0])
    else Downgrade(redirects[1..])
  }

  predicate MissesHsts(o: Http) {
    "https://" <= EffectiveUrl(o) && "strict-transport-security" !in o.headers
  }

  function Header(o: Http, name: string): Option<string> {
    if name in o.headers then Some(o.headers[name]) else None
  }

  function TransportFindings(target: string, o: Http): seq<Finding> {
    When(!("https://" <= o.url) && !("https://" <= EffectiveUrl(o))
         && !(exists i :: 0 <= i < |o.redirects| && "https://" <= o.redirects[i]),
         MakeFinding(HttpNoHttpsRedirect, Medium, HttpCategory, target, o.url, StatusText(o.status), HighConfidence))
    + When(MissesHsts(o),
           MakeFinding(HttpHstsMissing, Medium, HttpCategory, target, o.url, StatusText(o.status), HighConfidence))
    + When("https://" <= o.url && Downgrade(o.redirects).Some?,
           MakeFinding(HttpHttpsDowngrade, High, HttpCategory, target, o.url,
                       Or(Downgrade(o.redirects), EffectiveUrl(o)), HighConfidence))
  }

  function ContentFindings(target: string, o: Http): seq<Finding> {
    When("server" in o.headers || "x-powered-by" in o.headers,
         MakeFinding(HttpVersionDisclosure, Info, HttpCategory, target, o.url,
                     Or(Header(o, "server"), Or(Header(o, "x-powered-by"), "present")), HighConfidence))
    + When(o.securityTxt == Some(false),
           MakeFinding(HttpSecurityTxtMissing, Info, HttpCategory, target, "/.well-known/security.txt",
                       "not found", HighConfidence))
  }

  function HttpFindings(target: string, o: Http): seq<Finding> {
    if o.status.None? then [] else TransportFindings(target, o) + ContentFindings(target, o)
  }

  predicate ExpectsTls(services: seq<Service>, address: string) {
    exists i :: 0 <= i < |services| && services[i].address == address
                && (services[i].kind == Https || services[i].port == 443 || services[i].port == 8443)
  }

  function WeaknessFindings(target: string, o: Tls): seq<Finding> {
    When(RsaModulus.WeakRsaFinding(o.keyAlgorithm, o.keyBits),
         WithReferences(
           MakeFinding(TlsCertWeakRsaKey, Medium, TlsCategory, target, o.address,
                       "public_key_algorithm=" + RsaModulus.RSA_ENCRYPTION_OID + ", public_key_bits="
                       + Decimal(if o.keyBits.Some? then o.keyBits.value else 0), HighConfidence), 2))
    + When(o.signature.Some? && o.signature.value in SHA1_SIGNATURE_OIDS,
           WithReferences(
             MakeFinding(TlsCertSha1Signature, Medium, TlsCategory, target, o.address,
                         "signature_algorithm=" + Or(o.signature, ""), HighConfidence), 2))
    + When(o.protocol == Some("TLSv1_0") || o.protocol == Some("TLSv1_1"),
           WithReferences(
             MakeFinding(TlsObsoleteProtocol, Medium, TlsCategory, target, o.address,
                         "protocol_version=" + Or(o.protocol, ""), HighConfidence), 1))
  }

  function ValidityFindings(target: string, o: Tls, now: int): seq<Finding> {
    if o.validFrom.Some? && o.validFrom.value > now then
      [MakeFinding(TlsCertNotYetValid, High, TlsCategory, target, o.address,
                   "valid_from_unix=" + Decimal(o.validFrom.value), HighConfidence)]
    else if o.validUntil.None? then []
    else
      var remaining := o.validUntil.value - now;
      if remaining < 0 then
        [MakeFinding(TlsCertExpired, High, TlsCategory, target, o.address,
                     "valid_until_unix=" + Decimal(o.validUntil.value), HighConfidence)]
      else
        When(o.handshakeSucceeded && remaining < 30 * 24 * 60 * 60,
             MakeFinding(TlsCertExpiring, Low, TlsCategory, target, o.address,
                         "remaining_days=" + Decimal(remaining / 86_400), HighConfidence))
  }

  function TlsFindings(target: string, services: seq<Service>, o: Tls, now: int): seq<Finding> {
    When(ExpectsTls(services, o.address) && !o.handshakeSucceeded,
         MakeFinding(TlsValidationFailed, High, TlsCategory, target, o.address,
                     if o.errors != [] then o.errors[0] else "handshake failed", MediumConfidence))
    + WeaknessFindings(target, o)
    + ValidityFindings(target, o, now)
  }

  // ----- Each rule has one body -----

  /** What a rule fixes besides target and evidence. */
  function Body(id: RuleId): (Severity, Category, nat, Confidence) {
    match id
    case DnsAxfrAllowed => (High, Network, 0, HighConfidence)
    case DnsCnameDanglingIndicator => (Medium, Network, 0, MediumConfidence)
    case DnsDnssecBogus => (High, Network, 0, HighConfidence)
    case DnsWildcardDetected => (Info, Network, 0, HighConfidence)
    case HttpHstsMissing => (Medium, HttpCategory, 0, HighConfidence)
    case HttpHttpsDowngrade => (High, HttpCategory, 0, HighConfidence)
    case HttpNoHttpsRedirect => (Medium, HttpCategory, 0, HighConfidence)
    case HttpSecurityTxtMissing => (Info, HttpCategory, 0, HighConfidence)
    case HttpVersionDisclosure => (Info, HttpCategory, 0, HighConfidence)
    case MailDmarcMonitoring => (Low, Mail, 0, HighConfidence)
    case MailSmtpStarttlsNotAdvertised => (Medium, Mail, 0, HighConfidence)
    case MailSpfMultiple => (Medium, Mail, 0, HighConfidence)
    case NetDatabaseExposed => (High, Network, 0, MediumConfidence)
    case NetSshLegacyAlgorithm => (Medium, Network, 5, MediumConfidence)
    case NetSshReachable => (Info, Network, 0, HighConfidence)
    case TlsCertExpired => (High, TlsCategory, 0, HighConfidence)
    case TlsCertExpiring => (Low, TlsCategory, 0, HighConfidence)
    case TlsCertNotYetValid => (High, TlsCategory, 0, HighConfidence)
    case TlsCertSha1Signature => (Medium, TlsCategory, 2, HighConfidence)
    case TlsCertWeakRsaKey => (Medium, TlsCategory, 2, HighConfidence)
    case TlsObsoleteProtocol => (Medium, TlsCategory, 1, HighConfidence)
    case TlsValidationFailed => (High, TlsCategory, 0, MediumConfidence)
  }

  predicate HasBody(f: Finding) {
    (f.severity, f.category, f.references, f.confidence) == Body(f.id)
  }

  predicate AllHaveBody(findings: seq<Finding>) {
    forall i :: 0 <= i < |findings| ==> HasBody(findings[i])
  }

  /** Findings of one rule with the same target and evidence are the same finding. */
  predicate SameKey(a: Finding, b: Finding) {
    a.id == b.id && a.target == b.target && a.evidence == b.evidence
  }

  lemma BodyFollowsId(a: Finding, b: Finding)
    requires HasBody(a) && HasBody(b) && SameKey(a, b)
    ensures a == b
  {
  }

  // ----- The emitted list -----

  function FlatPorts(ports: seq<Port>): seq<Finding> {
    if ports == [] then [] else FlatPorts(ports[..|ports| - 1]) + PortFindings(ports[|ports| - 1])
  }

  function FlatHosts(hosts: seq<Host>): seq<Finding> {
    if hosts == [] then [] else FlatHosts(hosts[..|hosts| - 1]) + FlatPorts(hosts[|hosts| - 1].ports)
  }

  function FlatSsh(services: seq<Service>): seq<Finding> {
    if services == [] then [] else FlatSsh(services[..|services| - 1]) + SshFindings(services[|services| - 1])
  }

  function FlatSmtp(services: seq<Service>): seq<Finding> {
    if services == [] then [] else FlatSmtp(services[..|services| - 1]) + SmtpFindings(services[|services| - 1])
  }

  function FlatHttp(target: string, http: seq<Http>): seq<Finding> {
    if http == [] then [] else FlatHttp(target, http[..|http| - 1]) + HttpFindings(target, http[|http| - 1])
  }

  function FlatTls(target: string, services: seq<Service>, tls: seq<Tls>, now: int): seq<Finding> {
    if tls == [] then []
    else FlatTls(target, services, tls[..|tls| - 1], now) + TlsFindings(target, services, tls[|tls| - 1], now)
  }

  function FlatDangling(target: string, hops: seq<Cname.Hop>): seq<Finding> {
    seq(|hops|, i requires 0 <= i < |hops| => DanglingFinding(target, hops[i]))
  }

  function FlatDns(target: string, dns: Option<Dns>): seq<Finding> {
    if dns.None? then []
    else
      FlatDangling(target, Cname.DanglingHops(dns.value.chain, dns.value.chain, dns.value.dangling))
      + DnsFindings(target, dns.value)
  }

  /** Everything that is pushed, in its order. */
  function Emitted(target: string, o: Observations, now: int): seq<Finding> {
    FlatDns(target, o.dns)
    + (FlatHosts(o.hosts) + FlatSsh(o.services) + FlatSmtp(o.services))
    + FlatHttp(target, o.http) + FlatTls(target, o.services, o.tls, now)
  }

  lemma ZoneHasBody(target: string, dns: Dns)
    ensures AllHaveBody(ZoneFindings(target, dns))
  {
    hide JoinWith, BogusText, Or;
  }

  lemma MailHasBody(target: string, dns: Dns)
    ensures AllHaveBody(MailFindings(target, dns))
  {
    hide JoinWith;
  }

  lemma DnsHaveBody(target: string, dns: Dns)
    ensures AllHaveBody(DnsFindings(target, dns))
  {
    ZoneHasBody(target, dns);
    MailHasBody(target, dns);
    hide ZoneFindings, MailFindings, HasBody;
  }

  lemma PortHasBody(port: Port)
    ensures AllHaveBody(PortFindings(port))
  {
  }

  lemma ServiceHasBody(service: Service)
    ensures AllHaveBody(SshFindings(service)) && AllHaveBody(SmtpFindings(service))
  {
    hide JoinWith, SshNegotiation.LegacyFinding;
  }

  lemma TransportHasBody(target: string, o: Http)
    ensures AllHaveBody(TransportFindings(target, o))
  {
    hide StatusText, Or;
  }

  lemma ContentHasBody(target: string, o: Http)
    ensures AllHaveBody(ContentFindings(target, o))
  {
    hide Or;
  }

  lemma HttpHasBody(target: string, o: Http)
    ensures AllHaveBody(HttpFindings(target, o))
  {
    hide TransportFindings, ContentFindings, HasBody;
    TransportHasBody(target, o);
    ContentHasBody(target, o);
  }

  lemma WeaknessHasBody(target: string, o: Tls)
    ensures AllHaveBody(WeaknessFindings(target, o))
  {
    hide Decimal, Or, RsaModulus.WeakRsaFinding;
  }

  lemma ValidityHasBody(target: string, o: Tls, now: int)
    ensures AllHaveBody(ValidityFindings(target, o, now))
  {
    hide Decimal;
  }

  lemma TlsHasBody(target: string, services: seq<Service>, o: Tls, now: int)
    ensures AllHaveBody(TlsFindings(target, services, o, now))
  {
    WeaknessHasBody(target, o);
    ValidityHasBody(target, o, now);
    hide WeaknessFindings, ValidityFindings, ExpectsTls;
  }

  lemma BodyConcat(a: seq<Finding>, b: seq<Finding>)
    requires AllHaveBody(a) && AllHaveBody(b)
    ensures AllHaveBody(a + b)
  {
  }

  lemma {:induction false} PortsHaveBody(ports: seq<Port>)
    ensures AllHaveBody(FlatPorts(ports))
  {
    if ports != [] {
      PortsHaveBody(ports[..|ports| - 1]);
      PortHasBody(ports[|ports| - 1]);
    }
  }

  lemma {:induction false} HostsHaveBody(hosts: seq<Host>)
    ensures AllHaveBody(FlatHosts(hosts))
  {
    if hosts != [] {
      HostsHaveBody(hosts[..|hosts| - 1]);
      PortsHaveBody(hosts[|hosts| - 1].ports);
    }
  }

  lemma NoBody()
    ensures AllHaveBody([])
  {
  }

  lemma {:induction false} ServicesHaveBody(services: seq<Service>)
    ensures AllHaveBody(FlatSsh(services)) && AllHaveBody(FlatSmtp(services))
  {
    hide SshFindings, SmtpFindings, AllHaveBody;
    if services == [] {
      NoBody();
    } else {
      var last := services[|services| - 1];
      ServicesHaveBody(services[..|services| - 1]);
      ServiceHasBody(last);
      BodyConcat(FlatSsh(services[..|services| - 1]), SshFindings(last));
      BodyConcat(FlatSmtp(services[..|services| - 1]), SmtpFindings(last));
    }
  }

  lemma {:induction false} HttpHaveBody(target: string, http: seq<Http>)
    ensures AllHaveBody(FlatHttp(target, http))
  {
    hide HttpFindings;
    if http != [] {
      HttpHaveBody(target, http[..|http| - 1]);
      HttpHasBody(target, http[|http| - 1]);
    }
  }

  lemma {:induction false} TlsHaveBody(target: string, services: seq<Service>, tls: seq<Tls>, now: int)
    ensures AllHaveBody(FlatTls(target, services, tls, now))
  {
    hide TlsFindings;
    if tls != [] {
      TlsHaveBody(target, services, tls[..|tls| - 1], now);
      TlsHasBody(target, services, tls[|tls| - 1], now);
    }
  }

  /** Every emitted finding has the body of its rule. */
  lemma EmittedHaveBody(target: string, o: Observations, now: int)
    ensures AllHaveBody(Emitted(target, o, now))
  {
    if o.dns.Some? {
      DnsHaveBody(target, o.dns.value);
    }
    HostsHaveBody(o.hosts);
    ServicesHaveBody(o.services);
    HttpHaveBody(target, o.http);
    TlsHaveBody(target, o.services, o.tls, now);
    assert AllHaveBody(FlatDns(target, o.dns)) by {
      hide DnsFindings, Cname.DanglingHops;
    }
    hide FlatHosts, FlatSsh, FlatSmtp, FlatHttp, FlatTls, FlatDns, AllHaveBody;
    BodyConcat(FlatHosts(o.hosts), FlatSsh(o.services));
    BodyConcat(FlatHosts(o.hosts) + FlatSsh(o.services), FlatSmtp(o.services));
    var exposed := FlatHosts(o.hosts) + FlatSsh(o.services) + FlatSmtp(o.services);
    BodyConcat(FlatDns(target, o.dns), exposed);
    BodyConcat(FlatDns(target, o.dns) + exposed, FlatHttp(target, o.http));
    BodyConcat(FlatDns(target, o.dns) + exposed + FlatHttp(target, o.http), FlatTls(target, o.services, o.tls, now));
  }

  // ----- Order -----

  predicate EvidenceLeq(a: seq<Evidence>, b: seq<Evidence>) {
    a == [] || (b != [] && if a[0] == b[0] then EvidenceLeq(a[1..], b[1..])
                           else OneEvidenceLeq(a[0], b[0]))
  }

  predicate OneEvidenceLeq(a: Evidence, b: Evidence) {
    if a.location == b.location then StringLeq(a.observed, b.observed) else StringLeq(a.location, b.location)
  }

  /** Severity from the highest, then identifier, target and evidence. */
  predicate FindingLeq(a: Finding, b: Finding) {
    if a.severity != b.severity then SeverityRank(a.severity) > SeverityRank(b.severity)
    else if a.id != b.id then IdRank(a.id) < IdRank(b.id)
    else if a.target != b.target then StringLeq(a.target, b.target)
    else EvidenceLeq(a.evidence, b.evidence)
  }

  lemma OneEvidenceOrder(a: Evidence, b: Evidence, c: Evidence)
    ensures OneEvidenceLeq(a, b) || OneEvidenceLeq(b, a)
    ensures OneEvidenceLeq(a, b) && OneEvidenceLeq(b, a) ==> a == b
    ensures OneEvidenceLeq(a, b) && OneEvidenceLeq(b, c) ==> OneEvidenceLeq(a, c)
  {
    StringTotal(a.location, b.location);
    StringTotal(a.observed, b.observed);
    StringTotal(b.location, c.location);
    StringTotal(a.location, a.location);
    if OneEvidenceLeq(a, b) && OneEvidenceLeq(b, c) {
      if a.location == b.location == c.location {
        StringTransitive(a.observed, b.observed, c.observed);
      } else {
        StringTransitive(a.location, b.location, c.location);
      }
    }
  }

  lemma {:induction false} EvidenceTotal(a: seq<Evidence>, b: seq<Evidence>)
    ensures EvidenceLeq(a, b) || EvidenceLeq(b, a)
    ensures EvidenceLeq(a, b) && EvidenceLeq(b, a) ==> a == b
  {
    if a != [] && b != [] {
      if a[0] == b[0] {
        EvidenceTotal(a[1..], b[1..]);
        assert a == [a[0]] + a[1..] && b == [b[0]] + b[1..];
      } else {
        OneEvidenceOrder(a[0], b[0], a[0]);
      }
    }
  }

  lemma {:induction false} EvidenceTransitive(a: seq<Evidence>, b: seq<Evidence>, c: seq<Evidence>)
    requires EvidenceLeq(a, b) && EvidenceLeq(b, c)
    ensures EvidenceLeq(a, c)
  {
    if a != [] {
      if a[0] == b[0] == c[0] {
        EvidenceTransitive(a[1..], b[1..], c[1..]);
      } else {
        OneEvidenceOrder(a[0], b[0], c[0]);
        OneEvidenceOrder(a[0], b[0], a[0]);
      }
    }
  }

  lemma RanksDecide(a: Finding, b: Finding)
    ensures a.id == b.id <==> IdRank(a.id) == IdRank(b.id)
    ensures a.severity == b.severity <==> SeverityRank(a.severity) == SeverityRank(b.severity)
  {
  }

  lemma FindingTotal(a: Finding, b: Finding)
    ensures FindingLeq(a, b) || FindingLeq(b, a)
    ensures FindingLeq(a, b) && FindingLeq(b, a) ==> a.severity == b.severity && SameKey(a, b)
  {
    StringTotal(a.target, b.target);
    EvidenceTotal(a.evidence, b.evidence);
    hide StringLeq, EvidenceLeq;
    RanksDecide(a, b);
  }

  lemma FindingTransitive(a: Finding, b: Finding, c: Finding)
    requires FindingLeq(a, b) && FindingLeq(b, c)
    ensures FindingLeq(a, c)
  {
    hide StringLeq, EvidenceLeq, IdRank, SeverityRank;
    RanksDecide(a, b);
    RanksDecide(b, c);
    RanksDecide(a, c);
    if a.severity == b.severity == c.severity && a.id == b.id == c.id {
      StringTotal(a.target, b.target);
      if a.target == b.target == c.target {
        EvidenceTransitive(a.evidence, b.evidence, c.evidence);
      } else {
        StringTotal(a.target, a.target);
        StringTotal(b.target, c.target);
        StringTransitive(a.target, b.target, c.target);
      }
    }
  }

  lemma FindingOrder()
    ensures TotalPreorder(FindingLeq)
  {
    forall x: Finding, y: Finding ensures FindingLeq(x, y) || FindingLeq(y, x) {
      FindingTotal(x, y);
    }
    forall x: Finding, y: Finding, z: Finding | FindingLeq(x, y) && FindingLeq(y, z) ensures FindingLeq(x, z) {
      FindingTransitive(x, y, z);
    }
  }

  // ----- When a rule fires -----

  predicate Shows(f: Finding, target: string, location: string, observed: string) {
    f.target == target && f.evidence == [Evidence(location, observed)]
  }

  /** Some observation of the chain says that the name of this hop's destination does not exist. */
  predicate DoesNotExist(dns: Dns, hop: Cname.Hop) {
    exists i, j :: 0 <= i < |dns.dangling| && 0 <= j < |dns.chain|
      && dns.dangling[i].status == Cname.StatusNxDomain
      && Cname.Fold(dns.dangling[i].canonicalTarget) == Cname.Fold(hop.target)
      && Cname.Fold(dns.chain[j].source) == Cname.Fold(dns.dangling[i].sourceAlias)
      && Cname.Fold(dns.chain[j].target) == Cname.Fold(dns.dangling[i].canonicalTarget)
  }

  /** Hop k is the first that leads to its destination, which does not exist. */
  predicate FirstDangling(dns: Dns, k: int) {
    && 0 <= k < |dns.chain| && DoesNotExist(dns, dns.chain[k])
    && forall j :: 0 <= j < k ==> Cname.Fold(dns.chain[j].target) != Cname.Fold(dns.chain[k].target)
  }

  /** What a finding of a DNS rule says about the DNS observation. */
  ghost predicate DnsReason(f: Finding, target: string, dns: Dns) {
    match f.id
    case DnsCnameDanglingIndicator =>
      exists k :: FirstDangling(dns, k)
        && Shows(f, target, "Primary CNAME chain",
                 dns.chain[k].source + " -> " + dns.chain[k].target + "; status=NXDOMAIN")
    case DnsWildcardDetected =>
      dns.wildcard.Some? && Shows(f, target, "Wildcard DNS detection", dns.wildcard.value)
    case DnsAxfrAllowed =>
      dns.allowedTransfers != [] && Shows(f, target, "Authoritative AXFR", JoinWith(dns.allowedTransfers, " | "))
    case DnsDnssecBogus =>
      && dns.bogus.Some?
      && var sets := JoinWith(dns.bogus.value, " | ");
         Shows(f, target, "DNSSEC validation", if sets == "" then "aggregate DNSSEC status: bogus" else sets)
    case MailSpfMultiple => |dns.spf| > 1 && Shows(f, target, "DNS TXT", JoinWith(dns.spf, " | "))
    case MailDmarcMonitoring =>
      dns.dmarc.Some? && dns.dmarc.value.0 == Some("none") && Shows(f, target, "_dmarc TXT", dns.dmarc.value.1)
    case _ => false
  }

  predicate PortReason(f: Finding, port: Port) {
    && f.id == NetDatabaseExposed
    && port.tcp && port.open && port.number in DATABASE_PORTS
    && Shows(f, port.address, "TCP connect", "open")
  }

  ghost predicate ServiceReason(f: Finding, s: Service) {
    match f.id
    case NetSshReachable =>
      && s.kind == Ssh
      && Shows(f, s.address, "service banner", if s.banner.Some? then s.banner.value else "SSH identification received")
    case NetSshLegacyAlgorithm =>
      && s.kind == Ssh && s.ssh.Some? && s.ssh.value.Complete?
      && SshNegotiation.LegacyUse(s.ssh.value.selections) != []
      && Shows(f, s.address, "SSH KEXINIT client-first preference intersection",
               JoinWith(SshNegotiation.LegacyUse(s.ssh.value.selections), ", "))
    case MailSmtpStarttlsNotAdvertised =>
      && s.kind == Smtp && s.highConfidence && s.banner.Some? && HasPart(s.banner.value, "250") && !s.starttls
      && Shows(f, s.address, "SMTP EHLO capabilities", s.banner.value)
    case _ => false
  }

  predicate Secure(url: string) { "https://" <= url }

  predicate Plain(url: string) { "http://" <= url }

  /** Redirect i goes to this plaintext URL, and none before it is plaintext. */
  predicate FirstPlain(redirects: seq<string>, i: int, to: string) {
    && 0 <= i < |redirects| && Plain(redirects[i]) && redirects[i] == to
    && forall j :: 0 <= j < i ==> !Plain(redirects[j])
  }

  ghost predicate HttpReason(f: Finding, target: string, o: Http) {
    && o.status.Some?
    && var final := if o.finalUrl.Some? then o.finalUrl.value else o.url;
       match f.id
       case HttpNoHttpsRedirect =>
         && !Secure(o.url) && !Secure(final) && (forall i :: 0 <= i < |o.redirects| ==> !Secure(o.redirects[i]))
         && Shows(f, target, o.url, "status " + Decimal(o.status.value))
       case HttpHstsMissing =>
         && Secure(final) && "strict-transport-security" !in o.headers
         && Shows(f, target, o.url, "status " + Decimal(o.status.value))
       case HttpHttpsDowngrade =>
         && Secure(o.url)
         && exists i, to :: FirstPlain(o.redirects, i, to) && Shows(f, target, o.url, to)
       case HttpVersionDisclosure =>
         || ("server" in o.headers && Shows(f, target, o.url, o.headers["server"]))
         || ("server" !in o.headers && "x-powered-by" in o.headers
             && Shows(f, target, o.url, o.headers["x-powered-by"]))
       case HttpSecurityTxtMissing =>
         o.securityTxt == Some(false) && Shows(f, target, "/.well-known/security.txt", "not found")
       case _ => false
  }

  /** The leaf certificate is valid only from a later time on. */
  predicate NotYetValid(o: Tls, now: int) {
    o.validFrom.Some? && o.validFrom.value > now
  }

  ghost predicate TlsReason(f: Finding, target: string, services: seq<Service>, o: Tls, now: int) {
    match f.id
    case TlsValidationFailed =>
      && !o.handshakeSucceeded
      && (exists s :: s in services && s.address == o.address && (s.kind == Https || s.port in {443, 8443}))
      && Shows(f, target, o.address, if o.errors == [] then "handshake failed" else o.errors[0])
    case TlsCertWeakRsaKey =>
      && o.keyAlgorithm == Some(RsaModulus.RSA_ENCRYPTION_OID) && o.keyBits.Some? && 0 < o.keyBits.value < 2048
      && Shows(f, target, o.address, "public_key_algorithm=" + RsaModulus.RSA_ENCRYPTION_OID + ", public_key_bits="
                                     + Decimal(o.keyBits.value))
    case TlsCertSha1Signature =>
      && o.signature.Some? && o.signature.value in SHA1_SIGNATURE_OIDS
      && Shows(f, target, o.address, "signature_algorithm=" + o.signature.value)
    case TlsObsoleteProtocol =>
      && o.protocol.Some? && o.protocol.value in {"TLSv1_0", "TLSv1_1"}
      && Shows(f, target, o.address, "protocol_version=" + o.protocol.value)
    case TlsCertNotYetValid =>
      NotYetValid(o, now) && Shows(f, target, o.address, "valid_from_unix=" + Decimal(o.validFrom.value))
    case TlsCertExpired =>
      && !NotYetValid(o, now) && o.validUntil.Some? && o.validUntil.value < now
      && Shows(f, target, o.address, "valid_until_unix=" + Decimal(o.validUntil.value))
    case TlsCertExpiring =>
      && !NotYetValid(o, now) && o.validUntil.Some? && o.handshakeSucceeded
      && now <= o.validUntil.value < now + 2_592_000
      && Shows(f, target, o.address, "remaining_days=" + Decimal((o.validUntil.value - now) / 86_400))
    case _ => false
  }

  /** A finding with the fixed body of its rule for which some observation is the reason. */
  ghost predicate Warranted(f: Finding, target: string, o: Observations, now: int) {
    && HasBody(f)
    && (|| (o.dns.Some? && DnsReason(f, target, o.dns.value))
        || (exists host, port :: host in o.hosts && port in host.ports && PortReason(f, port))
        || (exists s :: s in o.services && ServiceReason(f, s))
        || (exists h :: h in o.http && HttpReason(f, target, h))
        || (exists t :: t in o.tls && TlsReason(f, target, o.services, t, now)))
  }

  lemma RuleSaysSo(dns: Dns, hop: Cname.Hop)
    ensures Cname.ObservedNxDomain(dns.chain, dns.dangling, hop) <==> DoesNotExist(dns, hop)
  {
    hide Cname.Fold;
  }

  lemma DanglingWarranted(f: Finding, target: string, dns: Dns)
    ensures f in FlatDangling(target, Cname.DanglingHops(dns.chain, dns.chain, dns.dangling)) <==>
            HasBody(f) && f.id == DnsCnameDanglingIndicator && DnsReason(f, target, dns)
  {
    hide Cname.DanglingHops, Cname.Fold, Cname.ObservedNxDomain, DoesNotExist;
    var hops := Cname.DanglingHops(dns.chain, dns.chain, dns.dangling);
    forall k | 0 <= k < |dns.chain|
      ensures Cname.ObservedNxDomain(dns.chain, dns.dangling, dns.chain[k]) <==> DoesNotExist(dns, dns.chain[k])
    {
      RuleSaysSo(dns, dns.chain[k]);
    }
    if f in FlatDangling(target, hops) {
      var i :| 0 <= i < |hops| && f == DanglingFinding(target, hops[i]);
      Cname.DanglingHopsExactly(dns.chain, dns.chain, dns.dangling, hops[i]);
      var k :| Cname.FirstObserved(dns.chain, dns.chain, dns.dangling, k) && dns.chain[k] == hops[i];
      assert FirstDangling(dns, k);
    }
    if HasBody(f) && f.id == DnsCnameDanglingIndicator && DnsReason(f, target, dns) {
      var k :| FirstDangling(dns, k) && Shows(f, target, "Primary CNAME chain",
                 dns.chain[k].source + " -> " + dns.chain[k].target + "; status=NXDOMAIN");
      assert Cname.FirstObserved(dns.chain, dns.chain, dns.dangling, k);
      Cname.DanglingHopsExactly(dns.chain, dns.chain, dns.dangling, dns.chain[k]);
      var i :| 0 <= i < |hops| && hops[i] == dns.chain[k];
      assert FlatDangling(target, hops)[i] == f;
    }
  }

  lemma ZoneWarranted(f: Finding, target: string, dns: Dns)
    ensures f in ZoneFindings(target, dns) <==>
            HasBody(f) && f.id in {DnsWildcardDetected, DnsAxfrAllowed, DnsDnssecBogus} && DnsReason(f, target, dns)
  {
    hide JoinWith, FirstDangling;
  }

  lemma MailWarranted(f: Finding, target: string, dns: Dns)
    ensures f in MailFindings(target, dns) <==>
            HasBody(f) && f.id in {MailSpfMultiple, MailDmarcMonitoring} && DnsReason(f, target, dns)
  {
    hide JoinWith, FirstDangling;
  }

  lemma DnsWarranted(f: Finding, target: string, dns: Option<Dns>)
    ensures f in FlatDns(target, dns) <==> HasBody(f) && dns.Some? && DnsReason(f, target, dns.value)
  {
    hide HasBody, ZoneFindings, MailFindings, FlatDangling;
    if dns.Some? {
      DanglingWarranted(f, target, dns.value);
      ZoneWarranted(f, target, dns.value);
      MailWarranted(f, target, dns.value);
    }
  }

  lemma PortWarranted(f: Finding, port: Port)
    ensures f in PortFindings(port) <==> HasBody(f) && PortReason(f, port)
  {
  }

  lemma NoPart(part: string)
    requires part != ""
    ensures !HasPart("", part)
  {
  }

  lemma ServiceWarranted(f: Finding, s: Service)
    ensures f in SshFindings(s) || f in SmtpFindings(s) <==> HasBody(f) && ServiceReason(f, s)
  {
    hide JoinWith, HasPart, SshNegotiation.LegacyFinding, SshNegotiation.LegacyUse;
    if s.ssh.Some? {
      SshNegotiation.LegacyFindingShows(s.ssh.value);
    }
    NoPart("250");
  }

  lemma {:induction false} DowngradeExactly(redirects: seq<string>, to: string)
    ensures Downgrade(redirects) == Some(to) <==>
            exists i :: FirstPlain(redirects, i, to)
  {
    if redirects != [] && Plain(redirects[0]) {
      assert FirstPlain(redirects, 0, redirects[0]);
    } else if redirects != [] {
      DowngradeExactly(redirects[1..], to);
      if Downgrade(redirects) == Some(to) {
        var i :| FirstPlain(redirects[1..], i, to);
        assert forall j :: 0 < j < i + 1 ==> redirects[j] == redirects[1..][j - 1];
        assert FirstPlain(redirects, i + 1, to);
      }
      if exists i :: FirstPlain(redirects, i, to) {
        var i :| FirstPlain(redirects, i, to);
        assert forall j :: 0 <= j < i - 1 ==> redirects[1..][j] == redirects[j + 1];
        assert FirstPlain(redirects[1..], i - 1, to);
      }
    }
  }

  lemma TransportWarranted(f: Finding, target: string, o: Http)
    requires o.status.Some?
    ensures f in TransportFindings(target, o) <==>
            && HasBody(f) && f.id in {HttpNoHttpsRedirect, HttpHstsMissing, HttpHttpsDowngrade}
            && HttpReason(f, target, o)
  {
    hide Decimal, Downgrade, FirstPlain;
    var to := Downgrade(o.redirects);
    if to.Some? {
      DowngradeExactly(o.redirects, to.value);
    }
    forall i, url | FirstPlain(o.redirects, i, url) ensures to == Some(url) {
      DowngradeExactly(o.redirects, url);
    }
    assert forall i :: 0 <= i < |o.redirects| ==> (Secure(o.redirects[i]) <==> "https://" <= o.redirects[i]);
  }

  lemma ContentWarranted(f: Finding, target: string, o: Http)
    requires o.status.Some?
    ensures f in ContentFindings(target, o) <==>
            HasBody(f) && f.id in {HttpVersionDisclosure, HttpSecurityTxtMissing} && HttpReason(f, target, o)
  {
    hide FirstPlain;
  }

  lemma HttpWarranted(f: Finding, target: string, o: Http)
    ensures f in HttpFindings(target, o) <==> HasBody(f) && HttpReason(f, target, o)
  {
    hide HasBody, TransportFindings, ContentFindings;
    if o.status.Some? {
      TransportWarranted(f, target, o);
      ContentWarranted(f, target, o);
    }
  }

  lemma WeaknessWarranted(f: Finding, target: string, services: seq<Service>, o: Tls, now: int)
    ensures f in WeaknessFindings(target, o) <==>
            && HasBody(f) && f.id in {TlsCertWeakRsaKey, TlsCertSha1Signature, TlsObsoleteProtocol}
            && TlsReason(f, target, services, o, now)
  {
    hide Decimal;
  }

  lemma ValidityWarranted(f: Finding, target: string, services: seq<Service>, o: Tls, now: int)
    ensures f in ValidityFindings(target, o, now) <==>
            && HasBody(f) && f.id in {TlsCertNotYetValid, TlsCertExpired, TlsCertExpiring}
            && TlsReason(f, target, services, o, now)
  {
    hide Decimal;
  }

  lemma ExpectsExactly(services: seq<Service>, address: string)
    ensures ExpectsTls(services, address) <==>
            exists s :: s in services && s.address == address && (s.kind == Https || s.port in {443, 8443})
  {
    if ExpectsTls(services, address) {
      var i :| 0 <= i < |services| && services[i].address == address
        && (services[i].kind == Https || services[i].port == 443 || services[i].port == 8443);
      assert services[i] in services;
    }
  }

  lemma TlsWarranted(f: Finding, target: string, services: seq<Service>, o: Tls, now: int)
    ensures f in TlsFindings(target, services, o, now) <==> HasBody(f) && TlsReason(f, target, services, o, now)
  {
    hide WeaknessFindings, ValidityFindings, ExpectsTls, Decimal;
    ExpectsExactly(services, o.address);
    WeaknessWarranted(f, target, services, o, now);
    ValidityWarranted(f, target, services, o, now);
  }

  lemma {:induction false} InFlatHosts(hosts: seq<Host>, f: Finding)
    ensures f in FlatHosts(hosts) <==> exists host :: host in hosts && f in FlatPorts(host.ports)
  {
    hide FlatPorts;
    if hosts != [] {
      InFlatHosts(hosts[..|hosts| - 1], f);
      assert hosts == hosts[..|hosts| - 1] + [hosts[|hosts| - 1]];
    }
  }

  lemma {:induction false} InFlatSsh(services: seq<Service>, f: Finding)
    ensures f in FlatSsh(services) <==> exists s :: s in services && f in SshFindings(s)
  {
    hide SshFindings;
    if services != [] {
      InFlatSsh(services[..|services| - 1], f);
      assert services == services[..|services| - 1] + [services[|services| - 1]];
    }
  }

  lemma {:induction false} InFlatSmtp(services: seq<Service>, f: Finding)
    ensures f in FlatSmtp(services) <==> exists s :: s in services && f in SmtpFindings(s)
  {
    hide SmtpFindings;
    if services != [] {
      InFlatSmtp(services[..|services| - 1], f);
      assert services == services[..|services| - 1] + [services[|services| - 1]];
    }
  }

  lemma {:induction false} InFlatHttp(target: string, http: seq<Http>, f: Finding)
    ensures f in FlatHttp(target, http) <==> exists o :: o in http && f in HttpFindings(target, o)
  {
    hide HttpFindings;
    if http != [] {
      InFlatHttp(target, http[..|http| - 1], f);
      assert http == http[..|http| - 1] + [http[|http| - 1]];
    }
  }

  lemma {:induction false} InFlatTls(target: string, services: seq<Service>, tls: seq<Tls>, now: int, f: Finding)
    ensures f in FlatTls(target, services, tls, now) <==>
            exists o :: o in tls && f in TlsFindings(target, services, o, now)
  {
    hide TlsFindings;
    if tls != [] {
      InFlatTls(target, services, tls[..|tls| - 1], now, f);
      assert tls == tls[..|tls| - 1] + [tls[|tls| - 1]];
    }
  }

  lemma {:induction false} InFlatPorts(ports: seq<Port>, f: Finding)
    ensures f in FlatPorts(ports) <==> exists port :: port in ports && f in PortFindings(port)
  {
    hide PortFindings;
    if ports != [] {
      InFlatPorts(ports[..|ports| - 1], f);
      assert ports == ports[..|ports| - 1] + [ports[|ports| - 1]];
    }
  }

  lemma HostsWarranted(f: Finding, hosts: seq<Host>)
    ensures f in FlatHosts(hosts) <==>
            HasBody(f) && exists host, port :: host in hosts && port in host.ports && PortReason(f, port)
  {
    hide FlatHosts, FlatPorts, HasBody, PortReason, PortFindings;
    InFlatHosts(hosts, f);
    forall host: Host ensures f in FlatPorts(host.ports) <==>
           exists port :: port in host.ports && f in PortFindings(port) {
      InFlatPorts(host.ports, f);
    }
    forall port ensures f in PortFindings(port) <==> HasBody(f) && PortReason(f, port) {
      PortWarranted(f, port);
    }
  }

  lemma ServicesWarranted(f: Finding, services: seq<Service>)
    ensures f in FlatSsh(services) || f in FlatSmtp(services) <==>
            HasBody(f) && exists s :: s in services && ServiceReason(f, s)
  {
    hide FlatSsh, FlatSmtp, HasBody, ServiceReason, SshFindings, SmtpFindings;
    InFlatSsh(services, f);
    InFlatSmtp(services, f);
    forall s ensures f in SshFindings(s) || f in SmtpFindings(s) <==> HasBody(f) && ServiceReason(f, s) {
      ServiceWarranted(f, s);
    }
  }

  /** Exactly the warranted findings are emitted: a rule fires when an observation is its reason. */
  lemma EmittedExactly(f: Finding, target: string, o: Observations, now: int)
    ensures f in Emitted(target, o, now) <==> Warranted(f, target, o, now)
  {
    hide FlatDns, FlatHosts, FlatSsh, FlatSmtp, FlatHttp, FlatTls, HasBody, DnsReason, PortReason, ServiceReason,
         HttpReason, TlsReason, HttpFindings, TlsFindings;
    DnsWarranted(f, target, o.dns);
    HostsWarranted(f, o.hosts);
    ServicesWarranted(f, o.services);
    InFlatHttp(target, o.http, f);
    forall h ensures f in HttpFindings(target, h) <==> HasBody(f) && HttpReason(f, target, h) {
      HttpWarranted(f, target, h);
    }
    InFlatTls(target, o.services, o.tls, now, f);
    forall t ensures f in TlsFindings(target, o.services, t, now) <==>
                     HasBody(f) && TlsReason(f, target, o.services, t, now) {
      TlsWarranted(f, target, o.services, t, now);
    }
  }

  // ----- The generated list -----

  predicate NoRepeatedKey(findings: seq<Finding>) {
    forall i, j :: 0 <= i < j < |findings| ==> !SameKey(findings[i], findings[j])
  }

  lemma InBody(findings: seq<Finding>, f: Finding)
    requires AllHaveBody(findings) && f in findings
    ensures HasBody(f)
  {
  }

  /** `retain` with a growing set of keys: the first finding of each key stays. */
  method Deduplicate(findings: seq<Finding>) returns (kept: seq<Finding>)
    requires AllHaveBody(findings)
    ensures NoRepeatedKey(kept)
    ensures forall f :: f in kept <==> f in findings
  {
    kept := [];
    var seen: set<(RuleId, string, seq<Evidence>)> := {};
    for i := 0 to |findings|
      invariant NoRepeatedKey(kept)
      invariant forall f :: f in kept <==> f in findings[..i]
      invariant forall f :: f in kept ==> (f.id, f.target, f.evidence) in seen
      invariant forall key :: key in seen ==>
                exists k :: 0 <= k < |kept| && (kept[k].id, kept[k].target, kept[k].evidence) == key
    {
      var f := findings[i];
      var key := (f.id, f.target, f.evidence);
      assert findings[..i + 1] == findings[..i] + [f];
      if key !in seen {
        seen := seen + {key};
        assert forall k :: 0 <= k < |kept| ==> !SameKey(kept[k], f) by {
          forall k | 0 <= k < |kept| ensures !SameKey(kept[k], f) {
            assert kept[k] in kept;
          }
        }
        ghost var before := kept;
        kept := kept + [f];
        assert kept[|before|] == f && forall k :: 0 <= k < |before| ==> kept[k] == before[k];
      } else {
        var k :| 0 <= k < |kept| && (kept[k].id, kept[k].target, kept[k].evidence) == key;
        assert kept[k] in findings[..i];
        InBody(findings, kept[k]);
        BodyFollowsId(kept[k], f);
      }
    }
    assert findings[..|findings|] == findings;
  }

  /** Strictly ordered, without repetitions, and exactly the emitted findings. */
  ghost predicate IsGenerated(generated: seq<Finding>, emitted: seq<Finding>) {
    && Ordered(generated, FindingLeq)
    && NoRepeatedKey(generated)
    && forall f :: f in generated <==> f in emitted
  }

  /** Hosts by port, then the services twice: SSH first, SMTP after. */
  method PushExposure(hosts: seq<Host>, services: seq<Service>) returns (findings: seq<Finding>)
    ensures findings == FlatHosts(hosts) + FlatSsh(services) + FlatSmtp(services)
    ensures forall f :: f in findings <==>
              && HasBody(f)
              && (|| (exists host, port :: host in hosts && port in host.ports && PortReason(f, port))
                  || (exists s :: s in services && ServiceReason(f, s)))
  {
    hide FlatPorts, SshFindings, SmtpFindings, HasBody, PortReason, ServiceReason;
    findings := [];
    for i := 0 to |hosts|
      invariant findings == FlatHosts(hosts[..i])
    {
      assert hosts[..i + 1][..i] == hosts[..i];
      findings := findings + FlatPorts(hosts[i].ports);
    }
    assert hosts[..|hosts|] == hosts && services[..|services|] == services;
    ghost var exposed := findings;
    for i := 0 to |services|
      invariant findings == exposed + FlatSsh(services[..i])
    {
      assert services[..i + 1][..i] == services[..i];
      findings := findings + SshFindings(services[i]);
    }
    ghost var reachable := findings;
    for i := 0 to |services|
      invariant findings == reachable + FlatSmtp(services[..i])
    {
      assert services[..i + 1][..i] == services[..i];
      findings := findings + SmtpFindings(services[i]);
    }
    forall f ensures f in findings <==>
               && HasBody(f)
               && (|| (exists host, port :: host in hosts && port in host.ports && PortReason(f, port))
                   || (exists s :: s in services && ServiceReason(f, s)))
    {
      HostsWarranted(f, hosts);
      ServicesWarranted(f, services);
    }
  }

  /** The rules push their findings one group after the other. */
  method Emit(target: string, o: Observations, now: int) returns (emitted: seq<Finding>)
    ensures emitted == Emitted(target, o, now)
    ensures forall f :: f in emitted <==> Warranted(f, target, o, now)
  {
    hide Warranted, FlatHosts, FlatSsh, FlatSmtp, FlatHttp, FlatTls, DnsFindings, FlatDangling, Cname.DanglingHops;
    emitted := [];
    if o.dns.Some? {
      var hops := Cname.DanglingCnameFindings(o.dns.value.chain, o.dns.value.dangling);
      emitted := emitted + FlatDangling(target, hops);
      emitted := emitted + DnsFindings(target, o.dns.value);
    }
    var exposed := PushExposure(o.hosts, o.services);
    emitted := emitted + exposed;
    emitted := emitted + FlatHttp(target, o.http);
    emitted := emitted + FlatTls(target, o.services, o.tls, now);
    forall f ensures f in emitted <==> Warranted(f, target, o, now) {
      EmittedExactly(f, target, o, now);
    }
  }

  lemma {:induction false} Once(a: seq<Finding>, f: Finding)
    requires NoRepeatedKey(a)
    ensures multiset(a)[f] == if f in a then 1 else 0
  {
    if a != [] {
      var front, last := a[..|a| - 1], a[|a| - 1];
      Once(front, f);
      assert a == front + [last];
      if f == last {
        assert f !in front;
      }
    }
  }

  lemma PermutedKeys(a: seq<Finding>, b: seq<Finding>)
    requires NoRepeatedKey(a) && multiset(a) == multiset(b)
    ensures NoRepeatedKey(b)
  {
    forall i, j | 0 <= i < j < |b| ensures !SameKey(b[i], b[j]) {
      if SameKey(b[i], b[j]) {
        assert b[i] in multiset(a) && b[j] in multiset(a);
        assert b[i] == b[j];
        Twice(b, i, j);
        Once(a, b[i]);
      }
    }
  }

  lemma BodiesOfElements(emitted: seq<Finding>, sorted: seq<Finding>)
    requires AllHaveBody(emitted) && forall f :: f in sorted ==> f in emitted
    ensures AllHaveBody(sorted)
  {
    hide HasBody;
    forall i | 0 <= i < |sorted| ensures HasBody(sorted[i]) {
      InBody(emitted, sorted[i]);
    }
  }

  lemma SortGenerates(kept: seq<Finding>, emitted: seq<Finding>)
    requires AllHaveBody(emitted) && NoRepeatedKey(kept)
    requires forall f :: f in kept <==> f in emitted
    ensures IsGenerated(Sort(kept, FindingLeq), emitted)
    ensures AllHaveBody(Sort(kept, FindingLeq))
  {
    hide FindingLeq, Sort, HasBody, NoRepeatedKey, TotalPreorder, Ordered, AllHaveBody;
    FindingOrder();
    SortOrders(kept, FindingLeq);
    var sorted := Sort(kept, FindingLeq);
    SameElements(sorted, kept);
    PermutedKeys(kept, sorted);
    BodiesOfElements(emitted, sorted);
  }

  method GenerateFindings(target: string, o: Observations, now: int)
    returns (findings: seq<Finding>)
    ensures Ordered(findings, FindingLeq) && NoRepeatedKey(findings)
    ensures forall f :: f in findings <==> Warranted(f, target, o, now)
    ensures IsGenerated(findings, Emitted(target, o, now))
    ensures AllHaveBody(findings)
  {
    hide AllHaveBody, Emitted, Warranted, FindingLeq, NoRepeatedKey, Ordered;
    var emitted := Emit(target, o, now);
    EmittedHaveBody(target, o, now);
    var kept := Deduplicate(emitted);
    SortGenerates(kept, emitted);
    findings := Sort(kept, FindingLeq);
    forall f ensures f in findings <==> Warranted(f, target, o, now) {
      EmittedExactly(f, target, o, now);
    }
  }

  // ----- Independence of the order of observations -----

  /** The services only matter as a set to the TLS rules. */
  lemma TlsServiceOrder(target: string, first: seq<Service>, second: seq<Service>, o: Tls, now: int)
    requires forall s :: s in first <==> s in second
    ensures TlsFindings(target, first, o, now) == TlsFindings(target, second, o, now)
  {
    hide WeaknessFindings, ValidityFindings;
    if ExpectsTls(first, o.address) {
      var i :| 0 <= i < |first| && first[i].address == o.address
        && (first[i].kind == Https || first[i].port == 443 || first[i].port == 8443);
      assert first[i] in second;
    }
    if ExpectsTls(second, o.address) {
      var i :| 0 <= i < |second| && second[i].address == o.address
        && (second[i].kind == Https || second[i].port == 443 || second[i].port == 8443);
      assert second[i] in first;
    }
  }

  /** The observations differ in nothing but the order of hosts, services, HTTP and TLS entries. */
  predicate Reordered(a: Observations, b: Observations) {
    && a.dns == b.dns
    && multiset(a.hosts) == multiset(b.hosts)
    && multiset(a.services) == multiset(b.services)
    && multiset(a.http) == multiset(b.http)
    && multiset(a.tls) == multiset(b.tls)
  }

  lemma EmittedSameSet(target: string, a: Observations, b: Observations, now: int, f: Finding)
    requires Reordered(a, b)
    ensures f in Emitted(target, a, now) <==> f in Emitted(target, b, now)
  {
    hide FlatHosts, FlatPorts, FlatSsh, FlatSmtp, FlatHttp, FlatTls, FlatDns, SshFindings, SmtpFindings, HttpFindings,
         TlsFindings;
    SameElements(a.hosts, b.hosts);
    SameElements(a.services, b.services);
    SameElements(a.http, b.http);
    SameElements(a.tls, b.tls);
    InFlatHosts(a.hosts, f);
    InFlatHosts(b.hosts, f);
    InFlatSsh(a.services, f);
    InFlatSsh(b.services, f);
    InFlatSmtp(a.services, f);
    InFlatSmtp(b.services, f);
    InFlatHttp(target, a.http, f);
    InFlatHttp(target, b.http, f);
    InFlatTls(target, a.services, a.tls, now, f);
    InFlatTls(target, b.services, b.tls, now, f);
    forall o ensures TlsFindings(target, a.services, o, now) == TlsFindings(target, b.services, o, now) {
      TlsServiceOrder(target, a.services, b.services, o, now);
    }
  }

  /** A list without repetitions that is strictly ordered is determined by its elements. */
  lemma GeneratedIsUnique(first: seq<Finding>, second: seq<Finding>, a: seq<Finding>, b: seq<Finding>)
    requires IsGenerated(first, a) && IsGenerated(second, b)
    requires AllHaveBody(a) && AllHaveBody(b)
    requires forall f :: f in a <==> f in b
    ensures first == second
  {
    hide FindingLeq, HasBody;
    forall f ensures multiset(first)[f] == multiset(second)[f] {
      Once(first, f);
      Once(second, f);
    }
    assert multiset(first) == multiset(second);
    forall i, j | 0 <= i < |first| && 0 <= j < |first| && FindingLeq(first[i], first[j]) &&
           FindingLeq(first[j], first[i])
      ensures first[i] == first[j]
    {
      FindingTotal(first[i], first[j]);
      assert i < j || j < i || i == j;
    }
    OrderedUnique(first, second, FindingLeq);
  }

  /** The generated list does not depend on the order of hosts, services, HTTP and TLS observations. */
  lemma ObservationOrderIsIrrelevant(target: string, a: Observations, b: Observations, now: int,
                                     first: seq<Finding>, second: seq<Finding>)
    requires Reordered(a, b)
    requires IsGenerated(first, Emitted(target, a, now))
    requires IsGenerated(second, Emitted(target, b, now))
    ensures first == second
  {
    hide IsGenerated, AllHaveBody, Emitted, Reordered;
    EmittedHaveBody(target, a, now);
    EmittedHaveBody(target, b, now);
    forall f ensures f in Emitted(target, a, now) <==> f in Emitted(target, b, now) {
      EmittedSameSet(target, a, b, now, f);
    }
    GeneratedIsUnique(first, second, Emitted(target, a, now), Emitted(target, b, now));
  }
}
