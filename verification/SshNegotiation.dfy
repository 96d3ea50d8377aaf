/**
 Client-first algorithm negotiation (section 7.1 of RFC 4253) inferred from the server's KEXINIT,
 and the finding raised when it lands on a legacy algorithm.
 */
module SshNegotiation {
  import opened Bytes
  import opened SshKexinit
  import opened Wrappers

  const KEX_ALGORITHMS: NameList := [
    "curve25519-sha256", "ecdh-sha2-nistp256", "diffie-hellman-group16-sha512",
    "diffie-hellman-group14-sha256", "diffie-hellman-group14-sha1", "diffie-hellman-group1-sha1"]
  const HOST_KEY_ALGORITHMS: NameList := [
    "ssh-ed25519", "ecdsa-sha2-nistp256", "rsa-sha2-512", "rsa-sha2-256", "ssh-rsa", "ssh-dss"]
  const CIPHER_ALGORITHMS: NameList := [
    "aes256-ctr", "aes128-ctr", "3des-cbc", "arcfour", "arcfour128", "arcfour256"]
  const MAC_ALGORITHMS: NameList := [
    "hmac-sha2-512", "hmac-sha2-256", "hmac-sha1", "hmac-md5", "hmac-md5-96"]
  const COMPRESSION_ALGORITHMS: NameList := ["none"]

  datatype Category =
    | Kex | HostKey | CipherC2s | CipherS2c | MacC2s | MacS2c | CompressionC2s | CompressionS2c

  const REQUIRED: seq<Category> := [
    Kex, HostKey, CipherC2s, CipherS2c, MacC2s, MacS2c, CompressionC2s, CompressionS2c]

  function Client(category: Category): NameList {
    match category
    case Kex => KEX_ALGORITHMS
    case HostKey => HOST_KEY_ALGORITHMS
    case CipherC2s => CIPHER_ALGORITHMS
    case CipherS2c => CIPHER_ALGORITHMS
    case MacC2s => MAC_ALGORITHMS
    case MacS2c => MAC_ALGORITHMS
    case CompressionC2s => COMPRESSION_ALGORITHMS
    case CompressionS2c => COMPRESSION_ALGORITHMS
  }

  /** The position of a category's name-list in the packet. */
  function Index(category: Category): nat {
    match category
    case Kex => 0 case HostKey => 1 case CipherC2s => 2 case CipherS2c => 3
    case MacC2s => 4 case MacS2c => 5 case CompressionC2s => 6 case CompressionS2c => 7
  }

  datatype Selections = Selections(
    kex: string, hostKey: string, cipherC2s: string, cipherS2c: string, macC2s: string, macS2c: string)

  datatype PartialSelections = PartialSelections(
    kex: Option<string>, hostKey: Option<string>,
    cipherC2s: Option<string>, cipherS2c: Option<string>,
    macC2s: Option<string>, macS2c: Option<string>)

  datatype Reason = NoCommonAlgorithm(category: Category) | IncompleteSelection

  datatype Outcome =
    | Complete(selections: Selections)
    | Partial(partial: PartialSelections, reason: Reason)

  // ----- The first client name that the server offers -----

  function SelectAlgorithm(client: NameList, server: NameList): (r: Option<string>)
    ensures r.None? <==> forall name :: name in client ==> name !in server
    ensures r.Some? ==> exists i :: IsFirstOffered(client, server, i) && client[i] == r.value
  {
    if client == [] then None
    else if client[0] in server then
      assert IsFirstOffered(client, server, 0);
      Some(client[0])
    else
      var rest := SelectAlgorithm(client[1..], server);
      assert forall i :: IsFirstOffered(client[1..], server, i) ==> IsFirstOffered(client, server, i + 1);
      rest
  }

  predicate IsFirstOffered(client: NameList, server: NameList, i: int) {
    0 <= i < |client| && client[i] in server && forall j :: 0 <= j < i ==> client[j] !in server
  }

  /** The order and the repetitions in the server's list are irrelevant. */
  lemma {:induction false} ServerOrderIsIrrelevant(client: NameList, server1: NameList, server2: NameList)
    requires forall name :: name in server1 <==> name in server2
    ensures SelectAlgorithm(client, server1) == SelectAlgorithm(client, server2)
  {
    if client != [] {
      ServerOrderIsIrrelevant(client[1..], server1, server2);
    }
  }

  // ----- The posture -----

  predicate Intersects(lists: seq<NameList>, category: Category)
    requires |lists| == ListCount()
  {
    exists name :: name in Client(category) && name in lists[Index(category)]
  }

  function Selected(lists: seq<NameList>, category: Category): Option<string>
    requires |lists| == ListCount()
  {
    SelectAlgorithm(Client(category), lists[Index(category)])
  }

  function AllSelected(lists: seq<NameList>): PartialSelections
    requires |lists| == ListCount()
  {
    PartialSelections(
      Selected(lists, Kex), Selected(lists, HostKey), Selected(lists, CipherC2s),
      Selected(lists, CipherS2c), Selected(lists, MacC2s), Selected(lists, MacS2c))
  }

  /** What the outcome must be: complete with the six choices if all eight lists intersect, else
      partial, blaming the first list that does not. */
  ghost predicate IsPosture(lists: seq<NameList>, outcome: Outcome)
    requires |lists| == ListCount()
  {
    match outcome
    case Complete(s) =>
      && (forall category :: Intersects(lists, category))
      && AllSelected(lists) == PartialSelections(
           Some(s.kex), Some(s.hostKey), Some(s.cipherC2s), Some(s.cipherS2c), Some(s.macC2s), Some(s.macS2c))
    case Partial(partial, reason) =>
      && partial == AllSelected(lists)
      && reason.NoCommonAlgorithm?
      && !Intersects(lists, reason.category)
      && forall category :: Index(category) < Index(reason.category) ==> Intersects(lists, category)
  }

  lemma RequiredOrder(category: Category)
    ensures Index(category) < |REQUIRED| && REQUIRED[Index(category)] == category
  {
  }

  lemma SelectedIff(lists: seq<NameList>, category: Category)
    requires |lists| == ListCount()
    ensures Selected(lists, category).Some? <==> Intersects(lists, category)
  {
  }

  /** Walks the eight required lists; the fallback reason of the last match is never used. */
  method InferredPosture(lists: seq<NameList>) returns (outcome: Outcome)
    requires |lists| == ListCount()
    ensures IsPosture(lists, outcome)
  {
    hide Client, SelectAlgorithm, Intersects;
    var missing: Option<Category> := None;
    var s := PartialSelections(None, None, None, None, None, None);
    var i := 0;
    while i < |REQUIRED|
      invariant 0 <= i <= |REQUIRED|
      invariant s.kex == (if i > 0 then Selected(lists, Kex) else None)
      invariant s.hostKey == (if i > 1 then Selected(lists, HostKey) else None)
      invariant s.cipherC2s == (if i > 2 then Selected(lists, CipherC2s) else None)
      invariant s.cipherS2c == (if i > 3 then Selected(lists, CipherS2c) else None)
      invariant s.macC2s == (if i > 4 then Selected(lists, MacC2s) else None)
      invariant s.macS2c == (if i > 5 then Selected(lists, MacS2c) else None)
      invariant missing.None? ==> forall category :: Index(category) < i ==> Intersects(lists, category)
      invariant missing.Some? ==>
                  && Index(missing.value) < i && !Intersects(lists, missing.value)
                  && forall category :: Index(category) < Index(missing.value) ==> Intersects(lists, category)
    {
      var key := REQUIRED[i];
      var selected := SelectAlgorithm(Client(key), lists[Index(key)]);
      SelectedIff(lists, key);
      forall category | Index(category) == i ensures category == key { RequiredOrder(category); }
      if selected.Some? {
        match key
        case Kex => s := s.(kex := selected);
        case HostKey => s := s.(hostKey := selected);
        case CipherC2s => s := s.(cipherC2s := selected);
        case CipherS2c => s := s.(cipherS2c := selected);
        case MacC2s => s := s.(macC2s := selected);
        case MacS2c => s := s.(macS2c := selected);
        case CompressionC2s =>
        case CompressionS2c =>
      } else if missing.None? {
        missing := Some(key);
      }
      i := i + 1;
    }
    if missing.None? && s.kex.Some? && s.hostKey.Some? && s.cipherC2s.Some? && s.cipherS2c.Some?
      && s.macC2s.Some? && s.macS2c.Some?
    {
      forall category ensures Intersects(lists, category) { RequiredOrder(category); }
      outcome := Complete(Selections(
        s.kex.value, s.hostKey.value, s.cipherC2s.value, s.cipherS2c.value, s.macC2s.value, s.macS2c.value));
    } else {
      if missing.None? {
        assert forall category :: Index(category) < |REQUIRED| ==> Intersects(lists, category);
        SelectedIff(lists, Kex);
        SelectedIff(lists, HostKey);
        SelectedIff(lists, CipherC2s);
        SelectedIff(lists, CipherS2c);
        SelectedIff(lists, MacC2s);
        SelectedIff(lists, MacS2c);
        assert false;
      }
      outcome := Partial(s, if missing.Some? then NoCommonAlgorithm(missing.value) else IncompleteSelection);
    }
  }

  /** Complete exactly when all eight required lists intersect; the fallback reason never appears. */
  lemma CompleteExactly(lists: seq<NameList>, outcome: Outcome)
    requires |lists| == ListCount() && IsPosture(lists, outcome)
    ensures outcome.Complete? <==> forall category :: Intersects(lists, category)
    ensures outcome.Partial? ==> outcome.reason != IncompleteSelection
  {
  }

  // ----- The legacy finding -----

  /** What the finding rule calls legacy, by category. */
  function Legacy(category: Category): NameList {
    match category
    case Kex => ["diffie-hellman-group14-sha1", "diffie-hellman-group1-sha1"]
    case HostKey => ["ssh-rsa", "ssh-dss"]
    case CipherC2s => ["3des-cbc", "arcfour", "arcfour128", "arcfour256"]
    case CipherS2c => ["3des-cbc", "arcfour", "arcfour128", "arcfour256"]
    case MacC2s => ["hmac-sha1", "hmac-md5", "hmac-md5-96"]
    case MacS2c => ["hmac-sha1", "hmac-md5", "hmac-md5-96"]
    case CompressionC2s => []
    case CompressionS2c => []
  }

  function Matches(key: string, selected: string, legacy: NameList): seq<string> {
    if legacy == [] then []
    else (if selected == legacy[0] then [key + "=" + legacy[0]] else []) + Matches(key, selected, legacy[1..])
  }

  function FindingKey(category: Category): string {
    match category
    case Kex => "ssh_kex"
    case HostKey => "ssh_host_key_algorithm"
    case CipherC2s => "ssh_cipher_c2s"
    case CipherS2c => "ssh_cipher_s2c"
    case MacC2s => "ssh_mac_c2s"
    case MacS2c => "ssh_mac_s2c"
    case CompressionC2s => ""
    case CompressionS2c => ""
  }

  function CategoryMatches(selected: string, category: Category): seq<string> {
    Matches(FindingKey(category), selected, Legacy(category))
  }

  /** The observed text of the finding is the list of matches; no match, no finding. */
  function LegacyFinding(outcome: Outcome): Option<seq<string>> {
    if outcome.Partial? then None
    else
      var s := outcome.selections;
      var matches :=
        CategoryMatches(s.kex, Kex) + CategoryMatches(s.hostKey, HostKey)
        + CategoryMatches(s.cipherC2s, CipherC2s) + CategoryMatches(s.cipherS2c, CipherS2c)
        + CategoryMatches(s.macC2s, MacC2s) + CategoryMatches(s.macS2c, MacS2c);
      if matches == [] then None else Some(matches)
  }

  /** A list without repetitions has one match exactly when the selection is on it. */
  lemma {:induction false} MatchesExactly(key: string, selected: string, legacy: NameList)
    requires forall i, j :: 0 <= i < j < |legacy| ==> legacy[i] != legacy[j]
    ensures Matches(key, selected, legacy) == if selected in legacy then [key + "=" + selected] else []
  {
    if legacy != [] {
      MatchesExactly(key, selected, legacy[1..]);
    }
  }

  lemma LegacyIsDistinct(category: Category)
    ensures forall i, j :: 0 <= i < j < |Legacy(category)| ==> Legacy(category)[i] != Legacy(category)[j]
  {
    var legacy := Legacy(category);
    if |legacy| > 1 {
      assert legacy[0] != legacy[1];
    }
    if category in {CipherC2s, CipherS2c} {
      assert |legacy[1]| < |legacy[2]| == |legacy[3]| && legacy[2][7] != legacy[3][7];
    } else if category in {MacC2s, MacS2c} {
      assert |legacy[1]| < |legacy[0]| < |legacy[2]|;
    }
  }

  lemma CategoryMatchesExactly(selected: string, category: Category)
    ensures CategoryMatches(selected, category) ==
            if selected in Legacy(category) then [FindingKey(category) + "=" + selected] else []
  {
    LegacyIsDistinct(category);
    MatchesExactly(FindingKey(category), selected, Legacy(category));
  }

  /** A selection with its key, when it is one of these names. */
  function Shown(key: string, selected: string, names: set<string>): seq<string> {
    if selected in names then [key + "=" + selected] else []
  }

  /** What a reader of the finding is shown: the legacy selections, category after category. */
  function LegacyUse(s: Selections): seq<string> {
    Shown("ssh_kex", s.kex, {"diffie-hellman-group14-sha1", "diffie-hellman-group1-sha1"})
    + Shown("ssh_host_key_algorithm", s.hostKey, {"ssh-rsa", "ssh-dss"})
    + Shown("ssh_cipher_c2s", s.cipherC2s, {"3des-cbc", "arcfour", "arcfour128", "arcfour256"})
    + Shown("ssh_cipher_s2c", s.cipherS2c, {"3des-cbc", "arcfour", "arcfour128", "arcfour256"})
    + Shown("ssh_mac_c2s", s.macC2s, {"hmac-sha1", "hmac-md5", "hmac-md5-96"})
    + Shown("ssh_mac_s2c", s.macS2c, {"hmac-sha1", "hmac-md5", "hmac-md5-96"})
  }

  lemma KeyIsShown(selected: string, category: Category, key: string, names: set<string>)
    requires key == FindingKey(category) && forall name :: name in names <==> name in Legacy(category)
    ensures CategoryMatches(selected, category) == Shown(key, selected, names)
  {
    CategoryMatchesExactly(selected, category);
  }

  /** The finding shows the legacy selections of a complete negotiation, if there are any. */
  lemma LegacyFindingShows(outcome: Outcome)
    ensures LegacyFinding(outcome) ==
            if outcome.Partial? || LegacyUse(outcome.selections) == [] then None
               else Some(LegacyUse(outcome.selections))
  {
    hide CategoryMatches, Shown;
    if outcome.Complete? {
      var s := outcome.selections;
      KeyIsShown(s.kex, Kex, "ssh_kex", {"diffie-hellman-group14-sha1", "diffie-hellman-group1-sha1"});
      KeyIsShown(s.hostKey, HostKey, "ssh_host_key_algorithm", {"ssh-rsa", "ssh-dss"});
      KeyIsShown(s.cipherC2s, CipherC2s, "ssh_cipher_c2s", {"3des-cbc", "arcfour", "arcfour128", "arcfour256"});
      KeyIsShown(s.cipherS2c, CipherS2c, "ssh_cipher_s2c", {"3des-cbc", "arcfour", "arcfour128", "arcfour256"});
      KeyIsShown(s.macC2s, MacC2s, "ssh_mac_c2s", {"hmac-sha1", "hmac-md5", "hmac-md5-96"});
      KeyIsShown(s.macS2c, MacS2c, "ssh_mac_s2c", {"hmac-sha1", "hmac-md5", "hmac-md5-96"});
    }
  }

  /** The number of names before the legacy tail of a client list. */
  function StrongCount(category: Category): nat {
    match category
    case Kex => 4 case HostKey => 4 case CipherC2s => 2 case CipherS2c => 2
    case MacC2s => 2 case MacS2c => 2 case CompressionC2s => 1 case CompressionS2c => 1
  }

  /** Every client list is strong names first, then exactly the names the rule calls legacy. */
  lemma StrongFirst(category: Category)
    ensures StrongCount(category) <= |Client(category)|
    ensures Client(category)[StrongCount(category)..] == Legacy(category)
    ensures forall i :: 0 <= i < StrongCount(category) ==> Client(category)[i] !in Legacy(category)
  {
  }

  predicate OffersStrong(lists: seq<NameList>, category: Category)
    requires |lists| == ListCount()
  {
    exists name :: name in Client(category) && name !in Legacy(category) && name in lists[Index(category)]
  }

  lemma LegacySelected(lists: seq<NameList>, category: Category)
    requires |lists| == ListCount() && Selected(lists, category).Some?
    ensures Selected(lists, category).value in Legacy(category) <==> !OffersStrong(lists, category)
  {
    var client, server, strong := Client(category), lists[Index(category)], StrongCount(category);
    StrongFirst(category);
    var i :| IsFirstOffered(client, server, i) && client[i] == Selected(lists, category).value;
    hide Client, Legacy, SelectAlgorithm, StrongCount, Index;
    if i < strong {
      assert client[i] !in Legacy(category);
    } else {
      assert client[i] == client[strong..][i - strong];
      forall name | name in client && name in server ensures name in Legacy(category) {
        var j :| 0 <= j < |client| && client[j] == name;
        assert j >= i;
        assert client[j] == client[strong..][j - strong];
      }
    }
  }

  lemma CategoryFinding(selected: string, lists: seq<NameList>, category: Category)
    requires |lists| == ListCount() && Selected(lists, category) == Some(selected)
    ensures CategoryMatches(selected, category) != [] <==> !OffersStrong(lists, category)
  {
    CategoryMatchesExactly(selected, category);
    LegacySelected(lists, category);
  }

  /** The finding appears exactly when the negotiation completes and, in some category, the server
      offers none of the client's non-legacy names. */
  lemma LegacyFindingExactly(lists: seq<NameList>, outcome: Outcome)
    requires |lists| == ListCount() && IsPosture(lists, outcome)
    ensures LegacyFinding(outcome).Some? <==>
            && outcome.Complete?
            && exists category: Category ::
                 !category.CompressionC2s? && !category.CompressionS2c? && !OffersStrong(lists, category)
  {
    hide Intersects, OffersStrong, CategoryMatches, Selected;
    if outcome.Complete? {
      CategoryFinding(outcome.selections.kex, lists, Kex);
      CategoryFinding(outcome.selections.hostKey, lists, HostKey);
      CategoryFinding(outcome.selections.cipherC2s, lists, CipherC2s);
      CategoryFinding(outcome.selections.cipherS2c, lists, CipherS2c);
      CategoryFinding(outcome.selections.macC2s, lists, MacC2s);
      CategoryFinding(outcome.selections.macS2c, lists, MacS2c);
    }
  }
}
