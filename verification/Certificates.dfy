/**
 Certificates: how much of a peer's chain is kept and inspected, by count and by cumulative size. A
 certificate is the number of its bytes.
 */
module Certificates {

  const MAX_CERTIFICATES := 16
  const MAX_CERTIFICATE_DER_BYTES := 1048576

  function Sum(sizes: seq<nat>): nat {
    if sizes == [] then 0 else Sum(sizes[..|sizes| - 1]) + sizes[|sizes| - 1]
  }

  function Considered(sizes: seq<nat>): nat {
    if |sizes| <= MAX_CERTIFICATES then |sizes| else MAX_CERTIFICATES
  }

  /** A prefix of the considered certificates fits exactly when it is no longer than n. */
  ghost predicate FitsUpTo(sizes: seq<nat>, n: nat) {
    n <= Considered(sizes)
    && forall m :: 0 <= m <= Considered(sizes) ==> (Sum(sizes[..m]) <= MAX_CERTIFICATE_DER_BYTES <==> m <= n)
  }

  lemma {:induction false} SumGrows(sizes: seq<nat>, m: nat, n: nat)
    requires m <= n <= |sizes|
    ensures Sum(sizes[..m]) <= Sum(sizes[..n])
    decreases n
  {
    if m < n {
      assert sizes[..n][..n - 1] == sizes[..n - 1];
      SumGrows(sizes, m, n - 1);
    }
  }

  lemma Bounded(sizes: seq<nat>, n: nat)
    requires n <= Considered(sizes) && Sum(sizes[..n]) <= MAX_CERTIFICATE_DER_BYTES
    requires n < Considered(sizes) ==> Sum(sizes[..n + 1]) > MAX_CERTIFICATE_DER_BYTES
    ensures FitsUpTo(sizes, n)
  {
    forall m | 0 <= m <= Considered(sizes) ensures Sum(sizes[..m]) <= MAX_CERTIFICATE_DER_BYTES <==> m <= n {
      if m <= n {
        SumGrows(sizes, m, n);
      } else {
        SumGrows(sizes, n + 1, m);
      }
    }
  }

  /** Keeps the longest prefix within both limits; truncated means that the size limit cut it. */
  method RecordCertificates(peers: seq<nat>) returns (recorded: seq<nat>, truncated: bool)
    ensures |recorded| <= |peers| && recorded == peers[..|recorded|]
    ensures FitsUpTo(peers, |recorded|)
    ensures truncated <==> |recorded| < Considered(peers)
  {
    recorded, truncated := [], false;
    var bytes := 0;
    while |recorded| < Considered(peers)
      invariant |recorded| <= Considered(peers) && recorded == peers[..|recorded|]
      invariant bytes == Sum(recorded) <= MAX_CERTIFICATE_DER_BYTES
    {
      var i := |recorded|;
      assert peers[..i + 1][..i] == peers[..i];
      if bytes + peers[i] > MAX_CERTIFICATE_DER_BYTES {
        truncated := true;
        break;
      }
      bytes := bytes + peers[i];
      recorded := recorded + [peers[i]];
    }
    Bounded(peers, |recorded|);
  }

  /** Counts the certificates to inspect under the same limits. */
  method CountInspected(certificates: seq<nat>, alreadyTruncated: bool) returns (inspected: nat, truncated: bool)
    ensures FitsUpTo(certificates, inspected)
    ensures truncated <==> alreadyTruncated || inspected < Considered(certificates)
  {
    inspected, truncated := 0, alreadyTruncated;
    var bytes := 0;
    while inspected < Considered(certificates)
      invariant inspected <= Considered(certificates)
      invariant truncated == alreadyTruncated
      invariant bytes == Sum(certificates[..inspected]) <= MAX_CERTIFICATE_DER_BYTES
    {
      assert certificates[..inspected + 1][..inspected] == certificates[..inspected];
      if bytes + certificates[inspected] > MAX_CERTIFICATE_DER_BYTES {
        truncated := true;
        break;
      }
      bytes := bytes + certificates[inspected];
      inspected := inspected + 1;
    }
    Bounded(certificates, inspected);
  }

  /** What was recorded is inspected whole: the second pass finds nothing more to cut. */
  lemma RecordedIsInspected(peers: seq<nat>, recorded: seq<nat>, inspected: nat)
    requires |recorded| <= |peers| && recorded == peers[..|recorded|] && FitsUpTo(peers, |recorded|)
    requires FitsUpTo(recorded, inspected)
    ensures inspected == |recorded| == Considered(recorded)
  {
    assert recorded[..|recorded|] == peers[..|recorded|];
  }
}
