/**
 * Successive runs of the certificates manager on one domain, and the lifecycles they go
 * through under the answers the ACME server and the DNS provider give in the manager's
 * HTTP-01 and DNS-01 (wildcard) scenarios.
 */
module CertificateScenarios {
  import opened Wrappers
  import Acme
  import opened Certificates

  /** The transitions of one record over `n` successive runs that all get the answers `s`. */
  function Runs(r: CertificateData, s: Signals, limit: nat, n: nat): (ts: seq<Transition>)
    ensures |ts| == n
    ensures n > 0 ==> ts[0] == Visit(r, s, limit)
    ensures forall i :: 0 < i < n ==> ts[i] == Visit(ts[i - 1].next, s, limit)
    decreases n
  {
    if n == 0 then []
    else
      var t := Visit(r, s, limit);
      [t] + Runs(t.next, s, limit, n - 1)
  }

  /** The state after each run. */
  function StatesOf(ts: seq<Transition>): (states: seq<CertificateState>)
    ensures |states| == |ts| && forall i :: 0 <= i < |ts| ==> states[i] == ts[i].next.state
  {
    seq(|ts|, i requires 0 <= i < |ts| => ts[i].next.state)
  }

  /** Whether each run persisted the record. */
  function SavesOf(ts: seq<Transition>): (saves: seq<bool>)
    ensures |saves| == |ts| && forall i :: 0 <= i < |ts| ==> saves[i] == ts[i].saved
  {
    seq(|ts|, i requires 0 <= i < |ts| => ts[i].saved)
  }

  /** Whether each run deleted the DNS challenge record. */
  function DeletionsOf(ts: seq<Transition>): (deletions: seq<bool>)
    ensures |deletions| == |ts| && forall i :: 0 <= i < |ts| ==> deletions[i] == ts[i].dnsDeleted
  {
    seq(|ts|, i requires 0 <= i < |ts| => ts[i].dnsDeleted)
  }

  const LOCATION: string := "https://localhost/index"

  /**
   * What the ACME server answers: an order for `domain` whose single authorization offers one
   * pending challenge of type `kind` (`challengeNull`: the authorization is already valid, so
   * no challenge is left), polled with `orderStatus` and carrying an issued certificate.
   */
  function MockOrder(domain: string, kind: string, challengeNull: bool, orderStatus: Acme.Status): Acme.Order {
    var id := Acme.Identifier(domain);
    var auth := Acme.Authorization(id, if challengeNull then Acme.Valid else Acme.Pending,
                                   [Acme.Challenge(kind, Acme.Pending, "mytoken")]);
    Acme.Order(LOCATION, [id], [auth], orderStatus, Some(Acme.Certificate(LOCATION, ["sample chain"])))
  }

  /** The answers of the HTTP-01 scenario; `expired`: the issued chain is already due for renewal. */
  function HttpSignals(domain: string, challengeNull: bool, challengeStatus: Acme.Status, orderStatus: Acme.Status, expired: bool): Signals {
    Signals(false, MockOrder(domain, Acme.HTTP_01, challengeNull, orderStatus), challengeStatus, false, false, expired)
  }

  /** The answers of the DNS-01 scenario: whether the TXT record is created and becomes visible. */
  function DnsSignals(domain: string, created: bool, visible: bool, challengeStatus: Acme.Status): Signals {
    Signals(false, MockOrder(domain, Acme.DNS_01, false, Acme.Valid), challengeStatus, created, visible, false)
  }

  /** An automatically managed record, not yet issued, for a non-wildcard domain. */
  predicate FreshHttpRecord(r: CertificateData) {
    r.state == Waiting && !r.manual && !IsWildcard(r.domain)
  }

  // ---------------------------------------------------------------------------
  // HTTP-01 scenarios
  // ---------------------------------------------------------------------------

  /** Everything succeeds: issued on the fourth run, then left alone and not persisted again. */
  lemma HttpAllOk(r: CertificateData, limit: nat)
    requires FreshHttpRecord(r)
    ensures var ts := Runs(r, HttpSignals(r.domain, false, Acme.Valid, Acme.Valid, false), limit, 6);
            && StatesOf(ts) == [Verifying, Verified, Ordering, Available, Available, Available]
            && SavesOf(ts) == [true, true, true, true, false, false]
  {
  }

  /** No challenge left to complete: straight to VERIFIED, issued on the third run. */
  lemma HttpChallengeNull(r: CertificateData, limit: nat)
    requires FreshHttpRecord(r)
    ensures var ts := Runs(r, HttpSignals(r.domain, true, Acme.Valid, Acme.Valid, false), limit, 5);
            && StatesOf(ts) == [Verified, Ordering, Available, Available, Available]
            && SavesOf(ts) == [true, true, true, false, false]
  {
  }

  /** The challenge is invalid: REQUEST_FAILED, then issuing restarts; every step persisted. */
  lemma HttpChallengeInvalid(r: CertificateData, limit: nat)
    requires FreshHttpRecord(r)
    ensures var ts := Runs(r, HttpSignals(r.domain, false, Acme.Invalid, Acme.Valid, false), limit, 3);
            && StatesOf(ts) == [Verifying, RequestFailed, Waiting]
            && SavesOf(ts) == [true, true, true]
  {
  }

  /** The order is invalid: REQUEST_FAILED, then issuing restarts; every step persisted. */
  lemma HttpOrderInvalid(r: CertificateData, limit: nat)
    requires FreshHttpRecord(r)
    ensures var ts := Runs(r, HttpSignals(r.domain, false, Acme.Valid, Acme.Invalid, false), limit, 5);
            && StatesOf(ts) == [Verifying, Verified, Ordering, RequestFailed, Waiting]
            && SavesOf(ts) == [true, true, true, true, true]
  {
  }

  /** The issued certificate is due: EXPIRED, then issuing restarts; every step persisted. */
  lemma HttpAvailableToExpired(r: CertificateData, limit: nat)
    requires FreshHttpRecord(r)
    ensures var ts := Runs(r, HttpSignals(r.domain, false, Acme.Valid, Acme.Valid, true), limit, 6);
            && StatesOf(ts) == [Verifying, Verified, Ordering, Available, Expired, Waiting]
            && SavesOf(ts) == [true, true, true, true, true, true]
  {
  }

  // ---------------------------------------------------------------------------
  // DNS-01 scenarios, for a wildcard domain and two visibility checks
  // ---------------------------------------------------------------------------

  const WILDCARD: string := "*.localhost"

  function FreshWildcardRecord(): (r: CertificateData)
    ensures IsWildcard(r.domain)
  {
    CertificateData(WILDCARD, None, Waiting, "", None, false, 0, 0)
  }

  /** The TXT record cannot be created: the record stays WAITING (persisted with its order). */
  lemma DnsCreationFailed()
    ensures var ts := Runs(FreshWildcardRecord(), DnsSignals(WILDCARD, false, false, Acme.Valid), 2, 1);
            StatesOf(ts) == [Waiting] && SavesOf(ts) == [true] && DeletionsOf(ts) == [false]
  {
  }

  /** The TXT record never becomes visible: abandoned at the limit, and deleted once. */
  lemma DnsCheckLimitExpired()
    ensures var ts := Runs(FreshWildcardRecord(), DnsSignals(WILDCARD, true, false, Acme.Valid), 2, 3);
            && StatesOf(ts) == [DnsChallengeWait, DnsChallengeWait, RequestFailed]
            && SavesOf(ts) == [true, true, true]
            && DeletionsOf(ts) == [false, false, true]
  {
  }

  /** The TXT record is visible: VERIFYING, then VERIFIED, and the record is deleted once. */
  lemma DnsChallengeVerified()
    ensures var ts := Runs(FreshWildcardRecord(), DnsSignals(WILDCARD, true, true, Acme.Valid), 2, 3);
            && StatesOf(ts) == [DnsChallengeWait, Verifying, Verified]
            && SavesOf(ts) == [true, true, true]
            && DeletionsOf(ts) == [false, false, true]
  {
  }

  /** The challenge fails after the TXT record became visible: REQUEST_FAILED, record deleted once. */
  lemma DnsChallengeFailed()
    ensures var ts := Runs(FreshWildcardRecord(), DnsSignals(WILDCARD, true, true, Acme.Invalid), 2, 3);
            && StatesOf(ts) == [DnsChallengeWait, Verifying, RequestFailed]
            && SavesOf(ts) == [true, true, true]
            && DeletionsOf(ts) == [false, false, true]
  {
  }

  // ---------------------------------------------------------------------------
  // The DNS visibility limit in general
  // ---------------------------------------------------------------------------

  /**
   * A wildcard record waiting for a TXT record that never becomes visible keeps waiting for
   * `limit - attempts - 1` runs, is abandoned (REQUEST_FAILED) on the next one, is persisted
   * on every one of them, and has its TXT record deleted exactly once.
   */
  lemma {:induction false} DnsGivesUpAtLimit(r: CertificateData, s: Signals, limit: nat)
    requires r.state == DnsChallengeWait && !r.manual && IsWildcard(r.domain)
    requires !s.acmeFailure && !s.dnsVisible
    requires r.attempts < limit
    ensures var ts := Runs(r, s, limit, limit - r.attempts);
            && (forall i :: 0 <= i < |ts| - 1 ==> ts[i].next.state == DnsChallengeWait && !ts[i].dnsDeleted)
            && ts[|ts| - 1].next.state == RequestFailed && ts[|ts| - 1].dnsDeleted
            && ts[|ts| - 1].next.attempts == limit
            && (forall i :: 0 <= i < |ts| ==> ts[i].saved)
    decreases limit - r.attempts
  {
    var n := limit - r.attempts;
    var ts := Runs(r, s, limit, n);
    var t := Visit(r, s, limit);
    assert ts == [t] + Runs(t.next, s, limit, n - 1);
    if r.attempts + 1 < limit {
      DnsGivesUpAtLimit(t.next, s, limit);
      var rest := Runs(t.next, s, limit, n - 1);
      forall i | 1 <= i < |ts|
        ensures ts[i] == rest[i - 1]
      {
      }
    }
  }

  // ---------------------------------------------------------------------------
  // A run over several domains
  // ---------------------------------------------------------------------------

  /** An issued certificate that is not due is neither advanced nor persisted by a run. */
  lemma AvailableNotDueIsQuiet(r: CertificateData, s: Signals, limit: nat)
    requires r.state == Available && !s.chainDue
    ensures Visit(r, s, limit) == Transition(r, false, false, false)
  {
  }

  /**
   * The three domains of the manager's HTTP-01 scenario: an issued certificate that is not due,
   * a certificate being issued, and a manual certificate. A run persists at most the middle one.
   */
  lemma {:induction false} ThreeDomainRun(certs: map<string, CertificateData>, sig: string -> Signals, limit: nat, d0: string, d1: string, d2: string)
    requires d0 in certs && d1 in certs && d2 in certs
    requires certs[d0].state == Available && !sig(d0).chainDue
    requires certs[d2].manual
    ensures var t := Visit(certs[d1], sig(d1), limit);
            SavedRecords([d0, d1, d2], certs, sig, limit) == (if t.saved then [t.next] else [])
  {
    var ds := [d0, d1, d2];
    RunStep(ds, 0, certs, sig, limit);
    RunStep(ds, 1, certs, sig, limit);
    RunStep(ds, 2, certs, sig, limit);
    assert ds[..0] == [] && ds[..3] == ds;
    AvailableNotDueIsQuiet(certs[d0], sig(d0), limit);
  }
}
