/**
 * The per-domain certificate lifecycle of the dynamic certificates manager: a closed set of
 * states, a total transition function over the answers of the outside world (ACME server,
 * DNS provider, clock), and the manager object whose `run()` advances every automatically
 * managed certificate by one transition, persisting records and deleting DNS challenge records.
 */
module Certificates {
  import opened Wrappers
  import Acme

  datatype CertificateState =
    | Waiting           // to be issued or renewed
    | DnsChallengeWait  // DNS-01 TXT record created, waiting for it to be visible
    | Verifying         // challenge triggered, waiting for the ACME server to verify it
    | Verified          // challenge passed, certificate to be ordered
    | Ordering          // CSR submitted, waiting for the order to become valid
    | Available         // certificate issued and in use
    | Expired           // certificate due for renewal
    | RequestFailed     // challenge or order failed; the next run restarts issuing

  /** A "*.example.com" domain: only DNS-01 can prove control of it. */
  predicate IsWildcard(domain: string) {
    |domain| >= 2 && domain[..2] == "*."
  }

  /** The scenarios' domains: "*.localhost" is a wildcard, the plain host names are not. */
  lemma WildcardDomains()
    ensures IsWildcard("*.localhost")
    ensures !IsWildcard("localhost") && !IsWildcard("localhost0") && !IsWildcard("*")
  {
    assert "*.localhost"[..2] == "*.";
    assert "localhost"[0] == 'l' && "localhost0"[0] == 'l';
    assert "localhost"[..2][0] == 'l' && "localhost0"[..2][0] == 'l';
  }

  /** The persisted record of one domain. `chain` is None until a certificate has been issued. */
  datatype CertificateData = CertificateData(
    domain: string,
    chain: Option<Acme.Certificate>,
    state: CertificateState,
    pendingOrderLocation: string,
    pendingChallenge: Option<Acme.Challenge>,
    manual: bool,
    daysBeforeRenewal: int,
    attempts: nat)

  /**
   * What the outside world answers during one run for one domain:
   * - `acmeFailure`: the ACME calls of this run throw (network or protocol error);
   * - `order`: the order as the ACME server returns it (created in WAITING, polled in ORDERING);
   * - `challengeStatus`: the status of the pending challenge as fetched from the server;
   * - `dnsCreated` / `dnsVisible`: the DNS provider's answers for the TXT record;
   * - `chainDue`: the certificate expires within `daysBeforeRenewal` days.
   */
  datatype Signals = Signals(
    acmeFailure: bool,
    order: Acme.Order,
    challengeStatus: Acme.Status,
    dnsCreated: bool,
    dnsVisible: bool,
    chainDue: bool)

  /**
   * One transition: the new record, whether it was persisted, whether the DNS challenge record
   * was deleted, and whether an exception was caught (in which case nothing happens).
   */
  datatype Transition = Transition(next: CertificateData, saved: bool, dnsDeleted: bool, failed: bool)

  /** The transition graph of the lifecycle: the states a run may lead to from each state. */
  function Successors(s: CertificateState): set<CertificateState> {
    match s
    case Waiting => {Waiting, DnsChallengeWait, Verifying, Verified}
    case DnsChallengeWait => {DnsChallengeWait, Verifying, RequestFailed}
    case Verifying => {Verifying, Verified, RequestFailed}
    case Verified => {Verified, Ordering}
    case Ordering => {Ordering, Available, RequestFailed}
    case Available => {Available, Expired}
    case Expired => {Waiting}
    case RequestFailed => {Waiting}
  }

  /** The states in which a run talks to the ACME server. */
  predicate CallsAcme(s: CertificateState) {
    s in {Waiting, DnsChallengeWait, Verifying, Verified, Ordering}
  }

  function Saved(next: CertificateData): Transition {
    Transition(next, true, false, false)
  }

  function NoProgress(r: CertificateData): Transition {
    Transition(r, false, false, true)
  }

  /**
   * The transition table of an automatically managed record. `limit` is the number of
   * DNS visibility checks after which a DNS-01 challenge is abandoned.
   */
  function Advance(r: CertificateData, s: Signals, limit: nat): (t: Transition)
    ensures t.next.state in Successors(r.state)
    ensures t.next.domain == r.domain && t.next.manual == r.manual
    ensures t.failed ==> t.next == r && !t.saved && !t.dnsDeleted
    ensures t.failed ==> CallsAcme(r.state)
    ensures !t.failed ==> (t.saved <==> !(r.state == Available && t.next.state == Available))
    ensures t.dnsDeleted <==> IsWildcard(r.domain) && r.state in {DnsChallengeWait, Verifying} &&
                              t.next.state in {Verified, RequestFailed}
    ensures CallsAcme(r.state) && s.acmeFailure ==> t.failed
  {
    match r.state
    case Waiting =>
      if s.acmeFailure then NoProgress(r)
      else
        var wildcard := IsWildcard(r.domain);
        var ordered := r.(pendingOrderLocation := s.order.location);
        (match Acme.GetChallengeForOrder(s.order, wildcard)
         case Failure(_) => NoProgress(r)
         case Success(None) => Saved(ordered.(state := Verified))
         case Success(Some(c)) =>
           if !wildcard then Saved(ordered.(state := Verifying, pendingChallenge := Some(c)))
           else if !s.dnsCreated then Saved(ordered)
           else Saved(ordered.(state := DnsChallengeWait, pendingChallenge := Some(c), attempts := 0)))
    case DnsChallengeWait =>
      if s.acmeFailure then NoProgress(r)
      else if s.dnsVisible then Saved(r.(state := Verifying))
      else if r.attempts + 1 >= limit then
        Transition(r.(state := RequestFailed, attempts := r.attempts + 1), true, IsWildcard(r.domain), false)
      else Saved(r.(attempts := r.attempts + 1))
    case Verifying =>
      if s.acmeFailure then NoProgress(r)
      else if s.challengeStatus == Acme.Valid then
        Transition(r.(state := Verified), true, IsWildcard(r.domain), false)
      else if s.challengeStatus == Acme.Invalid then
        Transition(r.(state := RequestFailed), true, IsWildcard(r.domain), false)
      else Saved(r)
    case Verified =>
      if s.acmeFailure then NoProgress(r) else Saved(r.(state := Ordering))
    case Ordering =>
      if s.acmeFailure then NoProgress(r)
      else
        (match Acme.PolledOrderStatus(s.order)
         case Failure(_) => NoProgress(r)
         case Success(status) =>
           if status == Acme.Valid then
             (match Acme.FetchCertificateForOrder(s.order)
              case Failure(_) => NoProgress(r)
              case Success(cert) => Saved(r.(state := Available, chain := Some(cert))))
           else if status == Acme.Invalid then Saved(r.(state := RequestFailed))
           else Saved(r))
    case Available =>
      if s.chainDue then Saved(r.(state := Expired)) else Transition(r, false, false, false)
    case Expired => Saved(r.(state := Waiting))
    case RequestFailed => Saved(r.(state := Waiting))
  }

  /** What a run does with one record: manual records are skipped, the others advanced. */
  function Visit(r: CertificateData, s: Signals, limit: nat): (t: Transition)
    ensures r.manual ==> t.next == r && !t.saved && !t.dnsDeleted
    ensures !r.manual ==> t == Advance(r, s, limit)
  {
    if r.manual then Transition(r, false, false, false) else Advance(r, s, limit)
  }

  // ---------------------------------------------------------------------------
  // The transition table, state by state
  // ---------------------------------------------------------------------------

  /**
   * WAITING: the order's challenge decides. No challenge left goes straight to VERIFIED; an
   * HTTP-01 challenge to VERIFYING; a DNS-01 challenge to DNS_CHALLENGE_WAIT once its TXT record
   * is created, and otherwise the record stays WAITING (persisted with its new order).
   */
  lemma WaitingStep(r: CertificateData, s: Signals, limit: nat)
    requires r.state == Waiting && !s.acmeFailure
    ensures var t := Advance(r, s, limit);
            var c := Acme.GetChallengeForOrder(s.order, IsWildcard(r.domain));
            && (c.Failure? ==> t == NoProgress(r))
            && (c == Success(None) ==> t.saved && t.next.state == Verified && t.next.pendingOrderLocation == s.order.location)
            && (c.Success? && c.value.Some? && !IsWildcard(r.domain) ==>
                  t.saved && t.next.state == Verifying && t.next.pendingChallenge == c.value)
            && (c.Success? && c.value.Some? && IsWildcard(r.domain) && !s.dnsCreated ==>
                  t.saved && t.next.state == Waiting && t.next.pendingOrderLocation == s.order.location)
            && (c.Success? && c.value.Some? && IsWildcard(r.domain) && s.dnsCreated ==>
                  t.saved && t.next.state == DnsChallengeWait && t.next.pendingChallenge == c.value && t.next.attempts == 0)
  {
  }

  /**
   * DNS_CHALLENGE_WAIT: a visible TXT record moves on to VERIFYING; otherwise the failed check
   * is counted, and the check that reaches the limit abandons the challenge and deletes the record.
   */
  lemma DnsChallengeWaitStep(r: CertificateData, s: Signals, limit: nat)
    requires r.state == DnsChallengeWait && !s.acmeFailure
    ensures var t := Advance(r, s, limit);
            && (s.dnsVisible ==> t.saved && t.next == r.(state := Verifying) && !t.dnsDeleted)
            && (!s.dnsVisible && r.attempts + 1 >= limit ==>
                  t.saved && t.next == r.(state := RequestFailed, attempts := r.attempts + 1) &&
                  (t.dnsDeleted <==> IsWildcard(r.domain)))
            && (!s.dnsVisible && r.attempts + 1 < limit ==>
                  t.saved && t.next == r.(attempts := r.attempts + 1) && !t.dnsDeleted)
  {
  }

  /** VERIFYING: a VALID challenge gives VERIFIED, an INVALID one REQUEST_FAILED, any other status waits. */
  lemma VerifyingStep(r: CertificateData, s: Signals, limit: nat)
    requires r.state == Verifying && !s.acmeFailure
    ensures var t := Advance(r, s, limit);
            && (s.challengeStatus == Acme.Valid ==>
                  t.saved && t.next == r.(state := Verified) && (t.dnsDeleted <==> IsWildcard(r.domain)))
            && (s.challengeStatus == Acme.Invalid ==>
                  t.saved && t.next == r.(state := RequestFailed) && (t.dnsDeleted <==> IsWildcard(r.domain)))
            && (s.challengeStatus !in {Acme.Valid, Acme.Invalid} ==> t.saved && t.next == r && !t.dnsDeleted)
  {
  }

  /** VERIFIED: the certificate is ordered. */
  lemma VerifiedStep(r: CertificateData, s: Signals, limit: nat)
    requires r.state == Verified && !s.acmeFailure
    ensures Advance(r, s, limit) == Transition(r.(state := Ordering), true, false, false)
  {
  }

  /**
   * ORDERING: a VALID order yields the issued certificate and AVAILABLE, an INVALID one
   * REQUEST_FAILED, any other status waits; an exception from the client changes nothing.
   */
  lemma OrderingStep(r: CertificateData, s: Signals, limit: nat)
    requires r.state == Ordering && !s.acmeFailure
    ensures var t := Advance(r, s, limit);
            var polled := Acme.PolledOrderStatus(s.order);
            var fetched := Acme.FetchCertificateForOrder(s.order);
            && (polled.Failure? ==> t == NoProgress(r))
            && (polled == Success(Acme.Valid) && fetched.Success? ==>
                  t.saved && t.next == r.(state := Available, chain := Some(fetched.value)))
            && (polled == Success(Acme.Valid) && fetched.Failure? ==> t == NoProgress(r))
            && (polled == Success(Acme.Invalid) ==> t.saved && t.next == r.(state := RequestFailed))
            && (polled.Success? && polled.value !in {Acme.Valid, Acme.Invalid} ==> t.saved && t.next == r)
  {
  }

  /** AVAILABLE: a due certificate becomes EXPIRED (persisted); otherwise nothing happens. */
  lemma AvailableStep(r: CertificateData, s: Signals, limit: nat)
    requires r.state == Available
    ensures s.chainDue ==> Advance(r, s, limit) == Saved(r.(state := Expired))
    ensures !s.chainDue ==> Advance(r, s, limit) == Transition(r, false, false, false)
  {
  }

  /**
   * The record invariant the lifecycle maintains: a challenge is pending while one is being
   * verified, its type matches the domain, and an issued (not operator-provided) certificate
   * that is available has a chain.
   */
  predicate Consistent(r: CertificateData) {
    && (r.state in {DnsChallengeWait, Verifying} ==> r.pendingChallenge.Some?)
    && (r.state == DnsChallengeWait ==> IsWildcard(r.domain))
    && (r.state in {DnsChallengeWait, Verifying} ==>
          r.pendingChallenge.value.kind == if IsWildcard(r.domain) then Acme.DNS_01 else Acme.HTTP_01)
    && (r.state == Available && !r.manual ==> r.chain.Some?)
  }

  lemma AdvancePreservesConsistent(r: CertificateData, s: Signals, limit: nat)
    requires Consistent(r)
    ensures Consistent(Advance(r, s, limit).next)
  {
  }

  /** REQUEST_FAILED and EXPIRED always restart issuing on the next run, and are persisted. */
  lemma RestartsAfterFailureOrExpiry(r: CertificateData, s: Signals, limit: nat)
    requires r.state in {RequestFailed, Expired}
    ensures Advance(r, s, limit).next == r.(state := Waiting)
    ensures Advance(r, s, limit).saved
  {
  }

  // ---------------------------------------------------------------------------
  // One run over all configured domains
  // ---------------------------------------------------------------------------

  /** The records after one run. */
  function AfterRun(certs: map<string, CertificateData>, sig: string -> Signals, limit: nat): map<string, CertificateData> {
    map d | d in certs :: Visit(certs[d], sig(d), limit).next
  }

  /** The records a run persists, in the order of `ds`. */
  function SavedRecords(ds: seq<string>, certs: map<string, CertificateData>, sig: string -> Signals, limit: nat): seq<CertificateData>
    requires forall d :: d in ds ==> d in certs
  {
    if ds == [] then []
    else
      var d := ds[|ds| - 1];
      var t := Visit(certs[d], sig(d), limit);
      SavedRecords(ds[..|ds| - 1], certs, sig, limit) + (if t.saved then [t.next] else [])
  }

  /** The domains whose DNS challenge record a run deletes, in the order of `ds`. */
  function DeletedDomains(ds: seq<string>, certs: map<string, CertificateData>, sig: string -> Signals, limit: nat): seq<string>
    requires forall d :: d in ds ==> d in certs
  {
    if ds == [] then []
    else
      var d := ds[|ds| - 1];
      var t := Visit(certs[d], sig(d), limit);
      DeletedDomains(ds[..|ds| - 1], certs, sig, limit) + (if t.dnsDeleted then [d] else [])
  }

  /** Extending the visited prefix by one domain appends that domain's effects to both logs. */
  lemma RunStep(ds: seq<string>, i: nat, certs: map<string, CertificateData>, sig: string -> Signals, limit: nat)
    requires i < |ds|
    requires forall e :: e in ds ==> e in certs
    ensures var t := Visit(certs[ds[i]], sig(ds[i]), limit);
            && SavedRecords(ds[..i + 1], certs, sig, limit) == SavedRecords(ds[..i], certs, sig, limit) + (if t.saved then [t.next] else [])
            && DeletedDomains(ds[..i + 1], certs, sig, limit) == DeletedDomains(ds[..i], certs, sig, limit) + (if t.dnsDeleted then [ds[i]] else [])
  {
    assert ds[..i + 1][..i] == ds[..i];
  }

  /** A run never advances, persists or cleans up a manual record, whatever its state. */
  lemma {:induction false} ManualRecordsUntouched(ds: seq<string>, certs: map<string, CertificateData>, sig: string -> Signals, limit: nat, d: string)
    requires forall e :: e in ds ==> e in certs
    requires d in certs && certs[d].manual
    requires forall e :: e in certs ==> certs[e].domain == e
    ensures AfterRun(certs, sig, limit)[d] == certs[d]
    ensures d !in DeletedDomains(ds, certs, sig, limit)
    ensures forall k :: 0 <= k < |SavedRecords(ds, certs, sig, limit)| ==> SavedRecords(ds, certs, sig, limit)[k].domain != d
  {
    if ds != [] {
      ManualRecordsUntouched(ds[..|ds| - 1], certs, sig, limit, d);
    }
  }

  /** The positions in `ds` of the domains whose step a run persists. */
  ghost function SavedPositions(ds: seq<string>, certs: map<string, CertificateData>, sig: string -> Signals, limit: nat): set<nat>
    requires forall d :: d in ds ==> d in certs
  {
    set k: nat | k < |ds| && Visit(certs[ds[k]], sig(ds[k]), limit).saved
  }

  /** Taking one more domain adds its position exactly when its step is persisted. */
  lemma SavedPositionsStep(ds: seq<string>, certs: map<string, CertificateData>, sig: string -> Signals, limit: nat)
    requires ds != [] && forall d :: d in ds ==> d in certs
    ensures var n := |ds| - 1;
            SavedPositions(ds, certs, sig, limit) ==
              SavedPositions(ds[..n], certs, sig, limit) + (if Visit(certs[ds[n]], sig(ds[n]), limit).saved then {n} else {})
  {
    var n := |ds| - 1;
    forall k | 0 <= k < n
      ensures ds[..n][k] == ds[k]
    {
    }
  }

  /** The number of records a run persists is the number of domains whose step is persisted. */
  lemma {:induction false} SavedRecordsCount(ds: seq<string>, certs: map<string, CertificateData>, sig: string -> Signals, limit: nat)
    requires forall d :: d in ds ==> d in certs
    ensures |SavedRecords(ds, certs, sig, limit)| == |SavedPositions(ds, certs, sig, limit)|
  {
    if ds != [] {
      var n := |ds| - 1;
      SavedRecordsCount(ds[..n], certs, sig, limit);
      SavedPositionsStep(ds, certs, sig, limit);
      assert n !in SavedPositions(ds[..n], certs, sig, limit);
    }
  }

  /**
   * What `run()` has done after visiting the first `i` domains of `ds`: those records are
   * advanced, the others untouched, and the logs hold exactly the effects of the visited ones.
   */
  ghost predicate VisitedPrefix(ds: seq<string>, certs: map<string, CertificateData>, sig: string -> Signals, limit: nat,
                                i: nat, records: map<string, CertificateData>, newSaves: seq<CertificateData>, newDeletions: seq<string>)
  {
    && i <= |ds|
    && (forall d :: d in ds ==> d in certs)
    && records.Keys == certs.Keys
    && (forall k :: 0 <= k < i ==> records[ds[k]] == Visit(certs[ds[k]], sig(ds[k]), limit).next)
    && (forall k :: i <= k < |ds| ==> records[ds[k]] == certs[ds[k]])
    && newSaves == SavedRecords(ds[..i], certs, sig, limit)
    && newDeletions == DeletedDomains(ds[..i], certs, sig, limit)
  }

  lemma VisitedPrefixStep(ds: seq<string>, certs: map<string, CertificateData>, sig: string -> Signals, limit: nat,
                          i: nat, records: map<string, CertificateData>, newSaves: seq<CertificateData>, newDeletions: seq<string>)
    requires i < |ds| && VisitedPrefix(ds, certs, sig, limit, i, records, newSaves, newDeletions)
    requires forall x, y :: 0 <= x < y < |ds| ==> ds[x] != ds[y]
    ensures var t := Visit(certs[ds[i]], sig(ds[i]), limit);
            VisitedPrefix(ds, certs, sig, limit, i + 1, records[ds[i] := t.next],
                          newSaves + (if t.saved then [t.next] else []),
                          newDeletions + (if t.dnsDeleted then [ds[i]] else []))
  {
    RunStep(ds, i, certs, sig, limit);
    var t := Visit(certs[ds[i]], sig(ds[i]), limit);
    var records' := records[ds[i] := t.next];
    forall k | 0 <= k < |ds| && k != i
      ensures records'[ds[k]] == records[ds[k]]
    {
      assert ds[k] != ds[i];
    }
  }

  lemma VisitedAll(ds: seq<string>, certs: map<string, CertificateData>, sig: string -> Signals, limit: nat,
                   records: map<string, CertificateData>, newSaves: seq<CertificateData>, newDeletions: seq<string>)
    requires forall d :: d in certs ==> d in ds
    requires VisitedPrefix(ds, certs, sig, limit, |ds|, records, newSaves, newDeletions)
    ensures records == AfterRun(certs, sig, limit)
    ensures newSaves == SavedRecords(ds, certs, sig, limit)
    ensures newDeletions == DeletedDomains(ds, certs, sig, limit)
  {
    assert ds[..|ds|] == ds;
    forall d | d in records
      ensures records[d] == AfterRun(certs, sig, limit)[d]
    {
      var k :| 0 <= k < |ds| && ds[k] == d;
    }
  }

  /**
   * The loop of `run()` over the configured domains `ds`, in order: the records afterwards,
   * the records persisted and the domains whose DNS challenge record was deleted.
   */
  method VisitAll(ds: seq<string>, certs: map<string, CertificateData>, sig: string -> Signals, limit: nat)
      returns (records: map<string, CertificateData>, newSaves: seq<CertificateData>, newDeletions: seq<string>)
    requires forall d :: d in certs <==> d in ds
    requires forall x, y :: 0 <= x < y < |ds| ==> ds[x] != ds[y]
    ensures records == AfterRun(certs, sig, limit)
    ensures newSaves == SavedRecords(ds, certs, sig, limit)
    ensures newDeletions == DeletedDomains(ds, certs, sig, limit)
  {
    records := certs;
    newSaves := [];
    newDeletions := [];
    var i := 0;
    while i < |ds|
      invariant VisitedPrefix(ds, certs, sig, limit, i, records, newSaves, newDeletions)
      decreases |ds| - i
    {
      var domain := ds[i];
      var t := Visit(certs[domain], sig(domain), limit);
      VisitedPrefixStep(ds, certs, sig, limit, i, records, newSaves, newDeletions);
      records := records[domain := t.next];
      newSaves := newSaves + (if t.saved then [t.next] else []);
      newDeletions := newDeletions + (if t.dnsDeleted then [domain] else []);
      i := i + 1;
    }
    VisitedAll(ds, certs, sig, limit, records, newSaves, newDeletions);
  }

  /** A domain's record as configured: with mode `manual` the certificate is operator-provided. */
  datatype CertificateMode = AcmeMode | ManualMode
  datatype CertificateConfiguration = CertificateConfiguration(hostname: string, mode: CertificateMode, daysBeforeRenewal: int)

  /**
   * A stored record a reload can resume without breaking the record invariant: there is none,
   * the domain is manual, or it is an automatically managed, consistent record of that domain.
   */
  predicate Resumable(config: CertificateConfiguration, stored: Option<CertificateData>) {
    || stored.None?
    || config.mode == ManualMode
    || (stored.value.domain == config.hostname && !stored.value.manual && Consistent(stored.value))
  }

  /**
   * The record a reload installs for a configured domain: a manual domain is AVAILABLE and
   * manual, with the operator's stored certificate; an ACME domain resumes its stored record,
   * or starts WAITING when there is none.
   */
  function LoadedRecord(config: CertificateConfiguration, stored: Option<CertificateData>): (r: CertificateData)
    ensures r.domain == config.hostname && r.daysBeforeRenewal == config.daysBeforeRenewal
    ensures r.manual <==> config.mode == ManualMode
    ensures config.mode == ManualMode ==> r.state == Available
    ensures config.mode == ManualMode ==> r.chain == (if stored.Some? then stored.value.chain else None)
    ensures config.mode == AcmeMode && stored.Some? ==> r.state == stored.value.state && r.chain == stored.value.chain
    ensures config.mode == AcmeMode && stored.None? ==> r.state == Waiting && r.chain.None?
    ensures Resumable(config, stored) ==> Consistent(r)
  {
    var domain := config.hostname;
    match config.mode
    case ManualMode =>
      var chain := if stored.Some? then stored.value.chain else None;
      CertificateData(domain, chain, Available, "", None, true, config.daysBeforeRenewal, 0)
    case AcmeMode =>
      match stored
      case Some(data) => data.(domain := domain, manual := false, daysBeforeRenewal := config.daysBeforeRenewal)
      case None => CertificateData(domain, None, Waiting, "", None, false, config.daysBeforeRenewal, 0)
  }

  predicate DistinctHostnames(configs: seq<CertificateConfiguration>) {
    forall i, j :: 0 <= i < j < |configs| ==> configs[i].hostname != configs[j].hostname
  }

  /**
   * The dynamic certificates manager: the records of the configured domains, the store's
   * write log (`saveCertificate` calls) and the DNS provider's deletion log.
   */
  class CertificatesManager {
    var certificates: map<string, CertificateData>
    var domains: seq<string>
    var saved: seq<CertificateData>
    var dnsDeletions: seq<string>
    const dnsChallengeReachabilityCheckLimit: nat

    /** Every configured domain has exactly one record, keyed by its domain. */
    ghost predicate Valid()
      reads this
    {
      && (forall d :: d in certificates <==> d in domains)
      && (forall i, j :: 0 <= i < j < |domains| ==> domains[i] != domains[j])
      && (forall d :: d in certificates ==> certificates[d].domain == d)
    }

    /** Every record satisfies the record invariant. */
    ghost predicate AllConsistent()
      reads this
    {
      forall d :: d in certificates ==> Consistent(certificates[d])
    }

    constructor (dnsChallengeReachabilityCheckLimit: nat)
      ensures Valid()
      ensures certificates == map[] && domains == [] && saved == [] && dnsDeletions == []
      ensures this.dnsChallengeReachabilityCheckLimit == dnsChallengeReachabilityCheckLimit
    {
      this.dnsChallengeReachabilityCheckLimit := dnsChallengeReachabilityCheckLimit;
      certificates := map[];
      domains := [];
      saved := [];
      dnsDeletions := [];
    }

    /**
     * `reloadConfiguration`: installs one record per configured domain, reading the stored
     * records through `stored` (the store's `loadCertificateForDomain`). Nothing is persisted.
     */
    method ReloadConfiguration(configs: seq<CertificateConfiguration>, stored: string -> Option<CertificateData>)
      requires DistinctHostnames(configs)
      modifies this
      ensures Valid()
      ensures |domains| == |configs| && forall i :: 0 <= i < |configs| ==> domains[i] == configs[i].hostname
      ensures forall i :: 0 <= i < |configs| ==>
                certificates[configs[i].hostname] == LoadedRecord(configs[i], stored(configs[i].hostname))
      ensures saved == old(saved) && dnsDeletions == old(dnsDeletions)
      ensures (forall i :: 0 <= i < |configs| ==> Resumable(configs[i], stored(configs[i].hostname))) ==> AllConsistent()
    {
      var records: map<string, CertificateData> := map[];
      var names: seq<string> := [];
      var i := 0;
      while i < |configs|
        invariant 0 <= i <= |configs|
        invariant |names| == i && forall k :: 0 <= k < i ==> names[k] == configs[k].hostname
        invariant forall d :: d in records <==> d in names
        invariant forall k :: 0 <= k < i ==> records[configs[k].hostname] == LoadedRecord(configs[k], stored(configs[k].hostname))
      {
        var config := configs[i];
        records := records[config.hostname := LoadedRecord(config, stored(config.hostname))];
        names := names + [config.hostname];
        i := i + 1;
      }
      certificates := records;
      domains := names;
    }

    /**
     * `run()`: advances every non-manual record by exactly one transition and persists it
     * unless it was AVAILABLE and stays AVAILABLE; `sig` gives the outside world's answers.
     */
    method Run(sig: string -> Signals)
      requires Valid()
      modifies this
      ensures Valid() && domains == old(domains)
      ensures certificates == AfterRun(old(certificates), sig, dnsChallengeReachabilityCheckLimit)
      ensures saved == old(saved) + SavedRecords(domains, old(certificates), sig, dnsChallengeReachabilityCheckLimit)
      ensures dnsDeletions == old(dnsDeletions) + DeletedDomains(domains, old(certificates), sig, dnsChallengeReachabilityCheckLimit)
      ensures forall d :: d in old(certificates) && Consistent(old(certificates)[d]) ==> Consistent(certificates[d])
      ensures old(AllConsistent()) ==> AllConsistent()
    {
      var records, newSaves, newDeletions := VisitAll(domains, certificates, sig, dnsChallengeReachabilityCheckLimit);
      forall d | d in certificates && Consistent(certificates[d])
        ensures Consistent(records[d])
      {
        if !certificates[d].manual {
          AdvancePreservesConsistent(certificates[d], sig(d), dnsChallengeReachabilityCheckLimit);
        }
      }
      certificates := records;
      saved := saved + newSaves;
      dnsDeletions := dnsDeletions + newDeletions;
    }

    /** `setStateOfCertificate`: an operator override of a record's state, persisted once. */
    method SetStateOfCertificate(domain: string, state: CertificateState)
      requires Valid()
      modifies this
      ensures Valid() && domains == old(domains) && dnsDeletions == old(dnsDeletions)
      ensures domain in old(certificates) ==>
                certificates == old(certificates)[domain := old(certificates)[domain].(state := state)] &&
                saved == old(saved) + [certificates[domain]]
      ensures domain !in old(certificates) ==> certificates == old(certificates) && saved == old(saved)
      ensures old(AllConsistent()) && (domain in old(certificates) ==> Consistent(old(certificates)[domain].(state := state))) ==>
                AllConsistent()
    {
      if domain in certificates {
        var data := certificates[domain].(state := state);
        certificates := certificates[domain := data];
        saved := saved + [data];
      }
    }

    /** `getStateOfCertificate`: the state of the domain's record, None when it has none. */
    method GetStateOfCertificate(domain: string) returns (state: Option<CertificateState>)
      ensures state.Some? <==> domain in certificates
      ensures state.Some? ==> state.value == certificates[domain].state
    {
      if domain in certificates {
        state := Some(certificates[domain].state);
      } else {
        state := None;
      }
    }
  }
}
