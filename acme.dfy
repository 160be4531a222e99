/**
 * The decisions of the ACME client (RFC 8555) used for automatic certificate issuing:
 * directory choice, challenge selection, polling without refreshing final statuses,
 * certificate signing request and certificate download.
 *
 * ACME objects are values here; the two objects whose `update()` the client calls
 * (a challenge and an order) are wrapped in resource classes that count the refreshes.
 * What the ACME server answers to a refresh is a parameter.
 */
module Acme {
  import opened Wrappers
  import Seqs

  /** Status values of ACME objects (section 7.1.6 of RFC 8555), plus the library's UNKNOWN. */
  datatype Status = Pending | Ready | Processing | Valid | Invalid | Deactivated | Expired | Revoked | Unknown

  /** The statuses after which the client stops polling a challenge or an order. */
  predicate IsFinal(s: Status) {
    s == Valid || s == Invalid
  }

  /** Challenge type names (sections 8.3 and 8.4 of RFC 8555). */
  const HTTP_01: string := "http-01"
  const DNS_01: string := "dns-01"

  /** Let's Encrypt directory URLs. */
  const PRODUCTION_CA: string := "https://acme-v02.api.letsencrypt.org/directory"
  const TESTING_CA: string := "https://acme-staging-v02.api.letsencrypt.org/directory"

  datatype KeyPair = KeyPair(publicKey: string, privateKey: string)
  datatype Login = Login(directory: string, accountKey: KeyPair)

  /** A challenge offered by an authorization (section 7.1.5 of RFC 8555). */
  datatype Challenge = Challenge(kind: string, status: Status, token: string)
  datatype Identifier = Identifier(domain: string)

  /** An authorization (section 7.1.4 of RFC 8555): one identifier and the challenges offered for it. */
  datatype Authorization = Authorization(identifier: Identifier, status: Status, challenges: seq<Challenge>)

  datatype Certificate = Certificate(location: string, chain: seq<string>)

  /** An order (section 7.1.3 of RFC 8555); `certificate` is present once it has been issued. */
  datatype Order = Order(
    location: string,
    identifiers: seq<Identifier>,
    authorizations: seq<Authorization>,
    status: Status,
    certificate: Option<Certificate>)

  /** A certificate signing request: the domains it names and the key that signs it. */
  datatype Csr = Csr(domains: seq<string>, key: KeyPair)

  /**
   * What the client throws: an AcmeException with a message, or the
   * IndexOutOfBoundsException of `get(0)` on an empty list.
   */
  datatype AcmeError = AcmeException(message: string) | IndexOutOfBounds

  /** The client's two final fields. */
  datatype AcmeClient = AcmeClient(userKey: KeyPair, testingModeOn: bool) {

    /** The session goes to the staging directory exactly in testing mode. */
    function GetLogin(): (login: Login)
      ensures login.directory == TESTING_CA <==> testingModeOn
      ensures login.directory == PRODUCTION_CA <==> !testingModeOn
      ensures login.accountKey == userKey
    {
      assert TESTING_CA[13] != PRODUCTION_CA[13];
      Login(if testingModeOn then TESTING_CA else PRODUCTION_CA, userKey)
    }
  }

  /** `auth.findChallenge(type)`: the first offered challenge of that type, or null. */
  function FindChallenge(auth: Authorization, kind: string): (r: Option<Challenge>)
    ensures r.Some? ==> r.value.kind == kind && r.value in auth.challenges
    ensures r.Some? ==> exists i :: 0 <= i < |auth.challenges| && auth.challenges[i] == r.value &&
                                    forall j :: 0 <= j < i ==> auth.challenges[j].kind != kind
    ensures r.None? <==> forall c :: c in auth.challenges ==> c.kind != kind
  {
    match Seqs.FirstIndexWhere(auth.challenges, (c: Challenge) => c.kind == kind)
    case None => None
    case Some(i) => Some(auth.challenges[i])
  }

  /** The challenge of type `kind` the authorization offers, or the exception thrown when there is none. */
  function ChallengeOfType(auth: Authorization, kind: string): Result<Challenge, AcmeError> {
    match FindChallenge(auth, kind)
    case None => Failure(AcmeException("Found no " + kind + " challenge, don't know what to do..."))
    case Some(c) => Success(c)
  }

  /** `httpChallenge`: the http-01 challenge of the authorization. */
  function HttpChallenge(auth: Authorization): (r: Result<Challenge, AcmeError>)
    ensures r.Success? ==> r.value.kind == HTTP_01 && r.value in auth.challenges
    ensures r.Success? ==> FindChallenge(auth, HTTP_01) == Some(r.value)
    ensures r.Failure? <==> forall c :: c in auth.challenges ==> c.kind != HTTP_01
    ensures r.Failure? ==> r.error == AcmeException("Found no " + HTTP_01 + " challenge, don't know what to do...")
  {
    ChallengeOfType(auth, HTTP_01)
  }

  /** `dnsChallenge`: the dns-01 challenge of the authorization. */
  function DnsChallenge(auth: Authorization): (r: Result<Challenge, AcmeError>)
    ensures r.Success? ==> r.value.kind == DNS_01 && r.value in auth.challenges
    ensures r.Success? ==> FindChallenge(auth, DNS_01) == Some(r.value)
    ensures r.Failure? <==> forall c :: c in auth.challenges ==> c.kind != DNS_01
    ensures r.Failure? ==> r.error == AcmeException("Found no " + DNS_01 + " challenge, don't know what to do...")
  {
    ChallengeOfType(auth, DNS_01)
  }

  /**
   * `getChallengeForOrder`: the challenge still to be completed for the first authorization of
   * the order, None (Java's null) when nothing is left to do.
   */
  function GetChallengeForOrder(order: Order, dnsChallenge: bool): (r: Result<Option<Challenge>, AcmeError>)
    ensures order.authorizations == [] ==> r == Failure(IndexOutOfBounds)
    ensures order.authorizations != [] && order.authorizations[0].status == Valid ==> r == Success(None)
    ensures r.Success? && r.value.Some? ==>
              var c := r.value.value;
              c in order.authorizations[0].challenges
              && c.kind == (if dnsChallenge then DNS_01 else HTTP_01)
              && c.status != Valid
    ensures r.Failure? <==>
              order.authorizations == [] ||
              (order.authorizations[0].status != Valid &&
               forall c :: c in order.authorizations[0].challenges ==>
                             c.kind != (if dnsChallenge then DNS_01 else HTTP_01))
    ensures order.authorizations != [] && order.authorizations[0].status != Valid && r.Success? ==>
              var f := FindChallenge(order.authorizations[0], if dnsChallenge then DNS_01 else HTTP_01);
              && f.Some?
              && (r.value.None? <==> f.value.status == Valid)
              && (r.value.Some? ==> Some(r.value.value) == f)
  {
    if order.authorizations == [] then Failure(IndexOutOfBounds)
    else
      var auth := order.authorizations[0];
      if auth.status == Valid then Success(None)
      else
        var challenge :- if dnsChallenge then DnsChallenge(auth) else HttpChallenge(auth);
        if challenge.status == Valid then Success(None) else Success(Some(challenge))
  }

  /** The domains of the order's identifiers, in order: what the CSR of `orderCertificate` names. */
  function CsrDomains(ids: seq<Identifier>): (domains: seq<string>)
    ensures |domains| == |ids|
    ensures forall i :: 0 <= i < |ids| ==> domains[i] == ids[i].domain
  {
    if ids == [] then [] else [ids[0].domain] + CsrDomains(ids[1..])
  }

  /**
   * What `checkResponseForOrder` reports for an order: its status as last fetched. The
   * log line before it reads the first identifier, which throws on an empty list.
   */
  function PolledOrderStatus(order: Order): (r: Result<Status, AcmeError>)
    ensures r.Failure? <==> order.identifiers == []
    ensures r.Success? ==> r.value == order.status
  {
    if order.identifiers == [] then Failure(IndexOutOfBounds) else Success(order.status)
  }

  /**
   * `fetchCertificateForOrder`: the issued certificate. The first identifier is read (for
   * the log) before the null check, so an order without identifiers throws first.
   */
  function FetchCertificateForOrder(order: Order): (r: Result<Certificate, AcmeError>)
    ensures r.Success? <==> order.identifiers != [] && order.certificate.Some?
    ensures r.Success? ==> order.certificate == Some(r.value)
    ensures order.identifiers != [] && order.certificate.None? ==>
              r == Failure(AcmeException("Certificate not fetched"))
  {
    var certificate := order.certificate;
    if order.identifiers == [] then Failure(IndexOutOfBounds)
    else if certificate.None? then Failure(AcmeException("Certificate not fetched"))
    else Success(certificate.value)
  }

  /** A challenge resource on the ACME server, as the client holds it. */
  class ChallengeResource {
    var challenge: Challenge
    var refreshes: nat

    constructor (challenge: Challenge)
      ensures this.challenge == challenge && refreshes == 0
    {
      this.challenge := challenge;
      refreshes := 0;
    }

    /** `update()`: fetches the server's current view of the challenge. */
    method Update(serverView: Challenge)
      modifies this
      ensures challenge == serverView && refreshes == old(refreshes) + 1
    {
      challenge := serverView;
      refreshes := refreshes + 1;
    }
  }

  /** An order resource on the ACME server, with the CSRs it was finalized with. */
  class OrderResource {
    var order: Order
    var refreshes: nat
    var executed: seq<Csr>

    constructor (order: Order)
      ensures this.order == order && refreshes == 0 && executed == []
    {
      this.order := order;
      refreshes := 0;
      executed := [];
    }

    /** `update()`: fetches the server's current view of the order. */
    method Update(serverView: Order)
      modifies this
      ensures order == serverView && refreshes == old(refreshes) + 1 && executed == old(executed)
    {
      order := serverView;
      refreshes := refreshes + 1;
    }

    /** `execute(csr)`: finalizes the order (section 7.4 of RFC 8555). */
    method Execute(csr: Csr)
      modifies this
      ensures executed == old(executed) + [csr] && order == old(order) && refreshes == old(refreshes)
    {
      executed := executed + [csr];
    }
  }

  /**
   * `checkResponseForChallenge`: the status the challenge had before this call; the challenge
   * is refreshed only when that status is not final.
   */
  method CheckResponseForChallenge(challenge: ChallengeResource, serverView: Challenge) returns (status: Status)
    modifies challenge
    ensures status == old(challenge.challenge.status)
    ensures IsFinal(status) ==> challenge.challenge == old(challenge.challenge) && challenge.refreshes == old(challenge.refreshes)
    ensures !IsFinal(status) ==> challenge.challenge == serverView && challenge.refreshes == old(challenge.refreshes) + 1
  {
    status := challenge.challenge.status;
    if status == Valid {
    } else if status != Invalid {
      challenge.Update(serverView);
    }
  }

  /**
   * `checkResponseForOrder`: the order's status before this call, refreshing the order only
   * when that status is not final.
   */
  method CheckResponseForOrder(order: OrderResource, serverView: Order) returns (r: Result<Status, AcmeError>)
    modifies order
    ensures r == PolledOrderStatus(old(order.order))
    ensures order.executed == old(order.executed)
    ensures r.Success? && !IsFinal(r.value) ==> order.order == serverView && order.refreshes == old(order.refreshes) + 1
    ensures !(r.Success? && !IsFinal(r.value)) ==> order.order == old(order.order) && order.refreshes == old(order.refreshes)
  {
    if order.order.identifiers == [] {
      return Failure(IndexOutOfBounds);
    }
    var status := order.order.status;
    if status == Valid {
    } else if status != Invalid {
      order.Update(serverView);
    }
    r := Success(status);
  }

  /**
   * `orderCertificate`: submits, exactly once, a CSR signed by the domain key that names the
   * order's identifier domains in order.
   */
  method OrderCertificate(order: OrderResource, domainKeyPair: KeyPair)
    modifies order
    ensures order.executed == old(order.executed) + [Csr(CsrDomains(old(order.order.identifiers)), domainKeyPair)]
    ensures order.order == old(order.order) && order.refreshes == old(order.refreshes)
  {
    var domains := CsrDomains(order.order.identifiers);
    order.Execute(Csr(domains, domainKeyPair));
  }
}
