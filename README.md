# carapaceproxy core, modelled in Dafny

This project models four parts of the carapace reverse proxy and proves properties of them.

- **Dynamic certificate manager.** Each configured domain has a certificate record. Every
  `run()` moves each automatically managed record one step through its lifecycle. An HTTP-01
  domain goes WAITING → VERIFYING → VERIFIED → ORDERING → AVAILABLE. A wildcard domain uses
  DNS-01 and goes WAITING → DNS_CHALLENGE_WAIT → VERIFYING → VERIFIED → ORDERING → AVAILABLE.
  When no challenge is left to complete, WAITING goes straight to VERIFIED. The side branches
  are REQUEST_FAILED and EXPIRED, and both lead back to WAITING. A run persists the records it touches and deletes the DNS TXT records it no longer
  needs. Manual (operator-provided) certificates are never advanced.
- **ACME client decisions** (RFC 8555).
  - Which directory the session uses.
  - Which challenge of an order still has to be completed (sections 7.1.4, 8.3 and 8.4).
  - Refreshing challenges and orders only when their status is not final (section 7.1.6).
  - Finalizing an order with a CSR naming its identifiers (section 7.4).
  - Downloading the issued certificate (section 7.4.2).
- **Standard endpoint mapper.** A registry of backends, actions and routes that rejects
  duplicate ids. Requests are mapped to a backend by the first route that matches and that has
  a registered backend.
- **Listener configuration.**
  - Building a listener from `listener.<i>.*` properties: six defaults, per-key overrides,
    and the `maxKeepAliveRequests` rule.
  - Replacing the table of listening channels, keyed by (host, port), on a reload.

Files (modules):

- `wrappers.dfy` (`Wrappers`): Option, Result and Outcome.
- `seqs.dfy` (`Seqs`): first index satisfying a predicate.
- `text.dfy` (`Text`):
  - ASCII case folding and `equalsIgnoreCase`;
  - `Boolean.parseBoolean`;
  - `Integer.parseInt` over the 32-bit range, with its round trip against the decimal rendering.
- `acme.dfy` (`Acme`): `ACMEClient`.
- `certificates.dfy` (`Certificates`): the lifecycle state machine and the `CertificatesManager`
  class.
- `certificate_scenarios.dfy` (`CertificateScenarios`): sequences of runs under the answers of
  the manager's HTTP-01 and DNS-01 scenarios.
- `endpoint_mapper.dfy` (`EndpointMapper`): the `StandardEndpointMapper` class.
- `listeners.dfy` (`Listeners`): listener building and the `Listeners` class.

The outside world is passed in as parameters:

- **Certificate manager.** A `Signals` value per domain and per run carries what the ACME
  server and the DNS provider answer:
  - whether the ACME call fails with an exception;
  - the order and its status;
  - the challenge status;
  - whether the TXT record could be created, and whether it is visible;
  - whether the issued chain is due for renewal.
- **Endpoint mapper.** Route matching is a function from a route to an optional routing key.
  Backend selection is a function from a routing key to a list of ids.
- **Backend shuffle.** The random draws are a function from a position to a number.
- **Listeners.** The number of listener indices scanned on a reload is a parameter.

The implementation of `DynamicCertificatesManager` is not part of this model. Its transition
table is reconstructed from `DynamicCertificatesManagerTest.java`, and each scenario of that
test is a lemma in `CertificateScenarios`.

The DNS visibility limit is modelled as follows:
- `attempts` counts the failed visibility checks since the record entered DNS_CHALLENGE_WAIT;
- the challenge is abandoned on the check that brings `attempts` to the limit.

With the limit of 2 used by the test, the record therefore waits one run and fails on the next,
and the test asserts exactly this. The model follows the test.

The implementation of the listener parser is not part of this model either, so building a
listener follows the test. A listener exists at index i when both `host` and `port` are set.
Absent options take their defaults. A malformed number is an error. An invalid
`maxKeepAliveRequests` is rejected by the listener's constructor with the message
"maxKeepAliveRequests must be positive or -1". The listeners come out in index order, one per
configured index, and a failed scan reports the error of the first index that fails. When two
listeners share an address, the later one's channel stays in the table.

## Model

| member | source | states |
|---|---|---|
| Acme.AcmeClient.GetLogin | carapace-server/src/main/java/org/carapaceproxy/server/certificates/ACMEClient.java:57-90 | the session uses the staging directory if and only if testing mode is on, the production directory if and only if it is off, and the user key pair as account key |
| Acme.FindChallenge | carapace-server/src/main/java/org/carapaceproxy/server/certificates/ACMEClient.java:137-140 | the result is an offered challenge of the requested type with no earlier challenge of that type; it is absent exactly when no offered challenge has that type |
| Acme.HttpChallenge | carapace-server/src/main/java/org/carapaceproxy/server/certificates/ACMEClient.java:136-146 | it fails exactly when the authorization offers no http-01 challenge, with the AcmeException "Found no http-01 challenge, don't know what to do..."; on success it returns the first offered http-01 challenge |
| Acme.DnsChallenge | carapace-server/src/main/java/org/carapaceproxy/server/certificates/ACMEClient.java:158-167 | it fails exactly when the authorization offers no dns-01 challenge, with the AcmeException "Found no dns-01 challenge, don't know what to do..."; on success it returns the first offered dns-01 challenge |
| Acme.GetChallengeForOrder | carapace-server/src/main/java/org/carapaceproxy/server/certificates/ACMEClient.java:101-125 | no authorizations: index error; first authorization VALID: null, whatever its challenges; otherwise the first challenge of the requested type (dns-01 exactly when asked) is looked up, the call fails exactly when there is none, and it returns null exactly when that challenge is VALID and that challenge itself otherwise |
| Acme.CsrDomains | carapace-server/src/main/java/org/carapaceproxy/server/certificates/ACMEClient.java:192 | the CSR names exactly the order's identifier domains, one per identifier, in order |
| Acme.OrderCertificate | carapace-server/src/main/java/org/carapaceproxy/server/certificates/ACMEClient.java:191-200 | the order is executed exactly once, with a CSR for the identifier domains and the domain key pair; the order is not refreshed |
| Acme.CheckResponseForChallenge | carapace-server/src/main/java/org/carapaceproxy/server/certificates/ACMEClient.java:169-181 | returns the status from before the call; the challenge is refreshed once when that status is not VALID or INVALID, and left untouched otherwise |
| Acme.PolledOrderStatus | carapace-server/src/main/java/org/carapaceproxy/server/certificates/ACMEClient.java:202-204 | the order's status, or an index error exactly when the order has no identifiers (the log line reads the first one) |
| Acme.CheckResponseForOrder | carapace-server/src/main/java/org/carapaceproxy/server/certificates/ACMEClient.java:202-213 | returns the status from before the call; the order is refreshed once exactly when that status is not final, is otherwise unchanged, and is never executed |
| Acme.FetchCertificateForOrder | carapace-server/src/main/java/org/carapaceproxy/server/certificates/ACMEClient.java:215-225 | succeeds exactly when the order has identifiers and a certificate, and then returns that certificate; without a certificate it throws "Certificate not fetched" |
| Certificates.Advance | carapace-server/src/test/java/org/carapaceproxy/server/certificates/DynamicCertificatesManagerTest.java:161-199 | a step only moves to a permitted successor state and keeps the domain and manual flag; an ACME failure in a state that calls ACME changes nothing and saves nothing; otherwise the step is saved unless the record was AVAILABLE and stays AVAILABLE; DNS records are deleted exactly for wildcard domains leaving DNS_CHALLENGE_WAIT or VERIFYING for VERIFIED or REQUEST_FAILED |
| Certificates.WildcardDomains | carapace-server/src/test/java/org/carapaceproxy/server/certificates/DynamicCertificatesManagerTest.java:264-280 | "*.localhost" is a wildcard domain; "localhost" and "localhost0" are not |
| Certificates.WaitingStep | carapace-server/src/test/java/org/carapaceproxy/server/certificates/DynamicCertificatesManagerTest.java:161-165 | WAITING: an ACME failure changes nothing; no challenge left gives VERIFIED with the order saved; an HTTP-01 challenge gives VERIFYING with that challenge pending; a wildcard domain whose TXT record is not created stays WAITING with the order saved, and otherwise enters DNS_CHALLENGE_WAIT with the challenge pending and no failed check |
| Certificates.DnsChallengeWaitStep | carapace-server/src/test/java/org/carapaceproxy/server/certificates/DynamicCertificatesManagerTest.java:293-304 | DNS_CHALLENGE_WAIT: a visible record gives VERIFYING with nothing deleted; otherwise one more failed check, and REQUEST_FAILED with the TXT record deleted when that check reaches the limit |
| Certificates.VerifyingStep | carapace-server/src/test/java/org/carapaceproxy/server/certificates/DynamicCertificatesManagerTest.java:172-176 | VERIFYING: a VALID challenge gives VERIFIED, an INVALID one REQUEST_FAILED, each deleting the TXT record exactly for a wildcard domain; any other status leaves the record as it is, saved |
| Certificates.VerifiedStep | carapace-server/src/test/java/org/carapaceproxy/server/certificates/DynamicCertificatesManagerTest.java:167-170 | VERIFIED: the order is finalized and the record goes to ORDERING, saved |
| Certificates.OrderingStep | carapace-server/src/test/java/org/carapaceproxy/server/certificates/DynamicCertificatesManagerTest.java:179-186 | ORDERING: a VALID order whose certificate is fetched gives AVAILABLE with that chain; an INVALID order gives REQUEST_FAILED; a failed poll or fetch changes nothing; any other status leaves the record as it is, saved |
| Certificates.AvailableStep | carapace-server/src/test/java/org/carapaceproxy/server/certificates/DynamicCertificatesManagerTest.java:187-197 | AVAILABLE: a due chain gives EXPIRED, saved; otherwise nothing changes and nothing is saved |
| Certificates.Visit | carapace-server/src/test/java/org/carapaceproxy/server/certificates/DynamicCertificatesManagerTest.java:153-165 | a manual record is left as it is, unsaved and without DNS cleanup; any other record takes the step Advance gives |
| Certificates.RestartsAfterFailureOrExpiry | carapace-server/src/test/java/org/carapaceproxy/server/certificates/DynamicCertificatesManagerTest.java:184-196 | REQUEST_FAILED and EXPIRED always go to WAITING on the next run, with nothing else changed, and are persisted |
| Certificates.AdvancePreservesConsistent | carapace-server/src/test/java/org/carapaceproxy/server/certificates/DynamicCertificatesManagerTest.java:161-199 | a step keeps the record invariant: a pending challenge of the domain's type while verifying, DNS_CHALLENGE_WAIT only for wildcards, a chain when an issued certificate is AVAILABLE |
| Certificates.ManualRecordsUntouched | carapace-server/src/test/java/org/carapaceproxy/server/certificates/DynamicCertificatesManagerTest.java:153-163 | a manual record, whatever its state, is neither advanced, persisted nor DNS-cleaned by a run |
| Certificates.SavedRecordsCount | carapace-server/src/test/java/org/carapaceproxy/server/certificates/DynamicCertificatesManagerTest.java:159-197 | the number of saveCertificate calls of a run equals the number of configured domains whose step is saved |
| Certificates.VisitAll | carapace-server/src/test/java/org/carapaceproxy/server/certificates/DynamicCertificatesManagerTest.java:159-197 | the loop over the configured domains produces the records after the run and both logs, in domain order |
| Certificates.LoadedRecord | carapace-server/src/test/java/org/carapaceproxy/server/certificates/DynamicCertificatesManagerTest.java:121-154 | a manual domain is loaded AVAILABLE and manual with the stored certificate, if any; an ACME domain resumes the stored state and chain, or starts WAITING without a chain; the loaded record satisfies the record invariant whenever the stored one can be resumed |
| Certificates.CertificatesManager.ReloadConfiguration | carapace-server/src/test/java/org/carapaceproxy/server/certificates/DynamicCertificatesManagerTest.java:137-154 | one record per configured domain as LoadedRecord gives it, domains in configuration order, nothing persisted; every record satisfies the record invariant when every stored record can be resumed |
| Certificates.CertificatesManager.Run | carapace-server/src/test/java/org/carapaceproxy/server/certificates/DynamicCertificatesManagerTest.java:159-197 | every record takes exactly one step (manual ones none); the store log grows by the saved records and the DNS log by the deleted domains, in domain order; the manager invariant is kept, and every record that satisfied the record invariant still does |
| Certificates.CertificatesManager.SetStateOfCertificate | carapace-server/src/test/java/org/carapaceproxy/server/certificates/DynamicCertificatesManagerTest.java:156-157 | the record takes the new state, nothing else changes, and it is persisted exactly once; the record invariant of all records is kept when the overridden record still satisfies it |
| Certificates.CertificatesManager.GetStateOfCertificate | carapace-server/src/test/java/org/carapaceproxy/server/certificates/DynamicCertificatesManagerTest.java:153-157 | the record's state, present exactly when the domain has a record |
| CertificateScenarios.Runs | carapace-server/src/test/java/org/carapaceproxy/server/certificates/DynamicCertificatesManagerTest.java:163-197 | n successive runs: the first visits the record, and each later one visits the previous run's result |
| CertificateScenarios.HttpAllOk | carapace-server/src/test/java/org/carapaceproxy/server/certificates/DynamicCertificatesManagerTest.java:161-199 | all ACME answers valid: VERIFYING, VERIFIED, ORDERING, AVAILABLE, then AVAILABLE twice; saved on the first four runs only |
| CertificateScenarios.HttpChallengeNull | carapace-server/src/test/java/org/carapaceproxy/server/certificates/DynamicCertificatesManagerTest.java:100-170 | no challenge left: VERIFIED on the first run, then ORDERING and AVAILABLE, each persisted |
| CertificateScenarios.HttpChallengeInvalid | carapace-server/src/test/java/org/carapaceproxy/server/certificates/DynamicCertificatesManagerTest.java:172-176 | invalid challenge: VERIFYING, REQUEST_FAILED, WAITING, each persisted |
| CertificateScenarios.HttpOrderInvalid | carapace-server/src/test/java/org/carapaceproxy/server/certificates/DynamicCertificatesManagerTest.java:179-186 | invalid order: VERIFYING, VERIFIED, ORDERING, REQUEST_FAILED, WAITING, each persisted |
| CertificateScenarios.HttpAvailableToExpired | carapace-server/src/test/java/org/carapaceproxy/server/certificates/DynamicCertificatesManagerTest.java:106-197 | a due chain: AVAILABLE, then EXPIRED, then WAITING, every step persisted |
| CertificateScenarios.DnsCreationFailed | carapace-server/src/test/java/org/carapaceproxy/server/certificates/DynamicCertificatesManagerTest.java:283-289 | wildcard domain, TXT record not created: stays WAITING, is saved, nothing deleted |
| CertificateScenarios.DnsCheckLimitExpired | carapace-server/src/test/java/org/carapaceproxy/server/certificates/DynamicCertificatesManagerTest.java:216-301 | limit 2, TXT record never visible: DNS_CHALLENGE_WAIT twice, then REQUEST_FAILED; saved on each run; the record deleted exactly once, on the last run |
| CertificateScenarios.DnsChallengeVerified | carapace-server/src/test/java/org/carapaceproxy/server/certificates/DynamicCertificatesManagerTest.java:303-316 | visible record and valid challenge: DNS_CHALLENGE_WAIT, VERIFYING, VERIFIED; the record deleted exactly once |
| CertificateScenarios.DnsChallengeFailed | carapace-server/src/test/java/org/carapaceproxy/server/certificates/DynamicCertificatesManagerTest.java:303-311 | visible record and invalid challenge: DNS_CHALLENGE_WAIT, VERIFYING, REQUEST_FAILED; the record deleted exactly once |
| CertificateScenarios.DnsGivesUpAtLimit | carapace-server/src/test/java/org/carapaceproxy/server/certificates/DynamicCertificatesManagerTest.java:293-301 | for any limit, a never-visible TXT record waits until the limit is reached, then fails with exactly one deletion, on the last run; every run is saved |
| CertificateScenarios.AvailableNotDueIsQuiet | carapace-server/src/test/java/org/carapaceproxy/server/certificates/DynamicCertificatesManagerTest.java:187-191 | an AVAILABLE record that is not due is left exactly as it is, and is not persisted |
| CertificateScenarios.ThreeDomainRun | carapace-server/src/test/java/org/carapaceproxy/server/certificates/DynamicCertificatesManagerTest.java:121-197 | with an issued, not-due domain, a domain being issued and a manual domain, a run persists only the middle one, and only when its step is saved |
| EndpointMapper.ScanBackends | src/main/java/nettyhttpproxy/server/mapper/StandardEndpointMapper.java:97-115 | other action types decide NOT_FOUND as soon as there is a selected id; for PROXY and CACHE the scan decides exactly when some selected id is registered, giving the first registered one's host and port with the matching action |
| EndpointMapper.StandardEndpointMapper.AddBackend | src/main/java/nettyhttpproxy/server/mapper/StandardEndpointMapper.java:67-72 | the entry is always overwritten; it fails exactly on a duplicate id, with the message naming it and the id list unchanged; a fresh id is appended |
| EndpointMapper.StandardEndpointMapper.AddAction | src/main/java/nettyhttpproxy/server/mapper/StandardEndpointMapper.java:74-78 | the entry is always overwritten; it fails exactly on a duplicate id, with the message naming it; nothing else changes |
| EndpointMapper.StandardEndpointMapper.AddRoute | src/main/java/nettyhttpproxy/server/mapper/StandardEndpointMapper.java:80-85 | it fails exactly when a route id equal ignoring case exists, leaving the routes unchanged; otherwise the route is appended at the end |
| EndpointMapper.StandardEndpointMapper.Map | src/main/java/nettyhttpproxy/server/mapper/StandardEndpointMapper.java:88-119 | the nested loops with early returns compute what the route-by-route specification MapRoutes gives |
| EndpointMapper.StandardEndpointMapper.SelectBackends | src/main/java/nettyhttpproxy/server/mapper/StandardEndpointMapper.java:52-61 | the result is a permutation of the registered backend ids, and the registry is not modified |
| EndpointMapper.NoMatchIsNotFound | src/main/java/nettyhttpproxy/server/mapper/StandardEndpointMapper.java:89-118 | when no route matches, the result is NOT_FOUND |
| EndpointMapper.SkipsNonMatching | src/main/java/nettyhttpproxy/server/mapper/StandardEndpointMapper.java:89-91 | routes that do not match the request have no effect on the result |
| EndpointMapper.UnknownActionIsNotFound | src/main/java/nettyhttpproxy/server/mapper/StandardEndpointMapper.java:92-95 | a matching route whose action is not registered gives NOT_FOUND, whatever the later routes |
| EndpointMapper.OtherActionType | src/main/java/nettyhttpproxy/server/mapper/StandardEndpointMapper.java:112-113 | a matching route of another action type gives NOT_FOUND when any backend id is selected, and falls through to the later routes when none is |
| EndpointMapper.ProxyOrCacheFirstRegistered | src/main/java/nettyhttpproxy/server/mapper/StandardEndpointMapper.java:97-111 | a matching PROXY or CACHE route maps to the first selected registered backend with the route's action, and falls through to the later routes when no selected id is registered |
| EndpointMapper.MappedIsSound | src/main/java/nettyhttpproxy/server/mapper/StandardEndpointMapper.java:88-123 | a mapped result always comes from a matching route with a registered PROXY or CACHE action and a selected, registered backend whose host and port it carries |
| EndpointMapper.AllBackendsSelectedIsMapped | src/main/java/nettyhttpproxy/server/mapper/StandardEndpointMapper.java:96-111 | a matching PROXY or CACHE route whose selection is nonempty and entirely registered is always mapped |
| Text.EqualsIgnoreCaseIsFoldedEquality | src/main/java/nettyhttpproxy/server/mapper/StandardEndpointMapper.java:81 | two ids are equal ignoring case if and only if their case-folded forms are equal |
| Text.ParseIntOfIntToString | carapace-server/src/test/java/org/carapaceproxy/listeners/ListenerConfigurationTest.java:72-77 | every 32-bit integer written in decimal parses back to itself |
| Text.ParseInt | carapace-server/src/test/java/org/carapaceproxy/listeners/ListenerConfigurationTest.java:72-77 | the text parses exactly when it is a numeral (a digit, or a sign followed by at least one digit, then digits only) whose value lies in the 32-bit range, and then gives that value, with leading zeros and a leading "+" allowed; otherwise None stands for the NumberFormatException |
| Text.ParseIntExamples | carapace-server/src/test/java/org/carapaceproxy/listeners/ListenerConfigurationTest.java:72-77 | "+5" gives 5, "-05" gives -5, "-0" gives 0; the empty text, a lone sign and "1a" are rejected |
| Text.ParseIntMaxEdge | carapace-server/src/test/java/org/carapaceproxy/listeners/ListenerConfigurationTest.java:72-77 | "2147483647" parses to the largest 32-bit value and "2147483648" is rejected |
| Text.ParseIntMinEdge | carapace-server/src/test/java/org/carapaceproxy/listeners/ListenerConfigurationTest.java:72-77 | "-2147483648" parses to the smallest 32-bit value and "-2147483649" is rejected |
| Listeners.GetInt | carapace-server/src/test/java/org/carapaceproxy/listeners/ListenerConfigurationTest.java:42-48 | an absent property gives its default; a present one gives its parsed value, or an error naming the key and value exactly when it is not a number |
| Listeners.GetBoolean | carapace-server/src/test/java/org/carapaceproxy/listeners/ListenerConfigurationTest.java:51-63 | an absent property gives its default; a present one is true exactly when it is "true" in any case |
| Listeners.NewListener | carapace-server/src/test/java/org/carapaceproxy/listeners/ListenerConfigurationTest.java:91-125 | a listener is built if and only if maxKeepAliveRequests is -1 or positive, and it then carries exactly the given arguments; otherwise IllegalArgument "maxKeepAliveRequests must be positive or -1" |
| Listeners.ListenerAtSpec | carapace-server/src/test/java/org/carapaceproxy/listeners/ListenerConfigurationTest.java:27-125 | listener i is absent exactly when its host or port is unset; a built listener has the configured host, the parsed port, each integer option or its default, the keepalive flag and a valid maxKeepAliveRequests; an error names an integer option that does not parse, with its value, or is the constructor's message |
| Listeners.Defaults | carapace-server/src/test/java/org/carapaceproxy/listeners/ListenerConfigurationTest.java:42-48 | with only host and port set, the listener has keep-alive on, backlog 128, idle 300, interval 60, count 8 and 1000 requests |
| Listeners.OverrideSetsOnlyItsField | carapace-server/src/test/java/org/carapaceproxy/listeners/ListenerConfigurationTest.java:66-89 | setting one integer option to v gives the same listener with only that field set to v |
| Listeners.KeepAliveOverride | carapace-server/src/test/java/org/carapaceproxy/listeners/ListenerConfigurationTest.java:51-63 | setting keepalive to "true" or "false" turns keep-alive on or off and changes no other field |
| Listeners.ListenersFromProperties | carapace-server/src/test/java/org/carapaceproxy/listeners/ListenerConfigurationTest.java:129-133 | on success, the result holds exactly the listeners configured at the scanned indices and every index builds without error; a failure comes from some index that fails |
| Listeners.ConfiguredIndicesOrdered | carapace-server/src/test/java/org/carapaceproxy/listeners/ListenerConfigurationTest.java:129-133 | the configured indices are increasing and are exactly the scanned indices whose listener is set and builds |
| Listeners.ListenersInIndexOrder | carapace-server/src/test/java/org/carapaceproxy/listeners/ListenerConfigurationTest.java:129-133 | a successful scan gives one listener per configured index, in index order |
| Listeners.FirstErrorReported | carapace-server/src/test/java/org/carapaceproxy/listeners/ListenerConfigurationTest.java:91-133 | a failed scan reports the error of the first index that fails, every earlier index building without error |
| Listeners.TableChannels | carapace-server/src/test/java/org/carapaceproxy/listeners/ListenerConfigurationTest.java:37-40 | every listener's address has a channel, and every channel holds a listener at its own address |
| Listeners.TableOfDistinctKeys | carapace-server/src/test/java/org/carapaceproxy/listeners/ListenerConfigurationTest.java:60-63 | listeners on distinct addresses give exactly one channel each, holding that listener |
| Listeners.LastOnAddressWins | carapace-server/src/test/java/org/carapaceproxy/listeners/ListenerConfigurationTest.java:37-63 | a listener that no later listener shares its address with holds the channel of that address |
| Listeners.Listeners.ReloadConfiguration | carapace-server/src/test/java/org/carapaceproxy/listeners/ListenerConfigurationTest.java:129-133 | on a configuration error the error is reported and the channels are unchanged; otherwise the channel table is replaced by the table of the configured listeners |
| Listeners.ScanOfListenerOne | carapace-server/src/test/java/org/carapaceproxy/listeners/ListenerConfigurationTest.java:27-34 | when index 0 has no host, scanning indices 0 and 1 gives exactly what listener 1 gives |
| Listeners.ScenarioDefaults | carapace-server/src/test/java/org/carapaceproxy/listeners/ListenerConfigurationTest.java:27-48 | the boot configuration gives one listener with all defaults, and one channel keyed by localhost:8080 |
| Listeners.ScenarioKeepAliveOff | carapace-server/src/test/java/org/carapaceproxy/listeners/ListenerConfigurationTest.java:51-64 | keepalive=false gives exactly one channel, keyed by localhost:8080, with keep-alive off |
| Listeners.ScenarioOverrides | carapace-server/src/test/java/org/carapaceproxy/listeners/ListenerConfigurationTest.java:66-89 | the explicit options give keep-alive on, backlog 10, idle 10, interval 5, count 2 and 2 requests |
| Listeners.ScenarioInvalidMaxKeepAliveRequests | carapace-server/src/test/java/org/carapaceproxy/listeners/ListenerConfigurationTest.java:91-125 | maxkeepaliverequests of -10 or 0 makes the reload fail with "maxKeepAliveRequests must be positive or -1" |

## Left out

- `DynamicCertificatesManager` itself is not part of this model. Its transition table is
  reconstructed from its test. The decisions are: which ACME states call the server, "errors
  change nothing", and the counter semantics of the DNS limit described above.
- The network and cryptography in `ACMEClient` are left out:
  - the `Session` and `AccountBuilder` login;
  - `newOrder().create()` (`createOrderForDomain`);
  - BouncyCastle registration;
  - CSR signing and encoding.
  An order, a challenge and their `update()` are values, with the server's answer passed in.
- The `getChallengeForOrder` check that throws "No challenge found" cannot trigger, because
  `httpChallenge` and `dnsChallenge` already throw on a missing challenge, so it has no member.
- X.509 parsing, base64 chain encoding and the wall-clock expiry computation are left out. The
  `daysbeforerenewal` check is a boolean "chain due" answer.
- Key-pair generation and loading are left out; a key pair is an opaque value.
- Route53 calls are left out. Creation and visibility are boolean answers, and deletion is an
  entry in a log.
- The challenge-token map served to the HTTP-01 responder, and the triggering of challenges at
  the server, are left out. Only the state changes they lead to are modelled.
- An exception in the middle of a manager step is modelled as "the record is unchanged and not
  persisted". Partial in-memory changes made before the exception are not modelled.
- Group membership, cluster notification and the listener reloads that the manager triggers
  are left out.
- Domains are visited in configuration order. The order of the Java map is not modelled.
- `equalsIgnoreCase` folds ASCII letters only; Unicode case mapping is not modelled.
- `RouteConfiguration.matches` and the request contents are a function parameter, because they
  are not part of this model.
- Text.ParseInt: models `Integer.parseInt` for an optional sign and ASCII digits only; other
  Unicode digits are not modelled.
- EndpointMapper.StandardEndpointMapper.SelectBackends: the randomness of `Collections.shuffle`
  is a function parameter. The contract promises a permutation, not a uniform distribution.
  In `Map` the selection is a fixed function of the routing key, whereas the source asks the
  selector again for every matching route and shuffles afresh each time. Two matching routes
  with equal keys therefore see the same backend order in the model, but possibly different
  orders in the source.
- Acme.FindChallenge: when an authorization offers two challenges of the same type, the first
  one is taken. This is an assumption about `findChallenge` of the ACME library, which is not
  part of this model.
- Certificates.CertificatesManager.SetStateOfCertificate: an operator override may set a state
  that breaks the record invariant (for example VERIFYING without a pending challenge), so the
  invariant is kept only when the overridden record still satisfies it, and it is not part of
  the manager's `Valid()`.
- Listeners.ListenersFromProperties: the listener indices scanned are 0 .. count-1 for a given
  `count`. The real index discovery is not part of this model.
- The listener `enabled` key, SSL options, socket binding and the keep-alive socket options
  themselves are left out.
- Logging everywhere is left out.
