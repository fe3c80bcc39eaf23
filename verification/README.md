# Credential, consent and delivery guarantees of the server

This project models the parts of the server whose correctness spans several requests or several functions, and proves
what they promise. `dafny verify dfyconfig.toml` checks everything.

| file | what it is about |
|---|---|
| `OauthWorld` | the OAuth server as a state machine: tables, Redis keys, in-flight requests, clock |
| `OauthRotation`, `OauthConnections` | rotation of a connection's credentials: invariants, then results over whole runs |
| `OauthConsent`, `OauthCodes`, `OauthAuthorizations` | consent, scopes, tickets and codes: invariants, then results over whole runs |
| `OauthTickets` | how often a pending ticket can be consumed, exactly |
| `OauthLifetimes` | how long a ticket or a code can be found |
| `OauthRevocations`, `OauthDenials`, `OauthReplay` | the per-grant marker; the course of one access token; when a denied one is accepted again, and a run in which it is |
| `OauthStore`, `OauthAlone`, `OauthAuthorizeAlone` | the statements and services as a class; the machine agrees with it when nothing interferes |
| `DeviceSessions`, `DeviceStore`, `DeviceAlone` | first-party device sessions, as a machine and as a class; the machine when nothing interferes |
| `DeviceLogout` | what a token can still do after a logout, over every interleaving of its two commands |
| `WsChannels`, `WsRegistry`, `WsFanout` | WebSocket registry, its subscriptions, delivery across instances |
| `WsJoins` | rooms and the joins that wait for their membership check, as a machine: who is in a room after a close |
| `FragmentWalk` | the walk over GraphQL fragments and the check for repeated fields |
| `LoginLockout`, `LoginOverlap` | failure counters and locks in front of the password check, for attempts in turn and for attempts that overlap |
| `Html` | the HTML escaper and the template tag |
| `TokenFormat`, `AccessClaims`, `Scopes`, `Text`, `Config`, `Wrappers` | token shapes, signed claims, scope lists, and what they rest on |

## What is assumed

- A minted secret, id, code or ticket has not been minted before.
- Digests (HMAC, SHA-256, S256) are injective: a stored digest is represented by what was digested, a challenge by its
  verifier or by a string that is nobody's digest.
- Each SQL statement and each Redis command is atomic, Redis applies the commands of one connection in order, and there
  is one clock that never goes back.
- A signature verifies if and only if this server made it.

## How the machines follow the code

A request is a program counter; each of its steps is one statement, one command or one reading of the clock, so requests
interleave exactly at the awaits. A crash is a request that takes no further step. `Step` is total, a run is any list of
events, and the history in `past` is read by no step. An UPDATE or INSERT compares against the instant the application
read before issuing it, not the instant at which it executes.

| steps of `OauthWorld` | source |
|---|---|
| `GetValidate`, `GetResolve`, `GetStore` | `src/modules/oauth/apis/handlers.ts:190-243`, `src/modules/oauth/services/authorizeRequest.ts:41-211` |
| `PostRead`, `PostLogin`, `PostResolve`, `PostSkip`, `PostPeek`, `PostWrite` | `src/modules/oauth/apis/handlers.ts:279-414`, `src/modules/oauth/infra/oauthTokenStore.ts:58-87` |
| `PostTake`, `Complete`, `StoreCode` | `src/modules/oauth/apis/handlers.ts:416-465`, `src/modules/oauth/services/completeAuthorization.ts:5-31` |
| `ExTake`, `ExSign`, `ExStamp`, `ExInsert` | `src/modules/oauth/services/exchangeCode.ts:44-112`, `src/modules/oauth/services/issueGrantSession.ts:41-78` |
| `RfFind`, `RfGrant`, `RfSign`, `RfStamp`, `RfRotate`, `RfDenyStamp`, `RfDenySet` | `src/modules/oauth/services/refreshGrantTokens.ts:55-202`, `src/modules/oauth/infra/oauthTokenStore.ts:143-155` |
| `SignUp`, `Register`, `DropRow` | rows of users and clients; `src/modules/auth/infra/userQueries.ts:87-89`, `src/models/postgres/oauth/oauthGrant.ts:30-36`, `src/models/postgres/oauth/oauthGrantSession.ts:38-40` (cascade) |
| `DropSessions`, `Sweep`, `RevokeMark` | `src/modules/oauth/infra/oauthGrantSessionQueries.ts:137-163`, `src/modules/oauth/infra/oauthTokenStore.ts:163-172` |

| steps of `DeviceSessions` | source |
|---|---|
| `CreateStamp`, `CreateInsert`, `Issue` | `src/modules/auth/services/createSession.ts:51-84`, `src/modules/auth/infra/tokenStore.ts:131-150` |
| `RenewFind`, `RenewStamp`, `RenewRotate`, `RenewRevoke`, `Issue` | `src/modules/auth/services/renewSession.ts:40-90` |
| `Revoke`, `Delete` | `src/modules/auth/services/logout.ts:10-21`, `src/modules/auth/services/renewSession.ts:102-127` |
| `DeleteAll`, `RevokeAll` | `src/modules/auth/services/changePassword.ts:42-44` |

A grant goes only with its user or its client: no statement deletes one alone, and the foreign keys that cascade the
deletion also refuse an upsert for a user or a client that is gone. `deleteUser`, `RevokeMark` and `DropSessions` have no
caller in the repository yet, and nothing deletes a client; the machine lets all of them happen at any time.

## Where code and comments part

- A denied access token can be accepted again: verification tolerates five seconds past `exp`, the deny entry ends
  within a second of it. When it is, over every continuation of a run: `OauthDenials.DeniedTokenRunsAgainExactly`; after
  a refresh, always unless a marker outlasts the tolerance: `OauthReplay.RetiredTokenRunsAgainExactly`; a run:
  `OauthReplay.ReplayHappens`.
- A pending ticket is not always consumed once: a login's SET with KEEPTTL can bring back a ticket consumed since its
  read, without any lifetime (`OauthTickets.TicketCanBeTakenTwice`, `OauthLifetimes.LateWriteNeverExpires`). Two things
  are told apart: `OauthTickets.SingleUseExactly` says when a consumed ticket is never live again, and
  `OauthTickets.ConsumedOnceExactly` when it is never consumed again, which is what single use is for.
- A session token can verify after logout (`DeviceLogout.TokenAfterLogoutExactly`): from a renewal that had rotated the
  row and writes its key later, or that wrote it between the logout's two commands, after which no request need be left
  (`DeviceLogout.RenewalOvertakes`, and as a run `DeviceLogout.RunOvertaken`). With no renewal of the session on its way
  when the logout starts, and none arriving before it is done, none ever does (`DeviceLogout.LogoutIsFinal`).
- A refresh that names no scope signs a token that never verifies (`Scopes.NarrowedToNothingExactly`,
  `AccessClaims.MintedVerifiesExactly`).
- A socket can join a room after it has closed (`WsRegistry.JoinAfterClose`): exactly when a join that waited for its
  membership check is then answered "member" (`WsJoins.ClosedStaysOutExactly`), and it can happen exactly if one waits
  at the close (`WsJoins.ClosedComesBackExactly`).
- Failed logins that overlap pass the lock check together: the bound grows with how many do
  (`LoginOverlap.FewFailuresThoughOverlapping`) and up to four of them it is met (`LoginOverlap.OverlappingBoundIsMet`).
- A member whose instance's subscription is still under way misses a message (`WsFanout.JoinedTooSoon`,
  `WsFanout.MessageMissed`).
- The connection cap can be passed by the upgrades in flight (`WsRegistry.FillBeyondTheCap`).
- `addUserConnection` counts a socket again when it is already there; the counter is the number of sockets because no
  caller adds one twice (`WsRegistry.Registry.AddUserConnection`).
- An envelope whose room, user or session is the empty string is routed as if it had none (`WsFanout.Targets`): a room
  named "" hears nothing, a session named "" means every session of the user.

## Model

| member | source | states |
|---|---|---|
| `OauthRotation.AlwaysInv` | src/modules/oauth/infra/oauthGrantSessionQueries.ts:90-128 | In every run: each row sits at the end of its chain of installed pairs, requests hold pairs that were once installed, retired tokens are denied, expired or owed a denial, spent tokens are exactly the replaced ones |
| `OauthRotation.StepKeeps` | src/modules/oauth/services/refreshGrantTokens.ts:55-202 | One step of any request, or any other event, keeps all of that, and only adds to the history |
| `OauthRotation.ReadNamesTheRetiringPair` | src/modules/oauth/services/refreshGrantTokens.ts:76-184 | When the UPDATE matches, the access token read earlier and non-atomically is still the one paired with the hash being spent: no ABA |
| `OauthConnections.HandedOutIsCurrentOrRetired` | src/modules/oauth/services/refreshGrantTokens.ts:143-184 | While the row exists, every access token handed out for it is the row's own, or denied to its expiry, or expired, or owed a denial by the request that replaced it |
| `OauthConnections.OneLiveTokenPerConnection` | src/mcp/authenticate.ts:54-101 | Of all tokens handed out for a connection the resource server accepts before their expiry only the row's own and those that their own replacing request has still to deny |
| `OauthConnections.DeniedStaysDenied` | src/modules/oauth/infra/oauthTokenStore.ts:143-194 | A denied token is refused at every later instant before its expiry; later acceptance lies within the clock tolerance |
| `OauthConnections.DenyEntryEnds` | src/modules/oauth/infra/oauthTokenStore.ts:143-155 | No entry exactly when the token is past its expiry; otherwise the entry ends no earlier than the token and less than a second, plus the write's delay, after it |
| `OauthConnections.SpentAtMostOnce` | src/modules/oauth/infra/oauthGrantSessionQueries.ts:100-128 | No two events of a run spend the same refresh token |
| `OauthConnections.RowHoldsTheLastTwo` | src/modules/oauth/infra/oauthGrantSessionQueries.ts:100-128 | The refresh tokens ever installed in a row never repeat; the row holds the last two, and exactly all but the last are spent |
| `OauthConnections.StaleTokenChangesNothing` | src/modules/oauth/services/refreshGrantTokens.ts:84-123 | A refresh whose token is not the row's current one ends with nothing written, at the read or at the UPDATE |
| `OauthConnections.RotationRetiresTheRowsOwnToken` | src/modules/oauth/services/refreshGrantTokens.ts:159-184 | A winning UPDATE demotes the presented hash, installs the answered pair, and the denial that follows names the access token the row gave up |
| `OauthConnections.RotationSlidesTheExpiry` | src/modules/oauth/infra/oauthGrantSessionQueries.ts:100-128 | After a winning UPDATE the row ends at the sliding instant or at its absolute expiry, whichever is earlier, and the new token can be spent at exactly the instants before both |
| `OauthConnections.DeletionsTakeExactly` | src/modules/oauth/infra/oauthGrantSessionQueries.ts:137-163 | A deletion by grant takes exactly its rows, a sweep exactly the rows past one of their expiries |
| `OauthConnections.CascadeTakesExactly` | src/models/postgres/oauth/oauthGrant.ts:30-36 | A user or client goes with exactly its grants, and these with exactly the connections under them |
| `OauthConnections.CeilingNeverMoves` | src/modules/oauth/services/issueGrantSession.ts:58-71 | The absolute expiry of a row is the same at all times and the sliding one never passes it |
| `OauthConnections.NothingOutlivesTheCeiling` | src/shared/utils/jose.ts:215-216 | Every token obtained through a connection expires less than one lifetime past its absolute expiry and is refused after that plus the tolerance |
| `OauthRevocations.MarkedStaysRefused` | src/modules/oauth/infra/oauthTokenStore.ts:157-194 | From the marker on, every token signed for the grant no later than it is refused before its expiry, at all later points of the run |
| `OauthDenials.DenyEntryStays` | src/modules/oauth/infra/oauthTokenStore.ts:143-155 | A deny entry is written at most once: at every later point of the run it is there and ends when it did |
| `OauthDenials.DeniedTokenRunsAgainExactly` | src/mcp/authenticate.ts:83-101 | A token denied in a run is accepted at some point of some continuation if and only if it carries a scope and both its entry and the grant's marker end within the verifier's tolerance |
| `OauthReplay.RetiredTokenRunsAgainExactly` | src/modules/oauth/services/refreshGrantTokens.ts:159-184 | In any run, a token that an undisturbed refresh retires before its expiry is refused afterwards, and is accepted in some continuation if and only if it carries a scope and no marker of its grant outlasts the tolerance |
| `OauthReplay.ReplayHappens` | src/modules/oauth/services/refreshGrantTokens.ts:55-202 | Sign-up, registration, consent, exchange and one refresh make a run in which a token is refused and later accepted |
| `OauthConsent.AlwaysFlows` | src/modules/oauth/apis/handlers.ts:190-465 | In every run tickets hold the request they were created for, and every scope on its way to a grant, code or token was consented to and lies under the client's ceiling |
| `OauthCodes.StepSound` | src/modules/oauth/services/exchangeCode.ts:44-112 | Every event keeps codes, redeemers, connections and the tokens of each chain tied to one code record |
| `OauthAuthorizations.ConsentComesFromAllow` | src/modules/oauth/apis/handlers.ts:416-459 | Each recorded consent goes back to an "allow" submitted on a live ticket with that user's session, naming that client and scope |
| `OauthAuthorizations.GrantedMeansAllowed` | src/modules/oauth/apis/handlers.ts:372-459 | Each scope in a grant was allowed by that user for that client on such a ticket |
| `OauthAuthorizations.SignedMeansAllowed` | src/modules/oauth/apis/handlers.ts:213-459 | So was each scope of every access token ever signed |
| `OauthAuthorizations.ScopesAreContained` | src/modules/oauth/services/authorizeRequest.ts:141-186 | Token scopes lie in the grant's, as long as it stands, and those in the client's registration and the catalog |
| `OauthAuthorizations.CompletingEnlargesExactly` | src/modules/oauth/infra/grantQueries.ts:6-27 | Completing an authorization leaves all grants alone if and only if one of them already covers the request or the user or client is gone |
| `OauthAuthorizations.SkippingConsentNeverEnlarges` | src/modules/oauth/apis/handlers.ts:213-235 | In no run does completing without a consent screen change any grant |
| `OauthAuthorizations.GrantIsTheUnion` | src/modules/oauth/infra/grantQueries.ts:11-22 | A standing grant holds exactly the scopes that the completed authorizations of its user and client named, in any order and interleaving |
| `OauthAuthorizations.GrantsLieUnderTheCeiling` | src/modules/oauth/services/authorizeRequest.ts:141-186 | Every standing grant lies under its client's registration and the catalog, in every run |
| `OauthAuthorizations.ValidatedExactly` | src/modules/oauth/services/authorizeRequest.ts:41-186 | A GET is taken up exactly for a standing client, one of its redirects letter for letter, response type "code" with S256, this resource if one is named, and scopes within registration and catalog; and then as it was sent |
| `OauthAuthorizations.RedirectsAreRegistered` | src/modules/oauth/services/authorizeRequest.ts:41-60 | In every run each pending request and each code goes to a redirect its client registered, for this resource |
| `OauthAuthorizations.TicketKeepsItsRequest` | src/modules/oauth/infra/oauthTokenStore.ts:30-79 | All versions stored under a ticket agree on everything but the session, which never goes away again |
| `OauthAuthorizations.NullSessionNeverArises` | src/modules/oauth/apis/handlers.ts:427-452 | The consent stage never consumes a ticket without a session |
| `OauthAuthorizations.CodeOpensAtMostOnce` | src/modules/oauth/services/exchangeCode.ts:49-94 | No two events of a run open a connection with the same code |
| `OauthAuthorizations.PresentedCodeIsGone` | src/modules/oauth/infra/oauthTokenStore.ts:105-117 | A code once presented is never found again, whatever was presented with it |
| `OauthAuthorizations.WrongBindingKillsTheCode` | src/modules/oauth/services/exchangeCode.ts:56-86 | A live code presented with a client, redirect or given resource other than the recorded one, or with a verifier whose S256 is not its challenge, never opens a connection |
| `OauthAuthorizations.ConnectionCarriesItsCode` | src/modules/oauth/services/exchangeCode.ts:88-94 | Connections map injectively to codes; the first token carries what the code recorded, all later ones its user, client and grant |
| `OauthTickets.SingleUseKeptExactly` | src/modules/oauth/infra/oauthTokenStore.ts:66-87 | One event keeps a ticket's single use if and only if it is not a login's write onto a ticket already consumed |
| `OauthTickets.SingleUseExactly` | src/modules/oauth/infra/oauthTokenStore.ts:66-87 | Over a whole run a consumed ticket is never live again if and only if no such write happens |
| `OauthTickets.ConsumedOnceExactly` | src/modules/oauth/infra/oauthTokenStore.ts:66-87 | Over a whole run a ticket is consumed at most once if and only if no such write is followed by another consumption |
| `OauthTickets.TicketCanBeTakenTwice` | src/modules/oauth/apis/handlers.ts:298-427 | In any state, any ticket waiting for a login can be consumed twice by two racing logins |
| `OauthLifetimes.CodeFoundOnlyInTime` | src/modules/oauth/infra/oauthTokenStore.ts:89-117 | A code can be redeemed only within its lifetime from when it was stored |
| `OauthLifetimes.TicketFoundOnlyInTime` | src/modules/oauth/infra/oauthTokenStore.ts:30-79 | A ticket is found only within its lifetime from its creation, unless a login writes it back after it has gone |
| `OauthLifetimes.LateWriteNeverExpires` | src/modules/oauth/infra/oauthTokenStore.ts:66-79 | After such a write it is there however much time passes |
| `OauthStore.Store.CreatePendingAuthorizationRequest` | src/modules/oauth/infra/oauthTokenStore.ts:30-44 | Reading the ticket answers this request before its lifetime ends and nothing from then on; every other ticket answers as before |
| `OauthStore.Store.UpdatePendingAuthorizationRequest` | src/modules/oauth/infra/oauthTokenStore.ts:66-79 | A ticket still there keeps its lifetime, one gone at the read stays gone, one gone in between comes back without a lifetime |
| `OauthStore.Store.ConsumePendingAuthorizationRequest` | src/modules/oauth/infra/oauthTokenStore.ts:81-87 | What the ticket held, and the ticket gone |
| `OauthStore.Store.IssueAuthorizationCode` | src/modules/oauth/infra/oauthTokenStore.ts:89-103 | Reading the code answers this record before its lifetime ends and nothing from then on; every other code answers as before |
| `OauthStore.Store.ConsumeAuthorizationCode` | src/modules/oauth/infra/oauthTokenStore.ts:105-117 | What the code held, and the code gone |
| `OauthStore.Store.DenyAccessToken` | src/modules/oauth/infra/oauthTokenStore.ts:143-155 | Denied from now to the expiry and less than a second past it; no entry for an expired token |
| `OauthStore.Store.DenyGrant` | src/modules/oauth/infra/oauthTokenStore.ts:157-172 | Every token of the grant signed by now is covered up to its expiry, and nothing is from a second after the last of those; other grants as before |
| `OauthStore.Store.IsAccessTokenDenied` | src/modules/oauth/infra/oauthTokenStore.ts:182-194 | Refused exactly while the token's entry or the grant's marker is live |
| `OauthStore.Store.DeleteUser` | src/modules/auth/infra/userQueries.ts:87-89 | The user, exactly the user's grants and exactly the connections under those go; everything left is as it was and consistent |
| `OauthStore.Store.UpsertGrant` | src/modules/oauth/infra/grantQueries.ts:6-27 | One row per user and client, holding the union of every set it was written with; refused exactly when user or client is gone |
| `OauthStore.UnionIgnoresOrder` | src/modules/oauth/infra/grantQueries.ts:11-22 | That union does not depend on the order of the writes |
| `OauthStore.Store.FindGrant` | src/modules/oauth/infra/grantQueries.ts:29-41 | The pair's grant, or none exactly when there is none |
| `OauthStore.Store.InsertGrantSession` | src/modules/oauth/infra/oauthGrantSessionQueries.ts:28-38 | Stored exactly when the grant exists |
| `OauthStore.Store.RotateGrantSession` | src/modules/oauth/infra/oauthGrantSessionQueries.ts:100-128 | Exactly for the current hash before both expiries: the pair is replaced, the old hash demoted, and the row ends at the sliding instant or the absolute one, whichever is earlier; the new token can be spent at exactly the instants before both |
| `OauthStore.Store.DeleteGrantSessionsByGrant` | src/modules/oauth/infra/oauthGrantSessionQueries.ts:137-146 | Exactly the grant's rows go, the others stay as they were, and as many as went are reported |
| `OauthStore.Store.PruneExpiredGrantSessions` | src/modules/oauth/infra/oauthGrantSessionQueries.ts:149-163 | Exactly the rows past one of their expiries go, and on none of those could a rotation still succeed |
| `OauthStore.Store.CompleteAuthorization` | src/modules/oauth/services/completeAuthorization.ts:5-31 | The pair's grant gains exactly the scopes of the request, and the code answers, up to its lifetime, with that grant and what the request named; a grant that covered it before is unchanged; nothing is written exactly when user or client is gone |
| `OauthStore.Store.ResolveGrant` | src/modules/oauth/services/authorizeRequest.ts:195-211 | Consent is needed exactly when the granted scopes do not cover the request |
| `OauthStore.Store.GetAuthorize` | src/modules/oauth/apis/handlers.ts:190-243 | A code without a screen exactly under a covering grant, which does not grow; otherwise a ticket with the browser's session |
| `OauthStore.Store.PostLogin` | src/modules/oauth/apis/handlers.ts:318-414 | Nothing without a successful login; then a code under a covering grant, else the session written to the ticket; no grant changes |
| `OauthStore.Store.PostConsent` | src/modules/oauth/apis/handlers.ts:416-465 | The ticket is gone in any case; granted exactly on "allow" from no other account while user and client are there |
| `OauthStore.Store.PostAuthorize` | src/modules/oauth/apis/handlers.ts:279-465 | Every branch: no ticket, page; a session on it, page for another account, a code under a covering grant for "allow" with user and client there, else refused, the ticket gone in each; none on it, page without a login, a code under a covering grant, else the session put on the ticket |
| `OauthStore.Store.AuthorizeThenExchange` | src/modules/oauth/services/exchangeCode.ts:44-112 | A code completed for a request gives tokens, with its scopes, exactly to the same client and redirect, the same resource if one is named, and the verifier behind the challenge |
| `OauthStore.Store.IssueGrantSession` | src/modules/oauth/services/issueGrantSession.ts:41-78 | The row, ending one sliding and one absolute lifetime from now, exactly when the grant exists |
| `OauthStore.Store.ExchangeCode` | src/modules/oauth/services/exchangeCode.ts:44-112 | The code is gone in any case; refused exactly for a code not live, or recorded for another client, redirect or given resource, or whose challenge is not the S256 of the verifier, or without its grant; else tokens, spendable up to both expiries |
| `OauthStore.Store.RefreshGrantTokens` | src/modules/oauth/services/refreshGrantTokens.ts:55-202 | Tokens exactly for the current token, its client and resource, scopes the grant covers, before both expiries; they carry the scopes asked for, or all granted; then the retired token is denied to its expiry, the spent one is useless and the new one good up to both expiries; otherwise nothing changes |
| `OauthAlone.UndisturbedRefreshSucceedsExactly` | src/modules/oauth/services/refreshGrantTokens.ts:55-202 | The machine's refresh, with only time passing between its steps, ends exactly as that method promises |
| `OauthAlone.RefreshedMeans` | src/modules/oauth/services/refreshGrantTokens.ts:76-202 | What that says in terms of token, client, resource, scopes and both expiries, and what the row then holds |
| `OauthAlone.UndisturbedExchangeSucceedsExactly` | src/modules/oauth/services/exchangeCode.ts:44-112 | So does its exchange: the code gone, and a connection exactly when code, bindings and grant allow it |
| `OauthAlone.ExchangedMeans` | src/modules/oauth/services/exchangeCode.ts:49-112 | What that says in terms of client, redirect, resource, verifier and grant, and what the new row holds |
| `OauthAuthorizeAlone.UndisturbedGet` | src/modules/oauth/apis/handlers.ts:190-243 | A GET that nothing disturbs: refused if not valid, a code at once exactly under a covering grant, otherwise a ticket with the browser's session |
| `OauthAuthorizeAlone.UndisturbedConsent` | src/modules/oauth/apis/handlers.ts:416-465 | So for the consent form, all three outcomes, the ticket gone in each |
| `OauthAuthorizeAlone.UndisturbedLogin` | src/modules/oauth/apis/handlers.ts:318-414 | So for the login form, all three outcomes |
| `Scopes.RequestedResolvesExactly` | src/modules/oauth/services/authorizeRequest.ts:141-186 | A scope parameter resolves exactly if it names some scope and each is registered and in the catalog; what comes out is that list, each once, however much more is registered |
| `Scopes.RegisteredResolvesExactly` | src/modules/oauth/services/authorizeRequest.ts:141-186 | Without one, exactly if the client registered something and all of it is in the catalog; what comes out is that |
| `Scopes.RefusalNamesTheReason` | src/modules/oauth/services/authorizeRequest.ts:141-186 | The four refusals in their order, the last two naming exactly the scopes at fault |
| `Scopes.UnknownReportedFirst` | src/modules/oauth/services/authorizeRequest.ts:166-175 | A scope outside the catalog, asked for or only registered, is reported as unknown before any that is out of bounds |
| `Scopes.NarrowNeverWidens` | src/modules/oauth/services/refreshGrantTokens.ts:204-230 | Narrowing refuses exactly the lists with a scope not granted, names those, and never adds one |
| `Scopes.NarrowedToNothingExactly` | src/modules/oauth/services/refreshGrantTokens.ts:211-229 | A refresh is left without any scope exactly when the request names none |
| `AccessClaims.MintedVerifiesExactly` | src/modules/oauth/infra/oauthTokens.ts:156-276 | A minted token verifies exactly for its issuer and audience, up to five seconds past its expiry, if it carries a scope; it reads back as signed |
| `AccessClaims.VerifiesExactly` | src/modules/oauth/infra/oauthTokens.ts:194-276 | Any token, whoever made it, verifies as given claims exactly if this server signed it with typ "at+jwt" for this issuer and audience, it is not past expiry plus tolerance, and each claim is there as a non-empty string |
| `Text.WordsOfJoin` | src/modules/oauth/infra/oauthTokens.ts:171-171 | Joining with spaces and splitting again is the identity on non-empty, space-free scopes |
| `TokenFormat.ParseUndoesMint` | src/modules/oauth/infra/oauthTokens.ts:53-116 | Parsing succeeds exactly on prefix, dot-free id, dot, dot-free secret, both non-empty, and returns them |
| `TokenFormat.ParseRefuses` | src/modules/auth/infra/tokenStore.ts:86-98 | A string is refused exactly when no id and secret could have produced it |
| `TokenFormat.FamiliesAreDisjoint` | src/modules/auth/infra/tokenStore.ts:79-129 | No string parses in two of the three families |
| `TokenFormat.MintIsInjective` | src/modules/auth/infra/tokenStore.ts:48-73 | Two tokens of a family are equal only if id and secret are |
| `DeviceSessions.StepKeeps` | src/modules/auth/services/renewSession.ts:40-127 | Every event keeps rows at the end of their chains, keys at the newest issued token and the spent list exact |
| `DeviceSessions.SpentAtMostOnce` | src/modules/auth/infra/sessionQueries.ts:81-107 | No two events of a run spend the same refresh token |
| `DeviceSessions.RowHoldsTheLastTwo` | src/modules/auth/infra/sessionQueries.ts:81-107 | The secrets ever installed never repeat; the row holds the last two, and exactly all but the last are spent |
| `DeviceSessions.PresentedTokenDecides` | src/modules/auth/services/renewSession.ts:46-60 | The last secret may rotate, the one before it ends the session, any other changes nothing |
| `DeviceSessions.ReuseEndsTheSession` | src/modules/auth/services/renewSession.ts:102-127 | A spent secret presented again, undisturbed, leaves neither row nor key, and touches no other session |
| `DeviceSessions.OnlyTheNewestVerifies` | src/modules/auth/infra/tokenStore.ts:131-175 | At most one access token of a session verifies: the one issued last, for at most one lifetime, for the session's user |
| `DeviceSessions.AfterTheRowIsGone` | src/modules/auth/services/renewSession.ts:62-87 | A deleted row never comes back; only requests that had written it can still write its key, each at most once, and what they write ends within one lifetime |
| `DeviceSessions.LateTokenExactly` | src/modules/auth/services/logout.ts:18-19 | With the row gone, a token of the session can verify now or later if and only if a request has written the row and not yet the key, or the key is there and live |
| `DeviceLogout.TokenAfterLogoutExactly` | src/modules/auth/services/logout.ts:10-21 | Whatever runs between the two commands of a logout: afterwards the row is gone, and a token of the session can verify now or later if and only if a request still owes the key, or the key was written between the two, not dropped again, and is live |
| `DeviceLogout.KeySince` | src/modules/auth/infra/tokenStore.ts:131-184 | A key absent at one point is there at a later one exactly if an event in between wrote it and none after that dropped or replaced it; it ends one lifetime after that write |
| `DeviceLogout.LogoutIsFinal` | src/modules/auth/services/logout.ts:10-21 | With no renewal of the session on its way at the first command, and none arriving before the second, no token of it ever verifies again |
| `DeviceLogout.RenewalOvertakes` | src/modules/auth/services/renewSession.ts:62-87 | A renewal past its rotation that drops and writes the key between the two commands leaves a token that verifies, with both requests done |
| `DeviceLogout.RunOvertaken` | src/modules/auth/services/logout.ts:18-19 | A run from the start in which that happens |
| `DeviceSessions.LogoutEndsTheSession` | src/modules/auth/services/logout.ts:10-21 | An undisturbed logout by the owner leaves neither row nor key |
| `DeviceAlone.UndisturbedCreate` | src/modules/auth/services/createSession.ts:51-84 | A sign-in on the machine that nothing disturbs: the row with its first secret and whole lifetime, the key with the first token |
| `DeviceAlone.UndisturbedRenewal` | src/modules/auth/services/renewSession.ts:40-90 | So for a renewal: the next secret with a whole new lifetime and one new token, or nothing if the row has expired |
| `DeviceAlone.UndisturbedNewPassword` | src/modules/auth/services/changePassword.ts:42-44 | So for a new password: exactly the user's rows and the keys of these go |
| `DeviceAlone.DeletionsTakeExactly` | src/modules/auth/infra/sessionQueries.ts:121-137 | A user's deletion takes exactly the user's rows, a sweep exactly the expired ones |
| `DeviceStore.Store.InsertSession` | src/modules/auth/infra/sessionQueries.ts:26-32 | Exactly the row's secret can rotate the session, until it expires; every other session is as before |
| `DeviceStore.Store.RotateSession` | src/modules/auth/infra/sessionQueries.ts:81-107 | The secret is replaced and demoted exactly when current and unexpired |
| `DeviceStore.Store.DeleteSession` | src/modules/auth/infra/sessionQueries.ts:109-119 | The row goes exactly when it is that user's |
| `DeviceStore.Store.DeleteAllSessions` | src/modules/auth/infra/sessionQueries.ts:121-128 | Exactly the user's rows go, and exactly their ids are reported |
| `DeviceStore.Store.IssueAccessToken` | src/modules/auth/infra/tokenStore.ts:131-150 | This token and no other of its session is live, before its lifetime ends; tokens of other sessions as before |
| `DeviceStore.Store.VerifyAccessToken` | src/modules/auth/infra/tokenStore.ts:152-175 | The user, exactly for the token the live key holds |
| `DeviceStore.Store.RevokeAccessTokens` | src/modules/auth/infra/tokenStore.ts:177-184 | No token of these sessions is live at any time; every other as before |
| `DeviceStore.Store.CreateSession` | src/modules/auth/services/createSession.ts:51-84 | The row with its first secret, then the key with the first access token |
| `DeviceStore.Store.RevokeOnReuse` | src/modules/auth/services/renewSession.ts:102-127 | Ends the session exactly for the secret retired last |
| `DeviceStore.Store.RenewSession` | src/modules/auth/services/renewSession.ts:40-90 | New credentials exactly for the current, unexpired secret, and no older access token is live; the retired secret ends the session; anything else changes nothing |
| `DeviceStore.Store.LogoutUser` | src/modules/auth/services/logout.ts:10-21 | The key goes; the row goes if it is the user's |
| `DeviceStore.Store.EndAllSessions` | src/modules/auth/services/changePassword.ts:42-44 | No session of the user is left, and no other row or key is touched |
| `WsChannels.ChannelsDiffer` | src/websocket/protocol.ts:14-21 | A channel names one user or one room, never both |
| `WsChannels.UserCommands` | src/websocket/subscriber.ts:50-60 | After the first half of a re-subscription exactly the users' channels are subscribed |
| `WsChannels.RoomCommands` | src/websocket/subscriber.ts:50-60 | After the second half exactly the users' and rooms' channels are |
| `WsRegistry.Registry.AddUserConnection` | src/websocket/connectionManager.ts:47-55 | The socket is added and counted; the counter stays the number of sockets exactly if it was not there |
| `WsRegistry.Registry.RemoveUserConnection` | src/websocket/connectionManager.ts:57-62 | The socket goes, counted down only if present, and the user's entry with its last socket |
| `WsRegistry.Registry.AddPublicConnection` | src/websocket/connectionManager.ts:130-133 | The socket is added and counted; the counter stays the number of sockets exactly if it was not there |
| `WsRegistry.Registry.RemovePublicConnection` | src/websocket/connectionManager.ts:135-137 | The socket goes, counted down only if present |
| `WsRegistry.Registry.JoinRoom` | src/websocket/connectionManager.ts:155-165 | Member and room know each other; true exactly for the first local member |
| `WsRegistry.Registry.LeaveRoom` | src/websocket/connectionManager.ts:169-179 | Neither knows the other, no empty set stays; true exactly for the last local member |
| `WsRegistry.Registry.LeaveAllRooms` | src/websocket/connectionManager.ts:183-197 | Every membership goes; exactly the rooms that emptied are reported, each once |
| `WsRegistry.Registry.PreflightUpgrade` | src/websocket/server.ts:78-83 | Let through exactly below the cap; connections plus upgrades in flight stay within the cap, less one, plus the most ever in flight |
| `WsRegistry.Registry.AbortUpgrade` | src/websocket/server.ts:115-119 | An upgrade that fails leaves the count as it is |
| `WsRegistry.Registry.HandleConnection` | src/websocket/server.ts:122-155 | The socket is registered and counted, and subscriptions still mirror the registry |
| `WsRegistry.Registry.RoomAsk` | src/websocket/messageRouter.ts:35-41 | A user's join waits for its membership check; without a user nothing waits |
| `WsRegistry.Registry.RoomJoin` | src/websocket/messageRouter.ts:42-48 | The answered join no longer waits, and is a membership exactly if the answer is "member"; memberships and subscriptions stay consistent |
| `WsRegistry.Registry.RoomLeave` | src/websocket/messageRouter.ts:50-58 | So does leaving |
| `WsRegistry.Registry.OnClose` | src/websocket/server.ts:177-200 | The socket is in no room and not registered, every channel it was the last reason for is given up, and its waiting joins still wait |
| `WsRegistry.Registry.OutMeansOut` | src/websocket/connectionManager.ts:155-197 | The socket's own list is empty exactly when the rooms have it nowhere |
| `WsRegistry.Registry.OnReady` | src/websocket/subscriber.ts:50-60 | On a fresh connection the commands sent subscribe exactly the local users' and rooms' channels |
| `WsRegistry.Registry.AtAllTimes` | src/websocket/connectionManager.ts:47-216 | The counter is the number of sockets, at most the cap less one plus the most upgrades in flight; subscriptions are exactly the local users' and rooms' channels; socket and room know each other; no set is empty |
| `WsJoins.PresentExactly` | src/websocket/messageRouter.ts:35-58 | A socket is in a room exactly if some waiting join of it was answered "member" and no later event was its leaving or closing |
| `WsJoins.ClosedStaysOutExactly` | src/websocket/messageRouter.ts:35-46 | From a close on, over all later events, a socket is in no room at any point if and only if none of its waiting joins is answered "member" |
| `WsJoins.ClosedComesBackExactly` | src/websocket/server.ts:177-200 | If it does not ask again, some later events bring a closed socket into a room if and only if one of its joins waits at the close |
| `WsJoins.AnyWaitingJoinReturns` | src/websocket/messageRouter.ts:35-46 | Every single waiting join is enough for that |
| `WsRegistry.JoinAfterClose` | src/websocket/messageRouter.ts:35-46 | A socket that closed during its membership check ends up in the room, with the channel subscribed |
| `WsRegistry.FillBeyondTheCap` | src/websocket/server.ts:78-112 | With K authenticated upgrades waiting for their token check at once the cap, less one, plus K is reached |
| `WsFanout.TrySend` | src/websocket/connectionManager.ts:25-40 | Sent if open and keeping up, terminated unsent if open and backlogged, otherwise nothing |
| `WsFanout.SendToRoom` | src/websocket/connectionManager.ts:200-211 | Every local member but the excepted connection is tried once, nobody else |
| `WsFanout.SendToUser` | src/websocket/connectionManager.ts:86-91 | Every local socket of the user is tried once |
| `WsFanout.SendToSession` | src/websocket/connectionManager.ts:97-106 | Every local socket of the session is tried once, no other of the user |
| `WsFanout.Close` | src/websocket/connectionManager.ts:109-127 | Exactly the session's, or user's, local sockets are closed |
| `WsFanout.RouteEnvelope` | src/websocket/envelopeRouter.ts:17-49 | The envelope acts on exactly the local sockets it selects, an empty field selecting nothing |
| `WsFanout.Publish` | src/websocket/publisher.ts:9-12 | Exactly the selected sockets on the instances whose applied commands left them subscribed are reached, once |
| `WsChannels.SubscribedByTheLast` | src/websocket/subscriber.ts:50-84 | A channel is subscribed exactly if an applied command asked for it and no later applied one names it |
| `WsFanout.SettledMirrors` | src/websocket/subscriber.ts:50-84 | With no command about a room or user under way, an instance hears it exactly if it has someone there |
| `WsFanout.MembersAttend` | src/websocket/publisher.ts:24-38 | With no command about the room under way anywhere, every member is on an instance that hears it |
| `WsFanout.SocketsListen` | src/websocket/publisher.ts:15-20 | The same for a user's sockets |
| `WsFanout.JoinedTooSoon` | src/websocket/messageRouter.ts:42-48 | The first local member of a room is in it before its instance hears it |
| `WsFanout.MessageMissed` | src/websocket/publisher.ts:24-38 | Until then a message sent to the room does not reach it |
| `WsFanout.DeliverToRoom` | src/websocket/publisher.ts:24-38 | Exactly the members on instances that hear the room, but the excepted connection, are tried, once; nobody if the room is named "" |
| `WsFanout.RoomDeliver` | src/websocket/messageRouter.ts:65-70 | However much later, exactly the members at that time, but the sender, are tried, once, on instances that hear the room |
| `WsFanout.DeliveredToThoseWhoAreThere` | src/websocket/messageRouter.ts:60-71 | The sender closes and another joins while the text is saved: the one who joined gets it |
| `WsFanout.RoomMessage` | src/websocket/messageRouter.ts:60-71 | Both parts with nothing in between: exactly the other members are tried, once, and only for a joined user's socket |
| `WsFanout.JoinedHears` | src/websocket/messageRouter.ts:35-71 | A socket whose join has been answered "member", its subscription applied, gets the next message another member sends, whichever instances they are on |
| `WsFanout.DeliverToUser` | src/websocket/publisher.ts:15-20 | Exactly the user's sockets on instances that hear the user are tried, once |
| `WsFanout.DeliverToSession` | src/websocket/publisher.ts:41-47 | Of these exactly the session's are tried, once; all of them if the session is named "" |
| `WsFanout.DisconnectSocketConnection` | src/websocket/publisher.ts:50-63 | Of these exactly the session's are closed, and nothing is sent |
| `WsFanout.DisconnectUser` | src/websocket/publisher.ts:66-77 | Exactly these are closed, and nothing is sent |
| `FragmentWalk.EntersExactlyTheReachable` | src/graphql/plugins/directiveUtils.ts:57-73 | On any document, cyclic or not, the fragments entered are exactly those a chain of spreads reaches |
| `FragmentWalk.FindsEachBodyOnce` | src/graphql/plugins/directiveUtils.ts:54-77 | What is found is the operation's own names plus those of each entered fragment's body, once |
| `FragmentWalk.FindsInReadingOrder` | src/graphql/plugins/directiveUtils.ts:57-76 | In the order of reading the document from a single list, fragments expanded at their first spread |
| `FragmentWalk.LastDefinitionCounts` | src/graphql/plugins/directiveUtils.ts:47-52 | A fragment name stands for its last definition |
| `FragmentWalk.BuildFragmentMap` | src/graphql/plugins/directiveUtils.ts:47-52 | The loop builds that map |
| `FragmentWalk.Collector.WalkSelections` | src/graphql/plugins/directiveUtils.ts:57-73 | The recursive loop appends exactly the matched names of the walk and marks what it enters |
| `FragmentWalk.CollectMatchedFields` | src/graphql/plugins/directiveUtils.ts:42-77 | The matched names in reading order, each as often as it occurs |
| `FragmentWalk.FirstRepeated` | src/graphql/plugins/disableAliasing.ts:28-37 | None exactly when no name repeats; otherwise the first to be seen again |
| `FragmentWalk.DisableAliasing` | src/graphql/plugins/disableAliasing.ts:19-38 | Refused exactly when a mutation selects some protected field twice or more, fragments included |
| `LoginLockout.HitKeeps` | src/modules/auth/services/loginWithPassword.ts:100-119 | A counter at the threshold comes with a lock that outlives it, so a failure let through opens a new window |
| `LoginLockout.WindowApart` | src/modules/auth/services/loginWithPassword.ts:67-119 | From any failure, the one 2M - 2 places later is a whole window away |
| `LoginLockout.AtMostEightFailures` | src/config/appConfig.ts:108-110 | No half-open window of the lockout's length holds more than 2M - 2, that is 8, counted failures |
| `LoginLockout.Guard.FewFailuresPerWindow` | src/modules/auth/services/loginWithPassword.ts:67-119 | So for every address and every pair, between two successes |
| `LoginOverlap.StepSeen` | src/modules/auth/services/loginWithPassword.ts:76-135 | Each command of a login, interleaved with those of others, is for an address or a pair one of: pass the check, count a failure, lock, leave, clear |
| `LoginOverlap.FewFailuresThoughOverlapping` | src/modules/auth/services/loginWithPassword.ts:67-185 | With at most K attempts of an address or pair past the check at once, in any interleaving, no window holds more failures since the last success than the greater of 2M - 3 + K and M + 2K - 2 |
| `LoginOverlap.OverlappingBoundIsMet` | src/modules/auth/services/loginWithPassword.ts:67-119 | For K below M that bound is met |
| `LoginLockout.BoundIsMet` | src/modules/auth/services/loginWithPassword.ts:67-119 | Nine failures in a row put eight of them into one window |
| `LoginLockout.Guard.IncrWithTtl` | src/modules/auth/services/loginWithPassword.ts:67-71 | Counts on in a live window, else opens one |
| `LoginLockout.Guard.Ttl` | src/modules/auth/services/loginWithPassword.ts:82-84 | The seconds left on a live lock, else not positive |
| `LoginLockout.Guard.IsLocked` | src/modules/auth/services/loginWithPassword.ts:76-87 | Locked exactly while either lock is live |
| `LoginLockout.Guard.RecordFailedAttempt` | src/modules/auth/services/loginWithPassword.ts:100-127 | All three counters go up, and each lock is set exactly at its threshold unless live |
| `LoginLockout.Guard.ClearFailedAttempts` | src/modules/auth/services/loginWithPassword.ts:129-135 | Exactly the counters and locks of address and pair go |
| `LoginLockout.Guard.LoginWithPassword` | src/modules/auth/services/loginWithPassword.ts:137-185 | Counted exactly for wrong credentials outside a lock, cleared exactly on success, otherwise nothing changes |
| `Html.FivePassesAreOne` | src/shared/utils/html.ts:42-49 | The five replacements are one pass over the characters |
| `Html.EscapedReadsBack` | src/shared/utils/html.ts:42-49 | Escaped text decodes to what was escaped |
| `Html.EscapedHasNoMarkup` | src/shared/utils/html.ts:42-49 | It holds no angle bracket and no quote |
| `Html.StringifyShows` | src/shared/utils/html.ts:85-91 | What stands for a value: nothing for null or undefined, safe markup as it is, other text without markup characters that decodes to it, an array's items in order |
| `Html.Template` | src/shared/utils/html.ts:72-83 | Each string in its place, and between two of them a text that so stands for the value |
| `Html.MarkupComesFromTheTemplate` | src/shared/utils/html.ts:72-91 | Each bracket or quote of the result stands in a static string or in safe markup, at any depth of arrays |

## Left out

- OauthConnections.DeniedStaysDenied: stops at the token's expiry, because the verifier tolerates five seconds past it and the deny entry does not cover them.
- OauthStore.Store.RefreshGrantTokens: describes a call nobody interrupts; interleavings are the subject of OauthRotation and OauthConnections. The same holds for every service of OauthStore and DeviceStore.
- OauthConnections.OneLiveTokenPerConnection: admits besides the row's own token those whose replacing request has rotated but not yet denied, a crashed one included, because the code denies only after it has rotated.
- WsFanout.Publish: a message takes no time from PUBLISH to the instances that hear it; what joins or leaves on one while it is on its way is not covered.
- WsFanout.RoomMessage: nothing happens between its two parts; RoomPost and RoomDeliver are the parts by themselves.
- LoginLockout.Guard.FewFailuresPerWindow: holds for attempts that do not overlap; LoginOverlap.FewFailuresThoughOverlapping is about those that do.
- Scopes inside grants, codes and tokens are sets; the order in which they are listed is not modelled.
- `client`, `state` and the user's scopes on a pending request, page contents, redirects and error texts are not modelled; every refusal is one outcome.
- "Last used" writes, logging, emails, CAPTCHA scoring, rate limiters and request parsing.
- One-time codes for email verification and password reset: each check is several commands, so single use does not hold under concurrency.
- Cryptography: signatures, HMAC, SHA-256, bcrypt and random generation are replaced by the assumptions above; case folding of email addresses is taken as done.
- Changing a registered client; no code of the repository does.
- The heartbeat that pings and closes sockets, public broadcasts, and the draining of a socket's send queue.
- Lock keys are taken as distinct for distinct address and email; the concatenation with "|" could in principle collide.
- Sub-second parts of lockout times: the clock of LoginLockout shows whole seconds.
- S3, MQTT, CloudFront, job queues, health checks, the MCP tool dispatcher and metadata documents.
