# Verification of go-auth-x

A Dafny 4.11 model of five parts of go-auth-x, and proofs of what they promise. `dafny verify
dfyconfig.toml` checks all of it.

Code that changes state step by step is modelled as classes and loops, each method proved against a
function on values. Handlers and background jobs that interleave are modelled as a state machine whose
events are single store calls, so "every run" below means every finite sequence of events: an event
that cannot happen changes nothing. Where a promise does not hold as stated, the file gives a run that
breaks it and the exact condition under which it holds.

**Signing keys** (`SigningKeys`, `KeyUpkeep`, `KeyRotation`, `KeyExpiry`). Replicas share one key store,
each with a cached list. Upkeep reads, adds, re-reads, retires and deletes with no lock between replicas.
Time is explicit; `stampLag` bounds how late a retirement is stamped and `loadLag` how late a read is
committed. The youngest key is never retired or deleted, in any interleaving, so there is always one to sign
with. How long a key outlives its tokens is decided by the age of the cache that signed. A caller that finds
its cache fresh, or reloads it itself, signs within the refresh interval of a read, and the floor New
enforces is enough for it. A caller that arrives while another one is reloading signs with the cache as it
was, because `currentKeys` marks it fresh before the reload has happened (`oidcprovider/keys.go:135-141`).
What bounds the cache's age then is not the refresh interval, as the comment at `oidcprovider/keys.go:159`
has it, but the replica's own hourly upkeep, which ends with a reload. So the grace must cover token life,
that period and the lags: the default of 24 hours does, and the floor of an hour and five minutes does not.
A new key is published by every replica that reloads later than `loadLag` after it was added; before that, a
slower load can put the older list back.

**OAuth** (`OAuthRecords`, `OAuthStore`, `OAuthCleanUp`, `OAuthFlow`, `OAuthProvenance`, `OAuthFamilies`,
`OAuthAnswers`, `OAuthCodes`, `OAuthIssue`, `OAuthQuiet`, `OAuthTouch`, `OAuthHandlers`). Requests,
approvals, codes, grants, access tokens and chains of refresh tokens. Every handler works on copies it read
earlier, and every store call of every handler is a step of its own. Scopes and ends are bounded by one
decision, revocation is final, tokens form chains, codes are accepted once per process, in time, and what is
answered for a token is what it was issued with until exactly one of the things that end it happens.
Clean-up is invisible to tokens if and only if `UnusedClientTTL` is at least both token lifetimes (an access
token may live one nanosecond longer), which New does not enforce. That takes an exchange's tokens and the
touch of its client as one step; store call by store call, `UnusedClientTTL` must be longer by as much as a
touch may be late, and a token whose client has not been touched yet can go under any configuration. So can
a pending request, because making one does not touch the client. `OAuthHandlers` gives the approval, the
issue and redemption of a code, the forgetting of codes, and the look-up, narrowing and rotation of refresh
tokens as code, and proves each, run without interruption, to be a run of these steps.

**SCIM filters** (`AsciiText`, `ScimFilter`, `ScimTokens`, `ScimGrammar`, `ScimParser`, `ScimDerivation`,
`ScimRoundTrip`, `ScimSelection`). The tokenizer's loops, the recursive-descent parser with its depth
counter, and the predicate it compiles without building a tree, against a grammar with its derivations, a
meaning and a printer.

**Identities and organizations** (`IdentityRecords`, `IdentityStore`, `IdentityRuns`, `IdentityLogins`,
`IdentityEffects`, `OrgRoles`, `OrgView`, `OrgViewEffects`, `OrgProvisioning`, `OrgScopedDirectory`,
`LastOwner`). The account-linking rule, the cascades, the view of one organization over the shared store,
and the guard on its last owner. The verified flag is not about the current address: a login under a known
subject moves the address and keeps the flag (`store/memory/memory.go:623-626`), so "verified" below is the
flag. The self-service handlers keep an owner in every interleaving of their own. The view looks an address
up and then logs the user in, and whoever comes to have the address in between may lose the account to the
organization; nothing else a view does reaches outside it (`OrgProvisioning`). It also reads a role and then
writes, in two store calls that take no lock, so its writes may land on someone who has become an owner
since, also between a handler's check and its write. An organization keeps an owner as long as no such write
lands on one; `LastOwner` gives the exact condition, and runs for both kinds of view write that lose the
last owner.

**Rate limiters** (`RateLimits`, `SlidingWindow`, `FixedWindow`). Both limiters read the clock before they
take the lock, so a reading may be counted up to a lag behind a later one. The sliding limit holds in
intervals up to the window less the lag. The fixed-window limiter lets exactly 2n - 1 through in its worst
window, one less than twice its budget, and with lagging readings in intervals up to the window less twice
the lag. The background passes may use readings however old.

## Model

| member | source | states |
|---|---|---|
| `KeyUpkeep.NewestOf` | oidcprovider/keys.go:53-65 | The loop finds the signing key: an active key that every other active key is older than, by creation time and then id; none exactly when every key is retired. |
| `KeyUpkeep.KeyStore.AddKey` | store/memory/oauth.go:359-372 | The list of keys, changed in place, gains exactly this key. |
| `KeyUpkeep.KeyStore.RetireKey` | store/memory/oauth.go:374-387 | Retiring stamps an active key once; a key already retired keeps its stamp, and a missing one is reported. |
| `KeyUpkeep.KeyStore.DeleteKey` | store/memory/oauth.go:389-396 | The key goes from the list, and no other. |
| `KeyUpkeep.Replica.LoadKeys` | oidcprovider/keys.go:111-128 | The cache is what the store holds afterwards, and holds a key that signs. |
| `KeyUpkeep.Replica.CurrentKeys` | oidcprovider/keys.go:132-150 | A cache younger than the refresh interval is returned as it is; an older one is read again and dated now. |
| `KeyUpkeep.Replica.RotateKeys` | oidcprovider/keys.go:161-196 | One replica alone: a key is added exactly when forced, when none signs, or when the signing one has reached the rotation; afterwards one key signs, the newest, younger than the rotation; the others are retired now or as they were, exactly those retired for the grace are gone, and the cache is what is stored. |
| `KeyUpkeep.UpkeepRotates` | oidcprovider/keys.go:161-191 | The same of the stored keys as a value, for every store, rotation and grace. |
| `KeyUpkeep.Replica.RetireAndDelete` | oidcprovider/keys.go:179-191 | The loop over keys read earlier, whatever other replicas have done to the store since: retires the active ones but the newest read, deletes those read as retired for the grace, and changes no other. |
| `KeyUpkeep.Replica.SigningKey` | oidcprovider/keys.go:203-209 | Signs with the newest key cached, and with the newest one stored when the cache was due for a reload. |
| `SigningKeys.UpkeepInAnyOrder` | oidcprovider/keys.go:180-191 | What the retire-and-delete loop does depends on the set of keys it has visited, not on the order. |
| `KeyUpkeep.UpkeepKeepsNewest` | oidcprovider/keys.go:180-191 | The loop neither retires nor deletes the key it found newest, so that key still signs afterwards. |
| `KeyRotation.ExecKeepsInv` | oidcprovider/keys.go:111-196 | Any number of replicas running upkeep, reloads and signings from stale snapshots, in any interleaving, keep the protocol invariant. |
| `KeyRotation.YoungestKeyAlwaysSigns` | oidcprovider/keys.go:51-65 | In every reachable state the (created, id)-largest key ever added is stored, not retired, never deleted, and the one that signs in the store and in every cache that has it. |
| `KeyRotation.SomeKeyAlwaysSigns` | oidcprovider/keys.go:167-178 | From the first key on there is always one to sign with, so a run never misses the key it just added. |
| `KeyRotation.CompleteRunSettles` | oidcprovider/keys.go:156-159 | After a run that had read every key in the store, a key is in use if and only if it is the youngest ever added. |
| `KeyRotation.CompleteRunRenews` | oidcprovider/keys.go:161-191 | Whatever other replicas do: after a complete run started at t the youngest key was created less than the rotation before t, and not before t if the run was forced; and no stored key was read as retired for the grace. |
| `KeyRotation.ReloadedListHas` | oidcprovider/keys.go:111-128 | In any interleaving: once a load that read the store after a key was added is committed, the key is on the list its replica signs from and publishes, for as long as it is stored, through all later reloads that were not in flight when it was added. |
| `KeyRotation.ReloadSignsWithYoungest` | oidcprovider/keys.go:111-150 | In any interleaving: a replica whose load read the store after the youngest key was added signs with that key from the commit on, until a younger one is added or a load that was in flight then is committed. |
| `KeyRotation.LateCommitsAreSpared` | oidcprovider/keys.go:111-128 | A load committed later than a load takes, after the key was added, is followed by no commit of an older load, so the two results above hold of it without exception. |
| `KeyRotation.SweepIsUpkeep` | oidcprovider/keys.go:180-191 | One step of the interleaved sweep does to the store what one turn of the loop does. |
| `KeyRotation.SweepAlone` | oidcprovider/keys.go:180-191 | A sweep nobody interrupts, in any order of its keys, leaves what the imperative loop leaves. |
| `KeyExpiry.YoungCacheIsSafe` | oidcprovider/keys.go:132-196 | A token whose signer read the keys long enough before the grace runs out verifies until it expires, in every run. |
| `KeyExpiry.YoungCacheIsPublished` | oidcprovider/keys.go:215-223 | And until then its key is on the published list of every replica that has read the store since the key was added, unless a load that was in flight then is committed later. |
| `KeyExpiry.CommitDelayDecides` | oidcprovider/keys.go:111-128 | A key stays on the list of every replica that reloads at least a given time after it was added, for as long as it is stored and the replica runs, in all runs, if and only if that time is longer than a load may take: before that an older load can take it off again. |
| `KeyExpiry.FreshSignerIsYoung` | oidcprovider/keys.go:132-150 | A signer that found its cache fresh, or reloaded it itself, read the keys less than the refresh interval and the lag before. |
| `KeyExpiry.OldCacheIsUnsafe` | oidcprovider/keys.go:132-196 | For every larger age that upkeep allows there is a run, with upkeep throughout, in which the key is deleted before the token expires. |
| `KeyExpiry.CacheAgeDecides` | oidcprovider/keys.go:132-196 | Tokens signed from keys of a given age that upkeep allows all verify until they expire, in all runs with upkeep, if and only if age, token life and stamp lag fit in the grace. |
| `KeyExpiry.GraceDecides` | oidcprovider/provider.go:166-169 | Every token not signed behind another caller's reload verifies until it expires, in all runs, if and only if the grace covers token life, refresh interval and both lags. |
| `KeyExpiry.AttendedSignersAreYoung` | oidcprovider/provider.go:242-256 | While every replica's upkeep runs, no token is signed from keys older than its period and a load, whether its signer met a reload or not. |
| `KeyExpiry.UpkeepDecides` | oidcprovider/keys.go:132-196 | Every token, signed behind another caller's reload or not, verifies until it expires, in all runs with upkeep, if and only if token life, upkeep period and both lags fit in the grace. |
| `KeyExpiry.HourlyUpkeepNeedsTwoHours` | oidcprovider/provider.go:166-169 | With hourly upkeep and lags up to 22 hours in all, the default grace meets that condition, and a configured one does if and only if it is at least two hours and the lags: the floor of an hour and five minutes does not. |
| `KeyExpiry.NoGraceCoversStoppedUpkeep` | oidcprovider/keys.go:139-141 | Where upkeep has stopped for longer than the grace, and only there, a caller that meets a reload in progress can sign from a cache so old that no grace covers its token. |
| `KeyExpiry.EnforcedGraceSuffices` | oidcprovider/provider.go:166-169 | The floor New enforces is enough for tokens not signed behind a reload, when the lags are negligible. |
| `OAuthStore.MemoryStore.Revoke` | store/memory/oauth.go:235-253 | A live grant that agrees with every field set in the filter, of which there must be one, is revoked at this time; every other record stays as it was; the count is theirs. |
| `OAuthStore.RevokesExactly` | store/memory/oauth.go:235-253 | The same of the store as a value. |
| `OAuthStore.MemoryStore.UseRefresh` | store/memory/oauth.go:328-342 | Of any number of calls for one token exactly one finds it unused, and its mark is never moved. |
| `OAuthStore.MemoryStore.FindByCode` | store/memory/oauth.go:188-201 | A request with this code if there is one; the empty code finds none. |
| `OAuthStore.MemoryStore.DeleteGrant` | store/memory/oauth.go:257-269 | The grant and its tokens go. |
| `OAuthStore.MemoryStore.DeleteClient` | store/memory/oauth.go:143-165 | The loops that delete while they iterate, in any order, drop the client, its requests, its grants with their tokens, and every other token naming it. |
| `OAuthStore.MemoryStore.DeleteExpired` | store/memory/oauth.go:398-432 | The whole clean-up, in any order of iteration, equals its value as a set of records. |
| `OAuthCleanUp.CleanUpsAgree` | store/gormstore/oauth.go:438-467 | The memory store's clean-up equals the relational store's subquery deletes if and only if every remaining token of a stale client's grant names a stale client. |
| `OAuthCleanUp.DropsAgree` | store/gormstore/oauth.go:221-230 | The same for dropping any set of clients. |
| `OAuthCleanUp.CleanUpKeepsVerify` | oidcprovider/consent.go:291-319 | Clean-up leaves the answer of Verify for every token, except exactly those whose client, or whose grant's client, is stale. |
| `OAuthCleanUp.CleanUpKeepsExchangeable` | oidcprovider/storage.go:260-282 | The same for refresh tokens. |
| `OAuthCleanUp.CleanUpKeepsRequests` | oidcprovider/storage.go:82-91 | A pending request within its time stays, except exactly when its client is stale. |
| `OAuthCleanUp.CleanUpDropsExactly` | store/memory/oauth.go:398-432 | Record by record, what a clean-up drops: clients that lapsed, requests past their time, grants revoked or ended, tokens past their expiry, and what is theirs. Nothing else goes or changes: a used refresh token in time stays, and stays used. |
| `OAuthProvenance.ExecKeeps` | oidcprovider/storage.go:43-290 | Every interleaving of handlers working on copies read earlier keeps the invariant that ties each record to its sources. |
| `OAuthProvenance.ApprovedRequestsAreDecided` | oidcprovider/consent.go:155-180 | Every approved request, in every reachable state, is exactly what one decision by its own subject made of what was asked: client and resources as asked, and a scope granted if and only if it was asked and the decision covers it, despite whole-record saves overwriting each other. |
| `OAuthProvenance.GrantsAreDecided` | oidcprovider/storage.go:195-217 | Every grant is exactly what one decision allows of what was asked: same client, subject, reference and end, resources as asked, and each scope asked that the decision covers. |
| `OAuthProvenance.AccessTokensAreDecided` | oidcprovider/storage.go:235-258 | Every access token has one decision behind it and ends no later than it says. |
| `OAuthProvenance.RefreshTokensAreDecided` | oidcprovider/storage.go:156-191 | So has every refresh token, and its scopes are within those of the token it was exchanged for (section 6 of RFC 6749). |
| `OAuthProvenance.CleanUpsAlwaysAgree` | store/memory/oauth.go:398-432 | In every reachable state tokens name their grant's client, so the two stores' clean-ups agree. |
| `OAuthAnswers.NewRequestAsks` | oidcprovider/storage.go:43-66 | A new request asks its scopes in order, and offline_access last if its client may refresh and it had not asked. |
| `OAuthAnswers.AnswerIsIssued` | oidcprovider/consent.go:291-319 | In every reachable state a token is accepted exactly if it is stored, for the subject it was issued to, before the expiry it was issued with, under a stored grant neither revoked nor past its end. The answer is the client, subject, scopes and expiry it was issued with, and the resources and reference of the decision behind it. |
| `OAuthAnswers.AnsweredUntilEnded` | oidcprovider/consent.go:291-319 | Over any run an accepted token keeps its answer until the first step that ends it and is refused from then on: its expiry or its grant's end, a revocation naming its grant in every field set, a replay in its own family, its own revocation, or the end of its client. So no other family's replay or revocation touches it. |
| `OAuthAnswers.ExchangeableUntilEnded` | oidcprovider/storage.go:260-282 | Over any run a refresh token can be exchanged until the first such step, or its own exchange. |
| `OAuthAnswers.NewAccessAnswers` | oidcprovider/storage.go:235-251 | A new access token has the earlier of its own life and the decision's end; it is accepted at once exactly if that is ahead and its grant stands, with the exchange's client, subject and scopes. |
| `OAuthAnswers.NewRefreshAnswers` | oidcprovider/storage.go:183-191 | The same for a new refresh token. |
| `OAuthAnswers.UsedTokenStaysExactlyWhen` | store/memory/oauth.go:398-432 | A used refresh token stays known, used since the same time, except exactly when its client is dropped, or a clean-up finds it expired, its grant over or its client unused. |
| `OAuthAnswers.UsedTokenIsRemembered` | oidcprovider/storage.go:260-270 | So over any run without such a step, a replay is noticed however late. |
| `OAuthFamilies.RevocationIsFinal` | oidcprovider/consent.go:291-331 | Once a family is over, in every later state no access token of it verifies, for any resource or none, no refresh token of it is accepted and no look-up in flight succeeds, including tokens minted afterwards from a stale copy of the grant and after clean-up has deleted it. |
| `OAuthFamilies.RevokeEnds` | store/memory/oauth.go:235-253 | Revoking by id, reference, client or subject ends every family selected. |
| `OAuthFamilies.ReplayEndsFamily` | oidcprovider/storage.go:260-270 | A used refresh token presented again always sets out to revoke its family, and ends it whatever happens between the look-up and the revocation (section 4.14.2 of RFC 9700). |
| `OAuthFamilies.LostRaceEndsFamily` | oidcprovider/storage.go:166-170 | So does the exchange that loses the race for a token, without minting anything. |
| `OAuthFamilies.TokensFormChain` | oidcprovider/storage.go:156-191 | In every reachable interleaved state a grant has at most one unused refresh token or exchange between marking one and creating the next. |
| `OAuthFamilies.ExchangedOnce` | store/memory/oauth.go:328-342 | A refresh token has at most one successor and is used up when it has one. |
| `OAuthCodes.CodeAcceptedOnce` | oidcprovider/storage.go:101-130 | No process accepts a code twice in any run, although marks are forgotten and presentations interleave (section 4.1.2 of RFC 6749). |
| `OAuthCodes.CodeAcceptedExactlyInTime` | oidcprovider/storage.go:101-120 | In every reachable state a presented code is accepted exactly if its request is approved, at most ten minutes old, and was given this code by a step of the run at most a minute ago. |
| `OAuthQuiet.UnusedTTLDecides` | oidcprovider/provider.go:251 | With exchanges as single steps, the clean-up changes no token's acceptance in any run if and only if unused clients are kept as long as both kinds of token live. |
| `OAuthQuiet.PendingRequestCanGo` | store/memory/oauth.go:398-432 | For every configuration there is a run in which a request still in time is dropped with its client: making a request does not count as using the client. |
| `OAuthTouch.TouchLagDecides` | oidcprovider/storage.go:235-251 | With every store call of an exchange a step of its own: tokens whose client was used since they were created keep their answers through every clean-up, in all runs, if and only if unused clients are kept as long as both kinds of token live and a touch may be late, because a late touch moves the last use back. |
| `OAuthTouch.UntouchedTokenCanGo` | oidcprovider/storage.go:235-251 | For every configuration there is a run in which a token just created is dropped with its client, because the clean-up comes before the touch. |
| `OAuthHandlers.GrantScopes` | oidcprovider/consent.go:160-168 | The loop keeps, in order, the scopes chosen and the two that always come along. |
| `OAuthFlow.FilterJoins` | oidcprovider/consent.go:160-172 | The scopes kept keep the order asked: filtering two parts and joining them is filtering the whole. |
| `OAuthHandlers.RefreshRequest.SetCurrentScopes` | oidcprovider/requests.go:62-70 | The scopes are those asked that the token has: never more. |
| `OAuthHandlers.Storage.Approve` | oidcprovider/consent.go:155-180 | Succeeds exactly for a request in time, not yet approved and with this subject, and saves the whole record with the decision; otherwise nothing changes. |
| `OAuthHandlers.Storage.AuthRequestByCode` | oidcprovider/storage.go:101-120 | A marked code is refused; any other is marked before its request is looked for, whatever the outcome. |
| `OAuthHandlers.Storage.ForgetCodes` | oidcprovider/storage.go:122-130 | The deleting loop forgets exactly the marks past the request's time. |
| `OAuthHandlers.Storage.SaveAuthCode` | oidcprovider/storage.go:132-140 | The code goes on a request still in time; otherwise nothing changes. |
| `OAuthHandlers.Storage.Redeem` | oidcprovider/storage.go:195-217 | A grant made of the approved request's copy, and its tokens; nothing for a request not approved or a user no longer in good standing. |
| `OAuthHandlers.Storage.CreateAccessToken` | oidcprovider/storage.go:235-251 | One access token, ending with the grant at the latest, and the touch of its client. |
| `OAuthHandlers.Storage.Rotate` | oidcprovider/storage.go:156-191 | A rotation leaves the presented token used up and two new tokens, or ends the family when it was used before, or mints nothing when the grant's copy is not live. |
| `OAuthHandlers.Storage.TokenRequestByRefreshToken` | oidcprovider/storage.go:260-282 | Succeeds exactly for an exchangeable token of a user in good standing; a used one ends its family. |
| `OAuthHandlers.RedeemedAnswers` | oidcprovider/storage.go:195-217 | Tokens of a redeemed code are accepted and exchangeable at once, with what was approved and the earlier of both ends. |
| `OAuthHandlers.RotatedAnswers` | oidcprovider/storage.go:156-191 | An exchange uses its token up and gives new tokens, accepted and exchangeable at once, for the narrowed scopes; a token used before ends the family and gives none. |
| `OAuthHandlers.RotationIsRun` | oidcprovider/storage.go:156-191 | An uninterrupted rotation leaves the store as the six interleavable steps do, on every path. |
| `OAuthHandlers.LookUpIsRun` | oidcprovider/storage.go:260-282 | An uninterrupted look-up is a run of its three steps and hands over the record copies the exchange then works on. |
| `OAuthHandlers.MintIsRun` | oidcprovider/storage.go:179-190 | Minting is a run of its three steps. |
| `OAuthHandlers.RedeemIsRun` | oidcprovider/storage.go:179-217 | Redeeming a code is a run of its four steps. |
| `OAuthHandlers.ApproveIsRun` | oidcprovider/consent.go:155-180 | An uninterrupted approval is a run of its two steps, and records a decision exactly when it is accepted. |
| `OAuthHandlers.SaveCodeIsRun` | oidcprovider/storage.go:132-140 | Putting a code on its request is a run of its two steps. |
| `OAuthHandlers.CodeIsRun` | oidcprovider/storage.go:101-120 | A look-up by code is a run of its two steps: the same mark, the same acceptance, the same copy handed over. |
| `OAuthHandlers.MarkIsOwn` | oidcprovider/storage.go:105-111 | The marks a process sees are its own, whatever other processes mark. |
| `OAuthHandlers.ForgetIsRun` | oidcprovider/storage.go:122-130 | Forgetting codes is its one step, and leaves other processes' marks alone. |
| `OAuthHandlers.NarrowIsRun` | oidcprovider/requests.go:62-70 | Narrowing is its one step. |
| `ScimFilter.ComparisonsAgree` | scim/filter.go:376-401 | A present attribute is below, equal to or above any value, exactly one of them, and the other operators follow; an absent attribute satisfies no comparison. |
| `ScimFilter.OperatorsMean` | scim/filter.go:376-401 | Case aside, each operator asks what it says: equal, before or after in byte order, begins, ends or is within, each against its own definition. |
| `ScimFilter.CaseIsIgnored` | scim/filter.go:323-401 | Changing the case of names and values in a filter, at any depth, never changes what it selects. |
| `ScimFilter.MembersByValue` | scim/filter.go:93-107 | members[value eq "id"] selects exactly the groups with a member of that id. |
| `ScimFilter.EmailsByValue` | scim/filter.go:30-91 | emails[...] selects exactly the users with an address the inner filter accepts; a value path directly inside another accepts none. |
| `ScimFilter.NotEqIsNotNe` | scim/filter.go:384 | "not (a eq v)" and "a ne v" mean the same on a resource if and only if it has the attribute. |
| `ScimSelection.PresentMeansValue` | scim/filter.go:356-359 | "a pr" holds exactly if "a eq v" does for some v that is not empty. |
| `ScimSelection.LogicLaws` | scim/filter.go:248-305 | And, or and not obey the laws of a Boolean algebra on every resource. |
| `ScimSelection.OperatorsByName` | scim/filter.go:360-402 | The nine operators, as written: what each asks of the attribute's value, case aside, whatever the attribute's case. |
| `ScimSelection.UsersByAttribute` | scim/filter.go:47-59 | Written tests of equality and presence on each attribute of a user select exactly the users whose address, name, id or state says so. |
| `ScimSelection.GroupsByAttribute` | scim/filter.go:65-73 | The same for groups. |
| `ScimSelection.PresentAndActive` | scim/filter.go:47-59 | The texts userName pr and active eq "true" select exactly the users with an address, and those not disabled. |
| `ScimTokens.Tokenize` | scim/filter.go:162-211 | The loop delivers the tokens of the string, and fails exactly on a quoted string without an end. |
| `ScimTokens.ReadQuoted` | scim/filter.go:180-200 | The escape loop: only backslash-quote and backslash-backslash are escapes, any other backslash is itself. |
| `ScimParser.Parser.ParseOr` | scim/filter.go:248-268 | Accepts what the grammar accepts with a predicate that means the tree read; the depth is restored unless an error passes, and open calls never exceed 40. |
| `ScimParser.Parser.ParseAnd` | scim/filter.go:270-285 | The same for "and" lists. |
| `ScimParser.Parser.ParseNot` | scim/filter.go:287-305 | The same for negations and what may be negated. |
| `ScimParser.Parser.ParsePrimary` | scim/filter.go:307-321 | The same for groups. |
| `ScimParser.Parser.ParseAttrExp` | scim/filter.go:323-374 | The same for attribute expressions and value paths. |
| `ScimParser.CompileFilter` | scim/filter.go:230-246 | For every string: ends, reads no token past the last, holds at most 40 open calls, accepts exactly the grammar, and the compiled predicate is the meaning of the tree on every resource. |
| `ScimDerivation.ParseExactlyDerives` | scim/filter.go:213-374 | A string is accepted, as this tree, if and only if its tokens have a derivation in the grammar, with any redundant parentheses and any case of the keywords, that nests at most 40 deep and means this tree (section 3.4.2.2 of RFC 7644). |
| `ScimRoundTrip.RoundTrip` | scim/filter.go:162-374 | Any well-formed tree within the nesting limit, printed with escaped strings, reads back as itself. |
| `ScimRoundTrip.PrintHasFewestParentheses` | scim/filter.go:213-374 | No string that compiles to a tree has fewer parentheses than the printed one. |
| `ScimRoundTrip.ReadableExactlyWhenPrintable` | scim/filter.go:213-374 | The trees some string compiles to are exactly the well-formed ones within the nesting limit. |
| `ScimRoundTrip.PrintedFormIsEquivalent` | scim/filter.go:213-374 | Any accepted string can be replaced by the printed form of its tree. |
| `ScimRoundTrip.Precedence` | scim/filter.go:213-285 | Without parentheses "and" binds tighter than "or" and both group to the left. |
| `ScimRoundTrip.ScanText` | scim/filter.go:162-211 | Any list of well-formed tokens, written out, tokenizes to itself. |
| `IdentityStore.Store.FindByEmail` | store/memory/memory.go:190-198 | The loop finds the one row with this address, compared trimmed and lower-cased. |
| `IdentityStore.Store.UpsertUserOnLogin` | store/memory/memory.go:611-655 | The account-linking rule: whole new state and answer, for every combination of known subject, address, seeding and proof. |
| `IdentityStore.Store.CreateLocalUser` | store/memory/memory.go:227-238 | One new row, or none when the address is taken. |
| `IdentityStore.Store.ChangeEmail` | store/memory/memory.go:421-440 | Refused exactly when another row has the address. |
| `IdentityStore.Store.DeleteCascade` | store/memory/memory.go:658-692 | The user and everything keyed to it go, through loops in any order and an in-place token filter; sessions are marked revoked and kept. |
| `IdentityStore.Store.RemoveOrgMember` | store/memory/orgs.go:147-172 | The membership and the user's place in that organization's groups go, and nothing else. |
| `IdentityStore.Store.RemoveOrg` | store/memory/orgs.go:94-125 | The organization, its members, its groups and everyone's place in them go. |
| `IdentityStore.Store.OrgMembers` | store/memory/orgs.go:210-225 | Lists exactly the members that are users. |
| `IdentityStore.Store.AddUsersToGroup` | store/memory/directory.go:113-131 | The batch equals the single form for each id in turn. |
| `IdentityStore.Store.RemoveGroup` | store/memory/directory.go:68-80 | The group goes, and everyone's place in it. |
| `IdentityRuns.ExecKeeps` | store/memory/memory.go:190-238 | Over any sequence of store calls addresses and subjects each stay unique, ids stay below the counter, and every organization member is a user. |
| `IdentityRuns.SubjectChangesExactlyWhen` | store/memory/memory.go:611-655 | A surviving row's subject changes in a call if and only if it is a login for its address under an unknown subject, and the row was seeded by the operator or both it and the login are verified. |
| `IdentityRuns.ChangedSubjectWasRebound` | store/memory/memory.go:611-655 | Over any run: a row whose subject differs at the end had such a login in between. |
| `IdentityRuns.LoginTouchesItsRow` | store/memory/memory.go:611-655 | A login changes a surviving row only if the row has its subject or its address, and never whether the user is disabled. |
| `IdentityLogins.LoginMeans` | store/memory/memory.go:611-655 | Read off the rows: which logins are refused, which account any other is for, or that it makes a new one; that account then has the login's subject, address and name, is verified if it was or the login is, and disabled if it was; no other row changes but an unproven one of the address, which goes. |
| `IdentityLogins.VerifiedExactlyWhen` | store/memory/memory.go:421-440 | After any call an account is verified exactly if the call was a verified login of it, a change of its address or the flag set, or it was before and the flag was not taken away; so a new account is verified exactly if its login was. |
| `IdentityLogins.VerifiedWasProved` | store/memory/memory.go:611-655 | Over any run: an account verified at the end and not at the start had such a call in between. |
| `IdentityRuns.ReclaimLeavesNothing` | store/memory/memory.go:644-692 | After any run in which callers pass only issued ids, reclaiming an address leaves one user under a never-used id with nothing keyed to it, and nothing but revoked sessions keyed to the old id. |
| `IdentityRuns.UnissuedIdIsInherited` | store/memory/memory.go:362-371 | The proviso is needed: a password set for an id not issued yet belongs to the user who gets it. |
| `IdentityEffects.ErasesExactly` | store/memory/memory.go:658-692 | Deleting a user takes exactly what is keyed to it; everyone else's rows, credentials, tokens, sessions, memberships and places stay. |
| `IdentityEffects.GivesExactly` | store/memory/memory.go:300-319 | A secret is the user's afterwards unless it was bound, and no one else gains or loses one. |
| `IdentityEffects.RegistersExactly` | store/memory/memory.go:227-238 | One new unverified row, or none if the address is taken. |
| `IdentityEffects.RowVerbsExactly` | store/memory/memory.go:421-440 | A change of address, flag or state changes that field of that row, and an address only if it is free. |
| `IdentityEffects.JoinsExactly` | store/memory/orgs.go:127-145 | The user has this role in this organization, if both exist; no other role changes. |
| `IdentityEffects.LeavesExactly` | store/memory/orgs.go:147-172 | Exactly this membership ends, with the places in this organization's groups. |
| `IdentityEffects.DropsOrgExactly` | store/memory/orgs.go:94-125 | Exactly this organization's memberships, groups and places end. |
| `IdentityEffects.DropsGroupExactly` | store/memory/directory.go:68-80 | Exactly this group goes, with the places in it. |
| `IdentityEffects.PlacesExactly` | store/memory/directory.go:82-111 | Adding and removing change exactly this place. |
| `IdentityEffects.FoundsExactly` | store/memory/directory.go:19-38 | A new organization or group has the next id and its name, unless the name is taken. |
| `OrgView.NamespacesAreDisjoint` | orgdirectory.go:166-182 | No subject is in the namespace of two organizations. |
| `OrgView.NamesCollideExactlyWhen` | orgdirectory.go:173-182 | Two user names of one provider become one subject if and only if they are equal once the organization's own prefix is taken off. |
| `OrgView.PrefixedNameCollides` | orgdirectory.go:173-182 | Such a pair: the user names x and org1:x in organization 1. |
| `OrgView.ViewIsConfined` | orgdirectory.go:255-411 | Whatever sequence of calls an organization makes through its view, each one step: every user outside its namespace, every credential and session, every other membership, and every group not its own with the people in it, is as before. |
| `OrgView.OtherNamespacesUntouched` | orgdirectory.go:255-273 | In particular no account another organization provisioned changes. |
| `OrgProvisioning.ProvisioningIsRun` | orgdirectory.go:255-273 | The call that provisions is a run of four store calls. |
| `OrgProvisioning.StepStaysExactlyWhen` | orgdirectory.go:255-273 | With anything landing between those: a store call of the view changes a user outside the namespace if and only if it is a login for an address that an outside account has by then, under a subject no account has, and the login is verified or the account was seeded. |
| `OrgProvisioning.RunIsConfined` | orgdirectory.go:255-273 | In any run in which no one comes to have an address between a provisioning's look-up of it and its login, no store call of the view changes anything outside the organization. |
| `OrgProvisioning.SplitProvisioningTakesOver` | orgdirectory.go:262-268 | A run that shows it is needed, from every store where the provisioning is accepted for a new user: whoever signs up with the address in between finds the account in the organization's namespace. |
| `OrgView.PathsAgreeExactlyWhen` | orgdirectory.go:376-404 | The one-scan filter and the per-id filter return the same list in the same order for every batch if and only if every member is a user. |
| `OrgView.EventKeepsWithin` | store/memory/orgs.go:127-172 | A store call keeps organization groups within the organization if and only if it is not a direct group add of someone outside it. |
| `OrgView.GroupsStayWithin` | orgdirectory.go:331-365 | Over any mix of view calls, each one step, and such store calls, cascades included, the people in an organization's groups are its members. |
| `OrgView.SplitAddLeavesOutsider` | orgdirectory.go:331-339 | The view checks and adds in two store calls: whoever leaves the organization between them is left in the group, in every such state. |
| `OrgScopedDirectory.OrgScopedDir.UpsertExternalUser` | orgdirectory.go:255-273 | The view's checks, the linking rule and the membership, in that order; refused outside the namespace or for an address of another account. |
| `OrgScopedDirectory.OrgScopedDir.SetUserDisabled` | orgdirectory.go:278-296 | Disabling removes from the organization, never an owner. |
| `OrgScopedDirectory.OrgScopedDir.OrgMembersOf` | orgdirectory.go:377-404 | Both paths, below and above 16 ids, return the ids that are members, in order. |
| `OrgScopedDirectory.OrgScopedDir.AddUsersToGroup` | orgdirectory.go:356-365 | Adds the members among the ids to a group of this organization, and refuses any other group. |
| `OrgViewEffects.ProvisionsExactly` | orgdirectory.go:255-273 | Accepted exactly for an organization there is, a subject of its namespace and an address no one else has; then the account has them and the name, and is a member in the role it had, or as a plain one. |
| `OrgViewEffects.DeprovisionsExactly` | orgdirectory.go:278-296 | Takes exactly a member who is no owner out of the organization and its groups; otherwise nothing changes. |
| `OrgViewEffects.AddsExactly` | orgdirectory.go:356-365 | Puts exactly the members among the ids into exactly this group, if it is the organization's. |
| `OrgViewEffects.RemovesExactly` | orgdirectory.go:369-374 | Takes exactly these ids out of it. |
| `OrgViewEffects.PlacesOneExactly` | orgdirectory.go:331-349 | The calls for one user do the same. |
| `LastOwner.Organization.SoleOwner` | orgs_handlers.go:216-231 | The counting loop answers whether the owners are exactly this user. |
| `LastOwner.Organization.SetRole` | orgs_handlers.go:236-286 | Every outcome and the new roles, for every actor's role, target and new role. |
| `LastOwner.Organization.Remove` | orgs_handlers.go:292-344 | The same for removals and leaving. |
| `LastOwner.SetsRoleExactly` | orgs_handlers.go:236-286 | A role is set exactly when the actor manages the organization, the target is a member, an owner acts where an owner is made or unmade, and the last one is not; the target then has exactly that role, and otherwise no role changes. |
| `LastOwner.RemovesExactly` | orgs_handlers.go:292-344 | The same for removals and leaving. |
| `LastOwner.HandlerIsRun` | orgs_handlers.go:236-344 | A handler whose store calls nothing interrupts leaves the roles its method leaves, and answers once, as its method does. |
| `LastOwner.StepKeepsSecure` | orgs_handlers.go:254-283 | With view writes free to land between a locked handler's target read, owner count and write: from a state with an owner, now and once the lock holder has written, a step keeps that if and only if it is not a view write on the one owner left, the lock holder's target aside. |
| `LastOwner.SecureExactlyWhen` | orgs_handlers.go:236-344 | Over whole runs: an organization stays so at every point if and only if no view write undermines it. |
| `LastOwner.UnderminingLosesOwner` | orgdirectory.go:196-202 | Such a write costs the last owner at once or with the lock holder's next store call. |
| `LastOwner.OwnerRemains` | orgs_handlers.go:236-344 | No interleaving of handlers, with stale actor roles, and view calls in which no view write lands on an owner leaves an organization without one. |
| `LastOwner.SelfServiceKeepsOwner` | orgs_handlers.go:236-344 | In particular the self-service handlers alone never do. |
| `LastOwner.RemovalCanLoseOwner` | orgdirectory.go:278-296 | Runs in which a deprovisioning that began on a plain member takes away the last owner: after the other owner has left, and between that owner's check and write. |
| `LastOwner.JoiningCanLoseOwner` | orgdirectory.go:196-202 | Runs in which the second of two provisionings of one user demotes the last owner, in the same two places. |
| `LastOwner.OnlyStandingChanges` | orgs_handlers.go:236-344 | In every run a handler changes no role but its target's, someone else's only for a manager, and an owner's only for an owner, whatever view writes land between its store calls. |
| `LastOwner.OwnershipComesFromAnOwner` | orgs_handlers.go:265-268 | In any run, whoever becomes an owner is made one by a request whose actor was an owner when it began. |
| `SlidingWindow.KeepAfter` | ratelimit.go:84-89 | The filter writes the entries it keeps into the front of the array it reads, without overtaking itself. |
| `SlidingWindow.RateLimiter.Allow` | ratelimit.go:79-96 | The new state and the answer. |
| `SlidingWindow.RateLimiter.Gc` | ratelimit.go:99-116 | The deleting loop, in any order, keeps for each key what is still in its window. |
| `SlidingWindow.CollectedExactly` | ratelimit.go:99-116 | A list stays exactly while it has an entry in the window. |
| `SlidingWindow.AllowDecides` | ratelimit.go:79-96 | When no attempt is counted behind an earlier reading, one is accepted exactly when fewer than the limit were accepted in the window before it, whatever was collected in between. |
| `SlidingWindow.CollectIsInvisible` | ratelimit.go:99-116 | Nor does the background pass, however old its own reading, change an answer in any such run. |
| `SlidingWindow.LaggingWindowIsBounded` | ratelimit.go:79-96 | With readings at most a lag behind, no interval shorter than the window by the lag holds more than the limit of accepted attempts of a key. |
| `SlidingWindow.LagDecidesTheLength` | ratelimit.go:79-96 | And in no longer intervals: for every lag and length, the limit holds in all intervals of that length in all runs if and only if the length is at most the window less the lag. |
| `SlidingWindow.OrderDecidesTheLimit` | ratelimit.go:79-83 | In particular it holds in every window of every run if and only if no reading, taken before the lock, is behind an earlier one. |
| `FixedWindow.Limiter.Allow` | oidcprovider/provider.go:328-341 | The new counters and the answer; the counter is written through the pointer the map holds. |
| `FixedWindow.Limiter.SweepAt` | oidcprovider/provider.go:343-351 | The deleting loop removes exactly the expired counters. |
| `FixedWindow.AllowsExactly` | oidcprovider/provider.go:328-351 | An event is let through exactly while its key's counter has room, a counter serves for one window from its first event, and a sweep keeps exactly the counters that serve. |
| `FixedWindow.SweepIsInvisible` | oidcprovider/provider.go:343-351 | The sweep, however old its reading of the clock, never changes an answer in a run in which no arrival is counted behind an earlier reading. |
| `FixedWindow.WindowHoldsMost` | oidcprovider/provider.go:328-341 | In such a run no interval of one window holds more than 2n - 1 accepted events of a key, with sweeps, however old their readings, at any time. |
| `FixedWindow.WindowBudgetIsExact` | oidcprovider/provider.go:328-341 | A number bounds every window of all such runs if and only if it is at least 2n - 1. |
| `FixedWindow.LagDecidesTheSpan` | oidcprovider/register.go:39 | With arrivals counted up to a lag behind earlier readings, taken before the lock: for every lag and length, all intervals of that length in all runs hold at most 2n - 1 if and only if the length is at most one more than the window less twice the lag; the window, when there is no lag; the window less the lag, when n is 1. |

## Left out

- Failing stores: store calls succeed, except for the misses and conflicts the code branches on.
- Clocks of different replicas: they agree; the lags stand for delays, not for skew.
- Order of the key list: the store sorts by creation time; the model keeps a list without saying how it is sorted, and no result depends on it. A stored key that does not parse is not modelled.
- RSA, PEM, JWT, hashing and random ids: a key, code or token stands for its hash, and new ids are fresh.
- Redirect URIs, state, nonce, PKCE, client names and secrets, resource normalisation, userinfo, introspection and the fetching of metadata documents: no result depends on them. A client described by a metadata document is one that is not stored.
- Deny and the revocation endpoint: a denied request is one dropped, and the endpoint's calls are the modelled revocations of a grant or an access token.
- OAuthQuiet.UnusedTTLDecides: takes the minting of one exchange as a single step; OAuthTouch.TouchLagDecides and OAuthTouch.UntouchedTokenCanGo say what its store calls one by one can do.
- OAuthFamilies.TokensFormChain: takes the caller to pass the presented refresh token along, as the library does; without it the code mints from a live grant and marks no token (`oidcprovider/storage.go:175-176`).
- Records in the OAuth and identity stores: values in maps the methods reassign; updating one in place through a shared pointer is not captured there. FixedWindow does model the pointer.
- Backing arrays: SlidingWindow.KeepAfter is the in-place filter on its own; RateLimiter holds sequences and their capacity is not modelled.
- SlidingWindow.RateLimiter.Allow: takes its reading of the clock as a parameter, as do the other limiter methods.
- Text outside ASCII: lower-casing, case folding and trimming are modelled for ASCII bytes only.
- SCIM sorting, schemas, patches and the resources' JSON: only the attributes a filter can see are modelled.
- Timestamps, bans, web-authentication handles, one-time email codes, audits, API keys and invites: they take no part in the results.
- Tokens: their hashes, expiry and consumption; only their owner matters to the cascade.
- Ids: numeric keys; the decimal strings are canonical, while the code also accepts leading zeros.
- OrgView.ViewIsConfined: takes every call of the view as one step; OrgProvisioning.RunIsConfined has the store calls of a provisioning apart.
- OrgProvisioning.RunIsConfined: takes the view's other calls as one step each.
- LastOwner: about one process. The lock is local to it (`orgs_handlers.go:214-215`), so requests in two processes are not ordered.
- OrgView.GroupsStayWithin: takes the view's membership check and its add as one step; OrgView.SplitAddLeavesOutsider says what the two steps can do.
- KeyExpiry.UpkeepDecides: that every replica's upkeep keeps running is a hypothesis on the run, stated as the age it leaves a cache at; upkeep is not tied to a replica in the machine.
- Account deletion, invites and the administrator's verbs in LastOwner: they pass by the guard by design.
- Users that do not exist: LastOwner takes every provisioned user to exist; IdentityStore.Store.SetOrgMember has the refusal.
- Members that are not users: LastOwner lists all members; IdentityRuns.ExecKeeps proves that they are users in every state the store reaches.
- Sorting of member lists by address: not modelled; no result depends on it.
- HTTP, cookies, JSON, email, LDAP, social login, the administrator's pages and the SQL store beyond its clean-up.
