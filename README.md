# Dashboard template: session tokens, discount engine and list editing

This project models three parts of an Angular dashboard and proves properties about them.

**Session-token layer.**
- `SecurityService` keeps the access and refresh tokens in sessionStorage under `auth_token` and `refresh_token`. Each token is XORed with a key taken from the host name and user agent, then base64-encoded. It also inspects JWT expiry and detects an insecure environment.
- `TokenService` is an older store. It keeps the same tokens in plain form in localStorage under `token` and `refreshToken`.
- `RefreshTokenService` renews the access token with a single POST that can be in flight at a time. It also arms a renewal timer five minutes before expiry.
- `AuthInterceptor` attaches `Authorization: Bearer <token>` to outgoing requests. It clears the tokens on a security violation, an expired token, or a 401 or 403 answer.
- `AuthGuard` admits a route only when a localStorage token has not expired.

**Discount engine.**
- `DiscountService` holds an in-memory list of discounts of four kinds: percentage, fixed, category and coupon. It supports create, update and delete, filtering by activity, category and date window, coupon validation and redemption, statistics, and the best price for a product (direct offer, category discount or coupon).
- The discounts page adds the status badge, the usage gauge, form error messages, type labels and the validation rules that change with the selected discount type.

**List editing.**
- `ImageUploadComponent` keeps a list of images. It appends processed files up to a limit, rejecting files of the wrong type or size. It removes, reorders and promotes images in place.
- `UsersComponent` filters the loaded users by a case-insensitive search on name and email. It refuses to edit or delete a user without an id.

**How the model is written.**
- Services and components whose fields change become classes.
- Each method is proved against a pure function over a value snapshot of its state: `Security.Store`, `Tokens.LocalState`, `Refresh.RefreshState`, or the sequences themselves. The lemmas about those functions carry the properties.
- Loops in the source stay loops, with invariants: the XOR codec, loading the existing images, and processing a batch of files.

**Strings and numbers.**
- Tokens are JavaScript strings, so they are sequences of UTF-16 code units (`JsText.JsStr`).
- `btoa`, `atob`, `jwtDecode` and `JSON.parse` are function-valued fields of `Browser.Platform`. Each returns `None` where the JavaScript call throws. The codec lemmas assume only the base64 laws in `Browser.Base64Laws`.
- The clock is a parameter. Token expiry uses epoch seconds; discount dates use epoch milliseconds.
- Money is `real`.

**Source behaviour worth knowing (the model follows the code):**
- `SecurityService.isValidJWT` returns `true` before any check. Every "invalid JWT" branch that depends on it is dead, and the model proves those branches unreachable. Examples are `Refresh.InsecureGuardUnreachable` and the interceptor's invalid-token branch.
- The renewal timer is armed only when more than 300 seconds remain. A token with five minutes or less left is never renewed automatically.
- An `exp` of 0 counts as missing, because JavaScript treats 0 as falsy.
- `AuthGuard` admits a token whose payload parses to an object without `exp`, because `undefined < now` is false.
- In the discounts page, clearing the type keeps the previous value bounds.
- A discount that has not started yet is labelled "Expirado".

## Model

| member | source | states |
|---|---|---|
| Security.EncryptionKey | src/app/core/services/security.service.ts:134-138 | the key is at most 16 units, exists exactly when host name plus user agent is a byte string, and is ASCII |
| Security.XorInvolutive | src/app/core/services/security.service.ts:109-129 | XOR with the repeated key, applied twice, gives back the input |
| Security.EncryptedSucceeds | src/app/core/services/security.service.ts:109-116 | encryption fails exactly when the key cannot be derived or the token is not a byte string (`btoa` throws) |
| Security.DecryptEncrypted | src/app/core/services/security.service.ts:109-129 | decrypting what encryption produced yields the original token |
| Security.EncryptedNonEmpty | src/app/core/services/security.service.ts:109-116 | the ciphertext is empty exactly when the token is empty |
| Security.Cleared | src/app/core/services/security.service.ts:259-268 | both token entries are removed, every other entry is kept, and both subjects are null |
| Security.ClearedIdempotent | src/app/core/services/security.service.ts:259-268 | clearing twice leaves the same state as clearing once |
| Security.ReadToken | src/app/core/services/security.service.ts:65-76 | a missing or empty entry reads as null and changes nothing; an undecryptable entry reads as null and clears both tokens; otherwise the decrypted token is returned |
| Security.ReadTokenIdempotent | src/app/core/services/security.service.ts:65-76 | a second read returns what the first returned and changes nothing further |
| Security.ReadRefreshToken | src/app/core/services/security.service.ts:94-104 | a missing entry reads as null; otherwise the decryption result, and a failure clears nothing |
| Security.StoredTokenReadsBack | src/app/core/services/security.service.ts:46-76 | after storing a non-empty byte-string token it is published and reads back unchanged |
| Security.StoredRefreshTokenReadsBack | src/app/core/services/security.service.ts:81-104 | the same round trip for the refresh token |
| Security.IsValidJWT | src/app/core/services/security.service.ts:143-144 | accepts every token, since the method returns true before its checks |
| Security.StoredToken | src/app/core/services/security.service.ts:46-60 | when encryption fails nothing changes; otherwise only the `auth_token` entry is replaced by the ciphertext and the token is published; the refresh subject is untouched |
| Security.StoredRefreshToken | src/app/core/services/security.service.ts:81-89 | when encryption fails nothing changes; otherwise only the `refresh_token` entry is replaced and the refresh token is published; the access subject is untouched |
| Security.Encrypted | src/app/core/services/security.service.ts:109-116 | fails exactly when the key cannot be derived or `btoa` throws on the XORed text |
| Security.Decrypted | src/app/core/services/security.service.ts:121-129 | fails exactly when the key cannot be derived or `atob` throws; the plain text has as many code units as the decoded text |
| Security.Initialized | src/app/core/services/security.service.ts:25-41 | sessionStorage is what reading the access token leaves; the access token is published exactly when it reads back truthy, and the refresh token exactly when it reads back truthy |
| Security.ReloadRestoresSubjects | src/app/core/services/security.service.ts:25-41 | after both tokens were stored, a new service built from that sessionStorage publishes both again and keeps the storage |
| Security.IsTokenExpired | src/app/core/services/security.service.ts:172-198 | expired exactly when there is no decodable non-zero `exp` or `exp` is before now |
| Security.ExpiringSoon | src/app/core/services/security.service.ts:213-232 | true without a token; otherwise true exactly when there is no usable `exp` or fewer than 300 s remain |
| Security.TimeRemaining | src/app/core/services/security.service.ts:237-254 | never negative; 0 without a token or `exp`; otherwise `exp - now` whenever that is positive |
| Security.NotExpiringSoonIffTimeLeft | src/app/core/services/security.service.ts:213-254 | not expiring soon exactly when at least 300 s remain |
| Security.TimeLeftMeansLive | src/app/core/services/security.service.ts:172-254 | time left implies a present, unexpired token; `exp == now` is not yet expired |
| Security.SuspiciousActivity | src/app/core/services/security.service.ts:330-345 | suspicious exactly when the environment is insecure; the state left is that of the token read |
| Browser.SecureEnvironmentCases | src/app/core/services/security.service.ts:323-325 | HTTPS is secure from any host and `localhost` over any protocol; plain HTTP from any other host is insecure |
| Security.TokenValid | src/app/core/services/security.service.ts:203-208 | valid exactly when a token reads back and is not expired |
| Security.LogoutDecision | src/app/core/services/security.service.ts:310-317 | a logout timer is armed exactly when time remains, for that many seconds |
| Security.SecurityService.constructor | src/app/core/services/security.service.ts:18-41 | the service starts in the state `Initialized` computes from sessionStorage |
| Security.SecurityService.GetEncryptionKey | src/app/core/services/security.service.ts:134-138 | the key is `EncryptionKey` of the platform, whose properties `EncryptionKey` states |
| Security.SecurityService.EncryptToken | src/app/core/services/security.service.ts:109-116 | the character loop computes `Encrypted` |
| Security.SecurityService.DecryptToken | src/app/core/services/security.service.ts:121-129 | the character loop computes `Decrypted` |
| Security.SecurityService.SetSecureToken | src/app/core/services/security.service.ts:46-60 | the new state is `StoredToken` of the old one |
| Security.SecurityService.GetSecureToken | src/app/core/services/security.service.ts:65-76 | returns and leaves what `ReadToken` says |
| Security.SecurityService.SetSecureRefreshToken | src/app/core/services/security.service.ts:81-89 | the new state is `StoredRefreshToken` of the old one |
| Security.SecurityService.GetSecureRefreshToken | src/app/core/services/security.service.ts:94-104 | returns `ReadRefreshToken` and changes nothing |
| Security.SecurityService.ClearAllTokens | src/app/core/services/security.service.ts:259-268 | the new state is `Cleared` of the old one |
| Security.SecurityService.IsTokenValid | src/app/core/services/security.service.ts:203-208 | answers and leaves what `TokenValid` says |
| Security.SecurityService.IsTokenExpiringSoon | src/app/core/services/security.service.ts:213-232 | answers `ExpiringSoon` of the token read |
| Security.SecurityService.GetTokenTimeRemaining | src/app/core/services/security.service.ts:237-254 | answers `TimeRemaining` of the token read |
| Security.SecurityService.LogoutOnExpiration | src/app/core/services/security.service.ts:303-318 | without a token both entries are cleared; otherwise the plan is `LogoutDecision` of the time remaining |
| Security.SecurityService.DetectSuspiciousActivity | src/app/core/services/security.service.ts:330-345 | answers and leaves what `SuspiciousActivity` says |
| Security.SecurityService.IsSecure | src/app/core/services/security.service.ts:323-325 | answers exactly whether the platform is a secure environment |
| Tokens.ValidJWTShape | src/app/core/services/token.service.ts:30-46 | valid exactly when the token is non-empty, has exactly two dots and decodes |
| Tokens.IsValidJWT | src/app/core/services/token.service.ts:30-46 | a valid token is non-empty and decodes; a non-empty token with three dot-separated parts that decodes is valid |
| Tokens.IsTokenExpired | src/app/core/services/token.service.ts:51-77 | an invalid token is expired; a valid one is expired exactly when it has no usable `exp` or `exp` is before now |
| Tokens.ExpiringSoon | src/app/core/services/token.service.ts:108-127 | true for a missing or invalid token; otherwise true exactly when fewer than 300 s remain |
| Tokens.TimeRemaining | src/app/core/services/token.service.ts:132-149 | never negative; 0 for a missing or invalid token or without `exp`; otherwise `exp - now` when positive, and never less than it |
| Tokens.NotExpiringSoonIffTimeLeft | src/app/core/services/token.service.ts:108-149 | not expiring soon exactly when at least 300 s remain |
| Tokens.TimeLeftMeansLive | src/app/core/services/token.service.ts:51-149 | time left implies a valid, unexpired token |
| Tokens.Initial | src/app/core/services/token.service.ts:13-25 | storage is untouched; the access subject is seeded only with a truthy valid stored token, and the refresh subject with a truthy one |
| Tokens.WithToken | src/app/core/services/token.service.ts:171-179 | an invalid token changes nothing; a valid one is stored and published |
| Tokens.WithRefreshToken | src/app/core/services/token.service.ts:191-194 | the refresh token is stored, published on the refresh subject and becomes the current one; the access token is untouched |
| Tokens.Cleared | src/app/core/services/token.service.ts:154-159 | both subjects become null, no current tokens remain, and the other storage entries are kept |
| Tokens.ClearedIdempotent | src/app/core/services/token.service.ts:154-159 | clearing twice is clearing once |
| Tokens.SetThenGet | src/app/core/services/token.service.ts:164-179 | after storing a valid token, `getToken` returns it |
| Tokens.WritesKeepStoredTokenValid | src/app/core/services/token.service.ts:154-194 | writes never leave an invalid token under `token` when none was there |
| Tokens.TokenService.constructor | src/app/core/services/token.service.ts:13-25 | the service starts in `Initial` |
| Tokens.TokenService.GetToken | src/app/core/services/token.service.ts:164-166 | a truthy subject value wins; otherwise the storage entry |
| Tokens.TokenService.GetRefreshToken | src/app/core/services/token.service.ts:184-186 | the same fallback for the refresh token |
| Tokens.TokenService.SetToken | src/app/core/services/token.service.ts:171-179 | the new state is `WithToken` of the old |
| Tokens.TokenService.SetRefreshToken | src/app/core/services/token.service.ts:191-194 | the new state is `WithRefreshToken` of the old |
| Tokens.TokenService.ClearTokens | src/app/core/services/token.service.ts:154-159 | the new state is `Cleared` of the old |
| Tokens.TokenService.IsTokenValid | src/app/core/services/token.service.ts:98-103 | valid exactly when the current token is truthy, well formed and not expired |
| Tokens.TokenService.IsTokenExpiringSoon | src/app/core/services/token.service.ts:108-127 | `ExpiringSoon` of the current token |
| Tokens.TokenService.GetTokenTimeRemaining | src/app/core/services/token.service.ts:132-149 | `TimeRemaining` of the current token |
| Tokens.TokenService.LogoutOnExpiration | src/app/core/services/token.service.ts:213-229 | without a usable token the tokens are cleared; otherwise nothing changes, and a timer for `exp - now` seconds is armed exactly when time remains |
| Guard.GuardExpired | src/app/core/guards/auth.guard.ts:23-31 | expired when there is no second segment, it is not base64, or the payload is not JSON or is null; an object is expired exactly when its `exp` is before now |
| Guard.CanActivate | src/app/core/guards/auth.guard.ts:8-21 | allows exactly a present, non-empty, unexpired token; otherwise redirects to `/auth` |
| Guard.NoExpIsAllowed | src/app/core/guards/auth.guard.ts:23-31 | a payload object without `exp` is allowed through |
| Guard.NoDotIsRedirected | src/app/core/guards/auth.guard.ts:23-31 | a token without a dot is redirected |
| Refresh.HandledError | src/app/core/services/refresh-token.service.ts:122-126 | clears both tokens and navigates to `/auth`, leaving the rest |
| Refresh.Refreshed | src/app/core/services/refresh-token.service.ts:26-55 | no refresh token fails and logs out; an insecure environment fails as suspicious activity and logs out; a renewal starts exactly with a refresh token, a secure environment and none in flight, sending one POST; with one in flight the caller joins and gets the last published value |
| Refresh.InsecureGuardUnreachable | src/app/core/services/refresh-token.service.ts:40-44 | the separate insecure-environment failure never happens, because the suspicious-activity check fires first |
| Refresh.FailureLogsOut | src/app/core/services/refresh-token.service.ts:29-44 | every failure clears both tokens, navigates once to `/auth` and sends no POST |
| Refresh.PostOnlyWhenStarted | src/app/core/services/refresh-token.service.ts:46-55 | a POST is added exactly when a renewal starts |
| Refresh.SingleFlight | src/app/core/services/refresh-token.service.ts:46-51 | a second call before the response sends no second POST |
| Refresh.Completed | src/app/core/services/refresh-token.service.ts:56-73 | the flag always drops; an HTTP error logs out; a body without a truthy token stores nothing |
| Refresh.RenewedTokenReadsBack | src/app/core/services/refresh-token.service.ts:56-66 | a renewed token reads back from storage and the body is published; a truthy new refresh token reads back too, otherwise the stored refresh token is unchanged |
| Refresh.InFlightInvariant | src/app/core/services/refresh-token.service.ts:46-73 | while a renewal is in flight the published value is null, so joiners receive null |
| Refresh.Scheduled | src/app/core/services/refresh-token.service.ts:87-117 | a renewal is armed exactly with a token, a secure environment and more than 300 s left, after the time left minus 300 s |
| Refresh.ArmedBeforeExpiry | src/app/core/services/refresh-token.service.ts:99-116 | an armed renewal fires while the token is still unexpired |
| Refresh.TimerFired | src/app/core/services/refresh-token.service.ts:103-115 | a failed call logs out; a failed POST completes, then logs out a second time; after a join or a response the next schedule is the one `Scheduled` computes from the resulting storage |
| Refresh.RefreshTokenService.constructor | src/app/core/services/refresh-token.service.ts:14-21 | not refreshing, nothing published, nothing sent |
| Refresh.RefreshTokenService.HandleRefreshError | src/app/core/services/refresh-token.service.ts:122-126 | the new state is `HandledError` of the old |
| Refresh.RefreshTokenService.RefreshToken | src/app/core/services/refresh-token.service.ts:26-55 | the call and new state are those of `Refreshed` |
| Refresh.RefreshTokenService.CompleteRefresh | src/app/core/services/refresh-token.service.ts:56-73 | the new state is `Completed` of the old |
| Refresh.RefreshTokenService.ShouldRefreshToken | src/app/core/services/refresh-token.service.ts:80-82 | `ExpiringSoon` of the stored token |
| Refresh.RefreshTokenService.ScheduleTokenRefresh | src/app/core/services/refresh-token.service.ts:87-117 | the schedule and new state are those of `Scheduled` |
| Refresh.RefreshTokenService.RenewalTimerFired | src/app/core/services/refresh-token.service.ts:103-115 | the outcome is that of `TimerFired` |
| Refresh.RefreshTokenService.IsRefreshingToken | src/app/core/services/refresh-token.service.ts:131-133 | reports the in-flight flag |
| Interceptor.WithBearer | src/app/core/interceptors/http.service.ts:56-58 | sets `Authorization` to `Bearer ` plus the token and keeps the URL and all other headers |
| Interceptor.Intercepted | src/app/core/interceptors/http.service.ts:17-58 | an unguarded request goes out unchanged; a guarded one keeps its URL, gains `Authorization`, and leaves the store untouched |
| Interceptor.BearerIffLiveToken | src/app/core/interceptors/http.service.ts:21-58 | the bearer header is attached exactly in a secure environment with a readable, unexpired token, and it carries that token |
| Interceptor.RefusalClears | src/app/core/interceptors/http.service.ts:21-53 | an insecure environment or an expired token leaves no token stored |
| Interceptor.NoTokenPassesThrough | src/app/core/interceptors/http.service.ts:35-39 | without a stored token the request passes unchanged and nothing is cleared |
| Interceptor.AfterHttpError | src/app/core/interceptors/http.service.ts:60-68 | 401 and 403 clear the tokens; any other status changes nothing |
| Interceptor.AuthInterceptor.Intercept | src/app/core/interceptors/http.service.ts:17-70 | the forwarded request and the new store are those of `Intercepted` |
| Interceptor.AuthInterceptor.HandleResponseError | src/app/core/interceptors/http.service.ts:60-68 | the new store is `AfterHttpError` of the old |
| Discounts.OrElse | src/app/core/services/discount.service.ts:172 | a falsy number (missing or 0) is replaced by the fallback; a truthy one is kept |
| Discounts.WindowIsInterval | src/app/core/services/discount.service.ts:297-309 | the active window is convex: active at two times means active in between |
| Discounts.WindowBounds | src/app/core/services/discount.service.ts:297-309 | with both dates the window is `start <= now <= end`; with none it is always open |
| Discounts.ActiveOnly | src/app/core/services/discount.service.ts:87-89 | keeps, in order, exactly the records flagged active, each as often as it occurs |
| Discounts.InWindow | src/app/core/services/discount.service.ts:297-310 | open exactly from the start date to the end date, both included; a window ending before it starts is never open |
| Discounts.ActiveNow | src/app/core/services/discount.service.ts:288-294 | keeps, in order, exactly the active records whose window contains now, each as often as it occurs |
| Discounts.ByCategory | src/app/core/services/discount.service.ts:277-285 | keeps, in order, exactly the active category discounts of that category in their window, each as often as it occurs |
| Discounts.ActiveNowWithinActive | src/app/core/services/discount.service.ts:87-89 | no more discounts are active now than are flagged active |
| Discounts.FindById | src/app/core/services/discount.service.ts:92-95 | None exactly when no record has the id; otherwise the first listed record with that id |
| Discounts.Created | src/app/core/services/discount.service.ts:98-106 | appends one record with the fresh id, zero uses and every other field from the draft, keeping the others |
| Discounts.Merged | src/app/core/services/discount.service.ts:112 | each of the thirteen fields takes the patch value when the patch has that key, and keeps the old value otherwise |
| Discounts.MergeLaws | src/app/core/services/discount.service.ts:112 | the empty patch changes nothing, and applying a patch twice equals applying it once |
| Discounts.Updated | src/app/core/services/discount.service.ts:109-116 | None exactly when the id is absent, with nothing changed; otherwise the first match is merged in place |
| Discounts.Deleted | src/app/core/services/discount.service.ts:119-126 | true exactly when the id is present, and then only the first match is removed |
| Discounts.DeleteUndoesCreate | src/app/core/services/discount.service.ts:98-126 | deleting a just-created discount by its fresh id restores the list |
| Discounts.CouponApplied | src/app/core/services/discount.service.ts:262-274 | applied exactly when the first coupon with the upper-cased code has uses left; then only its count rises |
| Discounts.SumUsed | src/app/core/services/discount.service.ts:343 | 0 for no records; with no negative counts the total is never negative and at least each record's count; `SumUsedUpdate` and `RedemptionCountsOnce` give its change under redemption |
| Discounts.SumUsedUpdate | src/app/core/services/discount.service.ts:343 | replacing one record changes the total usage by the difference of its counts |
| Discounts.RedemptionCountsOnce | src/app/core/services/discount.service.ts:262-274 | a redemption raises total usage by exactly one, and a refusal by nothing |
| Discounts.RedemptionKeepsLimits | src/app/core/services/discount.service.ts:268 | redemption never pushes a count past its usage limit |
| Discounts.ValidateCoupon | src/app/core/services/discount.service.ts:225-259 | unknown exactly when no coupon has the code; valid exactly when active, with uses left, in window and over the minimum; a valid result is that coupon |
| Discounts.RejectionOrder | src/app/core/services/discount.service.ts:231-256 | each reason is given exactly when its own check fails and every earlier check passed, in the order unknown, inactive, exhausted, not yet valid, expired, below minimum; the minimum reported is the coupon's |
| Discounts.ValidCouponApplies | src/app/core/services/discount.service.ts:225-274 | a coupon that validates can be redeemed |
| Discounts.PercentageDiscount | src/app/core/services/discount.service.ts:317-320 | the percentage of the price, capped by a truthy maximum |
| Discounts.FixedDiscount | src/app/core/services/discount.service.ts:323-325 | the smaller of the fixed amount and the price |
| Discounts.NoDiscount | src/app/core/services/discount.service.ts:134-143 | the starting offer: the price itself, nothing off, inactive |
| Discounts.DirectCandidate | src/app/core/services/discount.service.ts:146-160 | exists exactly for a truthy offer price below the price, which it charges |
| Discounts.Offer | src/app/core/services/discount.service.ts:171-186 | a capped percentage off the price, active |
| Discounts.CategoryCandidate | src/app/core/services/discount.service.ts:163-188 | exists exactly when an active category discount for the product's category is in window; it is that discount's offer |
| Discounts.CouponCandidate | src/app/core/services/discount.service.ts:191-219 | none without a coupon code; with one, an offer exactly when a usable coupon exists and the price meets its minimum, and it is the offer of the first usable coupon |
| Discounts.Cheapest | src/app/core/services/discount.service.ts:176-206 | the replacement walk never raises the price and ends on the start or a candidate; `CheapestIsMinimal` and `CheapestIsFirst` give minimality and the tie rule |
| Discounts.CheapestIsMinimal | src/app/core/services/discount.service.ts:176-206 | the kept offer is no dearer than the start and any candidate, and is one of them |
| Discounts.CheapestConcat | src/app/core/services/discount.service.ts:176-206 | choosing over two lists in sequence equals choosing over their concatenation |
| Discounts.CheapestIsFirst | src/app/core/services/discount.service.ts:176-206 | ties go to the earlier offer: every offer before the winner is strictly dearer |
| Discounts.BestDiscount | src/app/core/services/discount.service.ts:129-222 | never above the price, no dearer than any candidate, and the first of no discount, direct, category and coupon at the lowest price |
| Discounts.OfferRespectsCap | src/app/core/services/discount.service.ts:172 | a truthy cap bounds the amount off |
| Discounts.ValidCouponIsCandidate | src/app/core/services/discount.service.ts:191-259 | a coupon that validates against the product price is the coupon candidate for that product |
| Discounts.StatsOf | src/app/core/services/discount.service.ts:333-348 | the total is the list length; the active, category and coupon figures are the numbers of such records and never exceed it; usage is the sum of counts |
| Discounts.SeedFacts | src/app/core/services/discount.service.ts:36-82 | the seed respects its limits, has no uses, and WELCOME10 validates exactly for totals of at least 25 |
| Discounts.DiscountService.constructor | src/app/core/services/discount.service.ts:36-84 | the list starts as the seed |
| Discounts.DiscountService.GetDiscounts | src/app/core/services/discount.service.ts:87-89 | `ActiveOnly` of the list |
| Discounts.DiscountService.GetDiscountById | src/app/core/services/discount.service.ts:92-95 | `FindById` on the list |
| Discounts.DiscountService.CreateDiscount | src/app/core/services/discount.service.ts:98-106 | the list becomes `Created`, and the last record is returned |
| Discounts.DiscountService.UpdateDiscount | src/app/core/services/discount.service.ts:109-116 | the list and result are those of `Updated` |
| Discounts.DiscountService.DeleteDiscount | src/app/core/services/discount.service.ts:119-126 | the list and result are those of `Deleted` |
| Discounts.DiscountService.CalculateProductDiscount | src/app/core/services/discount.service.ts:129-222 | the step-by-step comparison returns `BestDiscount` |
| Discounts.DiscountService.ValidateCouponAt | src/app/core/services/discount.service.ts:225-259 | `ValidateCoupon` on the list |
| Discounts.DiscountService.ApplyCoupon | src/app/core/services/discount.service.ts:262-274 | the list and result are those of `CouponApplied` |
| Discounts.DiscountService.GetDiscountsByCategory | src/app/core/services/discount.service.ts:277-285 | `ByCategory` of the list |
| Discounts.DiscountService.GetActiveDiscounts | src/app/core/services/discount.service.ts:288-294 | `ActiveNow` of the list |
| Discounts.DiscountService.GetDiscountStats | src/app/core/services/discount.service.ts:333-348 | `StatsOf` the list |
| DiscountsView.ComponentAgreesWithService | src/app/dashboard/pages/discounts/discounts.component.ts:272-284 | the page's notion of active is exactly membership in the service's active-now list |
| DiscountsView.StatusOf | src/app/dashboard/pages/discounts/discounts.component.ts:286-296 | active exactly when the page's check passes; inactive exactly when the flag is off |
| DiscountsView.StatusTextMatchesClass | src/app/dashboard/pages/discounts/discounts.component.ts:286-296 | badge text and class always agree; a discount that has not started reads "Expirado" |
| DiscountsView.IsDiscountActive | src/app/dashboard/pages/discounts/discounts.component.ts:272-284 | active exactly when flagged active and the window contains now |
| DiscountsView.StatusText | src/app/dashboard/pages/discounts/discounts.component.ts:292-296 | "Inactivo" exactly when not flagged; "Expirado" exactly when flagged but outside the window; "Activo" otherwise |
| DiscountsView.StatusClass | src/app/dashboard/pages/discounts/discounts.component.ts:286-290 | the grey badge exactly when not flagged; the warning badge exactly when flagged but outside the window; the green one otherwise |
| DiscountsView.Round | src/app/dashboard/pages/discounts/discounts.component.ts:305 | `Math.round`: the nearest integer, halves rounding up |
| DiscountsView.UsagePercentage | src/app/dashboard/pages/discounts/discounts.component.ts:303-306 | 0 without a truthy limit; otherwise the exact share of uses rounded half up (see `DiscountsView.UsagePercentage` under Left out) |
| DiscountsView.UsageWithinLimitAtMost100 | src/app/dashboard/pages/discounts/discounts.component.ts:303-306 | uses within the limit give a percentage between 0 and 100 |
| DiscountsView.UsageClassMonotone | src/app/dashboard/pages/discounts/discounts.component.ts:308-313 | a higher percentage never gets a milder class |
| DiscountsView.UsageClass | src/app/dashboard/pages/discounts/discounts.component.ts:308-313 | danger exactly from 90, warning exactly from 75 below 90, success below 75 |
| DiscountsView.ErrorMessage | src/app/dashboard/pages/discounts/discounts.component.ts:255-265 | empty for a missing, valid or untouched control; otherwise the message of the first error in the source's order, and empty when none of the five known errors is set |
| DiscountsView.ErrorShownWhenTouched | src/app/dashboard/pages/discounts/discounts.component.ts:255-265 | a touched control with errors shows a non-empty message exactly when one of the five known errors is set |
| DiscountsView.DiscountTypeLabel | src/app/dashboard/pages/discounts/discounts.component.ts:267-270 | a known type gets the label of its first entry; an unknown one is shown as itself |
| DiscountsView.TypeLabels | src/app/dashboard/pages/discounts/discounts.component.ts:32-37 | each of the four types gets the label listed beside it |
| DiscountsView.LabelsDistinct | src/app/dashboard/pages/discounts/discounts.component.ts:32-37 | the four labels are distinct |
| DiscountsView.RulesAfterTypeChange | src/app/dashboard/pages/discounts/discounts.component.ts:76-101 | category is required only for category discounts and the code pattern only for coupons; the value is 0..100 for percentage, category and coupon, and at least 0 for fixed; an unknown type keeps the previous value rule |
| DiscountsView.ValueRangePerType | src/app/dashboard/pages/discounts/discounts.component.ts:86-96 | which values each type accepts, and that a missing value fails a required rule |
| DiscountsView.StaleBoundAfterClearingType | src/app/dashboard/pages/discounts/discounts.component.ts:81-96 | clearing the type keeps the percentage bound, so 150 is still refused |
| DiscountsView.CouponCodeAccepted | src/app/dashboard/pages/discounts/discounts.component.ts:78-99 | without the coupon validators every code passes; with them only a non-empty code passes, and `AcceptedCodeIsUpperCase` pins the accepted codes to the pattern |
| DiscountsView.AcceptedCodeIsUpperCase | src/app/dashboard/pages/discounts/discounts.component.ts:90 | with the coupon pattern on, accepted codes are exactly upper-case letters and digits, which upper-casing leaves alone |
| DiscountsView.InvalidDateRange | src/app/dashboard/pages/discounts/discounts.component.ts:104-110 | flagged exactly when both dates are set and the end is not after the start; `AcceptedRangeIsNonEmpty` gives the accepted window |
| DiscountsView.AcceptedRangeIsNonEmpty | src/app/dashboard/pages/discounts/discounts.component.ts:104-110 | a date range that passes starts strictly before it ends, and both ends are inside the window |
| DiscountsView.ToggleFlipsOnly | src/app/dashboard/pages/discounts/discounts.component.ts:228-229 | toggling flips the flag of that discount and changes nothing else |
| ImageUpload.ExistingEntry | src/app/shared/image-upload/image-upload.component.ts:38-47 | an existing URL becomes an uploaded entry with that preview and no file |
| ImageUpload.FileProblem | src/app/shared/image-upload/image-upload.component.ts:114-128 | accepted exactly for an allowed type within the size limit; the type is checked first |
| ImageUpload.Run | src/app/shared/image-upload/image-upload.component.ts:88-112 | images and alerts only grow, earlier alerts stay a prefix, and each file adds at most one image or one alert; `RunBounded` gives the limit and the origin of every image |
| ImageUpload.RunBounded | src/app/shared/image-upload/image-upload.component.ts:88-112 | processing keeps the existing images as a prefix, never exceeds the limit, adds nothing when full, and appends only processed accepted files |
| ImageUpload.RoomAndValidMeansAdded | src/app/shared/image-upload/image-upload.component.ts:91-104 | with room, an accepted file that processes is appended |
| ImageUpload.RemoveInRange | src/app/shared/image-upload/image-upload.component.ts:201-206 | removing an index in range drops exactly that image |
| ImageUpload.Reordered | src/app/shared/image-upload/image-upload.component.ts:208-215 | the list keeps its length, and equal indices leave it unchanged; `ReorderIsPermutation` gives the permutation and landing index |
| ImageUpload.ReorderIsPermutation | src/app/shared/image-upload/image-upload.component.ts:208-217 | reordering is a permutation, the moved image lands at an in-range target, and moving an image onto its own index changes nothing |
| ImageUpload.MovedToFront | src/app/shared/image-upload/image-upload.component.ts:219-226 | the list keeps its length and starts with the chosen image, and index 0 leaves it unchanged; `MoveToFrontIsPermutation` gives the rest |
| ImageUpload.MoveToFrontIsPermutation | src/app/shared/image-upload/image-upload.component.ts:219-228 | promotion is a permutation that puts the image first and keeps the others in order |
| ImageUpload.ImageUploadComponent.constructor | src/app/shared/image-upload/image-upload.component.ts:19-33 | the inputs are set, there are no images, and it is not loading |
| ImageUpload.ImageUploadComponent.NgOnInit | src/app/shared/image-upload/image-upload.component.ts:35-50 | appends one entry per existing URL, named "Imagen n" |
| ImageUpload.ImageUploadComponent.ValidateFile | src/app/shared/image-upload/image-upload.component.ts:114-128 | `FileProblem` with the component's inputs |
| ImageUpload.ImageUploadComponent.ProcessFiles | src/app/shared/image-upload/image-upload.component.ts:88-112 | the loop leaves the images and alerts of `Run`, and loading ends off |
| ImageUpload.ImageUploadComponent.RemoveImage | src/app/shared/image-upload/image-upload.component.ts:201-206 | the images become `splice(index, 1)` of the old list |
| ImageUpload.ImageUploadComponent.ReorderImages | src/app/shared/image-upload/image-upload.component.ts:208-217 | the images become `Reordered` of the old list |
| ImageUpload.ImageUploadComponent.SetMainImage | src/app/shared/image-upload/image-upload.component.ts:219-228 | the images become `MovedToFront` of the old list |
| ImageUpload.ImageUploadComponent.ClearImages | src/app/shared/image-upload/image-upload.component.ts:254-257 | there are no images left |
| ImageUpload.ImageUploadComponent.GetMainImage | src/app/shared/image-upload/image-upload.component.ts:250-252 | the first image, or null exactly for an empty list |
| ImageUpload.ImageUploadComponent.CanAddMoreAdmitsNext | src/app/shared/image-upload/image-upload.component.ts:263-265 | while more can be added, the next accepted file is appended |
| ImageUpload.ImageUploadComponent.HasImages | src/app/shared/image-upload/image-upload.component.ts:259-261 | true exactly when there is a main image |
| ImageUpload.ImageUploadComponent.CanAddMore | src/app/shared/image-upload/image-upload.component.ts:263-265 | true exactly when there is room under `maxFiles` |
| ImageUpload.ImageUploadComponent.FullAddsNothing | src/app/shared/image-upload/image-upload.component.ts:92-95 | when full, a batch adds nothing and raises exactly one limit alert |
| Users.Filtered | src/app/dashboard/pages/users/users.component.ts:42-47 | an ordered sublist of the users holding exactly the users whose lower-cased name or email contains the trimmed, lower-cased query, each as often as it was loaded |
| Users.BlankSearchKeepsAll | src/app/dashboard/pages/users/users.component.ts:43-45 | a blank or all-whitespace search shows every user |
| Users.FilterAgainIsStable | src/app/dashboard/pages/users/users.component.ts:42-47 | filtering the shown list again with the same search changes nothing |
| Users.UsersComponent.constructor | src/app/dashboard/pages/users/users.component.ts:11-21 | empty lists, empty search, not loading |
| Users.UsersComponent.ApplyFilters | src/app/dashboard/pages/users/users.component.ts:42-47 | the shown list becomes `Filtered` of the users and the search |
| Users.UsersComponent.Load | src/app/dashboard/pages/users/users.component.ts:27-28 | loading turns on |
| Users.UsersComponent.LoadSucceeded | src/app/dashboard/pages/users/users.component.ts:30-34 | the users become the data or an empty list, the shown list is refiltered, and loading ends |
| Users.UsersComponent.LoadFailed | src/app/dashboard/pages/users/users.component.ts:35-38 | loading ends and the lists are kept |
| Users.UsersComponent.Create | src/app/dashboard/pages/users/users.component.ts:49-51 | navigates to the create page |
| Users.UsersComponent.Edit | src/app/dashboard/pages/users/users.component.ts:53-56 | does nothing for a missing or empty id; otherwise navigates to that user's edit page |
| Users.UsersComponent.Remove | src/app/dashboard/pages/users/users.component.ts:58-69 | does nothing for a missing or empty id or a declined confirmation; otherwise sends one delete for that id |

## Left out

- `getTokenInfo` and the observable accessors in both token services are not modelled. They only return `jwtDecode` output or a subject.
- Timers do not run. The model returns the plan and its delay, and `RenewalTimerFired` models one firing. The logout-timer callback clears the tokens, which is modelled, and then navigates to `/auth`, which is not: the security service's router is not part of its modelled state.
- Console logging, `alert`, modal messages and `confirm` dialogs are left out. Confirmation is a parameter of `Users.UsersComponent.Remove`.
- `Users.UsersComponent.Remove` does not model the reload after a successful delete. That reload is `Load` again.
- The router is recorded as a list of navigations. The HTTP client is recorded as the POSTs and deletes issued.
- Refresh-request responses arrive through `CompleteRefresh`, because the POST is cold until the caller subscribes.
- The BehaviorSubject's later emissions to a joining caller are not modelled. The model covers only the value it replays at once.
- `DiscountsView.UsagePercentage` computes the share with exact fractions, not doubles. At a .5 tie the shown percentage can be one above the browser's: 57 uses of 200 give 29 here, where `Math.round(28.499999999999996)` gives 28. The difference can move `UsageClass` across its 75 and 90 thresholds.
- The rounding of `discountPercentage` to two decimals is left out, because it needs floating point. So are `formatDiscountedPrice` (`toFixed`), `formatFileSize` and locale date formatting.
- `Discounts.DiscountService.CreateDiscount`: `generateId` uses the clock and `Math.random`, so the fresh id is a parameter.
- Discounts are values. `applyCoupon` changing an object that an earlier query returned is not captured.
- `Strings.ToUpper` and `Strings.ToLower` map only ASCII letters. JavaScript's full Unicode case mapping is not modelled.
- `exp` is modelled as an integer or absent. Non-numeric and fractional `exp` values are not modelled.
- `ImageUpload.ImageUploadComponent.ReorderImages` requires `fromIndex` in range. Out of range, the source inserts `undefined` into the list.
- `ImageUpload.ImageUploadComponent.SetMainImage` requires `index` in range, for the same reason.
- `processImage` (the FileReader and canvas work) is a parameter returning `None` on failure. Interleaving across `await` is not modelled.
- The image-upload inputs are constants of the component. Angular rebinding them later is not modelled.
- The event emitters (`imagesChange`, `imageRemove`, `imageReorder`) and the drag-and-drop UI flags are left out.
- The discounts page's form and dialog methods are left out: `loadDiscounts`, `loadStats`, `showCreateForm`, `showEditForm`, `onSubmit`, `closeForm`, the `deleteDiscount` confirmation and `markFormGroupTouched`. They only call the modelled service operations or set UI state.
- `Interceptor.WithBearer` treats header names as exact strings. Angular's case-insensitive header names are not modelled.
- The `ReplacePipe` and the other context files are not part of this model.
