# midgard middlewares, modelled in Dafny

midgard is a kit of HTTP middlewares for Go's net/http. Each one is
configured with functional options and then wrapped around the next
handler. This project models the decision each middleware takes for a
request. In all of them the decision is one of two things: forward the
request to the next handler together with the response headers written so
far, or answer it with a status, headers and a body. The project also
models how the options build each middleware's configuration.

The middlewares covered:

- the process-local token-bucket limiter;
- HTTP Basic authentication and its credential parser (RFC 7617 section 2
  over the padded standard base64 of RFC 4648 section 4);
- three map-based authenticators;
- three CORS handlers;
- two method filters;
- two rate-limit middlewares;
- correlation-ID propagation;
- response-header injection.

Also covered are middleware stacking, the `MWBase` record shared by the
middlewares, and the helpers in `util`.

Layout:

- There is one module per Go file; the module is named after the file or the package.
- Four shared modules: `Wrappers` (Option, Result), `Http` (header maps, requests, responses, outcomes), `Options` (the option loop of every `New`) and `Base64`.
- Pairs of packages with similar names become distinct modules: `rate_limit` → `RateLimit`, `ratelimit` → `Ratelimit`, `basic_auth/map_auth` → `MapAuth`, `basicauth/mapauth` → `Mapauth`.

Modelling choices:

- **Handlers and nil.** A handler struct whose fields the options change is a `class`. Go's nil receiver is a `null` reference, passed to a static method.
- **ServeHTTP.** It takes the response headers as a value and returns an `Outcome`. For the handlers with pointer receivers it is a method; it changes nothing, except in the two rate-limit handlers, whose call to the limiter's `Limit` changes the limiter. Of the value-receiver handlers, `EvalCss` and `MethodsFilter` model it as a function. `CorsEvalCss.EvalCSSHandler.ServeHTTP` is a method on the class that changes nothing, which is what a value receiver promises.
- **Options.** They are datatype values. `ApplyOpt` gives the meaning of each option. `Options.Configure` folds them, stopping at the first error. Each `New` is a loop over the options, proved equal to that fold.
- **Limiter time.** The limiter's generator goroutine and clock become a `Step(elapsed)` method. The unbuffered channel becomes a count of pending tokens.

## Model

| member | source | states |
|---|---|---|
| Midgard.StackMiddleware | midgard.go:15-26 | an empty list stacks to nothing; a single middleware stacks to itself |
| Midgard.StackIsNest | midgard.go:12-24 | the stacked middleware applied to next is mw[0](mw[1](…mw[n-1](next))); index 0 is outermost |
| Midgard.NestAppend | midgard.go:22-24 | nesting a ++ b around next is nesting a around the nesting of b |
| Midgard.StackAppend | midgard.go:22-24 | for non-empty a and b, Stack(a ++ b)(h) = Stack(a)(Stack(b)(h)) |
| Midgard.StackMiddlewareHandler | midgard.go:29-35 | an empty list returns final unchanged; otherwise the stack applied to final |
| Defs.MWBase.Log | defs/mwbase.go:26-32 | the default logger for a nil record or an unset logger, else the stored one |
| Defs.MWBase.SetLog | defs/mwbase.go:35-46 | errors for a nil record or a nil logger, changing nothing; otherwise Log returns the new logger; the other fields are kept |
| Defs.MWBase.LogLevel | defs/mwbase.go:49-55 | Info for a nil record, else the stored level |
| Defs.MWBase.SetLogLevel | defs/mwbase.go:58-65 | errors for a nil record; otherwise stores the level and keeps the other fields |
| Defs.MWBase.Next | defs/mwbase.go:68-74 | nil for a nil record, else the stored handler |
| Defs.MWBase.SetNext | defs/mwbase.go:77-88 | errors for a nil record or a nil handler, changing nothing; otherwise stores it and keeps the other fields |
| Defs.WithLogger | defs/mwbase.go:92-100 | "cannot configure nil handler" for a nil handler, else SetLog's result |
| Defs.WithLogLevel | defs/mwbase.go:104-112 | "cannot configure nil handler" for a nil handler, else SetLogLevel's result |
| Util.MapKeys | util/util.go:37-53 | nil for nil, an empty non-nil list for an empty map, otherwise every key exactly once |
| Util.GetOrCreateID | util/util.go:56-68 | a non-empty ID is kept; an empty one becomes a non-empty fresh ID, or "n/a" exactly when none could be made |
| Util.WriteState | util/util.go:73-85 | the status with its status text; Content-Length removed; text/plain and nosniff set; other headers kept |
| Util.IntroCheck | util/util.go:93-107 | 500 for a nil handler (checked first), 400 for a nil request, otherwise no answer |
| Options.FirstFailure | handler/add_header/add_header.go:69-77 | New fails with the error of the first failing option, after the options before it succeeded |
| Options.ConfigureAppend | handler/add_header/add_header.go:69-77 | options given in two parts act as one list applied in order |
| Base64.DecodeEncode | handler/basic_auth/basic_auth.go:66 | decoding the padded standard encoding of any bytes gives those bytes back |
| Base64.EncodeLength | handler/basic_auth/basic_auth.go:62-66 | n bytes encode to 4 characters per started group of 3, the length the 6-character minimum is measured on |
| BasicAuth.CutPrefix | handler/basic_auth/basic_auth.go:60 | the prefix is present exactly when s starts with it, and then the rest follows it |
| BasicAuth.SplitJoin | handler/basic_auth/basic_auth.go:72 | joining the parts with ':' gives the text back |
| BasicAuth.SplitNoSep | handler/basic_auth/basic_auth.go:72 | no part contains ':' |
| BasicAuth.SplitCount | handler/basic_auth/basic_auth.go:72 | there is one part more than the number of ':' |
| BasicAuth.SplitPair | handler/basic_auth/basic_auth.go:72-78 | u ':' p splits into exactly [u, p] when neither holds ':' |
| BasicAuth.ExtractUserPass | handler/basic_auth/basic_auth.go:58-81 | found implies no error, non-empty parts without ':' whose join by ':' is the decoded text; an error exactly for a payload of 6 or more characters that is not valid base64 |
| BasicAuth.TwoPartsIff | handler/basic_auth/basic_auth.go:72-78 | the decoded text splits into exactly two non-empty parts exactly when it holds one ':' that is neither first nor last |
| BasicAuth.FoundIff | handler/basic_auth/basic_auth.go:58-81 | found exactly for the "Basic " prefix, at least 6 characters after it, valid base64 and exactly one ':' that is neither first nor last |
| BasicAuth.ExtractEncoded | handler/basic_auth/basic_auth.go:58-80 | round trip: "Basic " + base64(user:pass) gives (user, pass, found, no error) for non-empty parts without ':' of total length at least 3 |
| BasicAuth.ShortestRejected | handler/basic_auth/basic_auth.go:62 | one-character user and password are never found, their encoding being shorter than 6 |
| BasicAuth.ColonRejected | handler/basic_auth/basic_auth.go:72-78 | a user or password containing ':' is never found |
| BasicAuth.SendNoAuth | handler/basic_auth/basic_auth.go:46-53 | a 302 to the redirect when one is set, else 401 with WWW-Authenticate added |
| BasicAuth.AdmitsEncoded | handler/basic_auth/basic_auth.go:98-118 | a request carrying encoded credentials is admitted exactly when the Authenticator allows them |
| BasicAuth.ApplyOpt | handler/basic_auth/basic_auth.go:122-155 | only a nil option or a nil logger fails, each with its message; every other option sets exactly its own field |
| BasicAuth.Build | handler/basic_auth/basic_auth.go:158-179 | succeeds exactly when the options succeed and leave an authenticator, else option errors pass through and a missing authenticator gives "no authenticator configured"; the result is the configured state with the configured realm, or "Restricted" for an empty one, and the WWW-Authenticate value derived from it |
| BasicAuth.ConfiguredAuth | handler/basic_auth/basic_auth.go:122-128 | the configured authenticator is the one of the last WithAuthenticator |
| BasicAuth.NoAuthenticatorFails | handler/basic_auth/basic_auth.go:171-173 | without an authenticator New fails, with "no authenticator configured" when the options succeed |
| BasicAuth.DefaultRealmInfo | handler/basic_auth/basic_auth.go:175-179 | with only an authenticator, the realm is "Restricted" and the header is `Basic realm="Restricted", charset="UTF-8"` |
| BasicAuth.Handler.Apply | handler/basic_auth/basic_auth.go:122-155 | the handler's new state is ApplyOpt of the old one; an error is the one ApplyOpt gives |
| BasicAuth.Handler.New | handler/basic_auth/basic_auth.go:158-179 | succeeds exactly when Build does, with Build's configuration; otherwise Build's error |
| BasicAuth.Handler.Middleware | handler/basic_auth/basic_auth.go:181-187 | nil for a nil next handler, else the handler with next stored |
| BasicAuth.Handler.ServeHTTP | handler/basic_auth/basic_auth.go:84-119 | 500 or 400 from IntroCheck; forwarded exactly when admitted; otherwise the answer of sendNoAuth |
| MapAuthenticator.Authorize | handler/basic_auth/map_authenticator.go:9-17 | an empty map refuses with "no auths configured"; otherwise allowed exactly when the user holds that password, with no error; an unknown user is refused |
| MapAuthenticator.AuthorizeLocal | handler/basic_auth/map_authenticator.go:14-16 | the answer depends on that user's entry alone |
| MapAuth.ApplyOpt | handler/basic_auth/map_auth/map_auth.go:30-46 | an empty map fails; otherwise the pairs are merged in, later values winning |
| MapAuth.ConfigureOkIff | handler/basic_auth/map_auth/map_auth.go:30-46 | the options succeed exactly when none is empty |
| MapAuth.ConfiguredAuths | handler/basic_auth/map_auth/map_auth.go:36-42 | the configured map is the start map overridden by all pairs in order |
| MapAuth.Build | handler/basic_auth/map_auth/map_auth.go:49-63 | a built map is never empty |
| MapAuth.BuildIff | handler/basic_auth/map_auth/map_auth.go:49-63 | New succeeds exactly with at least one option and no empty one, giving the merged map |
| MapAuth.BuildErrors | handler/basic_auth/map_auth/map_auth.go:49-63 | no option gives "no auths configured"; an empty option gives its own error |
| MapAuth.Check | handler/basic_auth/map_auth/map_auth.go:20-26 | an empty map gives "no auths configured"; otherwise allowed exactly when the password matches, with no error |
| MapAuth.AdmitsStored | handler/basic_auth/map_auth/map_auth.go:14-27 | end to end with basic auth: encoded credentials are admitted exactly when stored |
| MapAuth.MapAuthenticator.Authenticate | handler/basic_auth/map_auth/map_auth.go:14-27 | nil gives "map auth not initialized"; then as Check; allowed never comes with an error |
| MapAuth.MapAuthenticator.Apply | handler/basic_auth/map_auth/map_auth.go:30-46 | the copy loop yields ApplyOpt's map; an error leaves the map unchanged |
| MapAuth.MapAuthenticator.New | handler/basic_auth/map_auth/map_auth.go:49-63 | succeeds exactly when Build does, with a non-empty map |
| Mapauth.ApplyOpt | handler/basicauth/mapauth/map_auth.go:39-55 | an empty map fails with ErrNoAuthorizations; otherwise the pairs are merged in, later values winning |
| Mapauth.ConfigureOkIff | handler/basicauth/mapauth/map_auth.go:39-55 | the options succeed exactly when none is empty; the error is ErrNoAuthorizations |
| Mapauth.ConfiguredAuths | handler/basicauth/mapauth/map_auth.go:45-51 | the configured map is the start map overridden by all pairs in order |
| Mapauth.Build | handler/basicauth/mapauth/map_auth.go:58-72 | a built map is never empty |
| Mapauth.BuildIff | handler/basicauth/mapauth/map_auth.go:58-72 | New succeeds exactly with at least one option and no empty one, giving the merged map; else ErrNoAuthorizations |
| Mapauth.MapAuthenticator.Authenticate | handler/basicauth/mapauth/map_auth.go:22-36 | nil gives ErrNotInitialized, an empty map ErrNoAuthorizations; otherwise allowed exactly when the password matches, with no error |
| Mapauth.MapAuthenticator.Apply | handler/basicauth/mapauth/map_auth.go:39-55 | the copy loop yields ApplyOpt's map; an error leaves the map unchanged |
| Mapauth.MapAuthenticator.New | handler/basicauth/mapauth/map_auth.go:58-72 | succeeds exactly when Build does, with a non-empty map |
| LocalLimit.Trunc | handler/rate_limit/local_limit/local_limit.go:63 | the int64 conversion truncates toward zero |
| LocalLimit.ReplenishStep | handler/rate_limit/local_limit/local_limit.go:61-74 | pushes at most the room; capped exactly when trunc(earned) exceeds the room, then overflow 0; otherwise pushes trunc(earned) and keeps the fraction in [0,1), pushed + overflow = earned |
| LocalLimit.Gain | handler/rate_limit/local_limit/local_limit.go:63 | the tokens earned in a step are never negative |
| LocalLimit.NoLostDrops | handler/rate_limit/local_limit/local_limit.go:69-70 | over uncapped steps, tokens issued plus the final overflow equal the tokens earned |
| LocalLimit.NeverExceedsEarned | handler/rate_limit/local_limit/local_limit.go:58-77 | tokens issued plus overflow never exceed those earned; overflow stays in [0,1) |
| LocalLimit.IntervalDrops | handler/rate_limit/local_limit/local_limit.go:130-136 | max(1, trunc(rate · seconds)) |
| LocalLimit.ApplyOpt | handler/rate_limit/local_limit/local_limit.go:106-164 | a rate or sleep interval ≤ 0 fails with its message; otherwise each option changes only its own setting: the drop timeout clamped at 0, the absolute maximum as given (negatives included), the interval maximum from the current rate, the sleep interval and the rate as given; valid settings stay valid |
| LocalLimit.ConfigureOk | handler/rate_limit/local_limit/local_limit.go:167-184 | options that succeed keep the settings valid |
| LocalLimit.LocalLimit.constructor | handler/rate_limit/local_limit/local_limit.go:167-175 | defaults 1 token/s, 150 ms drop timeout, 1000 tokens, 100 ms sleep; not started |
| LocalLimit.LocalLimit.Apply | handler/rate_limit/local_limit/local_limit.go:106-164 | the new settings are ApplyOpt of the old ones; nothing else changes |
| LocalLimit.LocalLimit.New | handler/rate_limit/local_limit/local_limit.go:167-184 | succeeds exactly when the options do, with those settings, not started; else the first error |
| LocalLimit.LocalLimit.Limit | handler/rate_limit/local_limit/local_limit.go:88-102 | true exactly when a token is pending, consuming one; starts the generator once; false after stop; tokens consumed never exceed those earned |
| LocalLimit.LocalLimit.Stop | handler/rate_limit/local_limit/local_limit.go:81-83 | sets the stop flag and nothing else |
| LocalLimit.LocalLimit.Step | handler/rate_limit/local_limit/local_limit.go:50-78 | a stopped generator ends; otherwise one replenish step over the elapsed time, at most MaxDrops pending, overflow in [0,1) |
| LocalLimit.StoppedBeforeStart | handler/rate_limit/local_limit/local_limit.go:81-91 | Stop before the first Limit: the generator makes no step and hands out nothing |
| RateLimit.ApplyOpt | handler/rate_limit/rate_limit.go:50-70 | a nil limiter fails with "invalid limiter (nil)", a nil logger and a nil option with their messages; otherwise each option sets exactly its own field, and only WithLimiter changes the limiter |
| RateLimit.Build | handler/rate_limit/rate_limit.go:73-96 | succeeds exactly when the options do and a limiter is set |
| RateLimit.ConfigureKeepsLimiter | handler/rate_limit/rate_limit.go:50-60 | options other than WithLimiter keep the limiter |
| RateLimit.NoLimiterFails | handler/rate_limit/rate_limit.go:73-96 | New without a limiter fails, with "invalid limiter (nil)" when the options succeed |
| RateLimit.NilOptionFails | handler/rate_limit/rate_limit.go:76-79 | a nil option fails with "options cannot be nil" |
| RateLimit.Handler.Apply | handler/rate_limit/rate_limit.go:50-70 | the new state is ApplyOpt of the old one |
| RateLimit.Handler.New | handler/rate_limit/rate_limit.go:73-96 | succeeds exactly when Build does, with its configuration |
| RateLimit.Handler.Middleware | handler/rate_limit/rate_limit.go:90-95 | nil for a nil next handler, else the handler with next stored |
| RateLimit.Handler.ServeHTTP | handler/rate_limit/rate_limit.go:36-47 | 500 or 400 from IntroCheck; otherwise Limit is called once and the request is forwarded exactly when it gave a token, else 429 |
| Ratelimit.ApplyOpt | handler/ratelimit/rate_limit.go:60-80 | a nil limiter fails with ErrInvalidLimiter, a nil logger and a nil option with their messages; otherwise each option sets exactly its own field, and only WithLimiter changes the limiter |
| Ratelimit.Build | handler/ratelimit/rate_limit.go:83-107 | succeeds exactly when the options do and a limiter is set |
| Ratelimit.ConfigureKeepsLimiter | handler/ratelimit/rate_limit.go:60-70 | options other than WithLimiter keep the limiter |
| Ratelimit.NoLimiterFails | handler/ratelimit/rate_limit.go:83-107 | New without a limiter fails, with ErrInvalidLimiter when the options succeed |
| Ratelimit.NilOptionFails | handler/ratelimit/rate_limit.go:86-89 | a nil option fails with "option cannot be nil" |
| Ratelimit.Handler.Apply | handler/ratelimit/rate_limit.go:60-80 | the new state is ApplyOpt of the old one |
| Ratelimit.Handler.New | handler/ratelimit/rate_limit.go:83-107 | succeeds exactly when Build does, with its configuration |
| Ratelimit.Handler.Middleware | handler/ratelimit/rate_limit.go:100-106 | nil for a nil next handler, else the handler with next stored |
| Ratelimit.Handler.ServeHTTP | handler/ratelimit/rate_limit.go:45-57 | 500 or 400 from IntroCheck; otherwise Limit is called once and the request is forwarded exactly when it gave a token, else 429 |
| AddHeader.SetAll | handler/add_header/add_header.go:36-40 | every configured header is set, overwriting; all other headers are kept |
| AddHeader.ApplyOpt | handler/add_header/add_header.go:44-63 | WithHeaders merges its pairs, later winning; only a nil option or a nil logger fails, each with its message; the logger and log level options store their value |
| AddHeader.ConfiguredHeaders | handler/add_header/add_header.go:54-63 | the configured headers are all pairs of all WithHeaders options, later winning |
| AddHeader.NilOptionFails | handler/add_header/add_header.go:69-72 | a nil option fails with "options cannot be nil" |
| AddHeader.Handler.Apply | handler/add_header/add_header.go:44-63 | the new state is ApplyOpt of the old one |
| AddHeader.Handler.New | handler/add_header/add_header.go:66-85 | succeeds exactly when the options do, with their configuration; else the first error |
| AddHeader.Handler.Middleware | handler/add_header/add_header.go:79-84 | nil for a nil next handler, else the handler with next stored |
| AddHeader.Handler.ServeHTTP | handler/add_header/add_header.go:31-41 | 500 or 400 from IntroCheck, adding nothing; otherwise forwarded with every configured header set |
| Correlation.ApplyOpt | handler/correlation/correlation.go:50-58 | only a nil option or a nil logger fails, each with its message; the logger and log level options store their value |
| Correlation.ConfigureOkIff | handler/correlation/correlation.go:61-80 | New succeeds exactly when no option and no logger is nil |
| Correlation.NilOptionFails | handler/correlation/correlation.go:64-67 | a nil option fails with "options cannot be nil" |
| Correlation.Handler.Apply | handler/correlation/correlation.go:50-58 | the new state is ApplyOpt of the old one |
| Correlation.Handler.New | handler/correlation/correlation.go:61-80 | succeeds exactly when the options do; else the first error |
| Correlation.Handler.Middleware | handler/correlation/correlation.go:74-79 | nil for a nil next handler, else the handler with next stored |
| Correlation.Handler.ServeHTTP | handler/correlation/correlation.go:29-48 | 500 or 400, else forwarded; without an ID the generated UUID, or "n/a" when generation fails, goes on request and response alike; a supplied ID is echoed and the request kept |
| Cors.MinimumAllowHeaders | handler/cors/cors.go:43-58 | a fresh copy of the eight minimal headers |
| Cors.Scan | handler/cors/cors.go:71-81 | found exactly when some request origin is acceptable, and then it is the first acceptable one |
| Cors.Relevant | handler/cors/cors.go:62-82 | "*" for the list ["*"]; otherwise the first non-empty configured request origin; the result is always configured; the two errors by case |
| Cors.RelevantOrigin | handler/cors/eval_css.go:43-63 | the search loop with early return computes Relevant; handler/cors/cors.go:62-82 holds the same loop, and both handlers use this one |
| Cors.HeadersAllowed | handler/cors/cors.go:119-126 | true exactly when every request header name, lower-cased, is allowed |
| Cors.ApplyOpt | handler/cors/cors.go:133-184 | WithHeaders keeps lower-cased names and the original names joined; WithMethods and WithOrigins replace; only nil options and loggers fail, each with its message; the logger and log level options store their value |
| Cors.Normalized | handler/cors/cors.go:203-207 | empty or wildcard-bearing origins become ["*"]; anything else is kept |
| Cors.ConfigureOkIff | handler/cors/cors.go:190-201 | New succeeds exactly when no option and no logger is nil |
| Cors.NilOptionFails | handler/cors/cors.go:193-196 | a nil option fails with "options cannot be nil" |
| Cors.LastHeadersWin | handler/cors/cors.go:133-146 | the last WithHeaders decides the header set and the returned list |
| Cors.NormalizedOrigins | handler/cors/cors.go:203-207 | after New, empty or wildcard origins admit every request as "*"; other lists admit exactly requests carrying a configured origin |
| Cors.Handler.Apply | handler/cors/cors.go:133-174 | the map-building loops give ApplyOpt's state |
| Cors.Handler.New | handler/cors/cors.go:190-215 | succeeds exactly when Build does, with the normalised configuration |
| Cors.Handler.Middleware | handler/cors/cors.go:209-214 | nil for a nil next handler, else the handler with next stored |
| Cors.Handler.ServeHTTP | handler/cors/cors.go:85-129 | 500/400; 403 without a relevant origin; else the origin is echoed, OPTIONS gets 200 with both lists, 405 outside a non-empty method set, 403 for a header outside a non-empty header set, otherwise forwarded |
| Cors.ForwardedOrigin | handler/cors/cors.go:92-100 | the echoed origin is configured and is "*" or one of the request's own |
| CorsEvalCss.FirstDisallowed | handler/cors/eval_css.go:97-105 | none exactly when every request header name is allowed as written; otherwise a request header that is not allowed |
| CorsEvalCss.ApplyOpt | handler/cors/eval_css.go:110-145 | each option replaces what it sets, names as given, and none fails |
| CorsEvalCss.ConfigureOk | handler/cors/eval_css.go:151-155 | the options never fail |
| CorsEvalCss.Completed | handler/cors/eval_css.go:157-167 | origins normalised to ["*"] when empty or wildcard-bearing; the default headers when none are configured |
| CorsEvalCss.EmptyHeadersGiveDefaults | handler/cors/eval_css.go:163-167 | an empty header list still yields the default headers |
| CorsEvalCss.EvalCSSHandler.ElementSet | handler/cors/eval_css.go:112-116 | the set built from a list holds exactly its entries |
| CorsEvalCss.EvalCSSHandler.Apply | handler/cors/eval_css.go:110-145 | the new state is ApplyOpt of the old one |
| CorsEvalCss.EvalCSSHandler.New | handler/cors/eval_css.go:148-173 | the options, then the origin and header defaults |
| CorsEvalCss.EvalCSSHandler.Middleware | handler/cors/eval_css.go:169-172 | next is stored in the captured handler, and the result is a fresh copy of it, so each call yields an independent handler with its own next |
| CorsEvalCss.EvalCSSHandler.ServeHTTP | handler/cors/eval_css.go:66-108 | 403 naming the origins without a relevant one; OPTIONS 200; 405 for any method outside the set, even an empty one; 403 naming a disallowed header; forwarded exactly when all checks pass |
| EvalCss.LastIndex | handler/eval_css.go:33 | the last position of the character, or -1 when absent |
| EvalCss.StripPort | handler/eval_css.go:31-35 | a host without ':' is kept; otherwise everything before the last ':' |
| EvalCss.StripPortJoin | handler/eval_css.go:33-35 | host ":" port loses exactly the port |
| EvalCss.ChosenOrigin | handler/eval_css.go:28-40 | the first origin, replaced by the port-stripped host only when the first is not "*", several are configured and the host is among them; always configured |
| EvalCss.ServeHTTP | handler/eval_css.go:24-62 | OPTIONS is answered 200 with the methods and the six fixed headers, never forwarded; every other request is forwarded; Allow-Origin is set only for OPTIONS or a present Origin |
| EvalCss.NewEvalCSSHandler | handler/eval_css.go:65-77 | methods joined; empty or wildcard origins become ["*"], so a first origin always exists |
| EvalCss.NewAllowsOrigin | handler/eval_css.go:66-68 | a wildcard handler allows "*"; with several origins the port-stripped host is allowed when configured |
| MethodFilter.ApplyOpt | handler/method_filter/methods_filter.go:46-58 | the set is created if missing and gains the listed methods |
| MethodFilter.ConfiguredMethods | handler/method_filter/methods_filter.go:44-58 | repeated WithMethods union their lists, and any option, even an empty one, creates the set |
| MethodFilter.Handler.Apply | handler/method_filter/methods_filter.go:46-58 | the insertion loop gives ApplyOpt's set |
| MethodFilter.Handler.New | handler/method_filter/methods_filter.go:61-74 | never fails, with the configured set and no next handler |
| MethodFilter.Handler.Middleware | handler/method_filter/methods_filter.go:70-73 | next is stored as given |
| MethodFilter.Handler.ServeHTTP | handler/method_filter/methods_filter.go:21-42 | 503 when unconfigured; forwarded exactly when the method is in the set; otherwise, a nil request included, 405 text/plain "method not allowed" |
| MethodsFilter.ServeHTTP | handler/methods_filter.go:20-27 | forwarded exactly when the method is allowed; else 405 "method not allowed" |
| MethodsFilter.MethodSet | handler/methods_filter.go:34-42 | the set holds exactly the listed methods |
| MethodsFilter.NewMethodsFilter | handler/methods_filter.go:31-46 | the filter allows exactly the listed methods and keeps next |
| MethodsFilter.SameEntriesSameDecision | handler/methods_filter.go:34-42 | order and repetition of the list do not matter |
| MethodsFilter.EmptyRejectsAll | handler/methods_filter.go:21-26 | an empty list rejects every method |

## Left out

- Concurrency and time in the limiter: the goroutine, channel, `atomic.Bool`, `sync.Once`, `time.Sleep` and the `DropTimeout` wait are sequentialised. Elapsed time is the parameter of `Step`. A `Limit` without a pending token returns false at once instead of after the timeout. A `Step` happens only when no token is pending, which is what the unbuffered channel enforces.
- LocalLimit.LocalLimit.Step: requires that no token is pending and that the generator was started, since the blocking send and the one-time start cannot be expressed otherwise.
- float64 arithmetic: rates, overflow and `Duration.Seconds()` are reals; IEEE rounding and int64 overflow of the conversions are not modelled.
- BasicAuth.SendNoAuth: the redirect address is taken to be absolute and already clean; `http.Redirect` resolving a relative address against the request path, and cleaning the path, is not modelled.
- net/http: header names are taken to be canonical already. The body and Content-Type that `http.Redirect` writes, the `http.StatusText` table and fmt's formatting beyond `%v` of a list of strings are not modelled.
- Logging: every `slog` call is left out, as are the access-log middlewares, which only emit log records.
- The htpasswd authenticators are left out: they are file I/O plus a foreign hashing library.
- `Must`, `exitFunc` and `DummyHandler` in util are left out.
- UUID generation is a parameter of the correlation handler: either a 36-character ID or none.
- helper/helper.go is not part of this model. The `ratelimit` package's `IntroCheck` and `WriteState` are taken to behave as util's.
- Strings are sequences of characters, one per byte. `strings.ToLower` is modelled on ASCII letters only.
- BasicAuth.ExtractUserPass: the error carries only the prefix "could not decode auth info"; the wrapped base64 error text is not modelled.
- Only the shown option constructors are modelled, not option functions written by callers. So the option error that `method_filter`'s `New` passes on cannot arise.
- A nil next handler, a nil option or a nil request where the source does not guard against it makes Go panic. The model keeps those as preconditions or leaves them out:
  - BasicAuth.Handler.ServeHTTP: requires an authenticator, which every handler built by New has.
  - EvalCss.ServeHTTP: requires a first origin, which NewEvalCSSHandler always gives.
  - CorsEvalCss.EvalCSSHandler.ServeHTTP: takes a non-nil request.
- The `Limiter` interface of both rate-limit middlewares is restricted to the local limiter.
- Three tests disagree with the code, and the model follows the code:
  - basic_auth/map_auth/map_auth_test.go calls a method `Authorize` that does not exist there.
  - rate_limit/rate_limit_test.go expects 503 where `IntroCheck` gives 500.
  - handler/add_header/add_headers_test.go passes a list of pairs where `WithHeaders` takes a map.
- The wall-clock tests of the limiter are out of reach of a model without time.
