# ThinkDo frontend: HTTP access layer and persisted stores, in Dafny

This project models the client-side data layer of the ThinkDo productivity app. It covers three parts:

- **The shared HTTP client** (`src/utils/request.ts`). Its request stage attaches `Authorization: Bearer <token>` when `localStorage` holds a non-empty `token`. Its success handler returns binary (`blob`) responses whole and unwraps a backend envelope `{ code, data, message, success }` when `code == 0` or `success == true`. Any other envelope is rejected, with one toast. Its error handler classifies a failed exchange into three shapes: a received error status, no response, or a request never sent. It shows one toast and rethrows the original error. A 401 status also removes the stored token and sends the page to `/login`.
- **The user store** (`src/stores/user.ts`). It holds the token and user name. Both are initialised from `localStorage` and written through to it. Writing `''` removes the key.
- **The layout store** (`src/stores/layout.ts`). It holds whether the sidebar is open, persisted as `'true'`/`'false'`. Only the exact string `'false'` restores a closed sidebar.

Everything is a pure function over immutable values:

- `localStorage` is a `map<string, string>` (module `KeyValue`).
- Toasts and location changes are entries appended to an effect log (`Http.World`).
- The network is a parameter `Config -> Outcome<T>`.
- A settled promise is `Http.Settled<T>`: either `Fulfilled(Payload(data))`, `Fulfilled(WholeResponse(response))`, or `Rejected(reason)`.

The three stateful components share one storage, so the module `Session` can state cross-component facts. One example: after a 401, the page load that follows is logged out but keeps the user name and the sidebar state.

Modules:

- `Values`: an optional value, JavaScript's `v || fallback` on an optional string, and decimal rendering of integers with its inverse.
- `KeyValue`: the storage map and the keys the application uses.
- `UserStore`, `LayoutStore`, `Http`: one module per source file.
- `Session`: the cross-component properties.

## Model

| member | source | states |
|---|---|---|
| Http.AttachAuth | src/utils/request.ts:24-33 | With a non-empty stored `token`, the outgoing config carries a `Bearer` header from which a receiver reads back exactly that token. Every other header, the method, the URL and the response type are unchanged. With the token absent or empty, the config is returned unchanged. |
| Http.AttachAuthIdempotent | src/utils/request.ts:26-30 | Running the request stage twice sends the same configuration as running it once. |
| Http.OnFulfilled | src/utils/request.ts:40-56 | A `blob` request resolves to the whole response before any envelope inspection, with no effect. Otherwise `code == 0 \|\| success == true` resolves to exactly `data`, with no effect. The call is rejected exactly when neither holds. The rejection carries the envelope's non-empty message, else `请求失败`. Exactly one toast with that same message is logged, and storage is unchanged. |
| Http.ErrorMessage | src/utils/request.ts:57-99 | The message of every classified failure is non-empty, so a toast never shows blank text. A request sent but never answered gets `网络连接失败，请检查网络`. A request never sent gets its own non-empty message, else `请求配置错误`. |
| Http.ClassifierOtherShapes | src/utils/request.ts:93-97 | The no-response message is `网络连接失败，请检查网络`. The never-sent message is `error.message`, else `请求配置错误`. |
| Http.ClassifierMatchesTable | src/utils/request.ts:60-97 | Received statuses 401, 403, 404, 500, 502, 503 and 504 give the fixed texts of the status table. 400 gives the body message, else `请求参数错误`. Any other status gives the body message, else `请求失败 (<status>)`. |
| Http.FixedStatusIgnoresBody | src/utils/request.ts:67-89 | For a listed status the message is the same whatever body came with it. |
| Http.UnknownStatusMessagesDistinct | src/utils/request.ts:90-91 | Two different unlisted statuses without a body message produce different texts, because the status is rendered in decimal and can be read back. |
| Http.OnRejected | src/utils/request.ts:57-103 | The call rejects with the original transport error, unchanged. Exactly one toast carries the classified message. Status 401, and only 401, removes the `token` key and logs one navigation to `/login`, logged before the toast. No other key changes, and other failures change neither storage nor location. |
| Http.Send | src/utils/request.ts:24-104 | Across a whole call: a fulfilled call has no effect. A rejected call logs exactly one toast, whose text is the rejection's message. When the transport fails, the call rejects with that same error and leaves exactly the world the error handler leaves; on 401 the token key is gone. A `blob` request answered by the transport resolves to exactly the delivered status and body, with the configuration that was sent. Any other answered request is rejected, with a business error, exactly when the envelope's success condition fails; otherwise it resolves to the envelope's `data`. A business rejection carries the envelope's non-empty `message`, else `请求失败`. A whole raw response comes back only when the request asked for `blob`. Storage changes only when the call failed with status 401, and then only at the `token` key. `/login` is navigated to once exactly when the call failed with status 401, and never otherwise. |
| Http.SendUnwrapsPayload | src/utils/request.ts:48-50 | A non-binary call whose envelope has `code == 0` or `success == true` resolves to exactly its `data`, with no toast and no storage change. |
| Http.NoBusinessSessionExpiry | src/utils/request.ts:48-55 | A business `code` of 401 gets no special handling. With `success == true` it resolves normally. It never touches storage and never navigates. |
| Http.DownloadConfig | src/utils/request.ts:139-143 | The configuration `download` sends is a GET of the given URL that asks for a `blob` body and keeps the caller's headers. |
| Http.Download | src/utils/request.ts:139-144 | The request is a GET of the URL with a binary response type. When the transport answers, the result is exactly the delivered status and body, with the sent configuration, and there is no effect. When it fails, the result is a rejection with the transport's own error, and the world is exactly the one the error handler leaves. It is never a business error, because envelope unwrapping is bypassed. |
| UserStore.Init | src/stores/user.ts:5-6 | The initial token is non-empty exactly when storage holds a non-empty `token`, and then it is that value. The same holds for `username`. |
| UserStore.Persist | src/stores/user.ts:10-14 | The write-through rule: reading the key back yields the written value. An empty string is never stored. No other key changes. |
| UserStore.SetToken | src/stores/user.ts:8-15 | The in-memory token becomes `t` and the user name is kept. Storage `token` becomes `t` when `t` is non-empty and is removed when `t` is empty. No other key changes. |
| UserStore.SetUsername | src/stores/user.ts:17-24 | The same as SetToken, on `username`; the token is kept. |
| UserStore.Logout | src/stores/user.ts:26-29 | Token and user name are both empty and both keys are absent. No other key changes. |
| UserStore.LoggedInIffToken | src/stores/user.ts:31-33 | After `setToken(t)` the store is logged in exactly when `t` is non-empty. After `logout` it is logged out. |
| UserStore.FreshStoreStaysInSync | src/stores/user.ts:5-29 | A store created from any storage, then changed by any sequence of `setToken`, `setUsername` and `logout`, equals what a reload of its storage would restore. |
| UserStore.ApplyPreservesSync | src/stores/user.ts:8-29 | Each mutation keeps the in-memory state equal to what a reload from storage would restore. |
| UserStore.ApplyAllPreservesSync | src/stores/user.ts:5-29 | After any sequence of `setToken`, `setUsername` and `logout`, a reload from storage reproduces the current token and user name. |
| UserStore.ApplyAllKeepsOtherKeys | src/stores/user.ts:8-29 | No sequence of the store's mutations changes any key other than `token` and `username`. |
| UserStore.SetTokenIdempotent | src/stores/user.ts:8-15 | `setToken(t); setToken(t)` has the same effect as `setToken(t)`. |
| UserStore.SetUsernameIdempotent | src/stores/user.ts:17-24 | `setUsername(n); setUsername(n)` has the same effect as `setUsername(n)`. |
| UserStore.LogoutIdempotent | src/stores/user.ts:26-29 | Logging out twice is the same as logging out once. |
| LayoutStore.Init | src/stores/layout.ts:6-8 | The initial state is closed exactly when the stored `sidebarOpen` is the string `false`. |
| LayoutStore.ToggleSidebar | src/stores/layout.ts:11-15 | Negates the flag and stores `String` of the new flag. No other key changes. |
| LayoutStore.SetSidebarOpen | src/stores/layout.ts:18-21 | Sets the flag to the argument and stores `String` of it. No other key changes. |
| LayoutStore.BoolStringRoundTrip | src/stores/layout.ts:7-20 | Reading back what `String(b)` stored restores `b`. |
| LayoutStore.ToggleTwiceRestores | src/stores/layout.ts:11-15 | Toggling twice restores the original flag, and a reload then restores it too. |
| LayoutStore.SetSidebarOpenIdempotent | src/stores/layout.ts:18-21 | Setting the same flag twice equals setting it once. |
| LayoutStore.ApplyPersists | src/stores/layout.ts:6-21 | After any single mutation, from any prior state, the stored value is `true` or `false` and a reload restores the current flag. |
| LayoutStore.ApplyAllPersists | src/stores/layout.ts:6-21 | After any non-empty sequence of mutations: the stored value is `true` or `false`, a reload restores the current flag, and no key other than `sidebarOpen` has changed. |
| Session.SessionExpiryLogsOut | src/utils/request.ts:67-71 | After a 401, a user store re-created from storage is logged out. Its user name and the sidebar state are those the storage held before. One navigation to `/login` and one session-expired toast are logged. |
| Session.SendExpiryLogsOut | src/utils/request.ts:67-71 | A whole call that the server answers with 401 rejects with that error. A user store re-created from the resulting storage is logged out but keeps the stored user name, the layout store restores the same sidebar state, and one navigation to `/login` is logged. |
| Session.OtherFailuresKeepSession | src/utils/request.ts:63-97 | Any failure other than 401 leaves what the user store restores unchanged and does not navigate. |
| Session.RepeatedExpiryKeepsStorage | src/utils/request.ts:69 | Two successive 401 failures leave the same storage as one. |
| Session.CredentialFollowsToken | src/utils/request.ts:26-30 | After `setToken(t)` with `t` non-empty, the next request carries the credential `t`. After `setToken('')` the request is sent unchanged. |
| Session.LogoutSendsNoCredential | src/stores/user.ts:26-29 | After `logout`, the request stage leaves every configuration unchanged. |
| Session.RequestAgreesWithStore | src/utils/request.ts:26-30 | While the user store agrees with storage, a credential is attached exactly when the store reports logged in, and it carries the store's token. |
| Session.UserOpsKeepSidebar | src/stores/user.ts:8-29 | No sequence of user-store mutations changes the sidebar state a reload restores. |
| Session.LayoutOpsKeepUser | src/stores/layout.ts:11-21 | No sequence of layout-store mutations changes the token or user name a reload restores. |
| Session.TokenSurvivesReload | src/stores/user.ts:5-15 | A token set before a restart is the token after it. |
| Session.ServerErrorIgnoresBodyExample | src/utils/request.ts:78-80 | A 500 whose body says `db down` rejects with the original error, and its one toast is `服务器内部错误`. |

## Behaviour worth noting

- **Business code 401.** The success handler has no business-level 401 branch. An envelope with `code == 401` and `success == true` resolves normally (`Http.NoBusinessSessionExpiry`).
- **What a 401 clears.** The transport-level 401 removes only the `token` key. The `username` key stays. The in-memory user store is not touched directly; the `/login` navigation reloads the page, which re-creates the store from storage (`Session.SessionExpiryLogsOut`).
- **Navigations per 401.** Every 401 assigns the location again, so two failing requests log two navigations. Only the storage outcome is idempotent (`Session.RepeatedExpiryKeepsStorage`).
- **Unsent requests.** A request that was never sent shows `error.message`, else the fallback `请求配置错误`.
- **Non-envelope success bodies.** A successful response whose body has none of the envelope fields (`code`, `success`, `message`) fails the success condition and is rejected with `请求失败`.
- **Navigation guard.** The router (`src/router/index.ts`) is a static table without a guard, so no guard is modelled.

## Left out

- Axios instance creation, the `baseURL` from the environment, the default JSON content type and the 15000 ms timeout are transport configuration. A timeout appears only as the `NoResponse` failure shape.
- The network is a parameter. Which statuses axios routes to the error handler rather than the success handler is decided by the transport, not by the model.
- The `get`, `post`, `put`, `delete` and `patch` wrappers set the method and the URL of the configuration, and `post`, `put` and `patch` also pass a request body. The model represents the method and URL by `Config.verb` and `Config.url`, passed to `Http.Send`. The request body is not modelled, because nothing in the layer inspects it.
- The `upload` wrapper's header merging depends on axios internals that are not part of this model.
- The request interceptor's rejection handler is left out. No earlier request interceptor exists that could reject, and the handler only logs and rethrows.
- `console.error` logging, toast rendering and the page reload that follows `window.location.href = '/login'` are I/O. Toasts and location assignments appear as effect-log entries, and the reload as re-running `UserStore.Init`.
- Promise/async machinery, Pinia/Vue reactivity and interleaving of concurrent requests are left out. Each call is one sequential step over the shared storage.
- Http.ErrorMessage: assumes the error body is an object. In `src/utils/request.ts`, a `null` body would make `data.message` throw for status 400 and unlisted statuses. Here a missing body message is `None`.
- Http.OnFulfilled: `message` is modelled as an optional string and `success` as a boolean. JavaScript truthiness of other value types, and `success === true` on non-boolean values, are not modelled. Partial envelopes are not modelled either. In `src/utils/request.ts`, an object with a truthy `message` but no `code` is rejected with that message, and one with `code: 0` but no `data` resolves to `undefined`. A JSON `null` body is not modelled: it makes line 48 throw a TypeError, with no toast.
- The per-resource API modules (`src/api/*.ts`) and type declarations (`src/types/api.d.ts`) are declarative endpoint bindings without control flow.
