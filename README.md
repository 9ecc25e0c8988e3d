# YouTrack plugin: issue store and command client, in Dafny

This project models two pieces of the YouTrack IntelliJ plugin and proves properties of them.

- **Issue store** (`issue_store.dfy`). `IssueStoreComponent` is a registry that gives one
  `Store` per repository, created on first request. A `Store` holds the last fetched list of
  issues, a search query, a set of listeners and a completion handle (`Callback`, the plugin's
  `ActionCallback`) whose done flag *is* the idle/refreshing state. `Update` is single-flight:
  while a refresh runs it hands back the outstanding handle; when idle it installs a new pending
  handle and hands the host a `RefreshTask`. The host's three callbacks are methods of that
  task: `Run` (fetch and replace the snapshot, or swallow the failure), `OnCancel` (mark done)
  and `OnSuccess` (mark done, then invoke every listener). `IsUpdating` is the predicate
  "the current handle is not done". `issue_store_scenarios.dfy` shows what callers can rely on
  from these contracts: coalesced updates, stale-on-failure with listeners still invoked,
  cancellation after `run`, listeners joining an in-flight refresh, and registry reuse.
- **Command client** (`command_rest.dfy`). It has two URL builders. `AssistUrl` builds the
  command-completion request, and `ExecuteUrl` builds the command-execution request. Each is
  paired with the list of query parameters it is meant to carry (`AssistParams`,
  `ExecuteParams`). Lemmas prove that reading the URL's query back gives exactly those
  parameters. The client also has two outcome rules. `AssistOutcome` says that status 200
  passes the body through and any other status fails with `HTTP <status>: <body>`.
  `ExecuteOutcome` says that 200 gives an empty response. For any other status, a root named
  `error` gives one error, any other root gives one message, and a parse error fails.
- Supporting modules: `Render` (Kotlin's rendering of `Int` and `Boolean` in string templates,
  with a decimal reader proved to invert it), `Text` (first index, split, join, with
  split-after-join proved), `QueryString` (a parameter list rendered as `k=v&k=v` and read back,
  with the round trip proved), `Wrappers` (Option, Result).

External collaborators are parameters:
- URL encoding (`urlencoded`) is the function `enc: string -> string`. Its definition is not part of this model.
- The XML reader is `parse: string -> Parsed`. It yields a root name and text, or `Malformed`.
- The issue server is `fetch: string -> Option<seq<Issue>>`. It gives the result of one fetch for a query, or `None` when the fetch threw.
- The base URL of the active repository, the HTTP status and the body are plain inputs.

Behaviour of the code that is easy to miss, and that the model reproduces:
- The assist fallback puts the task id into `&query=` without encoding it (`CommandRestClient.kt:79`).
  So `AssistUrlParameters` needs a task id without `&`.
- A failed fetch still ends in `onSuccess`, because `run` catches the exception. Listeners are
  therefore invoked after a failed refresh too.
- `onCancel` does not undo a replacement that `run` has already made.
- A null `comment` or `compressedEntityId` is rendered as the text `null`. It is not encoded and not left out.
- The listener set is Kotlin's `mutableSetOf`, which keeps insertion order. It is modelled as a
  duplicate-free sequence, and listeners are invoked in registration order.

## Model

| member | source | states |
|---|---|---|
| `CommandRest.AssistUrl` | src/main/kotlin/com/github/jk1/ytplugin/rest/CommandRestClient.kt:70-81 | the `intellisenseCommandUrl` getter: starts with base, path, `?command=` and the encoded command; its full shape is stated by AssistUrlShape, AssistUrlIsQuery and AssistUrlParameters |
| `CommandRest.AssistUrlShape` | src/main/kotlin/com/github/jk1/ytplugin/rest/CommandRestClient.kt:70-81 | the assist URL starts with base, path, encoded command, caret and `noIssuesContext=false`; it ends with `&issueIds=` and the encoded entity id when the session has one, else with `&query=` and the raw task id |
| `CommandRest.AssistUrlIsQuery` | src/main/kotlin/com/github/jk1/ytplugin/rest/CommandRestClient.kt:72-80 | the assist URL is the path, `?`, and the query rendered from AssistParams |
| `CommandRest.AssistUrlParameters` | src/main/kotlin/com/github/jk1/ytplugin/rest/CommandRestClient.kt:72-80 | for a URL-safe encoder and a task id without `&`, the query after the path reads back as exactly AssistParams |
| `CommandRest.AssistParamsLookup` | src/main/kotlin/com/github/jk1/ytplugin/rest/CommandRestClient.kt:74-80 | the assist parameters carry the encoded command and the caret; `issueIds` is present iff the session has an entity id, and `query` (the unencoded task id) iff it has none |
| `CommandRest.ExecuteUrl` | src/main/kotlin/com/github/jk1/ytplugin/rest/CommandRestClient.kt:56-68 | the `executeCommandUrl` getter: starts with base, `/rest/issue/execute/`, the raw task id, `?command=` and the encoded command; its full shape is stated by ExecuteUrlGroupSegment, ExecuteUrlIsQuery and ExecuteUrlParameters |
| `CommandRest.EncodeNullable` | src/main/kotlin/com/github/jk1/ytplugin/rest/CommandRestClient.kt:61 | `x?.urlencoded` in a template (here the comment; the entity id at line 76 likewise): a present value renders as its encoding, a null as the text `null`; with a URL-safe encoder the result never holds `&` |
| `CommandRest.ExecuteUrlGroupSegment` | src/main/kotlin/com/github/jk1/ytplugin/rest/CommandRestClient.kt:61-66 | the execute URL is the URL built with the `All Users` group followed by `&group=` plus the encoded group exactly when the group is not `All Users`; so the group-less URL is always a prefix |
| `CommandRest.ExecuteUrlIsQuery` | src/main/kotlin/com/github/jk1/ytplugin/rest/CommandRestClient.kt:56-68 | the execute URL is base, `/rest/issue/execute/`, the raw task id, `?`, and the query rendered from ExecuteParams |
| `CommandRest.ExecuteUrlParameters` | src/main/kotlin/com/github/jk1/ytplugin/rest/CommandRestClient.kt:59-66 | for a URL-safe encoder, the query after path and task id reads back as exactly ExecuteParams |
| `CommandRest.ExecuteParamsLookup` | src/main/kotlin/com/github/jk1/ytplugin/rest/CommandRestClient.kt:61-65 | the execute parameters carry the encoded command, the comment (encoded, or `null`) and the silent flag; `group` is present, encoded, iff the group is not `All Users` |
| `CommandRest.AssistOutcome` | src/main/kotlin/com/github/jk1/ytplugin/rest/CommandRestClient.kt:22-27 | success iff status 200, and then the body unchanged; otherwise a failure whose message is exactly `HTTP <status>: <body>` and reads back as the status and the whole body |
| `CommandRest.HttpErrorMessage` | src/main/kotlin/com/github/jk1/ytplugin/rest/CommandRestClient.kt:26 | the exception message starts with `HTTP `, ends with `: ` and the whole body, and has at least one status character between; HttpErrorMessageRoundTrip states that it decodes back |
| `CommandRest.HttpErrorMessageRoundTrip` | src/main/kotlin/com/github/jk1/ytplugin/rest/CommandRestClient.kt:26 | the `HTTP <status>: <body>` message can be decoded back into the status and the body |
| `CommandRest.ExecuteOutcome` | src/main/kotlin/com/github/jk1/ytplugin/rest/CommandRestClient.kt:38-49 | status 200 gives empty messages and errors whatever the body; the result is a failure iff the status is not 200 and the body does not parse |
| `CommandRest.ExecuteOutcomeOneEntry` | src/main/kotlin/com/github/jk1/ytplugin/rest/CommandRestClient.kt:39-46 | a well-formed non-200 body gives exactly one entry, the root's text, in `errors` iff the root is named `error` and in `messages` otherwise |
| `CommandRest.ExecuteOutcomeEmptyIffOk` | src/main/kotlin/com/github/jk1/ytplugin/rest/CommandRestClient.kt:39-49 | for every body, well-formed or not, the response is empty iff the status is 200 |
| `Render.IntToString` | src/main/kotlin/com/github/jk1/ytplugin/rest/CommandRestClient.kt:74 | an `Int` in a template renders as digits, with a leading `-` exactly for negative numbers and no leading zero unless the number is 0; with IntToStringRoundTrip this pins the canonical decimal |
| `Render.IntToStringRoundTrip` | src/main/kotlin/com/github/jk1/ytplugin/rest/CommandRestClient.kt:26 | the rendered status reads back as the same number |
| `Render.BoolToString` | src/main/kotlin/com/github/jk1/ytplugin/rest/CommandRestClient.kt:61 | `disableNotifications` renders as `true` exactly when silent, else `false` |
| `IssueStore.WithListener` | src/main/kotlin/com/github/jk1/ytplugin/search/components/IssueStoreComponent.kt:70-72 | adding a listener yields a set holding the old listeners and the new one, keeps the old order as a prefix, grows by at most one and keeps the no-duplicates property |
| `IssueStore.WithListenerIdempotent` | src/main/kotlin/com/github/jk1/ytplugin/search/components/IssueStoreComponent.kt:70-72 | adding the same listener twice leaves the set as after one add |
| `IssueStore.Callback.Done` | src/main/kotlin/com/github/jk1/ytplugin/search/components/IssueStoreComponent.kt:26 | the initial handle is already done |
| `IssueStore.Callback.Pending` | src/main/kotlin/com/github/jk1/ytplugin/search/components/IssueStoreComponent.kt:40 | a refresh's handle starts not done |
| `IssueStore.Callback.SetDone` | src/main/kotlin/com/github/jk1/ytplugin/search/components/IssueStoreComponent.kt:52 | marking done sets the flag |
| `IssueStore.Store.IsUpdating` | src/main/kotlin/com/github/jk1/ytplugin/search/components/IssueStoreComponent.kt:64 | refreshing exactly while the current handle is not done; the constructor ensures it starts false, Update ensures it afterwards, and OnSuccess/OnCancel end it by marking the handle done |
| `IssueStore.Store.constructor` | src/main/kotlin/com/github/jk1/ytplugin/search/components/IssueStoreComponent.kt:23-29 | a new store has no issues, the one no-op listener and an empty query, and is not updating |
| `IssueStore.Store.Update` | src/main/kotlin/com/github/jk1/ytplugin/search/components/IssueStoreComponent.kt:31-37 | while updating, returns the current handle, starts no task and changes nothing; when idle, installs and returns a fresh pending handle and a fresh task bound to it; either way it is updating afterwards and the issues, listeners and query are unchanged |
| `IssueStore.Store.Refresh` | src/main/kotlin/com/github/jk1/ytplugin/search/components/IssueStoreComponent.kt:39-61 | creates a fresh pending handle and a task that captures this store and that handle |
| `IssueStore.Store.GetIssue` | src/main/kotlin/com/github/jk1/ytplugin/search/components/IssueStoreComponent.kt:68 | succeeds iff 0 <= index < size, with the issue at that index; otherwise an out-of-bounds error naming index and size |
| `IssueStore.Store.GetAllIssues` | src/main/kotlin/com/github/jk1/ytplugin/search/components/IssueStoreComponent.kt:66 | the snapshot, of the same size and agreeing with GetIssue at every index |
| `IssueStore.Store.AddListener` | src/main/kotlin/com/github/jk1/ytplugin/search/components/IssueStoreComponent.kt:70-72 | the listeners become WithListener of the old ones; nothing else changes |
| `IssueStore.Store.SetSearchQuery` | src/main/kotlin/com/github/jk1/ytplugin/search/components/IssueStoreComponent.kt:29 | sets the query and changes nothing else, so no refresh starts |
| `IssueStore.RefreshTask.constructor` | src/main/kotlin/com/github/jk1/ytplugin/search/components/IssueStoreComponent.kt:41 | the task captures its store and its handle |
| `IssueStore.RefreshTask.Run` | src/main/kotlin/com/github/jk1/ytplugin/search/components/IssueStoreComponent.kt:42-49 | a fetch for the store's current query that succeeds replaces the issues wholesale; a failed one leaves them exactly as before; nothing else changes |
| `IssueStore.RefreshTask.OnCancel` | src/main/kotlin/com/github/jk1/ytplugin/search/components/IssueStoreComponent.kt:51-53 | marks the handle done and changes nothing else |
| `IssueStore.RefreshTask.OnSuccess` | src/main/kotlin/com/github/jk1/ytplugin/search/components/IssueStoreComponent.kt:55-58 | marks the handle done, then invokes every registered listener in registration order, each exactly once (the invocations hold no listener twice) |
| `IssueStore.IssueStoreComponent.constructor` | src/main/kotlin/com/github/jk1/ytplugin/search/components/IssueStoreComponent.kt:17 | the registry starts empty |
| `IssueStore.IssueStoreComponent.Get` | src/main/kotlin/com/github/jk1/ytplugin/search/components/IssueStoreComponent.kt:19-21 | returns the existing store for the repository unchanged; otherwise adds exactly one fresh, idle, empty store under it and leaves other entries alone; the result differs from every other repository's store |
| `IssueStoreScenarios.CoalescedUpdates` | src/main/kotlin/com/github/jk1/ytplugin/search/components/IssueStoreComponent.kt:31-37 | two updates in a row return the same pending handle and start only one task |
| `IssueStoreScenarios.UpdateAfterCompletion` | src/main/kotlin/com/github/jk1/ytplugin/search/components/IssueStoreComponent.kt:31-58 | after `onSuccess`, the next update returns a new pending handle and starts a new task |
| `IssueStoreScenarios.FailedRefreshKeepsSnapshot` | src/main/kotlin/com/github/jk1/ytplugin/search/components/IssueStoreComponent.kt:42-58 | a failed refresh keeps the previous snapshot, still invokes the listeners and leaves the store idle |
| `IssueStoreScenarios.CancelAfterRun` | src/main/kotlin/com/github/jk1/ytplugin/search/components/IssueStoreComponent.kt:42-53 | cancelling after `run` keeps the replacement `run` made and leaves the store idle |
| `IssueStoreScenarios.QueryReadWhenRunExecutes` | src/main/kotlin/com/github/jk1/ytplugin/search/components/IssueStoreComponent.kt:29-44 | the fetch uses the query set after `update()` and before `run` |
| `IssueStoreScenarios.ListenerJoinsInFlightRefresh` | src/main/kotlin/com/github/jk1/ytplugin/search/components/IssueStoreComponent.kt:55-72 | a listener added during a refresh, even twice, is invoked once on its success, after the initial listener |
| `IssueStoreScenarios.RegistryReuse` | src/main/kotlin/com/github/jk1/ytplugin/search/components/IssueStoreComponent.kt:19-21 | the same repository gets the same store back and a different repository a different store |

## Left out

- Background scheduling and threading are not modelled. That covers `Task.Backgroundable.queue()`, the progress indicator, `ActionCallback` internals and the atomicity of `ConcurrentHashMap.getOrPut`. The host's callbacks are sequential method calls, in any order a caller chooses.
- The HTTP transport is not modelled: `HttpClient.executeMethod`, `GetMethod`/`PostMethod`, `releaseConnection` and building the client from the active repository. These are foreign I/O, so the base URL, status and body are inputs. Transport exceptions are not represented.
- XML parsing (`SAXBuilder`) is not modelled. It is a foreign library, abstracted as `parse` returning a root `(name, text)` or `Malformed`.
- `urlencoded` is not modelled. Its definition is not part of this model, so it is the parameter `enc`. The decoding lemmas assume only that its output holds no `&`.
- Latency timing (`System.currentTimeMillis()`), `logger.debug` and `printStackTrace` are left out. They are side effects that change no result.
- The issue fetch (`IssuesRestClient.getIssues`) is not modelled. It is the parameter `fetch`, and a thrown exception is `None`.
- What listener code does when invoked is not modelled. It is outside code, so `OnSuccess` returns the sequence of invocations instead of running them. Re-entrant changes to the store from inside a listener are not modelled.
- The project-component lifecycle (`AbstractProjectComponent`) is left out. It is framework glue.
- `Render.IntToString`: caret and status are unbounded integers rather than 32-bit `Int`. The rendering agrees with Kotlin's on the `Int` range.
- `CommandRest.AssistUrlParameters`: this lemma needs a task id without `&`. The fallback inserts the task id unencoded, so a `&` in it would add query parameters.
- `CommandRest.AssistUrlParameters` and `CommandRest.ExecuteUrlParameters` read the query from the known end of the path. A server splits at the first `?` and stops at `#`, so a `?` or `#` in the base URL or the unencoded task id would move that split; these lemmas do not speak to that case.
