# Farmer Admin chat front end — a Dafny model of its client-side logic

This project models the client-side state logic of the Farmer Admin chat UI (a Vue/Pinia front end)
and proves properties of it:

- **Conversation store** (`src/stores/chat.ts`, module `Chat`). It holds the list of conversations,
  newest first. It also holds the current selection and the shared `isLoading`/`error` flags.
  Conversations are heap objects (`Chat.Conversation`), and the store is a class (`Chat.ChatStore`)
  whose methods change them in place. `sendMessage` is modelled up to the moment it returns.
  `handleAIResponse` is cut at its one `await`:
  - `BeginReply` is the synchronous part: raise the flag, clear the error, capture the conversation.
  - `FinishReply` pushes the reply onto the captured object and lowers the flag.

  Between the two, a caller may run any other operation, such as deleting that conversation.
  The push then lands on an object that is no longer in the list. This follows from reference
  semantics: `FinishReply` leaves `conversations` as it was.
- **Scroll spy** (`src/composables/useScrollSpy.ts`, module `ScrollSpy`). `handleIntersection` is a
  loop over a batch of intersection entries, proved equal to a fold (`ApplyBatch`). The fold is proved
  to end on the last qualifying entry. The `observer` variable is an `Option` of the set of watched
  elements.
- **Text helpers** (`src/utils/format.ts`, module `Format`): `truncateText` and `escapeHtml`. An
  entity decoder (`Unescape`) is the inverse partner of `escapeHtml`. The scroll spy's own
  `truncateText` has the same body as this one with a default of 40 instead of 50. It is modelled
  once, as `Format.TruncateText`.
- **Small stores**: the user store (`Users`), the sidebar store (`Sidebar`) and the theme store
  (`Theme`). The theme composable (`UseTheme`) sees the browser only as a `Platform` value (whether
  `window` exists and whether the dark scheme matches). It sees the document root as a set of class
  names.

Ids (`Date.now()`) and clock readings (`new Date()`) are parameters. The model takes them as given,
and it does not assume that ids are unique. The one lemma that needs unique ids states it as a
hypothesis (`RemoveFirstRemovesId`).

On these points the model follows the code exactly:

- `sendMessage` creates a conversation when the id is absent and also when it is the empty string,
  because the test is `!targetConversationId`.
- The unknown-id failure is a rejected promise, since `sendMessage` is `async`. It happens before any
  state changes. The model returns `Failure(NotFoundError)`.
- `handleAIResponse` runs synchronously up to its `await`, inside the call to `sendMessage`. So when
  `sendMessage` returns successfully, `isLoading` is already true and `error` is null.
  `SendMessage` states this.
- Nothing in the reply step can throw. So `error` is never set to anything but null, and
  `ChatStore.Valid()` records that as an invariant.

## Model

| member | source | states |
|---|---|---|
| `Format.SliceTo` | src/utils/format.ts:98 | `slice(0, end)` gives a prefix of the string, with the length JavaScript gives for a non-negative or negative end |
| `Format.TruncateText` | src/utils/format.ts:96-99 | the text is returned unchanged when it fits in `maxLength`; otherwise the result is a prefix of it followed by `...`, namely the first `maxLength` characters, of length `maxLength`+3 |
| `Format.TruncateTextDefault` | src/utils/format.ts:96-98 | with the default limit of 50, the text is unchanged up to 50 characters; otherwise it is its first 50 characters plus `...`, 53 characters in all |
| `Format.TruncateTextBound` | src/utils/format.ts:96-99 | a truncated text is never longer than the limit plus 3, nor than the text plus 3 |
| `Format.EscapeChar` | src/utils/format.ts:105-111 | `&`, `<`, `>`, `"`, `'` become `&amp;`, `&lt;`, `&gt;`, `&quot;`, `&#039;`; every other character stays itself |
| `Format.EscapeHtml` | src/utils/format.ts:104-113 | escaping never shortens the text |
| `Format.EscapeHtmlConcat` | src/utils/format.ts:112 | escaping distributes over concatenation |
| `Format.EscapeHtmlIdentity` | src/utils/format.ts:112 | a text without the five special characters is returned unchanged |
| `Format.EscapeHtmlSafe` | src/utils/format.ts:104-113 | the escaped text contains no `<`, `>`, `"` or `'` |
| `Format.UnescapeEscapeHtml` | src/utils/format.ts:104-113 | escaping loses nothing: decoding the five entities gives back the original text |
| `Chat.ReplyContent` | src/stores/chat.ts:101 | the simulated reply quotes the user's message verbatim, between the fixed prefix and suffix |
| `Chat.DeriveTitle` | src/stores/chat.ts:67-70 | the title is the content itself up to 30 characters; otherwise its first 30 characters plus `...` |
| `Chat.DeriveTitleIsTruncation` | src/stores/chat.ts:68-69 | the title rule equals `truncateText` at 30 characters, so a title never exceeds 33 characters |
| `Chat.Conversation.constructor` | src/stores/chat.ts:14-20 | a new conversation has the given id, title `新對話`, no messages, and both timestamps equal to now |
| `Chat.FirstIndex` | src/stores/chat.ts:31-33 | `findIndex` by id: -1 exactly when no conversation has the id; otherwise an index holding the id with none before it |
| `Chat.RemoveAt` | src/stores/chat.ts:35 | `splice(i, 1)` drops element `i`, keeps the elements before it, and shifts those after it down by one |
| `Chat.RemoveFirst` | src/stores/chat.ts:30-37 | `deleteConversation`'s list: the `splice` at the `findIndex` position, or the list itself when the index is -1 |
| `Chat.RemoveFirstSpec` | src/stores/chat.ts:30-37 | deletion removes exactly the first conversation with the id and keeps the rest in order; an absent id leaves the list unchanged |
| `Chat.RemoveFirstRemovesId` | src/stores/chat.ts:30-37 | with unique ids, `findIndex` gives -1 for the id after deletion |
| `Chat.RemoveFirstDistinct` | src/stores/chat.ts:30-37 | deletion keeps conversations distinct, and the deleted object is no longer in the list |
| `Chat.IsUnset` | src/stores/chat.ts:47 | `!targetConversationId`: no id, or the empty string |
| `Chat.ChatStore.constructor` | src/stores/chat.ts:8-11 | the store starts with no conversations, no selection, not loading, and no error |
| `Chat.ChatStore.FindIndex` | src/stores/chat.ts:31-33 | the linear search returns the first index holding the id, or -1 exactly when none does |
| `Chat.ChatStore.CreateConversation` | src/stores/chat.ts:13-24 | a fresh empty conversation titled `新對話` is put in front of the unchanged old list and becomes current; the flags are untouched |
| `Chat.ChatStore.SetCurrentConversation` | src/stores/chat.ts:26-28 | any id is stored as current without checking that it exists; nothing else may change |
| `Chat.ChatStore.DeleteConversation` | src/stores/chat.ts:30-37 | the list becomes the old list without its first conversation with the id; the current id and the flags are not in the frame, so they are unchanged |
| `Chat.ChatStore.BeginReply` | src/stores/chat.ts:86-93 | `error` becomes null; a conversation is captured exactly when one has the id, and it is the first such; `isLoading` stays true exactly when one was captured |
| `Chat.ChatStore.FinishReply` | src/stores/chat.ts:99-110 | exactly one assistant message quoting the user's text is appended to the captured conversation, whether or not it is still listed; the list is unchanged; `isLoading` ends false |
| `Chat.ChatStore.HandleAIResponse` | src/stores/chat.ts:82-112 | without interleaving: the list is unchanged; the first conversation with the id gains exactly one assistant message at its end and `updatedAt` becomes now; every other conversation (all of them when none has the id, and any later one with the same id) keeps its messages, title and `updatedAt`; `isLoading` is false and `error` null at the end |
| `Chat.ChatStore.SendMessage` | src/stores/chat.ts:40-79 | an unknown id fails with `對話不存在` and changes nothing; an absent or empty id creates exactly one conversation at the front, makes it current, and returns its id; a known id appends exactly one user message to the first conversation with it; the title is derived only for a first message; other conversations are unchanged; the reply step has started |
| `ScrollSpy.Snippet` | src/composables/useScrollSpy.ts:23-26 | the snippet is the text (`""` for null) when at most 40 characters; otherwise its first 40 characters plus `...` |
| `ScrollSpy.Step` | src/composables/useScrollSpy.ts:33-44 | an entry that is not intersecting changes nothing; any change comes from an intersecting `user` entry with a non-empty id |
| `ScrollSpy.Qualifies` | src/composables/useScrollSpy.ts:33-39 | an entry moves the tracker exactly when it intersects, its role is `user` and its message id is non-empty |
| `ScrollSpy.ApplyBatch` | src/composables/useScrollSpy.ts:32-45 | the `forEach` as a fold: each entry in array order is applied to the pair left by the ones before it |
| `ScrollSpy.ApplyBatchNoneQualify` | src/composables/useScrollSpy.ts:32-45 | a batch with no qualifying entry leaves the id and snippet unchanged |
| `ScrollSpy.ApplyBatchLastWins` | src/composables/useScrollSpy.ts:32-45 | after a batch, the id and snippet are those of the last qualifying entry in array order |
| `ScrollSpy.LastQualifying` | src/composables/useScrollSpy.ts:39-43 | the search from the end finds the last qualifying entry, or reports that none qualifies |
| `ScrollSpy.ApplyBatchIsLastQualifying` | src/composables/useScrollSpy.ts:32-45 | the batch's outcome equals the last qualifying entry's data, or the old state when none qualifies |
| `ScrollSpy.Spy.constructor` | src/composables/useScrollSpy.ts:15-18 | the tracker starts with no id, an empty snippet, and no observer |
| `ScrollSpy.Spy.HandleIntersection` | src/composables/useScrollSpy.ts:31-46 | the loop over a batch leaves exactly the fold's state |
| `ScrollSpy.Spy.InitObserver` | src/composables/useScrollSpy.ts:51-58 | with a window there is a new observer watching nothing; without one, nothing changes |
| `ScrollSpy.Spy.Observe` | src/composables/useScrollSpy.ts:63-67 | the element, by identity, is added to the watched set; with no observer, nothing happens |
| `ScrollSpy.Spy.Unobserve` | src/composables/useScrollSpy.ts:72-76 | the element is removed from the watched set; with no observer, nothing happens |
| `ScrollSpy.Spy.Cleanup` | src/composables/useScrollSpy.ts:81-86 | the observer is gone afterwards, so a second call is a no-op |
| `Users.RoleLabel` | src/stores/user.ts:16-24 | every role has a non-empty label, and the label is `訪客` exactly for `viewer` |
| `Users.RoleLabelInjective` | src/stores/user.ts:17-22 | different roles have different labels |
| `Users.UserStore.constructor` | src/stores/user.ts:9-10 | a new store has no user and no token: not authenticated, shown as `訪客` |
| `Users.UserStore.IsAuthenticated` | src/stores/user.ts:13 | signed in exactly when a user is set and the token is set and non-empty |
| `Users.UserStore.IsAdmin` | src/stores/user.ts:14 | an administrator exactly when a user is set and their role is `admin` |
| `Users.UserStore.UserName` | src/stores/user.ts:15 | the user's name when there is a user with a non-empty name, otherwise `訪客`; never empty |
| `Users.UserStore.UserRoleLabel` | src/stores/user.ts:16-24 | the label of the user's role, or `訪客` with no user |
| `Users.UserStore.SetUser` | src/stores/user.ts:27-29 | only `user` changes; admin exactly when the new user's role is admin |
| `Users.UserStore.SetToken` | src/stores/user.ts:31-33 | only `token` changes; authenticated exactly when there is a user and the token is non-empty |
| `Users.UserStore.Logout` | src/stores/user.ts:35-38 | user and token are cleared: not authenticated, not admin, shown as `訪客` |
| `Users.UserStore.MockLogin` | src/stores/user.ts:41-49 | leaves an authenticated admin named `張三` with token `mock-token-123` |
| `Sidebar.SidebarStore.constructor` | src/stores/sidebar.ts:8-10 | starts on `conversation`, not hovering, not pinned, secondary panel hidden |
| `Sidebar.SidebarStore.ShouldShowSecondary` | src/stores/sidebar.ts:13-15 | the secondary panel shows exactly when it is pinned or hovered |
| `Sidebar.SidebarStore.SetActiveModule` | src/stores/sidebar.ts:17-19 | only `activeModule` changes |
| `Sidebar.SidebarStore.SetHovering` | src/stores/sidebar.ts:21-23 | only `isHovering` changes; the panel shows exactly when pinned or hovering, so always while pinned |
| `Sidebar.SidebarStore.TogglePin` | src/stores/sidebar.ts:25-27 | `isPinned` is negated and nothing else changes, so two toggles restore the state |
| `Theme.ThemeStore.constructor` | src/stores/theme.ts:10-11 | starts in mode `system` (`FA_DEFAULT_THEME`) with `light` applied |
| `Theme.ThemeStore.IsDark` | src/stores/theme.ts:14-15 | exactly one of `isDark` and `isLight` holds |
| `Theme.ThemeStore.IsLight` | src/stores/theme.ts:15 | `isLight` exactly when the applied theme is `light` |
| `Theme.ThemeStore.IsSystem` | src/stores/theme.ts:16 | `isSystem` exactly when the mode is `system` |
| `Theme.ThemeStore.SetTheme` | src/stores/theme.ts:19-21 | only `currentTheme` changes; `isSystem` exactly for `system` |
| `Theme.ThemeStore.SetAppliedTheme` | src/stores/theme.ts:23-25 | only `appliedTheme` changes |
| `UseTheme.GetSystemTheme` | src/composables/useTheme.ts:13-16 | `light` without a window; otherwise `dark` exactly when the dark scheme matches |
| `UseTheme.Resolve` | src/composables/useTheme.ts:40-45 | `system` resolves to the system theme; `light` and `dark` resolve to themselves |
| `UseTheme.ResolveFixedModes` | src/composables/useTheme.ts:40-45 | only the `system` mode depends on the platform |
| `UseTheme.ThemeController.constructor` | src/composables/useTheme.ts:8 | there is no media query and no listener, stray or not, before `initTheme` |
| `UseTheme.ThemeController.ApplyTheme` | src/composables/useTheme.ts:22-32 | the root has class `dark` exactly for the dark theme; other classes are untouched; the store's applied theme is the argument |
| `UseTheme.ThemeController.UpdateTheme` | src/composables/useTheme.ts:37-48 | the applied theme is the resolution of the current mode, and the root's `dark` class agrees with it |
| `UseTheme.ThemeController.HandleSystemThemeChange` | src/composables/useTheme.ts:53-57 | nothing changes unless the mode is `system`; then the applied theme and the root's `dark` class follow `matches`; the root's other classes are kept in every case |
| `UseTheme.ThemeController.SetTheme` | src/composables/useTheme.ts:62-65 | the mode becomes the argument, the applied theme and the root's `dark` class follow its resolution, and the root's other classes are kept |
| `UseTheme.ThemeController.InitTheme` | src/composables/useTheme.ts:70-79 | with a window, a new media query replaces the held one and the listener is registered on it; a listener still on the replaced query is counted as stray; the current mode is then applied, keeping the root's other classes |
| `UseTheme.ThemeController.Cleanup` | src/composables/useTheme.ts:84-88 | the listener is removed from the media query held now, when there is one; stray listeners on replaced queries stay registered |

## Left out

- The `setTimeout` delay and promise machinery of the reply. The reply is the pair `BeginReply`/`FinishReply`, and the caller runs them. Timers and real concurrency are not modelled.
- The `catch` branch of the reply step. Nothing in its `try` body can throw, so the model has no failure path. `error` stays null.
- `Date.now()` ids and `new Date()` timestamps. They are parameters, and timestamps are plain integers.
- The wording of the assistant reply is copied, but Markdown is not interpreted.
- `formatMarkdown` and the `marked`/`highlight.js` renderer setup. These are calls into libraries that are not part of this model.
- `formatDate`, because it depends on locale-dependent date formatting.
- Persistence to local storage (the `persist` options) and the Pinia plugin setup.
- IntersectionObserver geometry (`threshold`, `rootMargin`) and which elements the platform reports. A batch is an input sequence in the order the platform delivers it.
- Vue reactivity, `onMounted`/`onBeforeUnmount` and the `watch` on the theme mode. These lifecycles are explicit method calls here.
- The router, `main.ts`, the Tailwind configuration, the navigation constants and the type files. Only the constants and types they define are copied.
- `src/composables/useSidebar.ts`. It reads `isSecondaryExpanded` and `toggleSecondary`, which the sidebar store does not define, so it has no coherent behaviour to model.
- JavaScript strings are UTF-16 code units. Here they are sequences of Unicode characters, so `length` and `slice` differ on text outside the Basic Multilingual Plane.
- UseTheme.ThemeController.UpdateTheme, UseTheme.ThemeController.SetTheme, UseTheme.ThemeController.InitTheme: without a window (`hasWindow` false) there is no `document` either, and `applyTheme` reads `document.documentElement` unguarded, so these calls would throw a ReferenceError. The model does not capture that throw: it always has a document root and applies the theme to it. Only `getSystemTheme`'s `light` fallback for a missing window is modelled as the source has it.
- An element's `data-role`, `data-message-id` and `textContent` are fixed when the element is created. A later change to them in the page is not modelled.
- Format.TruncateText: `maxLength` is an integer. A fractional JavaScript number is not modelled.
