# WindowManager registry, modelled in Dafny

`WindowManager` keeps the windows of a Cocoa application in a dictionary.
The dictionary `activeWindows` maps an identifier string to an
`NSWindowController`. A counter `uniqueId` mints identifiers of the form
`WINDOW_<n>`. This model covers the registry's operations:

- minting (`newId`);
- registering under the conflict policy (`add`);
- removal by key (`remove(with:)`), by window reference (`remove(_:)`) and of the key window (`removeKeyWindow`);
- the key-window scan (`getKeyWindow`);
- showing (`show`, private `show(_ window:)`);
- both forms of `create`.

Files:

- `options.dfy`: `Option`, the model of Swift optionals.
- `window_ids.dfy`: module `WindowIds`. It holds the decimal formatting of the counter and its inverse. It proves that minted identifiers are injective in the counter, so any run of `newId` yields pairwise distinct identifiers.
- `window_manager.dfy`: module `WindowManagement`.
  - `Window` and `Controller` are opaque handles for `NSWindow` and `NSWindowController`. A window has an identifier, an `isKey` flag, and ghost `closed` and `shown` flags that record the toolkit calls the registry makes.
  - `WindowManager` is a class with the two fields `activeWindows` and `uniqueId`. Each method's `modifies` clause names the fields and handles the source operation may touch, and its `ensures` say which of them change and how.
- `window_scenarios.dfy`: module `WindowScenarios`. This client code calls the registry's operations in the situations its callers meet. Each method's `ensures` follows from the operations' contracts alone.

Points where the code behaves unexpectedly:

- The public `create` does not register a window. The private `create` (lines 114-127) mints an identifier and tags a window with it. It then returns a different, freshly constructed `NSWindow()`. The force-unwrap at line 31 therefore traps. `Create` models this: the counter advances by one, the dictionary is unchanged, and the outcome is `Trapped`.
- `add` never re-tags the window. A window stored under a minted key keeps its own identifier, which may be nil.
  - `remove(_:)` goes by the window's own identifier. It can therefore miss the entry the window was stored under, or close and remove another window's entry (`RemoveReKeyedWindow`).
  - `show(id)` always acts on the window found under `id`. The private `show(_:)` it calls only checks that this window has an identifier of its own (line 130), so a window stored without one is never shown (`UntaggedWindowIsNeverShown`). The window's own identifier otherwise only chooses the `sender` argument of line 134, which the model drops.
  - A key need not equal its window's own identifier. It always does for entries whose own identifier was honoured (lines 50-52). Under a minted key it does only when the minted key happens to equal the window's own identifier (`MintedKeyOverwritesLiveEntry`).
- The minting branch of `add` never looks at the dictionary. A minted key can therefore equal the window's own identifier, or any other live key, and line 60 then overwrites that entry (`MintedKeyOverwritesLiveEntry`). Minted identifiers are pairwise distinct (`MintedPairwiseDistinct`). Live keys, however, are not always distinct from minted ones.

## Model

| member | source | states |
|---|---|---|
| `WindowIds.Decimal` | Sources/WindowManager/WindowManager.swift:138 | the interpolated counter is one or more digits, with no leading zero unless it is "0", and is a single digit exactly for values below ten |
| `WindowIds.DecimalRoundTrip` | Sources/WindowManager/WindowManager.swift:138 | reading the decimal form back gives the counter value it was written from |
| `WindowIds.DecimalInjective` | Sources/WindowManager/WindowManager.swift:138 | two counter values have the same decimal form if and only if they are equal |
| `WindowIds.MintedIndexOfMintedId` | Sources/WindowManager/WindowManager.swift:138 | "WINDOW_" + decimal(n) parses back to n, so the format loses nothing |
| `WindowIds.MintedIdInjective` | Sources/WindowManager/WindowManager.swift:137-141 | the identifiers for two counter values are equal if and only if the values are |
| `WindowIds.MintedUpTo` | Sources/WindowManager/WindowManager.swift:13-16 | the first n minted identifiers are n strings, the i-th formatted from i |
| `WindowIds.MintedPairwiseDistinct` | Sources/WindowManager/WindowManager.swift:13-16 | however many identifiers have been minted, no two of them are equal |
| `WindowIds.PendingShrinks` | Sources/WindowManager/WindowManager.swift:54-57 | when the identifier for n is live, fewer live keys lie at or beyond n + 1 than at or beyond n (the measure that bounds `AddFresh`) |
| `WindowManagement.WindowManager.constructor` | Sources/WindowManager/WindowManager.swift:11-22 | a new registry has no entries and its counter at zero |
| `WindowManagement.WindowManager.NewId` | Sources/WindowManager/WindowManager.swift:137-141 | returns "WINDOW_" + the counter before the call, leaves the counter exactly one larger, and the id differs from every id minted before |
| `WindowManagement.WindowManager.Add` | Sources/WindowManager/WindowManager.swift:46-62 | a free own identifier is the key, nil is returned and the counter is unchanged; otherwise exactly one id is minted, it is the key and is returned; the key maps to a new, open controller of the window and every other key keeps its entry |
| `WindowManagement.WindowManager.RemoveWith` | Sources/WindowManager/WindowManager.swift:65-69 | exactly the key `id` is gone, every other entry and the counter are unchanged, and the removed controller and its window have been closed; an absent id changes nothing |
| `WindowManagement.WindowManager.Remove` | Sources/WindowManager/WindowManager.swift:72-78 | a window without an identifier changes nothing; otherwise the effect is that of `RemoveWith` on the window's own identifier, not on the key it is stored under |
| `WindowManagement.WindowManager.GetKeyWindow` | Sources/WindowManager/WindowManager.swift:90-103 | a non-nil result is key and is the window of some entry; nil only when no entry's window is key; the registry is not modified |
| `WindowManagement.WindowManager.RemoveKeyWindow` | Sources/WindowManager/WindowManager.swift:81-87 | with no key window the registry is unchanged; otherwise a key window of some entry is removed by its own identifier, as `Remove` does; no handle outside the removed entry is closed |
| `WindowManagement.WindowManager.Show` | Sources/WindowManager/WindowManager.swift:106-112 | the window under `id` is shown exactly when the entry exists, holds a window and that window has an identifier; otherwise nothing changes; the dictionary and counter never change |
| `WindowManagement.WindowManager.ShowWindow` | Sources/WindowManager/WindowManager.swift:129-135 | a window is brought to the front exactly when it carries an identifier |
| `WindowManagement.WindowManager.MakeWindow` | Sources/WindowManager/WindowManager.swift:114-127 | mints one id and returns a fresh window that carries no identifier |
| `WindowManagement.WindowManager.Create` | Sources/WindowManager/WindowManager.swift:25-41 | the call traps: the counter has advanced by one and the dictionary is unchanged |
| `WindowManagement.WindowManager.MakeWindowCorrected` | Sources/WindowManager/WindowManager.swift:114-127 | mints one id and returns a fresh window tagged with it |
| `WindowManagement.WindowManager.AddFresh` | Sources/WindowManager/WindowManager.swift:46-62 | the policy of `Add`, but the minted key is the first one not live, so the key is always new and no entry is overwritten |
| `WindowManagement.WindowManager.CreateCorrected` | Sources/WindowManager/WindowManager.swift:25-41 | returns a key that was not live and now holds a new controller of a fresh window tagged with the minted id; other entries are unchanged; the window is shown exactly when `shouldShow`; the counter advances |
| `WindowScenarios.FirstMintedIds` | Sources/WindowManager/WindowManager.swift:138 | counter values 0 and 1 give "WINDOW_0" and "WINDOW_1" |
| `WindowScenarios.HonorThenOverride` | Sources/WindowManager/WindowManager.swift:46-62 | a free identifier is honoured; a colliding one is stored under "WINDOW_0", which is returned, while the window keeps its own tag |
| `WindowScenarios.MintedKeyOverwritesLiveEntry` | Sources/WindowManager/WindowManager.swift:54-60 | a live "WINDOW_0" entry is replaced by a colliding window whose minted key equals its own identifier |
| `WindowScenarios.FreshKeyKeepsLiveEntry` | Sources/WindowManager/WindowManager.swift:54-60 | through `AddFresh` the same calls keep both windows, under "WINDOW_0" and "WINDOW_1" |
| `WindowScenarios.RemoveReKeyedWindow` | Sources/WindowManager/WindowManager.swift:72-78 | removing a re-keyed window by reference closes and removes the other window's entry and keeps its own |
| `WindowScenarios.ShowRemoveRoundTrip` | Sources/WindowManager/WindowManager.swift:65-112 | add, show, remove, remove again and show again leave the registry empty, the window shown and closed |
| `WindowScenarios.UntaggedWindowIsNeverShown` | Sources/WindowManager/WindowManager.swift:129-135 | a window added without an identifier is stored under "WINDOW_0" but showing that key does not show it |
| `WindowScenarios.ThreeWindows` | Sources/WindowManager/WindowManager.swift:46-62 | three windows with free identifiers are stored under those identifiers |
| `WindowScenarios.KeyWindowFound` | Sources/WindowManager/WindowManager.swift:90-103 | with exactly one key window registered, the scan returns it |
| `WindowScenarios.KeyWindowRemoved` | Sources/WindowManager/WindowManager.swift:81-87 | with exactly one key window registered, removing the key window drops exactly its entry and closes it, and the other two windows stay open |
| `WindowScenarios.DistinctAcrossRemoval` | Sources/WindowManager/WindowManager.swift:137-141 | ids minted before and after a removal are "WINDOW_0" and "WINDOW_1": the counter does not go back |
| `WindowScenarios.CreateTraps` | Sources/WindowManager/WindowManager.swift:25-41 | `create` on a new registry traps, leaving no entry and the counter at one |
| `WindowScenarios.CreateCorrectedTwice` | Sources/WindowManager/WindowManager.swift:114-127 | two corrected creations register two windows under "WINDOW_0" and "WINDOW_1", the first shown |

## Left out

- Logging: the `WindowLogger` protocol, the `logger` field and every `logger?.log` call (lines 4-6, 20 and the message sites). The messages are diagnostics only and change no state.
- The `delegate` and `root` parameters of `create`. Binding a delegate and a content view controller are toolkit calls whose only registry-visible effect is the no-delegate log message.
- Cocoa behaviour: constructing `NSWindow` and `NSWindowController`, `close()`, and `makeKeyAndOrderFront`. These become ghost `closed` and `shown` flags. How the toolkit decides `isKeyWindow` is also left out: `isKey` is a field the registry only reads. `show` does not set `isKey`.
- `Controller.window` is a constant. The registry never reassigns a controller's window, and changes the toolkit might make are not modelled.
- The `static let shared` singleton and the private initialiser (lines 9, 22). The model constructs one registry explicitly.
- Concurrency. The source is single-threaded UI code with no locking.
- `WindowManagement.WindowManager.GetKeyWindow`: does not say which window is returned when several are key. Swift's dictionary iteration order is unspecified, and the model picks keys in an arbitrary order.
- `WindowManagement.WindowManager.NewId`: does not model the runtime trap of `uniqueId += 1` when the 64-bit `UInt` counter is at its maximum. The counter is an unbounded `nat`.
- `WindowManagement.WindowManager.Add`, and with it `AddFresh`, `RemoveWith`, `Remove`, `RemoveKeyWindow` and `Show`: identifiers are compared code point by code point, as Dafny strings. Swift's `String` equality and dictionary hashing treat canonically equivalent strings as equal (for example "\u{E9}" and "e\u{301}"). The contracts therefore match the source only for identifiers written in one Unicode normal form.
- `Package.swift` is a build manifest with no logic and is not part of this model.

## Findings

| source | as written | input that shows it | evidently intended | confidence | as-written member | corrected member |
|---|---|---|---|---|---|---|
| Sources/WindowManager/WindowManager.swift:126 | the private `create` tags one window and returns a new untagged `NSWindow()`, so the force-unwrap at line 31 traps on every call of the public `create` | any call of `create(delegate:root:shouldShow:)` | return the tagged window, register it, and return the key it is stored under | high; not executed | `WindowManagement.WindowManager.Create` | `WindowManagement.WindowManager.CreateCorrected` |
| Sources/WindowManager/WindowManager.swift:54-60 | the minting branch of `add` takes `newId()` without checking the dictionary, so line 60 can overwrite a live entry, which then leaves the registry without being closed | on a new registry, `add` a window tagged "WINDOW_0", then `add` another window tagged "WINDOW_0" | the minted identifier is not a live key (the comment at lines 43-45 and the counter's comment at lines 13-15) | medium; not executed | `WindowScenarios.MintedKeyOverwritesLiveEntry` | `WindowManagement.WindowManager.AddFresh` |
