# k9s skin styles, modelled in Dafny

This project models the theming core of k9s, a terminal UI for Kubernetes:
`internal/config/styles.go`. It covers four parts:

- **Colour tokens.** A colour is a text token. It resolves to a terminal colour in three steps: first the reserved token `"default"`, then the terminal library's table of colour names, and last the library's generic parser. A palette (`Colors`) resolves element by element (module `ColorResolution`, file `colors.dfy`).
- **The skin tree.** `Style` is a fixed tree of groups: body, frame (title, border, menu, crumbs, status), info, and views (table with header, x-ray, charts, yaml, logs). The `new*` builders produce the default skin. The model proves that every colour of the default skin is set, and it states some values of the default skin (module `Skin`, file `skin.dfy`).
- **The listener registry.** Listeners are kept in an ordered list. Adding appends. Removing splices out the first registration, or does nothing. The pure list operations are in module `Registry` (file `registry.dfy`).
- **The `Styles` object.** This object holds the active tree and the listeners. Reset, default-skin, load and update change it in place, and notification walks the registry (class `Theme.Styles`, file `theme.dfy`).

The code around this core is taken as parameters:

- **Terminal library.** Its default colour, its name table and its parser are one `Terminal` value.
- **Listener callbacks.** Listeners are identified by number. A callback `l.StylesChanged(s)` is recorded in the `notified` trace as `Notification(l, s, tree)`, where tree is the style tree `s` holds at the time of the call.
- **Load.** `Load` receives the file read's result and the document decoder.

Behaviour of the code worth noting:

- **Decode failure.** The decoder writes straight into the live `Styles` object (line 453). So a decode error returns with the tree as the decoder left it. Nothing rolls the tree back. `Load` is stated that way: the decoder yields a tree and, separately, an optional failure.
- **The transparent token `"-"`.** Nothing in this file treats `"-"` specially. It resolves through the name table and the parser like any other name (`TransparentIsNotReserved`).
- **Reset and default skin.** Neither one notifies listeners. Only `Load` (after a successful read and decode) and `Update` do.
- **Completeness of the active tree.** Every colour being set is proved for the default tree, so it holds after the constructor, `Reset` and `DefaultSkin`. `Load` does not keep it: it installs whatever tree the decoder leaves, and a skin document may set a colour to the empty token (`fgColor: ""`). So `Styles` has no completeness invariant.
- **Removing a listener.** Removal takes out one registration. A listener that is registered twice is still notified, once, after one removal (`TwiceRegisteredStillNotified`). "Never notified after removal" holds only for a listener that is registered once (`RemovedListenerNotNotified`).

## Model

| member | source | states |
|---|---|---|
| ColorResolution.NewColor | internal/config/styles.go:172-175 | wrapping a text gives a colour whose text is that text again |
| ColorResolution.Color.String | internal/config/styles.go:177-180 | the text of a colour rebuilds that same colour |
| ColorResolution.ColorRoundTrip | internal/config/styles.go:172-180 | `NewColor(c.String()) == c` for every colour |
| ColorResolution.Color.Resolve | internal/config/styles.go:182-191 | the precedence rule: `"default"` gives the library's default colour; any other token in the name table gives its table entry; only the rest go to the generic parser |
| ColorResolution.DefaultIgnoresNameTable | internal/config/styles.go:184-186 | `"default"` resolves the same under any two terminals with the same default colour, whatever their name tables hold (even an entry for "default") |
| ColorResolution.NameTableShadowsParser | internal/config/styles.go:187-189 | a named token other than `"default"` resolves to its table entry, alike under any two terminals sharing default and name table, whatever their parsers |
| ColorResolution.ParserOnlyForUnnamed | internal/config/styles.go:183-190 | two terminals that differ only in their parsers resolve a colour differently only when it is neither `"default"` nor a table name and the parsers differ on it |
| ColorResolution.TransparentIsNotReserved | internal/config/styles.go:168-191 | `"-"` has no rule of its own: table entry if named, otherwise the parser's result |
| ColorResolution.ResolveAll | internal/config/styles.go:193-200 | the result has the palette's length and its i-th entry is the resolution of the i-th token (empty in, empty out) |
| Skin.NewStyle | internal/config/styles.go:202-209 | the default tree is complete: every colour token of every group is non-empty and both default chart palettes are non-empty lists of non-empty tokens |
| Skin.NewCharts | internal/config/styles.go:211-219 | default chart colours are complete; the per-resource palettes are the one field left empty |
| Skin.NewViews | internal/config/styles.go:220-228 | default views are complete |
| Skin.NewFrame | internal/config/styles.go:230-238 | default frame is complete |
| Skin.NewBody | internal/config/styles.go:240-246 | default body colours are all set |
| Skin.NewStatus | internal/config/styles.go:248-258 | default status colours are all set |
| Skin.NewLog | internal/config/styles.go:260-266 | default log colours are all set |
| Skin.NewYaml | internal/config/styles.go:268-275 | default yaml colours are all set |
| Skin.NewTitle | internal/config/styles.go:277-286 | default title colours are all set |
| Skin.NewInfo | internal/config/styles.go:288-294 | default info colours are all set |
| Skin.NewXray | internal/config/styles.go:296-305 | default x-ray colours are all set and icons are shown |
| Skin.NewTable | internal/config/styles.go:307-316 | default table colours, header included, are all set |
| Skin.NewTableHeader | internal/config/styles.go:318-325 | default table-header colours are all set |
| Skin.NewCrumb | internal/config/styles.go:327-334 | default crumb colours are all set |
| Skin.NewBorder | internal/config/styles.go:336-342 | default border colours are all set |
| Skin.NewMenu | internal/config/styles.go:344-351 | default menu colours are all set |
| Skin.DefaultSkinValues | internal/config/styles.go:202-351 | default body fg `cadetblue`, bg `black`, border `dodgerblue`/focus `lightskyblue`, x-ray icons on, both chart palettes `[palegreen, orangered]`, chart background `"default"`, no per-resource palettes |
| Registry.IndexOf | internal/config/styles.go:387-393 | the search for the victim: -1 exactly when the listener is absent; otherwise a position holding it with no earlier occurrence |
| Registry.RemoveFirst | internal/config/styles.go:385-398 | removal: unchanged when absent; otherwise one shorter, with exactly one occurrence of the listener taken out of the multiset |
| Registry.RemoveFirstIsSplice | internal/config/styles.go:394-397 | removal is the prefix before the first occurrence followed by the suffix after it, so the others keep their order |
| Registry.RemoveAfterAddFresh | internal/config/styles.go:380-398 | removing a listener just added that was not registered before restores the list |
| Registry.RemoveAfterAddPresent | internal/config/styles.go:380-398 | when it was already registered, removal after adding takes out the earlier registration and keeps the new one last |
| Registry.RemoveFirstCount | internal/config/styles.go:385-398 | one removal lowers the listener's registration count by one; a listener registered once is gone |
| Theme.Notifications | internal/config/styles.go:400-404 | a notification round makes one call per registry entry, in registry order, each with the same receiver and tree |
| Theme.NotifiesEachRegistration | internal/config/styles.go:400-404 | the listeners reached by a round are exactly the registry, in order, duplicates included |
| Theme.NotificationsAppend | internal/config/styles.go:400-404 | notifying a concatenated registry is notifying each part in turn |
| Theme.RemovedListenerNotNotified | internal/config/styles.go:385-404 | a listener registered once and then removed is not reached by later rounds |
| Theme.TwiceRegisteredStillNotified | internal/config/styles.go:380-404 | in any registry holding a listener twice, after one removal a notification round reaches that listener exactly once |
| Theme.Styles.constructor | internal/config/styles.go:353-358 | a new Styles holds the complete default tree, no listeners and no calls made |
| Theme.Styles.Reset | internal/config/styles.go:360-363 | the tree becomes the default tree (so a second reset changes nothing); listeners kept, nobody notified |
| Theme.Styles.DefaultSkin | internal/config/styles.go:365-368 | same as Reset: default tree, listeners kept, nobody notified |
| Theme.Styles.AccessorsProjectTree | internal/config/styles.go:370-444 | the accessors Body, Frame, Crumb, Title, Charts, Table, Xray and Views are plain projections of the one active tree (Body/Frame/Views with info rebuild it; Crumb and Title are sub-groups of Frame, Charts/Table/Xray of Views), and FgColor/BgColor resolve the body's tokens |
| Theme.Styles.DefaultAccessors | internal/config/styles.go:370-444 | on the default tree each accessor (Body, Frame, Crumb, Title, Charts, Table, Xray, Views) yields the default group, and FgColor/BgColor resolve as `cadetblue`/`black` do |
| Theme.Styles.AddListener | internal/config/styles.go:380-383 | the listener is appended; earlier entries and their order kept; duplicates allowed |
| Theme.Styles.RemoveListener | internal/config/styles.go:385-398 | the registry becomes `RemoveFirst` of the old one (the search loop finds the first match; nothing changes when there is none) |
| Theme.Styles.FireStylesChanged | internal/config/styles.go:400-404 | the trace grows by exactly one round of notifications over the registry; tree and registry unchanged |
| Theme.Styles.Load | internal/config/styles.go:446-459 | read error: returned, nothing changes; decode error: returned, tree as the decoder left it, nobody notified; read and decode both succeed exactly when it returns Pass, and then the tree is the decoded tree and one notification round is made |
| Theme.Styles.Update | internal/config/styles.go:461-469 | the renderer gets background, foreground and border/focus colours resolved from the tree, then one notification round |
| Theme.RegistrationScenario | internal/config/styles.go:380-398 | adding 1, 2, 1, removing 1 and then an unregistered 7 leaves `[2, 1]` |

## Left out

- Reading the skin file and the path of the skin file (`K9sStylesFile`) are file-system I/O. `Load` takes the read's result as a parameter.
- YAML decoding is the YAML library's job, including its field-by-field merge onto the existing tree and its partial writes on a type error. `Load` takes the decoder as a function from bytes and the current tree to a resulting tree and an optional failure. Field-by-field merging is therefore a property of that library, not of this file.
- `Update` writes into the rendering library's global styles. The model returns those five colours as a `RendererColors` record instead of writing globals.
- The terminal library's name table and parser are abstract parameters (`Terminal`). So is the numeric width of its colours: `TermColor` is an unbounded integer.
- Listener callback bodies are not modelled. So a listener that adds or removes listeners while it is being notified is not modelled either. The same goes for the in-place reuse of the slice's backing array by the removal splice, which another slice sharing that array would observe.
- The per-resource chart palettes (`ResourceColors`) are only filled by the decoder. The default tree has none: the source leaves the map nil, and the model uses the empty map.
- Listeners are numbers, so a panic from comparing listeners (interface values of a non-comparable dynamic type) or from a callback is not modelled; a notification round always completes, and `Load` and `Update` always return.
- Concurrency: the subsystem has none of its own. Callers' locking is not modelled.
