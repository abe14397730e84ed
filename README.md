# Context-menu button: menu-state bookkeeping

A Dafny model of the state kept by `RNIContextMenuButtonContent`, the iOS
button view of react-native-ios-context-menu that shows a native context
menu described by the host (JavaScript) layer. The model covers:

- the **deferred-element completion table**, mapping the identifier of a
  lazily loaded menu element to the one-shot completion handler the native
  menu system handed over when it asked for that element's contents:
  registering a request, resolving it from the host, and dropping orphaned
  entries when a new configuration arrives;
- the **`menuConfig` prop setter**, which fails soft to "no configuration"
  on bad input;
- the **guarded commands** `presentMenu` and `dismissMenu`, and the
  **command dispatcher** the host layer calls;
- the **flags and the tap recognizer**: the once-only setup, the
  primary-action setup, taps and menu-item presses.

Layout:

- `wrappers.dfy` (`Wrappers`): Swift optionals.
- `menu_errors.dfy` (`MenuErrors`): the errors the button throws, and the
  `Result`/`Outcome` values that stand for `throws`.
- `menu_model.dfy` (`MenuModel`): the parsed configuration as a tree of
  actions, submenus and deferred elements; the identifiers of its deferred
  elements; the orphan test.
- `bridge_values.dfy` (`BridgeValues`): values that cross the bridge, the
  typed dictionary reads the dispatcher makes, and the `compactMap` that
  drops raw menu elements that are not dictionaries.
- `deferred_registry.dfy` (`DeferredRegistry`): what each operation does to
  the completion table, as functions, and the proof that completion
  handlers are one-shot over any run.
- `context_menu_button.dfy` (`ContextMenuButton`): the view as a class
  `ButtonContent`. Its fields are the flags, the table and the
  configuration. It also keeps logs of dispatched events, of calls on the
  native interaction and (ghost) of handler invocations. The methods that
  change the completion table are proved against the `DeferredRegistry`
  functions. `PresentMenu` and `DismissMenu` are proved against the
  functions `PresentOutcome`, `PresentCalls`, `DismissOutcome` and
  `DismissCalls`, which
  the command dispatcher's contract also uses. The setup methods and the tap
  handler state their new state directly.

Inputs of the model:

- the platform check `#available(iOS 14.0, *)` is the constant field
  `isAvailableIOS14`;
- `contextMenuInteraction` and `isContextMenuVisible` are fields that the
  platform sets; the native delegate callbacks that toggle visibility are
  not part of this file;
- the parsers of configurations and of menu elements are function
  parameters `parse`;
- whether the private interaction wrapper can be built, and whether
  presenting through it succeeds, are fields of the `Interaction` value.

Notes on the code's behaviour:

- `dismissMenu` never reads `isContextMenuVisible`. Dismissing while hidden
  fails only below iOS 14 or when the interaction is missing.
- The prop setter updates the visible menu first and cleans up orphans
  second.
- "Every key of the completion table names a deferred element of the
  current configuration" holds only right after a configuration is
  accepted (`SetMenuConfigProp` proves it then). A rejected configuration
  sets the configuration to nil and keeps the table. A deferred element
  nested in elements the host provides registers an identifier that is not
  in the configuration.

## Model

| member | source | states |
|---|---|---|
| `MenuModel.DeferredIDsComplete` | ios/RNIContextMenuButton/RNIContextMenuButtonContent.swift:482-492 | an identifier is among the collected deferred IDs exactly when the configuration tree has a deferred element carrying it |
| `MenuModel.IsOrphan` | ios/RNIContextMenuButton/RNIContextMenuButtonContent.swift:488-492 | a key is orphaned exactly when no deferred element of the configuration carries it |
| `BridgeValues.GetString` | ios/RNIContextMenuButton/RNIContextMenuButtonContent.swift:677-678 | reading `id` succeeds exactly when the key holds a string, and returns that string; otherwise it fails naming the key |
| `BridgeValues.GetArray` | ios/RNIContextMenuButton/RNIContextMenuButtonContent.swift:680-681 | reading `menuElements` succeeds exactly when the key holds an array, and returns it; otherwise it fails naming the key |
| `BridgeValues.CompactMenuElements` | ios/RNIContextMenuButton/RNIContextMenuButtonContent.swift:683-689 | the result is no longer than the input, and every element in it was parsed from a dictionary entry of the input |
| `BridgeValues.CompactMenuElementsAppend` | ios/RNIContextMenuButton/RNIContextMenuButtonContent.swift:683-689 | compacting a concatenation compacts each part in order |
| `BridgeValues.CompactMenuElementsDropsNonDictionaries` | ios/RNIContextMenuButton/RNIContextMenuButtonContent.swift:684-686 | entries that are not dictionaries yield no elements |
| `BridgeValues.CompactMenuElementsKeepsParsedDictionaries` | ios/RNIContextMenuButton/RNIContextMenuButtonContent.swift:683-689 | when every dictionary parses, the result is exactly the parsed dictionaries, in order |
| `DeferredRegistry.Register` | ios/RNIContextMenuButton/RNIContextMenuButtonContent.swift:429-430 | afterwards `id` maps to the new handler, replacing any earlier one; the key set grows by `id` alone; every other entry is unchanged |
| `DeferredRegistry.Resolve` | ios/RNIContextMenuButton/RNIContextMenuButtonContent.swift:536-560 | an unknown `id` is an error; otherwise the stored handler is invoked once with the elements, `id` is removed and every other entry is kept |
| `DeferredRegistry.PruneOrphans` | ios/RNIContextMenuButton/RNIContextMenuButtonContent.swift:478-498 | every surviving key names a deferred element of the new configuration; every key that does survives with its handler; no key is added; an empty table stays as it is |
| `DeferredRegistry.ResolveTwiceFails` | ios/RNIContextMenuButton/RNIContextMenuButtonContent.swift:557-560 | after a successful resolution, resolving the same identifier again fails |
| `DeferredRegistry.StepKeepsOneShot` | ios/RNIContextMenuButton/RNIContextMenuButtonContent.swift:425-560 | one request, resolution or reconfiguration keeps pending handlers distinct and never invoked, and never invokes a handler twice |
| `DeferredRegistry.HandlersAreOneShot` | ios/RNIContextMenuButton/RNIContextMenuButtonContent.swift:536-560 | over any run that starts with an empty table and gives each request a new handler, no completion handler is invoked more than once |
| `ContextMenuButton.DeferredRequestPayload` | ios/RNIContextMenuButton/RNIContextMenuButtonContent.swift:433-438 | the request event's payload is exactly `{deferredID: id}` |
| `ContextMenuButton.DecodeCommand` | ios/RNIContextMenuButton/RNIContextMenuButtonContent.swift:655-707 | arguments that are not a dictionary are rejected first, then unknown command names; the two menu commands always decode; `provideDeferredElements` fails on a bad `id` before a bad `menuElements` and otherwise carries the compacted elements; a decoded command has the requested name |
| `ContextMenuButton.AcceptedConfig` | ios/RNIContextMenuButton/RNIContextMenuButtonContent.swift:82-89 | a prop yields a configuration exactly when it is a non-empty dictionary that parses |
| `ContextMenuButton.ButtonContent.constructor` | ios/RNIContextMenuButton/RNIContextMenuButtonContent.swift:45-122 | a new view is not set up, has an empty table, no configuration, the menu enabled, not primary, not visible, no press and no tap recognizer |
| `ContextMenuButton.ButtonContent.SetupMenuPrimaryAction` | ios/RNIContextMenuButton/RNIContextMenuButtonContent.swift:214-239 | on iOS 14 and later the tap recognizer is present exactly when the menu is the primary action; an existing recognizer is kept; a new one needs one tap; below iOS 14 nothing changes |
| `ContextMenuButton.ButtonContent.SetupIfNeeded` | ios/RNIContextMenuButton/RNIContextMenuButtonContent.swift:138-175 | the view ends up set up and valid; a second call leaves the recognizer alone |
| `ContextMenuButton.ButtonContent.SetIsMenuPrimaryAction` | ios/RNIContextMenuButton/RNIContextMenuButtonContent.swift:116-122 | the flag takes the new value and the recognizer follows it; setting the same value changes nothing |
| `ContextMenuButton.ButtonContent.UpdateContextMenuIfVisible` | ios/RNIContextMenuButton/RNIContextMenuButtonContent.swift:399-411 | the shown menu is swapped for the new configuration exactly when on iOS 14 and later, visible, and an interaction exists |
| `ContextMenuButton.ButtonContent.NotifyOnMenuElementUpdateRequest` | ios/RNIContextMenuButton/RNIContextMenuButtonContent.swift:732-735 | the shown menu is rebuilt from the current configuration under the same conditions, and not at all without a configuration |
| `ContextMenuButton.ButtonContent.CleanupOrphanedDeferredElements` | ios/RNIContextMenuButton/RNIContextMenuButtonContent.swift:478-498 | the removal loop leaves exactly the pruned table |
| `ContextMenuButton.ButtonContent.SetMenuConfigProp` | ios/RNIContextMenuButton/RNIContextMenuButtonContent.swift:80-107 | bad input clears the configuration and leaves the table, the native menu and the interaction alone; good input updates the visible menu, prunes the table so that every key names a deferred element of the new configuration, stores it, and on iOS 14 and later rebuilds the native menu |
| `ContextMenuButton.ButtonContent.HandleOnPressMenuActionItem` | ios/RNIContextMenuButton/RNIContextMenuButtonContent.swift:413-423 | the press flag is set and exactly one press event with the action's dictionary is appended |
| `ContextMenuButton.ButtonContent.HandleOnDeferredElementRequest` | ios/RNIContextMenuButton/RNIContextMenuButtonContent.swift:425-439 | the table is the old one with `id` registered to the handler, and exactly one request event with payload `{deferredID: id}` is appended |
| `ContextMenuButton.ButtonContent.ProvideDeferredElements` | ios/RNIContextMenuButton/RNIContextMenuButtonContent.swift:531-561 | an unknown identifier fails and changes neither the table nor the invocation log; otherwise the stored handler is invoked exactly once and its entry alone is removed, so that an immediate second call fails |
| `ContextMenuButton.ReplyOf` | ios/RNIContextMenuButton/RNIContextMenuButtonContent.swift:669-710 | a command resolves, with an empty dictionary, exactly when its operation succeeded, and otherwise rejects with that operation's error |
| `ContextMenuButton.ButtonContent.SetIsContextMenuEnabled` | ios/RNIContextMenuButton/RNIContextMenuButtonContent.swift:109-114 | the enabled flag takes the new value |
| `ContextMenuButton.ButtonContent.PresentOutcome` | ios/RNIContextMenuButton/RNIContextMenuButtonContent.swift:563-602 | the guards fail in order with their own errors (unsupported, disabled, already visible, no interaction, no wrapper); once all pass, the result is that of presenting through the wrapper |
| `ContextMenuButton.ButtonContent.PresentCalls` | ios/RNIContextMenuButton/RNIContextMenuButtonContent.swift:592-601 | at most one interaction call, a presentation at the origin, made exactly when the four guards pass and the wrapper can be built |
| `ContextMenuButton.ButtonContent.DismissOutcome` | ios/RNIContextMenuButton/RNIContextMenuButtonContent.swift:513-529 | below iOS 14 `dismissMenu` fails as unsupported, then without an interaction as missing it; otherwise it succeeds, whatever the visibility |
| `ContextMenuButton.ButtonContent.DismissCalls` | ios/RNIContextMenuButton/RNIContextMenuButtonContent.swift:521-528 | one dismissal call, made exactly on iOS 14 and later with an interaction |
| `ContextMenuButton.ButtonContent.PresentMenu` | ios/RNIContextMenuButton/RNIContextMenuButtonContent.swift:563-602 | the outcome is `PresentOutcome` and the calls made are exactly `PresentCalls`; nothing else, in particular neither visibility nor the table, is changed |
| `ContextMenuButton.ButtonContent.DismissMenu` | ios/RNIContextMenuButton/RNIContextMenuButtonContent.swift:513-529 | the outcome is `DismissOutcome` and the calls made are exactly `DismissCalls`; visibility is not read or changed |
| `ContextMenuButton.ButtonContent.HandleTapGesture` | ios/RNIContextMenuButton/RNIContextMenuButtonContent.swift:445-454 | a finished tap requests presentation exactly when the menu is the primary action and every present guard passes; a failed present is swallowed |
| `ContextMenuButton.ButtonContent.NotifyOnViewCommandRequest` | ios/RNIContextMenuButton/RNIContextMenuButtonContent.swift:647-712 | a command that does not decode is rejected with its error and runs nothing; `presentMenu` makes exactly the present call `PresentCalls` gives and answers with `PresentOutcome`; `dismissMenu` makes exactly the calls `DismissCalls` gives and answers with `DismissOutcome`; `provideDeferredElements` takes the registry step and rejects with the missing-handler error exactly when the identifier is unknown; every answer is one resolution with an empty payload or one rejection carrying the operation's error |

## Left out

- UIKit sizing and styling (`intrinsicContentSize`, `sizeThatFits`, `layoutSubviews`, the `bounds` and `frame` overrides, `_removeButtonStyling`, and the view properties set in `_setupIfNeeded`). These are floating-point geometry and framework glue. Only the once-guard of `_setupIfNeeded` and its call to the primary-action setup are modelled.
- Parsing `RNIMenuItem(dictionary:)` and `RNIMenuElement(dictionary:)`: these libraries are not part of this model. They are the `parse` parameters, and a configuration is an abstract tree.
- Building native menus (`createMenu`, `createMenuElement`): the native menu is recorded as the configuration it was built from. The completion handler receives the parsed elements unchanged. In the code, `provideDeferredElements` passes them through a `compactMap` over `createMenuElement`, which can drop elements; the model does not capture that drop. The press and deferred handlers wired into new elements are not modelled; their effects are the `HandleOnPressMenuActionItem` and `HandleOnDeferredElementRequest` methods.
- `ContextMenuInteractionWrapper`, `updateVisibleMenu` and the interaction's `dismissMenu` are foreign UIKit calls. They appear as entries in a call log, and the wrapper's outcomes are given by the `Interaction` value.
- The `isContextMenuEnabled` observer's forwarding to UIKit's `isContextMenuInteractionEnabled` is a UIKit property. `SetIsContextMenuEnabled` only stores the flag.
- Parent view-controller attachment (`attachToParentVC`, `detachFromParentVCIfAny`, `notifyViewControllerDidPop`) and child view mounting are view-hierarchy work. `notifyDidSetProps` only calls `_setupIfNeeded`.
- Gesture recognizer objects, the long-press handler (a no-op), the transport of events to the host layer, and weak references are not modelled.
- The visibility transitions and the reset of `didPressMenuItem` happen in native delegate callbacks, which are not in this file.
- Errors are carried as values. The `localizedDescription` string given to the rejection block is not modelled, and neither is the error code of each error.
- Identifiers are compared character by character. Swift's `String` equality and dictionary lookup treat canonically equivalent identifiers (for example a precomposed and a decomposed accented letter) as one key; the model treats them as distinct. This affects the table write, the handler lookup and the orphan test (`Register`, `Resolve`, `PruneOrphans`, `IsOrphan`).
- `propKeyPathMap` is a reflection table for prop assignment. Each of the three props (`menuConfig`, `isContextMenuEnabled`, `isMenuPrimaryAction`) has a setter method instead.
