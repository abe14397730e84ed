/** The button view's menu-state bookkeeping: its current configuration, the
    deferred-element completion table, its flags, its tap recognizer, and the
    commands the host layer sends it. */
module ContextMenuButton {
  import opened Wrappers
  import opened MenuErrors
  import opened MenuModel
  import opened BridgeValues
  import opened DeferredRegistry

  /** The events the button declares. */
  datatype EventKind =
    | OnDidSetViewID
    | OnMenuWillShow | OnMenuWillHide | OnMenuWillCancel
    | OnMenuDidShow | OnMenuDidHide | OnMenuDidCancel
    | OnPressMenuItem
    | OnRequestDeferredElement

  /** An event sent to the host layer, with its payload dictionary. */
  datatype Event = Event(kind: EventKind, payload: map<string, Value>)

  /** The payload of a deferred-element request: `{deferredID: id}`. */
  function DeferredRequestPayload(id: string): (p: map<string, Value>)
    ensures p.Keys == {"deferredID"} && p["deferredID"] == Str(id)
  {
    map["deferredID" := Str(id)]
  }

  /** The native context-menu interaction. Whether the private wrapper can be
      built around it, and whether presenting through that wrapper succeeds,
      are decided by code outside this model and are given here. */
  datatype Interaction = Interaction(wrappable: bool, presentationSucceeds: bool)

  /** Calls the button makes on its native interaction. */
  datatype InteractionCall =
    | UpdateVisibleMenu(menu: MenuElement)
    | PresentMenuAtLocation(x: int, y: int)
    | Dismiss

  datatype TapRecognizer = TapRecognizer(numberOfTapsRequired: nat)

  datatype GestureState = Possible | Began | Changed | Ended | Cancelled | Failed

  /** A command from the host layer, once its name and arguments are read. */
  datatype Command =
    | PresentMenuCommand
    | DismissMenuCommand
    | ProvideDeferredElementsCommand(deferredID: string, menuElements: seq<MenuElement>)

  function CommandName(c: Command): string
  {
    match c
    case PresentMenuCommand => "presentMenu"
    case DismissMenuCommand => "dismissMenu"
    case ProvideDeferredElementsCommand(_, _) => "provideDeferredElements"
  }

  /** How the button answers a command: exactly one resolution or one rejection. */
  datatype CommandReply = Resolved(payload: map<string, Value>) | Rejected(error: MenuError)

  /** The answer to a command whose operation ended with `outcome`: resolve
      with an empty dictionary on success, reject with the thrown error. */
  function ReplyOf(outcome: Outcome): (r: CommandReply)
    ensures r.Resolved? <==> outcome.Pass?
    ensures r.Resolved? ==> r.payload == map[]
    ensures r.Rejected? ==> r.error == outcome.error
  {
    if outcome.Pass? then Resolved(map[]) else Rejected(outcome.error)
  }

  /** Reading a command: arguments that are not a string-keyed dictionary are
      rejected first, then an unknown name; `provideDeferredElements` needs a
      string `id` and an array `menuElements`, whose entries that are not
      dictionaries (or that `parse` rejects) are dropped. */
  function DecodeCommand(name: string, args: Value, parse: map<string, Value> -> Option<MenuElement>): (r: Result<Command>)
    ensures !args.Dict? ==> r == Failure(InvalidCommandArguments)
    ensures args.Dict? && name !in {"presentMenu", "dismissMenu", "provideDeferredElements"} ==>
              r == Failure(NoMatchingCommand(name))
    ensures r.Success? ==> args.Dict? && CommandName(r.value) == name
    ensures args.Dict? && name in {"presentMenu", "dismissMenu"} ==> r.Success?
    ensures args.Dict? && name == "provideDeferredElements" ==>
              match GetString(args.entries, "id")
              case Failure(e) => r == Failure(e)
              case Success(id) =>
                match GetArray(args.entries, "menuElements")
                case Failure(e) => r == Failure(e)
                case Success(raw) => r == Success(ProvideDeferredElementsCommand(id, CompactMenuElements(raw, parse)))
  {
    if !args.Dict? then Failure(InvalidCommandArguments)
    else if name == "presentMenu" then Success(PresentMenuCommand)
    else if name == "dismissMenu" then Success(DismissMenuCommand)
    else if name == "provideDeferredElements" then
      match GetString(args.entries, "id")
      case Failure(e) => Failure(e)
      case Success(id) =>
        match GetArray(args.entries, "menuElements")
        case Failure(e) => Failure(e)
        case Success(raw) => Success(ProvideDeferredElementsCommand(id, CompactMenuElements(raw, parse)))
    else Failure(NoMatchingCommand(name))
  }

  /** The configuration a `menuConfig` prop value yields: it must be a
      non-empty string-keyed dictionary that `parse` (the configuration
      initialiser, not modelled) accepts. */
  function AcceptedConfig(prop: Value, parse: map<string, Value> -> Option<MenuElement>): (r: Option<MenuElement>)
    ensures r.Some? <==> prop.Dict? && |prop.entries| > 0 && parse(prop.entries).Some?
    ensures r.Some? ==> parse(prop.entries) == r
  {
    if prop.Dict? && |prop.entries| > 0 then parse(prop.entries) else None
  }

  class ButtonContent {
    /** `#available(iOS 14.0, *)`: fixed for the life of the view. */
    const isAvailableIOS14: bool

    var didSetup: bool
    var completionMap: CompletionTable
    var menuConfigProp: Value
    var menuConfig: Option<MenuElement>
    /** The configuration the button's native `menu` was last built from. */
    var nativeMenu: Option<MenuElement>
    var isContextMenuEnabled: bool
    var isMenuPrimaryAction: bool
    var showsMenuAsPrimaryAction: bool
    /** Set by the native delegate callbacks, which are outside this model. */
    var isContextMenuVisible: bool
    var didPressMenuItem: bool
    var tapGestureRecognizer: Option<TapRecognizer>
    /** Provided by the platform; an input of this model. */
    var contextMenuInteraction: Option<Interaction>
    /** The events dispatched to the host layer, oldest first. */
    var events: seq<Event>
    /** The calls made on the native interaction, oldest first. */
    var interactionCalls: seq<InteractionCall>
    /** Every call of a completion handler, oldest first. */
    ghost var invocations: seq<Invocation>

    /** The tap recognizer is installed exactly when the menu is the primary
        action (and never below iOS 14), and the built-in primary-action menu
        is never used. */
    ghost predicate Valid()
      reads this
    {
      && (isAvailableIOS14 ==> (tapGestureRecognizer.Some? <==> isMenuPrimaryAction))
      && (!isAvailableIOS14 ==> tapGestureRecognizer.None? && nativeMenu.None?)
      && (tapGestureRecognizer.Some? ==> tapGestureRecognizer.value.numberOfTapsRequired == 1)
      && !showsMenuAsPrimaryAction
    }

    constructor (isAvailableIOS14: bool, contextMenuInteraction: Option<Interaction>)
      ensures Valid()
      ensures this.isAvailableIOS14 == isAvailableIOS14 && this.contextMenuInteraction == contextMenuInteraction
      ensures !didSetup && completionMap == map[] && menuConfig.None? && nativeMenu.None?
      ensures isContextMenuEnabled && !isMenuPrimaryAction && !isContextMenuVisible && !didPressMenuItem
      ensures tapGestureRecognizer.None? && events == [] && interactionCalls == [] && invocations == []
    {
      this.isAvailableIOS14 := isAvailableIOS14;
      this.contextMenuInteraction := contextMenuInteraction;
      didSetup := false;
      completionMap := map[];
      menuConfigProp := Other;
      menuConfig := None;
      nativeMenu := None;
      isContextMenuEnabled := true;
      isMenuPrimaryAction := false;
      showsMenuAsPrimaryAction := false;
      isContextMenuVisible := false;
      didPressMenuItem := false;
      tapGestureRecognizer := None;
      events := [];
      interactionCalls := [];
      invocations := [];
    }

    /** `_setupMenuPrimaryAction`: on iOS 14 and later, install a single-tap
        recognizer when the menu is the primary action (keeping one that is
        already there) and remove it otherwise. */
    method SetupMenuPrimaryAction()
      modifies this`tapGestureRecognizer, this`showsMenuAsPrimaryAction
      ensures !isAvailableIOS14 ==> tapGestureRecognizer == old(tapGestureRecognizer)
                                    && showsMenuAsPrimaryAction == old(showsMenuAsPrimaryAction)
      ensures isAvailableIOS14 ==> !showsMenuAsPrimaryAction
      ensures isAvailableIOS14 ==> (tapGestureRecognizer.Some? <==> isMenuPrimaryAction)
      ensures isAvailableIOS14 && isMenuPrimaryAction ==>
                tapGestureRecognizer == (if old(tapGestureRecognizer).Some? then old(tapGestureRecognizer) else Some(TapRecognizer(1)))
    {
      if !isAvailableIOS14 {
        return;
      }
      if isMenuPrimaryAction {
        showsMenuAsPrimaryAction := false;
        if tapGestureRecognizer.None? {
          tapGestureRecognizer := Some(TapRecognizer(1));
        }
      } else {
        if tapGestureRecognizer.Some? {
          tapGestureRecognizer := None;
        }
        showsMenuAsPrimaryAction := false;
      }
    }

    /** `_setupIfNeeded`: the first call marks the view as set up and sets up
        the primary action; later calls change nothing. */
    method SetupIfNeeded()
      requires Valid()
      modifies this`didSetup, this`tapGestureRecognizer, this`showsMenuAsPrimaryAction
      ensures Valid() && didSetup
      ensures old(didSetup) ==> tapGestureRecognizer == old(tapGestureRecognizer)
    {
      if didSetup {
        return;
      }
      didSetup := true;
      SetupMenuPrimaryAction();
    }

    /** The `isContextMenuEnabled` setter. Its observer's forwarding of the
        value to UIKit's own interaction flag is not modelled. */
    method SetIsContextMenuEnabled(value: bool)
      modifies this`isContextMenuEnabled
      ensures isContextMenuEnabled == value
    {
      isContextMenuEnabled := value;
    }

    /** The `isMenuPrimaryAction` setter, whose observer re-runs the
        primary-action setup. */
    method SetIsMenuPrimaryAction(value: bool)
      requires Valid()
      modifies this`isMenuPrimaryAction, this`tapGestureRecognizer, this`showsMenuAsPrimaryAction
      ensures Valid() && isMenuPrimaryAction == value
      ensures isAvailableIOS14 ==> (tapGestureRecognizer.Some? <==> value)
      ensures old(isMenuPrimaryAction) == value ==> tapGestureRecognizer == old(tapGestureRecognizer)
    {
      isMenuPrimaryAction := value;
      SetupMenuPrimaryAction();
    }

    /** `updateContextMenuIfVisible`: while the menu is shown on iOS 14 and
        later, swap the shown menu for one built from `config`. */
    method UpdateContextMenuIfVisible(config: MenuElement)
      modifies this`interactionCalls
      ensures interactionCalls == old(interactionCalls) +
                (if isAvailableIOS14 && isContextMenuVisible && contextMenuInteraction.Some?
                 then [UpdateVisibleMenu(config)] else [])
    {
      if isAvailableIOS14 && isContextMenuVisible && contextMenuInteraction.Some? {
        interactionCalls := interactionCalls + [UpdateVisibleMenu(config)];
      }
    }

    /** `notifyOnMenuElementUpdateRequest`: an element asked for a refresh;
        rebuild the shown menu from the current configuration, if any. */
    method NotifyOnMenuElementUpdateRequest()
      modifies this`interactionCalls
      ensures interactionCalls == old(interactionCalls) +
                (if menuConfig.Some? && isAvailableIOS14 && isContextMenuVisible && contextMenuInteraction.Some?
                 then [UpdateVisibleMenu(menuConfig.value)] else [])
    {
      if menuConfig.None? {
        return;
      }
      UpdateContextMenuIfVisible(menuConfig.value);
    }

    /** `cleanupOrphanedDeferredElements`: remove, one key at a time, every
        entry of the completion table whose identifier no longer names a
        deferred element of `currentMenuConfig`. */
    method CleanupOrphanedDeferredElements(currentMenuConfig: MenuElement)
      modifies this`completionMap
      ensures completionMap == PruneOrphans(old(completionMap), currentMenuConfig)
    {
      if |completionMap| == 0 {
        return;
      }
      var orphanedKeys := set k | k in completionMap && IsOrphan(k, currentMenuConfig);
      var remaining := orphanedKeys;
      while remaining != {}
        invariant remaining <= orphanedKeys
        invariant completionMap == old(completionMap) - (orphanedKeys - remaining)
        decreases remaining
      {
        var key :| key in remaining;
        completionMap := completionMap - {key};
        remaining := remaining - {key};
      }
      assert completionMap == PruneOrphans(old(completionMap), currentMenuConfig);
    }

    /** The `menuConfigProp` setter. A value that is not a non-empty
        dictionary, or that does not parse, clears the configuration and
        leaves everything else alone. Otherwise the shown menu (if any) is
        updated, orphaned completion handlers are dropped, the configuration
        is stored and, on iOS 14 and later, the native menu is rebuilt. */
    method SetMenuConfigProp(prop: Value, parse: map<string, Value> -> Option<MenuElement>)
      requires Valid()
      modifies this`menuConfigProp, this`menuConfig, this`nativeMenu, this`completionMap, this`interactionCalls
      ensures Valid() && menuConfigProp == prop
      ensures menuConfig == AcceptedConfig(prop, parse)
      ensures AcceptedConfig(prop, parse).None? ==>
                completionMap == old(completionMap) && nativeMenu == old(nativeMenu)
                && interactionCalls == old(interactionCalls)
      ensures AcceptedConfig(prop, parse).Some? ==>
                var config := AcceptedConfig(prop, parse).value;
                && completionMap == PruneOrphans(old(completionMap), config)
                && (forall k :: k in completionMap ==> HasDeferred(config, k))
                && nativeMenu == (if isAvailableIOS14 then Some(config) else old(nativeMenu))
                && interactionCalls == old(interactionCalls) +
                     (if isAvailableIOS14 && isContextMenuVisible && contextMenuInteraction.Some?
                      then [UpdateVisibleMenu(config)] else [])
      ensures Step(RegistryState(old(completionMap), invocations), Reconfigure(AcceptedConfig(prop, parse)))
              == RegistryState(completionMap, invocations)
    {
      var accepted := AcceptedConfig(prop, parse);
      if accepted.None? {
        menuConfig := None;
        menuConfigProp := prop;
        return;
      }
      var config := accepted.value;
      UpdateContextMenuIfVisible(config);
      CleanupOrphanedDeferredElements(config);
      menuConfig := Some(config);
      if isAvailableIOS14 {
        nativeMenu := Some(config);
      }
      menuConfigProp := prop;
    }

    /** `handleOnPressMenuActionItem`: record the press and forward the
        action's dictionary to the host layer. */
    method HandleOnPressMenuActionItem(dict: map<string, Value>)
      modifies this`didPressMenuItem, this`events
      ensures didPressMenuItem
      ensures events == old(events) + [Event(OnPressMenuItem, dict)]
    {
      didPressMenuItem := true;
      events := events + [Event(OnPressMenuItem, dict)];
    }

    /** `handleOnDeferredElementRequest`: store the completion handler under
        `deferredID`, replacing an earlier one, and ask the host layer for
        the elements. */
    method HandleOnDeferredElementRequest(deferredID: string, completion: Handler)
      modifies this`completionMap, this`events
      ensures completionMap == Register(old(completionMap), deferredID, completion)
      ensures events == old(events) + [Event(OnRequestDeferredElement, DeferredRequestPayload(deferredID))]
      ensures Step(RegistryState(old(completionMap), invocations), Request(deferredID, completion))
              == RegistryState(completionMap, invocations)
    {
      completionMap := completionMap[deferredID := completion];
      events := events + [Event(OnRequestDeferredElement, DeferredRequestPayload(deferredID))];
    }

    /** `provideDeferredElements`: an identifier with no pending handler is an
        error that changes nothing; otherwise the handler is called once with
        the elements and its entry removed. */
    method ProvideDeferredElements(deferredID: string, menuElements: seq<MenuElement>) returns (outcome: Outcome)
      modifies this`completionMap, this`invocations
      ensures deferredID !in old(completionMap) ==>
                outcome == Fail(NoDeferredHandler(deferredID))
                && completionMap == old(completionMap) && invocations == old(invocations)
      ensures deferredID in old(completionMap) ==>
                outcome == Pass
                && invocations == old(invocations) + [Invocation(old(completionMap)[deferredID], menuElements)]
      ensures Step(RegistryState(old(completionMap), old(invocations)), Provide(deferredID, menuElements))
              == RegistryState(completionMap, invocations)
      ensures deferredID !in completionMap
    {
      if deferredID !in completionMap {
        return Fail(NoDeferredHandler(deferredID));
      }
      var completionHandler := completionMap[deferredID];
      invocations := invocations + [Invocation(completionHandler, menuElements)];
      completionMap := completionMap - {deferredID};
      outcome := Pass;
    }

    /** `presentMenu`: the guards run in order (platform, enabled, not yet
        visible, interaction present, wrapper available); only when all pass
        is presentation at the origin requested. Visibility and the
        completion table are never changed here. */
    method PresentMenu() returns (outcome: Outcome)
      modifies this`interactionCalls
      ensures outcome == PresentOutcome() && interactionCalls == old(interactionCalls) + PresentCalls()
    {
      if !isAvailableIOS14 {
        return Fail(Unsupported);
      }
      if !isContextMenuEnabled {
        return Fail(Disabled);
      }
      if isContextMenuVisible {
        return Fail(AlreadyVisible);
      }
      if contextMenuInteraction.None? {
        return Fail(MissingInteraction);
      }
      var interaction := contextMenuInteraction.value;
      if !interaction.wrappable {
        return Fail(WrapperUnavailable);
      }
      interactionCalls := interactionCalls + [PresentMenuAtLocation(0, 0)];
      outcome := if interaction.presentationSucceeds then Pass else Fail(PresentationFailed);
    }

    /** What `presentMenu` ends with in the current state: the first failing
        guard's error, else the result of presenting through the wrapper. */
    function PresentOutcome(): (r: Outcome)
      reads this
      ensures !isAvailableIOS14 ==> r == Fail(Unsupported)
      ensures isAvailableIOS14 && !isContextMenuEnabled ==> r == Fail(Disabled)
      ensures isAvailableIOS14 && isContextMenuEnabled && isContextMenuVisible ==> r == Fail(AlreadyVisible)
      ensures isAvailableIOS14 && isContextMenuEnabled && !isContextMenuVisible && contextMenuInteraction.None? ==>
                r == Fail(MissingInteraction)
      ensures PresentGuardsPass() && !contextMenuInteraction.value.wrappable ==> r == Fail(WrapperUnavailable)
      ensures PresentGuardsPass() && contextMenuInteraction.value.wrappable ==>
                r == (if contextMenuInteraction.value.presentationSucceeds then Pass else Fail(PresentationFailed))
    {
      if !isAvailableIOS14 then Fail(Unsupported)
      else if !isContextMenuEnabled then Fail(Disabled)
      else if isContextMenuVisible then Fail(AlreadyVisible)
      else if contextMenuInteraction.None? then Fail(MissingInteraction)
      else if !contextMenuInteraction.value.wrappable then Fail(WrapperUnavailable)
      else if contextMenuInteraction.value.presentationSucceeds then Pass
      else Fail(PresentationFailed)
    }

    /** The interaction calls `presentMenu` makes in the current state: one
        presentation at the origin once every guard has passed. */
    function PresentCalls(): (r: seq<InteractionCall>)
      reads this
      ensures |r| <= 1
      ensures r != [] <==> PresentGuardsPass() && contextMenuInteraction.value.wrappable
      ensures forall c :: c in r ==> c == PresentMenuAtLocation(0, 0)
    {
      if PresentGuardsPass() && contextMenuInteraction.value.wrappable then [PresentMenuAtLocation(0, 0)] else []
    }

    /** What `dismissMenu` ends with in the current state. */
    function DismissOutcome(): (r: Outcome)
      reads this
      ensures !isAvailableIOS14 ==> r == Fail(Unsupported)
      ensures isAvailableIOS14 && contextMenuInteraction.None? ==> r == Fail(MissingInteraction)
      ensures isAvailableIOS14 && contextMenuInteraction.Some? ==> r == Pass
    {
      if !isAvailableIOS14 then Fail(Unsupported)
      else if contextMenuInteraction.None? then Fail(MissingInteraction)
      else Pass
    }

    /** The interaction calls `dismissMenu` makes in the current state: one
        dismissal once both guards have passed. */
    function DismissCalls(): (r: seq<InteractionCall>)
      reads this
      ensures r == [] || r == [Dismiss]
      ensures r != [] <==> isAvailableIOS14 && contextMenuInteraction.Some?
    {
      if isAvailableIOS14 && contextMenuInteraction.Some? then [Dismiss] else []
    }

    /** The first four guards of `presentMenu` all pass. */
    predicate PresentGuardsPass()
      reads this
    {
      isAvailableIOS14 && isContextMenuEnabled && !isContextMenuVisible && contextMenuInteraction.Some?
    }

    /** `dismissMenu`: fails only below iOS 14 or without an interaction;
        otherwise asks the interaction to dismiss. Visibility is neither read
        nor changed. */
    method DismissMenu() returns (outcome: Outcome)
      modifies this`interactionCalls
      ensures outcome == DismissOutcome() && interactionCalls == old(interactionCalls) + DismissCalls()
    {
      if !isAvailableIOS14 {
        return Fail(Unsupported);
      }
      if contextMenuInteraction.None? {
        return Fail(MissingInteraction);
      }
      interactionCalls := interactionCalls + [Dismiss];
      outcome := Pass;
    }

    /** `handleTapGesture`: a finished tap presents the menu when it is the
        primary action and not already shown; a failure is ignored. */
    method HandleTapGesture(state: GestureState)
      modifies this`interactionCalls
      ensures interactionCalls == old(interactionCalls) +
                (if state == Ended && isMenuPrimaryAction then PresentCalls() else [])
    {
      if !(isAvailableIOS14 && state == Ended && isMenuPrimaryAction && !isContextMenuVisible) {
        return;
      }
      var _ := PresentMenu();
    }

    /** `notifyOnViewCommandRequest`: read the command, run it, and answer
        with one resolution (an empty dictionary) or one rejection. */
    method NotifyOnViewCommandRequest(commandName: string, commandArguments: Value,
                                      parse: map<string, Value> -> Option<MenuElement>)
      returns (reply: CommandReply)
      modifies this`completionMap, this`invocations, this`interactionCalls
      ensures DecodeCommand(commandName, commandArguments, parse).Failure? ==>
                reply == Rejected(DecodeCommand(commandName, commandArguments, parse).error)
                && completionMap == old(completionMap) && invocations == old(invocations)
                && interactionCalls == old(interactionCalls)
      ensures reply.Resolved? ==> reply.payload == map[]
      ensures DecodeCommand(commandName, commandArguments, parse).Success? ==>
                match DecodeCommand(commandName, commandArguments, parse).value
                case PresentMenuCommand =>
                  completionMap == old(completionMap) && invocations == old(invocations)
                  && interactionCalls == old(interactionCalls) + PresentCalls()
                  && reply == ReplyOf(PresentOutcome())
                case DismissMenuCommand =>
                  completionMap == old(completionMap) && invocations == old(invocations)
                  && interactionCalls == old(interactionCalls) + DismissCalls()
                  && reply == ReplyOf(DismissOutcome())
                case ProvideDeferredElementsCommand(id, elements) =>
                  interactionCalls == old(interactionCalls)
                  && reply == ReplyOf(if id in old(completionMap) then Pass else Fail(NoDeferredHandler(id)))
                  && Step(RegistryState(old(completionMap), old(invocations)), Provide(id, elements))
                     == RegistryState(completionMap, invocations)
    {
      var decoded := DecodeCommand(commandName, commandArguments, parse);
      if decoded.Failure? {
        return Rejected(decoded.error);
      }
      var outcome;
      match decoded.value {
        case PresentMenuCommand =>
          outcome := PresentMenu();
        case DismissMenuCommand =>
          outcome := DismissMenu();
        case ProvideDeferredElementsCommand(id, elements) =>
          outcome := ProvideDeferredElements(id, elements);
      }
      reply := ReplyOf(outcome);
    }
  }
}
