# Conquest engine core in Dafny

This project models the engine core of Conquest, a small SDL2 game written in C. It covers:

- the **service registry**, a tag → instance table;
- the **computation stack**, a priority-ordered singly linked list of per-frame layers, and the four standard layers;
- the **event bus**, named channels of listeners;
- the **render service**, a fixed array of 32 render layers;
- the **game-state vtable table** and the `enter` hooks of the menu, play and quit states;
- both revisions of the **state manager**;
- the **input manager**, three 32-bit action masks and the mouse position;
- the **settings store**, its typed getters and setters, change callbacks and resets, and the default settings;
- the **resource cache**, a chained string hash map, with the path getters and the cache-through loaders of the resource manager;
- the **audio manager**, a bounded register of audio objects that tracks the current music;
- the **main menu** and its buttons.

Each Dafny module follows one C source file, except `MenuUi`, which covers src/gui/menu/menu.c and src/gui/menu/menu_items.c, and `Handles`, which holds shared helpers. `MathUtils` also holds the C truncating division that the other modules use. Pure helpers are functions. Structures that the C code updates in place are classes:

- the render layer array is an `array`;
- the computation stack is a linked list of `Layer` objects with a ghost node sequence;
- the service registry buffer, the channel arrays, the settings tables and the menu buttons are `seq` fields that the methods reassign, with the `realloc`'d capacity kept as a separate field where the source keeps one.

Each method is specified against a reference function of the old state: `Insert`, `RemoveFirst`, `Compacted`, `Shifted`, `Assign`, `ResetTable`, `CacheThrough`, `Played`, `ScreenFor` and so on. The lemmas state what the source promises about those functions.

Opaque C values are modelled as follows:

- SDL objects, callbacks and loaded media are `Ptr` handles (`Null` or a numbered reference).
- Strings are `seq<char>`, and a bounded copy counts one byte per character (see Left out).
- The character values used by the hash are bytes 0..255.
- What SDL, SDL_ttf, SDL_image or SDL_mixer would return is passed in as a parameter: a loaded surface, a decoded chunk, a play result, the executable's base path, a rendered label size.

## Model

| member | source | states |
|---|---|---|
| Handles.Truncate | src/core/render/render_service.c:76 | The copy `strncpy` leaves in a bounded buffer: the longest prefix of the input with at most n characters: exactly n characters when the input is longer, and the input itself when it fits |
| MathUtils.Clamp | src/utils/math_utils.c:3 | Below min gives min; otherwise above max gives max; otherwise the value itself. The min test comes first |
| MathUtils.ClampInRange | src/utils/math_utils.c:3 | With min <= max the result lies in [min, max] |
| MathUtils.ClampIdempotent | src/utils/math_utils.c:3 | Clamping a clamped value changes nothing |
| MathUtils.CDiv | src/gui/widgets/button.c:19 | C's `/` on ints: the remainder has the sign of the dividend and is smaller than the divisor in magnitude |
| MathUtils.CDivUnique | src/gui/widgets/button.c:19 | Any quotient with that remainder property is `CDiv`'s, and for a non-negative dividend it equals the floor quotient |
| Services.IndexOf | src/core/services/service_manager.c:17-21 | `find_index`: -1 exactly when no entry has the tag, otherwise the position of the first entry that has it |
| Services.IndexOfIs | src/core/services/service_manager.c:17-21 | Any first match is the result of the scan |
| Services.AppendKeepsUnique | src/core/services/service_manager.c:45-46 | Appending an entry whose tag is absent keeps the tags pairwise distinct |
| Services.RemoveKeepsUnique | src/core/services/service_manager.c:56-61 | Removing an entry keeps the tags pairwise distinct |
| Services.LookupAfterAppend | src/core/services/service_manager.c:45-53 | After a new binding, `svc_get` of that tag returns its instance, and every other tag's binding is unchanged |
| Services.LookupAfterRemove | src/core/services/service_manager.c:56-61 | With distinct tags, the tag is unbound after its removal |
| Services.LookupAfterRemoveOther | src/core/services/service_manager.c:56-61 | Removing one tag leaves every other tag's binding as it was |
| Services.ServiceManager.constructor | src/core/services/service_manager.c:31 | `svc_create`: no entries and no buffer |
| Services.ServiceManager.FindIndex | src/core/services/service_manager.c:17-21 | The scanning loop returns `IndexOf` of the registered entries |
| Services.ServiceManager.Reserve | src/core/services/service_manager.c:22-28 | The entries are kept. The capacity becomes `newcap` when that is larger and is otherwise unchanged, so afterwards it is at least `newcap` |
| Services.ServiceManager.Register | src/core/services/service_manager.c:39-49 | Returns -1, changing nothing, exactly when the instance is NULL or the tag is already bound. Otherwise returns 0 with exactly one (tag, instance) entry appended. Capacity always covers the count and tags stay distinct |
| Services.ServiceManager.Get | src/core/services/service_manager.c:51-54 | The instance bound to the tag, which is NULL exactly when the tag is absent |
| Services.ServiceManager.Unregister | src/core/services/service_manager.c:56-63 | The tag's entry is removed and the others keep their order. An absent tag is a no-op. Capacity is unchanged |
| Services.DuplicateRegistration | src/core/services/service_manager.c:40-44 | Registering one tag twice: the first call returns 0, the second returns -1, and `svc_get` still gives the first instance |
| ComputationStack.Insert | src/core/compute/computation_stack.c:7-18 | The list after `comp_stack_add` has exactly one element more. Its placement is stated by the lemmas below |
| ComputationStack.InsertAt | src/core/compute/computation_stack.c:7-18 | If k is a split where everything before has priority >= the new layer's and the element at k has lower priority, the new layer lands at k and the rest stay in order |
| ComputationStack.InsertSplit | src/core/compute/computation_stack.c:7-18 | Every insertion is such a split: old prefix, new layer, old suffix |
| ComputationStack.InsertSorted | src/core/compute/computation_stack.c:7-18 | Adding into a list with non-increasing priorities keeps it non-increasing from top to tail |
| ComputationStack.InsertFifo | src/core/compute/computation_stack.c:8-14 | In a sorted list a new layer goes after every layer of equal or higher priority and before every lower one. Strict `>` at the head and `>=` while walking make equal priorities run in insertion order |
| ComputationStack.TieBreakExample | src/core/compute/computation_stack.c:8-14 | Pushing A(300), B(300), C(100) executes A, B, C |
| Handles.FirstIndex | src/core/compute/computation_stack.c:23 | The scan every lookup by name or identity makes: no element before the result satisfies the test, and the element at the result does unless it is the length |
| ComputationStack.FirstNamed | src/core/compute/computation_stack.c:20-35 | Position of the first layer with the name, or the length when there is none |
| ComputationStack.FirstNamedIsFirstIndex | src/core/compute/computation_stack.c:20-35 | The name scan is the generic first-index scan with the test "has this name" |
| ComputationStack.RemoveFirstShape | src/core/compute/computation_stack.c:20-35 | An absent name leaves the list unchanged. Otherwise exactly the first matching layer is removed and the rest keep their order |
| ComputationStack.RemoveFirstSorted | src/core/compute/computation_stack.c:20-35 | Removal keeps the priorities non-increasing |
| ComputationStack.Fns | src/core/compute/computation_stack.c:37-42 | The layer functions, one per layer, in list order |
| ComputationStack.Layer.constructor | src/core/compute/computation_stack.c:57-60 | A new layer carries exactly the given name, priority and function, with no successor |
| ComputationStack.ComputationStack.constructor | src/core/compute/computation_stack.c:5 | `comp_stack_init`: an empty stack with a NULL top |
| ComputationStack.ComputationStack.Add | src/core/compute/computation_stack.c:7-18 | The linked list stays acyclic and well linked. Its contents become `Insert` of the old contents and the new layer, which adds one node and keeps every old node in its relative order. A sorted stack stays sorted |
| ComputationStack.ComputationStack.LinkFirst | src/core/compute/computation_stack.c:8-11 | The head case: the new layer becomes `top`, in front of the old list |
| ComputationStack.ComputationStack.LinkAfter | src/core/compute/computation_stack.c:16-17 | The walk case: the new layer is spliced directly after the node where the walk stopped |
| ComputationStack.ComputationStack.Remove | src/core/compute/computation_stack.c:20-35 | The contents become `RemoveFirst` of the old contents: only the first matching node is unlinked, and an absent name changes nothing. Sortedness is kept |
| ComputationStack.ComputationStack.UnlinkAt | src/core/compute/computation_stack.c:24-27 | The node is unlinked through its predecessor, or through `top` when it is the head |
| ComputationStack.ComputationStack.Destroy | src/core/compute/computation_stack.c:44-53 | Leaves `top == NULL` and no layers |
| ComputationStack.Execute | src/core/compute/computation_stack.c:37-42 | A NULL stack calls nothing. Otherwise each layer's function is called exactly once, top to bottom |
| ComputationStack.PushLayer | src/core/compute/computation_stack.c:56-62 | One fresh node with exactly the given name, priority and function is added at its `Insert` position |
| ComputationLayers.StandardLayers | src/core/compute/computation_layers.c:34-41 | The four standard layers "clock", "input", "render" and "present", with their functions |
| ComputationLayers.RegisterStandardLayers | src/core/compute/computation_layers.c:34-41 | The stack becomes the old stack with those four layers inserted in that order |
| ComputationLayers.InsertLowest | src/core/compute/computation_stack.c:13-17 | A layer whose priority is not above any existing one is appended at the tail |
| ComputationLayers.StandardOrder | src/core/compute/computation_layers.c:34-41 | With priorities clock >= input >= render >= present, an empty stack ends up executing clock, input, render, present |
| ComputationLayers.LayerStateInput | src/core/compute/computation_layers.c:10-14 | The state manager handles the registered input: the state becomes `StateAfterInput(old state, CANCEL pressed)`. In MENU the menu's buttons are hovered, a click records its signal, and the SIGNAL listener calls on "menu_signals" are returned. Outside MENU the menu is untouched and no listener is called |
| ComputationLayers.LayerPresent | src/core/compute/computation_layers.c:15-20 | The render layers are drawn (nothing without a service or renderer) from the input state before the update. Then the pressed and released masks are zeroed, and held and mouse are kept |
| ComputationLayers.LayerStateRender | src/core/compute/computation_layers.c:27-32 | A frame is cleared exactly when a render service with a renderer is registered |
| EventBus.Invocations | src/core/event/event_bus.c:103-104 | One call per listener, in list order, each with the same event |
| EventBus.IndexOf | src/core/event/event_bus.c:43-44 | Position of the first pointer-equal listener. It is below the length exactly when the listener is present |
| EventBus.RemoveFirstShape | src/core/event/event_bus.c:42-54 | An absent listener leaves the list unchanged. Otherwise the list is one shorter, with exactly one copy of the listener gone |
| EventBus.Grown | src/core/event/event_bus.c:28-29 | The new capacity is strictly larger, and starting from 0 or a power of two it is a power of two (1, 2, 4, ...) |
| EventBus.SubscribeUnsubscribe | src/core/event/event_bus.c:27-54 | Subscribing a new listener and then unsubscribing it restores the list |
| EventBus.InvocationsAppend | src/core/event/event_bus.c:103-104 | A listener at the end of the list is called last |
| EventBus.Channel.constructor | src/core/event/event_bus.c:11-16 | `channel_init`: the given name, no listeners, capacity 0 |
| EventBus.Channel.Subscribe | src/core/event/event_bus.c:27-40 | The listener is appended at the end, duplicates included. A full array grows 0 → 1 → doubling. The count never exceeds the capacity |
| EventBus.Channel.Unsubscribe | src/core/event/event_bus.c:42-54 | Only the first pointer-equal listener is removed and the order is kept. An absent listener is a no-op. The capacity is unchanged |
| EventBus.Channel.Destroy | src/core/event/event_bus.c:18-25 | No listeners and capacity 0 |
| EventBus.FindIndex | src/core/event/event_bus.c:71-76 | Position of the first channel with the name, or the channel count when there is none |
| EventBus.Bus.constructor | src/core/event/event_bus.c:57-61 | `bus_init`: no channels, capacity 0 |
| EventBus.Bus.Find | src/core/event/event_bus.c:71-76 | The first channel with the name, or NULL |
| EventBus.Bus.GetOrCreate | src/core/event/event_bus.c:78-93 | A known name returns its channel and changes nothing. Otherwise exactly one fresh empty channel is appended, growing the array 0 → 1 → doubling. Channel names stay unique |
| EventBus.Bus.Subscribe | src/core/event/event_bus.c:95-98 | The listener is appended to that channel's list and no other channel's list changes. A new name adds one channel |
| EventBus.Bus.Emit | src/core/event/event_bus.c:100-105 | Each listener of the channel is invoked once, in order, with the event. An unknown channel invokes nothing and creates nothing, since the method modifies nothing |
| EventBus.Bus.Destroy | src/core/event/event_bus.c:63-69 | Zero channels and zero capacity, and every old channel is emptied |
| Render.Drawn | src/core/render/render_service.c:59-63 | The calls `renderer_present` makes: at most one per layer, skipping NULL callbacks |
| Render.Compacted | src/core/render/render_service.c:85-90 | The slot array keeps its size of 32 after a removal |
| Render.Shifted | src/core/render/render_service.c:117-125 | The slot array keeps its size of 32 after an insertion |
| Render.DrawnAppend | src/core/render/render_service.c:59-63 | A layer with a NULL callback is skipped. Otherwise its call follows those of the layers before it |
| Render.DrawnAll | src/core/render/render_service.c:59-63 | When every layer has a callback, there is one call per layer, in index order, each with its own userdata |
| Render.FirstNamed | src/core/render/render_service.c:96-103 | Position of the first active layer with the name, or the count |
| Render.RenderService.constructor | src/core/render/render_service.c:21-22 | No layers, and all 32 slots zeroed |
| Render.BeginFrame | src/core/render/render_service.c:47-53 | Clears exactly when the service and its renderer exist |
| Render.Present | src/core/render/render_service.c:55-65 | Without a service or renderer nothing is called. Otherwise the non-NULL callbacks of layers 0..count-1 are called in order, each with its userdata |
| Render.AddLayer | src/core/render/render_service.c:67-78 | Returns -1, changing nothing, for no service, a NULL callback or a full array. Otherwise the layer is written into slot `count` with its name cut to 31 characters, and the old count is returned. The count stays in [0, 32] |
| Render.RemoveLayerIndex | src/core/render/render_service.c:80-94 | An out-of-range index is a no-op. Otherwise the slots become `Compacted`: the tail shifts down one and the vacated last slot gets a NULL callback and an empty name |
| Render.CompactedContents | src/core/render/render_service.c:85-88 | After compaction the active layers are the old ones without index i, in order |
| Render.RemoveLayerName | src/core/render/render_service.c:96-103 | Only the first layer with the name is removed, as by index. An absent name is a no-op |
| Render.RemoveAllLayers | src/core/render/render_service.c:105-109 | The count is 0 and every slot is zeroed |
| Render.InsertLayer | src/core/render/render_service.c:111-128 | Returns false, changing nothing, for no service, a NULL callback, a position outside [0, count] or a full array. Otherwise the slots become `Shifted` and the count grows by one |
| Render.ShiftedContents | src/core/render/render_service.c:117-125 | After insertion the active layers are the old ones with the new layer at the position, and the rest of them shifted up, in order |
| Render.InsertKeepsStaleUserdata | src/core/render/render_service.c:122-124 | Insert writes the callback and name but not the userdata, so the new layer keeps whatever userdata its slot held |
| StateFunctions.GameStates.constructor | src/core/state/state_functions/state_functions.c:51-53 | A table of n entries that records n as its size |
| StateFunctions.RegisterGameState | src/core/state/state_functions/state_functions.c:43-48 | Exactly the entry at the index becomes (vtable, type) |
| StateFunctions.InitGameStates | src/core/state/state_functions/state_functions.c:50-61 | Exactly 4 entries: MENU, PLAY, QUIT and PAUSE with their vtables |
| StateFunctions.InitialTableIndexedByState | src/core/state/state_functions/state_functions.c:55-58 | The entry at index s has type s (MENU=0, PLAY=1, QUIT=2, PAUSE=3) and s's vtable |
| StateFunctions.GetStateVTable | src/core/state/state_functions/state_functions.c:63-65 | The vtable of the entry at the state's index; after init that is the state's own vtable (`LookupAfterInit`) |
| StateFunctions.GetStateObject | src/core/state/state_functions/state_functions.c:68-72 | With a table and `state < num_states` (the two `assert`s), the entry at the state's index, whose vtable is the one `GetStateVTable` gives; after init it is (the state's vtable, the state) (`LookupAfterInit`) |
| StateFunctions.LookupAfterInit | src/core/state/state_functions/state_functions.c:64-73 | After init, both lookups return what was registered for s. QUIT gives `QUIT_VTABLE`, whose update and exit hooks are NULL |
| MenuState.MenuLayer | src/core/state/state_functions/menu/menu_state.c:16 | The layer is named "menu", draws the menu, and has the state manager's menu as userdata |
| MenuState.Enter | src/core/state/state_functions/menu/menu_state.c:12-17 | Afterwards the render service holds exactly that one layer, whatever it held before, so repeated entries never accumulate |
| PlayState.BackgroundLayer | src/core/state/state_functions/play/play_state.c:17 | The layer is named "play_background", draws the background, and has NULL userdata |
| PlayState.Enter | src/core/state/state_functions/play/play_state.c:13-18 | Afterwards the render service holds exactly that one layer, whatever it held before |
| QuitState.Enter | src/core/state/state_functions/quit/quit_state.c:6-10 | Afterwards the render service holds no layers, whatever it held before, and nothing else changes |
| CoreStateManager.UpdateAsWritten | src/core/state/state_manager.c:51-61 | `sm_update` as written. In MENU, every popped signal other than NONE makes `strcmp` read through an invalid pointer. NONE, and any state but MENU, leave the state unchanged |
| CoreStateManager.AsWrittenNeverPlays | src/core/state/state_manager.c:53-58 | As written, no popped signal reaches PLAY. NEW_GAME and CONTINUE end in the invalid read |
| CoreStateManager.StateManager.constructor | src/core/state/state_manager.c:32-40 | `sm_create` starts in MENU with the given menu |
| CoreStateManager.StateManager.Update | src/core/state/state_manager.c:51-61 | With the signal compared as the enum it is: in MENU the signal is popped, and NEW_GAME or CONTINUE switch to PLAY. Outside MENU nothing changes, the signal included |
| CoreStateManager.StateManager.HandleInput | src/core/state/state_manager.c:74-83 | In MENU the menu handles the input and the state stays MENU. The buttons are hovered, and a click records the lowest hit button's signal and returns one SIGNAL call per "menu_signals" listener when a bus is set. In PLAY a CANCEL press returns to MENU, and the menu is untouched. Nothing else changes the state |
| CoreStateManager.SetAudioManager | src/core/state/state_manager.c:43-48 | Changes nothing when the manager or its menu is NULL. Otherwise it sets only the menu's audio manager |
| CoreStateManager.NeverQuitOrPause | src/core/state/state_manager.c:51-83 | From MENU or PLAY, update and input only ever lead to MENU or PLAY |
| CoreStateManager.Transitions | src/core/state/state_manager.c:51-83 | The update enters PLAY exactly from MENU on NEW_GAME or CONTINUE. The input changes the state exactly in PLAY with CANCEL. Update outside MENU is a no-op |
| LegacyStateManager.StateManager.constructor | src/state/state_manager.c:5-11 | `sm_create` starts in MENU |
| LegacyStateManager.StateManager.HandleEvent | src/state/state_manager.c:15-22 | In PLAY an ESCAPE key-down returns to MENU. Every other event leaves the state |
| LegacyStateManager.StateManager.Update | src/state/state_manager.c:26-35 | In MENU a popped "goto_newgame" or "goto_continue" switches to PLAY. No signal, any other signal, or any other state changes nothing |
| LegacyStateManager.NeverQuit | src/state/state_manager.c:15-35 | No event and no update ever enters QUIT |
| LegacyStateManager.Transitions | src/state/state_manager.c:15-35 | Both directions: the state changes on an event exactly in PLAY with ESCAPE, and on an update exactly in MENU with one of the two signals |
| Input.KeyToAction | src/input/input_manager.c:13-35 | The key table: W/Up, S/Down, A/Left, D/Right, Return/Space, Escape. Exactly the other scancodes map to NONE |
| Input.GetBit | src/input/input_manager.c:39 | 0 or 1, and 1 exactly when the action's bit is set |
| Input.SetHas | src/input/input_manager.c:37 | After `set_bit`, an action is in the mask exactly when it was before or is the one set |
| Input.ClrHas | src/input/input_manager.c:38 | After `clr_bit`, an action is in the mask exactly when it was before and is not the one cleared |
| Input.SetBitActions | src/input/input_manager.c:37 | As sets of actions, `set_bit` adds the action |
| Input.ClrBitActions | src/input/input_manager.c:38 | As sets of actions, `clr_bit` removes the action |
| Input.ZeroActions | src/input/input_manager.c:88-89 | A zero mask holds no action |
| Input.InputManager.constructor | src/input/input_manager.c:43 | `input_create`: all masks and the mouse position zero |
| Input.InputManager.HandleEvent | src/input/input_manager.c:48-84 | The fields become `Step` of the old fields and the event. The effect lemmas below describe `Step` |
| Input.InputManager.Update | src/input/input_manager.c:86-90 | Pressed and released become empty. Held and the mouse position are kept |
| Input.InputManager.Pressed | src/input/input_manager.c:93-95 | 1 exactly when the action is in the pressed mask |
| Input.InputManager.Released | src/input/input_manager.c:96-98 | 1 exactly when the action is in the released mask |
| Input.InputManager.Held | src/input/input_manager.c:99-101 | 1 exactly when the action is in the held mask |
| Input.InputManager.MousePos | src/input/input_manager.c:103-108 | The last mouse position |
| Input.KeyDownEffect | src/input/input_manager.c:51-56 | A non-repeat key-down of a mapped key that is not held adds its action to held and pressed, and nothing else. A held key or an auto-repeat changes nothing |
| Input.KeyUpEffect | src/input/input_manager.c:58-64 | Key-up of a mapped key removes it from held and adds it to released, and nothing else |
| Input.UnmappedKeyIgnored | src/input/input_manager.c:51-64 | Key events of unmapped keys change nothing |
| Input.LeftMouseEffect | src/input/input_manager.c:67-74 | Left button down adds CONFIRM to pressed and held, even when it is already held. Left button up removes it from held and adds it to released |
| Input.QuitEffect | src/input/input_manager.c:82-83 | A QUIT event adds QUIT to pressed only |
| Input.MotionEffect | src/input/input_manager.c:77-80 | Mouse motion changes only the mouse position |
| Input.QuitNeverHeld | src/input/input_manager.c:48-84 | No event marks QUIT as held |
| Settings.Notify | src/core/settings/settings_manager.c:71-75 | One call per registered callback, in registration order, each with the key and its user data |
| Settings.IntWriteInRange | src/core/settings/settings_manager.c:346-358 | With min <= max, `sm_set_int` stores a value in [min, max], and with a step above 1 a value on the grid min + k·step |
| Settings.IntWriteExact | src/core/settings/settings_manager.c:346-358 | A value already in [min, max] and, with a step above 1, on the grid min + k·step is stored unchanged |
| Settings.IntWriteIdempotent | src/core/settings/settings_manager.c:346-358 | Writing the stored value again stores the same value |
| Settings.FloatWriteInRange | src/core/settings/settings_manager.c:375-387 | With min <= max and a positive step, the stored float lies in [min, max] (over the reals) |
| Settings.FloatWriteIdempotent | src/core/settings/settings_manager.c:375-387 | Writing the stored float again stores the same value (over the reals) |
| Settings.WrittenIdempotent | src/core/settings/settings_manager.c:338-442 | For every type, a second write of the same value leaves what the first one stored |
| Settings.CategoryIndex | src/core/settings/settings_manager.c:50-57 | `find_category`: the first category with the name, or the count when there is none |
| Settings.FindKey | src/core/settings/settings_manager.c:59-69 | `find_setting`: a position holding the key, or none exactly when no category holds it |
| Settings.FindKeyOfMember | src/core/settings/settings_manager.c:59-69 | With globally unique keys, every stored setting is found at its own position |
| Settings.Lookup | src/core/settings/settings_manager.c:59-69 | The setting found for a key carries that key, and is absent exactly when `find_setting` finds nothing |
| Settings.Update | src/core/settings/settings_manager.c:362 | Replacing one setting changes no other setting, no category name and no count |
| Settings.UpdateKeepsValid | src/core/settings/settings_manager.c:362 | Changing a setting's value or callbacks to well-typed ones keeps the table valid and its keys unchanged |
| Settings.AssignEffect | src/core/settings/settings_manager.c:338-442 | A typed setter changes at most the value of the setting under its key, and only when the type matches, to the constrained value. The table stays valid |
| Settings.AssignIdempotent | src/core/settings/settings_manager.c:338-442 | Setting the same value twice: the second call changes nothing and fires no callback |
| Settings.GetInt | src/core/settings/settings_manager.c:277-284 | The value of an int setting. 0 for a missing key or another type |
| Settings.GetFloat | src/core/settings/settings_manager.c:286-293 | The value of a float setting. 0.0 for a missing key or another type |
| Settings.GetBool | src/core/settings/settings_manager.c:295-302 | True exactly when the key names a bool setting holding true |
| Settings.GetString | src/core/settings/settings_manager.c:304-311 | The value of a string setting. "" for a missing key or another type |
| Settings.GetEnum | src/core/settings/settings_manager.c:313-320 | The index held by an enum setting. 0 for a missing key or another type |
| Settings.GetEnumString | src/core/settings/settings_manager.c:322-335 | The name of the selected option. "" for a missing key, another type, or an index outside the options |
| Settings.SetIntThenGet | src/core/settings/settings_manager.c:338-365 | Reading an int back gives the clamped and stepped value: the value written when in range and on the grid, and always within [min, max] |
| Settings.SetBoolStringThenGet | src/core/settings/settings_manager.c:395-423 | Reading a bool or string back after setting it gives the value written |
| Settings.SetEnumThenGet | src/core/settings/settings_manager.c:425-442 | Reading an enum back gives the value written when it is a valid option index, and otherwise the old value |
| Settings.ResetAll | src/core/settings/settings_manager.c:486-510 | Every setting is written back to its default through its typed setter |
| Settings.ResetCallsStep | src/core/settings/settings_manager.c:521-523 | Resetting one more setting appends exactly that setting's callback calls |
| Settings.AllResetCallsStep | src/core/settings/settings_manager.c:529-533 | Resetting one more category appends exactly that category's callback calls |
| Settings.ResetTable | src/core/settings/settings_manager.c:526-534 | Every category has all of its settings reset, and nothing else changes |
| Settings.UpdateSame | src/core/settings/settings_manager.c:361 | Writing back the setting that is already stored changes nothing |
| Settings.ResetInRange | src/core/settings/settings_manager.c:486-510 | A reset int lands in [min, max] like any other write, and so does a float with a positive step. Bool and string take their defaults. A valid enum stays valid |
| Settings.ResetIdempotent | src/core/settings/settings_manager.c:486-510 | A second reset of a setting changes nothing and fires no callback |
| Settings.ResetCallsAfterReset | src/core/settings/settings_manager.c:521-523 | Resetting an already reset category fires no callback |
| Settings.ResetCallsFixed | src/core/settings/settings_manager.c:521-523 | If every setting already holds its reset value, the reset changes nothing and fires nothing |
| Settings.ResetTableFixed | src/core/settings/settings_manager.c:526-534 | The same for the whole table |
| Settings.CallbackIndex | src/core/settings/settings_manager.c:476-477 | The first slot holding the callback, or the count |
| Settings.SwapRemove | src/core/settings/settings_manager.c:479 | Moving the last callback into the slot shrinks the list by exactly one |
| Settings.SwapRemoveMultiset | src/core/settings/settings_manager.c:479 | It removes exactly one copy of the chosen callback and keeps all the others |
| Settings.RegisterThenUnregister | src/core/settings/settings_manager.c:455-482 | Registering a new callback and then unregistering it restores the list |
| Settings.AppendKeepsValid | src/core/settings/settings_manager.c:193 | Appending a setting with a fresh key to a category with room keeps the table valid |
| Settings.CategoryIndexAppend | src/core/settings/settings_manager.c:143-148 | An appended category with a fresh name is found at the end |
| Settings.WithCategoryEffect | src/core/settings/settings_manager.c:130-149 | Registering a category keeps the table valid and leaves the existing categories' keys. An accepted name is found as the new last category |
| Settings.WithSettingKeepsValid | src/core/settings/settings_manager.c:152-196 | Registering a well-typed setting keeps the table valid: keys stay globally unique and counts stay within 50 |
| Settings.WithSettingEffect | src/core/settings/settings_manager.c:152-196 | Afterwards an accepted key looks up the new setting, and every other key looks up what it did before |
| Settings.SettingsManager.constructor | src/core/settings/settings_manager.c:87-95 | `sm_settings_create`: no categories |
| Settings.SettingsManager.RegisterCategory | src/core/settings/settings_manager.c:130-149 | Refused without a name, with 20 categories, or for a known name. Otherwise one category is appended, whose display name defaults to its name |
| Settings.SettingsManager.RegisterSetting | src/core/settings/settings_manager.c:152-196 | Succeeds exactly for a named key in a known category, when the key is not present in any category and the category has fewer than 50 settings. Then the setting is appended to its category |
| Settings.SettingsManager.RegisterIntSetting | src/core/settings/settings_manager.c:198-212 | Registers an int setting with value = default and the given range and step |
| Settings.SettingsManager.RegisterFloatSetting | src/core/settings/settings_manager.c:214-228 | Registers a float setting with value = default and the given range and step |
| Settings.SettingsManager.RegisterBoolSetting | src/core/settings/settings_manager.c:230-240 | Registers a bool setting shown as a checkbox |
| Settings.SettingsManager.RegisterStringSetting | src/core/settings/settings_manager.c:242-252 | Registers a string setting shown as a text input |
| Settings.SettingsManager.RegisterEnumSetting | src/core/settings/settings_manager.c:254-274 | Registers an enum setting with its option names, shown as a dropdown |
| Settings.SettingsManager.SetInt | src/core/settings/settings_manager.c:338-365 | Does `Assign` with an int. A missing key or another type changes nothing. The value is clamped and stepped, and the callbacks fire only when the stored value changes |
| Settings.SettingsManager.SetFloat | src/core/settings/settings_manager.c:367-393 | Does `Assign` with a float, over the reals |
| Settings.SettingsManager.SetBool | src/core/settings/settings_manager.c:395-406 | Does `Assign` with a bool. The callbacks fire only on a change |
| Settings.SettingsManager.SetString | src/core/settings/settings_manager.c:408-423 | Does `Assign` with a string, a NULL value counting as "". The callbacks fire only on a change |
| Settings.SettingsManager.SetEnum | src/core/settings/settings_manager.c:425-442 | Does `Assign` with an enum. An index outside [0, option count) changes nothing and fires nothing |
| Settings.SettingsManager.RegisterCallback | src/core/settings/settings_manager.c:445-463 | Refused without a key or callback, for an unknown key, or with 10 callbacks already present. Otherwise the callback and its data are appended to that setting only |
| Settings.SettingsManager.UnregisterCallback | src/core/settings/settings_manager.c:465-483 | The first matching slot is filled by the last callback and the count drops by one. An absent callback, key or setting changes nothing |
| Settings.SettingsManager.ResetSetting | src/core/settings/settings_manager.c:486-510 | A missing key changes nothing. Otherwise the default goes through the typed setter, which clamps and steps an int default, and the setting's callbacks fire if the value changes |
| Settings.SettingsManager.ResetSlots | src/core/settings/settings_manager.c:521-523 | The loop resets each setting of the category in order, and the calls are the concatenation of each reset's calls |
| Settings.SettingsManager.ResetCategory | src/core/settings/settings_manager.c:512-524 | A missing or unknown category changes nothing. Otherwise every setting of that category is reset in order |
| Settings.SettingsManager.ResetToDefaults | src/core/settings/settings_manager.c:526-534 | The table becomes `ResetTable` of the old table, with the callback calls of every reset in table order |
| DefaultSettings.InitializeDefaults | src/core/settings/default_settings.c:6-44 | A NULL store is left alone. Otherwise the store receives the four categories and then the seven settings, in source order |
| DefaultSettings.CategoriesFromEmpty | src/core/settings/default_settings.c:10-13 | From an empty store, the categories are video, audio, controls and gameplay, in that order, each with its display name |
| DefaultSettings.FullscreenStep | src/core/settings/default_settings.c:16-17 | The fullscreen bool (default false) is accepted into video |
| DefaultSettings.ResolutionWStep | src/core/settings/default_settings.c:19-21 | resolution_w (1280 in [800, 3840], step 1) is accepted into video |
| DefaultSettings.ResolutionHStep | src/core/settings/default_settings.c:23-25 | resolution_h (720 in [600, 2160], step 1) is accepted into video |
| DefaultSettings.MasterVolumeStep | src/core/settings/default_settings.c:28-30 | master_volume (1.0 in [0, 1], step 0.1) is accepted into audio |
| DefaultSettings.MusicVolumeStep | src/core/settings/default_settings.c:32-34 | music_volume (0.8) is accepted into audio |
| DefaultSettings.SfxVolumeStep | src/core/settings/default_settings.c:36-38 | sfx_volume (1.0) is accepted into audio |
| DefaultSettings.DifficultyStep | src/core/settings/default_settings.c:41-44 | difficulty (1 among Easy, Normal, Hard, Nightmare) is accepted into gameplay, completing the default table |
| DefaultSettings.DefaultsFromEmpty | src/core/settings/default_settings.c:6-44 | From an empty store, no registration is rejected, and the result is exactly the default table. "controls" receives no setting |
| DefaultSettings.DefaultTableValid | src/core/settings/default_settings.c:16-44 | The default table is valid: distinct names and keys, and each default is within its constraint |
| DefaultSettings.RegistrationsKeepValid | src/core/settings/default_settings.c:6-44 | From any valid store, the registration sequence keeps it valid |
| DefaultSettings.VideoReadBack | src/core/settings/default_settings.c:16-25 | The getters read fullscreen = false, resolution 1280 × 720 |
| DefaultSettings.AudioReadBack | src/core/settings/default_settings.c:28-38 | The getters read volumes 1.0, 0.8 and 1.0 |
| DefaultSettings.GameplayReadBack | src/core/settings/default_settings.c:41-44 | difficulty reads 1, which names "Normal" |
| DefaultSettings.DefaultsAreFixed | src/core/settings/default_settings.c:19-44 | Every default already satisfies its constraint, so a reset stores it unchanged |
| DefaultSettings.DefaultsSurviveReset | src/core/settings/default_settings.c:6-44 | Resetting the default table to defaults changes nothing and fires no callback |
| ResourceCache.Poly | src/core/resources/resource_cache.c:30-33 | h = h·31 + c over the key's bytes, kept within 32 unsigned bits |
| ResourceCache.Bucket | src/core/resources/resource_cache.c:34 | The bucket index is below the capacity |
| ResourceCache.Hash | src/core/resources/resource_cache.c:29-35 | The loop computes `Bucket` of the key, which lies in [0, capacity) |
| ResourceCache.HoldsReplace | src/core/resources/resource_cache.c:45-55 | Overwriting an entry's value in its chain matches replacing the key's value in the map |
| ResourceCache.HoldsAppend | src/core/resources/resource_cache.c:56-70 | Appending a new entry to its chain matches adding the key to the map |
| ResourceCache.HoldsUnlink | src/core/resources/resource_cache.c:100-135 | Unlinking one entry of a chain matches removing its key from the map |
| ResourceCache.HashMap.constructor | src/core/resources/resource_cache.c:11-17 | Empty, with size 0, and the requested capacity, or 16 when that is not positive |
| ResourceCache.HashMap.Get | src/core/resources/resource_cache.c:74-91 | The value stored under the key. NULL for a NULL or absent key |
| ResourceCache.HashMap.Put | src/core/resources/resource_cache.c:38-71 | The map gains or replaces that key's value and nothing else changes. Size grows by one only for a new key. Each key stays in one entry of its own bucket. A NULL key changes nothing |
| ResourceCache.HashMap.Remove | src/core/resources/resource_cache.c:94-136 | The key is gone and every other key keeps its value, including when the removed entry heads a chain that has successors. Size drops by one exactly when the key was present. A NULL or absent key changes nothing |
| ResourceCache.HashMap.SetBucket | src/core/resources/resource_cache.c:45-70 | Storing a rebuilt chain for the key's bucket yields the intended map |
| ResourceCache.HashMap.Unlink | src/core/resources/resource_cache.c:100-135 | Unlinking entry j of a bucket removes exactly its key and decrements the size |
| ResourceCache.Cache.constructor | src/core/resources/resource_cache.c:20-26 | Three empty maps (textures, fonts, sounds), each with capacity 1024 |
| ResourcePaths.ResourcePath | src/core/resources/resource_paths.c:7-9 | base + directory + file, truncated to 1023 characters, with a NULL base counting as "" |
| ResourcePaths.PathWhenItFits | src/core/resources/resource_paths.c:7-9 | A path that fits is exactly base + directory + file. Without a base it is directory + file |
| ResourcePaths.FileRecoverable | src/core/resources/resource_paths.c:5-39 | Below the limit, two different files never share a path |
| ResourcePaths.LongBaseCollides | src/core/resources/resource_paths.c:7-9 | Once base + directory fills the buffer, every file gets the same path |
| ResourcePaths.SoundPathsDiffer | src/core/resources/resource_paths.c:14-39 | Below the limit, a music path and an effect path never coincide, although both go into the same sounds table |
| ResourcePaths.PathBuffers.constructor | src/core/resources/resource_paths.c:7 | The four static buffers start empty |
| ResourcePaths.PathBuffers.GetFontPath | src/core/resources/resource_paths.c:5-12 | Returns base + "resources/fonts/" + file and overwrites only the font buffer |
| ResourcePaths.PathBuffers.GetMusicPath | src/core/resources/resource_paths.c:14-21 | The same with "resources/audio/music/", overwriting only its own buffer |
| ResourcePaths.PathBuffers.GetImagePath | src/core/resources/resource_paths.c:23-30 | The same with "resources/images/", overwriting only its own buffer |
| ResourcePaths.PathBuffers.GetSfxPath | src/core/resources/resource_paths.c:32-39 | The same with "resources/audio/sfx/", overwriting only its own buffer |
| ResourceManager.Digits | src/core/resources/resource_manager.c:69 | The decimal digits of a natural number, a single digit exactly below 10 |
| ResourceManager.IntText | src/core/resources/resource_manager.c:69 | `%d` text never contains '_' |
| ResourceManager.IntTextSign | src/core/resources/resource_manager.c:69 | `%d` text is non-empty and starts with '-' exactly for negatives |
| ResourceManager.IntTextInjective | src/core/resources/resource_manager.c:69 | Different ints print differently |
| ResourceManager.FontKeyAsWritten | src/core/resources/resource_manager.c:68-69 | The key `load_font` builds: "<path>_<size>" cut to the 255 characters of its buffer |
| ResourceManager.FontKeyAsWrittenCollides | src/core/resources/resource_manager.c:68-69 | For a path of 255 or more characters, sizes 12 and 24 give the same key |
| ResourceManager.LongBaseFontCollision | src/core/resources/resource_manager.c:61-69 | With a base directory of 239 or more characters, every font file gets one key for both sizes |
| ResourceManager.FontKeyInjective | src/core/resources/resource_manager.c:67-69 | The untruncated key "<path>_<size>" determines both the path and the size, so one file at two sizes gets two entries |
| ResourceManager.CacheThroughCases | src/core/resources/resource_manager.c:32-56 | A cached key returns its handle without loading and changes nothing. A failed load returns NULL and changes nothing. A successful load is stored, so the next call is a hit with the same handle |
| ResourceManager.OtherKeysUnaffected | src/core/resources/resource_manager.c:32-56 | Loading one key does not change what a later load of another key returns |
| ResourceManager.ChunkDoesNotShadowMusic | src/core/resources/resource_manager.c:99-126 | In the shared sounds table, an effect load never shadows a music load for any file |
| ResourceManager.FirstImageLoadWins | src/core/resources/resource_manager.c:144-169 | `load_texture` and `load_surface` share the textures table and key, so whichever loads a sub-path first is what both return afterwards |
| ResourceManager.Manager.constructor | src/core/resources/resource_manager.c:10-14 | A manager over a fresh, empty cache |
| ResourceManager.Manager.Through | src/core/resources/resource_manager.c:32-56 | An imperative get-or-load-and-put on one table yields `CacheThrough` |
| ResourceManager.Manager.LoadTexture | src/core/resources/resource_manager.c:22-57 | Cache-through on the textures table under the image path. A texture is made only from a loaded surface. Only the image path buffer is overwritten |
| ResourceManager.Manager.LoadFont | src/core/resources/resource_manager.c:59-88 | Cache-through on the fonts table under "<font path>_<size>". This is the corrected, untruncated key of the second Findings row; the key as written is `FontKeyAsWritten`. Only the font path buffer is overwritten |
| ResourceManager.Manager.LoadChunk | src/core/resources/resource_manager.c:90-115 | Cache-through on the sounds table under the sfx path |
| ResourceManager.Manager.LoadMusic | src/core/resources/resource_manager.c:117-142 | Cache-through on the sounds table under the music path |
| ResourceManager.Manager.LoadSurface | src/core/resources/resource_manager.c:144-169 | Cache-through on the textures table under the image path |
| AudioManager.Played | src/core/audio/audio_manager.c:88-131 | `play_audio_raw` on one audio. A playing or ambient audio is untouched. Otherwise it ends playing exactly when a handle is loaded (kept, or taken from the loader) and the play call does not return -1. An effect records its channel. Path, type, volume and loop never change |
| AudioManager.Stopped | src/core/audio/audio_manager.c:133-150 | Afterwards the audio is not playing and nothing else changed. One that was not playing is untouched |
| AudioManager.PlayStopCycle | src/core/audio/audio_manager.c:89-90 | Once playing, further plays change nothing. A stop always ends playing. Stopping twice equals stopping once |
| AudioManager.ConsistentKept | src/core/audio/audio_manager.c:26-150 | Creation, play and stop keep "playing implies a loaded, non-ambient audio" |
| AudioManager.ReplayAfterStop | src/core/audio/audio_manager.c:94-106 | After a stop the loaded handle is reused, and a replay succeeds exactly when the play call does |
| AudioManager.Audio.constructor | src/core/audio/audio_manager.c:29-33 | The zeroed object with the path, type, volume and loop copied |
| AudioManager.Manager.constructor | src/core/audio/audio_manager.c:58-66 | An empty register of `max_count` slots, all NULL, with no current music |
| AudioManager.AudioCreate | src/core/audio/audio_manager.c:26-35 | NULL exactly for a NULL path. Otherwise a fresh audio that records type, volume and loop and is not playing |
| AudioManager.PlayRaw | src/core/audio/audio_manager.c:88-131 | NULL is ignored. Otherwise the audio becomes `Played` of its old fields |
| AudioManager.StopRaw | src/core/audio/audio_manager.c:133-150 | NULL is ignored. Otherwise the audio becomes `Stopped` of its old fields |
| AudioManager.Manager.Create | src/core/audio/audio_manager.c:58-66 | NULL exactly when the mixer failed to open. Otherwise an empty register with the requested size and no current music |
| AudioManager.Manager.Register | src/core/audio/audio_manager.c:81-85 | With `count >= max_count` it returns -1 and changes nothing. Otherwise the audio goes into slot `count`, that index is returned, and the count grows by one |
| AudioManager.Manager.Play | src/core/audio/audio_manager.c:153-161 | For music, a playing current music is stopped first and the audio becomes the current music. Other types leave the current music. Then the audio is played |
| AudioManager.Manager.Stop | src/core/audio/audio_manager.c:163-167 | The audio is stopped, and the current music is forgotten exactly when it was that audio |
| Widgets.MakeButton | src/gui/widgets/button.c:5-24 | No rendered label gives the zero button. Otherwise the box is (center_x − (w+20)/2, y, w+20, h+20) with C division, the signal is kept, and both colours are the base colour |
| Widgets.Lighten | src/gui/widgets/button.c:41-46 | A channel value in 0..255 becomes min(value + 50, 255) |
| Widgets.Hover | src/gui/widgets/button.c:26-55 | No label or a NONE signal gives 0 and changes nothing. Otherwise the result is the inclusive hit test x <= mx <= x+w and y <= my <= y+h. A hit lightens the RGB of the base colour, a miss restores it. Alpha, box, label and signal never change |
| Widgets.HoverIdempotent | src/gui/widgets/button.c:35-52 | Hovering again at the same point gives the same result and button |
| Widgets.HoverKeepsColorRange | src/gui/widgets/button.c:39-52 | The colour channels stay in 0..255 |
| Widgets.CornersHit | src/gui/widgets/button.c:35-36 | Both corners of the box hit, and the point just right of it does not |
| MenuUi.PlaceholderLabel | src/gui/menu/menu_items.c:14-15 | The label is a prefix of "< title – [Back] >" of at most 63 characters, and the whole text for a title of at most 50 characters |
| MenuUi.Utf8Size | src/gui/menu/menu_items.c:15 | The UTF-8 byte count of a string is at least its character count |
| MenuUi.PlaceholderFits | src/gui/menu/menu_items.c:14-15 | Counting bytes: a title of at most 48 bytes gives a label of its size plus 15 bytes (the en dash takes 3), at most 63. So `snprintf` into `txt[64]` cuts nothing, and the label is the whole text |
| MenuUi.PlaceholderTitlesFit | src/gui/menu/menu_items.c:46-53 | "Continue Game", "New Game" and "Options" are all within those 48 bytes, so every placeholder the menu builds is uncut |
| MenuUi.HoverAll | src/gui/menu/menu.c:100-101 | Every button is hovered with the cursor, in place |
| MenuUi.FirstHit | src/gui/menu/menu.c:105-106 | The lowest-index button under the cursor, or the count when there is none |
| MenuUi.Clicked | src/gui/menu/menu.c:104-127 | A click happens exactly when CONFIRM is pressed and some button is under the cursor. The lowest-index such button's signal is taken, and it is never NONE |
| MenuUi.Menu.constructor | src/gui/menu/menu.c:60-89 | `menu_create` fields: the window size, `off_y = h / 5`, `last_signal = NONE`, no event bus, the given audio manager, and the main screen built |
| MenuUi.Menu.ClearButtons | src/gui/menu/menu.c:15-21 | No buttons remain, and nothing else changes |
| MenuUi.Menu.AddButton | src/gui/menu/menu.c:23-30 | Exactly one button is appended, placed at y = clamp(y + off_y, 0, win_h − 90) |
| MenuUi.NewButtonPlacement | src/gui/menu/menu.c:25-29 | The new button sits at that clamped y, which lies in [0, win_h − 90], and is centred on win_w / 2 with the grey base colour and the given signal |
| MenuUi.Menu.BuildPlaceholder | src/gui/menu/menu_items.c:12-17 | The screen becomes the one-button placeholder screen |
| MenuUi.Menu.BuildMain | src/gui/menu/menu_items.c:20-26 | The screen becomes the main screen |
| MenuUi.Menu.BuildContinue | src/gui/menu/menu_items.c:29-35 | The screen becomes the continue screen |
| MenuUi.Menu.BuildFromSignal | src/gui/menu/menu_items.c:44-63 | The screen becomes `ScreenFor(signal, old screen)` |
| MenuUi.MainScreenShape | src/gui/menu/menu_items.c:20-26 | Four buttons signalling CONTINUE, NEW_GAME, OPTIONS and QUIT, requested at heights 200, 260, 320 and 380 |
| MenuUi.PlaceholderShape | src/gui/menu/menu_items.c:12-17 | One button signalling GOTO_MAIN, requested at win_h − 100 |
| MenuUi.ContinueShape | src/gui/menu/menu_items.c:29-35 | Two buttons 70 apart: first NONE, which never hovers, then GOTO_MAIN |
| MenuUi.ScreenForMapping | src/gui/menu/menu_items.c:44-63 | CONTINUE, NEW_GAME and OPTIONS give their placeholder screens and GOTO_MAIN gives the main screen. QUIT, NONE and every other signal leave the buttons unchanged |
| MenuUi.Menu.SetEventBus | src/gui/menu/menu.c:56-58 | Only the event bus changes |
| MenuUi.Menu.GetLastSignal | src/gui/menu/menu.c:145-147 | Reads the last signal without resetting it |
| MenuUi.Menu.PopSignal | src/gui/menu/menu.c:165-169 | Returns the last signal and resets it to NONE, so an immediate second pop returns NONE |
| MenuUi.Menu.HoverButtons | src/gui/menu/menu.c:100-101 | The buttons become `HoverAll` of the old ones |
| MenuUi.Menu.FindHit | src/gui/menu/menu.c:105-106 | The loop finds `FirstHit` and changes nothing |
| MenuUi.Menu.Click | src/gui/menu/menu.c:107-125 | The clicked signal is recorded and one SIGNAL event carrying it goes to every "menu_signals" listener when a bus is set. The screen becomes `ScreenFor` the signal |
| MenuUi.Menu.HandleInput | src/gui/menu/menu.c:92-130 | The buttons are hovered. On a click, the signal of the lowest-index hovered button is recorded, one SIGNAL event carrying it is emitted on "menu_signals" when a bus is set, and the screen is rebuilt for it. Without a click the signal is kept and nothing is emitted |

## Findings

| source | as written | input that shows it | evidently intended | confidence | as-written member | corrected member |
|---|---|---|---|---|---|---|
| src/core/state/state_manager.c:53-58 | `menu_pop_signal` returns a `MenuSignal` enum. `sm_update` stores it in a `const char *` and compares it with `strcmp`. | In MENU, the "New Game" button pops NEW_GAME, which becomes a small non-NULL address that `strcmp` dereferences. The state never becomes PLAY. | Compare the enum: NEW_GAME or CONTINUE switch MENU to PLAY. | high; not executed | CoreStateManager.UpdateAsWritten, CoreStateManager.AsWrittenNeverPlays | CoreStateManager.StateManager.Update, CoreStateManager.Transitions |
| src/core/resources/resource_manager.c:68-69 | The font cache key "<path>_<size>" is written into a 256-byte buffer, so it is cut at 255 characters. | A font path of 255 or more characters, for example from a base directory of 239 or more characters, loaded at sizes 12 and 24. Both get one key, so the second call returns the font of the wrong size. | A key unique per (path, size), as the comment at line 67 says. | medium; not executed | ResourceManager.FontKeyAsWritten, ResourceManager.LongBaseFontCollision | ResourceManager.FontKey, ResourceManager.FontKeyInjective |

`ResourceManager.Manager.LoadFont` uses the corrected key, and `CoreStateManager.StateManager.Update` uses the corrected comparison.

## Left out

- NULL checks on the receiver object: `sm`, `map`, `m`, `bus`, the stack, the settings store. A Dafny method runs on an existing object. Parameters that the C code accepts as NULL are modelled: instances, keys, names, paths, the render service and the audio.
- Allocation failures: `malloc`/`calloc`/`realloc` returning NULL, the `LOG_FATAL` in `reserve`, and the early return in `channel_subscribe`. Every allocation succeeds in the model.
- Logging: every `LOG_*`, `SDL_Log` and `printf` call is a no-op.
- Freeing: `svc_destroy`, `channel_destroy`'s frees, `comp_stack_destroy`'s frees, `hashmap_destroy`, `resource_cache_destroy`, `resource_manager_destroy`, `audio_destroy`, `am_destroy`, `menu_destroy`, `button_destroy`, `sm_destroy` and `sm_settings_destroy`. The destroy methods that are modelled only state the emptied fields. Dafny has no manual memory.
- `strdup` copies: strings are values, so copying a name is the same as keeping it.
- Settings persistence (`sm_save_settings`, `sm_load_settings`, src/core/settings/settings_manager.c:537-679), the UI copy functions (682-796), and the trailing load at src/core/settings/default_settings.c:46-52. They are file I/O and allocation.
- Settings.SettingsManager.SetFloat: floats are modelled as exact reals, so IEEE single-precision rounding in the stepping at src/core/settings/settings_manager.c:383-386 is not captured. `RegisterFloatSetting`, `GetFloat`, `FloatWriteInRange` and `FloatWriteIdempotent` share this choice.
- Settings.SettingsManager.RegisterStringSetting: the default is a `string`, so a NULL `default_value` is not modelled. The C accepts it; `strdup_safe` stores it as NULL (src/core/settings/settings_manager.c:77-78, 250-251). `sm_get_string` would then return NULL rather than "", and a later `sm_set_string` or `sm_reset_setting` would pass NULL to `strcmp` (lines 418 and 504).
- Bounded copies count characters, not bytes: `Truncate`, as used by `AddLayer` (31), `ResourcePath` (1023), `FontKeyAsWritten` (255) and `PlaceholderLabel` (63), cuts after n characters, while `strncpy` and `snprintf` cut after n bytes, possibly inside a multi-byte UTF-8 character. The two agree on ASCII text. The placeholder label holds a 3-byte en dash, so for a title longer than 48 bytes the C cuts 2 bytes or more earlier than the model. `PlaceholderFits` proves in bytes that the titles the menu uses are not cut at all.
- Settings.SettingsManager.SetInt: `int` is unbounded here, so a `value - min` that overflows 32 bits (for example with min = INT_MIN) is not modelled.
- Settings.SettingsManager.RegisterEnumSetting: a failed `malloc` of the option array, which would leave the option count 0, is not modelled.
- `sm_initialize_menu_music` (src/core/state/state_manager.c:10-29): float volume arithmetic that feeds the mixer.
- `sm_render`, `menu_render`, `button_render`, `renderer_init`/`renderer_shutdown`, the clear in `renderer_begin_frame`, and every other SDL drawing call. `BeginFrame` only reports whether it would clear.
- The clock layer (`layer_clock_update`) and the clock service are opaque. The layer is a function handle. The four `LAYER_PRIORITY_*` constants live in a header that is not part of this model, so the four priorities are a parameter. `StandardOrder` assumes clock >= input >= render >= present, the order in which `register_standard_layers` pushes them (src/core/compute/computation_layers.c:36-40, "highest priority first").
- SDL_mixer: the results of `Mix_OpenAudio`, `Mix_LoadMUS`/`Mix_LoadWAV` and `Mix_PlayMusic`/`Mix_PlayChannel` are parameters. `Mix_VolumeMusic`/`Mix_VolumeChunk`, `Mix_HaltMusic`/`Mix_HaltChannel` and `Mix_AllocateChannels` are not modelled. The `mixer_init_once` flag is the `mixerReady` parameter of `Manager.Create`.
- `am_play_oneshot` and `menu_play_select_sound` (src/gui/menu/menu.c:41-54): the one-shot player is declared in a header whose implementation is not part of this model, so the select sound of a click is not modelled.
- SDL_image, SDL_ttf and texture creation: the loaded surface, decoded chunk, font face and created texture are parameters, and `SDL_FreeSurface` is not modelled. `load_*`'s `if (!path)` branches are unreachable, because the path getters return a static buffer, and are omitted.
- `SDL_GetBasePath` is the `base` parameter of the path getters. `None` is a base the platform could not report.
- `hashmap_hash` reads `char`s: key characters are taken as bytes 0..255, and a platform with signed `char` would hash bytes above 127 differently.
- Settings.Notify: `trigger_callbacks` (src/core/settings/settings_manager.c:71-75) calls each callback synchronously from inside `sm_set_*`, `sm_reset_setting`, `sm_reset_category` and `sm_reset_to_defaults`. Here the calls are recorded as `Invocation`s, not run. So the new table that SetInt, SetFloat, SetBool, SetString, SetEnum, ResetSetting, ResetCategory and ResetToDefaults state holds only for callbacks that leave the store alone; a callback that sets a value or unregisters itself during dispatch is not modelled.
- Re-entrancy in `bus_emit`: listeners are handles whose calls are recorded, not run, so a listener that changes the bus during dispatch is not modelled. The signal cell that `menu_handle_input` allocates for the event is a `SignalCell` value, and its leak is not modelled.
- The `menu_create` resources: the fonts, the title texture and the background texture. Label rendering, which yields the label size or nothing, is the menu's `render` parameter. `menu_center_x` and `menu_get_fonts` are trivial getters and are not modelled.
- MenuUi.Menu.BuildContinue: `win_h * 0.2` is a double product truncated to `int`. For every `int` height that equals `h / 5` truncated toward zero, which is what the model uses.
- The legacy `src/state/state_manager.c` calls a menu revision that is not part of this model (`menu_handle_event`, a string-valued `menu_pop_signal`). The popped signal is the `popped` parameter of `LegacyStateManager.StateManager.Update`, and `sm_handle_event` does not model the menu's own reaction to the event.
- `get_state_object`'s `assert`s are preconditions of `StateFunctions.GetStateObject`. The `update` and `exit` hooks of the menu and play states are empty methods with nothing to state, and `create_state_vtable` is never called.
- The services field that `menu_state_enter`, `play_state_enter` and `quit_state_enter` read through `svc_get` is not declared in src/core/state/state_manager.h. The hooks take the render service directly.
- Header and body disagree on `menu_build_from_signal`: src/gui/menu/menu_items.h:8 declares a string parameter, while the body at src/gui/menu/menu_items.c:44 takes a `MenuSignal`. The body is modelled, with signals as ints, and the button's `signal` field holds that int (NONE = 0 plays the role of the NULL signal in `button_hover`).
