# PetSpa front end: a verified model of its core

PetSpa is a React front end for a pet grooming shop. This project models the
parts of it that make decisions, one Dafny module per part:

- **ChatNodes** and **ChatEngine**: the chat flow engine (`Chat.tsx`).
  - ChatNodes is the node table: the message, the options, the input change
    and the input handler of every node id. It also holds the handlers, and
    the `finalizeSchedule` booking computation.
  - ChatEngine has class `Chat`, the component. Its fields are the
    transcript, `flowContext`, the flow/AI mode, `inputType`, `inputHandler`
    and the processing overlay. Its methods are `processNode`,
    `handleOption` and `handleInputSubmit`.
- **ChatScenarios**: whole conversations driven through those methods.
- **AddPetWizard**: the step machine of the add-pet wizard and its draft.
- **Marketplace**: the catalog, its category filter, and the cart mirrored to
  local storage.
- **Admin**: the appointment list, the dashboard slice, and the kanban
  columns with their advance buttons.
- **PetsWorkspace**: the pets list of `App.tsx`, with its search and the
  replace-by-id update.
- **Login**: the login page's submit handler.
- **Mascot**: the rules for showing the mascot and its bubble, and its
  click dispatch.
- **Common**: shared helpers: `Option`, an order-keeping `Filter`, and the
  string functions the source relies on (`trim`, `toLowerCase`,
  `includes`).

The outside world is not modelled. The backend, the AI service, the clock
and the date formatting are supplied as parameters:

- An `Env` value fixes what the chat sees:
  - the session;
  - what `getMyPets` and `getServices` return, or that they reject;
  - how `signIn` and `signUp` settle;
  - whether `createAppointment` throws;
  - the AI's reply;
  - the date parse and format functions.
- The calls the code issues are returned as a list of `Call` values, so
  contracts can state exactly what was sent.

Asynchronous handlers are modelled in one of two ways:

- Where no other event can observe a state in between, the handler is one
  method.
- Where the state during the `await` is visible, the handler is split at the
  `await`: `FetchStart`/`FetchSettle` for the admin panel and
  `SubmitStart`/`SubmitSettle` for the login page.

One conversation shows a behaviour of the code worth knowing
(`ChatScenarios.QuestionAfterRejectedLogin`):

- `startAiChat` switches to AI mode but leaves the installed input handler in
  place.
- A visitor whose sign-in through the chat is rejected is back at the
  account choice with the sign-in handler still installed. If they pick
  "Voltar" and then "🧠 Dicas com IA", the question they type goes to
  `signIn` as a password, and the AI is never asked.
- No session appears on this path, so the shell in src/App.tsx keeps the chat
  mounted. After a successful sign-in the same holds of the component on its
  own (`ChatScenarios.LoginConversation` leaves the handler installed). But
  the shell switches to the dashboard as soon as a session appears
  (src/App.tsx:35-40), which unmounts the chat (src/App.tsx:275). A reopened
  chat is a fresh component with no handler.
- The model reproduces this as written.

## Model

| member | source | states |
|---|---|---|
| ChatNodes.Node | src/components/Chat.tsx:66-307 | the case of `processNode`'s switch for a node id: its message, options, input change and handler, given the session and the fetched pets and services |
| ChatNodes.NodeMessage | src/components/Chat.tsx:66-306 | `node.message` of each case, filling the templates from the context (an unset field reads `undefined`) and the session; the default is "Entendido." |
| ChatNodes.NodeOptions | src/components/Chat.tsx:66-306 | `node.options` of each case: the two START menus, the auth choice, one option per pet or service, the confirm pair, and Menu Principal → START by default |
| ChatNodes.NodeInput | src/components/Chat.tsx:66-306 | what each case does to `inputType`: set a kind, set null, or, where the case never calls `setInputType`, keep the current one |
| ChatNodes.NodeHandler | src/components/Chat.tsx:108-260 | the closure each prompt case passes to `setInputHandler`; the other cases install none |
| ChatNodes.Show | src/components/Chat.tsx:148-267 | a context field inside a template literal: its text, its number in decimal, or `undefined` when unset |
| ChatNodes.FirstWord | src/components/Chat.tsx:73 | `split(' ')[0]`: the longest space-free prefix, followed by a space or the end |
| ChatNodes.Greeting | src/components/Chat.tsx:73 | `full_name?.split(' ')[0] \|\| 'Tutor'` |
| ChatNodes.PetOptions | src/components/Chat.tsx:218-224 | `pets.map(...)`: one `setFlowData` option per pet, in order |
| ChatNodes.ServiceOptions | src/components/Chat.tsx:234-244 | `services.map(...)`: one `setFlowData` option per service, in order |
| ChatNodes.PetNames | src/components/Chat.tsx:294 | `myPets.map(p => p.name)`, same length and order |
| ChatNodes.RunHandler | src/components/Chat.tsx:108-260 | each input-handler closure on the raw value: the context it stores, the sign-in or sign-up call it issues, the error note it adds and the node id it returns, by the call's outcome |
| ChatNodes.DurationMinutes | src/components/Chat.tsx:339 | `serviceDuration \|\| 60`: zero or missing counts as an hour |
| ChatNodes.Finalize | src/components/Chat.tsx:335-343 | the `try` block of `finalizeSchedule`: the appointment requested, if any, and whether it reached the `catch` |
| ChatNodes.NodeMessageNonEmpty | src/components/Chat.tsx:66-306 | every node id, including an unknown one, has a non-empty message, so `if (node.message)` always adds it |
| ChatNodes.UnknownNodeFallback | src/components/Chat.tsx:305-306 | an id without a case gets "Entendido." with the single option Menu Principal → START, and changes neither the input form nor the handler |
| ChatNodes.StartMenus | src/components/Chat.tsx:67-92 | START offers the signed-in menu when a session exists and the guest menu otherwise; in both, the first option leads to FLOW_SCHEDULE_INIT, and the text input is shown |
| ChatNodes.HandlerNodes | src/components/Chat.tsx:108-182 | exactly the seven prompt nodes install a handler, and each of them shows an input |
| ChatNodes.LoginChain | src/components/Chat.tsx:108-135 | the e-mail is stored under `loginEmail` and the password asked for next; sign-in gets the stored e-mail and the raw password; an error leads to FLOW_AUTH_CHOICE with the "❌" note, success to AUTH_SUCCESS, an exception to START with its note |
| ChatNodes.RegisterChain | src/components/Chat.tsx:138-182 | name, e-mail and phone are stored in turn (name → email → phone → pass); sign-up gets all of them; an error leads to FLOW_AUTH_CHOICE with the message, success to AUTH_SUCCESS_REGISTER, an exception to START |
| ChatNodes.RunHandlerKeepsDuration | src/components/Chat.tsx:108-260 | no input handler, from the login and register chains to the date handler, writes `serviceDuration`, so it stays a number |
| ChatNodes.ScheduleInitOptions | src/components/Chat.tsx:207-227 | a visitor is sent to log in or back; a user without pets to the profile or back; otherwise there is exactly one `setFlowData` option per pet, with payload {petId, petName} and next FLOW_SCHEDULE_SERVICE |
| ChatNodes.ScheduleServiceOptions | src/components/Chat.tsx:229-246 | one option per service, with payload {serviceId, serviceName, servicePrice, serviceDuration} and next FLOW_SCHEDULE_DATE |
| ChatNodes.ScheduleDateAndConfirm | src/components/Chat.tsx:248-273 | FLOW_SCHEDULE_DATE shows the datetime input and its handler stores `appointmentTime` with no check, leading to CONFIRM; "Sim" finalizes and leads to END_SUCCESS; "Cancelar" leads to START |
| ChatNodes.NodeGraphClosed | src/components/Chat.tsx:66-306 | every option and every handler names a node that has a case of its own, so the dialogue never reaches the fallback |
| ChatNodes.NodeOptionsTyped | src/components/Chat.tsx:229-246 | every option payload stores a number, or nothing, as the duration |
| ChatNodes.GreetingIsFirstWord | src/components/Chat.tsx:73 | the greeting is a non-empty, space-free prefix of the full name, or "Tutor" when there is none |
| ChatNodes.FinalizeBooking | src/components/Chat.tsx:335-343 | without a session nothing is requested and nothing fails; with one, an unparsable start is a technical error; otherwise exactly one request is issued, for the context's pet and service, ending `(serviceDuration \|\| 60)` minutes after its start |
| ChatNodes.FinalizeExample | src/components/Chat.tsx:337-341 | a 60-minute service booked at 10:00 yields one request ending at 11:00 |
| ChatEngine.Entered | src/components/Chat.tsx:309 | what entering a node appends: its message with its options, or nothing when its fetch rejects |
| ChatEngine.Display | src/components/Chat.tsx:358-359 | the echoed text: the mask for a password, the locale rendering for a date-time, the raw value otherwise |
| ChatEngine.Turns | src/components/Chat.tsx:379-382 | `map(m => ({role, parts}))`: one turn per message, user → `user`, bot → `model` |
| ChatEngine.History | src/components/Chat.tsx:379-382 | `messages.slice(-6)` mapped to turns |
| ChatEngine.Merged | src/components/Chat.tsx:331-333 | `{ ...prev, ...opt.payload }` for `setFlowData`; any other action leaves the context |
| ChatEngine.NavCalls | src/components/Chat.tsx:345-347 | the `onNavigate` route of each `nav*` action |
| ChatEngine.Chat.constructor | src/components/Chat.tsx:24-36 | on mount the context is empty, the mode is flow, a text input is open with no handler, and START's message is the transcript (initial `processNode('START')` at lines 390-392) |
| ChatEngine.Chat.AddMessage | src/components/Chat.tsx:52-54 | one message is appended at the end, and nothing else changes |
| ChatEngine.Chat.ProcessNode | src/components/Chat.tsx:56-310 | back to flow mode with the overlay off; the node's input change and handler are applied; exactly its message is appended, unless its fetch rejects |
| ChatEngine.Chat.ShowNode | src/components/Chat.tsx:309 | appends the node's message and options, or nothing when the fetch rejects |
| ChatEngine.Chat.HandleOption | src/components/Chat.tsx:312-351 | the label is echoed first; `startAiChat` enters AI mode with its banner and no node; `logout` signs out and ends in START as a visitor; otherwise the payload is merged, the booking and navigation calls are issued, the error note is appended and the next node, if any, is entered |
| ChatEngine.Chat.EnterAiMode | src/components/Chat.tsx:317-322 | AI mode, the banner with "Encerrar IA" → START, and both the context and the handler unchanged |
| ChatEngine.Chat.LogOut | src/components/Chat.tsx:324-329 | exactly one `signOut`, the goodbye message, then START entered with no session |
| ChatEngine.Chat.RunAction | src/components/Chat.tsx:331-350 | `setFlowData` merges the payload, with the new keys winning; `finalizeSchedule` books; the `nav*` actions navigate; then `nextNode`, or the overlay goes off when there is none |
| ChatEngine.Chat.Book | src/components/Chat.tsx:335-343 | at most one appointment request, and "Houve um erro técnico." exactly when the `try` block fails |
| ChatEngine.Chat.HandleInputSubmit | src/components/Chat.tsx:353-388 | a blank value changes nothing; otherwise the value is echoed (masked for a password) and goes raw to the installed handler, whose node is entered, or with the last six messages to the AI |
| ChatEngine.Chat.SubmitToHandler | src/components/Chat.tsx:367-374 | the input is hidden, the handler's calls are issued, its note is added, and the node it returns is entered |
| ChatEngine.Chat.SubmitToAi | src/components/Chat.tsx:377-387 | one AI request with the history, and the reply carries Menu Principal → START |
| ChatEngine.EnteredOneMessage | src/components/Chat.tsx:56-310 | entering a node appends exactly one bot message, its own, unless the fetch rejects; then it appends none |
| ChatEngine.OnlyFetchingNodesFail | src/components/Chat.tsx:207-246 | only the nodes that load pets or services can fail, and with both loaded none fails |
| ChatEngine.HistoryIsLastSix | src/components/Chat.tsx:379-382 | the AI sees the last six messages, or all when there are fewer, in order, with user messages as `user` turns and bot messages as `model` |
| ChatEngine.PasswordMasked | src/components/Chat.tsx:358-359 | a password is echoed as the mask whatever was typed; text and number input is echoed as typed |
| ChatScenarios.Follow | src/components/Chat.tsx:312-351 | clicking a plain option of the last bot message makes the next node's message the last one |
| ChatScenarios.Type | src/components/Chat.tsx:353-374 | typing into a handler issues its calls and leaves its node's message last |
| ChatScenarios.OpenLoginForm | src/components/Chat.tsx:67-118 | from mount, "Login / Cadastro" then "Entrar" opens the e-mail prompt with its handler installed |
| ChatScenarios.LoginAttempt | src/components/Chat.tsx:108-135 | a visitor typing an e-mail and a password issues one sign-in with the typed e-mail and the raw password, sees only the mask, keeps the sign-in handler installed, and ends on the node the outcome leads to |
| ChatScenarios.LoginConversation | src/components/Chat.tsx:108-204 | when the sign-in succeeds, the chat lands on AUTH_SUCCESS with its two options |
| ChatScenarios.RejectedLogin | src/components/Chat.tsx:95-135 | when the sign-in reports an error, the chat is back at FLOW_AUTH_CHOICE, still without a session, with the sign-in handler installed |
| ChatScenarios.QuestionAfterRejectedLogin | src/components/Chat.tsx:317-374 | after that rejected sign-in, "Voltar" then "🧠 Dicas com IA" enter AI mode, but the next question goes to `signIn` as a password, because the handler is never reset |
| AddPetWizard.Enabled | src/components/AddPetWizard.tsx:51-163 | which controls each step renders and enables: Back always, the breed cards, Continue (disabled without a breed) and Skip on step 1, the name field and Continue (disabled without a name) on step 2, the size cards and Finish on step 3, Save on any later step |
| AddPetWizard.Step | src/components/AddPetWizard.tsx:31-163 | what an enabled control does: the handlers `handleNext`, `handleBack`, `handleSubmit` and the `setFormData` calls of the cards and the name field |
| AddPetWizard.Run | src/components/AddPetWizard.tsx:31-163 | the state after a series of controls, one after the other |
| AddPetWizard.Wizard.constructor | src/components/AddPetWizard.tsx:22-29 | the wizard starts on step 1 with name '', breed '' and size medium |
| AddPetWizard.Wizard.HandleNext | src/components/AddPetWizard.tsx:31 | one step on, never past step 5 |
| AddPetWizard.Wizard.HandleBack | src/components/AddPetWizard.tsx:32 | on step 1 the wizard closes and the step stays; otherwise one step back |
| AddPetWizard.Wizard.HandleSubmit | src/components/AddPetWizard.tsx:34-36 | the draft is handed to `onComplete` unchanged |
| AddPetWizard.Wizard.Press | src/components/AddPetWizard.tsx:63-165 | acting on a control of the current screen keeps the step in 1..5 and matches the step function |
| AddPetWizard.StepInRange | src/components/AddPetWizard.tsx:23-32 | no control takes the step outside 1..5 |
| AddPetWizard.RunInRange | src/components/AddPetWizard.tsx:23-32 | no series of controls takes the step outside 1..5 |
| AddPetWizard.NeverPastSizeStep | src/components/AddPetWizard.tsx:153-165 | step 3 has no forward control, so steps 4 and 5, and their Save button, are never reached |
| AddPetWizard.CompletedBreedsAreCards | src/components/AddPetWizard.tsx:12-70 | every draft handed over has no breed, or the breed of one of the cards |
| AddPetWizard.BreedStepGuards | src/components/AddPetWizard.tsx:78-79 | step 1's Continue moves on exactly when a breed is chosen; Skip always moves on; neither changes the draft |
| AddPetWizard.NameStepGuard | src/components/AddPetWizard.tsx:117 | step 2's Continue moves on exactly when a name is typed |
| AddPetWizard.SizeOnlySetsSize | src/components/AddPetWizard.tsx:135-149 | a size card sets the size and nothing else |
| AddPetWizard.FinishHandsOverDraft | src/components/AddPetWizard.tsx:153 | Finish hands over the draft unchanged and stays on step 3 |
| AddPetWizard.BackStep | src/components/AddPetWizard.tsx:32 | Back closes the wizard on step 1 and goes one step back otherwise |
| AddPetWizard.HappyPath | src/components/AddPetWizard.tsx:63-153 | breed, name, size and Finish hand over exactly those answers |
| Marketplace.Filtered | src/components/Marketplace.tsx:43 | `category === 'all' ? PRODUCTS_DB : PRODUCTS_DB.filter(p => p.category === category)` |
| Marketplace.Total | src/components/Marketplace.tsx:44 | `cart.reduce((acc, item) => acc + item.price, 0)` |
| Marketplace.SpliceStart | src/components/Marketplace.tsx:37 | where `splice(idx, 1)` starts: a negative index counts from the end, clamped to the array |
| Marketplace.Splice | src/components/Marketplace.tsx:36-38 | the copy `[...cart]` after `splice(idx, 1)` |
| Marketplace.Badge | src/components/Marketplace.tsx:62 | the count badge of a non-empty cart |
| Marketplace.CheckoutEnabled | src/components/Marketplace.tsx:119 | `disabled={cart.length === 0}` negated |
| Marketplace.Shop.constructor | src/components/Marketplace.tsx:23-26 | a stored cart, if any, is loaded, and the stored copy mirrors the cart |
| Marketplace.Shop.AddToCart | src/components/Marketplace.tsx:28-34 | the product is appended at the end, the stored copy equals the cart, the sidebar opens and the toast is shown |
| Marketplace.Shop.RemoveFromCart | src/components/Marketplace.tsx:36-41 | the cart becomes its `splice(idx, 1)` copy, and the stored copy equals it |
| Marketplace.Shop.HandleCheckout | src/components/Marketplace.tsx:46-51 | the cart is emptied, the stored copy removed and the sidebar closed |
| Marketplace.Shop.SetShelf | src/components/Marketplace.tsx:67-68 | a filter button changes only the filter |
| Marketplace.FilteredShelves | src/components/Marketplace.tsx:8-43 | "all" shows the whole catalog; each category shows exactly its products, in catalog order |
| Marketplace.FilteredIsCategory | src/components/Marketplace.tsx:43 | a product is shown for a category exactly when it is in the catalog and of that category |
| Marketplace.TotalAppend | src/components/Marketplace.tsx:44 | the empty cart totals 0, and the total of a concatenation is the sum of the totals |
| Marketplace.TotalSplice | src/components/Marketplace.tsx:36-44 | removing item i takes exactly its price off the total |
| Marketplace.TotalNonNegative | src/components/Marketplace.tsx:44 | a cart of non-negative prices has a non-negative total |
| Marketplace.SpliceRemovesOne | src/components/Marketplace.tsx:36-38 | removing at a valid index removes exactly that element and keeps the rest in order: one fewer item, the same multiset less that one |
| Marketplace.SpliceOutOfRange | src/components/Marketplace.tsx:36-38 | past the end nothing is removed; -1 removes the last element |
| Marketplace.BadgeMatchesCheckout | src/components/Marketplace.tsx:62-119 | the badge is hidden and checkout disabled exactly when the cart is empty; the badge shows the count |
| Marketplace.AddThenRemove | src/components/Marketplace.tsx:28-41 | adding a product and removing it again gives back the cart, and adding adds its price to the total |
| Admin.Advance | src/components/Admin.tsx:40-42 | the status each column's button sends: Aprovar, Iniciar, Finalizar, and none for the last column |
| Admin.Column | src/components/Admin.tsx:83-86 | `appointments.filter(a => a.status === status)` |
| Admin.Dashboard | src/components/Admin.tsx:67 | `appointments.slice(0, 5)` |
| Admin.AdminPanel.constructor | src/components/Admin.tsx:7-9 | the panel mounts with an empty list, the dashboard tab, and loading on |
| Admin.AdminPanel.FetchStart | src/components/Admin.tsx:11-14 | loading is on while the list is requested |
| Admin.AdminPanel.FetchSettle | src/components/Admin.tsx:14-17 | loading goes off whether the fetch resolves or throws; a list that arrives replaces the old one |
| Admin.AdminPanel.PressAdvance | src/components/Admin.tsx:22-42 | a card's button sends the next status and then reloads the list; the last column sends nothing; a rejected update does not reload |
| Admin.AdminPanel.SetTab | src/components/Admin.tsx:56-57 | a tab button changes only the tab |
| Admin.AdvanceIsNextColumn | src/components/Admin.tsx:40-42 | a button moves a card exactly one column right; completed cards and off-board statuses have none |
| Admin.AdvanceChain | src/components/Admin.tsx:40-42 | the only advances are pending → confirmed → in_progress → completed, and none goes back to pending or stays put |
| Admin.ColumnMembers | src/components/Admin.tsx:83-86 | a column holds exactly the appointments with its status |
| Admin.ColumnAppend | src/components/Admin.tsx:83-86 | columns keep list order: the column of a concatenation is the concatenation of the columns |
| Admin.ColumnsDisjoint | src/components/Admin.tsx:83-86 | two columns never share a card, and a card with another status is on none |
| Admin.ColumnsPartition | src/components/Admin.tsx:83-86 | the four columns and the off-board cards together count every appointment exactly once |
| Admin.DashboardIsPrefix | src/components/Admin.tsx:66-67 | the dashboard is the first min(5, n) appointments |
| PetsWorkspace.Matches | App.tsx:59-62 | the lower-cased name or owner name includes the lower-cased term |
| PetsWorkspace.FilteredPets | App.tsx:59-62 | `pets.filter(...)` with that match |
| PetsWorkspace.Workspace.constructor | App.tsx:7-52 | the workspace starts with the three mock pets, no open pet and an empty search |
| PetsWorkspace.Workspace.HandlePetUpdate | App.tsx:54-57 | the pet is replaced by id in the list and stays open |
| PetsWorkspace.Workspace.Select | App.tsx:127 | clicking a card opens that pet |
| PetsWorkspace.Workspace.Back | App.tsx:64-72 | back clears the open pet, and the filtered list is shown again |
| PetsWorkspace.Workspace.SetSearch | App.tsx:52 | typing in the search changes only the term |
| PetsWorkspace.ReplaceById | App.tsx:55 | the length is kept; every pet with the updated id is replaced and the others are unchanged |
| PetsWorkspace.ReplaceUnknownId | App.tsx:55 | an update with an id nobody has changes nothing |
| PetsWorkspace.ReplaceIdempotent | App.tsx:55 | updating twice is updating once, and no pet changes its id |
| PetsWorkspace.UpdatedPetListed | App.tsx:55-56 | after updating a listed id, the updated pet is in the list |
| PetsWorkspace.FilteredMembers | App.tsx:59-62 | a pet is listed exactly when it is in the list and its lower-cased name or owner contains the lower-cased term |
| PetsWorkspace.EmptySearchKeepsAll | App.tsx:59-62 | an empty search keeps every pet, in order |
| PetsWorkspace.SearchIgnoresCase | App.tsx:59-62 | lower-casing the term does not change the result |
| Login.ErrorToast | src/views/Login.tsx:34 | `err.message \|\| 'Erro no login.'` |
| Login.Settle | src/views/Login.tsx:26-35 | the stage and toast one attempt ends with: welcome without an error, idle with the toast on an error result or a throw |
| Login.LoginPage.ButtonEnabled | src/views/Login.tsx:50 | `disabled={isSubmitting}` negated |
| Login.LoginPage.SetEmail | src/views/Login.tsx:48 | the e-mail field's `onChange` sets the e-mail and nothing else |
| Login.LoginPage.SetPass | src/views/Login.tsx:49 | the password field's `onChange` sets the password and nothing else |
| Login.LoginPage.constructor | src/views/Login.tsx:16 | the page starts empty and not submitting |
| Login.LoginPage.SubmitStart | src/views/Login.tsx:19-26 | the flag goes up and 'authenticating' is set before the sign-in gets the two fields |
| Login.LoginPage.SubmitSettle | src/views/Login.tsx:26-38 | the flag goes down on every path; success sets 'welcome'; an error result or an exception sets 'idle' with its toast |
| Login.LoginPage.HandleSubmit | src/views/Login.tsx:19-50 | a whole attempt sets 'authenticating' and then the settled stage, and leaves the button enabled again |
| Login.SettleOutcomes | src/views/Login.tsx:26-35 | welcome exactly on success with no toast; idle with one toast, the message or "Erro no login.", on an error |
| Login.ToastNeverEmpty | src/views/Login.tsx:27-34 | the error toast is never empty |
| Mascot.Visible | src/components/MascotCompanion.tsx:32 | the negation of the early `return null` |
| Mascot.BubbleShown | src/components/MascotCompanion.tsx:36 | `showMascotBubble && mascotMessage` on a drawn mascot |
| Mascot.Dispatch | src/components/MascotCompanion.tsx:39-47 | the callback each handler calls: the close button, the click (booking or login by session) and the hover |
| Mascot.VisibleIff | src/components/MascotCompanion.tsx:32 | the mascot is drawn exactly when the booking modal is closed, the view is not the chat and the login stage is idle |
| Mascot.BubbleIff | src/components/MascotCompanion.tsx:36 | the bubble shows exactly when the mascot is drawn, the flag is up and the message is non-empty |
| Mascot.DispatchEffects | src/components/MascotCompanion.tsx:39-47 | close lowers the flag, hover raises it, and a click books with a session and asks to log in otherwise |
| Mascot.BubbleAfterEvents | src/components/MascotCompanion.tsx:36-47 | after a close the bubble is gone; after a hover it shows exactly when there is a message |
| Common.Trim | src/components/Chat.tsx:355 | `String.prototype.trim`: leading and trailing JavaScript whitespace and line terminators removed |
| Common.Lower | App.tsx:60-61 | `toLowerCase` character by character, within the letters it covers |
| Common.Contains | App.tsx:60-61 | `String.prototype.includes` |
| Common.IntToString | src/components/Chat.tsx:251 | a number inside a template literal, in decimal with a leading minus |
| Common.Join | src/components/Chat.tsx:294 | `Array.prototype.join(sep)` |
| Common.Filter | src/components/Admin.tsx:83-86 | a filter keeps exactly the elements that pass, and is never longer |
| Common.FilterAppend | App.tsx:59-62 | filtering distributes over concatenation, so list order is kept |
| Common.TrimEmptyIffBlank | src/components/Chat.tsx:355 | `trim()` is empty exactly when the value is whitespace only |
| Common.LowerIdempotent | App.tsx:59-62 | lower-casing twice is lower-casing once |
| Common.ContainsIff | App.tsx:59-62 | `includes` holds exactly when the needle occurs at some position |

## Left out

- I/O and the backend are parameters, not behaviour. This covers every `api.*` call, `geminiService`, `onNavigate` and the storage. Their answers come in through `Env` or method arguments, and the calls made are returned as values.
- Timers, the typing indicator (`isTyping`), scrolling, focus and all markup are left out. They change no state that the modelled behaviour reads.
- Concurrency and React's batched state: every handler runs to completion before the next event. Stale closures are not modelled; context updates take effect immediately.
  - In the source, the handlers' closures read the `flowContext` of the render they were created in.
  - This matters in the login and register handlers (src/components/Chat.tsx:121, 169) and in the node texts that `processNode` builds from the submitting render's context (lines 148, 251 and 265). It does not matter for `finalizeSchedule` (line 337): the "Sim" button is drawn after `appointmentTime` was stored, so its `handleOption` reads the current context.
  - The model applies each update at once, which is what the flow intends.
  - As React runs the source, the results differ:
    - the FLOW_LOGIN_PASS handler reads the context from before `loginEmail` was stored, so `signIn` gets `undefined` as the e-mail, not the typed one that `ChatScenarios.LoginConversation` states;
    - likewise `signUp` gets no phone;
    - the FLOW_REGISTER_EMAIL text (line 148) shows "Prazer, undefined!";
    - the FLOW_SCHEDULE_DATE text shows `undefined` for the service just chosen;
    - the FLOW_SCHEDULE_CONFIRM text (lines 265-267) shows the date as "Invalid Date", from `new Date(undefined)`.
- Prices are floats in the source and integer cents here. The wizard's progress bar percentage is left out.
- Common.Lower: lower-cases ASCII and Latin-1 letters only. JavaScript's full Unicode case mapping is not modelled.
- Message ids (`Date.now()`) are left out. Messages are compared by sender, text and options.
- Local storage keeps no JSON text. It is a ghost copy of the cart (`Marketplace.Shop.stored`).
- The date and currency formatting of src/utils/ui.ts is a set of uninterpreted function parameters (`Formats`). So is `new Date(...)`.
- A rejected `getMyPets` or `getServices` is modelled only as an aborted `processNode`: no message is added, since the source has no `try` there.
- `signOut` and `getSession` throwing is not modelled: both are taken to succeed.
- The date entered for a booking is never checked against the clock. The code has only the input's `min` attribute (src/components/Chat.tsx:478), not a past-date check, so the model stores any value.
- The pets' grooming logs and the session view (`PetSession`) are left out. Only the update it reports back is modelled.
- The admin panel's third view, 'employees', has a type but no tab button. It is not modelled.
- The shell's `LoginStage` and `Route` type files and src/components/Mascot.tsx (AI tips) are not part of this model.
- The login inputs' HTML `required` attribute (src/views/Login.tsx:48-49) is not modelled. The browser blocks a submit with an empty field, but `LoginPage.HandleSubmit` accepts empty fields.
