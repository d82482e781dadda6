/**
 * The chat component's state and its three event handlers: entering a node
 * (`processNode`), clicking an option (`handleOption`) and submitting the
 * input form (`handleInputSubmit`).
 *
 * Every remote call is abstracted: the outcomes an operation will meet (the
 * session, the pets and services lists or a rejected fetch, the result of a
 * sign-in or sign-up, a failing appointment request, the AI's reply) come in
 * an `Env` value, and the calls an operation issues are returned as a
 * sequence of `Call`s. Each operation runs to completion: the delays and the
 * separate renders between its steps are not modelled, and a context update
 * is visible to the step that follows it.
 */
module ChatEngine {
  import opened Common
  import opened ChatNodes

  datatype Sender = Bot | User

  /** A transcript entry; the `Date.now()` id is left out. */
  datatype Message = Message(sender: Sender, text: string, options: seq<ChatOption>)

  datatype Mode = FlowMode | AiMode

  /** What the outside world answers during one operation. `pets` or
      `services` is None when the fetch rejects. */
  datatype Env = Env(
    session: Option<Session>,
    pets: Option<seq<Pet>>,
    services: Option<seq<Service>>,
    signIn: AuthOutcome,
    signUp: AuthOutcome,
    createFails: bool,
    aiReply: string,
    fmt: Formats)

  const AiBanner: string := "Modo IA ativado! 🧠\nPergunte sobre raças, dicas de saúde ou cuidados."
  const PasswordMask: string := "••••••"

  function Echo(text: string): Message
  {
    Message(User, text, [])
  }

  /** The message a handler adds, if any: a bot message without options. */
  function NoteMessages(note: Option<string>): seq<Message>
  {
    if note.Some? then [Message(Bot, note.value, [])] else []
  }

  // ---------------------------------------------------------------------------
  // Entering a node.

  function Fetched<T>(o: Option<seq<T>>): seq<T>
  {
    if o.Some? then o.value else []
  }

  /** The node's own fetch rejects: `processNode` has no `catch`, so its
      promise rejects before the message is added. */
  predicate FetchFails(id: NodeId, env: Env)
  {
    (NeedsPets(id, env.session) && env.pets.None?) || (NeedsServices(id) && env.services.None?)
  }

  /** The text and the options of node `id` under `env`. */
  function TextOf(id: NodeId, env: Env, ctx: Context): string
  {
    NodeMessage(id, env.session, Fetched(env.pets), ctx, env.fmt)
  }

  function OptionsOf(id: NodeId, env: Env): seq<ChatOption>
  {
    NodeOptions(id, env.session, Fetched(env.pets), Fetched(env.services), env.fmt)
  }

  /** The messages that entering `id` appends. */
  function Entered(id: NodeId, env: Env, ctx: Context): seq<Message>
  {
    if FetchFails(id, env) || |TextOf(id, env, ctx)| == 0 then []
    else [Message(Bot, TextOf(id, env, ctx), OptionsOf(id, env))]
  }

  // ---------------------------------------------------------------------------
  // Submitting the input form.

  /** What the transcript shows for a submitted value. */
  function Display(kind: InputKind, raw: string, fmt: Formats): string
  {
    match kind
    case PasswordInput => PasswordMask
    case DateTimeInput => fmt.localDateTime(raw)
    case _ => raw
  }

  function ToTurn(m: Message): Turn
  {
    Turn(if m.sender == User then UserRole else ModelRole, m.text)
  }

  function Turns(ms: seq<Message>): (r: seq<Turn>)
    ensures |r| == |ms|
    ensures forall i :: 0 <= i < |ms| ==> r[i] == ToTurn(ms[i])
  {
    if ms == [] then [] else [ToTurn(ms[0])] + Turns(ms[1..])
  }

  /** `messages.slice(-6)` mapped to the AI's roles. */
  function History(ms: seq<Message>): seq<Turn>
  {
    Turns(if |ms| <= 6 then ms else ms[|ms| - 6..])
  }

  // ---------------------------------------------------------------------------
  // handleOption's result pieces.

  function NavCalls(a: Option<Action>): seq<Call>
  {
    match a
    case Some(NavLogin) => [Navigate("login")]
    case Some(NavTracker) => [Navigate("dashboard")]
    case Some(NavProfile) => [Navigate("user-profile")]
    case _ => []
  }

  function BookingCalls(r: FinalizeResult): seq<Call>
  {
    if r.booking.Some? then [CreateAppointment(r.booking.value)] else []
  }

  function ErrorNotes(r: FinalizeResult): seq<Message>
  {
    if r.failed then [Message(Bot, "Houve um erro técnico.", [])] else []
  }

  /** The context after an option: `setFlowData` spreads the payload over it. */
  function Merged(ctx: Context, opt: ChatOption): Context
  {
    if opt.action == Some(SetFlowData) then ctx + opt.payload else ctx
  }

  ghost predicate OptionsTyped(m: Message)
  {
    forall o :: o in m.options ==> DurationIsNumber(o.payload)
  }

  // ---------------------------------------------------------------------------
  // The component.

  class Chat {
    var messages: seq<Message>
    var flowContext: Context
    var mode: Mode
    var inputType: Option<InputKind>
    var inputHandler: Option<Handler>
    var processing: bool

    /** Between events the overlay is off, the context stores a number as the
        duration and so does every option button on screen. */
    ghost predicate Valid()
      reads this
    {
      !processing && Typed()
    }

    ghost predicate Typed()
      reads this
    {
      DurationIsNumber(flowContext) && forall m :: m in messages ==> OptionsTyped(m)
    }

    /** `opt` is a button on screen: an option of a bot message. */
    ghost predicate Offered(opt: ChatOption)
      reads this
    {
      exists m :: m in messages && m.sender == Bot && opt in m.options
    }

    /** Mounting the component enters START with the initial state. */
    constructor(env: Env)
      ensures Valid()
      ensures messages == Entered(Start, env, map[])
      ensures flowContext == map[] && mode == FlowMode
      ensures inputType == Some(TextInput) && inputHandler == None
    {
      messages := [];
      flowContext := map[];
      mode := FlowMode;
      inputType := Some(TextInput);
      inputHandler := None;
      processing := false;
      new;
      ProcessNode(Start, env);
    }

    method AddMessage(text: string, sender: Sender, options: seq<ChatOption>)
      modifies this
      ensures messages == old(messages) + [Message(sender, text, options)]
      ensures flowContext == old(flowContext) && mode == old(mode) && processing == old(processing)
      ensures inputType == old(inputType) && inputHandler == old(inputHandler)
    {
      messages := messages + [Message(sender, text, options)];
    }

    /** `processNode(id)`: back to flow mode with the overlay off, the node's
        input change and handler applied, and its message added unless its
        fetch rejects. */
    method ProcessNode(id: NodeId, env: Env)
      requires Typed()
      modifies this
      ensures Valid()
      ensures messages == old(messages) + Entered(id, env, old(flowContext))
      ensures flowContext == old(flowContext) && mode == FlowMode && !processing
      ensures inputType == ApplyInput(NodeInput(id), old(inputType))
      ensures inputHandler == Installed(NodeHandler(id), old(inputHandler))
    {
      mode := FlowMode;
      processing := false;
      inputType := ApplyInput(NodeInput(id), inputType);
      inputHandler := Installed(NodeHandler(id), inputHandler);
      ShowNode(id, env);
    }

    /** The end of `processNode`: `if (node.message) addMessage(...)`, reached
        only when the node's fetch did not reject. */
    method ShowNode(id: NodeId, env: Env)
      requires Typed()
      modifies this
      ensures Typed()
      ensures messages == old(messages) + Entered(id, env, old(flowContext))
      ensures flowContext == old(flowContext) && mode == old(mode) && processing == old(processing)
      ensures inputType == old(inputType) && inputHandler == old(inputHandler)
    {
      if !FetchFails(id, env) {
        var text := TextOf(id, env, flowContext);
        if |text| > 0 {
          NodeOptionsTyped(id, env.session, Fetched(env.pets), Fetched(env.services), env.fmt);
          AddMessage(text, Bot, OptionsOf(id, env));
        }
      }
    }

    /** `handleOption(opt)`: the label is echoed, then the action runs and the
        next node, if any, is entered. */
    method HandleOption(opt: ChatOption, env: Env) returns (calls: seq<Call>)
      requires Valid() && Offered(opt)
      modifies this
      ensures Valid()
      // startAiChat: AI mode, a banner, and no node entered.
      ensures opt.action == Some(StartAiChat) ==>
        && calls == []
        && messages == old(messages) + [Echo(opt.caption)] + [Message(Bot, AiBanner, [Go("Encerrar IA", Start)])]
        && mode == AiMode && flowContext == old(flowContext)
        && inputType == old(inputType) && inputHandler == old(inputHandler)
      // logout: signed out, told so, and back at START as a visitor.
      ensures opt.action == Some(Logout) ==>
        && calls == [SignOut]
        && messages == old(messages) + [Echo(opt.caption)] + [Message(Bot, "Você saiu da conta.", [])]
                       + Entered(Start, env.(session := None), old(flowContext))
        && mode == FlowMode && flowContext == old(flowContext)
        && inputType == Some(TextInput) && inputHandler == old(inputHandler)
      // every other action: merge, book, navigate, then enter the next node.
      ensures opt.action != Some(StartAiChat) && opt.action != Some(Logout) ==>
        var ctx := Merged(old(flowContext), opt);
        var fin := if opt.action == Some(FinalizeSchedule) then Finalize(ctx, env.session, env.fmt, env.createFails)
                   else FinalizeResult(None, false);
        && flowContext == ctx
        && calls == BookingCalls(fin) + NavCalls(opt.action)
        && (opt.next.Some? ==>
              && messages == old(messages) + [Echo(opt.caption)] + ErrorNotes(fin) + Entered(opt.next.value, env, ctx)
              && mode == FlowMode
              && inputType == ApplyInput(NodeInput(opt.next.value), old(inputType))
              && inputHandler == Installed(NodeHandler(opt.next.value), old(inputHandler)))
        && (opt.next.None? ==>
              && messages == old(messages) + [Echo(opt.caption)] + ErrorNotes(fin)
              && mode == old(mode) && inputType == old(inputType) && inputHandler == old(inputHandler))
    {
      var m :| m in messages && m.sender == Bot && opt in m.options;
      assert DurationIsNumber(opt.payload);
      processing := true;
      AddMessage(opt.caption, User, []);
      if opt.action == Some(StartAiChat) {
        EnterAiMode();
        return [];
      }
      if opt.action == Some(Logout) {
        calls := LogOut(env);
        return;
      }
      calls := RunAction(opt, env);
    }

    /** The `startAiChat` branch of `handleOption`. */
    method EnterAiMode()
      requires Typed()
      modifies this
      ensures Valid()
      ensures messages == old(messages) + [Message(Bot, AiBanner, [Go("Encerrar IA", Start)])]
      ensures mode == AiMode && flowContext == old(flowContext)
      ensures inputType == old(inputType) && inputHandler == old(inputHandler)
    {
      mode := AiMode;
      processing := false;
      AddMessage(AiBanner, Bot, [Go("Encerrar IA", Start)]);
    }

    /** The `logout` branch of `handleOption`: `signOut`, then START is
        entered, where `getSession` now finds no session. */
    method LogOut(env: Env) returns (calls: seq<Call>)
      requires Typed()
      modifies this
      ensures Valid()
      ensures calls == [SignOut]
      ensures messages == old(messages) + [Message(Bot, "Você saiu da conta.", [])]
                          + Entered(Start, env.(session := None), old(flowContext))
      ensures mode == FlowMode && flowContext == old(flowContext)
      ensures inputType == Some(TextInput) && inputHandler == old(inputHandler)
    {
      calls := [SignOut];
      AddMessage("Você saiu da conta.", Bot, []);
      ProcessNode(Start, env.(session := None));
      StartMenus(None, [], [], env.fmt);
    }

    /** The rest of `handleOption`: `setFlowData`, `finalizeSchedule` and the
        `nav*` actions, then `nextNode`. */
    method RunAction(opt: ChatOption, env: Env) returns (calls: seq<Call>)
      requires Typed() && DurationIsNumber(opt.payload)
      requires opt.action != Some(StartAiChat) && opt.action != Some(Logout)
      modifies this
      ensures Valid()
      ensures var ctx := Merged(old(flowContext), opt);
        var fin := if opt.action == Some(FinalizeSchedule) then Finalize(ctx, env.session, env.fmt, env.createFails)
                   else FinalizeResult(None, false);
        && flowContext == ctx
        && calls == BookingCalls(fin) + NavCalls(opt.action)
        && (opt.next.Some? ==>
              && messages == old(messages) + ErrorNotes(fin) + Entered(opt.next.value, env, ctx)
              && mode == FlowMode
              && inputType == ApplyInput(NodeInput(opt.next.value), old(inputType))
              && inputHandler == Installed(NodeHandler(opt.next.value), old(inputHandler)))
        && (opt.next.None? ==>
              && messages == old(messages) + ErrorNotes(fin)
              && mode == old(mode) && inputType == old(inputType) && inputHandler == old(inputHandler))
    {
      if opt.action == Some(SetFlowData) {
        flowContext := flowContext + opt.payload;
      }
      calls := [];
      if opt.action == Some(FinalizeSchedule) {
        calls := Book(env);
      } else {
        assert messages + [] == messages;
      }
      calls := calls + NavCalls(opt.action);
      if opt.next.Some? {
        ProcessNode(opt.next.value, env);
      } else {
        processing := false;
      }
    }

    /** The `finalizeSchedule` branch: at most one appointment request, and
        "Houve um erro técnico." when its `try` block throws. */
    method Book(env: Env) returns (calls: seq<Call>)
      requires DurationIsNumber(flowContext)
      modifies this
      ensures var fin := Finalize(old(flowContext), env.session, env.fmt, env.createFails);
        calls == BookingCalls(fin) && messages == old(messages) + ErrorNotes(fin)
      ensures flowContext == old(flowContext) && mode == old(mode) && processing == old(processing)
      ensures inputType == old(inputType) && inputHandler == old(inputHandler)
    {
      var r := Finalize(flowContext, env.session, env.fmt, env.createFails);
      calls := BookingCalls(r);
      if r.failed {
        AddMessage("Houve um erro técnico.", Bot, []);
      } else {
        assert messages + [] == messages;
      }
    }

    /** `handleInputSubmit` with `value` in the input box: a blank value is
        ignored; otherwise the value is echoed (masked for a password) and
        goes to the installed handler, whose node is then entered, or to the
        AI when no handler was ever installed. */
    method HandleInputSubmit(value: string, env: Env) returns (calls: seq<Call>)
      requires Valid() && inputType.Some?
      modifies this
      ensures Valid()
      ensures IsBlank(value) ==>
        && calls == [] && messages == old(messages) && flowContext == old(flowContext) && mode == old(mode)
        && inputType == old(inputType) && inputHandler == old(inputHandler)
      ensures !IsBlank(value) && old(inputHandler).Some? ==>
        var r := RunHandler(old(inputHandler).value, value, old(flowContext), env.signIn, env.signUp);
        && calls == r.calls
        && flowContext == r.ctx
        && messages == old(messages) + [Echo(Display(old(inputType).value, value, env.fmt))]
                       + NoteMessages(r.note) + Entered(r.next, env, r.ctx)
        && mode == FlowMode
        && inputType == ApplyInput(NodeInput(r.next), None)
        && inputHandler == Installed(NodeHandler(r.next), old(inputHandler))
      ensures !IsBlank(value) && old(inputHandler).None? ==>
        && calls == [AskAi(History(old(messages)), value)]
        && messages == old(messages) + [Echo(Display(old(inputType).value, value, env.fmt))]
                       + [Message(Bot, env.aiReply, [Go("Menu Principal", Start)])]
        && flowContext == old(flowContext) && mode == old(mode)
        && inputType == old(inputType) && inputHandler == None
    {
      TrimEmptyIffBlank(value);
      if |Trim(value)| == 0 {
        return [];
      }
      var history := History(messages);
      AddMessage(Display(inputType.value, value, env.fmt), User, []);
      processing := true;
      if inputHandler.Some? {
        calls := SubmitToHandler(value, env);
      } else {
        calls := SubmitToAi(value, history, env);
      }
    }

    /** The handler branch of `handleInputSubmit`: the input form is hidden,
        the handler runs on the raw value and its node is entered. */
    method SubmitToHandler(value: string, env: Env) returns (calls: seq<Call>)
      requires Typed() && inputHandler.Some?
      modifies this
      ensures Valid()
      ensures var r := RunHandler(old(inputHandler).value, value, old(flowContext), env.signIn, env.signUp);
        && calls == r.calls
        && flowContext == r.ctx
        && messages == old(messages) + NoteMessages(r.note) + Entered(r.next, env, r.ctx)
        && mode == FlowMode
        && inputType == ApplyInput(NodeInput(r.next), None)
        && inputHandler == Installed(NodeHandler(r.next), old(inputHandler))
    {
      inputType := None;
      var r := RunHandler(inputHandler.value, value, flowContext, env.signIn, env.signUp);
      RunHandlerKeepsDuration(inputHandler.value, value, flowContext, env.signIn, env.signUp);
      flowContext := r.ctx;
      calls := r.calls;
      if r.note.Some? {
        AddMessage(r.note.value, Bot, []);
      } else {
        assert messages + [] == messages;
      }
      ProcessNode(r.next, env);
    }

    /** The AI branch of `handleInputSubmit`: the reply comes back with a
        button to the main menu. */
    method SubmitToAi(value: string, history: seq<Turn>, env: Env) returns (calls: seq<Call>)
      requires Typed()
      modifies this
      ensures Valid()
      ensures calls == [AskAi(history, value)]
      ensures messages == old(messages) + [Message(Bot, env.aiReply, [Go("Menu Principal", Start)])]
      ensures flowContext == old(flowContext) && mode == old(mode)
      ensures inputType == old(inputType) && inputHandler == old(inputHandler)
    {
      processing := false;
      calls := [AskAi(history, value)];
      AddMessage(env.aiReply, Bot, [Go("Menu Principal", Start)]);
    }
  }

  // ---------------------------------------------------------------------------
  // Properties of entering a node and of the AI history.

  /** Entering a node appends exactly one bot message, the node's own, unless
      its fetch rejects; then it appends nothing. */
  lemma EnteredOneMessage(id: NodeId, env: Env, ctx: Context)
    ensures FetchFails(id, env) ==> Entered(id, env, ctx) == []
    ensures !FetchFails(id, env) ==>
      Entered(id, env, ctx) == [Message(Bot, TextOf(id, env, ctx), OptionsOf(id, env))]
  {
    NodeMessageNonEmpty(id, env.session, Fetched(env.pets), ctx, env.fmt);
  }

  /** Only the nodes that load pets or services can fail to show a message. */
  lemma OnlyFetchingNodesFail(id: NodeId, env: Env)
    ensures FetchFails(id, env) ==> id == FlowScheduleInit || id == CheckAuthPets || id == FlowScheduleService
    ensures env.pets.Some? && env.services.Some? ==> !FetchFails(id, env)
  {
  }

  /** The AI sees the last six messages (all of them when there are fewer),
      in order, with the user's as `user` turns and the bot's as `model`. */
  lemma HistoryIsLastSix(ms: seq<Message>)
    ensures |History(ms)| == Min(6, |ms|)
    ensures forall i :: 0 <= i < |History(ms)| ==>
      History(ms)[i].text == ms[|ms| - |History(ms)| + i].text
      && (History(ms)[i].role == UserRole <==> ms[|ms| - |History(ms)| + i].sender == User)
  {
  }

  /** A password is never echoed: whatever was typed, the transcript shows
      the mask. */
  lemma PasswordMasked(raw: string, fmt: Formats)
    ensures Display(PasswordInput, raw, fmt) == PasswordMask
    ensures forall k :: k != PasswordInput && k != DateTimeInput ==> Display(k, raw, fmt) == raw
  {
  }
}
