/**
 * The scripted dialogue of the PetSpa chat assistant: the node table that
 * `processNode` switches over, the input handlers that nodes install, and the
 * booking side effect of the "finalizeSchedule" action.
 *
 * Everything here is a pure function of the node id, the session, the data
 * fetched from the backend and the conversation context; the state that the
 * chat component updates step by step lives in module ChatEngine.
 */
module ChatNodes {
  import opened Common

  // ---------------------------------------------------------------------------
  // Node identifiers. The source switches over string literals; each literal
  // with a case of its own is a constructor here, and `Unlisted` stands for
  // any other string, which the switch sends to its `default` case.

  datatype NodeId =
    | Start | FlowAuthChoice | FlowLoginEmail | FlowLoginPass
    | FlowRegisterName | FlowRegisterEmail | FlowRegisterPhone | FlowRegisterPass
    | AuthSuccess | AuthSuccessRegister
    | FlowScheduleInit | FlowScheduleService | FlowScheduleDate | FlowScheduleConfirm | EndSuccess
    | Contact | CheckAuthPets
    | Unlisted(name: string)

  // ---------------------------------------------------------------------------
  // The conversation context: the `flowContext` object.

  /** A context value: the strings typed by the user and the ids, names,
      prices (in cents) and durations carried by option payloads. */
  datatype Value = VStr(s: string) | VInt(n: int)

  /** The fields the chat stores in `flowContext`, named as in the source
      (`petId`, `petName`, `serviceId`, `serviceName`, `servicePrice`,
      `serviceDuration`, `appointmentTime`, `loginEmail`, `regName`,
      `regEmail`, `regPhone`). */
  datatype Field =
    | PetId | PetName | ServiceId | ServiceName | ServicePrice | ServiceDuration
    | AppointmentTime | LoginEmail | RegName | RegEmail | RegPhone

  type Context = map<Field, Value>

  function Get(ctx: Context, key: Field): Option<Value>
  {
    if key in ctx then Some(ctx[key]) else None
  }

  /** A context field interpolated into a template literal; a field that was
      never stored reads as `undefined`. */
  function Show(v: Option<Value>): string
  {
    match v
    case None => "undefined"
    case Some(VStr(s)) => s
    case Some(VInt(n)) => IntToString(n)
  }

  /** Every payload and context the chat builds stores a number, never a
      string, under ServiceDuration. */
  ghost predicate DurationIsNumber(m: Context)
  {
    ServiceDuration in m ==> m[ServiceDuration].VInt?
  }

  // ---------------------------------------------------------------------------
  // Options, input kinds, input handlers and the rendered node.

  datatype Action =
    | SetFlowData | FinalizeSchedule | Logout | StartAiChat
    | NavLogin | NavTracker | NavProfile

  datatype ChatOption = ChatOption(caption: string, action: Option<Action>, payload: Context, next: Option<NodeId>)

  /** An option that only moves to another node. */
  function Go(caption: string, next: NodeId): ChatOption
  {
    ChatOption(caption, None, map[], Some(next))
  }

  /** An option that only runs an action. */
  function Act(caption: string, a: Action): ChatOption
  {
    ChatOption(caption, Some(a), map[], None)
  }

  datatype InputKind = TextInput | NumberInput | DateTimeInput | PasswordInput

  /** What a node does to `inputType`: leave it, set it to null (the input
      form disappears) or set it to a kind. */
  datatype InputChange = Keep | Hide | ShowInput(kind: InputKind)

  function ApplyInput(c: InputChange, current: Option<InputKind>): Option<InputKind>
  {
    match c
    case Keep => current
    case Hide => None
    case ShowInput(k) => Some(k)
  }

  /** The closures that nodes install with `setInputHandler`, by what they do. */
  datatype Handler =
    | StoreLoginEmail | SignInWith | StoreRegName | StoreRegEmail | StoreRegPhone
    | SignUpWith | StoreAppointmentTime

  /** An installed handler stays installed when the next node installs none. */
  function Installed(h: Option<Handler>, current: Option<Handler>): Option<Handler>
  {
    if h.Some? then h else current
  }

  datatype NodeView = NodeView(message: string, options: seq<ChatOption>, input: InputChange, handler: Option<Handler>)

  datatype Session = Session(userId: string, fullName: Option<string>)
  datatype Pet = Pet(id: Value, name: string)
  datatype Service = Service(id: Value, name: string, price: int, durationMinutes: int)

  /** Locale-dependent rendering and date parsing, supplied from outside:
      `formatCurrency`, `toLocaleString` with and without the pt-BR short
      style, and `new Date(x)` as milliseconds (None for an invalid date). */
  datatype Formats = Formats(
    currency: Option<Value> -> string,
    shortDateTime: Option<Value> -> string,
    localDateTime: string -> string,
    parseDate: Option<Value> -> Option<int>)

  // ---------------------------------------------------------------------------
  // Pieces of the node table.

  /** `s.split(' ')[0]`: the longest prefix of `s` without a space. */
  function FirstWord(s: string): (r: string)
    ensures r <= s
    ensures forall i :: 0 <= i < |r| ==> r[i] != ' '
    ensures |r| < |s| ==> s[|r|] == ' '
  {
    if s == [] || s[0] == ' ' then [] else [s[0]] + FirstWord(s[1..])
  }

  /** `full_name?.split(' ')[0] || 'Tutor'`. */
  function Greeting(s: Session): string
  {
    match s.fullName
    case None => "Tutor"
    case Some(n) => if FirstWord(n) == "" then "Tutor" else FirstWord(n)
  }

  function PetOption(p: Pet): ChatOption
  {
    ChatOption(p.name, Some(SetFlowData), map[PetId := p.id, PetName := VStr(p.name)], Some(FlowScheduleService))
  }

  /** `pets.map(...)` in FlowScheduleInit: one option per pet, in order. */
  function PetOptions(pets: seq<Pet>): (r: seq<ChatOption>)
    ensures |r| == |pets|
    ensures forall i :: 0 <= i < |pets| ==> r[i] == PetOption(pets[i])
  {
    if pets == [] then [] else [PetOption(pets[0])] + PetOptions(pets[1..])
  }

  function ServiceOption(s: Service, fmt: Formats): ChatOption
  {
    ChatOption(
      s.name + " (" + fmt.currency(Some(VInt(s.price))) + ")",
      Some(SetFlowData),
      map[ServiceId := s.id, ServiceName := VStr(s.name),
          ServicePrice := VInt(s.price), ServiceDuration := VInt(s.durationMinutes)],
      Some(FlowScheduleDate))
  }

  /** `services.map(...)` in FlowScheduleService: one option per service, in order. */
  function ServiceOptions(services: seq<Service>, fmt: Formats): (r: seq<ChatOption>)
    ensures |r| == |services|
    ensures forall i :: 0 <= i < |services| ==> r[i] == ServiceOption(services[i], fmt)
  {
    if services == [] then [] else [ServiceOption(services[0], fmt)] + ServiceOptions(services[1..], fmt)
  }

  function PetNames(pets: seq<Pet>): (r: seq<string>)
    ensures |r| == |pets|
    ensures forall i :: 0 <= i < |pets| ==> r[i] == pets[i].name
  {
    if pets == [] then [] else [pets[0].name] + PetNames(pets[1..])
  }

  const LoggedInMenu: seq<ChatOption> := [
    Go("📅 Agendar Banho", FlowScheduleInit),
    Act("🧠 Dicas com IA", StartAiChat),
    Go("🐾 Meus Pets", CheckAuthPets),
    Act("🚪 Sair da Conta", Logout)
  ]

  const GuestMenu: seq<ChatOption> := [
    Go("📅 Agendar Banho", FlowScheduleInit),
    Go("🔐 Login / Cadastro", FlowAuthChoice),
    Act("🧠 Dicas com IA", StartAiChat),
    Go("📍 Endereço", Contact)
  ]

  const ConfirmOption: ChatOption := ChatOption("✅ Sim, Confirmar", Some(FinalizeSchedule), map[], Some(EndSuccess))

  const Fallback: NodeView := NodeView("Entendido.", [Go("Menu Principal", Start)], Keep, None)

  // ---------------------------------------------------------------------------
  // The node table.

  /** The switch of `processNode`: what entering `id` shows, what it does to
      the input form and which handler it installs, given the session and the
      pets and services fetched for it. Each field of the case is given by a
      function of its own below, so that a fact about one field does not
      drag in the text of every message. */
  function Node(id: NodeId, session: Option<Session>, pets: seq<Pet>, services: seq<Service>, ctx: Context, fmt: Formats): NodeView
  {
    NodeView(NodeMessage(id, session, pets, ctx, fmt), NodeOptions(id, session, pets, services, fmt),
             NodeInput(id), NodeHandler(id))
  }

  // The fixed texts of the messages, in the order of the switch. They are
  // named constants so that a proof about one case does not have to carry
  // the characters of every other case.
  const HelloUser := "Olá, "
  const HelloUserEnd := "! 🐶 Como posso ajudar?"
  const HelloGuest := "Olá! Sou o assistente virtual da PetSpa 🐶. Como posso te ajudar hoje?"
  const AuthChoiceText := "Para acessar seus dados e agendar, preciso que você entre na sua conta."
  const LoginEmailText := "Por favor, digite seu **e-mail**:"
  const LoginPassText := "Agora digite sua **senha**:"
  const RegisterNameText := "Vamos criar sua conta! Primeiro, qual seu **nome completo**?"
  const RegisterEmailText := "Prazer, "
  const RegisterEmailEnd := "! Qual seu **e-mail**?"
  const RegisterPhoneText := "Qual seu **celular** (para contato sobre os pets)?"
  const RegisterPassText := "Por último, escolha uma **senha** segura:"
  const AuthSuccessText := "Login realizado com sucesso! 🎉"
  const RegisterSuccessText := "Cadastro realizado! Bem-vindo(a) à família PetSpa. 🐾"
  const ScheduleGuestText := "Para agendar, preciso que entre na sua conta."
  const ScheduleNoPetsText := "Você ainda não tem pets cadastrados no sistema."
  const SchedulePickPetText := "Para qual pet seria o agendamento?"
  const ServiceText := "Qual serviço você gostaria?"
  const DateText := "Ótima escolha! 🛁\n\nServiço: **"
  const DatePet := "**\nPet: **"
  const DateDuration := "**\nDuração: ~"
  const DatePrice := " min\nValor: **"
  const DateEnd := "**\n\nQual a melhor data e horário para você?"
  const ConfirmText := "Confirma o agendamento de **"
  const ConfirmPet := "** para **"
  const ConfirmDay := "** no dia **"
  const ConfirmEnd := "**?"
  const EndSuccessText := "Perfeito! Seu agendamento foi realizado. 🐾"
  const ContactText := "Estamos na Av. Pet, 123.\n📞 Tel: (11) 99999-9999\n⏰ Seg-Sex: 09h às 18h"
  const PetsGuestText := "Você precisa estar logado."
  const PetsListText := "Seus pets cadastrados: "
  const PetsNoneText := "Nenhum pet encontrado."

  /** `node.message` of each case. */
  function NodeMessage(id: NodeId, session: Option<Session>, pets: seq<Pet>, ctx: Context, fmt: Formats): string
  {
    match id
    case Start =>
      if session.Some? then HelloUser + Greeting(session.value) + HelloUserEnd
      else HelloGuest
    case FlowAuthChoice => AuthChoiceText
    case FlowLoginEmail => LoginEmailText
    case FlowLoginPass => LoginPassText
    case FlowRegisterName => RegisterNameText
    case FlowRegisterEmail => RegisterEmailText + Show(Get(ctx, RegName)) + RegisterEmailEnd
    case FlowRegisterPhone => RegisterPhoneText
    case FlowRegisterPass => RegisterPassText
    case AuthSuccess => AuthSuccessText
    case AuthSuccessRegister => RegisterSuccessText
    case FlowScheduleInit =>
      if session.None? then ScheduleGuestText
      else if |pets| == 0 then ScheduleNoPetsText
      else SchedulePickPetText
    case FlowScheduleService => ServiceText
    case FlowScheduleDate =>
      DateText + Show(Get(ctx, ServiceName))
      + DatePet + Show(Get(ctx, PetName))
      + DateDuration + Show(Get(ctx, ServiceDuration))
      + DatePrice + fmt.currency(Get(ctx, ServicePrice))
      + DateEnd
    case FlowScheduleConfirm =>
      ConfirmText + Show(Get(ctx, ServiceName))
      + ConfirmPet + Show(Get(ctx, PetName))
      + ConfirmDay + fmt.shortDateTime(Get(ctx, AppointmentTime)) + ConfirmEnd
    case EndSuccess => EndSuccessText
    case Contact => ContactText
    case CheckAuthPets =>
      if session.None? then PetsGuestText
      else PetsListText + (if |pets| > 0 then Join(PetNames(pets), ", ") else PetsNoneText)
    case Unlisted(_) => Fallback.message
  }

  /** `node.options` of each case. */
  function NodeOptions(id: NodeId, session: Option<Session>, pets: seq<Pet>, services: seq<Service>, fmt: Formats): seq<ChatOption>
  {
    match id
    case Start => if session.Some? then LoggedInMenu else GuestMenu
    case FlowAuthChoice =>
      [Go("Entrar", FlowLoginEmail), Go("Criar Conta", FlowRegisterName), Go("Voltar", Start)]
    case FlowLoginEmail => []
    case FlowLoginPass => []
    case FlowRegisterName => []
    case FlowRegisterEmail => []
    case FlowRegisterPhone => []
    case FlowRegisterPass => []
    case AuthSuccess => [Act("Ir para Perfil", NavProfile), Go("Continuar aqui", Start)]
    case AuthSuccessRegister => [Act("Cadastrar Pet", NavProfile), Go("Menu Principal", Start)]
    case FlowScheduleInit =>
      if session.None? then [Go("🔐 Fazer Login", FlowAuthChoice), Go("⬅️ Voltar", Start)]
      else if |pets| == 0 then [Act("Cadastrar Agora", NavProfile), Go("Voltar", Start)]
      else PetOptions(pets)
    case FlowScheduleService => ServiceOptions(services, fmt)
    case FlowScheduleDate => [Go("⬅️ Escolher outro serviço", FlowScheduleService)]
    case FlowScheduleConfirm => [ConfirmOption, Go("❌ Cancelar", Start)]
    case EndSuccess => [Act("👀 Acompanhar Pedido", NavTracker), Go("🏠 Voltar ao Início", Start)]
    case Contact => [Go("Obrigado", Start)]
    case CheckAuthPets =>
      if session.None? then [Go("Fazer Login", FlowAuthChoice)]
      else [Act("👤 Ir para Perfil", NavProfile), Go("Voltar", Start)]
    case Unlisted(_) => Fallback.options
  }

  /** What each case does to the input form: the cases that leave
      `node.inputType` undefined keep the current one. */
  function NodeInput(id: NodeId): InputChange
  {
    match id
    case Start => ShowInput(TextInput)
    case FlowLoginEmail => ShowInput(TextInput)
    case FlowLoginPass => ShowInput(PasswordInput)
    case FlowRegisterName => ShowInput(TextInput)
    case FlowRegisterEmail => ShowInput(TextInput)
    case FlowRegisterPhone => ShowInput(NumberInput)
    case FlowRegisterPass => ShowInput(PasswordInput)
    case FlowScheduleDate => ShowInput(DateTimeInput)
    case FlowAuthChoice => Hide
    case AuthSuccess => Hide
    case AuthSuccessRegister => Hide
    case FlowScheduleInit => Hide
    case FlowScheduleService => Hide
    case FlowScheduleConfirm => Hide
    case EndSuccess => Keep
    case Contact => Keep
    case CheckAuthPets => Keep
    case Unlisted(_) => Fallback.input
  }

  /** The handler each case installs with `setInputHandler`, if any. */
  function NodeHandler(id: NodeId): Option<Handler>
  {
    match id
    case FlowLoginEmail => Some(StoreLoginEmail)
    case FlowLoginPass => Some(SignInWith)
    case FlowRegisterName => Some(StoreRegName)
    case FlowRegisterEmail => Some(StoreRegEmail)
    case FlowRegisterPhone => Some(StoreRegPhone)
    case FlowRegisterPass => Some(SignUpWith)
    case FlowScheduleDate => Some(StoreAppointmentTime)
    case _ => None
  }

  /** The nodes that call `getMyPets` or `getServices` before rendering. */
  predicate NeedsPets(id: NodeId, session: Option<Session>)
  {
    (id == FlowScheduleInit || id == CheckAuthPets) && session.Some?
  }

  predicate NeedsServices(id: NodeId)
  {
    id == FlowScheduleService
  }

  // ---------------------------------------------------------------------------
  // External calls and the input handlers.

  datatype Role = UserRole | ModelRole
  datatype Turn = Turn(role: Role, text: string)

  /** An appointment request; times are milliseconds since the epoch. */
  datatype Booking = Booking(userId: string, petId: Option<Value>, serviceId: Option<Value>, start: int, end: int)

  /** The calls the chat issues to the backend, the shell and the AI service. */
  datatype Call =
    | SignIn(email: Option<Value>, password: string)
    | SignUp(email: Option<Value>, password: string, name: Option<Value>, phone: Option<Value>)
    | SignOut
    | CreateAppointment(booking: Booking)
    | Navigate(route: string)
    | AskAi(history: seq<Turn>, text: string)

  /** How a sign-in or sign-up call settles: no error, an `error` result, or a
      thrown exception. */
  datatype AuthOutcome = AuthOk | AuthError(message: string) | AuthThrew

  /** What a handler did: the new context, the calls it issued, the bot
      message it added, if any, and the node id it returned. */
  datatype HandlerResult = HandlerResult(ctx: Context, calls: seq<Call>, note: Option<string>, next: NodeId)

  function RunHandler(h: Handler, val: string, ctx: Context, signIn: AuthOutcome, signUp: AuthOutcome): HandlerResult
  {
    match h
    case StoreLoginEmail => HandlerResult(ctx[LoginEmail := VStr(val)], [], None, FlowLoginPass)
    case SignInWith =>
      var call := [SignIn(Get(ctx, LoginEmail), val)];
      (match signIn
       case AuthError(_) => HandlerResult(ctx, call, Some("❌ E-mail ou senha incorretos."), FlowAuthChoice)
       case AuthOk => HandlerResult(ctx, call, None, AuthSuccess)
       case AuthThrew => HandlerResult(ctx, call, Some("Ocorreu um erro no login."), Start))
    case StoreRegName => HandlerResult(ctx[RegName := VStr(val)], [], None, FlowRegisterEmail)
    case StoreRegEmail => HandlerResult(ctx[RegEmail := VStr(val)], [], None, FlowRegisterPhone)
    case StoreRegPhone => HandlerResult(ctx[RegPhone := VStr(val)], [], None, FlowRegisterPass)
    case SignUpWith =>
      var call := [SignUp(Get(ctx, RegEmail), val, Get(ctx, RegName), Get(ctx, RegPhone))];
      (match signUp
       case AuthError(msg) => HandlerResult(ctx, call, Some("❌ Erro ao cadastrar: " + msg), FlowAuthChoice)
       case AuthOk => HandlerResult(ctx, call, None, AuthSuccessRegister)
       case AuthThrew => HandlerResult(ctx, call, None, Start))
    case StoreAppointmentTime => HandlerResult(ctx[AppointmentTime := VStr(val)], [], None, FlowScheduleConfirm)
  }

  // ---------------------------------------------------------------------------
  // The finalizeSchedule action.

  /** No handler writes the duration: it stays a number. */
  lemma RunHandlerKeepsDuration(h: Handler, val: string, ctx: Context, signIn: AuthOutcome, signUp: AuthOutcome)
    requires DurationIsNumber(ctx)
    ensures DurationIsNumber(RunHandler(h, val, ctx, signIn, signUp).ctx)
    ensures ServiceDuration in ctx <==> ServiceDuration in RunHandler(h, val, ctx, signIn, signUp).ctx
  {
  }

  /** `serviceDuration || 60`: a missing or zero duration counts as an hour. */
  function DurationMinutes(ctx: Context): int
    requires DurationIsNumber(ctx)
  {
    if ServiceDuration in ctx && ctx[ServiceDuration].n != 0 then ctx[ServiceDuration].n else 60
  }

  /** What finalizeSchedule did: the appointment it requested, if any, and
      whether it fell into its `catch` ("Houve um erro técnico."). */
  datatype FinalizeResult = FinalizeResult(booking: Option<Booking>, failed: bool)

  /** Start and end are only rendered (`toISOString`) once a session exists,
      so an invalid start date throws only then; the request itself may throw. */
  function Finalize(ctx: Context, session: Option<Session>, fmt: Formats, createFails: bool): FinalizeResult
    requires DurationIsNumber(ctx)
  {
    var start := fmt.parseDate(Get(ctx, AppointmentTime));
    if session.None? then FinalizeResult(None, false)
    else if start.None? then FinalizeResult(None, true)
    else
      var b := Booking(session.value.userId, Get(ctx, PetId), Get(ctx, ServiceId),
                       start.value, start.value + DurationMinutes(ctx) * 60000);
      FinalizeResult(Some(b), createFails)
  }

  // ---------------------------------------------------------------------------
  // Properties of the node table.

  /** Every case sets a non-empty message, so `if (node.message)` always adds
      one. The cases are split over five lemmas to keep each proof small. */
  lemma NodeMessageNonEmpty(id: NodeId, session: Option<Session>, pets: seq<Pet>, ctx: Context, fmt: Formats)
    ensures |NodeMessage(id, session, pets, ctx, fmt)| > 0
  {
    if id.Start? || id.FlowAuthChoice? {
      GreetingMessagesNonEmpty(id, session, pets, ctx, fmt);
    } else if id.FlowLoginEmail? || id.FlowLoginPass? || id.FlowRegisterName? || id.FlowRegisterEmail? {
      PromptMessagesNonEmpty(id, session, pets, ctx, fmt);
    } else if id.FlowRegisterPhone? || id.FlowRegisterPass? || id.AuthSuccess? || id.AuthSuccessRegister?
           || id.FlowScheduleInit? || id.FlowScheduleService? {
      RegisterAndChoiceMessagesNonEmpty(id, session, pets, ctx, fmt);
    } else if id.FlowScheduleDate? || id.FlowScheduleConfirm? || id.EndSuccess? {
      ScheduleMessagesNonEmpty(id, session, pets, ctx, fmt);
    } else {
      InfoMessagesNonEmpty(id, session, pets, ctx, fmt);
    }
  }

  lemma GreetingMessagesNonEmpty(id: NodeId, session: Option<Session>, pets: seq<Pet>, ctx: Context, fmt: Formats)
    requires id.Start? || id.FlowAuthChoice?
    ensures |NodeMessage(id, session, pets, ctx, fmt)| > 0
  {
  }

  lemma PromptMessagesNonEmpty(id: NodeId, session: Option<Session>, pets: seq<Pet>, ctx: Context, fmt: Formats)
    requires id.FlowLoginEmail? || id.FlowLoginPass? || id.FlowRegisterName? || id.FlowRegisterEmail?
    ensures |NodeMessage(id, session, pets, ctx, fmt)| > 0
  {
  }

  lemma RegisterAndChoiceMessagesNonEmpty(id: NodeId, session: Option<Session>, pets: seq<Pet>, ctx: Context, fmt: Formats)
    requires id.FlowRegisterPhone? || id.FlowRegisterPass? || id.AuthSuccess? || id.AuthSuccessRegister?
          || id.FlowScheduleInit? || id.FlowScheduleService?
    ensures |NodeMessage(id, session, pets, ctx, fmt)| > 0
  {
  }

  lemma ScheduleMessagesNonEmpty(id: NodeId, session: Option<Session>, pets: seq<Pet>, ctx: Context, fmt: Formats)
    requires id.FlowScheduleDate? || id.FlowScheduleConfirm? || id.EndSuccess?
    ensures |NodeMessage(id, session, pets, ctx, fmt)| > 0
  {
  }

  lemma InfoMessagesNonEmpty(id: NodeId, session: Option<Session>, pets: seq<Pet>, ctx: Context, fmt: Formats)
    requires id.Contact? || id.CheckAuthPets? || id.Unlisted?
    ensures |NodeMessage(id, session, pets, ctx, fmt)| > 0
  {
  }

  /** An id without a case of its own gets 'Entendido.' and a way back to
      START, and leaves the input form and the handler as they are. */
  lemma UnknownNodeFallback(id: NodeId, session: Option<Session>, pets: seq<Pet>, services: seq<Service>, ctx: Context, fmt: Formats)
    requires id.Unlisted?
    ensures NodeMessage(id, session, pets, ctx, fmt) == "Entendido."
    ensures NodeOptions(id, session, pets, services, fmt) == [Go("Menu Principal", Start)]
    ensures NodeInput(id) == Keep && NodeHandler(id) == None
  {
  }

  /** START shows the account menu to a signed-in user and the visitor menu
      otherwise; in both the first option starts the booking flow, and the
      text input is shown with no handler of its own. */
  lemma StartMenus(session: Option<Session>, pets: seq<Pet>, services: seq<Service>, fmt: Formats)
    ensures var opts := NodeOptions(Start, session, pets, services, fmt);
      && (session.Some? ==> opts == LoggedInMenu)
      && (session.None? ==> opts == GuestMenu)
      && opts[0] == Go("📅 Agendar Banho", FlowScheduleInit)
    ensures NodeInput(Start) == ShowInput(TextInput) && NodeHandler(Start) == None
  {
  }

  /** The nodes that ask for typed input are exactly the seven that install
      a handler; every other node leaves the handler alone. */
  lemma HandlerNodes(id: NodeId)
    ensures NodeHandler(id).Some? <==>
      id in {FlowLoginEmail, FlowLoginPass, FlowRegisterName, FlowRegisterEmail,
             FlowRegisterPhone, FlowRegisterPass, FlowScheduleDate}
    ensures NodeHandler(id).Some? ==> NodeInput(id).ShowInput?
  {
  }

  /** The login chain: the e-mail is stored and the password asked for next;
      the password handler signs in with the stored e-mail and the raw
      password, and routes by the outcome. */
  lemma LoginChain(val: string, ctx: Context, signIn: AuthOutcome, signUp: AuthOutcome)
    ensures NodeHandler(FlowLoginEmail) == Some(StoreLoginEmail)
    ensures var r := RunHandler(StoreLoginEmail, val, ctx, signIn, signUp);
      r.ctx == ctx[LoginEmail := VStr(val)] && r.next == FlowLoginPass && r.calls == [] && r.note == None
    ensures NodeInput(FlowLoginPass) == ShowInput(PasswordInput)
    ensures NodeHandler(FlowLoginPass) == Some(SignInWith)
    ensures var r := RunHandler(SignInWith, val, ctx, signIn, signUp);
      && r.ctx == ctx
      && r.calls == [SignIn(Get(ctx, LoginEmail), val)]
      && (signIn.AuthError? ==> r.next == FlowAuthChoice && r.note == Some("❌ E-mail ou senha incorretos."))
      && (signIn.AuthOk? ==> r.next == AuthSuccess && r.note == None)
      && (signIn.AuthThrew? ==> r.next == Start && r.note == Some("Ocorreu um erro no login."))
  {
  }

  /** The register chain: name, e-mail and phone are stored in turn, then the
      password handler signs up with them and routes by the outcome. */
  lemma RegisterChain(val: string, ctx: Context, signIn: AuthOutcome, signUp: AuthOutcome)
    ensures NodeHandler(FlowRegisterName) == Some(StoreRegName)
    ensures NodeHandler(FlowRegisterEmail) == Some(StoreRegEmail)
    ensures NodeHandler(FlowRegisterPhone) == Some(StoreRegPhone)
    ensures NodeHandler(FlowRegisterPass) == Some(SignUpWith)
    ensures NodeInput(FlowRegisterPhone) == ShowInput(NumberInput)
    ensures NodeInput(FlowRegisterPass) == ShowInput(PasswordInput)
    ensures RunHandler(StoreRegName, val, ctx, signIn, signUp) == HandlerResult(ctx[RegName := VStr(val)], [], None, FlowRegisterEmail)
    ensures RunHandler(StoreRegEmail, val, ctx, signIn, signUp) == HandlerResult(ctx[RegEmail := VStr(val)], [], None, FlowRegisterPhone)
    ensures RunHandler(StoreRegPhone, val, ctx, signIn, signUp) == HandlerResult(ctx[RegPhone := VStr(val)], [], None, FlowRegisterPass)
    ensures var r := RunHandler(SignUpWith, val, ctx, signIn, signUp);
      && r.ctx == ctx
      && r.calls == [SignUp(Get(ctx, RegEmail), val, Get(ctx, RegName), Get(ctx, RegPhone))]
      && (signUp.AuthError? ==> r.next == FlowAuthChoice && r.note == Some("❌ Erro ao cadastrar: " + signUp.message))
      && (signUp.AuthOk? ==> r.next == AuthSuccessRegister && r.note == None)
      && (signUp.AuthThrew? ==> r.next == Start && r.note == None)
  {
  }

  /** FLOW_SCHEDULE_INIT: a visitor is sent to log in, a user without pets to
      the profile, and otherwise every pet becomes one option that stores its
      id and name and moves on to the service choice. */
  lemma ScheduleInitOptions(session: Option<Session>, pets: seq<Pet>, services: seq<Service>, fmt: Formats)
    ensures var opts := NodeOptions(FlowScheduleInit, session, pets, services, fmt);
      && (session.None? ==> opts == [Go("🔐 Fazer Login", FlowAuthChoice), Go("⬅️ Voltar", Start)])
      && (session.Some? && pets == [] ==> opts == [Act("Cadastrar Agora", NavProfile), Go("Voltar", Start)])
      && (session.Some? && pets != [] ==>
            && |opts| == |pets|
            && forall i :: 0 <= i < |pets| ==>
                 opts[i] == ChatOption(pets[i].name, Some(SetFlowData),
                                       map[PetId := pets[i].id, PetName := VStr(pets[i].name)],
                                       Some(FlowScheduleService)))
    ensures NodeInput(FlowScheduleInit) == Hide
  {
  }

  /** FLOW_SCHEDULE_SERVICE: one option per service, carrying its id, name,
      price and duration, moving on to the date. */
  lemma ScheduleServiceOptions(session: Option<Session>, pets: seq<Pet>, services: seq<Service>, fmt: Formats)
    ensures var opts := NodeOptions(FlowScheduleService, session, pets, services, fmt);
      && |opts| == |services|
      && forall i :: 0 <= i < |services| ==>
           && opts[i].action == Some(SetFlowData)
           && opts[i].next == Some(FlowScheduleDate)
           && opts[i].payload == map[ServiceId := services[i].id, ServiceName := VStr(services[i].name),
                                     ServicePrice := VInt(services[i].price),
                                     ServiceDuration := VInt(services[i].durationMinutes)]
    ensures NodeInput(FlowScheduleService) == Hide
  {
  }

  /** FLOW_SCHEDULE_DATE asks for a date-time and stores whatever is typed,
      with no check against the clock; CONFIRM books on 'Sim' and returns to
      START on 'Cancelar'. */
  lemma ScheduleDateAndConfirm(session: Option<Session>, pets: seq<Pet>, services: seq<Service>, fmt: Formats,
                               val: string, ctx: Context, signIn: AuthOutcome, signUp: AuthOutcome)
    ensures NodeInput(FlowScheduleDate) == ShowInput(DateTimeInput)
    ensures NodeHandler(FlowScheduleDate) == Some(StoreAppointmentTime)
    ensures RunHandler(StoreAppointmentTime, val, ctx, signIn, signUp)
      == HandlerResult(ctx[AppointmentTime := VStr(val)], [], None, FlowScheduleConfirm)
    ensures NodeOptions(FlowScheduleConfirm, session, pets, services, fmt)
      == [ChatOption("✅ Sim, Confirmar", Some(FinalizeSchedule), map[], Some(EndSuccess)), Go("❌ Cancelar", Start)]
    ensures NodeInput(FlowScheduleConfirm) == Hide
  {
  }

  /** Every option of every node, and every handler's answer, names a node
      that has a case of its own: the dialogue never reaches the fallback. */
  lemma NodeGraphClosed(id: NodeId, session: Option<Session>, pets: seq<Pet>, services: seq<Service>, fmt: Formats,
                        h: Handler, val: string, ctx: Context, signIn: AuthOutcome, signUp: AuthOutcome)
    ensures forall o :: o in NodeOptions(id, session, pets, services, fmt) && o.next.Some? ==> !o.next.value.Unlisted?
    ensures !RunHandler(h, val, ctx, signIn, signUp).next.Unlisted?
  {
    var opts := NodeOptions(id, session, pets, services, fmt);
    forall o | o in opts && o.next.Some? ensures !o.next.value.Unlisted? {
      if id == FlowScheduleInit && session.Some? && pets != [] {
        var i :| 0 <= i < |pets| && opts[i] == o;
      } else if id == FlowScheduleService {
        var i :| 0 <= i < |services| && opts[i] == o;
      }
    }
  }

  /** No node offers an option whose payload stores a non-number duration. */
  lemma NodeOptionsTyped(id: NodeId, session: Option<Session>, pets: seq<Pet>, services: seq<Service>, fmt: Formats)
    ensures forall o :: o in NodeOptions(id, session, pets, services, fmt) ==> DurationIsNumber(o.payload)
  {
    var opts := NodeOptions(id, session, pets, services, fmt);
    forall o | o in opts ensures DurationIsNumber(o.payload) {
      if id == FlowScheduleInit && session.Some? && pets != [] {
        var i :| 0 <= i < |pets| && opts[i] == o;
      } else if id == FlowScheduleService {
        var i :| 0 <= i < |services| && opts[i] == o;
      }
    }
  }

  /** The greeting is the first word of the full name, or 'Tutor' when that
      word is empty or there is no name. */
  lemma GreetingIsFirstWord(s: Session)
    ensures var g := Greeting(s);
      && (s.fullName.Some? && s.fullName.value != [] && s.fullName.value[0] != ' ' ==>
            g <= s.fullName.value && |g| > 0 && ' ' !in g)
      && (s.fullName.None? || s.fullName.value == [] || s.fullName.value[0] == ' ' ==> g == "Tutor")
  {
    if s.fullName.Some? {
      var r := FirstWord(s.fullName.value);
      assert ' ' !in r by {
        forall i | 0 <= i < |r| ensures r[i] != ' ' { }
      }
    }
  }

  // ---------------------------------------------------------------------------
  // Properties of finalizeSchedule.

  /** Without a session nothing is requested and nothing fails; with one, an
      unparsable start is a technical error, and otherwise exactly one
      appointment is requested, ending `serviceDuration || 60` minutes after
      its start, and the request's own failure is the only other error. */
  lemma FinalizeBooking(ctx: Context, session: Option<Session>, fmt: Formats, createFails: bool)
    requires DurationIsNumber(ctx)
    ensures var r := Finalize(ctx, session, fmt, createFails);
      var start := fmt.parseDate(Get(ctx, AppointmentTime));
      && (session.None? ==> r == FinalizeResult(None, false))
      && (session.Some? && start.None? ==> r == FinalizeResult(None, true))
      && (session.Some? && start.Some? ==>
            && r.failed == createFails
            && r.booking.Some?
            && r.booking.value.userId == session.value.userId
            && r.booking.value.petId == Get(ctx, PetId)
            && r.booking.value.serviceId == Get(ctx, ServiceId)
            && r.booking.value.start == start.value
            && r.booking.value.end - r.booking.value.start
               == (if Get(ctx, ServiceDuration) in {None, Some(VInt(0))} then 60 else ctx[ServiceDuration].n) * 60000)
  {
  }

  /** Pet Rex (id 7), service Bath (id 3, 60 minutes, 50.00) and the start
      10:00: one request for ids 7 and 3 that ends at 11:00. */
  lemma FinalizeExample(userId: string, fmt: Formats, tenOClock: int)
    requires fmt.parseDate(Some(VStr("2025-06-01T10:00"))) == Some(tenOClock)
    ensures var ctx := map[PetId := VInt(7), PetName := VStr("Rex"),
                           ServiceId := VInt(3), ServiceName := VStr("Bath"),
                           ServicePrice := VInt(5000), ServiceDuration := VInt(60),
                           AppointmentTime := VStr("2025-06-01T10:00")];
      Finalize(ctx, Some(Session(userId, None)), fmt, false)
        == FinalizeResult(Some(Booking(userId, Some(VInt(7)), Some(VInt(3)), tenOClock, tenOClock + 3600000)), false)
  {
  }
}
