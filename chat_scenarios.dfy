/**
 * Whole conversations with the chat, driven through its event handlers from
 * a freshly mounted component. Each one fixes what the outside world answers
 * and states what the user ends up seeing and which calls were issued.
 */
module ChatScenarios {
  import opened Common
  import opened ChatNodes
  import opened ChatEngine

  /** The last message of a transcript that has one. */
  function Last(ms: seq<Message>): Message
    requires |ms| > 0
  {
    ms[|ms| - 1]
  }

  /** Clicking an option of the last bot message that only moves on: the
      label is echoed and the next node's message becomes the last one. */
  method Follow(c: Chat, opt: ChatOption, env: Env)
    requires c.Valid() && |c.messages| > 0 && Last(c.messages).sender == Bot && opt in Last(c.messages).options
    requires opt.action == None && opt.next.Some? && !FetchFails(opt.next.value, env)
    modifies c
    ensures c.Valid() && c.flowContext == old(c.flowContext) && c.mode == FlowMode
    ensures |c.messages| > 0
    ensures Last(c.messages) == Message(Bot, TextOf(opt.next.value, env, c.flowContext), OptionsOf(opt.next.value, env))
    ensures c.inputType == ApplyInput(NodeInput(opt.next.value), old(c.inputType))
    ensures c.inputHandler == Installed(NodeHandler(opt.next.value), old(c.inputHandler))
  {
    assert c.Offered(opt);
    var _ := c.HandleOption(opt, env);
    EnteredOneMessage(opt.next.value, env, c.flowContext);
  }

  /** Typing a non-blank value while a handler is installed: the echo is the
      first new message, the handler's calls are issued and its node's
      message becomes the last one. */
  method Type(c: Chat, value: string, env: Env) returns (calls: seq<Call>, echoed: string)
    requires c.Valid() && c.inputType.Some? && c.inputHandler.Some? && !IsBlank(value)
    requires var r := RunHandler(c.inputHandler.value, value, c.flowContext, env.signIn, env.signUp);
      !FetchFails(r.next, env)
    modifies c
    ensures var r := RunHandler(old(c.inputHandler).value, value, old(c.flowContext), env.signIn, env.signUp);
      && calls == r.calls && c.flowContext == r.ctx && c.mode == FlowMode
      && |c.messages| > 0
      && Last(c.messages) == Message(Bot, TextOf(r.next, env, r.ctx), OptionsOf(r.next, env))
      && c.inputType == ApplyInput(NodeInput(r.next), None)
      && c.inputHandler == Installed(NodeHandler(r.next), old(c.inputHandler))
    ensures echoed == Display(old(c.inputType).value, value, env.fmt)
    ensures c.Valid()
  {
    var n := |c.messages|;
    calls := c.HandleInputSubmit(value, env);
    echoed := c.messages[n].text;
    var r := RunHandler(old(c.inputHandler).value, value, old(c.flowContext), env.signIn, env.signUp);
    EnteredOneMessage(r.next, env, r.ctx);
  }

  /** A visitor opens the chat, picks "Login / Cadastro", then "Entrar",
      types an e-mail and a password. The sign-in gets the typed e-mail and
      the raw password, the transcript shows only the mask, the sign-in
      handler stays installed, and the node the outcome leads to is the last
      message. */
  method LoginAttempt(guest: Env, email: string, password: string)
    returns (c: Chat, signIn: seq<Call>, echoed: string)
    requires guest.session.None? && !IsBlank(email) && !IsBlank(password)
    ensures signIn == [SignIn(Some(VStr(email)), password)]
    ensures echoed == PasswordMask
    ensures fresh(c) && c.Valid() && c.inputHandler == Some(SignInWith)
    ensures c.flowContext == map[LoginEmail := VStr(email)] && c.mode == FlowMode
    ensures var next := RunHandler(SignInWith, password, c.flowContext, guest.signIn, guest.signUp).next;
      && c.inputType == ApplyInput(NodeInput(next), None)
      && |c.messages| > 0 && Last(c.messages) == Message(Bot, TextOf(next, guest, c.flowContext), OptionsOf(next, guest))
  {
    c := OpenLoginForm(guest);
    var _, _ := Type(c, email, guest);
    assert c.flowContext[LoginEmail] == VStr(email);
    signIn, echoed := Type(c, password, guest);
  }

  /** With a sign-in that succeeds, the chat lands on the login-success node
      with its two options. */
  method LoginConversation(fmt: Formats, email: string, password: string)
    returns (c: Chat, signIn: seq<Call>, echoed: string)
    requires !IsBlank(email) && !IsBlank(password)
    ensures signIn == [SignIn(Some(VStr(email)), password)]
    ensures echoed == PasswordMask
    ensures fresh(c) && c.Valid() && c.inputHandler == Some(SignInWith) && c.inputType == None
    ensures c.flowContext == map[LoginEmail := VStr(email)] && c.mode == FlowMode
    ensures |c.messages| > 0 && Last(c.messages) == Message(Bot, AuthSuccessText, NodeOptions(AuthSuccess, None, [], [], fmt))
  {
    var guest := Env(None, None, None, AuthOk, AuthOk, false, "", fmt);
    c, signIn, echoed := LoginAttempt(guest, email, password);
  }

  /** With a sign-in that reports an error, the chat is back at the account
      choice, still without a session, and the sign-in handler is still
      installed. */
  method RejectedLogin(fmt: Formats, email: string, password: string, reason: string)
    returns (c: Chat, signIn: seq<Call>)
    requires !IsBlank(email) && !IsBlank(password)
    ensures signIn == [SignIn(Some(VStr(email)), password)]
    ensures fresh(c) && c.Valid() && c.inputHandler == Some(SignInWith) && c.inputType == None
    ensures c.flowContext == map[LoginEmail := VStr(email)] && c.mode == FlowMode
    ensures |c.messages| > 0 && Last(c.messages) == Message(Bot, AuthChoiceText, NodeOptions(FlowAuthChoice, None, [], [], fmt))
  {
    var guest := Env(None, None, None, AuthError(reason), AuthOk, false, "", fmt);
    var echoed;
    c, signIn, echoed := LoginAttempt(guest, email, password);
  }

  /** The first half: from mounting to the e-mail prompt, through the guest
      menu and the account choice. */
  method OpenLoginForm(guest: Env) returns (c: Chat)
    requires guest.session.None?
    ensures fresh(c) && c.Valid() && c.mode == FlowMode && c.flowContext == map[]
    ensures c.inputType == Some(TextInput) && c.inputHandler == Some(StoreLoginEmail)
  {
    c := new Chat(guest);
    EnteredOneMessage(Start, guest, map[]);
    StartMenus(None, [], [], guest.fmt);
    assert Last(c.messages).options == GuestMenu;
    Follow(c, Go("🔐 Login / Cadastro", FlowAuthChoice), guest);
    Follow(c, Go("Entrar", FlowLoginEmail), guest);
  }

  /** After a rejected sign-in the visitor picks "Voltar" and then
      "🧠 Dicas com IA". The chat is in AI mode, but the sign-in handler is
      still installed: the question typed next is sent to `signIn` as a
      password, and the AI is never asked. No session appears, so the shell
      keeps the chat on screen throughout. */
  method QuestionAfterRejectedLogin(fmt: Formats, email: string, password: string, reason: string, question: string)
    returns (wasAi: bool, calls: seq<Call>)
    requires !IsBlank(email) && !IsBlank(password) && !IsBlank(question)
    ensures wasAi
    ensures calls == [SignIn(Some(VStr(email)), question)]
  {
    var c, _ := RejectedLogin(fmt, email, password, reason);
    var guest := Env(None, None, None, AuthError(reason), AuthOk, false, "", fmt);
    Follow(c, Go("Voltar", Start), guest);
    StartMenus(None, [], [], fmt);
    var tips := Act("🧠 Dicas com IA", StartAiChat);
    assert tips in Last(c.messages).options;
    assert c.Offered(tips);
    var _ := c.HandleOption(tips, guest);
    wasAi := c.mode == AiMode;
    calls := c.HandleInputSubmit(question, guest);
  }
}
