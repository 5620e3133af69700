/** The session record (`st.session_state`) and what one run of each page
    handler does to it and to the users table, as functions on values. One
    run of `main` (one Streamlit rerun) is one step. */
module SessionModel {
  import opened Opt
  import opened Credentials
  import opened Recharge

  /** The three keys of `st.session_state` this app uses; `None` is a key that
      is not (yet) in the dictionary. */
  datatype SessionState = SessionState(loggedIn: Option<bool>, username: Option<string>, remainingUses: Option<int>)

  /** A new browser session: the dictionary is empty. */
  const Fresh: SessionState := SessionState(None, None, None)

  /** Uses granted by a successful login. */
  const LoginGrant: int := 10

  /** The session together with the table it logs in against. */
  datatype World = World(session: SessionState, users: UserTable)

  /** What a handler showed: a success, error or warning message, or nothing. */
  datatype Outcome =
    | Quiet                   // no button pressed, no file uploaded, no prompt
    | LoginSucceeded | LoginFailed
    | SignedUp | UsernameTaken
    | LoggedOut
    | OutOfCredit             // the "not enough uses" warning; the page returned early
    | Charged                 // a metered action went ahead and one use was taken
    | Recharged(amount: nat) | RechargeRejected

  datatype Next = Next(world: World, outcome: Outcome)

  /** The key combinations a session can be in: no key before `main` first
      runs, then `logged_in` and `remaining_uses` together, and a `username`
      whenever logged in. */
  predicate Consistent(s: SessionState)
  {
    && (s.loggedIn.None? ==> s.username.None? && s.remainingUses.None?)
    && (s.loggedIn.Some? ==> s.remainingUses.Some?)
    && (s.loggedIn == Some(true) ==> s.username.Some?)
  }

  /** The counter, where present, is not negative. */
  predicate NonNegative(s: SessionState)
  {
    s.remainingUses.Some? ==> s.remainingUses.value >= 0
  }

  // ---- Session transitions -------------------------------------------------

  /** `main`'s first step: defaults only for a session without `logged_in`. */
  function InitDefaults(s: SessionState): SessionState
  {
    if s.loggedIn.None? then s.(loggedIn := Some(false), remainingUses := Some(0)) else s
  }

  /** The logout button: all three keys reset. */
  function AfterLogout(s: SessionState): SessionState
  {
    s.(loggedIn := Some(false), username := Some(""), remainingUses := Some(0))
  }

  /** A successful login: flag set, name recorded, counter set to the grant. */
  function AfterLogin(s: SessionState, username: string): SessionState
  {
    s.(loggedIn := Some(true), username := Some(username), remainingUses := Some(LoginGrant))
  }

  /** The gate every metered page passes first: not `remaining_uses <= 0`. */
  predicate HasCredit(s: SessionState)
    requires s.remainingUses.Some?
  {
    !(s.remainingUses.value <= 0)
  }

  // ---- Login and signup ----------------------------------------------------

  /** `login`: the button checks the credentials against the table. */
  function Login(w: World, username: string, password: string, pressed: bool): (r: Next)
    ensures r.outcome == LoginSucceeded <==> pressed && UserRow(username, password) in Rows(w.users)
    ensures r.outcome == LoginFailed <==> pressed && UserRow(username, password) !in Rows(w.users)
    ensures r.outcome == LoginSucceeded ==> r.world == World(AfterLogin(w.session, username), w.users)
    ensures !pressed ==> r.outcome == Quiet
    ensures r.outcome != LoginSucceeded ==> r.world == w
  {
    if !pressed then Next(w, Quiet)
    else if ValidateLogin(w.users, username, password).Some? then
      Next(w.(session := AfterLogin(w.session, username)), LoginSucceeded)
    else
      Next(w, LoginFailed)
  }

  /** `signup`: a user is created only under a username not yet taken. */
  function Signup(w: World, username: string, password: string, pressed: bool): (r: Next)
    ensures r.outcome == SignedUp <==> pressed && forall row :: row in Rows(w.users) ==> row.username != username
    ensures r.outcome == UsernameTaken <==> pressed && exists row :: row in Rows(w.users) && row.username == username
    ensures r.outcome == SignedUp ==>
              r.world.session == w.session && Rows(r.world.users) == Rows(w.users) + {UserRow(username, password)}
    ensures !pressed ==> r.outcome == Quiet
    ensures r.outcome != SignedUp ==> r.world == w
  {
    if !pressed then Next(w, Quiet)
    else if ValidateSignup(w.users, username).Some? then Next(w, UsernameTaken)
    else
      match Insert(w.users, username, password)
      case Inserted(t) => Next(w.(users := t), SignedUp)
      case IntegrityError => assert false; Next(w, UsernameTaken)
  }

  /** The two tabs of the login/signup page. */
  datatype AuthChoice = LogInTab | SignUpTab

  /** `login_signup_page`: the selected tab decides which handler runs. */
  function LoginSignupPage(w: World, choice: AuthChoice, username: string, password: string, pressed: bool): (r: Next)
    ensures choice == LogInTab ==>
              r.world.users == w.users && r.outcome in {Quiet, LoginSucceeded, LoginFailed}
    ensures choice == SignUpTab ==>
              r.world.session == w.session && r.outcome in {Quiet, SignedUp, UsernameTaken}
  {
    match choice
    case LogInTab => Login(w, username, password, pressed)
    case SignUpTab => Signup(w, username, password, pressed)
  }

  // ---- Metered pages -------------------------------------------------------

  /** Shared shape of the four metered pages: gate first, then one use taken
      when the page's action went ahead. */
  function Metered(w: World, proceeds: bool): Next
    requires w.session.remainingUses.Some?
  {
    if !HasCredit(w.session) then Next(w, OutOfCredit)
    else if proceeds then
      Next(w.(session := w.session.(remainingUses := Some(w.session.remainingUses.value - 1))), Charged)
    else Next(w, Quiet)
  }

  /** What the caller may rely on from a metered page whose action goes ahead
      exactly when `proceeds`: a warning and no change when the counter is not
      positive; otherwise exactly one use taken when it proceeds, nothing else
      touched, and no change when it does not. */
  predicate MeteredAs(w: World, proceeds: bool, r: Next)
    requires w.session.remainingUses.Some?
  {
    var uses := w.session.remainingUses.value;
    && (r.outcome == OutOfCredit <==> uses <= 0)
    && (r.outcome == Charged <==> uses > 0 && proceeds)
    && (r.outcome == Charged ==>
          r.world.users == w.users
          && r.world.session.loggedIn == w.session.loggedIn
          && r.world.session.username == w.session.username
          && r.world.session.remainingUses == Some(uses - 1))
    && (uses > 0 && !proceeds ==> r.outcome == Quiet)
    && (r.outcome != Charged ==> r.world == w)
  }

  /** `data_page`: one use per uploaded image that was opened and shown
      without raising (`decoded`); opening reads the header, showing decodes
      the pixels, and a failure in either ends the run before the debit. */
  function DataPage(w: World, uploaded: bool, decoded: bool): (r: Next)
    requires w.session.remainingUses.Some?
    ensures MeteredAs(w, uploaded && decoded, r)
  {
    Metered(w, uploaded && decoded)
  }

  /** `yt_page`: one use per press of the play button. */
  function YtPage(w: World, playPressed: bool): (r: Next)
    requires w.session.remainingUses.Some?
    ensures MeteredAs(w, playPressed, r)
  {
    Metered(w, playPressed)
  }

  /** `llama2_chatbot_page`: one use per submitted non-empty prompt, taken
      before the remote model is called, so whatever the call does. */
  function Llama2ChatbotPage(w: World, prompt: string, submitted: bool): (r: Next)
    requires w.session.remainingUses.Some?
    ensures MeteredAs(w, submitted && prompt != "", r)
  {
    Metered(w, submitted && |prompt| > 0)
  }

  /** `chatgpt_chat_page`: one use per submitted non-empty prompt, taken after
      the remote model responded; a call that fails takes nothing. */
  function ChatgptChatPage(w: World, prompt: string, submitted: bool, responded: bool): (r: Next)
    requires w.session.remainingUses.Some?
    ensures MeteredAs(w, submitted && prompt != "" && responded, r)
  {
    Metered(w, submitted && |prompt| > 0 && responded)
  }

  // ---- Recharge ------------------------------------------------------------

  /** `recharge_page`: the button adds the option's uses when the form is
      complete, with no upper bound, and shows an error otherwise. */
  function RechargePage(w: World, cardNumber: string, month: string, year: string, cvv: string,
                        option: AmountOption, pressed: bool): (r: Next)
    requires w.session.remainingUses.Some?
    ensures r.outcome.Recharged? <==> pressed && |cardNumber| > 0 && IsCvv(cvv)
    ensures r.outcome == RechargeRejected <==> pressed && !(|cardNumber| > 0 && IsCvv(cvv))
    ensures r.outcome.Recharged? ==>
              && r.outcome.amount == Credits(option)
              && r.world == w.(session := w.session.(remainingUses := Some(w.session.remainingUses.value + Credits(option))))
    ensures !pressed ==> r.outcome == Quiet
    ensures !r.outcome.Recharged? ==> r.world == w
  {
    FormCompleteIff(cardNumber, month, year, cvv, option);
    if !pressed then Next(w, Quiet)
    else if FormComplete(cardNumber, MonthYear(month, year), cvv, option.Label()) then
      var amount := AmountTable[option.Label()];
      Next(w.(session := w.session.(remainingUses := Some(w.session.remainingUses.value + amount))), Recharged(amount))
    else
      Next(w, RechargeRejected)
  }

  // ---- Navigation ----------------------------------------------------------

  datatype Page = LoginSignup | ImageProcessing | YouTube | Recharging | Llama2Chat | ChatGptChat

  /** `pages`: the radio's options, in order. A logged-out session is offered
      only the login/signup page; a logged-in one every other page. */
  function PageTable(loggedIn: bool): (pages: seq<Page>)
    ensures |pages| > 0
    ensures pages[0] == if loggedIn then ImageProcessing else LoginSignup
    ensures forall p :: p in pages <==> (p == LoginSignup <==> !loggedIn)
    ensures forall i, j :: 0 <= i < j < |pages| ==> pages[i] != pages[j]
  {
    var services := [ImageProcessing, YouTube, Recharging, Llama2Chat, ChatGptChat];
    assert LoginSignup !in services;
    ServicePagesCover(services);
    if loggedIn then services else [LoginSignup]
  }

  lemma ServicePagesCover(services: seq<Page>)
    requires services == [ImageProcessing, YouTube, Recharging, Llama2Chat, ChatGptChat]
    ensures forall p :: p != LoginSignup ==> p in services
  {
    forall p | p != LoginSignup ensures p in services {
      match p
      case ImageProcessing => assert services[0] == p;
      case YouTube => assert services[1] == p;
      case Recharging => assert services[2] == p;
      case Llama2Chat => assert services[3] == p;
      case ChatGptChat => assert services[4] == p;
    }
  }

  /** The widget values of one page in one run. */
  datatype Action =
    | AuthForm(choice: AuthChoice, username: string, password: string, pressed: bool)
    | ImageUpload(uploaded: bool, decoded: bool)
    | VideoPlay(playPressed: bool)
    | RechargeForm(cardNumber: string, month: string, year: string, cvv: string, option: AmountOption, pressed: bool)
    | Llama2Prompt(prompt: string, submitted: bool)
    | ChatGptPrompt(prompt: string, submitted: bool, responded: bool)

  function PageOf(a: Action): Page
  {
    match a
    case AuthForm(_, _, _, _) => LoginSignup
    case ImageUpload(_, _) => ImageProcessing
    case VideoPlay(_) => YouTube
    case RechargeForm(_, _, _, _, _, _) => Recharging
    case Llama2Prompt(_, _) => Llama2Chat
    case ChatGptPrompt(_, _, _) => ChatGptChat
  }

  /** A page rendered with no widget touched. */
  function Untouched(p: Page): (a: Action)
    ensures PageOf(a) == p
  {
    match p
    case LoginSignup => AuthForm(LogInTab, "", "", false)
    case ImageProcessing => ImageUpload(false, false)
    case YouTube => VideoPlay(false)
    case Recharging => RechargeForm("", "01", "00", "", TenUses, false)
    case Llama2Chat => Llama2Prompt("", false)
    case ChatGptChat => ChatGptPrompt("", false, false)
  }

  /** `page()`: run the handler of the selected page. */
  function Handle(w: World, a: Action): Next
    requires w.session.remainingUses.Some?
  {
    match a
    case AuthForm(choice, u, p, pressed) => LoginSignupPage(w, choice, u, p, pressed)
    case ImageUpload(uploaded, decoded) => DataPage(w, uploaded, decoded)
    case VideoPlay(play) => YtPage(w, play)
    case RechargeForm(card, m, y, cvv, option, pressed) => RechargePage(w, card, m, y, cvv, option, pressed)
    case Llama2Prompt(prompt, submitted) => Llama2ChatbotPage(w, prompt, submitted)
    case ChatGptPrompt(prompt, submitted, responded) => ChatgptChatPage(w, prompt, submitted, responded)
  }

  /** What the user did in one run: whether the logout button was pressed and
      what they did on the page picked in the sidebar. */
  datatype Request = Request(logoutPressed: bool, action: Action)

  /** One run of `main`. The radio offers only the current table's pages, so a
      page outside it is rendered as the table's first page, untouched. */
  function Rerun(w: World, req: Request): (r: Next)
    requires Consistent(w.session)
    ensures Consistent(r.world.session)
    ensures NonNegative(w.session) ==> NonNegative(r.world.session)
    ensures forall u :: u in w.users ==> u in r.world.users && r.world.users[u] == w.users[u]
  {
    var w0 := w.(session := InitDefaults(w.session));
    if w0.session.loggedIn.value && req.logoutPressed then
      Next(w0.(session := AfterLogout(w0.session)), LoggedOut)
    else
      var pages := PageTable(w0.session.loggedIn.value);
      var a := if PageOf(req.action) in pages then req.action else Untouched(pages[0]);
      Handle(w0, a)
  }

  /** The final world and the outcomes of a sequence of runs. */
  datatype Trace = Trace(final: World, outcomes: seq<Outcome>)

  function Run(w: World, reqs: seq<Request>): (t: Trace)
    requires Consistent(w.session)
    ensures Consistent(t.final.session)
    ensures |t.outcomes| == |reqs|
    ensures NonNegative(w.session) ==> NonNegative(t.final.session)
    decreases |reqs|
  {
    if reqs == [] then Trace(w, [])
    else
      var n := Rerun(w, reqs[0]);
      var rest := Run(n.world, reqs[1..]);
      Trace(rest.final, [n.outcome] + rest.outcomes)
  }
}
