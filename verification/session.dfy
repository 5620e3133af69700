/** `st.session_state` and the users table as mutable state, with one method
    per handler of the app. Each method updates the fields in place as the
    handler does and is proved to do what the corresponding function of
    `SessionModel` says. */
module App {
  import opened Opt
  import C = Credentials
  import R = Recharge
  import M = SessionModel

  class Session {
    var loggedIn: Option<bool>
    var username: Option<string>
    var remainingUses: Option<int>
    var users: C.UserTable

    /** The session and the table as a value. */
    function State(): M.World
      reads this
    {
      M.World(M.SessionState(loggedIn, username, remainingUses), users)
    }

    /** A new browser session against an existing table: no key set yet. */
    constructor (users: C.UserTable)
      ensures State() == M.World(M.Fresh, users)
    {
      loggedIn, username, remainingUses := None, None, None;
      this.users := users;
    }

    /** `main`: defaults, the logout button, then the selected page. */
    method Rerun(req: M.Request) returns (outcome: M.Outcome)
      requires M.Consistent(State().session)
      modifies this
      ensures M.Next(State(), outcome) == M.Rerun(old(State()), req)
    {
      if loggedIn.None? {
        loggedIn := Some(false);
        remainingUses := Some(0);
      }
      if loggedIn.value && req.logoutPressed {
        loggedIn := Some(false);
        username := Some("");
        remainingUses := Some(0);
        outcome := M.LoggedOut;
        return;
      }
      var pages := M.PageTable(loggedIn.value);
      var action := if M.PageOf(req.action) in pages then req.action else M.Untouched(pages[0]);
      match action
      case AuthForm(choice, u, p, pressed) => outcome := LoginSignupPage(choice, u, p, pressed);
      case ImageUpload(uploaded, decoded) => outcome := DataPage(uploaded, decoded);
      case VideoPlay(play) => outcome := YtPage(play);
      case RechargeForm(card, m, y, cvv, option, pressed) => outcome := RechargePage(card, m, y, cvv, option, pressed);
      case Llama2Prompt(prompt, submitted) => outcome := Llama2ChatbotPage(prompt, submitted);
      case ChatGptPrompt(prompt, submitted, responded) => outcome := ChatgptChatPage(prompt, submitted, responded);
    }

    /** `login_signup_page`: the tab picks login or signup. */
    method LoginSignupPage(choice: M.AuthChoice, u: string, p: string, pressed: bool) returns (outcome: M.Outcome)
      modifies this
      ensures M.Next(State(), outcome) == M.LoginSignupPage(old(State()), choice, u, p, pressed)
    {
      match choice
      case LogInTab => outcome := Login(u, p, pressed);
      case SignUpTab => outcome := Signup(u, p, pressed);
    }

    /** `login` */
    method Login(u: string, p: string, pressed: bool) returns (outcome: M.Outcome)
      modifies this
      ensures M.Next(State(), outcome) == M.Login(old(State()), u, p, pressed)
    {
      outcome := M.Quiet;
      if pressed {
        var user := C.ValidateLogin(users, u, p);
        if user.Some? {
          loggedIn := Some(true);
          username := Some(u);
          remainingUses := Some(10);
          outcome := M.LoginSucceeded;
        } else {
          outcome := M.LoginFailed;
        }
      }
    }

    /** `signup` */
    method Signup(u: string, p: string, pressed: bool) returns (outcome: M.Outcome)
      modifies this`users
      ensures M.Next(State(), outcome) == M.Signup(old(State()), u, p, pressed)
    {
      outcome := M.Quiet;
      if pressed {
        var existing := C.ValidateSignup(users, u);
        if existing.None? {
          var inserted := CreateUser(u, p);
          assert inserted;
          outcome := M.SignedUp;
        } else {
          outcome := M.UsernameTaken;
        }
      }
    }

    /** `create_user`: the INSERT either adds the row or, for a username
        already present, fails on the primary key and leaves the table. */
    method CreateUser(u: string, p: string) returns (inserted: bool)
      modifies this`users
      ensures inserted <==> u !in old(users)
      ensures match C.Insert(old(users), u, p)
              case Inserted(t) => users == t
              case IntegrityError => users == old(users)
    {
      inserted := u !in users;
      if inserted {
        users := users[u := p];
      }
    }

    /** The gate at the top of every metered page. */
    method HasCredit() returns (ok: bool)
      requires remainingUses.Some?
      ensures ok <==> remainingUses.value > 0
    {
      ok := !(remainingUses.value <= 0);
    }

    /** `remaining_uses -= 1` */
    method TakeOneUse()
      requires remainingUses.Some?
      modifies this`remainingUses
      ensures remainingUses == Some(old(remainingUses.value) - 1)
    {
      remainingUses := Some(remainingUses.value - 1);
    }

    /** `data_page`: the image is opened and shown before the use is taken,
        so a file whose header or pixels fail to decode takes nothing. */
    method DataPage(uploaded: bool, decoded: bool) returns (outcome: M.Outcome)
      requires remainingUses.Some?
      modifies this
      ensures M.Next(State(), outcome) == M.DataPage(old(State()), uploaded, decoded)
    {
      var ok := HasCredit();
      if !ok {
        return M.OutOfCredit;
      }
      outcome := M.Quiet;
      if uploaded && decoded {
        TakeOneUse();
        outcome := M.Charged;
      }
    }

    /** `yt_page` */
    method YtPage(playPressed: bool) returns (outcome: M.Outcome)
      requires remainingUses.Some?
      modifies this
      ensures M.Next(State(), outcome) == M.YtPage(old(State()), playPressed)
    {
      var ok := HasCredit();
      if !ok {
        return M.OutOfCredit;
      }
      outcome := M.Quiet;
      if playPressed {
        TakeOneUse();
        outcome := M.Charged;
      }
    }

    /** `llama2_chatbot_page`: the use is taken before the remote model is
        called, so the call's result plays no part. */
    method Llama2ChatbotPage(prompt: string, submitted: bool) returns (outcome: M.Outcome)
      requires remainingUses.Some?
      modifies this
      ensures M.Next(State(), outcome) == M.Llama2ChatbotPage(old(State()), prompt, submitted)
    {
      var ok := HasCredit();
      if !ok {
        return M.OutOfCredit;
      }
      outcome := M.Quiet;
      if submitted && |prompt| > 0 {
        TakeOneUse();
        outcome := M.Charged;
      }
    }

    /** `chatgpt_chat_page`: the use is taken only after the remote model
        responded. */
    method ChatgptChatPage(prompt: string, submitted: bool, responded: bool) returns (outcome: M.Outcome)
      requires remainingUses.Some?
      modifies this
      ensures M.Next(State(), outcome) == M.ChatgptChatPage(old(State()), prompt, submitted, responded)
    {
      var ok := HasCredit();
      if !ok {
        return M.OutOfCredit;
      }
      outcome := M.Quiet;
      if submitted && |prompt| > 0 && responded {
        TakeOneUse();
        outcome := M.Charged;
      }
    }

    /** `recharge_page` */
    method RechargePage(cardNumber: string, month: string, year: string, cvv: string,
                        option: R.AmountOption, pressed: bool) returns (outcome: M.Outcome)
      requires remainingUses.Some?
      modifies this
      ensures M.Next(State(), outcome) == M.RechargePage(old(State()), cardNumber, month, year, cvv, option, pressed)
    {
      outcome := M.Quiet;
      if pressed {
        var monthYear := R.MonthYear(month, year);
        if R.FormComplete(cardNumber, monthYear, cvv, option.Label()) {
          var amount := R.AmountTable[option.Label()];
          remainingUses := Some(remainingUses.value + amount);
          outcome := M.Recharged(amount);
        } else {
          outcome := M.RechargeRejected;
        }
      }
    }
  }
}
