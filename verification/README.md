# Session metering and access gating of the Streamlit chat/media app

This project models, in Dafny, the state machine behind `streamlit_app_v2.py`:
the per-browser session record `st.session_state` with its three keys
`logged_in`, `username` and `remaining_uses`, the `users` table it logs in
against, and what one run of each page handler does to them.

- `opt.dfy` (`Opt`): an `Option` type; a session key that is not in the
  dictionary is `None`.
- `credentials.dfy` (`Credentials`): the `users` table as a map from username
  to password (the primary key makes it one), its relational view `Rows`, and
  the three statements `validate_login`, `validate_signup` and `create_user`.
- `recharge.dfy` (`Recharge`): the recharge form — the zero-padded month and
  year lists, the expiry string, the amount table and the acceptance condition.
- `session_model.dfy` (`SessionModel`): the session as a value, one function
  per handler (`Login`, `Signup`, `DataPage`, `YtPage`, `Llama2ChatbotPage`,
  `ChatgptChatPage`, `RechargePage`), the page table, `Rerun` (one run of
  `main`: defaults, logout button, the selected page) and `Run` (a sequence of
  runs).
- `session_properties.dfy` (`SessionProperties`): lemmas over one run and over
  any sequence of runs — initialisation, login and logout, signup, page gating,
  metering, and the accounting of uses (never negative; never more taken than
  granted).
- `session.dfy` (`App`): class `Session` whose fields are the three keys and
  the table and whose methods update them in place as the handlers do; each
  method is proved to end in the state (and show the message) that the
  corresponding `SessionModel` function gives.

One run of a handler is one step. Widget values (text inputs, buttons, the
uploaded file, the select boxes) are inputs of the step. The remote models
(OpenAI, Replicate), the image and the video are opaque. The model takes two
facts from them. One is whether the ChatGPT call returned (`responded`),
because that page takes its use only after the response. The other is whether
the uploaded image was opened and shown without raising (`decoded`): both
`Image.open`, which reads only the header, and `st.image`, which decodes the
pixels, run before the image page takes its use. The Llama 2 page takes its use
before calling the model, so its result plays no part.

The sidebar radio offers only the pages of the current table. A request names
the page the user picked; a page that is not in the current table is rendered
as the first page of the table with no widget touched (a radio whose options
changed starts again at its first option).

The model keeps three traits of the code that a reader might expect to be
otherwise. The code never clamps the counter at 0: non-negativity comes only
from checking `remaining_uses <= 0` before a debit of exactly 1. The Llama 2
page debits before its remote call, not after a successful one. Every metered
page of this version costs 1.

## Model

| member | source | states |
|---|---|---|
| Credentials.ValidateLogin | streamlit_app_v2.py:97-103 | A row is fetched exactly when (username, password) is a row of the table, and it is that row. |
| Credentials.ValidateSignup | streamlit_app_v2.py:105-111 | Nothing is fetched exactly when no row has the username; otherwise the row fetched is a row of the table with that username. |
| Credentials.Insert | streamlit_app_v2.py:113-118 | The INSERT succeeds exactly when no row has the username, and then the table's rows are the old rows plus the new one; otherwise it fails on the primary key. |
| Credentials.PrimaryKey | streamlit_app_v2.py:16-21 | Two rows of the table with the same username are the same row. |
| Recharge.Pad2 | streamlit_app_v2.py:149-150 | `f"{i:02d}"` for i < 100 is two ASCII digits that read back as i. |
| Recharge.Months | streamlit_app_v2.py:149 | The month list has 12 entries; entry k is two digits denoting k + 1. |
| Recharge.Years | streamlit_app_v2.py:150 | The year list has 25 entries; entry k is two digits denoting k. |
| Recharge.MonthYear | streamlit_app_v2.py:155 | The expiry string is month, "/", year, so it is never empty. |
| Recharge.Credits | streamlit_app_v2.py:158-167 | Every option of the amount select box is a key of `amount_map`, and it buys 10, 100 or 1000 uses. |
| Recharge.FormCompleteIff | streamlit_app_v2.py:161 | With the expiry and amount taken from their select boxes, the recharge condition holds exactly when the card number is non-empty and the CVV is three ASCII digits. |
| Recharge.CreditsInjective | streamlit_app_v2.py:162-166 | Different amount options buy different numbers of uses. |
| SessionModel.Login | streamlit_app_v2.py:67-82 | Login succeeds exactly when the button is pressed and the credentials are a row of the table; success sets the flag, the name and a counter of 10 whatever the counter was; a wrong pair gives the error, no press shows nothing, and neither changes anything. |
| SessionModel.LoginSignupPage | streamlit_app_v2.py:58-65 | The login tab can only log in (or fail) and never touches the table; the signup tab can only sign up (or be refused) and never touches the session. |
| SessionModel.Signup | streamlit_app_v2.py:84-95 | Signup adds the row exactly when the button is pressed and the username is free, without touching the session; a taken username gives the error and changes nothing. |
| SessionModel.DataPage | streamlit_app_v2.py:121-141 | With a counter of 0 or less: the warning and no change. Otherwise exactly one use is taken when an image was uploaded and both opening and showing it completed without raising, no other field changes; when none was uploaded, or opening or showing it raised before the debit, nothing changes. |
| SessionModel.YtPage | streamlit_app_v2.py:172-199 | As for the image page, with a press of the play button as the action. |
| SessionModel.Llama2ChatbotPage | streamlit_app_v2.py:201-234 | As for the image page, with a submitted non-empty prompt as the action, whatever the remote call does afterwards. |
| SessionModel.ChatgptChatPage | streamlit_app_v2.py:237-258 | As for the image page, with a submitted non-empty prompt that the remote model answered as the action. |
| SessionModel.RechargePage | streamlit_app_v2.py:143-170 | A pressed button adds exactly the option's 10, 100 or 1000 uses, with no upper bound, exactly when the card number is non-empty and the CVV is three digits; otherwise the error and no change; nothing else is touched. |
| SessionModel.PageTable | streamlit_app_v2.py:42-52 | A logged-out session is offered only the login/signup page; a logged-in one exactly the five service pages, the image page first (the radio's default); no page is listed twice and the list is never empty. |
| SessionModel.Rerun | streamlit_app_v2.py:25-56 | One run of `main` keeps the session's keys consistent, keeps a non-negative counter non-negative, and never removes or alters an existing account. |
| SessionModel.Run | streamlit_app_v2.py:25-56 | Any sequence of runs keeps the keys consistent and a non-negative counter non-negative, with one outcome per run. |
| SessionProperties.InitOnlyFillsMissingKeys | streamlit_app_v2.py:27-29 | Defaults (`logged_in` false, counter 0) are written only when `logged_in` is missing; an existing session is untouched, so initialising twice equals once. |
| SessionProperties.FirstRunOfFreshSession | streamlit_app_v2.py:27-31 | The first run of a new session either logs in with exactly 10 uses or ends logged out with counter 0. |
| SessionProperties.LoginGrantsTen | streamlit_app_v2.py:73-79 | A login with credentials in the table yields a logged-in session for that name with 10 uses, whatever the previous counter. |
| SessionProperties.LoginRejectedChangesNothing | streamlit_app_v2.py:73-82 | A login with credentials in no row shows the error and changes no session field beyond the defaults. |
| SessionProperties.LogoutResets | streamlit_app_v2.py:35-39 | The logout button sets `logged_in` false, `username` "" and the counter 0, and leaves the table. |
| SessionProperties.LogoutThenLoginIsFreshLogin | streamlit_app_v2.py:35-38 | Logout followed by login gives the flag and counter of a login into a new session; with valid credentials the whole state is the same. |
| SessionProperties.SignupOnlyAddsNewUsers | streamlit_app_v2.py:90-95 | A signup run leaves the session as initialised; it adds the row for a free username and keeps the table for a taken one. |
| SessionProperties.PagesFollowLogin | streamlit_app_v2.py:31-56 | A logged-out session can only log in or sign up (no metering, recharge or logout); a logged-in one never logs in, fails a login, signs up or is refused a username. |
| SessionProperties.ExhaustedPagesChangeNothing | streamlit_app_v2.py:125-127 | Each of the four metered pages, with no uses left, shows the warning and changes nothing. |
| SessionProperties.CounterMovesOnlyThrough | streamlit_app_v2.py:25-56 | The counter changes only by a login (to 10), a logout (to 0), a metered action (minus exactly 1, from a positive counter, nothing else touched) or a recharge (plus 10, 100 or 1000). |
| SessionProperties.LastUseThenRefused | streamlit_app_v2.py:178-199 | With one use left, a video play takes it and a second play is refused with the counter at 0. |
| SessionProperties.NeverNegative | streamlit_app_v2.py:125-138 | From a new session, the counter is never negative after any prefix of any sequence of runs. |
| SessionProperties.StepAccounting | streamlit_app_v2.py:25-56 | In one run, uses taken plus uses left never exceed uses held plus uses granted, with equality unless the run logged in or out. |
| SessionProperties.SpentWithinGranted | streamlit_app_v2.py:25-56 | Over any sequence of runs, uses taken plus uses left never exceed the starting uses plus the uses granted by logins and recharges. |
| SessionProperties.BalanceWhileLoggedIn | streamlit_app_v2.py:160-167 | While nobody logs in or out, the counter is exactly the starting counter plus recharges minus uses taken. |
| SessionProperties.FreshSessionSpendsOnlyGrants | streamlit_app_v2.py:27-29 | A new session never takes more uses than logins and recharges granted it. |
| App.Session.constructor | streamlit_app_v2.py:27-29 | A new session starts with none of the three keys set. |
| App.Session.Rerun | streamlit_app_v2.py:25-56 | Updating the fields in place, `main` ends in the state and shows the message that `SessionModel.Rerun` gives. |
| App.Session.LoginSignupPage | streamlit_app_v2.py:58-65 | The tab runs the login or the signup handler, as `SessionModel.LoginSignupPage`. |
| App.Session.Login | streamlit_app_v2.py:67-82 | Updates the fields as `SessionModel.Login`. |
| App.Session.Signup | streamlit_app_v2.py:84-95 | Updates the table as `SessionModel.Signup`. |
| App.Session.CreateUser | streamlit_app_v2.py:113-118 | The insert succeeds exactly when the username is free and leaves the table `Credentials.Insert` gives. |
| App.Session.HasCredit | streamlit_app_v2.py:125 | The gate passes exactly when the counter is positive. |
| App.Session.TakeOneUse | streamlit_app_v2.py:138 | The counter is one less than before. |
| App.Session.DataPage | streamlit_app_v2.py:121-141 | Updates the counter as `SessionModel.DataPage`. |
| App.Session.YtPage | streamlit_app_v2.py:172-199 | Updates the counter as `SessionModel.YtPage`. |
| App.Session.Llama2ChatbotPage | streamlit_app_v2.py:201-234 | Updates the counter as `SessionModel.Llama2ChatbotPage`. |
| App.Session.ChatgptChatPage | streamlit_app_v2.py:237-258 | Updates the counter as `SessionModel.ChatgptChatPage`. |
| App.Session.RechargePage | streamlit_app_v2.py:143-170 | Updates the counter as `SessionModel.RechargePage`. |

## Left out

- Rendering and widget plumbing (`st.write`, `st.warning`, `st.success`, `st.error`, `st.image`, `st.video`, `set_page_config`, the sidebar title): widget values are inputs of a step, and the message a handler shows is its `Outcome`.
- `st.experimental_rerun` and Streamlit's re-execution model: one handler call is one step. In the running app `data_page` takes another use on every rerun while a file stays uploaded; the model counts one upload as one step.
- SQLite connection and cursor I/O: the table is an abstract map with lookup and insert only. Each `Session` object holds its own table, so several browser sessions sharing one database file are not modelled.
- OpenAI and Replicate calls, and `generate_response`: opaque. A ChatGPT call that raises ends the run before the debit (`responded` false); a Llama 2 call that raises does so after the debit, which the model keeps.
- The Replicate API-key sidebar, including the `REPLICATE_API_TOKEN` session key it may write: not part of the metering state. The prompt of the Llama 2 page is an input (empty when the box is disabled for want of a key).
- PIL image decoding: opaque. Only whether `Image.open` and `st.image` both completed without raising is an input (`decoded`). A file that passes the extension filter but has a bad header (raising in `Image.open`) or bad pixel data (raising in `st.image`) ends the run before the debit, so it takes no use.
- The static video URL table: no logic; the chosen video does not affect the state.
- Recharge.IsDigits: models `str.isdigit` on ASCII digits only; Unicode digits that Python also accepts are not modelled.
- Chat history, its clearing, UI flags, "reveal text" toggles and action costs other than 1: not present in this file.
