# RankUp player card and auth forms in Dafny

RankUp is a mobile client for competitive gamers. This project models the two
pieces of it that carry behaviour rather than layout:

- **Player-card resolvers** (`components/PlayerCard.js`). These are total functions.
  A rank maps to an accent colour and to a badge. A game maps to a logo. Unknown
  keys fall back to a default. A player's wins, K/D ratio and main game map to one
  of seven achievement labels, in a fixed precedence. Icons are modelled as values
  (`Glyph`: icon name, colour, size) inside an `Emblem` that says how they are
  drawn: alone, on a coloured background, or as a pair whose second icon is turned
  half a turn.
- **Auth form submit logic** (`app/auth/sign-up.js`, `app/auth/sign-in.js`). Each
  submit handler works in four steps:
  1. It sets `isLoading` and clears `errorMessage`.
  2. It runs an ordered validator, where the first failing check supplies the message.
  3. If a check fails, it shows that message and stops loading.
  4. Otherwise it schedules a timer. When the timer fires, it stops loading and
     replaces the route with `/(tabs)`.

  The submit button is disabled while `isLoading` holds.

Module layout:

- `wrappers.dfy`: `Option`.
- `player_card.dfy` (module `PlayerCard`): the lookup tables, the resolvers and the
  achievement precedence. `AchievementRules` with `FirstMatch` is an independent,
  declarative statement of that precedence: the first rule that holds wins.
  `AchievementIsFirstMatch` proves that `Achievement` agrees with it.
- `auth_form.dfy` (module `AuthForm`): the state machine the two screens share.
  - `FormState` holds `isLoading`, `errorMessage`, the count of pending timers, and
    the log of routes navigated to.
  - `Submit` is the handler, run to its end, given the validator's verdict.
  - `TimerFired` is the deferred callback.
  - `Step` and `Run` replay a sequence of button presses and timer ticks. A press
    while the button is disabled is swallowed.
  - The trace lemmas show that every reachable state is `Consistent`. That means:
    - at most one timer is pending, and exactly while loading;
    - no error is shown while loading;
    - every navigation goes to `/(tabs)`.

    They also show that navigations plus pending timers equal the passing submits
    that reached the enabled button.
- `sign_up.dfy` (module `SignUp`) and `sign_in.dfy` (module `SignIn`). Each holds its
  screen's validator and a `Screen` class with the fields `isLoading` and
  `errorMessage`, plus two ghost fields: pending timers and the route log. The
  methods `HandleSignUp`/`HandleSignIn` and `OnTimer` update the fields step by step,
  as the handlers do. Their postconditions tie the new state to `AuthForm.Submit`
  and `AuthForm.TimerFired`.

## Model

| member | source | states |
|---|---|---|
| `PlayerCard.RankColor` | components/PlayerCard.js:137-152 | Any string outside the ten case-sensitive rank names gets the default cyan `#4AFAFF`. Every result is a `#` plus six hex digits colour. |
| `PlayerCard.RankBadge` | components/PlayerCard.js:92-120 | An unknown rank gets the star/`#FFD700` badge, and a known rank never does. The badge sits on a coloured background exactly for Platinum, Diamond, Master and Immortal, at size 35. Every other badge is a plain size-60 icon. |
| `PlayerCard.GameLogo` | components/PlayerCard.js:70-89 | An unknown game gets the gamepad/`#FFF` logo, and a known game never does. Only Valorant is drawn as a pair of icons, the second turned half a turn. |
| `PlayerCard.Achievement` | components/PlayerCard.js:123-134 | The result is always one of the seven labels and starts with `*`. wins > 300 gives TOP PERFORMER whatever kd and game are. Otherwise kd > 3.0 gives HIGH K/D RATIO. Otherwise wins > 200 gives GAME WINNER. Otherwise the label depends only on the game: Valorant, League of Legends and Apex Legends have their own labels, and every other game gives ACTIVE PLAYER. |
| `PlayerCard.FirstMatch` | components/PlayerCard.js:123-134 | First-rule-wins selection over an ordered rule list. It finds a label exactly when some rule holds. That label belongs to a rule that holds, and no earlier rule holds. |
| `PlayerCard.AchievementIsFirstMatch` | components/PlayerCard.js:123-134 | `Achievement` returns the label of the first rule, in the source's precedence order, whose condition holds. |
| `PlayerCard.RankTablesAgree` | components/PlayerCard.js:94-149 | The colour table and the badge table have exactly the same ten rank keys. |
| `PlayerCard.KnownRankColorsDistinct` | components/PlayerCard.js:138-149 | Two different known ranks never share a colour. |
| `PlayerCard.PlatinumColorIsDefault` | components/PlayerCard.js:142-151 | Platinum's colour equals the default colour of every unknown rank, so the colour does not determine the rank. |
| `AuthForm.ShownError` | app/auth/sign-up.js:85 | The error line is shown exactly when `errorMessage` is non-empty, and it shows that message (the same rule is at app/auth/sign-in.js:71). |
| `AuthForm.SubmitEnabled` | app/auth/sign-up.js:124-128 | The button accepts presses exactly while not loading, which in every consistent state is exactly when no timer is pending (the same rule is at app/auth/sign-in.js:96-100). |
| `AuthForm.Submit` | app/auth/sign-up.js:25-47 | A handler run never navigates. A failing verdict ends with loading off, the verdict's message shown and no timer. A passing verdict ends with loading on, no error (whatever error was there before) and one more pending timer. |
| `AuthForm.TimerFired` | app/auth/sign-up.js:49-55 | The callback turns loading off, appends exactly one `/(tabs)` navigation and removes the pending timer. |
| `AuthForm.Step` | app/auth/sign-up.js:124-128 | A press on the disabled button changes nothing. A press never navigates. A timer firing appends exactly one `/(tabs)` navigation, and with no timer pending nothing changes. One event adds at most one pending timer. |
| `AuthForm.StepConsistent` | app/auth/sign-up.js:124-131 | Pressing the button (ignored while disabled) or firing a timer keeps the state consistent. Consistent means at most one pending timer, a timer pending exactly while loading, no error while loading, and only `/(tabs)` navigations. |
| `AuthForm.RunConsistent` | app/auth/sign-up.js:25-56 | Every state reachable by any sequence of presses and timer firings is consistent. In particular, a second pending timer is never possible. |
| `AuthForm.NavigationsOwedToPasses` | app/auth/sign-up.js:49-55 | After any event sequence, from any start state, navigations plus pending timers grow by exactly the number of passing presses that arrived while the button was enabled. A press on the disabled button schedules nothing. |
| `AuthForm.NavigationNeedsPassingPress` | app/auth/sign-up.js:30-55 | If a screen has navigated, some press in its history passed validation and arrived while the button was enabled. |
| `AuthForm.PassThenTick` | app/auth/sign-in.js:23-42 | From an idle screen, a passing submit and then the timer append exactly one `/(tabs)` navigation. The screen ends idle with no error and no pending timer. |
| `SignUp.Validate` | app/auth/sign-up.js:30-46 | Success exactly when all four fields are non-empty, the passwords are equal and the password has at least 6 characters. Any empty field gives "Please fill in all fields." whatever the passwords are. Otherwise a mismatch gives "Passwords do not match.", even for a short password. Otherwise a short password gives the length message. |
| `SignUp.ValidateExamples` | app/auth/sign-up.js:30-46 | `abc`/`abc` gives the length error. `abcdef`/`xyz123` and `ab`/`abc` give the mismatch error. An empty username gives the fill-in error. |
| `SignUp.RunScreen` | app/auth/sign-up.js:25-56 | Every state of the sign-up screen reachable from mounting is consistent. |
| `SignUp.NavigatesOnlyAfterAcceptableForm` | app/auth/sign-up.js:30-55 | Sign-up navigates only if some form with all four fields filled, matching passwords and a password of at least 6 characters was submitted while the button was enabled. |
| `SignUp.AcceptableSignUpNavigatesOnce` | app/auth/sign-up.js:48-55 | After submitting an acceptable form, the screen is loading, shows no error, has one pending timer and has not navigated. After the timer fires, there is exactly one navigation to `/(tabs)`, and the screen ends idle with no error and no timer. |
| `SignUp.Screen.constructor` | app/auth/sign-up.js:22-23 | A mounted screen is not loading, has no error, has no timer and has not navigated. |
| `SignUp.Screen.ButtonLabel` | app/auth/sign-up.js:129-131 | The label is "Creating Account..." exactly while loading, and "Create Account" otherwise. |
| `SignUp.Screen.HandleSignUp` | app/auth/sign-up.js:25-47 | Requires the button to be enabled. The new state is `AuthForm.Submit` of the old state with the sign-up verdict. A rejected form ends not loading, with the first failing check's message. An accepted form ends loading, with no error and one pending timer. The handler does not navigate. |
| `SignUp.Screen.OnTimer` | app/auth/sign-up.js:49-55 | Requires a pending timer. It turns loading off and appends one `/(tabs)` navigation. |
| `SignIn.Validate` | app/auth/sign-in.js:27-32 | Success exactly when email and password are both non-empty; there is no length, format or match check. Every failure is "Please enter both email and password." |
| `SignIn.RunScreen` | app/auth/sign-in.js:23-42 | Every state of the sign-in screen reachable from mounting is consistent. |
| `SignIn.NavigatesOnlyAfterFilledForm` | app/auth/sign-in.js:28-41 | Sign-in navigates only if some form with both fields filled was submitted while the button was enabled. |
| `SignIn.FilledSignInNavigatesOnce` | app/auth/sign-in.js:23-41 | After submitting filled credentials, the screen is loading, shows no error, has one pending timer and has not navigated. After the timer fires, there is exactly one navigation to `/(tabs)`, and the screen ends idle with no error and no timer. |
| `SignIn.Screen.constructor` | app/auth/sign-in.js:20-21 | A mounted screen is not loading, has no error, has no timer and has not navigated. |
| `SignIn.Screen.ButtonLabel` | app/auth/sign-in.js:101-103 | The label is "Signing In..." exactly while loading, and "Sign In" otherwise. |
| `SignIn.Screen.HandleSignIn` | app/auth/sign-in.js:23-33 | Requires the button to be enabled. The new state is `AuthForm.Submit` of the old state with the sign-in verdict. An empty field ends not loading, with the presence message. Filled fields end loading, with no error and one pending timer. The handler does not navigate. |
| `SignIn.Screen.OnTimer` | app/auth/sign-in.js:35-41 | Requires a pending timer. It turns loading off and appends one `/(tabs)` navigation. |

## Left out

- Rendered elements, styles and layout: the JSX trees, `StyleSheet.create` and the screen-width arithmetic for the card. A badge or logo is modelled as a `Glyph` inside an `Emblem`. Each glyph keeps its icon name, colour and size. The icon font type (`font-awesome-5`) and the `solid` flag, which every icon shares, are left out.
- `toUpperCase` on the card's username, rank and game text: this is library Unicode case mapping.
- JavaScript property lookup on the lookup tables. In the source, a key inherited from the object prototype (such as `toString`) finds a truthy value and does not fall back to the default. The model treats each table as an exact map over its listed keys. The `||` default otherwise behaves like a missing-key test, because no table value is falsy.
- `kd` is a mathematical real, used only in the `> 3.0` test. NaN and IEEE-754 rounding are not modelled. `wins` is an unbounded integer.
- String length is the length of a `seq<char>`. UTF-16 surrogate pairs are not modelled. An empty field means the empty string, and whitespace counts as content.
- The timer is abstract, and its 1500 ms delay is not modelled. `router.replace` is modelled as appending to a ghost route log. The router library itself is not part of this model.
- React's scheduling is not modelled: `setState` batching, re-render timing, and unmounting while a timer is pending. Each handler runs its assignments in order to a final state.
- A screen that has navigated is not retired. `router.replace('/(tabs)')` replaces the auth screen, so in the app it receives no further presses. The model's traces keep running after a navigation, so the trace lemmas are proved over a larger set of traces than the app can produce.
- The form's text inputs (`onChangeText`) are not modelled as state. The handler receives the current field values as its argument.
- The sign-up and sign-in `Link`s, the social buttons and the "Forgot password" press, which only logs.
- `SignUp.Screen.HandleSignUp`, `SignIn.Screen.HandleSignIn`: these require the button to be enabled (`!isLoading`), because a disabled button delivers no press. The trace function `AuthForm.Step` models that case as a press that leaves the state unchanged.
- The feed and profile screens (`app/(tabs)/index.js`, `app/(tabs)/profile.js`) only hold mock data and lay it out, so they are not modelled.
