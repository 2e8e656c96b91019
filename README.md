# Cognitive-training app shell, modelled in Dafny

The application is a mobile prototype for brain health. Each day it sets
two missions: a drawing and a mini game. The app keeps:
- a few hearts that refill once a day;
- a shop of drawing packs and game packs;
- a leaderboard for the memory game;
- an accessibility dialog (font size, high contrast, voice guide).

Every screen is one branch of a single render function. That function
switches on the current screen id. Buttons, cards, the bottom navigation
bar and two timers move the session between screens and update its
state.

The model has seven modules:

- `Options`: the option type for lookups and parses that may fail.
- `Text`: the JavaScript built-ins the helpers rely on, on `seq<char>`:
  - `Number#toString` for naturals, read back by `ParseDecimal`;
  - `padStart`, `trim` (ECMAScript white space and line terminators),
    `includes` and `indexOf`.
- `AppHelpers`: the pure helpers:
  - the `m:ss` clock text (`FormatTime`), with its reader `ParseTime`;
  - the home header chosen by the day's progress;
  - the eight Mondrian inline styles and the regular-expression parser
    that reads such a style back into properties;
  - the per-game detail table and its fallback.
- `AppData`: the catalog the app starts from:
  - six game types;
  - five drawing packs and four game packs, with ids, prices and
    purchased flags;
  - the seven-row leaderboard built around the player's own time.
- `NavigationBar`: the five nav items, their click callback and their
  highlight test.
- `GameCompleteScreen`: the result screen:
  - the player's rank;
  - the "faster than average" line;
  - the five-row leaderboard preview;
  - the ids its buttons hand back.
- `App`: the state machine:
  - `AppState` is a snapshot of the session;
  - `Event` covers every button, switch and timer;
  - `Enabled` says which events the showing screen offers;
  - `Next` gives the effect of each event;
  - `Inv` is the invariant every reachable state keeps;
  - `Render` is what the render chain draws;
  - `Run` runs a sequence of events.

  The class `Session` holds the live state. Nine of the fifteen
  `useState` cells are fields: the screen, the onboarding step,
  `selectedGame`, the hearts, the daily progress, the dialog flag, the
  accessibility settings and the two pack lists. The other six are
  listed under "Left out". `Session` has one method per event, and each
  method is proved to perform exactly `Next` and to keep `Inv`.

## Model

| member | source | states |
|---|---|---|
| Text.DecimalString | src/utils/app-helpers.ts:4 | `toString` of a natural gives canonical digits (no leading zero) that `ParseDecimal` reads back as the same number; this is JavaScript's text for naturals up to 2^53 − 1 |
| Text.DecimalUnique | src/utils/app-helpers.ts:4 | a canonical digit string is the `toString` of the number it spells |
| Text.PadStart | src/utils/app-helpers.ts:4 | `padStart(n, c)` keeps the text as its suffix and fills the front with `c` up to length `n` |
| Text.PadStartTwoDigits | src/utils/app-helpers.ts:4 | the seconds field of a remainder below 60 is exactly its two decimal digits |
| Text.TrimStart | src/utils/app-helpers.ts:50 | dropping leading white space leaves a suffix of the text that is empty or starts with a non-space, and every character dropped is white space |
| Text.TrimEnd | src/utils/app-helpers.ts:50 | dropping trailing white space leaves a prefix of the text that is empty or ends with a non-space, and every character dropped is white space |
| Text.Trim | src/utils/app-helpers.ts:50 | `trim` is no longer than its input and has no white space at either end |
| Text.TrimAround | src/utils/app-helpers.ts:50 | `trim` gives a slice of its input with only white space before and after it |
| Text.IndexOf | src/utils/app-helpers.ts:49 | `indexOf` returns the first position of the character, or nothing exactly when it does not occur |
| Text.IndexOfAfter | src/utils/app-helpers.ts:49 | the first occurrence after a prefix that does not contain the character is right after that prefix |
| AppHelpers.FormatTime | src/utils/app-helpers.ts:1-5 | the text is at least four characters long, with the colon third from the end |
| AppHelpers.FormatTimeShape | src/utils/app-helpers.ts:1-5 | the minute field is the whole minutes without a leading zero; the last two characters are the remaining seconds, zero-padded |
| AppHelpers.ClockShape | src/utils/app-helpers.ts:2-4 | a clock text splits into canonical minutes, a colon and two digits holding the seconds |
| AppHelpers.ClockRoundTrip | src/utils/app-helpers.ts:2-4 | a clock text of m minutes and s < 60 seconds reads back as m*60+s |
| AppHelpers.FormatTimeRoundTrip | src/utils/app-helpers.ts:1-5 | `ParseTime(FormatTime(n)) == Some(n)` for every natural `n`; the model agrees with JavaScript for `n` up to 2^53 − 1 (see Left out) |
| AppHelpers.ParseTimeSound | src/utils/app-helpers.ts:1-5 | every text the reader accepts is `FormatTime` of the value it reads (the other direction of the round trip) |
| AppHelpers.ClockCanonical | src/utils/app-helpers.ts:2-4 | a text made of canonical minutes, a colon and two digits is the clock text of what it spells |
| AppHelpers.ParseClockText | src/utils/app-helpers.ts:4 | minutes, a colon and two digits below 60 read back as their number of seconds |
| AppHelpers.MinutesAndSeconds | src/utils/app-helpers.ts:2-3 | whole minutes and the remaining seconds are the quotient and remainder by 60 |
| AppHelpers.FormatTimeInjective | src/utils/app-helpers.ts:1-5 | different durations are shown as different texts |
| AppHelpers.ReadsAs | src/utils/app-helpers.ts:1-5 | a text the reader accepts as `n` seconds is exactly what `formatTime(n)` shows |
| AppHelpers.FormatTimeZero | src/utils/app-helpers.ts:1-5 | zero seconds are shown as `0:00` |
| AppHelpers.FormatTimeOneMinute | src/utils/app-helpers.ts:1-5 | 65 seconds are shown as `1:05`, with the seconds zero-padded |
| AppHelpers.FormatTimeCompletion | src/utils/app-helpers.ts:1-5 | the player's completion time of 135 seconds is shown as `2:15` |
| AppHelpers.FormatTimeLead | src/utils/app-helpers.ts:1-5 | 7 seconds are shown as `0:07` |
| AppHelpers.FormatTimeHour | src/utils/app-helpers.ts:1-5 | 3600 seconds are shown as `60:00`: minutes are not carried into hours |
| AppHelpers.HomeHeaderMessage | src/utils/app-helpers.ts:7-29 | the header announces exactly the progress it was given: one distinct header for each of the four combinations |
| AppHelpers.HomeHeaderMessageBijective | src/utils/app-helpers.ts:7-29 | every header is chosen by the progress it announces, so the choice is a bijection |
| AppHelpers.FirstValue | src/utils/app-helpers.ts:45-74 | a key has a first value exactly when some declaration names it |
| AppHelpers.FirstValueAt | src/utils/app-helpers.ts:45-74 | the value found for a key is that of the first declaration naming it |
| AppHelpers.MondrianPieceStyle | src/utils/app-helpers.ts:31-43 | an index within the table gives that piece; any other index falls back to piece 0; the result is never empty |
| AppHelpers.ValueAt | src/utils/app-helpers.ts:49-50 | a match of `\s*([^;]+);` needs a `;` in the text, and the trimmed capture contains no `;` |
| AppHelpers.MatchLabel | src/utils/app-helpers.ts:49 | a match is only found when the text contains the label |
| AppHelpers.ParseProperty | src/utils/app-helpers.ts:48-50 | one block of the parser: key `k` is set exactly when its label matches, to the trimmed capture; other keys are untouched |
| AppHelpers.ParseMondrianStyle | src/utils/app-helpers.ts:45-74 | every one of the five properties is present exactly when its pattern matches and then holds the trimmed capture; a property whose label is absent is never set |
| AppHelpers.PropertyNameChars | src/utils/app-helpers.ts:48-70 | the five property names have no `:`, `;` or space and are at least ten characters long |
| AppHelpers.PropertyNameNotSuffix | src/utils/app-helpers.ts:48-70 | no property name is a proper suffix of another |
| AppHelpers.PropertyNameInjective | src/utils/app-helpers.ts:48-70 | the five property names are distinct |
| AppHelpers.NoOtherLabelInName | src/utils/app-helpers.ts:53-70 | another property's label matches nowhere inside a property name and its colon; for example `border-top:` never matches inside `border-bottom:` |
| AppHelpers.LabelEndsInsideName | src/utils/app-helpers.ts:53-70 | a label whose colon would fall inside another name does not match there |
| AppHelpers.LabelEndsAtColon | src/utils/app-helpers.ts:53-70 | a label ending on another name's colon differs from it |
| AppHelpers.LabelSpansColon | src/utils/app-helpers.ts:53-70 | a label running past another name's colon does not match |
| AppHelpers.NameTailDiffers | src/utils/app-helpers.ts:53-70 | text starting with a different name tail does not start with the label |
| AppHelpers.Mismatch | src/utils/app-helpers.ts:49 | one differing character rules out a match at that position |
| AppHelpers.NoLabelAfterName | src/utils/app-helpers.ts:49-70 | no label matches between a declaration's colon and the separator after it |
| AppHelpers.NoOtherLabel | src/utils/app-helpers.ts:49-70 | no label of another property matches anywhere inside a declaration and its separator |
| AppHelpers.SkipPrefix | src/utils/app-helpers.ts:49 | the regex search returns the leftmost match, so a prefix where the label never starts is skipped |
| AppHelpers.ValueAtPlain | src/utils/app-helpers.ts:49-50 | after a label, a space, a plain value and `;` match, and the trimmed capture is the value |
| AppHelpers.NoSemicolonBeforeValueEnd | src/utils/app-helpers.ts:49 | a space followed by a plain value holds no `;` |
| AppHelpers.TrimSpacedPlain | src/utils/app-helpers.ts:50 | trimming a space and a plain value leaves the value |
| AppHelpers.MatchAtStart | src/utils/app-helpers.ts:49 | a match at the start of the text is the leftmost one |
| AppHelpers.DeclarationSplit | src/utils/app-helpers.ts:33-40 | a declaration is its label, a space, the value and `;` |
| AppHelpers.LabelAtDeclaration | src/utils/app-helpers.ts:49-50 | a declaration's own label, at its start, yields its value |
| AppHelpers.SkipDeclaration | src/utils/app-helpers.ts:49-70 | the search for another property passes over a whole declaration |
| AppHelpers.StyleTextSplit | src/utils/app-helpers.ts:33-40 | a style text is its first declaration, then a space and the rest |
| AppHelpers.StyleTextRoundTrip | src/utils/app-helpers.ts:45-74 | for any declarations with plain values, the parser reads back each property as the value of its first declaration, and as absent when it has none |
| AppHelpers.StyleTextOfThree | src/utils/app-helpers.ts:33-34 | a three-declaration style text is written out as declarations separated by spaces |
| AppHelpers.StyleTextOfFour | src/utils/app-helpers.ts:35-38 | a four-declaration style text is written out as declarations separated by spaces |
| AppHelpers.ArtPieceWritten | src/utils/app-helpers.ts:32-41 | each of the eight literal styles is, character for character, the style text of its declaration table |
| AppHelpers.GradientPlain | src/utils/app-helpers.ts:40 | the gradient value holds no `;` or `:` and has no surrounding space |
| AppHelpers.PieceValuesPlain | src/utils/app-helpers.ts:32-41 | every value in the eight pieces is plain, so it reads back as itself |
| AppHelpers.ArtPieceReadsBack | src/utils/app-helpers.ts:31-74 | parsing art piece `i` gives, for each property, the value its declaration table lists, and nothing for a property the piece does not declare |
| AppHelpers.PieceParsed | src/utils/app-helpers.ts:31-74 | the parsed style object of art piece `i` has exactly the properties the piece declares, each with its first declared value |
| AppHelpers.FirstPieceParsed | src/utils/app-helpers.ts:33 | the first piece parses to a crimson background and 8px solid black right and bottom borders, and nothing else |
| AppHelpers.FirstValuesOfDecls0 | src/utils/app-helpers.ts:33 | the first piece declares a crimson background and 8px right and bottom borders, and no left or top border |
| AppHelpers.PieceOpensWithBackground | src/utils/app-helpers.ts:33-40 | every piece declares its background first |
| AppHelpers.PieceStyleHasBackground | src/utils/app-helpers.ts:31-74 | whatever index is asked for, the style returned has a background the parser finds |
| AppHelpers.GameDetails | src/utils/app-helpers.ts:76-134 | a known id gets its own entry; any other id falls back to the memory game's entry |
| AppHelpers.GameDetailsWellFormed | src/utils/app-helpers.ts:76-134 | every detail page lists four benefits and three difficulty levels, has a proper minute range and a completion rate of at most 100, and its weekly average is below its best score |
| AppData.CreateLeaderboardData | src/constants/app-data.ts:195-202 | the board has seven rows |
| AppData.LeaderboardShape | src/constants/app-data.ts:195-202 | ranks run 1 to 7 in order; only rank 4 is the player's row and carries the given time; every other row does not depend on that time |
| AppData.LeaderboardScoresDecrease | src/constants/app-data.ts:195-202 | scores strictly decrease down the board |
| AppData.GameTypesDistinct | src/constants/app-data.ts:43-92 | six game types with distinct ids |
| AppData.GameTypeIdsHaveDetails | src/constants/app-data.ts:43-92 | the game-type ids are exactly the keys of the detail table |
| AppData.InitialDrawingPacksFacts | src/constants/app-data.ts:94-150 | five drawing packs with distinct ids and positive prices; exactly the second, memory-coloring, is already purchased |
| AppData.InitialGamePacksFacts | src/constants/app-data.ts:152-193 | four game packs with distinct ids and positive prices; exactly the second, attention-pro, is already purchased |
| NavigationBar.NavItemsDistinct | src/components/NavigationBar.tsx:10-16 | five items in the order home, drawing-menu, game-menu, weekly-report, settings, with distinct ids |
| NavigationBar.OnClick | src/components/NavigationBar.tsx:25-28 | clicking item `i` hands over the id that makes item `i` the only highlighted item |
| NavigationBar.AtMostOneHighlighted | src/components/NavigationBar.tsx:25-27 | whatever the current screen, at most one item is highlighted |
| GameCompleteScreen.FindMe | src/components/screens/GameCompleteScreen.tsx:21 | `find(entry => entry.isMe)` returns the first row marked as the player's, or nothing when no row is marked |
| GameCompleteScreen.MyRank | src/components/screens/GameCompleteScreen.tsx:21 | the rank of the first marked row, or 4 when no row is marked or that rank is 0 (the `\|\| 4` default) |
| GameCompleteScreen.MyRankOnCreatedBoard | src/components/screens/GameCompleteScreen.tsx:21 | on the board the app builds, the player is fourth whatever the time |
| GameCompleteScreen.SpeedMessage | src/components/screens/GameCompleteScreen.tsx:66-74 | the "faster by" line shows exactly when completion < average; its text reads back as the positive difference |
| GameCompleteScreen.ShippedSpeedMessage | src/App.tsx:64-69 | with the app's figures, 135 s against an average of 142 s, the line says the player was faster by `0:07` |
| GameCompleteScreen.Preview | src/components/screens/GameCompleteScreen.tsx:113 | `slice(0, 5)` gives the first min(5, n) rows, in order |
| GameCompleteScreen.RowTime | src/components/screens/GameCompleteScreen.tsx:135 | a row's time text reads back as its time, or as 0 when the row has none |
| GameCompleteScreen.NavTargetsExactly | src/components/screens/GameCompleteScreen.tsx:28-168 | the buttons lead exactly to home, leaderboard, game-play and reward |
| App.Purchase | src/App.tsx:83-93 | the list keeps its length; pack `i` is purchased exactly when it already was or has the bought id; nothing else about any pack changes |
| App.PurchaseIdempotent | src/App.tsx:83-93 | buying the same pack twice is buying it once |
| App.PurchaseUnknownId | src/App.tsx:83-93 | buying an id no pack has changes nothing |
| App.PurchaseCommutes | src/App.tsx:83-93 | the order of two purchases does not matter |
| App.PurchaseKeepsCatalog | src/App.tsx:83-93 | a purchase keeps the list equal to the initial catalog apart from purchased flags, and never unbuys a pack |
| App.FindGameType | src/App.tsx:1667 | `gameTypes.find(g => g.id === id)` returns the first listed game with that id, or nothing exactly when no game has it |
| App.QuickStart | src/App.tsx:399-405 | the quick-start button shows until both missions are done; it leads to the game once the drawing is done, to the drawing before that |
| App.HomeStartsExactly | src/App.tsx:369-405 | home offers the drawing exactly while it is undone, and the game exactly when the drawing is done and the game is not |
| App.HomeGameNeedsDrawing | src/App.tsx:392-405 | before the drawing is done, no home button leads to the game |
| App.TargetSetsListed | src/App.tsx:469 | the nav-bar and result-screen target sets are exactly the listed screens |
| App.NavBarNamesScreens | src/App.tsx:469 | each nav item's id is the id of the matching screen, and that screen has a render branch |
| App.CompletionNamesScreens | src/App.tsx:1404-1413 | each result-screen button's id names a screen with a render branch |
| App.NavBarHighlight | src/components/NavigationBar.tsx:25-27 | item `i` is highlighted exactly when the showing screen is that item's screen |
| App.ScreenIdOfNavItem | src/App.tsx:27 | only the item's own screen carries the item's id |
| App.TargetsHaveBranch | src/App.tsx:1946-1950 | no button anywhere leads to a screen that falls through to the "under construction" placeholder |
| App.NextPreservesInv | src/App.tsx:44-66 | every offered event keeps the invariant: step ≤ 2, hearts ≤ 5, a screen with a branch, a listed selected game, font size 16 to 24 in steps of 2, pack lists that differ from the catalog only by purchases |
| App.InitialInv | src/App.tsx:44-66 | the initial state satisfies the invariant |
| App.ProgressMonotone | src/App.tsx:1113-1117 | once a mission is done it stays done, whatever event follows |
| App.HeartTickCapped | src/App.tsx:104-109 | a heart tick adds one heart, capped at five, and leaves the state unchanged at five |
| App.OnboardingAdvances | src/App.tsx:180-186 | "next" on the first two slides moves to the next slide; on the third it leaves for the permissions screen |
| App.BuyKeepsScreen | src/App.tsx:780-789 | buying a drawing pack keeps the shop showing, and that pack is no longer for sale |
| App.Render | src/App.tsx:1946-1950 | the placeholder is drawn exactly for the four screens without a branch |
| App.ViewWellFormed | src/App.tsx:132-186 | in every state with the invariant, the render chain draws a real screen: the slide index is in range, and the detail page finds its game and that game's own entry |
| App.RunPreservesInv | src/App.tsx:44-66 | every state a run reaches keeps the invariant |
| App.RunSnoc | src/App.tsx:44-66 | a run extended by one offered event ends in that event's next state |
| App.RunAppend | src/App.tsx:44-66 | runs compose: running `a` then `b` is running `a + b` |
| App.RunOne | src/App.tsx:44-66 | a run of one offered event is that event's effect |
| App.RunTwo | src/App.tsx:44-66 | two one-event runs make a two-event run |
| App.OnboardRun | src/App.tsx:95-102 | the splash timer and three "next" presses reach the permissions screen |
| App.SplashToSecondSlide | src/App.tsx:95-102 | the splash timer and one "next" reach the second slide |
| App.LastSlides | src/App.tsx:180-186 | two presses of "next" from the second slide reach permissions |
| App.ToGameMenuRun | src/App.tsx:256 | the start button and the home game card reach the game menu |
| App.OpenFirstGameRun | src/App.tsx:1574-1577 | choosing the memory game and its start button reach the game start screen |
| App.DetailOffersStart | src/App.tsx:1769 | the detail page of a listed game offers its start button |
| App.PlayGameRun | src/App.tsx:1487-1491 | play and "end game" reach the result screen with the game mission done |
| App.SplashToGameMenu | src/App.tsx:95-102 | from the splash screen the run reaches the game menu |
| App.GameMenuToEnd | src/App.tsx:1574-1577 | from the game menu the run finishes the game |
| App.GameWithoutDrawing | src/App.tsx:437 | the drawing-first order is enforced only on home: through the game card, the game mission can be finished while the drawing is undone |
| App.InitialGameWithoutDrawing | src/App.tsx:44-66 | in particular from the initial state |
| App.StartDrawingRun | src/App.tsx:369-371 | from home with the drawing undone, the drawing card and then the guide's start button open the canvas and change nothing else |
| App.DrawingToGameRun | src/App.tsx:1113-1117 | finishing the canvas and starting the game marks the drawing done and opens the game start, changing nothing else |
| App.BothMissions | src/App.tsx:369-405 | from home with nothing done, drawing and then playing the game ends on the result screen with both missions done, and the home header then reads all-done |
| App.Session.constructor | src/App.tsx:44-66 | the session starts in the initial state, which keeps the invariant |
| App.Session.SplashTimerFires | src/App.tsx:95-102 | the splash timer performs its `Next` step and keeps the invariant |
| App.Session.HeartTimerFires | src/App.tsx:104-109 | the heart timer performs its `Next` step and keeps the invariant |
| App.Session.NextSlide | src/App.tsx:180-186 | "next" performs its `Next` step and keeps the invariant |
| App.Session.GoTo | src/App.tsx:469 | any navigation button performs its `Next` step and keeps the invariant |
| App.Session.FinishDrawing | src/App.tsx:1113-1117 | "done" on the canvas marks the drawing done, shows the drawing result and keeps the invariant |
| App.Session.FinishGame | src/App.tsx:1487-1491 | "end game" marks the game done, shows the result screen and keeps the invariant |
| App.Session.ChooseGame | src/App.tsx:1574-1577 | a game card selects that game, shows its detail page and keeps the invariant |
| App.Session.PurchaseDrawingPack | src/App.tsx:780-789 | a buy button in the pack shop performs `Purchase` and keeps the invariant |
| App.Session.PurchaseGamePack | src/App.tsx:884-893 | a buy button in the game pack shop performs `Purchase` and keeps the invariant |
| App.Session.SetAccessibilityShown | src/App.tsx:245 | opening or closing the accessibility dialog performs its `Next` step and keeps the invariant |
| App.Session.ChangeFontSize | src/App.tsx:271-278 | the slider sets the font size and keeps the invariant |
| App.Session.ChangeHighContrast | src/App.tsx:286-289 | the high-contrast switch sets its flag and keeps the invariant |
| App.Session.ChangeVoiceGuide | src/App.tsx:294-297 | the voice-guide switch sets its flag and keeps the invariant |

## Left out

- Korean titles, subtitles, descriptions, names and labels are display copy. The home header is a four-valued datatype; benefits and difficulty levels are kept as counts.
- The two timers (the 2-second splash timeout and the daily heart interval) are discrete events. Wall-clock time, and clearing the timers on unmount, are not modelled.
- The drawing canvas: the SVG, `drawingPath` and its handlers are not part of this model.
- `gameState`, `streak`, `points` and `cognitiveData` are never updated by the app, and they are left out. Each is display only: `streak` and `points` on home, in settings and on the reward screen (src/App.tsx:334, 1309, 1914); `gameState` on the game-play screen (src/App.tsx:1440-1444). `cognitiveData` is shown only on the weekly report, which the model keeps by its exits: the back button (src/App.tsx:1136) and the navigation bar (src/App.tsx:1285).
- `gameCompletionTime` is a `useState` cell without a setter (src/App.tsx:64), so it always holds 135. It is not a field of `Session`. It appears as the parameter of `AppData.CreateLeaderboardData` and `GameCompleteScreen.SpeedMessage`, and as the literal 135 in `FormatTimeCompletion` and `ShippedSpeedMessage`.
- `betterThanPercentage` on the result screen is floating-point rounding. The "good record" line carries no percentage.
- FormatTime: takes a natural number of seconds. Negative or fractional inputs, where JavaScript's `%` and `Math.floor` would give other texts, are not modelled. The model computes on unbounded integers, while JavaScript computes on float64 numbers. The two agree for every input up to 2^53 − 1 (`Number.MAX_SAFE_INTEGER`). Above that, `toString` prints the shortest digits that round to the number; for example, 60·2^60 seconds shows as "1152921504606847000:00". From 10^21 minutes on, it uses exponent form ("1e+21:00"). The app passes only 135, 142, their difference 7, the leaderboard times 98 to 168, and 0.
- FormatTimeRoundTrip: the round trip holds for every natural in the model; for JavaScript it is promised only up to 2^53 − 1, as above.
- Text.DecimalString: gives the exact decimal digits of any natural. JavaScript's `Number#toString` gives the same text only for integers up to 2^53 − 1; above that it prints rounded digits or exponent form.
- GameDetails: JavaScript object lookup would also find inherited keys such as `constructor`. The model is a plain map, so such ids fall back to memory.
- The regular-expression engine is not modelled. `MatchLabel` states what `label\s*([^;]+);` matches: the leftmost position where the label is followed by text whose first `;` is not the very next character, with the trimmed capture taken up to that `;`.
- App.Session.ChangeFontSize: the slider's range (16 to 24, step 2) is a precondition, as the slider cannot produce other values.
- `toLocaleString` price formatting is display only.
- The accessibility dialog is an overlay. The model offers the dialog's controls while it shows, and still offers the buttons of the screen underneath, as the app does not disable them.
- The memory-game screen's hard-coded cards and flip logic are not part of this model. The game is the "end game" button.
- Screens whose buttons have no handler (share, play of a purchased pack, the family and subscription entries) offer no event.
