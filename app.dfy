/** The application shell: which screen is showing, the onboarding step,
    the hearts, today's two missions, the selected game, the accessibility
    settings and the two pack lists. Every button, switch and timer is an
    event that moves the session from one state to the next, synchronously
    and without failing.

    `AppState` is a snapshot of the session, `Next` the effect of one event
    and `Enabled` says which events the showing screen offers. `Session`
    is the live session: one field per piece of state, one method per
    event, each proved to perform exactly `Next`. */
module App {
  import opened Options
  import opened AppData
  import AppHelpers
  import NavigationBar
  import GameCompleteScreen

  /** The screens the application knows. */
  datatype Screen =
    | Splash | Onboarding | Permissions | Home
    | DrawingGuide | DrawingCanvas | DrawingComplete
    | GameStart | GamePlay | GameComplete | Reward | WeeklyReport
    | Family | Settings | Subscription
    | DrawingMenu | DrawingCalendar | GameMenu | GameSelect | GameCalendar
    | GameDetail | PremiumPack | GamePremiumPack | Leaderboard

  /** The string that names each screen. */
  function ScreenId(s: Screen): string {
    match s
    case Splash => "splash"
    case Onboarding => "onboarding"
    case Permissions => "permissions"
    case Home => "home"
    case DrawingGuide => "drawing-guide"
    case DrawingCanvas => "drawing-canvas"
    case DrawingComplete => "drawing-complete"
    case GameStart => "game-start"
    case GamePlay => "game-play"
    case GameComplete => "game-complete"
    case Reward => "reward"
    case WeeklyReport => "weekly-report"
    case Family => "family"
    case Settings => "settings"
    case Subscription => "subscription"
    case DrawingMenu => "drawing-menu"
    case DrawingCalendar => "drawing-calendar"
    case GameMenu => "game-menu"
    case GameSelect => "game-select"
    case GameCalendar => "game-calendar"
    case GameDetail => "game-detail"
    case PremiumPack => "premium-pack"
    case GamePremiumPack => "game-premium-pack"
    case Leaderboard => "leaderboard"
  }

  /** Whether the screen has its own branch in the render chain; the
      others fall through to the "under construction" placeholder. */
  predicate HasBranch(s: Screen) {
    !(s.Family? || s.Subscription? || s.GameSelect? || s.GameCalendar?)
  }

  /** The accessibility settings record. */
  datatype Accessibility = Accessibility(fontSize: int, highContrast: bool, voiceGuide: bool)

  /** A snapshot of the session state. */
  datatype AppState = AppState(
    screen: Screen,
    onboardingStep: nat,
    hearts: nat,
    progress: AppHelpers.DailyProgress,
    selectedGame: string,
    showAccessibility: bool,
    accessibility: Accessibility,
    drawingPacks: seq<Pack>,
    gamePacks: seq<Pack>)

  /** The state the application starts in. */
  const Initial: AppState := AppState(
    Splash, 0, 3, AppHelpers.DailyProgress(false, false), "memory",
    false, Accessibility(18, false, false), InitialDrawingPacks, InitialGamePacks)

  /** The three onboarding slides, indexed by the onboarding step. Their
      icon, title and description are display copy. */
  const OnboardingSlideCount: nat := 3

  // Purchasing

  /** `purchaseDrawingPack` / `purchaseGamePack`: every pack with the given
      id is marked purchased; nothing else about any pack changes. */
  function Purchase(packs: seq<Pack>, packId: string): (r: seq<Pack>)
    ensures |r| == |packs|
    ensures forall i :: 0 <= i < |r| ==> (r[i].purchased <==> packs[i].purchased || packs[i].id == packId)
    ensures forall i :: 0 <= i < |r| ==> r[i].(purchased := packs[i].purchased) == packs[i]
  {
    seq(|packs|, i requires 0 <= i < |packs| =>
      if packs[i].id == packId then packs[i].(purchased := true) else packs[i])
  }

  /** Buying the same pack twice is the same as buying it once. */
  lemma PurchaseIdempotent(packs: seq<Pack>, packId: string)
    ensures Purchase(Purchase(packs, packId), packId) == Purchase(packs, packId)
  {
    var once := Purchase(packs, packId);
    var twice := Purchase(once, packId);
    forall i | 0 <= i < |twice|
      ensures twice[i] == once[i]
    {
      assert twice[i].(purchased := once[i].purchased) == once[i];
    }
  }

  /** Buying an id that no pack carries changes nothing. */
  lemma PurchaseUnknownId(packs: seq<Pack>, packId: string)
    requires forall i :: 0 <= i < |packs| ==> packs[i].id != packId
    ensures Purchase(packs, packId) == packs
  {
    var r := Purchase(packs, packId);
    forall i | 0 <= i < |r|
      ensures r[i] == packs[i]
    {
      assert r[i].(purchased := packs[i].purchased) == packs[i];
    }
  }

  /** The order in which two packs are bought does not matter. */
  lemma PurchaseCommutes(packs: seq<Pack>, a: string, b: string)
    ensures Purchase(Purchase(packs, a), b) == Purchase(Purchase(packs, b), a)
  {
    var ab := Purchase(Purchase(packs, a), b);
    var ba := Purchase(Purchase(packs, b), a);
    forall i | 0 <= i < |ab|
      ensures ab[i] == ba[i]
    {
      assert ab[i].(purchased := packs[i].purchased) == packs[i];
      assert ba[i].(purchased := packs[i].purchased) == packs[i];
    }
  }

  /** `ps` is the catalog `qs` with possibly more packs bought: same length,
      same packs in the same order, and nothing bought is ever unbought. */
  predicate Catalog(ps: seq<Pack>, qs: seq<Pack>) {
    |ps| == |qs|
    && (forall i :: 0 <= i < |ps| ==> ps[i].(purchased := qs[i].purchased) == qs[i])
    && (forall i :: 0 <= i < |ps| ==> qs[i].purchased ==> ps[i].purchased)
  }

  /** Some pack among the first `shown` of the list is still for sale, so
      the menu card offers a buy button leading to the pack shop. */
  predicate OffersPurchase(packs: seq<Pack>, shown: nat) {
    exists i :: 0 <= i < |packs| && i < shown && !packs[i].purchased
  }

  /** A pack with this id is for sale in the list, so the shop shows a buy
      button for it. */
  predicate ForSale(packs: seq<Pack>, packId: string) {
    exists i :: 0 <= i < |packs| && packs[i].id == packId && !packs[i].purchased
  }

  // Game lookup

  /** `gameTypes.find(g => g.id === id)`: the first game with that id. */
  function FindGameType(games: seq<GameType>, id: string): (r: Option<GameType>)
    ensures r.Some? ==> r.value.id == id && r.value in games
    ensures forall j :: (0 <= j < |games| && games[j].id == id && forall i :: 0 <= i < j ==> games[i].id != id)
                      ==> r == Some(games[j])
    ensures r.None? ==> forall i :: 0 <= i < |games| ==> games[i].id != id
  {
    if |games| == 0 then None
    else if games[0].id == id then Some(games[0])
    else
      var r := FindGameType(games[1..], id);
      assert forall j :: 1 <= j < |games| ==> games[j] == games[1..][j - 1];
      r
  }

  /** The id names one of the six games. */
  predicate IsGameType(id: string) {
    exists i :: 0 <= i < |GameTypes| && GameTypes[i].id == id
  }

  // The home screen

  /** The quick-start button: shown until both missions are done, leading
      to the game once the drawing is done and to the drawing before that. */
  function QuickStart(p: AppHelpers.DailyProgress): (r: Option<Screen>)
    ensures r.Some? <==> !(p.drawing && p.game)
    ensures r.Some? ==> (r.value == GameStart <==> p.drawing)
    ensures r.Some? ==> (r.value == DrawingGuide <==> !p.drawing)
  {
    if p.drawing && p.game then None
    else if p.drawing then Some(GameStart)
    else Some(DrawingGuide)
  }

  /** The mission buttons of the home screen: the drawing mission's start
      button, the game mission's start button and the quick start. */
  function HomeStarts(p: AppHelpers.DailyProgress): set<Screen> {
    (if !p.drawing then {DrawingGuide} else {})
    + (if p.drawing && !p.game then {GameStart} else {})
    + (match QuickStart(p) case Some(t) => {t} case None => {})
  }

  /** The home screen offers the drawing exactly while it is not done and
      the game exactly once the drawing is done and the game is not. */
  lemma HomeStartsExactly(p: AppHelpers.DailyProgress)
    ensures DrawingGuide in HomeStarts(p) <==> !p.drawing
    ensures GameStart in HomeStarts(p) <==> p.drawing && !p.game
    ensures forall s :: s in HomeStarts(p) ==> s == DrawingGuide || s == GameStart
  {
  }

  // Navigation targets

  /** The screens of the five nav-bar items, in item order. */
  const NavBarScreens: seq<Screen> := [Home, DrawingMenu, GameMenu, WeeklyReport, Settings]

  /** The screens of the game-complete buttons, in button order. */
  const CompletionScreens: seq<Screen> := [Home, Leaderboard, GamePlay, Reward, Leaderboard]

  const NavBarSet: set<Screen> := {Home, DrawingMenu, GameMenu, WeeklyReport, Settings}

  const CompletionSet: set<Screen> := {Home, Leaderboard, GamePlay, Reward}

  /** The two target sets hold exactly the listed screens. */
  lemma TargetSetsListed()
    ensures forall s :: s in NavBarSet <==> s in NavBarScreens
    ensures forall s :: s in CompletionSet <==> s in CompletionScreens
  {
  }

  /** The nav bar hands the application the id of exactly these screens,
      each of which has its own branch. */
  lemma NavBarNamesScreens()
    ensures |NavBarScreens| == |NavigationBar.NavItems|
    ensures forall i :: 0 <= i < |NavBarScreens| ==>
      ScreenId(NavBarScreens[i]) == NavigationBar.NavItems[i].id && HasBranch(NavBarScreens[i])
  {
    NavigationBar.NavItemsDistinct();
    assert ScreenId(Home) == "home" && ScreenId(DrawingMenu) == "drawing-menu" && ScreenId(GameMenu) == "game-menu";
    assert ScreenId(WeeklyReport) == "weekly-report" && ScreenId(Settings) == "settings";
  }

  /** The game-complete screen hands the application the id of exactly
      these screens, each of which has its own branch. */
  lemma CompletionNamesScreens()
    ensures |CompletionScreens| == |GameCompleteScreen.NavTargets|
    ensures forall i :: 0 <= i < |CompletionScreens| ==>
      ScreenId(CompletionScreens[i]) == GameCompleteScreen.NavTargets[i] && HasBranch(CompletionScreens[i])
  {
  }

  /** Item `i` is highlighted exactly when the showing screen is the
      item's own, so no item is highlighted on a screen outside the bar. */
  lemma NavBarHighlight(s: Screen, i: nat)
    requires i < |NavigationBar.NavItems|
    ensures NavigationBar.Highlighted(ScreenId(s), i) <==> s == NavBarScreens[i]
  {
    NavBarNamesScreens();
    if NavigationBar.Highlighted(ScreenId(s), i) {
      ScreenIdOfNavItem(s, i);
    }
  }

  /** Only the nav item's own screen carries the nav item's id. */
  lemma ScreenIdOfNavItem(s: Screen, i: nat)
    requires i < |NavBarScreens|
    requires ScreenId(s) == ScreenId(NavBarScreens[i])
    ensures s == NavBarScreens[i]
  {
  }

  /** Whether the screen draws the nav bar. */
  predicate ShowsNavBar(s: Screen) {
    s == Home || s == DrawingMenu || s == WeeklyReport || s == Settings || s == GameMenu
  }

  /** The screens one button press leads to from the showing screen. */
  function Targets(st: AppState): set<Screen> {
    var navBar := if ShowsNavBar(st.screen) then NavBarSet else {};
    navBar +
    match st.screen
    case Permissions => {Home}
    case Home => {Settings, DrawingMenu, GameMenu, WeeklyReport} + HomeStarts(st.progress)
    case DrawingMenu =>
      {Leaderboard, DrawingCalendar} + (if OffersPurchase(st.drawingPacks, 3) then {PremiumPack} else {})
    case DrawingCalendar => {DrawingMenu}
    case PremiumPack => {DrawingMenu}
    case GamePremiumPack => {GameMenu}
    case Leaderboard => {GameMenu, GamePlay}
    case DrawingCanvas => {DrawingGuide}
    case WeeklyReport => {Home}
    case GameComplete => CompletionSet
    case GamePlay => {GameStart}
    case GameStart => {Home, GamePlay}
    case GameMenu =>
      {Leaderboard} + (if OffersPurchase(st.gamePacks, 2) then {GamePremiumPack} else {})
    case GameDetail => if FindGameType(GameTypes, st.selectedGame).Some? then {GameMenu, GameStart} else {}
    case DrawingGuide => {Home, DrawingCanvas}
    case DrawingComplete => {GameStart, Home}
    case Reward => {Home, WeeklyReport}
    case _ => {}
  }

  /** No button anywhere leads to a screen without a branch. */
  lemma TargetsHaveBranch(st: AppState, t: Screen)
    requires t in Targets(st)
    ensures HasBranch(t)
  {
    if st.screen == Home {
      HomeStartsExactly(st.progress);
    }
  }

  /** The game mission can only be started from home once the drawing is
      done: no button of the home screen leads to the game otherwise. */
  lemma HomeGameNeedsDrawing(st: AppState)
    requires st.screen == Home && !st.progress.drawing
    ensures GameStart !in Targets(st) && GamePlay !in Targets(st)
  {
    HomeStartsExactly(st.progress);
  }

  // Events

  /** Everything that can happen to the session. */
  datatype Event =
    | SplashTimeout
    | HeartTick
    | OnboardingNext
    | Navigate(target: Screen)
    | CompleteDrawing
    | EndGame
    | SelectGame(gameId: string)
    | BuyDrawingPack(packId: string)
    | BuyGamePack(packId: string)
    | ShowAccessibility(show: bool)
    | SetFontSize(size: int)
    | SetHighContrast(highContrast: bool)
    | SetVoiceGuide(voiceGuide: bool)

  /** Whether the accessibility dialog is drawn: it belongs to the
      permissions and settings screens. */
  predicate DialogShown(st: AppState) {
    (st.screen == Permissions || st.screen == Settings) && st.showAccessibility
  }

  /** The events the session offers in this state: the splash timer runs
      only on the splash screen, the heart timer always, and every other
      event is a control the showing screen draws. The font-size slider
      moves from 16 to 24 in steps of 2. */
  predicate Enabled(st: AppState, e: Event) {
    match e
    case SplashTimeout => st.screen == Splash
    case HeartTick => true
    case OnboardingNext => st.screen == Onboarding
    case Navigate(t) => t in Targets(st)
    case CompleteDrawing => st.screen == DrawingCanvas
    case EndGame => st.screen == GamePlay
    case SelectGame(id) => st.screen == GameMenu && IsGameType(id)
    case BuyDrawingPack(id) => st.screen == PremiumPack && ForSale(st.drawingPacks, id)
    case BuyGamePack(id) => st.screen == GamePremiumPack && ForSale(st.gamePacks, id)
    case ShowAccessibility(show) => (st.screen == Permissions || st.screen == Settings) && (show || st.showAccessibility)
    case SetFontSize(v) => DialogShown(st) && 16 <= v <= 24 && v % 2 == 0
    case SetHighContrast(_) => DialogShown(st)
    case SetVoiceGuide(_) => DialogShown(st)
  }

  function Min(a: int, b: int): int {
    if a < b then a else b
  }

  /** The effect of one event. */
  function Next(st: AppState, e: Event): AppState {
    match e
    case SplashTimeout => st.(screen := Onboarding)
    case HeartTick => st.(hearts := Min(st.hearts + 1, 5))
    case OnboardingNext =>
      if st.onboardingStep < 2 then st.(onboardingStep := st.onboardingStep + 1)
      else st.(screen := Permissions)
    case Navigate(t) => st.(screen := t)
    case CompleteDrawing => st.(progress := st.progress.(drawing := true), screen := DrawingComplete)
    case EndGame => st.(progress := st.progress.(game := true), screen := GameComplete)
    case SelectGame(id) => st.(selectedGame := id, screen := GameDetail)
    case BuyDrawingPack(id) => st.(drawingPacks := Purchase(st.drawingPacks, id))
    case BuyGamePack(id) => st.(gamePacks := Purchase(st.gamePacks, id))
    case ShowAccessibility(show) => st.(showAccessibility := show)
    case SetFontSize(v) => st.(accessibility := st.accessibility.(fontSize := v))
    case SetHighContrast(b) => st.(accessibility := st.accessibility.(highContrast := b))
    case SetVoiceGuide(b) => st.(accessibility := st.accessibility.(voiceGuide := b))
  }

  /** What every reachable state satisfies. */
  predicate Inv(st: AppState) {
    st.onboardingStep <= 2
    && st.hearts <= 5
    && HasBranch(st.screen)
    && IsGameType(st.selectedGame)
    && 16 <= st.accessibility.fontSize <= 24 && st.accessibility.fontSize % 2 == 0
    && Catalog(st.drawingPacks, InitialDrawingPacks)
    && Catalog(st.gamePacks, InitialGamePacks)
  }

  lemma InitialInv()
    ensures Inv(Initial)
  {
    assert GameTypes[0].id == "memory";
  }

  /** Buying keeps a list within its catalog. */
  lemma PurchaseKeepsCatalog(ps: seq<Pack>, qs: seq<Pack>, packId: string)
    requires Catalog(ps, qs)
    ensures Catalog(Purchase(ps, packId), qs)
  {
    var r := Purchase(ps, packId);
    forall i | 0 <= i < |r|
      ensures r[i].(purchased := qs[i].purchased) == qs[i]
    {
      assert r[i].(purchased := ps[i].purchased) == ps[i];
      assert ps[i].(purchased := qs[i].purchased) == qs[i];
    }
  }

  /** Every offered event keeps the invariant. */
  lemma NextPreservesInv(st: AppState, e: Event)
    requires Inv(st) && Enabled(st, e)
    ensures Inv(Next(st, e))
  {
    match e
    case Navigate(t) => TargetsHaveBranch(st, t);
    case BuyDrawingPack(id) => PurchaseKeepsCatalog(st.drawingPacks, InitialDrawingPacks, id);
    case BuyGamePack(id) => PurchaseKeepsCatalog(st.gamePacks, InitialGamePacks, id);
    case _ =>
  }

  /** Mission flags only ever go from false to true, whatever happens. */
  lemma ProgressMonotone(st: AppState, e: Event)
    ensures st.progress.drawing ==> Next(st, e).progress.drawing
    ensures st.progress.game ==> Next(st, e).progress.game
  {
  }

  /** A heart tick adds one heart up to the cap of five, which stays put. */
  lemma HeartTickCapped(st: AppState)
    requires st.hearts <= 5
    ensures st.hearts <= Next(st, HeartTick).hearts <= 5
    ensures st.hearts < 5 ==> Next(st, HeartTick).hearts == st.hearts + 1
    ensures st.hearts == 5 ==> Next(st, HeartTick) == st
  {
  }

  /** "Next" on the first two slides moves to the next slide; on the last
      it leaves for the permissions screen with the step unchanged. */
  lemma OnboardingAdvances(st: AppState)
    requires st.onboardingStep <= 2
    ensures var n := Next(st, OnboardingNext);
      n.onboardingStep <= 2
      && (st.onboardingStep < 2 ==> n.onboardingStep == st.onboardingStep + 1 && n.screen == st.screen)
      && (st.onboardingStep == 2 ==> n.onboardingStep == 2 && n.screen == Permissions)
  {
  }

  /** Buying a pack leaves the screen where it is and marks that pack. */
  lemma BuyKeepsScreen(st: AppState, packId: string)
    requires Enabled(st, BuyDrawingPack(packId))
    ensures Next(st, BuyDrawingPack(packId)).screen == PremiumPack
    ensures !ForSale(Next(st, BuyDrawingPack(packId)).drawingPacks, packId)
  {
  }

  // Rendering

  /** What the render chain draws. */
  datatype Rendered =
    | Page(screen: Screen)
    | OnboardingSlide(step: nat)
    | DetailPage(game: GameType, detail: AppHelpers.GameDetail)
    | GameNotFound
    | Placeholder

  function Render(st: AppState): (v: Rendered)
    ensures v.Placeholder? <==> !HasBranch(st.screen)
  {
    match st.screen
    case Onboarding => OnboardingSlide(st.onboardingStep)
    case GameDetail =>
      (match FindGameType(GameTypes, st.selectedGame)
       case Some(g) => DetailPage(g, AppHelpers.GameDetails(st.selectedGame))
       case None => GameNotFound)
    case Family => Placeholder
    case Subscription => Placeholder
    case GameSelect => Placeholder
    case GameCalendar => Placeholder
    case _ => Page(st.screen)
  }

  /** In every reachable state the render chain draws a real screen: the
      onboarding slide index is in bounds, the game-detail page finds its
      game and that game's details, and the placeholder never shows. */
  lemma ViewWellFormed(st: AppState)
    requires Inv(st)
    ensures var v := Render(st);
      !v.Placeholder? && !v.GameNotFound?
      && (v.OnboardingSlide? ==> v.step < OnboardingSlideCount)
      && (v.DetailPage? ==>
            v.game.id == st.selectedGame && v.detail == AppHelpers.GameDetailTable[st.selectedGame])
  {
    GameTypeIdsHaveDetails();
  }

  // Runs

  /** The state after a run of events, each offered when it happens, or
      nothing when some event of the run is not offered at its turn. */
  function Run(st: AppState, events: seq<Event>): Option<AppState>
    decreases |events|
  {
    if |events| == 0 then Some(st)
    else match Run(st, events[..|events| - 1])
      case None => None
      case Some(s) =>
        var e := events[|events| - 1];
        if Enabled(s, e) then Some(Next(s, e)) else None
  }

  /** Every state a run reaches from a state with the invariant keeps it. */
  lemma {:induction false} RunPreservesInv(st: AppState, events: seq<Event>)
    requires Inv(st) && Run(st, events).Some?
    ensures Inv(Run(st, events).value)
    decreases |events|
  {
    if |events| > 0 {
      var front := events[..|events| - 1];
      RunPreservesInv(st, front);
      NextPreservesInv(Run(st, front).value, events[|events| - 1]);
    }
  }

  /** Extending a run by one offered event. */
  lemma RunSnoc(st: AppState, events: seq<Event>, s: AppState, e: Event)
    requires Run(st, events) == Some(s) && Enabled(s, e)
    ensures Run(st, events + [e]) == Some(Next(s, e))
  {
    assert (events + [e])[..|events|] == events;
  }

  /** Runs compose: running `a` and then `b` is running `a + b`. */
  lemma {:induction false} RunAppend(st: AppState, a: seq<Event>, s: AppState, b: seq<Event>)
    requires Run(st, a) == Some(s)
    ensures Run(st, a + b) == Run(s, b)
    decreases |b|
  {
    if |b| == 0 {
      assert a + b == a;
    } else {
      var front := b[..|b| - 1];
      RunAppend(st, a, s, front);
      assert (a + b)[..|a + b| - 1] == a + front;
      assert (a + b)[|a + b| - 1] == b[|b| - 1];
    }
  }

  /** A run of one offered event. */
  lemma RunOne(st: AppState, e: Event)
    requires Enabled(st, e)
    ensures Run(st, [e]) == Some(Next(st, e))
  {
    assert [e][..0] == [];
  }

  /** A run of two offered events. */
  lemma RunTwo(st: AppState, e1: Event, s1: AppState, e2: Event, s2: AppState)
    requires Run(st, [e1]) == Some(s1) && Run(s1, [e2]) == Some(s2)
    ensures Run(st, [e1, e2]) == Some(s2)
  {
    RunAppend(st, [e1], s1, [e2]);
    assert [e1] + [e2] == [e1, e2];
  }

  /** The splash timer and three presses of "next". */
  const Onboard: seq<Event> := [SplashTimeout, OnboardingNext, OnboardingNext, OnboardingNext]

  /** The permissions screen's start button and the home screen's game card. */
  const ToGameMenu: seq<Event> := [Navigate(Home), Navigate(GameMenu)]

  /** The game menu's first game and its start button. */
  const OpenFirstGame: seq<Event> := [SelectGame("memory"), Navigate(GameStart)]

  /** Play, and end the game. */
  const PlayGame: seq<Event> := [Navigate(GamePlay), EndGame]

  /** Straight from the splash screen into a finished game. */
  const ShortcutToGame: seq<Event> := Onboard + ToGameMenu + OpenFirstGame + PlayGame

  lemma OnboardRun(st: AppState)
    requires st.screen == Splash && st.onboardingStep == 0
    ensures Run(st, Onboard) == Some(st.(screen := Permissions, onboardingStep := 2))
  {
    var s2 := st.(screen := Onboarding, onboardingStep := 1);
    SplashToSecondSlide(st);
    LastSlides(s2);
    RunAppend(st, [SplashTimeout, OnboardingNext], s2, [OnboardingNext, OnboardingNext]);
    assert [SplashTimeout, OnboardingNext] + [OnboardingNext, OnboardingNext] == Onboard;
  }

  lemma SplashToSecondSlide(st: AppState)
    requires st.screen == Splash && st.onboardingStep == 0
    ensures Run(st, [SplashTimeout, OnboardingNext]) == Some(st.(screen := Onboarding, onboardingStep := 1))
  {
    var s1 := st.(screen := Onboarding);
    RunOne(st, SplashTimeout);
    RunOne(s1, OnboardingNext);
    RunTwo(st, SplashTimeout, s1, OnboardingNext, s1.(onboardingStep := 1));
  }

  lemma LastSlides(st: AppState)
    requires st.screen == Onboarding && st.onboardingStep == 1
    ensures Run(st, [OnboardingNext, OnboardingNext]) == Some(st.(screen := Permissions, onboardingStep := 2))
  {
    var s1 := st.(onboardingStep := 2);
    RunOne(st, OnboardingNext);
    RunOne(s1, OnboardingNext);
    RunTwo(st, OnboardingNext, s1, OnboardingNext, s1.(screen := Permissions));
  }

  lemma ToGameMenuRun(st: AppState)
    requires st.screen == Permissions
    ensures Run(st, ToGameMenu) == Some(st.(screen := GameMenu))
  {
    var s1 := st.(screen := Home);
    assert GameMenu in Targets(s1);
    RunOne(st, Navigate(Home));
    RunOne(s1, Navigate(GameMenu));
    RunTwo(st, Navigate(Home), s1, Navigate(GameMenu), st.(screen := GameMenu));
  }

  lemma OpenFirstGameRun(st: AppState)
    requires st.screen == GameMenu
    ensures Run(st, OpenFirstGame) == Some(st.(selectedGame := "memory", screen := GameStart))
  {
    assert GameTypes[0].id == "memory";
    var s1 := st.(selectedGame := "memory", screen := GameDetail);
    RunOne(st, SelectGame("memory"));
    DetailOffersStart(s1);
    RunOne(s1, Navigate(GameStart));
    RunTwo(st, SelectGame("memory"), s1, Navigate(GameStart), s1.(screen := GameStart));
  }

  lemma PlayGameRun(st: AppState)
    requires st.screen == GameStart
    ensures Run(st, PlayGame) == Some(st.(screen := GameComplete, progress := st.progress.(game := true)))
  {
    var s1 := st.(screen := GamePlay);
    RunOne(st, Navigate(GamePlay));
    RunOne(s1, EndGame);
    RunTwo(st, Navigate(GamePlay), s1, EndGame, st.(screen := GameComplete, progress := st.progress.(game := true)));
  }

  /** The game detail page of a listed game offers its start button. */
  lemma DetailOffersStart(st: AppState)
    requires st.screen == GameDetail && IsGameType(st.selectedGame)
    ensures GameStart in Targets(st)
  {
  }

  /** The run is possible and ends with the game mission done but not the
      drawing mission. */
  predicate GameBeforeDrawing(st: AppState, events: seq<Event>) {
    Run(st, events).Some? && Run(st, events).value.progress.game && !Run(st, events).value.progress.drawing
  }

  /** The first half of the shortcut reaches the game menu. */
  lemma SplashToGameMenu(st: AppState)
    requires st.screen == Splash && st.onboardingStep == 0
    ensures Run(st, Onboard + ToGameMenu) == Some(st.(screen := GameMenu, onboardingStep := 2))
  {
    OnboardRun(st);
    var s1 := st.(screen := Permissions, onboardingStep := 2);
    ToGameMenuRun(s1);
    RunAppend(st, Onboard, s1, ToGameMenu);
  }

  /** The second half of the shortcut finishes the game. */
  lemma GameMenuToEnd(st: AppState)
    requires st.screen == GameMenu
    ensures Run(st, OpenFirstGame + PlayGame)
      == Some(st.(screen := GameComplete, selectedGame := "memory", progress := st.progress.(game := true)))
  {
    OpenFirstGameRun(st);
    var s1 := st.(selectedGame := "memory", screen := GameStart);
    PlayGameRun(s1);
    RunAppend(st, OpenFirstGame, s1, PlayGame);
  }

  /** The drawing-first rule holds only on the home screen: through the game
      card and the game menu the game mission can be finished while the
      drawing mission is still undone. */
  lemma GameWithoutDrawing(st: AppState)
    requires st.screen == Splash && st.onboardingStep == 0 && !st.progress.drawing
    ensures GameBeforeDrawing(st, ShortcutToGame)
  {
    SplashToGameMenu(st);
    var s1 := st.(screen := GameMenu, onboardingStep := 2);
    GameMenuToEnd(s1);
    RunAppend(st, Onboard + ToGameMenu, s1, OpenFirstGame + PlayGame);
    assert Onboard + ToGameMenu + (OpenFirstGame + PlayGame) == ShortcutToGame;
  }

  /** In particular from the initial state. */
  lemma InitialGameWithoutDrawing()
    ensures GameBeforeDrawing(Initial, ShortcutToGame)
  {
    GameWithoutDrawing(Initial);
  }

  /** From home: the drawing mission's start button, then the guide's
      button to the canvas. */
  const StartDrawing: seq<Event> := [Navigate(DrawingGuide), Navigate(DrawingCanvas)]

  /** "Done" on the canvas, then the drawing result's button to the game. */
  const DrawingToGame: seq<Event> := [CompleteDrawing, Navigate(GameStart)]

  /** Both daily missions from home, the drawing first. */
  const DailyMissions: seq<Event> := StartDrawing + DrawingToGame + PlayGame

  lemma StartDrawingRun(st: AppState)
    requires st.screen == Home && !st.progress.drawing
    ensures Run(st, StartDrawing) == Some(st.(screen := DrawingCanvas))
  {
    var s1 := st.(screen := DrawingGuide);
    HomeStartsExactly(st.progress);
    RunOne(st, Navigate(DrawingGuide));
    RunOne(s1, Navigate(DrawingCanvas));
    RunTwo(st, Navigate(DrawingGuide), s1, Navigate(DrawingCanvas), st.(screen := DrawingCanvas));
  }

  lemma DrawingToGameRun(st: AppState)
    requires st.screen == DrawingCanvas
    ensures Run(st, DrawingToGame) == Some(st.(screen := GameStart, progress := st.progress.(drawing := true)))
  {
    var s1 := st.(progress := st.progress.(drawing := true), screen := DrawingComplete);
    RunOne(st, CompleteDrawing);
    RunOne(s1, Navigate(GameStart));
    RunTwo(st, CompleteDrawing, s1, Navigate(GameStart), s1.(screen := GameStart));
  }

  /** The day as the home screen intends it: the drawing, then the game.
      Both missions end up done and the home header announces it. */
  lemma BothMissions(st: AppState)
    requires st.screen == Home && st.progress == AppHelpers.DailyProgress(false, false)
    ensures Run(st, DailyMissions)
      == Some(st.(screen := GameComplete, progress := AppHelpers.DailyProgress(true, true)))
    ensures AppHelpers.HomeHeaderMessage(Run(st, DailyMissions).value.progress) == AppHelpers.AllDone
  {
    StartDrawingRun(st);
    var s1 := st.(screen := DrawingCanvas);
    DrawingToGameRun(s1);
    var s2 := s1.(screen := GameStart, progress := AppHelpers.DailyProgress(true, false));
    RunAppend(st, StartDrawing, s1, DrawingToGame);
    PlayGameRun(s2);
    RunAppend(st, StartDrawing + DrawingToGame, s2, PlayGame);
  }

  // The live session

  /** The session record, one field per piece of state the application
      keeps, and one method per event. Each method is offered only when the
      showing screen offers the event, performs exactly `Next` and keeps
      the invariant. */
  class Session {
    var screen: Screen
    var onboardingStep: nat
    var hearts: nat
    var progress: AppHelpers.DailyProgress
    var selectedGame: string
    var showAccessibility: bool
    var accessibility: Accessibility
    var drawingPacks: seq<Pack>
    var gamePacks: seq<Pack>

    function State(): AppState
      reads this
    {
      AppState(screen, onboardingStep, hearts, progress, selectedGame,
               showAccessibility, accessibility, drawingPacks, gamePacks)
    }

    predicate Valid()
      reads this
    {
      Inv(State())
    }

    constructor ()
      ensures State() == Initial && Valid()
    {
      screen := Splash;
      onboardingStep := 0;
      hearts := 3;
      progress := AppHelpers.DailyProgress(false, false);
      selectedGame := "memory";
      showAccessibility := false;
      accessibility := Accessibility(18, false, false);
      drawingPacks := InitialDrawingPacks;
      gamePacks := InitialGamePacks;
      InitialInv();
    }

    /** The splash timer fires. */
    method SplashTimerFires()
      requires Valid() && Enabled(State(), SplashTimeout)
      modifies this
      ensures State() == Next(old(State()), SplashTimeout) && Valid()
    {
      NextPreservesInv(State(), SplashTimeout);
      screen := Onboarding;
    }

    /** The daily heart timer fires. */
    method HeartTimerFires()
      requires Valid()
      modifies this
      ensures State() == Next(old(State()), HeartTick) && Valid()
    {
      NextPreservesInv(State(), HeartTick);
      hearts := Min(hearts + 1, 5);
    }

    /** The onboarding "next" button. */
    method NextSlide()
      requires Valid() && Enabled(State(), OnboardingNext)
      modifies this
      ensures State() == Next(old(State()), OnboardingNext) && Valid()
    {
      NextPreservesInv(State(), OnboardingNext);
      if onboardingStep < 2 {
        onboardingStep := onboardingStep + 1;
      } else {
        screen := Permissions;
      }
    }

    /** Any button, card or nav-bar item that leads to a fixed screen. */
    method GoTo(target: Screen)
      requires Valid() && Enabled(State(), Navigate(target))
      modifies this
      ensures State() == Next(old(State()), Navigate(target)) && Valid()
    {
      NextPreservesInv(State(), Navigate(target));
      screen := target;
    }

    /** The drawing canvas's "done" button. */
    method FinishDrawing()
      requires Valid() && Enabled(State(), CompleteDrawing)
      modifies this
      ensures State() == Next(old(State()), CompleteDrawing) && Valid()
    {
      NextPreservesInv(State(), CompleteDrawing);
      progress := progress.(drawing := true);
      screen := DrawingComplete;
    }

    /** The game screen's "end game" button. */
    method FinishGame()
      requires Valid() && Enabled(State(), EndGame)
      modifies this
      ensures State() == Next(old(State()), EndGame) && Valid()
    {
      NextPreservesInv(State(), EndGame);
      progress := progress.(game := true);
      screen := GameComplete;
    }

    /** A game card of the game menu. */
    method ChooseGame(gameId: string)
      requires Valid() && Enabled(State(), SelectGame(gameId))
      modifies this
      ensures State() == Next(old(State()), SelectGame(gameId)) && Valid()
    {
      NextPreservesInv(State(), SelectGame(gameId));
      selectedGame := gameId;
      screen := GameDetail;
    }

    /** A drawing pack's buy button in the pack shop. */
    method PurchaseDrawingPack(packId: string)
      requires Valid() && Enabled(State(), BuyDrawingPack(packId))
      modifies this
      ensures State() == Next(old(State()), BuyDrawingPack(packId)) && Valid()
    {
      NextPreservesInv(State(), BuyDrawingPack(packId));
      drawingPacks := Purchase(drawingPacks, packId);
    }

    /** A game pack's buy button in the game pack shop. */
    method PurchaseGamePack(packId: string)
      requires Valid() && Enabled(State(), BuyGamePack(packId))
      modifies this
      ensures State() == Next(old(State()), BuyGamePack(packId)) && Valid()
    {
      NextPreservesInv(State(), BuyGamePack(packId));
      gamePacks := Purchase(gamePacks, packId);
    }

    /** The accessibility button (open) and the dialog's confirm button
      (close). */
    method SetAccessibilityShown(show: bool)
      requires Valid() && Enabled(State(), ShowAccessibility(show))
      modifies this
      ensures State() == Next(old(State()), ShowAccessibility(show)) && Valid()
    {
      NextPreservesInv(State(), ShowAccessibility(show));
      showAccessibility := show;
    }

    /** The font-size slider. */
    method ChangeFontSize(size: int)
      requires Valid() && Enabled(State(), SetFontSize(size))
      modifies this
      ensures State() == Next(old(State()), SetFontSize(size)) && Valid()
    {
      NextPreservesInv(State(), SetFontSize(size));
      accessibility := accessibility.(fontSize := size);
    }

    /** The high-contrast switch. */
    method ChangeHighContrast(on: bool)
      requires Valid() && Enabled(State(), SetHighContrast(on))
      modifies this
      ensures State() == Next(old(State()), SetHighContrast(on)) && Valid()
    {
      NextPreservesInv(State(), SetHighContrast(on));
      accessibility := accessibility.(highContrast := on);
    }

    /** The voice-guide switch. */
    method ChangeVoiceGuide(on: bool)
      requires Valid() && Enabled(State(), SetVoiceGuide(on))
      modifies this
      ensures State() == Next(old(State()), SetVoiceGuide(on)) && Valid()
    {
      NextPreservesInv(State(), SetVoiceGuide(on));
      accessibility := accessibility.(voiceGuide := on);
    }
  }
}
