/** The application's navigation and flow controller: which screen is
    shown, the error and authentication messages, the configuration
    load, and the selections of a quiz flow in progress.

    Each React state cell is a field. A call to a state setter inside a
    handler is an assignment to that field: the handlers never read a cell
    they have written, so the batched update React applies after the
    handler is the same as these assignments in order. The exception is
    `appStateRef`, which the page copies from `appState` only in an effect
    after a render has been committed; it is a field of its own that only
    `CommitRender` updates, so `NavigateTo` sees the screen as it was
    before the current handler began. */
module AppRouter {
  import opened Wrappers
  import opened Strings
  import opened QuizData

  /** The screens the controller moves between; `OtherScreen` stands for
      the in-flow screens of collaborating components, which it only
      stores. */
  datatype Screen =
    | DashboardMain
    | Initial
    | SelectingCourseForQuiz
    | Login
    | Signup
    | ForgotPassword
    | ErrorScreen
    | OtherScreen(name: string)

  datatype QuizMode = QuickMode | PersonalizedMode

  /** The application configuration; the controller stores it without
      looking inside. */
  datatype AppConfig = AppConfig(contents: string)

  datatype AppSettings = AppSettings(defaultTimerEnabled: bool)

  datatype User = User(uid: string)

  datatype Course = Course(id: string, name: string)

  datatype AuthMessageKind = AuthSuccess | AuthFailure

  datatype AuthMessage = AuthMessage(kind: AuthMessageKind, text: string)

  /** What `setError` may be given: a message, or an `Error` object. */
  datatype ErrorInput = MessageText(text: string) | ErrorObject(message: string)

  /** The callbacks a caller hands to the controller; the controller only
      invokes them, so the model records each invocation. */
  datatype Callback =
    | ResetWorkflow
    | ResetSelections
    | SetQuizMode(mode: QuizMode)
    | SetTimerEnabled(enabled: bool)

  /** A snapshot of every state cell. */
  datatype RouterState = RouterState(
    appState: Screen,
    appStateRef: Screen,
    isLoading: bool,
    errorMessage: Option<string>,
    isSidebarCollapsed: bool,
    appConfig: Option<AppConfig>,
    configLoading: bool,
    currentUser: Option<User>,
    authLoading: bool,
    authError: Option<string>,
    authMessage: Option<AuthMessage>,
    currentQuizModeForFlow: Option<QuizMode>,
    currentPersonalizedQuizTypeForFlow: Option<PersonalizedType>,
    currentSelectedCourseIdForFlow: Option<string>,
    currentViewingCourseForLOForFlow: Option<Course>)

  // Each message below is one string literal at useAppRouter.ts:122 and :127; it is
  // written as two joined parts because the solver handles short literals better.
  const ConfigNotReadyMessage: string := "Uygulama yapılandırması " + "henüz hazır değil."
  const LoginRequiredMessage: string := "Kişiselleştirilmiş sınavlar " + "için giriş yapmanız gerekmektedir."

  const FirebaseMarker: string := "Firebase:"
  const FirebasePrefix: string := "Bir Firebase hatası oluştu: "
  const FirebaseSuffix: string := ". Lütfen internet bağlantınızı kontrol edin veya daha sonra tekrar deneyin."
  const DataPrefix: string := "Veri işlemi sırasında bir hata oluştu: "
  const DataSuffix: string := ". Lütfen internet bağlantınızı kontrol edin ve tekrar deneyin."

  /** The screens on which authentication messages survive navigation. */
  predicate IsAuthScreen(s: Screen) {
    s == Login || s == Signup || s == ForgotPassword
  }

  /** The text of an error: an `Error`'s message, or the string itself. */
  function MessageOf(error: ErrorInput): string {
    match error
    case MessageText(text) => text
    case ErrorObject(message) => message
  }

  /** The text `setError` shows: a message mentioning "Firebase:" is
      wrapped in the connectivity advisory (whatever the data flag says),
      otherwise a data-operation error is wrapped in the data advisory,
      otherwise the message is shown as it is. A wrapped message starts
      with its advisory and carries the original text right after it. */
  function DisplayMessage(message: string, isDataOperationError: bool): (d: string)
    ensures Contains(message, FirebaseMarker) ==>
              StartsWith(d, FirebasePrefix) && OccursAt(d, message, |FirebasePrefix|)
    ensures !Contains(message, FirebaseMarker) && isDataOperationError ==>
              StartsWith(d, DataPrefix) && OccursAt(d, message, |DataPrefix|)
    ensures !Contains(message, FirebaseMarker) && !isDataOperationError ==> d == message
  {
    if Contains(message, FirebaseMarker) then
      var d := FirebasePrefix + message + FirebaseSuffix;
      assert d[..|FirebasePrefix|] == FirebasePrefix;
      assert d[|FirebasePrefix|..|FirebasePrefix| + |message|] == message;
      d
    else if isDataOperationError then
      var d := DataPrefix + message + DataSuffix;
      assert d[..|DataPrefix|] == DataPrefix;
      assert d[|DataPrefix|..|DataPrefix| + |message|] == message;
      d
    else message
  }

  /** A wrapped message is never blank, so it always reaches the error
      screen, even when the original message is empty; and it contains the
      original message. */
  lemma WrappedMessageShown(message: string, isDataOperationError: bool)
    requires Contains(message, FirebaseMarker) || isDataOperationError
    ensures !IsBlank(DisplayMessage(message, isDataOperationError))
    ensures Contains(DisplayMessage(message, isDataOperationError), message)
  {
    var d := DisplayMessage(message, isDataOperationError);
    if Contains(message, FirebaseMarker) {
      assert d[0] == FirebasePrefix[0];
      ContainsIff(d, message);
    } else {
      assert d[0] == DataPrefix[0];
      ContainsIff(d, message);
    }
    NotBlankWhenFirstVisible(d);
  }

  /** The configuration message is shown as written and is not blank. */
  lemma ConfigNotReadyShownVerbatim()
    ensures DisplayMessage(ConfigNotReadyMessage, false) == ConfigNotReadyMessage
    ensures !IsBlank(ConfigNotReadyMessage)
  {
    MissingFirstCharNotContained(ConfigNotReadyMessage, FirebaseMarker);
    NotBlankWhenFirstVisible(ConfigNotReadyMessage);
  }

  /** The login message is shown as written and is not blank. */
  lemma LoginRequiredShownVerbatim()
    ensures DisplayMessage(LoginRequiredMessage, false) == LoginRequiredMessage
    ensures !IsBlank(LoginRequiredMessage)
  {
    MissingFirstCharNotContained(LoginRequiredMessage, FirebaseMarker);
    NotBlankWhenFirstVisible(LoginRequiredMessage);
  }

  class Router {
    var appState: Screen
    var appStateRef: Screen
    var isLoading: bool
    var errorMessage: Option<string>
    var isSidebarCollapsed: bool
    var appConfig: Option<AppConfig>
    var configLoading: bool
    var currentUser: Option<User>
    var authLoading: bool
    var authError: Option<string>
    var authMessage: Option<AuthMessage>
    var currentQuizModeForFlow: Option<QuizMode>
    var currentPersonalizedQuizTypeForFlow: Option<PersonalizedType>
    var currentSelectedCourseIdForFlow: Option<string>
    var currentViewingCourseForLOForFlow: Option<Course>

    /** The caller-supplied callbacks invoked so far, oldest first. */
    ghost var callbacks: seq<Callback>

    ghost function View(): RouterState
      reads this
    {
      RouterState(appState, appStateRef, isLoading, errorMessage, isSidebarCollapsed,
                  appConfig, configLoading, currentUser, authLoading, authError, authMessage,
                  currentQuizModeForFlow, currentPersonalizedQuizTypeForFlow,
                  currentSelectedCourseIdForFlow, currentViewingCourseForLOForFlow)
    }

    /** The initial value of every state cell. */
    constructor()
      ensures View() == RouterState(DashboardMain, DashboardMain, false, None, false, None, true,
                                    None, true, None, None, None, None, None, None)
      ensures callbacks == []
    {
      appState := DashboardMain;
      appStateRef := DashboardMain;
      isLoading := false;
      errorMessage := None;
      isSidebarCollapsed := false;
      appConfig := None;
      configLoading := true;
      currentUser := None;
      authLoading := true;
      authError := None;
      authMessage := None;
      currentQuizModeForFlow := None;
      currentPersonalizedQuizTypeForFlow := None;
      currentSelectedCourseIdForFlow := None;
      currentViewingCourseForLOForFlow := None;
      callbacks := [];
    }

    /** The effect that runs after a render is committed: the ref catches
        up with the screen. */
    method CommitRender()
      modifies this
      ensures View() == old(View()).(appStateRef := old(appState))
      ensures callbacks == old(callbacks)
    {
      appStateRef := appState;
    }

    /** `clearError`: drops the error message and nothing else. */
    method ClearError()
      modifies this
      ensures View() == old(View()).(errorMessage := None)
      ensures callbacks == old(callbacks)
    {
      errorMessage := None;
    }

    /** `navigateTo`: moves to `newState` and ends any loading. The error
        message is dropped when the committed screen is the error screen
        and `newState` is not; the authentication error and message are
        dropped unless `newState` is an authentication screen. */
    method NavigateTo(newState: Screen)
      modifies this
      ensures View() == old(View()).(
                appState := newState,
                isLoading := false,
                errorMessage :=
                  if old(appStateRef) == ErrorScreen && newState != ErrorScreen then None
                  else old(errorMessage),
                authError := if IsAuthScreen(newState) then old(authError) else None,
                authMessage := if IsAuthScreen(newState) then old(authMessage) else None)
      ensures callbacks == old(callbacks)
    {
      if appStateRef == ErrorScreen && newState != ErrorScreen {
        ClearError();
      }
      if !IsAuthScreen(newState) {
        authError := None;
        authMessage := None;
      }
      isLoading := false;
      appState := newState;
    }

    /** `setError`: a non-blank display text is stored and the error
        screen shown; a blank one changes neither. Either way both loading
        flags end false. The source's default for `isDataOperationError` is
        false; callers here pass it explicitly. */
    method SetError(error: ErrorInput, isDataOperationError: bool)
      modifies this
      ensures var d := DisplayMessage(MessageOf(error), isDataOperationError);
              View() == old(View()).(
                errorMessage := if IsBlank(d) then old(errorMessage) else Some(d),
                appState := if IsBlank(d) then old(appState) else ErrorScreen,
                isLoading := false,
                authLoading := false)
      ensures callbacks == old(callbacks)
    {
      var messageString := MessageOf(error);
      var displayMessage := DisplayMessage(messageString, isDataOperationError);
      if !IsBlank(displayMessage) {
        errorMessage := Some(displayMessage);
        appState := ErrorScreen;
      }
      isLoading := false;
      authLoading := false;
    }

    /** `resetAppToDashboard`: runs both reset callbacks, clears the flow
        selections and every message, ends loading, and moves to the
        dashboard exactly when `navigate` holds, whoever is signed in. The
        source's default for `navigate` is true; callers here pass it
        explicitly. */
    method ResetAppToDashboard(navigate: bool)
      modifies this
      ensures View() == old(View()).(
                appState := if navigate then DashboardMain else old(appState),
                isLoading := false,
                errorMessage := None,
                authError := None,
                authMessage := None,
                currentQuizModeForFlow := None,
                currentPersonalizedQuizTypeForFlow := None,
                currentSelectedCourseIdForFlow := None,
                currentViewingCourseForLOForFlow := None)
      ensures callbacks == old(callbacks) + [ResetWorkflow, ResetSelections]
    {
      callbacks := callbacks + [ResetWorkflow, ResetSelections];
      currentQuizModeForFlow := None;
      currentPersonalizedQuizTypeForFlow := None;
      currentSelectedCourseIdForFlow := None;
      currentViewingCourseForLOForFlow := None;
      errorMessage := None;
      authError := None;
      authMessage := None;
      isLoading := false;
      if navigate {
        NavigateTo(DashboardMain);
      }
    }

    /** `startQuizFlow`. Without a configuration or settings it reports
        that the configuration is not ready. A personalised quiz without a
        signed-in user reports that a login is needed and moves to the
        login screen; when the committed screen was the error screen, that
        move drops the message again. Otherwise it resets the workflow,
        records the mode, hands the mode and the default timer setting to
        the callbacks, and opens the course selection (personalised) or the
        quick-quiz setup. Neither failure invokes a callback. */
    method StartQuizFlow(mode: QuizMode, currentAppSettings: Option<AppSettings>)
      modifies this
      ensures old(appConfig).None? || currentAppSettings.None? ==>
                View() == old(View()).(
                  errorMessage := Some(ConfigNotReadyMessage),
                  appState := ErrorScreen,
                  isLoading := false,
                  authLoading := false) &&
                callbacks == old(callbacks)
      ensures old(appConfig).Some? && currentAppSettings.Some? &&
              mode == PersonalizedMode && old(currentUser).None? ==>
                View() == old(View()).(
                  errorMessage := if old(appStateRef) == ErrorScreen then None else Some(LoginRequiredMessage),
                  appState := Login,
                  isLoading := false,
                  authLoading := false) &&
                callbacks == old(callbacks)
      ensures old(appConfig).Some? && currentAppSettings.Some? &&
              (mode == QuickMode || old(currentUser).Some?) ==>
                View() == old(View()).(
                  appState := if mode == PersonalizedMode then SelectingCourseForQuiz else Initial,
                  isLoading := false,
                  errorMessage := None,
                  authError := None,
                  authMessage := None,
                  currentQuizModeForFlow := Some(mode),
                  currentPersonalizedQuizTypeForFlow := None,
                  currentSelectedCourseIdForFlow := None,
                  currentViewingCourseForLOForFlow := None) &&
                callbacks == old(callbacks) + [ResetWorkflow, ResetSelections] +
                  [SetQuizMode(mode), SetTimerEnabled(currentAppSettings.value.defaultTimerEnabled)]
    {
      if appConfig.None? || currentAppSettings.None? {
        ConfigNotReadyShownVerbatim();
        SetError(MessageText(ConfigNotReadyMessage), false);
        return;
      }
      if mode == PersonalizedMode && currentUser.None? {
        LoginRequiredShownVerbatim();
        SetError(MessageText(LoginRequiredMessage), false);
        NavigateTo(Login);
        return;
      }
      ResetAppToDashboard(false);
      currentQuizModeForFlow := Some(mode);
      callbacks := callbacks + [SetQuizMode(mode), SetTimerEnabled(currentAppSettings.value.defaultTimerEnabled)];
      if mode == PersonalizedMode {
        NavigateTo(SelectingCourseForQuiz);
      } else {
        NavigateTo(Initial);
      }
    }

    /** `toggleSidebar`: flips the sidebar flag and nothing else. */
    method ToggleSidebar()
      modifies this
      ensures View() == old(View()).(isSidebarCollapsed := !old(isSidebarCollapsed))
      ensures callbacks == old(callbacks)
    {
      isSidebarCollapsed := !isSidebarCollapsed;
    }

    /** The authentication listener's callback: records the user and ends
        the authentication loading, without navigating. */
    method OnAuthStateChanged(user: Option<User>)
      modifies this
      ensures View() == old(View()).(currentUser := user, authLoading := false)
      ensures callbacks == old(callbacks)
    {
      currentUser := user;
      authLoading := false;
    }

    /** The part of `initializeConfig` before its `await`. */
    method BeginConfigLoad()
      modifies this
      ensures View() == old(View()).(configLoading := true)
      ensures callbacks == old(callbacks)
    {
      configLoading := true;
    }

    /** The part of `initializeConfig` after its `await`: the loaded
        configuration, or on failure the fallback, is stored and returned,
        and the loading flag is cleared; the screen and the error message
        stay as they are. */
    method FinishConfigLoad(loaded: Result<AppConfig>, fallback: AppConfig) returns (config: AppConfig)
      modifies this
      ensures loaded.Ok? ==> config == loaded.value
      ensures loaded.Err? ==> config == fallback
      ensures View() == old(View()).(appConfig := Some(config), configLoading := false)
      ensures callbacks == old(callbacks)
    {
      match loaded {
        case Ok(value) =>
          appConfig := Some(value);
          config := value;
        case Err(_) =>
          appConfig := Some(fallback);
          config := fallback;
      }
      configLoading := false;
    }

    /** `initializeConfig` when nothing else runs while it waits. */
    method InitializeConfig(loaded: Result<AppConfig>, fallback: AppConfig) returns (config: AppConfig)
      modifies this
      ensures loaded.Ok? ==> config == loaded.value
      ensures loaded.Err? ==> config == fallback
      ensures View() == old(View()).(appConfig := Some(config), configLoading := false)
      ensures callbacks == old(callbacks)
    {
      BeginConfigLoad();
      config := FinishConfigLoad(loaded, fallback);
    }
  }

  /** The login redirect of `startQuizFlow` keeps its message on a fresh
      dashboard, but drops it when the error screen was the last one
      rendered: there `navigateTo('login')` sees the committed error
      screen and clears the message `setError` has just stored. */
  method LoginRedirectScenario(config: AppConfig, settings: AppSettings)
    returns (fromDashboard: Option<string>, fromErrorScreen: Option<string>, screen: Screen)
    ensures fromDashboard == Some(LoginRequiredMessage)
    ensures fromErrorScreen == None
    ensures screen == Login
  {
    var onDashboard := new Router();
    var first := onDashboard.InitializeConfig(Ok(config), config);
    onDashboard.StartQuizFlow(PersonalizedMode, Some(settings));
    fromDashboard := onDashboard.errorMessage;

    var failed := new Router();
    failed.StartQuizFlow(QuickMode, Some(settings));
    failed.CommitRender();
    var second := failed.InitializeConfig(Ok(config), config);
    failed.StartQuizFlow(PersonalizedMode, Some(settings));
    fromErrorScreen := failed.errorMessage;
    screen := failed.appState;
  }

  /** `setError("", false)` keeps the screen and any earlier message, but
      still clears both loading flags. */
  method BlankErrorScenario()
    returns (screen: Screen, message: Option<string>, loading: bool, authLoading: bool)
    ensures screen == DashboardMain && message == None
    ensures !loading && !authLoading
  {
    var r := new Router();
    assert !Contains("", FirebaseMarker);
    assert IsBlank("");
    r.SetError(MessageText(""), false);
    screen, message, loading, authLoading := r.appState, r.errorMessage, r.isLoading, r.authLoading;
  }
}
