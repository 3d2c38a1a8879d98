/**
 * The login page's two banners, computed from the `error` and `message`
 * query parameters set by the callback and logout routes.
 */
module LoginPage {
  import opened Wrappers
  import opened Js
  import opened Http
  import opened AuthService
  import CallbackRoute
  import LogoutRoute
  import RedirectRoute
  import Cookies

  const InvalidStateText := "Login failed due to an invalid state. Please try again."
  const MissingCodeText := "Login failed because the authorization code was missing. Please try again."
  const LoggedOutText := "You have been successfully logged out."
  const ExchangeFailedOpening := "Failed to connect to JIRA: "
  const ExchangeFailedFallback := "Please ensure you granted access and try again."
  const ExchangeFailedClosing := " This could be due to incorrect app configuration or temporary JIRA issues."
  const InternalErrorOpening := "An internal server error occurred. "
  const InternalErrorFallback := "Please try again later."
  const AtlassianOpening := "JIRA authentication failed. "
  const AtlassianFallback := "An issue occurred with the JIRA authorization server."
  const AtlassianClosing :=
    " Please check your JIRA app configuration in the Atlassian Developer Console (callback URL, permissions) and try again."
  const UnknownOpening := "An unknown login error occurred ("
  const RetryClosing := " Please try again."

  /** The codes the page has a dedicated text for. */
  const KnownErrors: seq<string> := ["invalid_state", "missing_code", "token_exchange_failed", "internal_server_error", "atlassian_error"]

  /** `Details: message.` when the message is truthy, else `otherwise`. */
  function DetailsOr(message: Option<string>, otherwise: string): string {
    if Truthy(message) then "Details: " + message.value + "." else otherwise
  }

  /**
   * The text for a truthy error code: a fixed text for the two codes without
   * details, and for the others a text recognisable by its own opening and closing.
   */
  function ErrorText(error: string, message: Option<string>): (text: string)
    ensures error == "invalid_state" ==> text == InvalidStateText
    ensures error == "missing_code" ==> text == MissingCodeText
    ensures error == "token_exchange_failed" ==>
              StartsWith(text, ExchangeFailedOpening) && EndsWith(text, ExchangeFailedClosing)
    ensures error == "internal_server_error" ==> StartsWith(text, InternalErrorOpening)
    ensures error == "atlassian_error" ==> StartsWith(text, AtlassianOpening) && EndsWith(text, AtlassianClosing)
    ensures error !in KnownErrors ==> StartsWith(text, UnknownOpening) && EndsWith(text, RetryClosing)
  {
    if error == "invalid_state" then InvalidStateText
    else if error == "missing_code" then MissingCodeText
    else if error == "token_exchange_failed" then
      Framed(ExchangeFailedOpening, OrElse(message, ExchangeFailedFallback), ExchangeFailedClosing);
      ExchangeFailedOpening + OrElse(message, ExchangeFailedFallback) + ExchangeFailedClosing
    else if error == "internal_server_error" then
      var t := InternalErrorOpening + OrElse(message, InternalErrorFallback);
      Framed(InternalErrorOpening, OrElse(message, InternalErrorFallback), "");
      assert t + "" == t;
      t
    else if error == "atlassian_error" then
      Framed(AtlassianOpening, DetailsOr(message, AtlassianFallback), AtlassianClosing);
      AtlassianOpening + DetailsOr(message, AtlassianFallback) + AtlassianClosing
    else
      var middle := error + "). " + DetailsOr(message, "");
      Framed(UnknownOpening, middle, RetryClosing);
      assert UnknownOpening + middle + RetryClosing == UnknownOpening + error + "). " + DetailsOr(message, "") + RetryClosing;
      UnknownOpening + error + "). " + DetailsOr(message, "") + RetryClosing
  }

  /** `errorMessageText`: shown exactly when `error` is truthy. */
  function ErrorBanner(error: Option<string>, message: Option<string>): (banner: Option<string>)
    ensures banner.Some? <==> Truthy(error)
  {
    if Truthy(error) then Some(ErrorText(error.value, message)) else None
  }

  /** `successMessageText`: only the logout confirmation, and only without an error. */
  function SuccessBanner(error: Option<string>, message: Option<string>): (banner: Option<string>)
    ensures banner.Some? <==> !Truthy(error) && message == Some("logged_out")
    ensures banner.Some? ==> banner.value == LoggedOutText
  {
    if !Truthy(error) && Truthy(message) && message.value == "logged_out" then Some(LoggedOutText) else None
  }

  /** Both banners for the page's query string: at most one of them, decided by `error` and `message`. */
  function Banners(query: seq<(string, string)>): (banners: (Option<string>, Option<string>))
    ensures banners.0.Some? <==> Truthy(QueryGet(query, "error"))
    ensures banners.1.Some? <==> !Truthy(QueryGet(query, "error")) && QueryGet(query, "message") == Some("logged_out")
    ensures !(banners.0.Some? && banners.1.Some?)
  {
    var error := QueryGet(query, "error");
    var message := QueryGet(query, "message");
    (ErrorBanner(error, message), SuccessBanner(error, message))
  }

  // ---------------------------------------------------------------------------
  // Properties of the page
  // ---------------------------------------------------------------------------

  /** The page never shows both banners. */
  lemma BannersExclusive(error: Option<string>, message: Option<string>)
    ensures !(ErrorBanner(error, message).Some? && SuccessBanner(error, message).Some?)
  {
  }

  /** An unknown code is echoed back, and a truthy message is shown, in the unknown-code text. */
  lemma UnknownErrorEchoed(error: string, message: Option<string>)
    requires error !in KnownErrors
    ensures Includes(ErrorText(error, message), error)
    ensures Truthy(message) ==> Includes(ErrorText(error, message), message.value)
  {
    var opening := UnknownOpening + error + "). ";
    var details := DetailsOr(message, "");
    var closing := RetryClosing;
    IncludesMiddle(UnknownOpening, error, "). ");
    IncludesAppend(opening, details, error);
    IncludesAppend(opening + details, closing, error);
    if Truthy(message) {
      IncludesMiddle("Details: ", message.value, ".");
      IncludesPrepend(opening, details, message.value);
      IncludesAppend(opening + details, closing, message.value);
    }
  }

  /** The three texts that carry a message show it whenever it is truthy. */
  lemma MessageShown(message: Option<string>)
    requires Truthy(message)
    ensures Includes(ErrorText("token_exchange_failed", message), message.value)
    ensures Includes(ErrorText("internal_server_error", message), message.value)
    ensures Includes(ErrorText("atlassian_error", message), message.value)
  {
    ExchangeFailedShowsMessage(message);
    InternalErrorShowsMessage(message);
    AtlassianErrorShowsMessage(message);
  }

  lemma ExchangeFailedShowsMessage(message: Option<string>)
    requires Truthy(message)
    ensures Includes(ErrorText("token_exchange_failed", message), message.value)
  {
    IncludesMiddle(ExchangeFailedOpening, message.value, ExchangeFailedClosing);
  }

  lemma InternalErrorShowsMessage(message: Option<string>)
    requires Truthy(message)
    ensures Includes(ErrorText("internal_server_error", message), message.value)
  {
    var m := message.value;
    assert "internal_server_error"[0] != "token_exchange_failed"[0];
    IncludesMiddle(InternalErrorOpening, m, "");
    assert InternalErrorOpening + m + "" == InternalErrorOpening + m;
  }

  lemma AtlassianErrorShowsMessage(message: Option<string>)
    requires Truthy(message)
    ensures Includes(ErrorText("atlassian_error", message), message.value)
  {
    var m := message.value;
    var details := DetailsOr(message, AtlassianFallback);
    IncludesMiddle("Details: ", m, ".");
    IncludesPrepend(AtlassianOpening, details, m);
    IncludesAppend(AtlassianOpening + details, AtlassianClosing, m);
  }

  /** Without a truthy message, the three texts that would carry it show their own fallback. */
  lemma FallbackShown(message: Option<string>)
    requires !Truthy(message)
    ensures Includes(ErrorText("token_exchange_failed", message), ExchangeFailedFallback)
    ensures Includes(ErrorText("internal_server_error", message), InternalErrorFallback)
    ensures Includes(ErrorText("atlassian_error", message), AtlassianFallback)
  {
    IncludesMiddle(ExchangeFailedOpening, ExchangeFailedFallback, ExchangeFailedClosing);
    InternalErrorShowsFallback(message);
    IncludesMiddle(AtlassianOpening, AtlassianFallback, AtlassianClosing);
  }

  lemma InternalErrorShowsFallback(message: Option<string>)
    requires !Truthy(message)
    ensures Includes(ErrorText("internal_server_error", message), InternalErrorFallback)
  {
    assert "internal_server_error"[0] != "token_exchange_failed"[0];
    IncludesMiddle(InternalErrorOpening, InternalErrorFallback, "");
    assert InternalErrorOpening + InternalErrorFallback + "" == InternalErrorOpening + InternalErrorFallback;
  }

  /** The logout route's redirect shows the confirmation and no error. */
  lemma LogoutShowsConfirmation(appUrl: string)
    ensures Banners(LogoutRoute.LoggedOutLocation(appUrl).query) == (None, Some(LoggedOutText))
  {
  }

  /** Every error the callback redirects with has a dedicated text on the page. */
  lemma CallbackErrorsAreKnown(s: State, cfg: SessionConfig, respond: Responder, appUrl: string,
                               creds: CallbackRoute.ExchangeCredentials, q: CallbackRoute.CallbackQuery)
    ensures var o := CallbackRoute.CallbackSpec(s, cfg, respond, appUrl, creds, q);
            o.location != CallbackRoute.DashboardRedirect(appUrl) ==>
              |o.location.query| > 0 && o.location.query[0].0 == "error" &&
              QueryGet(o.location.query, "error") == Some(o.location.query[0].1) &&
              o.location.query[0].1 in KnownErrors
  {
    var o := CallbackRoute.CallbackSpec(s, cfg, respond, appUrl, creds, q);
    var stored := Cookies.ValueOf(s.jar, RedirectRoute.StateCookieName);
    if CallbackRoute.Proceeds(q, stored) {
      CallbackRoute.FailuresAfterExchangeLogOut(s, cfg, respond, appUrl, creds, q);
    }
  }
}
