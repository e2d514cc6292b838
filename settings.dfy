/**
 * The check MainWindow::saveSettings runs before storing the settings form:
 * every one of the six text fields must be filled in.
 */
module SettingsForm {

  /** The six line edits of the settings window. */
  datatype Settings = Settings(
    login: string,
    password: string,
    realm: string,
    authUrl: string,
    eventUrl: string,
    infoUrl: string)

  /** The fields in the order isCorrectSettings checks them. */
  function Fields(s: Settings): seq<string>
  {
    [s.login, s.password, s.realm, s.authUrl, s.eventUrl, s.infoUrl]
  }

  /** No field of the form is empty. */
  predicate AllFilled(s: Settings)
  {
    forall i :: 0 <= i < |Fields(s)| ==> Fields(s)[i] != ""
  }

  /** isCorrectSettings: accumulate `ok` field by field, giving up at the first empty one. */
  method IsCorrectSettings(s: Settings) returns (ok: bool)
    ensures ok <==> AllFilled(s)
    ensures ok <==> s.login != "" && s.password != "" && s.realm != ""
                    && s.authUrl != "" && s.eventUrl != "" && s.infoUrl != ""
  {
    assert Fields(s)[0] == s.login && Fields(s)[1] == s.password && Fields(s)[2] == s.realm;
    assert Fields(s)[3] == s.authUrl && Fields(s)[4] == s.eventUrl && Fields(s)[5] == s.infoUrl;
    ok := true;
    ok := ok && s.login != "";
    if !ok {
      return false;
    }
    ok := ok && s.password != "";
    if !ok {
      return false;
    }
    ok := ok && s.realm != "";
    if !ok {
      return false;
    }
    ok := ok && s.authUrl != "";
    if !ok {
      return false;
    }
    ok := ok && s.eventUrl != "";
    if !ok {
      return false;
    }
    ok := ok && s.infoUrl != "";
    if !ok {
      return false;
    }
    return ok;
  }
}
