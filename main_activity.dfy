/**
 * MainActivity: the launcher screen's settings form, which writes the same
 * three preference keys without checking the server.
 */
module MainScreen {
  import opened Text
  import Settings

  /** How the URL is stored: `https://` is added unless it already starts with "http". */
  function FormatUrl(url: string): (r: string)
    ensures StartsWith(r, "http")
    ensures StartsWith(url, "http") ==> r == url
    ensures !StartsWith(url, "http") ==> r == "https://" + url
  {
    if !StartsWith(url, "http") then
      var r := "https://" + url;
      assert r[..4] == "http";
      r
    else
      url
  }

  /** Formatting a formatted URL changes nothing. */
  lemma FormatUrlIdempotent(url: string)
    ensures FormatUrl(FormatUrl(url)) == FormatUrl(url)
  {
  }

  /** Any "http" prefix counts as a scheme, so a host such as "httpbin.org" is stored as typed. */
  lemma HttpLikeHostKept()
    ensures FormatUrl("httpbin.org") == "httpbin.org"
  {
    assert "httpbin.org"[..4] == "http";
  }

  /** The toast the save button shows. */
  datatype Toast = FillAllFields | SettingsSaved

  class MainActivity {
    const prefs: Settings.SettingsManager
    var toasts: seq<Toast>

    constructor (prefs: Settings.SettingsManager)
      ensures this.prefs == prefs && toasts == []
    {
      this.prefs := prefs;
      toasts := [];
    }

    /**
     * The save button: the three fields are trimmed; if any is empty nothing
     * is stored, otherwise all three are written with the URL formatted.
     */
    method SaveSettings(tokenText: string, boardText: string, urlText: string)
      modifies this, prefs
      ensures Trim(tokenText) == [] || Trim(boardText) == [] || Trim(urlText) == [] ==>
        prefs.prefs == old(prefs.prefs) && toasts == old(toasts) + [FillAllFields]
      ensures Trim(tokenText) != [] && Trim(boardText) != [] && Trim(urlText) != [] ==>
        prefs.prefs == Settings.Saved(old(prefs.prefs), FormatUrl(Trim(urlText)), Trim(tokenText), Trim(boardText))
        && toasts == old(toasts) + [SettingsSaved]
    {
      var token := Trim(tokenText);
      var boardId := Trim(boardText);
      var pinryUrl := Trim(urlText);
      if token == [] || boardId == [] || pinryUrl == [] {
        toasts := toasts + [FillAllFields];
        return;
      }
      var formattedUrl := FormatUrl(pinryUrl);
      prefs.SaveSettings(formattedUrl, token, boardId);
      toasts := toasts + [SettingsSaved];
    }
  }
}
