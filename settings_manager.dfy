/**
 * SettingsManager: the three connection settings in the app's preference
 * store, a string-to-string map (encryption is the platform's business).
 */
module Settings {
  import opened Text

  const KEY_PINRY_URL: string := "pinry_url"
  const KEY_API_TOKEN: string := "api_token"
  const KEY_BOARD_ID: string := "board_id"

  /** `getString(key, "").orEmpty()`: the stored value, or "" for a missing key. */
  function Stored(prefs: map<string, string>, key: string): (v: string)
    ensures key in prefs ==> v == prefs[key]
    ensures key !in prefs ==> v == ""
  {
    if key in prefs then prefs[key] else ""
  }

  /** The store after `putString` of the three settings and `apply()`. */
  function Saved(prefs: map<string, string>, url: string, token: string, board: string): (p: map<string, string>)
    ensures Stored(p, KEY_PINRY_URL) == url
    ensures Stored(p, KEY_API_TOKEN) == token
    ensures Stored(p, KEY_BOARD_ID) == board
    ensures p.Keys == prefs.Keys + {KEY_PINRY_URL, KEY_API_TOKEN, KEY_BOARD_ID}
    ensures forall k :: k in prefs && k != KEY_PINRY_URL && k != KEY_API_TOKEN && k != KEY_BOARD_ID ==> p[k] == prefs[k]
  {
    prefs[KEY_PINRY_URL := url][KEY_API_TOKEN := token][KEY_BOARD_ID := board]
  }

  /** Saving twice keeps only the second save's values. */
  lemma SaveOverwrites(prefs: map<string, string>, u1: string, t1: string, b1: string, u2: string, t2: string, b2: string)
    ensures Saved(Saved(prefs, u1, t1, b1), u2, t2, b2) == Saved(prefs, u2, t2, b2)
  {
    var left := Saved(Saved(prefs, u1, t1, b1), u2, t2, b2);
    var right := Saved(prefs, u2, t2, b2);
    assert left.Keys == right.Keys;
    forall k | k in left.Keys
      ensures left[k] == right[k]
    {
      if k == KEY_PINRY_URL || k == KEY_API_TOKEN || k == KEY_BOARD_ID {
        assert left[k] == Stored(left, k) && right[k] == Stored(right, k);
      }
    }
  }

  class SettingsManager {
    var prefs: map<string, string>

    /** A manager over whatever the store already holds. */
    constructor (stored: map<string, string>)
      ensures prefs == stored
    {
      prefs := stored;
    }

    function GetPinryUrl(): (u: string)
      reads this
      ensures KEY_PINRY_URL in prefs ==> u == prefs[KEY_PINRY_URL]
      ensures KEY_PINRY_URL !in prefs ==> u == ""
    {
      Stored(prefs, KEY_PINRY_URL)
    }

    function GetApiToken(): (t: string)
      reads this
      ensures KEY_API_TOKEN in prefs ==> t == prefs[KEY_API_TOKEN]
      ensures KEY_API_TOKEN !in prefs ==> t == ""
    {
      Stored(prefs, KEY_API_TOKEN)
    }

    function GetBoardId(): (b: string)
      reads this
      ensures KEY_BOARD_ID in prefs ==> b == prefs[KEY_BOARD_ID]
      ensures KEY_BOARD_ID !in prefs ==> b == ""
    {
      Stored(prefs, KEY_BOARD_ID)
    }

    /** A server address is stored and is not blank. */
    predicate IsConfigured()
      reads this
      ensures IsConfigured() <==> KEY_PINRY_URL in prefs && !IsBlank(prefs[KEY_PINRY_URL])
    {
      !IsBlank(GetPinryUrl())
    }

    /** A token is stored and is not blank. */
    predicate HasToken()
      reads this
      ensures HasToken() <==> KEY_API_TOKEN in prefs && !IsBlank(prefs[KEY_API_TOKEN])
    {
      !IsBlank(GetApiToken())
    }

    /** Writes the three settings; every other entry stays as it was. */
    method SaveSettings(pinryUrl: string, apiToken: string, boardId: string)
      modifies this
      ensures prefs == Saved(old(prefs), pinryUrl, apiToken, boardId)
      ensures GetPinryUrl() == pinryUrl && GetApiToken() == apiToken && GetBoardId() == boardId
      ensures IsConfigured() <==> !IsBlank(pinryUrl)
      ensures HasToken() <==> !IsBlank(apiToken)
    {
      prefs := prefs[KEY_PINRY_URL := pinryUrl];
      prefs := prefs[KEY_API_TOKEN := apiToken];
      prefs := prefs[KEY_BOARD_ID := boardId];
    }
  }
}
