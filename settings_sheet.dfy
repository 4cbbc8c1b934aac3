/**
 * SettingsBottomSheetDialogFragment: the settings form that validates a
 * server before storing it. The validation coroutine is a pending slot; its
 * completion is a separate step that receives how the probe call ended.
 */
module SettingsSheet {
  import opened Optional
  import opened Text
  import opened Http
  import Settings
  import Repository

  /** The scheme step of `normalizeUrl` on text already trimmed. */
  function WithScheme(trimmed: string): (r: string)
    ensures trimmed != "http://" && trimmed != "https://" ==>
      StartsWith(r, "http://") || StartsWith(r, "https://")
    ensures StartsWith(trimmed, "http://") || StartsWith(trimmed, "https://") ==> r == RemoveSuffix(trimmed, "/")
    ensures !(StartsWith(trimmed, "http://") || StartsWith(trimmed, "https://")) ==>
      r == "https://" + RemoveSuffix(trimmed, "/")
  {
    if StartsWith(trimmed, "http://") || StartsWith(trimmed, "https://") then
      var r := RemoveSuffix(trimmed, "/");
      assert trimmed != "http://" && StartsWith(trimmed, "http://") ==> r[..7] == trimmed[..7];
      assert trimmed != "https://" && StartsWith(trimmed, "https://") ==> r[..8] == trimmed[..8];
      r
    else
      var r := "https://" + RemoveSuffix(trimmed, "/");
      assert r[..8] == "https://";
      r
  }

  /**
   * `normalizeUrl`: trimmed, one trailing slash dropped, `https://` added when
   * no scheme is given. A bare "http://" or "https://" loses a slash of its
   * own scheme, so only those two inputs give a result without a full scheme.
   */
  function NormalizeUrl(raw: string): (r: string)
    ensures Trim(raw) != "http://" && Trim(raw) != "https://" ==>
      StartsWith(r, "http://") || StartsWith(r, "https://")
    ensures StartsWith(Trim(raw), "http://") || StartsWith(Trim(raw), "https://") ==>
      r == RemoveSuffix(Trim(raw), "/")
    ensures !(StartsWith(Trim(raw), "http://") || StartsWith(Trim(raw), "https://")) ==>
      r == "https://" + RemoveSuffix(Trim(raw), "/")
  {
    WithScheme(Trim(raw))
  }

  /** Normalising trims first, so trimming beforehand changes nothing. */
  lemma NormalizeTrimmed(raw: string)
    ensures NormalizeUrl(Trim(raw)) == NormalizeUrl(raw)
  {
    var t := Trim(raw);
    TrimIdempotent(raw);
    assert Trim(t) == t;
  }

  /** A bare scheme loses one slash of its own "//". */
  lemma BareSchemeLosesSlash()
    ensures NormalizeUrl("http://") == "http:/"
  {
    var u := "http://";
    assert !IsWhitespace(u[0]) && !IsWhitespace(u[|u| - 1]);
    assert TrimStart(u) == u;
    assert TrimEnd(u) == u;
    assert StartsWith(u, "http://") && EndsWith(u, "/");
    assert u[..|u| - 1] == "http:/";
  }

  /** The token as the check receives it: `ifBlank { null }`. */
  function ValidationToken(token: string): (t: Option<string>)
    ensures t.None? <==> IsBlank(token)
    ensures t.Some? ==> t.value == token
  {
    if IsBlank(token) then None else Some(token)
  }

  /** What the status line shows: a string resource, or a message from the server check. */
  datatype Status = UrlRequired | Generic | Message(text: string)

  /** The form's values once the save button has been pressed and the URL normalised. */
  datatype PendingSave = PendingSave(url: string, token: string, board: string)

  /** How the validation coroutine's body ended: it returned after the probe, or something threw. */
  datatype ValidationRun = Probed(reply: Reply) | Threw(message: Option<string>)

  /** The status line after a validation that did not succeed. */
  function FailureStatus(result: Repository.ValidationResult): (s: Status)
    ensures result.errorMessage.Some? ==> s == Message(result.errorMessage.value)
    ensures result.errorMessage.None? ==> s == Generic
  {
    if result.errorMessage.Some? then Message(result.errorMessage.value) else Generic
  }

  /**
   * How a check ends for the form: `None` when the server was accepted,
   * otherwise the status to show.
   */
  function CheckFailure(save: PendingSave, run: ValidationRun): (f: Option<Status>)
    ensures f.None? <==>
      run.Probed? && Repository.ValidatePinryServer(save.url, ValidationToken(save.token), run.reply).result.isValid
    ensures run.Probed? && f.Some? ==>
      f == Some(FailureStatus(Repository.ValidatePinryServer(save.url, ValidationToken(save.token), run.reply).result))
    ensures run.Threw? ==> f == Some(if run.message.Some? then Message(run.message.value) else Generic)
  {
    match run
    case Probed(reply) =>
      var result := Repository.ValidatePinryServer(save.url, ValidationToken(save.token), reply).result;
      if result.isValid then None else Some(FailureStatus(result))
    case Threw(message) => Some(if message.Some? then Message(message.value) else Generic)
  }

  /**
   * The save button's first half: `None` when the trimmed URL is empty,
   * otherwise the normalised URL with the trimmed token and board.
   */
  function StartSave(urlText: string, tokenText: string, boardText: string): (r: Option<PendingSave>)
    ensures r.None? <==> IsBlank(urlText)
    ensures r.Some? ==>
      r.value.url == NormalizeUrl(urlText) && r.value.token == Trim(tokenText) && r.value.board == Trim(boardText)
  {
    var rawUrl := Trim(urlText);
    NormalizeTrimmed(urlText);
    if rawUrl == [] then None else Some(PendingSave(NormalizeUrl(rawUrl), Trim(tokenText), Trim(boardText)))
  }

  class SettingsSheet {
    const store: Settings.SettingsManager
    var statusVisible: bool
    var status: Option<Status>
    var progressVisible: bool
    /** The save button and the three inputs are enabled and disabled together. */
    var saveEnabled: bool
    var urlEnabled: bool
    var tokenEnabled: bool
    var boardEnabled: bool
    var pending: Option<PendingSave>
    /** Every server check started: the URL and the token passed to `validatePinryServer`. */
    var validations: seq<(string, Option<string>)>
    var listenerNotified: nat
    var dismissed: bool

    /** The three inputs and the button enabled exactly when no check is running. */
    ghost predicate Valid()
      reads this
    {
      saveEnabled == urlEnabled == tokenEnabled == boardEnabled == !progressVisible
      && (pending.Some? ==> progressVisible)
    }

    constructor (store: Settings.SettingsManager)
      ensures this.store == store && Valid()
      ensures !statusVisible && status.None? && !progressVisible && saveEnabled && pending.None?
      ensures validations == [] && listenerNotified == 0 && !dismissed
    {
      this.store := store;
      statusVisible := false;
      status := None;
      progressVisible := false;
      saveEnabled := true;
      urlEnabled := true;
      tokenEnabled := true;
      boardEnabled := true;
      pending := None;
      validations := [];
      listenerNotified := 0;
      dismissed := false;
    }

    /** `toggleLoading(isLoading)`: the spinner shows exactly while the inputs are disabled. */
    method ToggleLoading(isLoading: bool)
      modifies this
      ensures progressVisible == isLoading
      ensures saveEnabled == urlEnabled == tokenEnabled == boardEnabled == !isLoading
      ensures statusVisible == old(statusVisible) && status == old(status) && pending == old(pending)
      ensures validations == old(validations) && listenerNotified == old(listenerNotified) && dismissed == old(dismissed)
    {
      progressVisible := isLoading;
      saveEnabled := !isLoading;
      urlEnabled := !isLoading;
      tokenEnabled := !isLoading;
      boardEnabled := !isLoading;
    }

    /**
     * The save button: an empty URL only shows "URL required"; otherwise the
     * status line is hidden, the form is locked and a server check starts.
     */
    method Save(urlText: string, tokenText: string, boardText: string)
      requires Valid() && saveEnabled
      modifies this
      ensures Valid()
      ensures listenerNotified == old(listenerNotified) && dismissed == old(dismissed)
      ensures StartSave(urlText, tokenText, boardText).None? ==>
        statusVisible && status == Some(UrlRequired) && pending.None? && saveEnabled
        && validations == old(validations)
      ensures StartSave(urlText, tokenText, boardText).Some? ==>
        var save := StartSave(urlText, tokenText, boardText).value;
        !statusVisible && status == old(status) && progressVisible && !saveEnabled && pending == Some(save)
        && validations == old(validations) + [(save.url, ValidationToken(save.token))]
    {
      var start := StartSave(urlText, tokenText, boardText);
      if start.None? {
        statusVisible := true;
        status := Some(UrlRequired);
      } else {
        BeginCheck(start.value);
      }
    }

    /** Locks the form and starts the server check for `save`. */
    method BeginCheck(save: PendingSave)
      requires Valid() && saveEnabled
      modifies this
      ensures Valid()
      ensures listenerNotified == old(listenerNotified) && dismissed == old(dismissed)
      ensures !statusVisible && status == old(status) && progressVisible && !saveEnabled && pending == Some(save)
      ensures validations == old(validations) + [(save.url, ValidationToken(save.token))]
    {
      statusVisible := false;
      ToggleLoading(true);
      pending := Some(save);
      validations := validations + [(save.url, ValidationToken(save.token))];
    }

    /**
     * The end of the check coroutine: a valid server is stored and the sheet
     * closes; anything else shows a message. The form is unlocked either way.
     */
    method CompleteValidation(run: ValidationRun)
      requires Valid() && pending.Some?
      modifies this, store
      ensures Valid() && pending.None? && !progressVisible && saveEnabled
      ensures validations == old(validations)
      ensures CheckFailure(old(pending).value, run).None? ==>
        var save := old(pending).value;
        store.prefs == Settings.Saved(old(store.prefs), save.url, save.token, save.board)
        && listenerNotified == old(listenerNotified) + 1 && dismissed
        && statusVisible == old(statusVisible) && status == old(status)
      ensures CheckFailure(old(pending).value, run).Some? ==>
        store.prefs == old(store.prefs) && listenerNotified == old(listenerNotified) && dismissed == old(dismissed)
        && statusVisible && status == CheckFailure(old(pending).value, run)
    {
      var save := pending.value;
      FinishCheck(save, CheckFailure(save, run));
    }

    /** Stores `save` when `failure` is absent, otherwise shows it; then unlocks the form. */
    method FinishCheck(save: PendingSave, failure: Option<Status>)
      requires Valid() && pending == Some(save)
      modifies this, store
      ensures Valid() && pending.None? && !progressVisible && saveEnabled
      ensures validations == old(validations)
      ensures failure.None? ==>
        store.prefs == Settings.Saved(old(store.prefs), save.url, save.token, save.board)
        && listenerNotified == old(listenerNotified) + 1 && dismissed
        && statusVisible == old(statusVisible) && status == old(status)
      ensures failure.Some? ==>
        store.prefs == old(store.prefs) && listenerNotified == old(listenerNotified) && dismissed == old(dismissed)
        && statusVisible && status == failure
    {
      if failure.None? {
        store.SaveSettings(save.url, save.token, save.board);
        listenerNotified := listenerNotified + 1;
        dismissed := true;
      } else {
        statusVisible := true;
        status := failure;
      }
      pending := None;
      ToggleLoading(false);
    }
  }
}
