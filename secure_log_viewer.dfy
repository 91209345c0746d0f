/** The secure log viewer: an MFA prompt that unlocks SECRET lines, and the
    way each log line is displayed. The code is not checked; any non-empty
    entry unlocks. A log line is a JavaScript object. */
module SecureLogViewer {
  import opened Wrappers
  import opened JsonValue

  class Viewer {
    var decrypted: bool
    var showMfa: bool
    var mfaCode: string

    constructor ()
      ensures !decrypted && !showMfa && mfaCode == ""
    {
      decrypted := false;
      showMfa := false;
      mfaCode := "";
    }

    /** "Request Decryption" (rendered only while locked) opens the prompt. */
    method RequestDecryption()
      modifies this
      ensures showMfa && decrypted == old(decrypted) && mfaCode == old(mfaCode)
    {
      showMfa := true;
    }

    method TypeCode(code: string)
      modifies this
      ensures mfaCode == code && showMfa == old(showMfa) && decrypted == old(decrypted)
    {
      mfaCode := code;
    }

    /** "Verify": an empty code changes nothing; any other code closes the
        prompt and unlocks. */
    method SubmitCode()
      modifies this
      ensures old(mfaCode) == "" ==> showMfa == old(showMfa) && decrypted == old(decrypted)
      ensures old(mfaCode) != "" ==> !showMfa && decrypted
      ensures mfaCode == old(mfaCode)
    {
      if |mfaCode| > 0 {
        showMfa := false;
        decrypted := true;
      }
    }

    /** "Cancel" closes the prompt and leaves the lock as it was. */
    method Cancel()
      modifies this
      ensures !showMfa && decrypted == old(decrypted) && mfaCode == old(mfaCode)
    {
      showMfa := false;
    }
  }

  /** Whether the decrypt button is rendered, and the header's label. */
  function DecryptButtonShown(decrypted: bool): (b: bool)
    ensures b <==> !decrypted
  {
    !decrypted
  }

  function LockLabel(decrypted: bool): (s: string)
    ensures s == "UNLOCKED" <==> decrypted
    ensures s == "PROTECTED" <==> !decrypted
  {
    if decrypted then "UNLOCKED" else "PROTECTED"
  }

  function Severity(log: Dict): (v: Option<Json>)
    ensures v.Some? <==> "severity" in log
  {
    JsProp(Some(JObj(log)), "severity")
  }

  datatype Colour = AlertRed | Yellow | Gray

  function ColourOf(log: Dict): (c: Colour)
    ensures c == AlertRed <==> Severity(log) in {Some(JStr("ERROR")), Some(JStr("CRITICAL"))}
    ensures c == Yellow <==> Severity(log) == Some(JStr("WARNING"))
  {
    var sev := Severity(log);
    if sev == Some(JStr("ERROR")) || sev == Some(JStr("CRITICAL")) then AlertRed
    else if sev == Some(JStr("WARNING")) then Yellow
    else Gray
  }

  /** `[{log.severity || 'INFO'}]`. */
  function SeverityLabel(log: Dict): (v: Json)
    ensures !JsTruthy(Severity(log)) ==> v == JStr("INFO")
    ensures JsTruthy(Severity(log)) ==> v == log["severity"]
  {
    JsOr(Severity(log), JStr("INFO"))
  }

  /** The body of a line: masked, or `log.message || log.msg` (possibly
      undefined). */
  datatype Body = Redacted | Shown(text: Option<Json>)

  function BodyOf(log: Dict, decrypted: bool): (b: Body)
    ensures b == Redacted <==> Severity(log) == Some(JStr("SECRET")) && !decrypted
    ensures b.Shown? && JsTruthy(JsProp(Some(JObj(log)), "message")) ==> b.text == Some(log["message"])
    ensures b.Shown? && !JsTruthy(JsProp(Some(JObj(log)), "message")) ==> b.text == JsProp(Some(JObj(log)), "msg")
  {
    if Severity(log) == Some(JStr("SECRET")) && !decrypted then Redacted
    else
      var m := JsProp(Some(JObj(log)), "message");
      Shown(if JsTruthy(m) then m else JsProp(Some(JObj(log)), "msg"))
  }

  /** Every line's body, in order; an empty list shows the placeholder. */
  function Bodies(logs: seq<Dict>, decrypted: bool): (r: seq<Body>)
    ensures |r| == |logs| && forall i :: 0 <= i < |r| ==> r[i] == BodyOf(logs[i], decrypted)
  {
    seq(|logs|, i requires 0 <= i < |logs| => BodyOf(logs[i], decrypted))
  }

  /** Unlocking changes only the SECRET lines. */
  lemma UnlockRevealsOnlySecrets(log: Dict)
    ensures BodyOf(log, false) != BodyOf(log, true) <==> Severity(log) == Some(JStr("SECRET"))
  {
  }

  /** While locked no SECRET line shows its text. */
  lemma LockedHidesEverySecret(logs: seq<Dict>, i: int)
    requires 0 <= i < |logs| && Severity(logs[i]) == Some(JStr("SECRET"))
    ensures Bodies(logs, false)[i] == Redacted
  {
  }

  /** The unlock path: the prompt, a code, Verify. After it no handler can
      lock the viewer again, whatever else is done. */
  method UnlockThenAnything(code: string, later: string) returns (decrypted: bool, showMfa: bool)
    requires code != ""
    ensures decrypted
    ensures !showMfa
  {
    var v := new Viewer();
    v.RequestDecryption();
    v.TypeCode(code);
    v.SubmitCode();
    v.RequestDecryption();
    v.TypeCode(later);
    v.SubmitCode();
    v.Cancel();
    decrypted, showMfa := v.decrypted, v.showMfa;
  }

  /** Cancelling the prompt, or submitting it empty, keeps the viewer locked. */
  method CancelOrEmptyStaysLocked(code: string) returns (afterEmpty: bool, afterCancel: bool, promptOpen: bool)
    ensures !afterEmpty && !afterCancel
    ensures promptOpen
  {
    var v := new Viewer();
    v.RequestDecryption();
    v.SubmitCode();
    afterEmpty, promptOpen := v.decrypted, v.showMfa;
    v.TypeCode(code);
    v.Cancel();
    afterCancel := v.decrypted;
  }
}
