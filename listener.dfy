/**
 * `SlogListener`: the Unleash SDK's event listener, one per caller
 * application, turning SDK events into log records tagged with that
 * application.
 */
module UnleashListener {
  import Logging

  datatype Level = Debug | Info | Warn | Error

  /** One log record: its level and its attributes (the message text is not modelled). */
  datatype LogRecord = LogRecord(level: Level, attrs: seq<Logging.Attr>)

  /** The phrase the SDK uses when it backs off after a 429 or 5xx response. */
  const BackingOff := "backing off"

  /** `strings.Contains(s, sub)`. */
  predicate Contains(s: string, sub: string)
    decreases |s|
  {
    |sub| <= |s| && (s[..|sub|] == sub || Contains(s[1..], sub))
  }

  /** `sub` occurs in `s` starting at position `k`. */
  predicate OccursAt(s: string, sub: string, k: int)
  {
    0 <= k <= |s| - |sub| && s[k..k + |sub|] == sub
  }

  /** `Contains` holds exactly when `sub` occurs at some position of `s`. */
  lemma {:induction false} ContainsSpec(s: string, sub: string)
    ensures Contains(s, sub) <==> exists k :: OccursAt(s, sub, k)
    decreases |s|
  {
    if OccursAt(s, sub, 0) {
      assert Contains(s, sub);
    } else if |sub| <= |s| {
      ContainsSpec(s[1..], sub);
      if k :| OccursAt(s, sub, k) {
        assert OccursAt(s[1..], sub, k - 1);
      }
      if k :| OccursAt(s[1..], sub, k) {
        assert OccursAt(s, sub, k + 1);
      }
    } else {
      assert forall k :: !OccursAt(s, sub, k);
    }
  }

  datatype SlogListener = SlogListener(appName: string)
  {
    /** The attribute every record of this listener starts with. */
    function AppAttr(): Logging.Attr
    {
      Logging.Attr("app_name", Logging.Str(appName))
    }

    /** `OnError(err)`: a back-off message is a warning, anything else an error. */
    function OnError(errMsg: string): LogRecord
    {
      if Contains(errMsg, BackingOff) then
        LogRecord(Warn, [AppAttr(), Logging.Attr("warning", Logging.Str(errMsg))])
      else
        LogRecord(Error, [AppAttr(), Logging.Attr("error", Logging.Str(errMsg))])
    }

    /** `OnWarning(warning)`: always a warning. */
    function OnWarning(warning: string): LogRecord
    {
      LogRecord(Warn, [AppAttr(), Logging.Attr("warning", Logging.Str(warning))])
    }

    /** `OnReady()`. */
    function OnReady(): LogRecord
    {
      LogRecord(Info, [AppAttr()])
    }

    /** `OnCount(name, enabled)`. */
    function OnCount(feature: string, enabled: bool): LogRecord
    {
      LogRecord(Debug, [AppAttr(), Logging.Attr("feature", Logging.Str(feature)), Logging.Attr("enabled", Logging.Bool(enabled))])
    }
  }

  /** `NewSlogListener(appName)`. */
  function NewSlogListener(appName: string): (l: SlogListener)
    ensures l.appName == appName
  {
    SlogListener(appName)
  }

  /**
   * `OnError` logs at Warn exactly when the message contains "backing off"
   * somewhere, and at Error otherwise; the error text is kept verbatim
   * under `warning` or `error` respectively.
   */
  lemma OnErrorLevel(l: SlogListener, errMsg: string)
    ensures l.OnError(errMsg).level == Warn <==> exists k :: OccursAt(errMsg, BackingOff, k)
    ensures l.OnError(errMsg).level in {Warn, Error}
    ensures l.OnError(errMsg).level == Warn ==> l.OnError(errMsg).attrs[1] == Logging.Attr("warning", Logging.Str(errMsg))
    ensures l.OnError(errMsg).level == Error ==> l.OnError(errMsg).attrs[1] == Logging.Attr("error", Logging.Str(errMsg))
  {
    ContainsSpec(errMsg, BackingOff);
  }

  /** The Warn/Error choice depends on the message alone, never on the application. */
  lemma OnErrorLevelIgnoresApp(l: SlogListener, l': SlogListener, errMsg: string)
    ensures l.OnError(errMsg).level == l'.OnError(errMsg).level
  {
  }

  /** A back-off message never produces an Error record. */
  lemma BackOffIsNeverAnError(l: SlogListener, prefix: string, suffix: string)
    ensures l.OnError(prefix + BackingOff + suffix).level == Warn
  {
    var msg := prefix + BackingOff + suffix;
    assert OccursAt(msg, BackingOff, |prefix|);
    ContainsSpec(msg, BackingOff);
  }

  /** The other callbacks log at a fixed level, whatever their arguments: warnings at Warn, readiness at Info, counts at Debug. */
  lemma CallbackLevels(l: SlogListener, warning: string, feature: string, enabled: bool)
    ensures l.OnWarning(warning).level == Warn
    ensures l.OnWarning(warning).attrs[1..] == [Logging.Attr("warning", Logging.Str(warning))]
    ensures l.OnReady().level == Info && |l.OnReady().attrs| == 1
    ensures l.OnCount(feature, enabled).level == Debug
    ensures l.OnCount(feature, enabled).attrs[1..] ==
      [Logging.Attr("feature", Logging.Str(feature)), Logging.Attr("enabled", Logging.Bool(enabled))]
  {
  }

  /** Every record a listener emits is tagged with the application it was created for. */
  lemma EveryRecordCarriesAppName(appName: string, msg: string, feature: string, enabled: bool)
    ensures var l := NewSlogListener(appName);
      forall rec :: rec in {l.OnError(msg), l.OnWarning(msg), l.OnReady(), l.OnCount(feature, enabled)} ==>
        |rec.attrs| >= 1 && rec.attrs[0] == Logging.Attr("app_name", Logging.Str(appName))
  {
  }
}
