/** The three generated files as a whole. */
module Render {
  import opened Options
  import opened ConfText
  import opened Pbx
  import opened PhoneFiles
  import opened Dialplan
  import opened Asterisk
  import opened Calls
  import opened DialplanMeaning
  import opened DialplanText

  /** The text of extensions.conf. */
  function ExtensionsConf(o: Office): string {
    FileText(ConfOfAll(DialplanLines(o.exts, o.st, HasTrunk(o.st), o.ivr)))
  }

  /** Render: the files' contents by name. */
  method RenderFiles(o: Office) returns (files: map<string, string>)
    ensures files == map["pjsip.conf" := FileText(PjsipLines(o.exts, o.st, HasTrunk(o.st))),
                         "extensions.conf" := ExtensionsConf(o),
                         "voicemail.conf" := FileText(VoicemailLines(o.exts))]
  {
    var trunk := o.st.trunkEnabled && o.st.trunkHost != "" && o.st.trunkUsername != "";
    assert trunk == HasTrunk(o.st);
    var pjsip := RenderPJSIP(o.exts, o.st, trunk);
    var dialplan := RenderDialplan(o.exts, o.st, trunk, o.ivr);
    var voicemail := RenderVoicemail(o.exts);
    files := map["pjsip.conf" := FileText(pjsip),
                 "extensions.conf" := FileText(ConfOfAll(dialplan)),
                 "voicemail.conf" := FileText(voicemail)];
  }

  /** From settings to text to Asterisk to an outside caller: a call taken through
    * the bytes of the generated file does what the settings say. */
  lemma {:induction false} GeneratedFileServesOutsideCalls(o: Office, call: Call, did: string, fuel: nat)
    requires ValidOffice(o.exts, o.st, o.ivr) && fuel >= 24
    ensures var plan := LoadText(ExtensionsConf(o));
            var start := Begin(plan, "itp-incoming", did);
            if TakenFromOutside(did) then start.Some?
              && Run(plan, call, start.value, fuel) == Ended(FromOutside(o, call))
            else start.None?
  {
    TextLoads(o.exts, o.st, HasTrunk(o.st), o.ivr);
    OutsideCalls(o, call, did, fuel);
  }

  /** And so does a call from an office phone. */
  lemma {:induction false} GeneratedFileServesPhones(o: Office, call: Call, dialed: string, fuel: nat)
    requires ValidOffice(o.exts, o.st, o.ivr) && fuel >= 23
    ensures var plan := LoadText(ExtensionsConf(o));
            var start := Begin(plan, "itp-internal", dialed);
            match FromPhone(o, call, dialed)
            case Some(meaning) => start.Some? && Run(plan, call, start.value, fuel) == Ended(meaning)
            case None => start.None?
  {
    TextLoads(o.exts, o.st, HasTrunk(o.st), o.ivr);
    PhoneCalls(o, call, dialed, fuel);
  }
}
