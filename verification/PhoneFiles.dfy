/** pjsip.conf and voicemail.conf, and why no name, password or host an admin
  * types can change their structure: each section is written from lines whose values
  * passed the checks, so reading the file gives back the sections that were meant. The
  * endpoints and mailboxes it defines are then known by name. */
module PhoneFiles {
  import opened Text
  import opened ConfText
  import opened Pbx

  const FILE_HEADER := [Note(FILE_NOTE), Empty]

  // ---- pjsip.conf ------------------------------------------------------------

  // The fixed words of the files.
  const DEFAULT: Word := "default"
  const ZERO: Word := "0"
  const MAIN_BOX: Word := "0000,Main number"
  const ACL: Word := "acl"
  const ALL: Word := "all"
  const ALLOW: Word := "allow"
  const AOR: Word := "aor"
  const AORS: Word := "aors"
  const AUTH: Word := "auth"
  const AUTH_TYPE: Word := "auth_type"
  const CALLERID: Word := "callerid"
  const CLIENT_URI: Word := "client_uri"
  const CONTACT: Word := "contact"
  const CONTACT_DENY: Word := "contact_deny"
  const CONTACT_PERMIT: Word := "contact_permit"
  const CONTEXT: Word := "context"
  const DIRECT_MEDIA: Word := "direct_media"
  const DISALLOW: Word := "disallow"
  const ENDPOINT: Word := "endpoint"
  const FORBIDDEN_RETRY_INTERVAL: Word := "forbidden_retry_interval"
  const FORCE_RPORT: Word := "force_rport"
  const FROM_DOMAIN: Word := "from_domain"
  const FROM_USER: Word := "from_user"
  const G722_ULAW_ALAW: Word := "g722,ulaw,alaw"
  const IDENTIFY: Word := "identify"
  const ITP_ENDPOINT: Word := "itp-endpoint"
  const ITP_INCOMING: Word := "itp-incoming"
  const ITP_INTERNAL: Word := "itp-internal"
  const ITP_LAN: Word := "itp-lan"
  const MAILBOXES: Word := "mailboxes"
  const MATCH: Word := "match"
  const MAX_CONTACTS: Word := "max_contacts"
  const ANYWHERE: Word := "0.0.0.0/0.0.0.0"
  const NET_100: Word := "100.64.0.0/255.192.0.0"
  const NET_10: Word := "10.0.0.0/255.0.0.0"
  const NET_172: Word := "172.16.0.0/255.240.0.0"
  const NET_192: Word := "192.168.0.0/255.255.0.0"
  const TWO: Word := "2"
  const SECS_30: Word := "30"
  const SECS_60: Word := "60"
  const SECS_600: Word := "600"
  const NO: Word := "no"
  const OUTBOUND_AUTH: Word := "outbound_auth"
  const PASSWORD: Word := "password"
  const QUALIFY_FREQUENCY: Word := "qualify_frequency"
  const REGISTRATION: Word := "registration"
  const REMOVE_EXISTING: Word := "remove_existing"
  const RETRY_INTERVAL: Word := "retry_interval"
  const REWRITE_CONTACT: Word := "rewrite_contact"
  const RTP_SYMMETRIC: Word := "rtp_symmetric"
  const SERVER_URI: Word := "server_uri"
  const TRUNK: Word := "trunk"
  const TRUNK_AUTH: Word := "trunk-auth"
  const TRUNK_IDENTIFY: Word := "trunk-identify"
  const TRUNK_REG: Word := "trunk-reg"
  const TYPE: Word := "type"
  const ULAW_ALAW_G722: Word := "ulaw,alaw,g722"
  const USERNAME: Word := "username"
  const USERPASS: Word := "userpass"
  const YES: Word := "yes"

  const LAN_ONLY := [
    Pair(ACL, ITP_LAN),
    Pair(CONTACT_DENY, ANYWHERE),
    Pair(CONTACT_PERMIT, NET_10),
    Pair(CONTACT_PERMIT, NET_172),
    Pair(CONTACT_PERMIT, NET_192),
    Pair(CONTACT_PERMIT, NET_100)]

  function MediaLines(): seq<ConfLine> {
    [Pair(DIRECT_MEDIA, NO), Pair(RTP_SYMMETRIC, YES), Pair(FORCE_RPORT, YES), Pair(REWRITE_CONTACT, YES)]
  }

  function PhoneSettings(e: Extension): seq<ConfLine> {
    [ Pair(CONTEXT, ITP_INTERNAL),
      Pair(DISALLOW, ALL),
      Pair(ALLOW, G722_ULAW_ALAW),
      Pair(AUTH, e.number),
      Pair(AORS, e.number),
      Pair(CALLERID, "\"" + e.name + "\" <" + e.number + ">"),
      Pair(MAILBOXES, e.number + "@default") ]
    + MediaLines()
  }

  function PhoneAuth(e: Extension): seq<ConfLine> {
    [Pair(TYPE, AUTH), Pair(AUTH_TYPE, USERPASS), Pair(USERNAME, e.number), Pair(PASSWORD, e.password), Empty]
  }

  function PhoneAor(): seq<ConfLine> {
    [Pair(TYPE, AOR), Pair(MAX_CONTACTS, TWO), Pair(REMOVE_EXISTING, YES), Pair(QUALIFY_FREQUENCY, SECS_30), Empty]
  }

  /** One phone: its endpoint, its password, its registration. */
  function EndpointLines(e: Extension): seq<ConfLine> {
    ([Header(e.number, ITP_ENDPOINT)] + PhoneSettings(e)) + (LAN_ONLY + [Empty])
    + ([Header(e.number, "")] + PhoneAuth(e)) + ([Header(e.number, "")] + PhoneAor())
  }

  function TrunkAuth(st: Settings): seq<ConfLine> {
    [ Pair(TYPE, AUTH),
      Pair(AUTH_TYPE, USERPASS),
      Pair(USERNAME, st.trunkUsername),
      Pair(PASSWORD, st.trunkPassword),
      Empty ]
  }

  function TrunkReg(st: Settings): seq<ConfLine> {
    [ Pair(TYPE, REGISTRATION),
      Pair(OUTBOUND_AUTH, TRUNK_AUTH),
      Pair(SERVER_URI, "sip:" + st.trunkHost),
      Pair(CLIENT_URI, "sip:" + st.trunkUsername + "@" + st.trunkHost),
      Pair(RETRY_INTERVAL, SECS_60),
      Pair(FORBIDDEN_RETRY_INTERVAL, SECS_600),
      Empty ]
  }

  function TrunkAor(st: Settings): seq<ConfLine> {
    [Pair(TYPE, AOR), Pair(CONTACT, "sip:" + st.trunkHost), Empty]
  }

  function TrunkSettings(st: Settings): seq<ConfLine> {
    [ Pair(CONTEXT, ITP_INCOMING),
      Pair(DISALLOW, ALL),
      Pair(ALLOW, ULAW_ALAW_G722),
      Pair(OUTBOUND_AUTH, TRUNK_AUTH),
      Pair(AORS, TRUNK),
      Pair(FROM_USER, st.trunkUsername),
      Pair(FROM_DOMAIN, HostOnly(st.trunkHost)) ]
    + MediaLines() + [Empty]
  }

  function TrunkIdentify(st: Settings): seq<ConfLine> {
    [Pair(TYPE, IDENTIFY), Pair(ENDPOINT, TRUNK), Pair(MATCH, HostOnly(st.trunkHost)), Empty]
  }

  /** The outside line. */
  function TrunkLines(st: Settings): seq<ConfLine> {
    ([Header(TRUNK_AUTH, "")] + TrunkAuth(st)) + ([Header(TRUNK_REG, "")] + TrunkReg(st))
    + ([Header(TRUNK, "")] + TrunkAor(st)) + ([Header(TRUNK, ITP_ENDPOINT)] + TrunkSettings(st))
    + ([Header(TRUNK_IDENTIFY, "")] + TrunkIdentify(st))
  }

  function AllEndpointLines(exts: seq<Extension>): seq<ConfLine> {
    if exts == [] then [] else AllEndpointLines(exts[..|exts| - 1]) + EndpointLines(exts[|exts| - 1])
  }

  function PjsipLines(exts: seq<Extension>, st: Settings, trunk: bool): seq<ConfLine> {
    FILE_HEADER + AllEndpointLines(exts) + if trunk then TrunkLines(st) else []
  }

  /** renderPJSIP. */
  method RenderPJSIP(exts: seq<Extension>, st: Settings, trunk: bool) returns (b: seq<ConfLine>)
    ensures b == PjsipLines(exts, st, trunk)
  {
    var phones: seq<ConfLine> := [];
    for i := 0 to |exts|
      invariant phones == AllEndpointLines(exts[..i])
    {
      assert exts[..i + 1][..i] == exts[..i];
      phones := phones + EndpointLines(exts[i]);
    }
    assert exts[..|exts|] == exts;
    b := FILE_HEADER + phones;
    if trunk {
      b := b + TrunkLines(st);
    }
  }

  // ---- voicemail.conf --------------------------------------------------------

  function BoxLine(e: Extension): ConfLine { Arrow(e.number, "0000," + e.name) }

  function BoxLines(exts: seq<Extension>): seq<ConfLine> {
    if exts == [] then [] else BoxLines(exts[..|exts| - 1]) + [BoxLine(exts[|exts| - 1])]
  }

  function VoicemailLines(exts: seq<Extension>): seq<ConfLine> {
    FILE_HEADER + [Header(DEFAULT, ""), Arrow(ZERO, MAIN_BOX)] + BoxLines(exts)
  }

  /** renderVoicemail. */
  method RenderVoicemail(exts: seq<Extension>) returns (b: seq<ConfLine>)
    ensures b == VoicemailLines(exts)
  {
    var boxes: seq<ConfLine> := [];
    for i := 0 to |exts|
      invariant boxes == BoxLines(exts[..i])
    {
      assert exts[..i + 1][..i] == exts[..i];
      boxes := boxes + [BoxLine(exts[i])];
    }
    assert exts[..|exts|] == exts;
    b := FILE_HEADER + [Header(DEFAULT, ""), Arrow(ZERO, MAIN_BOX)] + boxes;
  }

  // ---- nothing breaks out ----------------------------------------------------

  ghost predicate AllClean(lines: seq<ConfLine>) {
    forall i :: 0 <= i < |lines| ==> Clean(lines[i])
  }

  /** What the admin pages check before a phone or the outside line is saved. */
  ghost predicate ValidPhones(exts: seq<Extension>) {
    && ValidExtensions(exts)
    && forall i :: 0 <= i < |exts| ==> ValidName(exts[i].name) && ValidTrunkPassword(exts[i].password)
  }

  ghost predicate ValidSettings(st: Settings) {
    && (st.trunkHost == "" || ValidTrunkHost(st.trunkHost))
    && (st.trunkUsername == "" || ValidTrunkUsername(st.trunkUsername))
    && (st.trunkPassword == "" || ValidTrunkPassword(st.trunkPassword))
    && ValidCallerId(st.trunkCallerId)
  }

  lemma {:induction false} CleanAppend(a: seq<ConfLine>, b: seq<ConfLine>)
    requires AllClean(a) && AllClean(b)
    ensures AllClean(a + b)
  {
  }

  lemma {:induction false} PlainAppend(a: string, b: string)
    requires Plain(a) && Plain(b)
    ensures Plain(a + b)
  {
  }

  lemma {:induction false} CharsPlain(s: string)
    requires forall c :: c in s ==> c != ';' && c != '\n'
    ensures Plain(s)
  {
    forall i | 0 <= i < |s| ensures s[i] != ';' && s[i] != '\n' {
      assert s[i] in s;
    }
  }

  lemma {:induction false} HeaderClean()
    ensures AllClean(FILE_HEADER)
  {
  }

  lemma {:induction false} FixedClean()
    ensures AllClean(LAN_ONLY + [Empty])
  {
  }

  /** The one value with quotes around it. */
  lemma {:induction false} CallerIdClean(e: Extension)
    requires ValidNumber(e.number) && ValidName(e.name)
    ensures Plain("\"" + e.name + "\" <" + e.number + ">") && Plain(e.number + "@default")
  {
    CharsPlain(e.name);
    assert Plain(e.number);
  }

  lemma {:induction false} SectionClean(name: string, template: string, rest: seq<ConfLine>)
    requires Clean(Header(name, template)) && AllClean(rest)
    ensures AllClean([Header(name, template)] + rest)
  {
  }

  lemma {:induction false} PhonePartsClean(e: Extension)
    requires ValidNumber(e.number) && ValidName(e.name) && ValidTrunkPassword(e.password)
    ensures AllClean(PhoneSettings(e)) && AllClean(PhoneAuth(e)) && AllClean(PhoneAor())
  {
    CallerIdClean(e);
    CharsPlain(e.password);
  }

  lemma {:induction false} EndpointClean(e: Extension)
    requires ValidNumber(e.number) && ValidName(e.name) && ValidTrunkPassword(e.password)
    ensures AllClean(EndpointLines(e))
  {
    PhonePartsClean(e);
    FixedClean();
    SectionClean(e.number, ITP_ENDPOINT, PhoneSettings(e));
    SectionClean(e.number, "", PhoneAuth(e));
    SectionClean(e.number, "", PhoneAor());
    var a, b := [Header(e.number, ITP_ENDPOINT)] + PhoneSettings(e), LAN_ONLY + [Empty];
    CleanAppend(a, b);
    CleanAppend(a + b, [Header(e.number, "")] + PhoneAuth(e));
    CleanAppend(a + b + ([Header(e.number, "")] + PhoneAuth(e)), [Header(e.number, "")] + PhoneAor());
  }

  lemma {:induction false} EndpointsClean(exts: seq<Extension>)
    requires ValidPhones(exts)
    ensures AllClean(AllEndpointLines(exts))
  {
    if exts != [] {
      EndpointsClean(exts[..|exts| - 1]);
      EndpointClean(exts[|exts| - 1]);
    }
  }

  lemma {:induction false} TrunkValuesClean(st: Settings)
    requires ValidTrunkHost(st.trunkHost) && ValidTrunkUsername(st.trunkUsername)
    ensures Plain(st.trunkHost) && Plain(HostOnly(st.trunkHost)) && Plain(st.trunkUsername)
    ensures Plain("sip:" + st.trunkHost) && Plain("sip:" + st.trunkUsername + "@" + st.trunkHost)
  {
    var host := HostOnly(st.trunkHost);
    CharsPlain(host);
    CharsPlain(st.trunkUsername);
    BeforeIsPrefix(st.trunkHost, ':');
    forall i | 0 <= i < |st.trunkHost| ensures st.trunkHost[i] != ';' && st.trunkHost[i] != '\n' {
      if i < |host| {
        assert st.trunkHost[i] == st.trunkHost[..|host|][i];
      } else if i > |host| {
        assert st.trunkHost[i] == st.trunkHost[|host| + 1..][i - |host| - 1];
      }
    }
    assert Plain("sip:") && Plain("@");
    PlainAppend("sip:", st.trunkHost);
    PlainAppend("sip:", st.trunkUsername);
    PlainAppend("sip:" + st.trunkUsername, "@");
    PlainAppend("sip:" + st.trunkUsername + "@", st.trunkHost);
  }

  lemma {:induction false} TrunkPartsClean(st: Settings)
    requires ValidSettings(st) && HasTrunk(st)
    ensures AllClean(TrunkAuth(st)) && AllClean(TrunkReg(st)) && AllClean(TrunkAor(st))
    ensures AllClean(TrunkSettings(st)) && AllClean(TrunkIdentify(st))
  {
    TrunkLoginClean(st);
    TrunkPlaceClean(st);
  }

  lemma {:induction false} TrunkLoginClean(st: Settings)
    requires ValidSettings(st) && HasTrunk(st)
    ensures AllClean(TrunkAuth(st)) && AllClean(TrunkReg(st))
  {
    TrunkValuesClean(st);
    if st.trunkPassword != "" {
      CharsPlain(st.trunkPassword);
    }
    TrunkAuthClean(st);
  }

  lemma {:induction false} TrunkAuthClean(st: Settings)
    requires Plain(st.trunkUsername) && (st.trunkPassword != "" ==> Plain(st.trunkPassword))
    ensures AllClean(TrunkAuth(st))
  {
  }

  lemma {:induction false} TrunkPlaceClean(st: Settings)
    requires ValidSettings(st) && HasTrunk(st)
    ensures AllClean(TrunkAor(st)) && AllClean(TrunkSettings(st)) && AllClean(TrunkIdentify(st))
  {
    TrunkValuesClean(st);
    TrunkEndpointClean(st);
  }

  lemma {:induction false} TrunkEndpointClean(st: Settings)
    requires Plain(HostOnly(st.trunkHost)) && Plain(st.trunkUsername)
    ensures AllClean(TrunkSettings(st))
  {
  }

  lemma {:induction false} TrunkClean(st: Settings)
    requires ValidSettings(st) && HasTrunk(st)
    ensures AllClean(TrunkLines(st))
  {
    TrunkPartsClean(st);
    SectionClean(TRUNK_AUTH, "", TrunkAuth(st));
    SectionClean(TRUNK_REG, "", TrunkReg(st));
    SectionClean(TRUNK, "", TrunkAor(st));
    SectionClean(TRUNK, ITP_ENDPOINT, TrunkSettings(st));
    SectionClean(TRUNK_IDENTIFY, "", TrunkIdentify(st));
    var a, b := [Header(TRUNK_AUTH, "")] + TrunkAuth(st), [Header(TRUNK_REG, "")] + TrunkReg(st);
    var c, d := [Header(TRUNK, "")] + TrunkAor(st), [Header(TRUNK, ITP_ENDPOINT)] + TrunkSettings(st);
    CleanAppend(a, b);
    CleanAppend(a + b, c);
    CleanAppend(a + b + c, d);
    CleanAppend(a + b + c + d, [Header(TRUNK_IDENTIFY, "")] + TrunkIdentify(st));
  }

  lemma {:induction false} BoxesClean(exts: seq<Extension>)
    requires ValidPhones(exts)
    ensures AllClean(BoxLines(exts))
  {
    if exts != [] {
      var e := exts[|exts| - 1];
      BoxesClean(exts[..|exts| - 1]);
      CharsPlain(e.name);
      assert Plain("0000,");
      PlainAppend("0000,", e.name);
    }
  }

  /** Whatever valid names, passwords and hosts are in use, Asterisk reads from
    * pjsip.conf exactly the sections and settings the generator meant. */
  lemma {:induction false} PjsipReadsAsMeant(exts: seq<Extension>, st: Settings)
    requires ValidPhones(exts) && ValidSettings(st)
    ensures var lines := PjsipLines(exts, st, HasTrunk(st));
            ReadFile(FileText(lines)) == AllMeant(lines)
  {
    HeaderClean();
    EndpointsClean(exts);
    CleanAppend(FILE_HEADER, AllEndpointLines(exts));
    if HasTrunk(st) {
      TrunkClean(st);
      CleanAppend(FILE_HEADER + AllEndpointLines(exts), TrunkLines(st));
    }
    ReadsAsMeant(PjsipLines(exts, st, HasTrunk(st)));
  }

  /** And so for voicemail.conf. */
  lemma {:induction false} VoicemailReadsAsMeant(exts: seq<Extension>)
    requires ValidPhones(exts)
    ensures ReadFile(FileText(VoicemailLines(exts))) == AllMeant(VoicemailLines(exts))
  {
    HeaderClean();
    BoxesClean(exts);
    ReadsAsMeant(VoicemailLines(exts));
  }

  // ---- who exists ------------------------------------------------------------

  /** The endpoints a pjsip.conf defines, and the ones held to the office network. */
  datatype Endpoints = Endpoints(current: string, names: seq<string>, lanOnly: seq<string>)

  function AddConfLine(e: Endpoints, l: ConfLine): Endpoints {
    match l
    case Header(name, template) =>
      if template == ITP_ENDPOINT then Endpoints(name, e.names + [name], e.lanOnly) else e.(current := "")
    case Pair(key, value) =>
      if key == ACL && value == ITP_LAN && e.current != "" then e.(lanOnly := e.lanOnly + [e.current]) else e
    case _ => e
  }

  function EndpointsIn(e: Endpoints, lines: seq<ConfLine>): Endpoints
    decreases |lines|
  {
    if lines == [] then e else EndpointsIn(AddConfLine(e, lines[0]), lines[1..])
  }

  lemma {:induction false} EndpointsAppend(e: Endpoints, a: seq<ConfLine>, b: seq<ConfLine>)
    ensures EndpointsIn(e, a + b) == EndpointsIn(EndpointsIn(e, a), b)
    decreases |a|
  {
    if a == [] {
      assert a + b == b;
    } else {
      assert (a + b)[0] == a[0] && (a + b)[1..] == a[1..] + b;
      EndpointsAppend(AddConfLine(e, a[0]), a[1..], b);
    }
  }

  /** Lines that neither open a section nor set an acl change nothing. */
  predicate Neutral(l: ConfLine) { !l.Header? && (l.Pair? ==> l.key != ACL) }

  lemma {:induction false} NeutralLines(e: Endpoints, lines: seq<ConfLine>)
    requires forall i :: 0 <= i < |lines| ==> Neutral(lines[i])
    ensures EndpointsIn(e, lines) == e
    decreases |lines|
  {
    if lines != [] {
      NeutralLines(e, lines[1..]);
    }
  }

  /** A section opens, and the rest of its lines change nothing. */
  lemma {:induction false} SectionLines(e: Endpoints, name: string, template: string, rest: seq<ConfLine>)
    requires forall i :: 0 <= i < |rest| ==> Neutral(rest[i])
    ensures EndpointsIn(e, [Header(name, template)] + rest) == AddConfLine(e, Header(name, template))
  {
    var lines := [Header(name, template)] + rest;
    assert lines[1..] == rest;
    NeutralLines(AddConfLine(e, lines[0]), rest);
  }

  lemma {:induction false} AclLines(e: Endpoints)
    ensures EndpointsIn(e, LAN_ONLY + [Empty]) == AddConfLine(e, LAN_ONLY[0])
  {
    var lines := LAN_ONLY + [Empty];
    assert lines == [lines[0]] + lines[1..];
    NeutralLines(AddConfLine(e, lines[0]), lines[1..]);
  }

  ghost predicate AllNeutral(lines: seq<ConfLine>) {
    forall i :: 0 <= i < |lines| ==> Neutral(lines[i])
  }

  lemma {:induction false} PhoneNeutral(e: Extension)
    ensures AllNeutral(PhoneSettings(e)) && AllNeutral(PhoneAuth(e)) && AllNeutral(PhoneAor())
  {
  }

  lemma {:induction false} TrunkNeutral(st: Settings)
    ensures AllNeutral(TrunkAuth(st)) && AllNeutral(TrunkReg(st)) && AllNeutral(TrunkAor(st))
    ensures AllNeutral(TrunkSettings(st)) && AllNeutral(TrunkIdentify(st))
  {
  }

  lemma {:induction false} FourParts(e: Endpoints, a: seq<ConfLine>, b: seq<ConfLine>, c: seq<ConfLine>,
          d: seq<ConfLine>)
    ensures EndpointsIn(e, a + b + c + d) == EndpointsIn(EndpointsIn(EndpointsIn(EndpointsIn(e, a), b), c), d)
  {
    EndpointsAppend(e, a + b + c, d);
    EndpointsAppend(e, a + b, c);
    EndpointsAppend(e, a, b);
  }

  /** A phone is one endpoint, held to the office network. */
  lemma {:induction false} PhoneEndpoint(acc: Endpoints, e: Extension)
    requires e.number != ""
    ensures EndpointsIn(acc, EndpointLines(e)) == Endpoints("", acc.names + [e.number], acc.lanOnly + [e.number])
  {
    PhoneNeutral(e);
    FourParts(acc, [Header(e.number, ITP_ENDPOINT)] + PhoneSettings(e), LAN_ONLY + [Empty],
              [Header(e.number, "")] + PhoneAuth(e), [Header(e.number, "")] + PhoneAor());
    var e1 := Endpoints(e.number, acc.names + [e.number], acc.lanOnly);
    var e2 := Endpoints(e.number, acc.names + [e.number], acc.lanOnly + [e.number]);
    SectionLines(acc, e.number, ITP_ENDPOINT, PhoneSettings(e));
    AclLines(e1);
    SectionLines(e2, e.number, "", PhoneAuth(e));
    SectionLines(e2.(current := ""), e.number, "", PhoneAor());
  }

  /** The outside line is one endpoint, not held to the office network. */
  lemma {:induction false} TrunkEndpoint(acc: Endpoints, st: Settings)
    ensures EndpointsIn(acc, TrunkLines(st)) == Endpoints("", acc.names + [TRUNK], acc.lanOnly)
  {
    TrunkNeutral(st);
    var a, b := [Header(TRUNK_AUTH, "")] + TrunkAuth(st), [Header(TRUNK_REG, "")] + TrunkReg(st);
    var c, d := [Header(TRUNK, "")] + TrunkAor(st), [Header(TRUNK, ITP_ENDPOINT)] + TrunkSettings(st);
    EndpointsAppend(acc, a + b + c + d, [Header(TRUNK_IDENTIFY, "")] + TrunkIdentify(st));
    FourParts(acc, a, b, c, d);
    var e := acc.(current := "");
    SectionLines(acc, TRUNK_AUTH, "", TrunkAuth(st));
    SectionLines(e, TRUNK_REG, "", TrunkReg(st));
    SectionLines(e, TRUNK, "", TrunkAor(st));
    SectionLines(e, TRUNK, ITP_ENDPOINT, TrunkSettings(st));
    SectionLines(Endpoints(TRUNK, acc.names + [TRUNK], acc.lanOnly), TRUNK_IDENTIFY, "", TrunkIdentify(st));
  }

  function Numbers(exts: seq<Extension>): (r: seq<string>)
    ensures |r| == |exts|
    ensures forall i :: 0 <= i < |exts| ==> r[i] == exts[i].number
  {
    seq(|exts|, i requires 0 <= i < |exts| => exts[i].number)
  }

  lemma {:induction false} PhoneEndpoints(acc: Endpoints, exts: seq<Extension>)
    requires acc.current == "" && ValidExtensions(exts)
    ensures EndpointsIn(acc, AllEndpointLines(exts))
         == Endpoints("", acc.names + Numbers(exts), acc.lanOnly + Numbers(exts))
  {
    if exts == [] {
      assert acc.names + Numbers(exts) == acc.names && acc.lanOnly + Numbers(exts) == acc.lanOnly;
    } else {
      var init, e := exts[..|exts| - 1], exts[|exts| - 1];
      PhoneEndpoints(acc, init);
      EndpointsAppend(acc, AllEndpointLines(init), EndpointLines(e));
      PhoneEndpoint(EndpointsIn(acc, AllEndpointLines(init)), e);
      assert Numbers(exts) == Numbers(init) + [e.number];
      Assoc(acc.names, Numbers(init), [e.number]);
      Assoc(acc.lanOnly, Numbers(init), [e.number]);
    }
  }

  /** Each phone is an endpoint held to the office network; the outside line, if
    * there is one, is the only other endpoint and is not. */
  lemma {:induction false} EndpointsAreThePhones(exts: seq<Extension>, st: Settings, trunk: bool)
    requires ValidExtensions(exts)
    ensures EndpointsIn(Endpoints("", [], []), PjsipLines(exts, st, trunk))
         == Endpoints("", Numbers(exts) + (if trunk then [TRUNK] else []), Numbers(exts))
  {
    var e := Endpoints("", [], []);
    assert [] + Numbers(exts) == Numbers(exts);
    NeutralLines(e, FILE_HEADER);
    EndpointsAppend(e, FILE_HEADER, AllEndpointLines(exts));
    PhoneEndpoints(e, exts);
    EndpointsAppend(e, FILE_HEADER + AllEndpointLines(exts), if trunk then TrunkLines(st) else []);
    if trunk {
      TrunkEndpoint(Endpoints("", Numbers(exts), Numbers(exts)), st);
    } else {
      assert Numbers(exts) + [] == Numbers(exts);
    }
  }

  /** The section a line after these belongs to, "" before the first. */
  function SectionAt(lines: seq<ConfLine>): string {
    if lines == [] then ""
    else if lines[|lines| - 1].Header? then lines[|lines| - 1].name
    else SectionAt(lines[..|lines| - 1])
  }

  /** The mailboxes a voicemail.conf defines in one mailbox context. */
  function BoxesIn(context: string, lines: seq<ConfLine>): seq<string> {
    if lines == [] then []
    else
      var before, l := lines[..|lines| - 1], lines[|lines| - 1];
      BoxesIn(context, before) + if l.Arrow? && SectionAt(before) == context then [l.key] else []
  }

  lemma {:induction false} BoxesNext(context: string, lines: seq<ConfLine>, box: ConfLine)
    requires box.Arrow?
    ensures SectionAt(lines + [box]) == SectionAt(lines)
    ensures BoxesIn(context, lines + [box]) ==
            BoxesIn(context, lines) + if SectionAt(lines) == context then [box.key] else []
  {
    assert (lines + [box])[..|lines + [box]| - 1] == lines;
  }

  /** Boxes are added to the context they stand in, and to no other. */
  lemma {:induction false} BoxesAppend(context: string, a: seq<ConfLine>, exts: seq<Extension>)
    ensures SectionAt(a + BoxLines(exts)) == SectionAt(a)
    ensures BoxesIn(context, a + BoxLines(exts)) ==
            BoxesIn(context, a) + if SectionAt(a) == context then Numbers(exts) else []
  {
    if exts == [] {
      assert a + BoxLines(exts) == a;
    } else {
      var init, e := exts[..|exts| - 1], exts[|exts| - 1];
      BoxesAppend(context, a, init);
      Assoc(a, BoxLines(init), [BoxLine(e)]);
      BoxesNext(context, a + BoxLines(init), BoxLine(e));
      assert Numbers(exts) == Numbers(init) + [e.number];
      Assoc(BoxesIn(context, a), Numbers(init), [e.number]);
    }
  }

  /** Every phone has a mailbox in the context the dial plan names, and so has the
    * main number; there is no other, there or elsewhere. */
  lemma {:induction false} BoxesAreThePhones(exts: seq<Extension>, context: string)
    ensures BoxesIn(context, VoicemailLines(exts)) == if context == "default" then [ZERO] + Numbers(exts) else []
  {
    var a := FILE_HEADER + [Header(DEFAULT, ""), Arrow(ZERO, MAIN_BOX)];
    assert a[..3] == FILE_HEADER + [Header(DEFAULT, "")] && a[..3][..2] == FILE_HEADER;
    assert FILE_HEADER[..1][..0] == [] && BoxesIn(context, FILE_HEADER[..1]) == [];
    assert BoxesIn(context, a[..3]) == [] && a[3].Arrow? && SectionAt(a[..3]) == DEFAULT;
    assert a[..|a| - 1] == a[..3];
    assert SectionAt(a) == DEFAULT;
    BoxesAppend(context, a, exts);
  }

  // ---- what the sections say -------------------------------------------------

  datatype Named = Named(key: string, value: string)

  /** A section with its settings in order. */
  datatype Part = Part(name: string, template: string, settings: seq<Named>)

  /** The sections of a file; what stands before the first belongs to none. */
  function Parts(lines: seq<ConfLine>): seq<Part> {
    if lines == [] then []
    else
      var before, l := Parts(lines[..|lines| - 1]), lines[|lines| - 1];
      match l
      case Header(name, template) => before + [Part(name, template, [])]
      case Pair(key, value) => WithSetting(before, key, value)
      case Arrow(key, value) => WithSetting(before, key, value)
      case IndentedArrow(key, value) => WithSetting(before, key, value)
      case _ => before
  }

  function WithSetting(parts: seq<Part>, key: string, value: string): seq<Part> {
    if parts == [] then []
    else
      var init, p := parts[..|parts| - 1], parts[|parts| - 1];
      init + [p.(settings := p.settings + [Named(key, value)])]
  }

  /** The settings among these lines. */
  function SettingsOf(lines: seq<ConfLine>): seq<Named> {
    if lines == [] then []
    else
      var before, l := SettingsOf(lines[..|lines| - 1]), lines[|lines| - 1];
      match l
      case Pair(key, value) => before + [Named(key, value)]
      case Arrow(key, value) => before + [Named(key, value)]
      case IndentedArrow(key, value) => before + [Named(key, value)]
      case _ => before
  }

  lemma {:induction false} PartsNext(lines: seq<ConfLine>, l: ConfLine)
    ensures Parts(lines + [l]) ==
            match l
            case Header(name, template) => Parts(lines) + [Part(name, template, [])]
            case Pair(key, value) => WithSetting(Parts(lines), key, value)
            case Arrow(key, value) => WithSetting(Parts(lines), key, value)
            case IndentedArrow(key, value) => WithSetting(Parts(lines), key, value)
            case _ => Parts(lines)
  {
    assert (lines + [l])[..|lines + [l]| - 1] == lines;
  }

  /** A section in the place of its lines. */
  lemma {:induction false} PartAppend(a: seq<ConfLine>, name: string, template: string, rest: seq<ConfLine>)
    requires forall i :: 0 <= i < |rest| ==> !rest[i].Header?
    ensures Parts(a + ([Header(name, template)] + rest)) == Parts(a) + [Part(name, template, SettingsOf(rest))]
  {
    var head := [Header(name, template)];
    if rest == [] {
      PartsNext(a, head[0]);
      assert a + (head + rest) == a + head;
    } else {
      var init, last := rest[..|rest| - 1], rest[|rest| - 1];
      PartAppend(a, name, template, init);
      PartsNext(a + (head + init), last);
      assert a + (head + rest) == a + (head + init) + [last];
    }
  }

  lemma {:induction false} SettingsNext(lines: seq<ConfLine>, key: string, value: string)
    ensures SettingsOf(lines + [Pair(key, value)]) == SettingsOf(lines) + [Named(key, value)]
    ensures SettingsOf(lines + [Arrow(key, value)]) == SettingsOf(lines) + [Named(key, value)]
    ensures SettingsOf(lines + [Empty]) == SettingsOf(lines)
  {
    assert (lines + [Pair(key, value)])[..|lines|] == lines;
    assert (lines + [Arrow(key, value)])[..|lines|] == lines;
    assert (lines + [Empty])[..|lines|] == lines;
  }

  /** These pairs, and a blank line. */
  function PairsOf(settings: seq<Named>): seq<ConfLine> {
    seq(|settings|, i requires 0 <= i < |settings| => Pair(settings[i].key, settings[i].value))
  }

  lemma {:induction false} SettingsAre(settings: seq<Named>)
    ensures SettingsOf(PairsOf(settings)) == settings && SettingsOf(PairsOf(settings) + [Empty]) == settings
  {
    SettingsNext(PairsOf(settings), "", "");
    if settings != [] {
      var init, last := settings[..|settings| - 1], settings[|settings| - 1];
      SettingsAre(init);
      assert PairsOf(settings) == PairsOf(init) + [Pair(last.key, last.value)];
      SettingsNext(PairsOf(init), last.key, last.value);
    }
  }

  const LAN_SETTINGS: seq<Named> := [
    Named("acl", "itp-lan"),
    Named("contact_deny", "0.0.0.0/0.0.0.0"),
    Named("contact_permit", "10.0.0.0/255.0.0.0"),
    Named("contact_permit", "172.16.0.0/255.240.0.0"),
    Named("contact_permit", "192.168.0.0/255.255.0.0"),
    Named("contact_permit", "100.64.0.0/255.192.0.0")]

  const MEDIA_SETTINGS: seq<Named> := [
    Named("direct_media", "no"),
    Named("rtp_symmetric", "yes"),
    Named("force_rport", "yes"),
    Named("rewrite_contact", "yes")]

  /** A phone: what it may dial, whose password it needs, how it registers. */
  function PhoneParts(e: Extension): seq<Part> {
    var n := e.number;
    [ Part(n, "itp-endpoint",
           [ Named("context", "itp-internal"), Named("disallow", "all"), Named("allow", "g722,ulaw,alaw"),
             Named("auth", n), Named("aors", n), Named("callerid", "\"" + e.name + "\" <" + n + ">"),
             Named("mailboxes", n + "@default") ] + MEDIA_SETTINGS + LAN_SETTINGS),
      Part(n, "", [ Named("type", "auth"), Named("auth_type", "userpass"), Named("username", n),
                    Named("password", e.password) ]),
      Part(n, "", [ Named("type", "aor"), Named("max_contacts", "2"), Named("remove_existing", "yes"),
                    Named("qualify_frequency", "30") ]) ]
  }

  lemma {:induction false} PhonePartSettings(e: Extension)
    ensures SettingsOf(PhoneSettings(e) + (LAN_ONLY + [Empty])) == PhoneParts(e)[0].settings
    ensures SettingsOf(PhoneAuth(e)) == PhoneParts(e)[1].settings
    ensures SettingsOf(PhoneAor()) == PhoneParts(e)[2].settings
  {
    var ps := PhoneParts(e);
    SettingsAre(ps[0].settings);
    SettingsAre(ps[1].settings);
    SettingsAre(ps[2].settings);
    assert PhoneSettings(e) + (LAN_ONLY + [Empty]) == PairsOf(ps[0].settings) + [Empty];
    assert PhoneAuth(e) == PairsOf(ps[1].settings) + [Empty];
    assert PhoneAor() == PairsOf(ps[2].settings) + [Empty];
  }

  lemma {:induction false} PhonePartsAppend(a: seq<ConfLine>, e: Extension)
    ensures Parts(a + EndpointLines(e)) == Parts(a) + PhoneParts(e)
  {
    var n, ps := e.number, PhoneParts(e);
    var rest := PhoneSettings(e) + (LAN_ONLY + [Empty]);
    var x, y, z := [Header(n, ITP_ENDPOINT)] + rest, [Header(n, "")] + PhoneAuth(e), [Header(n, "")] + PhoneAor();
    PhonePartSettings(e);
    Assoc([Header(n, ITP_ENDPOINT)], PhoneSettings(e), LAN_ONLY + [Empty]);
    ThreeParts(a, x, y, z);
    PartAppend(a, n, ITP_ENDPOINT, rest);
    PartAppend(a + x, n, "", PhoneAuth(e));
    PartAppend(a + x + y, n, "", PhoneAor());
    ThreeParts(Parts(a), [ps[0]], [ps[1]], [ps[2]]);
    assert ps == [ps[0]] + [ps[1]] + [ps[2]];
  }

  lemma {:induction false} ThreeParts<T>(a: seq<T>, x: seq<T>, y: seq<T>, z: seq<T>)
    ensures a + (x + y + z) == a + x + y + z
  {
  }

  /** The provider: the login it is given, where it is registered and what it may call. */
  function TrunkParts(st: Settings): seq<Part> {
    var host := Before(st.trunkHost, ':');
    [ Part("trunk-auth", "", [ Named("type", "auth"), Named("auth_type", "userpass"),
                               Named("username", st.trunkUsername), Named("password", st.trunkPassword) ]),
      Part("trunk-reg", "", [ Named("type", "registration"), Named("outbound_auth", "trunk-auth"),
                              Named("server_uri", "sip:" + st.trunkHost),
                              Named("client_uri", "sip:" + st.trunkUsername + "@" + st.trunkHost),
                              Named("retry_interval", "60"), Named("forbidden_retry_interval", "600") ]),
      Part("trunk", "", [Named("type", "aor"), Named("contact", "sip:" + st.trunkHost)]),
      Part("trunk", "itp-endpoint",
           [ Named("context", "itp-incoming"), Named("disallow", "all"), Named("allow", "ulaw,alaw,g722"),
             Named("outbound_auth", "trunk-auth"), Named("aors", "trunk"), Named("from_user", st.trunkUsername),
             Named("from_domain", host) ] + MEDIA_SETTINGS),
      Part("trunk-identify", "", [Named("type", "identify"), Named("endpoint", "trunk"), Named("match", host)]) ]
  }

  lemma {:induction false} TrunkLoginSettings(st: Settings)
    ensures SettingsOf(TrunkAuth(st)) == TrunkParts(st)[0].settings
    ensures SettingsOf(TrunkReg(st)) == TrunkParts(st)[1].settings
    ensures SettingsOf(TrunkAor(st)) == TrunkParts(st)[2].settings
  {
    var ps := TrunkParts(st);
    SettingsAre(ps[0].settings);
    SettingsAre(ps[1].settings);
    SettingsAre(ps[2].settings);
    assert TrunkAuth(st) == PairsOf(ps[0].settings) + [Empty];
    assert TrunkReg(st) == PairsOf(ps[1].settings) + [Empty];
    assert TrunkAor(st) == PairsOf(ps[2].settings) + [Empty];
  }

  lemma {:induction false} TrunkPlaceSettings(st: Settings)
    ensures SettingsOf(TrunkSettings(st)) == TrunkParts(st)[3].settings
    ensures SettingsOf(TrunkIdentify(st)) == TrunkParts(st)[4].settings
  {
    var ps := TrunkParts(st);
    SettingsAre(ps[3].settings);
    SettingsAre(ps[4].settings);
    assert TrunkSettings(st) == PairsOf(ps[3].settings) + [Empty];
    assert TrunkIdentify(st) == PairsOf(ps[4].settings) + [Empty];
  }

  lemma {:induction false} TrunkPartsAppend(a: seq<ConfLine>, st: Settings)
    ensures Parts(a + TrunkLines(st)) == Parts(a) + TrunkParts(st)
  {
    var p, q := [Header(TRUNK_AUTH, "")] + TrunkAuth(st), [Header(TRUNK_REG, "")] + TrunkReg(st);
    var r, s := [Header(TRUNK, "")] + TrunkAor(st), [Header(TRUNK, ITP_ENDPOINT)] + TrunkSettings(st);
    var t := [Header(TRUNK_IDENTIFY, "")] + TrunkIdentify(st);
    FiveParts(a, p, q, r, s, t);
    TrunkLoginAppend(a, st);
    TrunkPlaceAppend(a + p + q + r, st);
    var ps := TrunkParts(st);
    assert ps == ps[..3] + ps[3..];
  }

  lemma {:induction false} FiveParts<T>(a: seq<T>, p: seq<T>, q: seq<T>, r: seq<T>, s: seq<T>, t: seq<T>)
    ensures a + (p + q + r + s + t) == a + p + q + r + s + t
  {
  }

  lemma {:induction false} TrunkPlaceAppend(a: seq<ConfLine>, st: Settings)
    ensures Parts(a + ([Header(TRUNK, ITP_ENDPOINT)] + TrunkSettings(st))
                  + ([Header(TRUNK_IDENTIFY, "")] + TrunkIdentify(st))) == Parts(a) + TrunkParts(st)[3..]
  {
    var s := [Header(TRUNK, ITP_ENDPOINT)] + TrunkSettings(st);
    var ps := TrunkParts(st);
    TrunkPlaceSettings(st);
    PartAppend(a, TRUNK, ITP_ENDPOINT, TrunkSettings(st));
    PartAppend(a + s, TRUNK_IDENTIFY, "", TrunkIdentify(st));
    assert ps[3..] == [ps[3]] + [ps[4]];
  }

  lemma {:induction false} TrunkLoginAppend(a: seq<ConfLine>, st: Settings)
    ensures Parts(a + ([Header(TRUNK_AUTH, "")] + TrunkAuth(st)) + ([Header(TRUNK_REG, "")] + TrunkReg(st))
                  + ([Header(TRUNK, "")] + TrunkAor(st))) == Parts(a) + TrunkParts(st)[..3]
  {
    var p, q := [Header(TRUNK_AUTH, "")] + TrunkAuth(st), [Header(TRUNK_REG, "")] + TrunkReg(st);
    var ps := TrunkParts(st);
    TrunkLoginSettings(st);
    PartAppend(a, TRUNK_AUTH, "", TrunkAuth(st));
    PartAppend(a + p, TRUNK_REG, "", TrunkReg(st));
    PartAppend(a + p + q, TRUNK, "", TrunkAor(st));
    assert ps[..3] == [ps[0]] + [ps[1]] + [ps[2]];
  }

  function AllPhoneParts(exts: seq<Extension>): seq<Part> {
    if exts == [] then [] else AllPhoneParts(exts[..|exts| - 1]) + PhoneParts(exts[|exts| - 1])
  }

  lemma {:induction false} PhonesPartsAppend(exts: seq<Extension>)
    ensures Parts(FILE_HEADER + AllEndpointLines(exts)) == AllPhoneParts(exts)
  {
    if exts == [] {
      assert FILE_HEADER + [] == FILE_HEADER && FILE_HEADER[..1][..0] == [];
      assert Parts(FILE_HEADER[..1]) == [];
    } else {
      var init, e := exts[..|exts| - 1], exts[|exts| - 1];
      PhonesPartsAppend(init);
      Assoc(FILE_HEADER, AllEndpointLines(init), EndpointLines(e));
      PhonePartsAppend(FILE_HEADER + AllEndpointLines(init), e);
    }
  }

  /** The whole of pjsip.conf, section by section. */
  lemma {:induction false} PjsipParts(exts: seq<Extension>, st: Settings, trunk: bool)
    ensures Parts(PjsipLines(exts, st, trunk)) == AllPhoneParts(exts) + if trunk then TrunkParts(st) else []
  {
    var a := FILE_HEADER + AllEndpointLines(exts);
    PhonesPartsAppend(exts);
    if trunk {
      TrunkPartsAppend(a, st);
    } else {
      assert a + [] == a && AllPhoneParts(exts) + [] == AllPhoneParts(exts);
    }
  }

  /** A section of that name with which one may log in. */
  ghost predicate Login(parts: seq<Part>, name: string, user: string, password: string) {
    exists i :: 0 <= i < |parts| && parts[i].name == name && Named("type", "auth") in parts[i].settings
                && Named("username", user) in parts[i].settings && Named("password", password) in parts[i].settings
  }

  lemma {:induction false} PhoneLogin(exts: seq<Extension>, name: string, user: string, password: string)
    ensures Login(AllPhoneParts(exts), name, user, password) <==>
            exists i :: 0 <= i < |exts| && exts[i].number == name && user == name && password == exts[i].password
  {
    if exts != [] {
      var init, e := exts[..|exts| - 1], exts[|exts| - 1];
      PhoneLogin(init, name, user, password);
      OnePhoneLogin(e, name, user, password);
      LoginAppend(AllPhoneParts(init), PhoneParts(e), name, user, password);
      if exists i :: 0 <= i < |init| && init[i].number == name && user == name && password == init[i].password {
        var i :| 0 <= i < |init| && init[i].number == name && user == name && password == init[i].password;
        assert exts[i] == init[i];
      }
      if exists i :: 0 <= i < |exts| && exts[i].number == name && user == name && password == exts[i].password {
        var i :| 0 <= i < |exts| && exts[i].number == name && user == name && password == exts[i].password;
        assert i < |init| ==> init[i] == exts[i];
      }
    }
  }

  lemma {:induction false} LoginAppend(a: seq<Part>, b: seq<Part>, name: string, user: string, password: string)
    ensures Login(a + b, name, user, password) <==>
            Login(a, name, user, password) || Login(b, name, user, password)
  {
    if Login(b, name, user, password) {
      var i :| 0 <= i < |b| && b[i].name == name && Named("type", "auth") in b[i].settings
        && Named("username", user) in b[i].settings && Named("password", password) in b[i].settings;
      assert (a + b)[|a| + i] == b[i];
    }
    if Login(a, name, user, password) {
      var i :| 0 <= i < |a| && a[i].name == name && Named("type", "auth") in a[i].settings
        && Named("username", user) in a[i].settings && Named("password", password) in a[i].settings;
      assert (a + b)[i] == a[i];
    }
  }

  lemma {:induction false} OnePhoneLogin(e: Extension, name: string, user: string, password: string)
    ensures Login(PhoneParts(e), name, user, password) <==>
            name == e.number && user == e.number && password == e.password
  {
    var ps := PhoneParts(e);
    assert Named("type", "auth") == ps[1].settings[0] && Named("username", e.number) == ps[1].settings[2];
    assert Named("password", e.password) == ps[1].settings[3];
    assert Named("type", "auth") !in ps[0].settings && Named("type", "auth") !in ps[2].settings;
  }

  /** Who may log in: each phone as itself with its own password, and nobody else, the
    * provider's account apart. */
  lemma {:induction false} LoginsAre(exts: seq<Extension>, st: Settings, trunk: bool, name: string, user: string,
          password: string)
    requires name != "trunk-auth"
    ensures Login(Parts(PjsipLines(exts, st, trunk)), name, user, password) <==>
            exists i :: 0 <= i < |exts| && exts[i].number == name && user == name && password == exts[i].password
  {
    PjsipParts(exts, st, trunk);
    PhoneLogin(exts, name, user, password);
    TrunkLogin(st, name, user, password);
    LoginAppend(AllPhoneParts(exts), if trunk then TrunkParts(st) else [], name, user, password);
  }

  lemma {:induction false} TrunkLogin(st: Settings, name: string, user: string, password: string)
    requires name != "trunk-auth"
    ensures !Login(TrunkParts(st), name, user, password)
  {
    forall i | 1 <= i < |TrunkParts(st)| ensures Named("type", "auth") !in TrunkParts(st)[i].settings {
    }
  }

  /** The whole of voicemail.conf: one section, a box for the main number and one for each
    * phone, with its name. */
  lemma {:induction false} VoicemailParts(exts: seq<Extension>)
    ensures Parts(VoicemailLines(exts)) == [Part("default", "", [Named("0", "0000,Main number")] + BoxSettings(exts))]
  {
    var rest := [Arrow(ZERO, MAIN_BOX)] + BoxLines(exts);
    BoxLinesAre(exts);
    assert VoicemailLines(exts) == FILE_HEADER + ([Header(DEFAULT, "")] + rest);
    assert FILE_HEADER[..1][..0] == [] && Parts(FILE_HEADER[..1]) == [];
    assert Parts(FILE_HEADER) == [];
    PartAppend(FILE_HEADER, DEFAULT, "", rest);
  }

  function BoxSettings(exts: seq<Extension>): seq<Named> {
    seq(|exts|, i requires 0 <= i < |exts| => Named(exts[i].number, "0000," + exts[i].name))
  }

  lemma {:induction false} BoxLinesAre(exts: seq<Extension>)
    ensures forall i :: 0 <= i < |BoxLines(exts)| ==> !BoxLines(exts)[i].Header?
    ensures SettingsOf([Arrow(ZERO, MAIN_BOX)] + BoxLines(exts)) == [Named("0", "0000,Main number")] + BoxSettings(exts)
  {
    if exts == [] {
      SettingsNext([], ZERO, MAIN_BOX);
      assert [] + [Arrow(ZERO, MAIN_BOX)] == [Arrow(ZERO, MAIN_BOX)] + BoxLines(exts);
    } else {
      var init, e := exts[..|exts| - 1], exts[|exts| - 1];
      BoxLinesAre(init);
      SettingsNext([Arrow(ZERO, MAIN_BOX)] + BoxLines(init), e.number, "0000," + e.name);
      Assoc([Arrow(ZERO, MAIN_BOX)], BoxLines(init), [BoxLine(e)]);
      assert BoxSettings(exts) == BoxSettings(init) + [Named(e.number, "0000," + e.name)];
    }
  }
}
