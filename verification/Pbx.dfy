/** What the admin sets up for the office phones, the checks every value has
  * passed before it is written to a file, and the lines of the generated
  * dial plan (modules/voip/service/internal/pbx). */
module Pbx {
  import opened Text

  datatype Extension = Extension(number: string, name: string, password: string, inMainGroup: bool)

  /** One key of the phone menu: pressing `digit` rings `targets` together. */
  datatype IvrOption = IvrOption(digit: string, name: string, targets: seq<string>)

  datatype Ivr = Ivr(enabled: bool, hasGreeting: bool, recorder: string, options: seq<IvrOption>)

  datatype Settings = Settings(
    trunkEnabled: bool,
    trunkHost: string,
    trunkUsername: string,
    trunkPassword: string,
    trunkCallerId: string,
    allowInternational: bool)

  const GREETING := "/var/lib/itp-sounds/greeting"

  // ---- the Valid* checks -----------------------------------------------------

  /** 2 to 5 digits, the first neither 0 nor 9. */
  predicate ValidNumber(s: string) {
    2 <= |s| <= 5 && '1' <= s[0] <= '8' && AllDigits(s)
  }

  predicate ValidDigit(s: string) { |s| == 1 && '1' <= s[0] <= '9' }

  predicate AsciiLetter(c: char) { 'A' <= c <= 'Z' || 'a' <= c <= 'z' }

  /** Letters and numbers of any script, blanks and . ' ( ) & _ -. Every character past
    * ASCII is let through here, letter and number or not. */
  predicate ValidName(s: string) {
    1 <= |s| <= 40 &&
    forall c :: c in s ==> AsciiLetter(c) || IsDigit(c) || c >= '\U{80}' || c in " .'()&_-"
  }

  predicate HostChar(c: char) { AsciiLetter(c) || IsDigit(c) || c == '.' || c == '-' }

  predicate ValidTrunkHost(s: string) {
    var host := HostOnly(s);
    1 <= |host| <= 253 && (forall c :: c in host ==> HostChar(c)) &&
    (host == s || (1 <= |s| - |host| - 1 <= 5 && AllDigits(s[|host| + 1..])))
  }

  predicate ValidTrunkUsername(s: string) {
    1 <= |s| <= 64 && forall c :: c in s ==> AsciiLetter(c) || IsDigit(c) || c in "._+-"
  }

  /** Printable ASCII, no blank and no semicolon. */
  predicate ValidTrunkPassword(s: string) {
    1 <= |s| <= 128 && forall c :: c in s ==> '!' <= c <= '~' && c != ';'
  }

  predicate ValidCallerId(s: string) {
    var digits := if s != "" && s[0] == '+' then s[1..] else s;
    |digits| <= 20 && AllDigits(digits)
  }

  /** strings.Cut(hostPort, ":"), the part before. */
  function HostOnly(hostPort: string): string {
    Split(hostPort, ':')[0]
  }

  // ---- what the caller guarantees --------------------------------------------

  /** Numbers are valid and unique: `number` is the primary key of
    * voip_extensions and checked when a row is made. */
  ghost predicate ValidExtensions(exts: seq<Extension>) {
    && (forall i :: 0 <= i < |exts| ==> ValidNumber(exts[i].number))
    && (forall i, j :: 0 <= i < j < |exts| ==> exts[i].number != exts[j].number)
  }

  // ---- shared pieces of the settings -----------------------------------------

  predicate HasTrunk(st: Settings) {
    st.trunkEnabled && st.trunkHost != "" && st.trunkUsername != ""
  }

  predicate HasRecorder(ivr: Ivr) {
    ivr.recorder != "" && ValidNumber(ivr.recorder)
  }

  predicate IsNumberOf(exts: seq<Extension>, number: string) {
    exists i :: 0 <= i < |exts| && exts[i].number == number
  }

  /** The numbers of the main group, in order. */
  function Members(exts: seq<Extension>): seq<string> {
    if exts == [] then []
    else
      var n := |exts| - 1;
      Members(exts[..n]) + if exts[n].inMainGroup then [exts[n].number] else []
  }

  /** The targets that still exist, in order. */
  function Live(exts: seq<Extension>, targets: seq<string>): seq<string> {
    if targets == [] then []
    else
      var n := |targets| - 1;
      Live(exts, targets[..n]) + if IsNumberOf(exts, targets[n]) then [targets[n]] else []
  }

  /** A key that makes it onto the menu. */
  predicate Offered(exts: seq<Extension>, o: IvrOption) {
    Live(exts, o.targets) != [] && ValidDigit(o.digit)
  }

  /** The options that make it onto the menu, in order. */
  function Keys(exts: seq<Extension>, options: seq<IvrOption>): seq<IvrOption> {
    if options == [] then []
    else
      var n := |options| - 1;
      Keys(exts, options[..n]) + if Offered(exts, options[n]) then [options[n]] else []
  }

  /** There is a menu: switched on, a greeting recorded, a key that rings someone. */
  predicate HasMenu(exts: seq<Extension>, ivr: Ivr) {
    ivr.enabled && ivr.hasGreeting && Keys(exts, ivr.options) != []
  }

  /** One person: their own mailbox. A group: the shared one. */
  function Mailbox(live: seq<string>): string {
    if |live| == 1 then live[0] else "0"
  }
}
