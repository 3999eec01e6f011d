/** Asterisk's configuration files as text: how a line is written, how a file is
  * read back, and when reading gives exactly what was meant. The format has no
  * quoting: ';' starts a comment, a newline ends a value. So what a value may hold is
  * decided here, and the checks every value passes are shown to be enough for it. */
module ConfText {
  import opened Text

  /** A line as the generators write it. */
  datatype ConfLine =
    | Empty
    | Note(text: string)                       // ; <text>
    | Header(name: string, template: string)   // [<name>] or [<name>](<template>)
    | Pair(key: string, value: string)         // <key> = <value>
    | Arrow(key: string, value: string)        // <key> => <value>
    | IndentedArrow(key: string, value: string)

  /** What a reader makes of a line. */
  datatype Item = Section(name: string, template: string) | Setting(key: string, value: string)

  // ---- writing ---------------------------------------------------------------

  /** A setting as one piece of text, indented or not, with = or =>. */
  function SettingText(indent: string, key: string, value: string, arrow: bool): string {
    indent + key + " " + ['='] + ((if arrow then "> " else " ") + value)
  }

  function LineText(l: ConfLine): string {
    match l
    case Empty => ""
    case Note(text) => "; " + text
    case Header(name, template) => "[" + name + "]" + if template == "" then "" else "(" + template + ")"
    case Pair(key, value) => SettingText("", key, value, false)
    case Arrow(key, value) => SettingText("", key, value, true)
    case IndentedArrow(key, value) => SettingText(" ", key, value, true)
  }

  function FileText(lines: seq<ConfLine>): string {
    if lines == [] then "" else LineText(lines[0]) + ['\n'] + FileText(lines[1..])
  }

  // ---- reading ---------------------------------------------------------------

  predicate IsBlank(s: string) { forall i :: 0 <= i < |s| ==> IsSpace(s[i]) }

  /** One line, with its comment already cut off. */
  function ReadBody(t: string): seq<Item> {
    if IsBlank(t) then []
    else if TrimLeft(t) != "" && TrimLeft(t)[0] == '[' then
      var u := TrimLeft(t)[1..];
      var rest := After(u, ']');
      [Section(Before(u, ']'), if rest != "" && rest[0] == '(' then Before(rest[1..], ')') else "")]
    else if '=' in t then
      var value := After(t, '=');
      [Setting(Trim(Before(t, '=')), Trim(if value != "" && value[0] == '>' then value[1..] else value))]
    else []
  }

  function ReadLine(s: string): seq<Item> { ReadBody(Before(s, ';')) }

  function ReadLines(lines: seq<string>): seq<Item> {
    if lines == [] then [] else ReadLine(lines[0]) + ReadLines(lines[1..])
  }

  /** A whole file. */
  function ReadFile(text: string): seq<Item> { ReadLines(Split(text, '\n')) }

  // ---- reading undoes writing ------------------------------------------------

  /** What a line is meant to say. */
  function Meant(l: ConfLine): seq<Item> {
    match l
    case Empty => []
    case Note(_) => []
    case Header(name, template) => [Section(name, template)]
    case Pair(key, value) => [Setting(Trim(key), Trim(value))]
    case Arrow(key, value) => [Setting(Trim(key), Trim(value))]
    case IndentedArrow(key, value) => [Setting(Trim(key), Trim(value))]
  }

  function AllMeant(lines: seq<ConfLine>): seq<Item> {
    if lines == [] then [] else Meant(lines[0]) + AllMeant(lines[1..])
  }

  predicate Plain(s: string) {
    forall i :: 0 <= i < |s| ==> s[i] != ';' && s[i] != '\n'
  }

  /** Text that is safe anywhere: as a key, a value or a section name. */
  predicate IsWord(s: string) {
    && (forall i :: 0 <= i < |s| ==> s[i] != ';' && s[i] != '\n' && s[i] != '=' && s[i] != ']' && s[i] != ')')
    && s != "" && !IsSpace(s[0]) && s[0] != '['
  }

  /** The words the generators use of their own; each is checked where it is defined. */
  type Word = s: string | IsWord(s) witness "x"

  const GENERATED: Word := "Generated by the IT "
  const PHONE_MODULE: Word := "Platform phone module "
  const OVERWRITTEN: Word := "edits here are overwritten."

  /** The first line of every generated file. */
  const FILE_NOTE := GENERATED + PHONE_MODULE + "\U{2014} " + OVERWRITTEN

  predicate GoodKey(key: string) {
    && (forall i :: 0 <= i < |key| ==> key[i] != ';' && key[i] != '\n' && key[i] != '=')
    && key != "" && !IsSpace(key[0]) && key[0] != '['
  }

  /** Nothing in the line can be taken for syntax. */
  predicate Clean(l: ConfLine) {
    match l
    case Empty => true
    case Note(text) => '\n' !in text
    case Header(name, template) => Plain(name) && ']' !in name && Plain(template) && ')' !in template
    case Pair(key, value) => GoodKey(key) && Plain(value)
    case Arrow(key, value) => GoodKey(key) && Plain(value)
    case IndentedArrow(key, value) => GoodKey(key) && Plain(value)
  }

  lemma {:induction false} TrimBlankStart(s: string)
    ensures Trim(" " + s) == Trim(s)
  {
    assert (" " + s)[1..] == s;
  }

  /** The body of a setting, indented by a blank or not, whatever stands after the
    * equals sign. */
  lemma {:induction false} ReadBodySetting(indent: string, key: string, after: string)
    requires GoodKey(key) && (indent == "" || indent == " ")
    ensures ReadBody(indent + key + " " + ['='] + after)
         == [Setting(Trim(key), Trim(if after != "" && after[0] == '>' then after[1..] else after))]
  {
    var t := indent + key + " " + ['='] + after;
    var u := key + " " + ['='] + after;
    assert t == indent + u && u[0] == key[0];
    if indent == " " {
      assert t[1..] == u;
    } else {
      assert t == u;
    }
    assert TrimLeft(t) == u;
    assert t[|indent|] == key[0];
    assert t[|indent| + |key| + 1] == '=';
    BeforeAfter(indent + key + " ", after, '=');
    TrimKey(indent, key);
  }

  lemma {:induction false} SettingTextPlain(indent: string, key: string, value: string, arrow: bool)
    requires GoodKey(key) && Plain(value) && (indent == "" || indent == " ")
    ensures ';' !in SettingText(indent, key, value, arrow) && '\n' !in SettingText(indent, key, value, arrow)
  {
    assert ';' !in key && ';' !in value && '\n' !in key && '\n' !in value;
  }

  lemma {:induction false} ReadSetting(indent: string, key: string, value: string, arrow: bool)
    requires GoodKey(key) && Plain(value) && (indent == "" || indent == " ")
    ensures ReadLine(SettingText(indent, key, value, arrow)) == [Setting(Trim(key), Trim(value))]
  {
    var after := (if arrow then "> " else " ") + value;
    SettingTextPlain(indent, key, value, arrow);
    BeforeNone(SettingText(indent, key, value, arrow), ';');
    ReadBodySetting(indent, key, after);
    TrimBlankStart(value);
    if arrow {
      assert after[1..] == " " + value;
    }
  }

  /** Blanks around a key do not matter. */
  lemma {:induction false} TrimKey(indent: string, key: string)
    requires key != "" && !IsSpace(key[0]) && (indent == "" || indent == " ")
    ensures Trim(indent + key + " ") == Trim(key)
  {
    var t := key + " ";
    if indent == " " {
      assert (indent + key + " ")[1..] == t;
    } else {
      assert indent + key + " " == t;
    }
    assert t[..|key|] == key;
  }

  lemma {:induction false} ReadBodyHeader(name: string, rest: string)
    requires ']' !in name
    ensures ReadBody("[" + (name + [']'] + rest))
         == [Section(name, if rest != "" && rest[0] == '(' then Before(rest[1..], ')') else "")]
  {
    var u := name + [']'] + rest;
    var t := "[" + u;
    assert t[0] == '[' && t[1..] == u;
    BeforeAfter(name, rest, ']');
  }

  lemma {:induction false} ReadHeader(name: string, template: string)
    requires Clean(Header(name, template))
    ensures ReadLine(LineText(Header(name, template))) == [Section(name, template)]
  {
    var t := LineText(Header(name, template));
    BeforeNone(t, ';');
    var rest := if template == "" then "" else "(" + template + ")";
    assert t == "[" + (name + [']'] + rest);
    ReadBodyHeader(name, rest);
    if template != "" {
      ReadTemplate(template);
    }
  }

  lemma {:induction false} ReadTemplate(template: string)
    requires ')' !in template
    ensures (var rest := "(" + template + ")"; rest[0] == '(' && Before(rest[1..], ')') == template)
  {
    var rest := "(" + template + ")";
    assert rest[1..] == template + [')'] + "";
    BeforeAfter(template, "", ')');
  }

  lemma {:induction false} ReadNote(text: string)
    ensures ReadLine("; " + text) == []
  {
    assert "; " + text == "" + [';'] + (" " + text);
    BeforeAfter("", " " + text, ';');
  }

  lemma {:induction false} ReadClean(l: ConfLine)
    requires Clean(l)
    ensures ReadLine(LineText(l)) == Meant(l)
    ensures '\n' !in LineText(l)
  {
    match l {
      case Empty =>
      case Note(text) =>
        ReadNote(text);
      case Header(name, template) => ReadHeader(name, template);
      case Pair(key, value) =>
        SettingTextPlain("", key, value, false);
        ReadSetting("", key, value, false);
      case Arrow(key, value) =>
        SettingTextPlain("", key, value, true);
        ReadSetting("", key, value, true);
      case IndentedArrow(key, value) =>
        SettingTextPlain(" ", key, value, true);
        ReadSetting(" ", key, value, true);
    }
  }

  /** No value breaks out of its line: a file of clean lines reads back as
    * exactly the sections and settings it was written to say. */
  lemma {:induction false} ReadsAsMeant(lines: seq<ConfLine>)
    requires forall i :: 0 <= i < |lines| ==> Clean(lines[i])
    ensures ReadFile(FileText(lines)) == AllMeant(lines)
  {
    if lines == [] {
      assert Split("", '\n') == [""];
      assert [""][1..] == [];
      assert ReadLine("") == [];
    } else {
      ReadsAsMeant(lines[1..]);
      ReadClean(lines[0]);
      SplitCons(LineText(lines[0]), FileText(lines[1..]), '\n');
      var parts := Split(FileText(lines), '\n');
      assert parts[1..] == Split(FileText(lines[1..]), '\n');
    }
  }
}
