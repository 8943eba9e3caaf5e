/**
 * The environment file: secrets quoted for a POSIX shell, and the shell's own reading of them
 * (sections 2.2.1 and 2.2.2 of the POSIX.1-2017 Shell Command Language).
 */
module EnvFile {
  import opened Types

  // ---- Printing ----

  /** Every single quote ends the quoting, stands escaped, and starts it again. */
  function Escape(s: string): string {
    if s == [] then []
    else (if s[0] == '\'' then "'\\''" else [s[0]]) + Escape(s[1..])
  }

  function Quote(s: string): string {
    "'" + Escape(s) + "'"
  }

  /** The value between single quotes as it is. */
  function QuoteRaw(s: string): string {
    "'" + s + "'"
  }

  datatype Export = Export(name: string, value: string)

  function ExportLine(e: Export): string {
    "export " + e.name + "=" + Quote(e.value) + "\n"
  }

  // ---- The shell's reading ----

  predicate Blank(c: char) {
    c == ' ' || c == '\t' || c == '\n'
  }

  /** Characters that are special to the shell outside quotes, apart from blanks, quotes and backslash. */
  predicate Special(c: char) {
    c in {'|', '&', ';', '<', '>', '(', ')', '$', '`', '"', '*', '?', '[', '#', '~', '%'}
  }

  /**
   * Reads a word with single quotes and backslashes: its value with quoting removed, and the text
   * after it.  There is no reading if a quote stays open or another special character turns up.
   */
  function ReadWord(s: string): Option<(string, string)> {
    if s == [] || Blank(s[0]) then Some(([], s))
    else if s[0] == '\'' then ReadQuoted(s[1..])
    else if s[0] == '\\' then
      if |s| < 2 then None
      else if s[1] == '\n' then ReadWord(s[2..])
      else Prepend(s[1], ReadWord(s[2..]))
    else if Special(s[0]) then None
    else Prepend(s[0], ReadWord(s[1..]))
  }

  function ReadQuoted(s: string): Option<(string, string)> {
    if s == [] then None
    else if s[0] == '\'' then ReadWord(s[1..])
    else Prepend(s[0], ReadQuoted(s[1..]))
  }

  function Prepend(c: char, r: Option<(string, string)>): Option<(string, string)> {
    match r case None => None case Some((v, rest)) => Some(([c] + v, rest))
  }

  /** Nothing of a word is left to read at a blank or at the end. */
  predicate WordEnds(rest: string) {
    rest == [] || Blank(rest[0])
  }

  lemma NothingLeft(rest: string)
    requires WordEnds(rest)
    ensures ReadWord(rest) == Some(([], rest))
  {
  }

  /** The escape for a quote reads as one quote. */
  lemma EscapeReads(tail: string)
    ensures ReadQuoted("'\\''" + tail) == Prepend('\'', ReadQuoted(tail))
  {
    var text := "'\\''" + tail;
    var afterClose := text[1..];
    assert afterClose[0] == '\\' && afterClose[1] == '\'';
    var reopened := afterClose[2..];
    assert reopened[0] == '\'' && reopened[1..] == tail;
    assert ReadWord(reopened) == ReadQuoted(tail);
    assert ReadWord(afterClose) == Prepend('\'', ReadWord(reopened));
  }

  /** An escaped secret inside quotes reads as itself. */
  lemma {:induction false} ReadEscaped(s: string, rest: string)
    requires WordEnds(rest)
    ensures ReadQuoted(Escape(s) + ("'" + rest)) == Some((s, rest))
  {
    hide ReadWord;
    var end := "'" + rest;
    if s == [] {
      assert Escape(s) + end == end && end[1..] == rest;
      NothingLeft(rest);
    } else {
      ReadEscaped(s[1..], rest);
      var tail := Escape(s[1..]) + end;
      assert s == [s[0]] + s[1..];
      if s[0] == '\'' {
        assert Escape(s) + end == "'\\''" + tail;
        EscapeReads(tail);
      } else {
        assert Escape(s) + end == [s[0]] + tail;
      }
    }
  }

  /** For every secret, the shell reads the quoted text back as the secret. */
  lemma QuoteReads(s: string, rest: string)
    requires WordEnds(rest)
    ensures ReadWord(Quote(s) + rest) == Some((s, rest))
  {
    ReadEscaped(s, rest);
    assert Quote(s) + rest == "'" + (Escape(s) + ("'" + rest));
  }

  // ---- Values quoted without escaping ----

  /** Reading never gains characters, and loses some wherever quoting is removed. */
  lemma {:induction false} ReadingLoses(s: string)
    ensures ReadWord(s).Some? ==>
      var (v, rest) := ReadWord(s).value;
      |v| + |rest| <= |s| && (v != [] && v[0] == '\'' ==> |v| + |rest| < |s|)
    ensures ReadQuoted(s).Some? ==> var (v, rest) := ReadQuoted(s).value; |v| + |rest| < |s|
    decreases |s|
  {
    if s != [] {
      ReadingLoses(s[1..]);
      if |s| >= 2 {
        ReadingLoses(s[2..]);
      }
    }
  }

  lemma {:induction false} EscapeNothing(s: string)
    requires '\'' !in s
    ensures Escape(s) == s
  {
    if s != [] {
      EscapeNothing(s[1..]);
      assert s == [s[0]] + s[1..];
    }
  }

  /** Up to its first quote, raw text is read as it stands. */
  lemma {:induction false} RawPrefix(s: string, i: nat, end: string)
    requires i < |s| && s[i] == '\'' && '\'' !in s[..i]
    ensures ReadQuoted(s + end) ==
      match ReadWord(s[i + 1..] + end) case None => None case Some((v, rest)) => Some((s[..i] + v, rest))
    decreases i
  {
    hide ReadWord;
    assert (s + end)[1..] == s[1..] + end;
    if i > 0 {
      assert s[0] in s[..i] && s[1..][..i - 1] == s[..i][1..];
      assert forall c | c in s[..i][1..] :: c in s[..i];
      RawPrefix(s[1..], i - 1, end);
      assert s[1..][i..] == s[i + 1..];
      match ReadWord(s[i + 1..] + end)
      case None =>
      case Some((v, _)) => assert [s[0]] + (s[1..][..i - 1] + v) == s[..i] + v;
    } else {
      match ReadWord(s[1..] + end)
      case None =>
      case Some((v, _)) => assert s[..0] + v == v;
    }
  }

  lemma FirstQuote(s: string) returns (i: nat)
    requires '\'' in s
    ensures i < |s| && s[i] == '\'' && '\'' !in s[..i]
  {
    i := 0;
    while s[i] != '\''
      invariant i < |s| && '\'' !in s[..i] && '\'' in s[i..]
      decreases |s| - i
    {
      assert s[i..] == [s[i]] + s[i + 1..] && s[..i + 1] == s[..i] + [s[i]];
      i := i + 1;
    }
  }

  /** A value put between quotes without escaping reads back as itself exactly when it has no quote in it. */
  lemma RawReadsIff(s: string, rest: string)
    requires WordEnds(rest)
    ensures ReadWord(QuoteRaw(s) + rest) == Some((s, rest)) <==> '\'' !in s
  {
    hide ReadWord, ReadQuoted;
    if '\'' !in s {
      EscapeNothing(s);
      QuoteReads(s, rest);
    } else {
      var i := FirstQuote(s);
      var end := "'" + rest;
      OpensQuote(s, rest);
      RawPrefix(s, i, end);
      ReadingLoses(s[i + 1..] + end);
      assert s == s[..i] + ([s[i]] + s[i + 1..]);
    }
  }

  /** Such a value is not read back: the quote ends the quoting early. */
  lemma RawQuoteLost()
    ensures ReadWord(QuoteRaw("it's") + "\n") != Some(("it's", "\n"))
  {
    hide ReadWord;
    var s := "it's";
    assert s[2] == '\'';
    RawReadsIff(s, "\n");
  }

  lemma OpensQuote(s: string, rest: string)
    ensures ReadWord(QuoteRaw(s) + rest) == ReadQuoted(s + ("'" + rest))
  {
    assert (QuoteRaw(s) + rest)[1..] == s + ("'" + rest);
  }

  // ---- The whole file ----

  predicate NameChar(c: char) {
    'a' <= c <= 'z' || 'A' <= c <= 'Z' || Digit(c) || c == '_'
  }

  predicate Digit(c: char) {
    '0' <= c <= '9'
  }

  /** A name in the sense of section 3.235 of the POSIX.1-2017 Base Definitions. */
  predicate ValidName(name: string) {
    name != [] && !Digit(name[0]) && NameChars(name)
  }

  predicate NameChars(s: string) {
    forall i | 0 <= i < |s| :: NameChar(s[i])
  }

  /** Splits the longest run of name characters off the front. */
  function ReadName(s: string): (string, string) {
    if s == [] || !NameChar(s[0]) then ([], s)
    else var (n, rest) := ReadName(s[1..]); ([s[0]] + n, rest)
  }

  /** Reads `export` lines until the end of the file. */
  function ReadExports(s: string): Option<seq<Export>>
    decreases |s|
  {
    if s == [] then Some([])
    else if !("export " <= s) then None
    else
      var (name, tail) := ReadName(s[7..]);
      NameShrinks(s[7..]);
      if !ValidName(name) || tail == [] || tail[0] != '=' then None
      else match ReadWord(tail[1..])
        case None => None
        case Some((value, rest)) =>
          WordShrinks(tail[1..]);
          if rest == [] || rest[0] != '\n' then None
          else match ReadExports(rest[1..])
            case None => None
            case Some(es) => Some([Export(name, value)] + es)
  }

  lemma {:induction false} NameShrinks(s: string)
    ensures |ReadName(s).1| <= |s|
  {
    if s != [] && NameChar(s[0]) {
      NameShrinks(s[1..]);
    }
  }

  lemma {:induction false} WordShrinks(s: string)
    ensures ReadWord(s).Some? ==> |ReadWord(s).value.1| <= |s|
    ensures ReadQuoted(s).Some? ==> |ReadQuoted(s).value.1| <= |s|
    decreases |s|
  {
    if s != [] {
      WordShrinks(s[1..]);
      if |s| >= 2 {
        WordShrinks(s[2..]);
      }
    }
  }

  lemma {:induction false} NameReads(name: string, rest: string)
    requires NameChars(name) && (rest == [] || !NameChar(rest[0]))
    ensures ReadName(name + rest) == (name, rest)
  {
    if name == [] {
      assert name + rest == rest;
    } else {
      NameReads(name[1..], rest);
      assert (name + rest)[1..] == name[1..] + rest && name == [name[0]] + name[1..];
    }
  }

  function PrintExports(es: seq<Export>): string {
    if es == [] then [] else ExportLine(es[0]) + PrintExports(es[1..])
  }

  lemma LineReads(e: Export, rest: string)
    requires ValidName(e.name)
    ensures ReadExports(ExportLine(e) + rest) ==
      match ReadExports(rest) case None => None case Some(es) => Some([e] + es)
  {
    hide ReadWord, Quote;
    var s := ExportLine(e) + rest;
    var tail := "=" + (Quote(e.value) + ("\n" + rest));
    assert s[7..] == e.name + tail;
    NameReads(e.name, tail);
    QuoteReads(e.value, "\n" + rest);
    assert tail[1..] == Quote(e.value) + ("\n" + rest);
    assert ("\n" + rest)[1..] == rest;
  }

  predicate ValidNames(es: seq<Export>) {
    forall i | 0 <= i < |es| :: ValidName(es[i].name)
  }

  lemma {:induction false} NamedFileReads(es: seq<Export>)
    requires ValidNames(es)
    ensures ReadExports(PrintExports(es)) == Some(es)
  {
    hide ReadWord, ExportLine;
    if es != [] {
      LineReads(es[0], PrintExports(es[1..]));
      NamedFileReads(es[1..]);
      assert es == [es[0]] + es[1..];
    }
  }

  /** A shell takes nothing but names for names. */
  lemma {:induction false} ReadsNames(s: string)
    ensures ReadExports(s).Some? ==> ValidNames(ReadExports(s).value)
    decreases |s|
  {
    hide ReadWord, ReadName, ValidName;
    if ReadExports(s).Some? && s != [] {
      NameShrinks(s[7..]);
      var tail := ReadName(s[7..]).1;
      WordShrinks(tail[1..]);
      ReadsNames(ReadWord(tail[1..]).value.1[1..]);
    }
  }

  /** The file reads back as exactly the variables and secrets written to it if, and only if, the names are names. */
  lemma FileReads(es: seq<Export>)
    ensures ReadExports(PrintExports(es)) == Some(es) <==> ValidNames(es)
  {
    hide ReadExports, PrintExports, ValidNames;
    ReadsNames(PrintExports(es));
    if ValidNames(es) {
      NamedFileReads(es);
    }
  }

  /** A variable that is no name to a shell spoils the file. */
  lemma BadNameLost(value: string)
    ensures var es := [Export("MY-VAR", value)]; ReadExports(PrintExports(es)) != Some(es)
  {
    hide ReadExports, PrintExports;
    var es := [Export("MY-VAR", value)];
    assert !NameChar(es[0].name[2]);
    assert !ValidName(es[0].name);
    FileReads(es);
  }

  // ---- Provisioning ----

  datatype Mechanism = EnvVar(name: string) | ConfigFile(path: string) | GitCredential

  datatype Credential = Credential(secret: string, inject: seq<Mechanism>)

  /** The variables one credential asks for. */
  function Asked(secret: string, inject: seq<Mechanism>): seq<Export> {
    if inject == [] then []
    else
      var last := inject[|inject| - 1];
      Asked(secret, inject[..|inject| - 1]) + (if last.EnvVar? then [Export(last.name, secret)] else [])
  }

  function AskedAll(cs: seq<Credential>): seq<Export> {
    if cs == [] then []
    else AskedAll(cs[..|cs| - 1]) + Asked(cs[|cs| - 1].secret, cs[|cs| - 1].inject)
  }

  lemma {:induction false} AskedOne(secret: string, inject: seq<Mechanism>, e: Export)
    ensures e in Asked(secret, inject) <==> e.value == secret && EnvVar(e.name) in inject
  {
    if inject != [] {
      var init, last := inject[..|inject| - 1], inject[|inject| - 1];
      AskedOne(secret, init, e);
      assert inject == init + [last];
    }
  }

  /** Asked for are exactly the secrets of the credentials, under the variables they are to be injected as. */
  lemma {:induction false} AskedExactly(cs: seq<Credential>, e: Export)
    ensures e in AskedAll(cs) <==> exists c | c in cs :: e.value == c.secret && EnvVar(e.name) in c.inject
  {
    if cs != [] {
      var init, last := cs[..|cs| - 1], cs[|cs| - 1];
      AskedExactly(init, e);
      AskedOne(last.secret, last.inject, e);
      assert cs == init + [last];
    }
  }

  lemma {:induction false} PrintAppend(es: seq<Export>, fs: seq<Export>)
    ensures PrintExports(es + fs) == PrintExports(es) + PrintExports(fs)
  {
    hide ExportLine;
    if es == [] {
      assert es + fs == fs;
    } else {
      PrintAppend(es[1..], fs);
      assert (es + fs)[1..] == es[1..] + fs && (es + fs)[0] == es[0];
      var line, a, b := ExportLine(es[0]), PrintExports(es[1..]), PrintExports(fs);
      assert line + (a + b) == (line + a) + b;
    }
  }

  lemma PrintOneMore(es: seq<Export>, e: Export)
    ensures PrintExports(es + [e]) == PrintExports(es) + ExportLine(e)
  {
    PrintAppend(es, [e]);
    assert PrintExports([e]) == ExportLine(e);
  }

  /** The lines of one credential: one for every variable it asks for. */
  method CredentialLines(soFar: string, secret: string, inject: seq<Mechanism>) returns (lines: string)
    ensures lines == soFar + PrintExports(Asked(secret, inject))
  {
    hide ExportLine;
    lines := soFar;
    for j := 0 to |inject|
      invariant lines == soFar + PrintExports(Asked(secret, inject[..j]))
    {
      ghost var asked := Asked(secret, inject[..j]);
      assert inject[..j + 1][..j] == inject[..j] && asked + [] == asked;
      match inject[j]
      case EnvVar(name) =>
        PrintOneMore(asked, Export(name, secret));
        lines := lines + ExportLine(Export(name, secret));
      case ConfigFile(_) =>
      case GitCredential =>
    }
    assert inject[..|inject|] == inject;
  }

  /** The environment lines of all credentials read back as what was asked for exactly if the names are names. */
  method EnvLines(cs: seq<Credential>) returns (lines: string)
    ensures lines == PrintExports(AskedAll(cs))
    ensures ReadExports(lines) == Some(AskedAll(cs)) <==> ValidNames(AskedAll(cs))
  {
    lines := "";
    assert lines == PrintExports([]);
    hide ExportLine, ReadExports, ValidName, PrintExports, Asked;
    for i := 0 to |cs|
      invariant lines == PrintExports(AskedAll(cs[..i]))
    {
      lines := CredentialLines(lines, cs[i].secret, cs[i].inject);
      PrintAppend(AskedAll(cs[..i]), Asked(cs[i].secret, cs[i].inject));
      assert cs[..i + 1][..i] == cs[..i];
    }
    assert cs[..|cs|] == cs;
    FileReads(AskedAll(cs));
  }
}
