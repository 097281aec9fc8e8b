/** The arguments that configure does not know are kept, quoted, in one string, and given to a
    project's own script by evaluating that string: the printer, the reading of its output by
    the rules for quoting of the shell, and what comes back. */
module Quoting {

  // ---- the shell

  const QUOTE := '\''
  const BACKSLASH := '\\'
  const NEWLINE := '\n'

  // What means something to the shell when not quoted, by section 2.2 of POSIX.1-2017 XCU,
  // apart from blanks, quotes and backslashes.
  predicate Special(c: char) {
    || c == '|' || c == '&' || c == ';' || c == '<' || c == '>' || c == '(' || c == ')' || c == '$' || c == '`'
    || c == '"' || c == '*' || c == '?' || c == '[' || c == '#' || c == '~' || c == '=' || c == '%' || c == NEWLINE
  }

  predicate Ordinary(c: char) {
    !Special(c) && c != ' ' && c != '\t' && c != QUOTE && c != BACKSLASH
  }

  datatype Option<T> = None | Some(value: T)

  // Bad: a syntax error, or a character whose special meaning is not part of this model.
  datatype Mode = Unquoted | InQuotes | Escaping | Bad

  // The words read so far, and the one being read.
  datatype Scan = Scan(done: seq<string>, word: Option<string>, mode: Mode) {
    function Append(t: string): Scan {
      this.(word := Some((if word.Some? then word.value else "") + t))
    }

    function EndWord(): Scan {
      if word.Some? then Scan(done + [word.value], None, mode) else this
    }
  }

  // One character, by sections 2.2.1, 2.2.2 and 2.3.
  function Feed(s: Scan, c: char): Scan {
    match s.mode
    case Bad => s
    case InQuotes => if c == QUOTE then s.(mode := Unquoted) else s.Append([c])
    case Escaping => if c == NEWLINE then s.(mode := Unquoted) else s.Append([c]).(mode := Unquoted)
    case Unquoted =>
      if c == ' ' || c == '\t' then s.EndWord()
      else if c == QUOTE then s.Append("").(mode := InQuotes)
      else if c == BACKSLASH then s.(mode := Escaping)
      else if Special(c) then s.(mode := Bad)
      else s.Append([c])
  }

  function Read(s: Scan, text: string): Scan
    decreases |text|
  {
    if text == [] then s else Read(Feed(s, text[0]), text[1..])
  }

  // The fields of a command line, if it is one that this model can read.
  function Fields(text: string): Option<seq<string>> {
    var s := Read(Scan([], None, Unquoted), text);
    if s.mode == Unquoted then Some(s.EndWord().done) else None
  }

  lemma {:induction false} ReadConcat(s: Scan, a: string, b: string)
    ensures Read(s, a + b) == Read(Read(s, a), b)
    decreases |a|
  {
    if a == [] {
      assert a + b == b;
    } else {
      assert (a + b)[1..] == a[1..] + b;
      ReadConcat(Feed(s, a[0]), a[1..], b);
    }
  }

  // ---- the printer

  // Every quote becomes '\'' (a substitution without newlines, so that lines do not matter).
  function Substituted(s: string): string {
    if s == [] then []
    else (if s[0] == QUOTE then [QUOTE, BACKSLASH, QUOTE, QUOTE] else [s[0]]) + Substituted(s[1..])
  }

  // Command substitution drops the newlines that its output ends with.
  function Stripped(s: string): string {
    if s != [] && s[|s| - 1] == NEWLINE then Stripped(s[..|s| - 1]) else s
  }

  function Quoted(arg: string): string {
    [QUOTE] + Stripped(Substituted(arg) + [NEWLINE]) + [QUOTE]
  }

  function Rendered(args: seq<string>): string {
    if args == [] then []
    else
      var before := args[..|args| - 1];
      Rendered(before) + (if before == [] then "" else " ") + Quoted(args[|args| - 1])
  }

  lemma RenderedSnoc(kept: seq<string>, arg: string)
    ensures Rendered(kept + [arg]) == Rendered(kept) + ((if kept == [] then "" else " ") + Quoted(arg))
  {
    assert (kept + [arg])[..|kept|] == kept;
  }

  lemma {:induction false} SubstitutedConcat(a: string, b: string)
    ensures Substituted(a + b) == Substituted(a) + Substituted(b)
    decreases |a|
  {
    if a == [] {
      assert a + b == b;
    } else {
      assert (a + b)[1..] == a[1..] + b;
      SubstitutedConcat(a[1..], b);
    }
  }

  // Stripping after the substitution is stripping before it.
  lemma {:induction false} StrippedSubstituted(arg: string)
    ensures Stripped(Substituted(arg)) == Substituted(Stripped(arg))
    decreases |arg|
  {
    if arg == [] {
    } else {
      var init, last := arg[..|arg| - 1], arg[|arg| - 1];
      assert arg == init + [last];
      SubstitutedConcat(init, [last]);
      assert Substituted([last]) == (if last == QUOTE then [QUOTE, BACKSLASH, QUOTE, QUOTE] else [last]);
      if last == NEWLINE {
        assert (Substituted(init) + [last])[..|Substituted(init)|] == Substituted(init);
        StrippedSubstituted(init);
      }
    }
  }

  lemma QuotedIs(arg: string)
    ensures Quoted(arg) == [QUOTE] + Substituted(Stripped(arg)) + [QUOTE]
  {
    var t := Substituted(arg) + [NEWLINE];
    assert t[..|t| - 1] == Substituted(arg);
    StrippedSubstituted(arg);
  }

  // ---- reading what was printed

  lemma ReadOne(s: Scan, c: char)
    ensures Read(s, [c]) == Feed(s, c)
  {
    assert [c][1..] == [];
  }

  lemma ReadQuote(s: Scan)
    requires s.mode == InQuotes && s.word.Some?
    ensures Read(s, [QUOTE, BACKSLASH, QUOTE, QUOTE]) == s.Append([QUOTE])
  {
    var a := s.(mode := Unquoted);
    assert [QUOTE, BACKSLASH, QUOTE, QUOTE][1..] == [BACKSLASH, QUOTE, QUOTE];
    assert [BACKSLASH, QUOTE, QUOTE][1..] == [QUOTE, QUOTE];
    assert [QUOTE, QUOTE][1..] == [QUOTE];
    assert Read(s, [QUOTE, BACKSLASH, QUOTE, QUOTE]) == Read(a, [BACKSLASH, QUOTE, QUOTE]);
    var b := a.(mode := Escaping);
    assert Read(a, [BACKSLASH, QUOTE, QUOTE]) == Read(b, [QUOTE, QUOTE]);
    var c := a.Append([QUOTE]);
    assert Feed(b, QUOTE) == c;
    ReadOne(c, QUOTE);
    assert c.word.value + "" == c.word.value;
  }

  lemma {:induction false} ReadSubstituted(s: Scan, arg: string)
    requires s.mode == InQuotes && s.word.Some?
    ensures Read(s, Substituted(arg)) == s.Append(arg)
    decreases |arg|
  {
    if arg == [] {
      assert s.word.value + [] == s.word.value;
    } else {
      var first := if arg[0] == QUOTE then [QUOTE, BACKSLASH, QUOTE, QUOTE] else [arg[0]];
      ReadConcat(s, first, Substituted(arg[1..]));
      if arg[0] == QUOTE {
        ReadQuote(s);
      } else {
        ReadOne(s, arg[0]);
      }
      assert s.word.value + [arg[0]] + arg[1..] == s.word.value + arg;
      ReadSubstituted(s.Append([arg[0]]), arg[1..]);
    }
  }

  lemma ReadQuoted(s: Scan, arg: string)
    requires s.mode == Unquoted && s.word.None?
    ensures Read(s, Quoted(arg)) == Scan(s.done, Some(Stripped(arg)), Unquoted)
  {
    hide Feed, Substituted, Stripped, Quoted;
    QuotedIs(arg);
    var body := Substituted(Stripped(arg));
    var a := s.Append("").(mode := InQuotes);
    var b := a.Append(Stripped(arg));
    ReadConcat(s, [QUOTE] + body, [QUOTE]);
    ReadConcat(s, [QUOTE], body);
    ReadOne(s, QUOTE);
    FeedQuote(s);
    ReadSubstituted(a, Stripped(arg));
    ReadOne(b, QUOTE);
    FeedQuote(b);
    assert "" + Stripped(arg) == Stripped(arg);
  }

  lemma FeedQuote(s: Scan)
    requires s.mode == Unquoted || s.mode == InQuotes
    ensures Feed(s, QUOTE) == if s.mode == Unquoted then s.Append("").(mode := InQuotes) else s.(mode := Unquoted)
  {}

  // What the script gets of the arguments that were kept.
  function Delivered(args: seq<string>): seq<string> {
    seq(|args|, i requires 0 <= i < |args| => Stripped(args[i]))
  }

  lemma ReadNext(s: Scan, arg: string)
    requires s.mode == Unquoted
    ensures Read(s, (if s.word.None? then "" else " ") + Quoted(arg))
         == Scan(s.EndWord().done, Some(Stripped(arg)), Unquoted)
  {
    hide Stripped, Quoted;
    if s.word.None? {
      assert "" + Quoted(arg) == Quoted(arg);
      ReadQuoted(s, arg);
    } else {
      ReadConcat(s, " ", Quoted(arg));
      ReadOne(s, ' ');
      ReadQuoted(s.EndWord(), arg);
    }
  }

  lemma DeliveredSnoc(before: seq<string>, last: string)
    ensures Delivered(before + [last]) == Delivered(before) + [Stripped(last)]
  {}

  lemma EndedSnoc(done: seq<string>, before: seq<string>, word: string)
    ensures Scan(done + before, Some(word), Unquoted).EndWord() == Scan(done + (before + [word]), None, Unquoted)
  {}

  // One more argument, behind text that was read to the end of `done`.
  lemma ReadSnoc(s: Scan, before: seq<string>, last: string)
    requires Read(s, Rendered(before)).mode == Unquoted
    requires Read(s, Rendered(before)).word.Some? <==> before != []
    ensures Read(s, Rendered(before + [last]))
         == Scan(Read(s, Rendered(before)).EndWord().done, Some(Stripped(last)), Unquoted)
  {
    hide Feed, Read, Quoted, Stripped, Rendered;
    RenderedSnoc(before, last);
    ReadConcat(s, Rendered(before), (if before == [] then "" else " ") + Quoted(last));
    ReadNext(Read(s, Rendered(before)), last);
  }

  lemma {:induction false} ReadRendered(s: Scan, args: seq<string>)
    requires s.mode == Unquoted && s.word.None?
    ensures var r := Read(s, Rendered(args));
            && r.mode == Unquoted && (r.word.Some? <==> args != [])
            && r.EndWord() == Scan(s.done + Delivered(args), None, Unquoted)
    decreases |args|
  {
    if args == [] {
      assert Delivered(args) == [];
    } else {
      hide Feed, Read, Quoted, Stripped, Rendered, Delivered, Scan.EndWord;
      var before, last := args[..|args| - 1], args[|args| - 1];
      assert args == before + [last];
      ReadRendered(s, before);
      ReadSnoc(s, before, last);
      DeliveredSnoc(before, last);
      EndedSnoc(s.done, Delivered(before), Stripped(last));
    }
  }

  // The evaluated line: the name of the function, a space, the string.
  const COMMAND := "config_custom_cfgdefs"

  function Line(text: string): string {
    COMMAND + " " + text
  }

  lemma {:induction false} ReadPlain(s: Scan, text: string)
    requires s.mode == Unquoted && s.word.Some?
    requires forall i :: 0 <= i < |text| ==> Ordinary(text[i])
    ensures Read(s, text) == s.Append(text)
    decreases |text|
  {
    if text == [] {
      assert s.word.value + text == s.word.value;
    } else {
      assert Ordinary(text[0]);
      ReadPlain(s.Append([text[0]]), text[1..]);
      assert s.word.value + [text[0]] + text[1..] == s.word.value + text;
    }
  }

  lemma ReadCommand()
    ensures Read(Scan([], None, Unquoted), COMMAND + " ") == Scan([COMMAND], None, Unquoted)
  {
    assert forall i :: 0 <= i < |COMMAND| ==> Ordinary(COMMAND[i]);
    ReadName(COMMAND);
  }

  lemma ReadName(name: string)
    requires name != [] && forall i :: 0 <= i < |name| ==> Ordinary(name[i])
    ensures Read(Scan([], None, Unquoted), name + " ") == Scan([name], None, Unquoted)
  {
    var s := Scan([], None, Unquoted);
    var first, rest := [name[0]], name[1..];
    assert name == first + rest && "" + first == first;
    ReadConcat(s, name, " ");
    ReadConcat(s, first, rest);
    ReadOne(s, name[0]);
    assert Ordinary(name[0]);
    ReadPlain(s.Append(first), rest);
    ReadOne(Scan([], Some(name), Unquoted), ' ');
    assert [] + [name] == [name];
  }

  // Whatever the arguments hold, each arrives as one field, in order, and short of nothing
  // but the newlines it ended with.
  lemma LineReadsBack(args: seq<string>)
    ensures Fields(Line(Rendered(args))) == Some([COMMAND] + Delivered(args))
  {
    hide Feed, Rendered;
    var s := Scan([], None, Unquoted);
    ReadCommand();
    ReadConcat(s, COMMAND + " ", Rendered(args));
    ReadRendered(Scan([COMMAND], None, Unquoted), args);
  }

  predicate EndsInNewline(s: string) {
    s != [] && s[|s| - 1] == NEWLINE
  }

  // What stripping leaves is the text up to the newlines at its end, and nothing else goes.
  lemma {:induction false} StrippedIs(s: string)
    ensures Stripped(s) <= s && !EndsInNewline(Stripped(s))
    ensures forall i :: |Stripped(s)| <= i < |s| ==> s[i] == NEWLINE
    decreases |s|
  {
    if EndsInNewline(s) {
      StrippedIs(s[..|s| - 1]);
    }
  }

  lemma DeliveredExactIff(args: seq<string>)
    ensures Delivered(args) == args <==> forall a :: a in args ==> !EndsInNewline(a)
  {
    hide Stripped, EndsInNewline;
    forall i | 0 <= i < |args|
      ensures Delivered(args)[i] == args[i] <==> !EndsInNewline(args[i])
    {
      StrippedKeepsIff(args[i]);
    }
    if forall a :: a in args ==> !EndsInNewline(a) {
      assert Delivered(args) == args;
    }
  }

  lemma StrippedKeepsIff(s: string)
    ensures Stripped(s) == s <==> !EndsInNewline(s)
  {
    StrippedIs(s);
  }

  lemma LineExactIff(args: seq<string>)
    ensures Fields(Line(Rendered(args))) == Some([COMMAND] + args)
       <==> forall a :: a in args ==> !EndsInNewline(a)
  {
    hide Fields, Line, Rendered, Delivered, EndsInNewline;
    LineReadsBack(args);
    DeliveredExactIff(args);
    assert ([COMMAND] + args)[1..] == args && ([COMMAND] + Delivered(args))[1..] == Delivered(args);
  }

  // A newline at the end of an argument does not arrive.
  lemma TrailingNewlineIsLost()
    ensures Fields(Line(Rendered(["a\n"]))) == Some([COMMAND, "a"]) != Some([COMMAND, "a\n"])
  {
    LineReadsBack(["a\n"]);
    hide Fields, Line, Rendered;
    assert "a\n"[..1] == "a";
    assert Delivered(["a\n"]) == ["a"];
    assert [COMMAND] + ["a"] == [COMMAND, "a"];
    assert [COMMAND, "a"][1] != [COMMAND, "a\n"][1];
  }

  // ---- the same, character by character

  // What the reader does between two single quotes, behind a backslash, and with an unquoted
  // character that means something else.
  lemma {:induction false} ReadLiterally(s: Scan, t: string)
    requires s.mode == InQuotes && s.word.Some? && '\'' !in t
    ensures Read(s, t) == s.Append(t)
    decreases |t|
  {
    if t == [] {
      assert s.word.value + t == s.word.value;
    } else {
      ReadLiterally(s.Append([t[0]]), t[1..]);
      assert s.word.value + [t[0]] + t[1..] == s.word.value + t;
    }
  }

  lemma SingleQuotesAreLiteral(t: string)
    requires '\'' !in t
    ensures Fields("'" + t + "'") == Some([t])
  {
    var s := Scan([], None, Unquoted);
    var a := Scan([], Some(""), InQuotes);
    ReadConcat(s, "'" + t, "'");
    ReadConcat(s, "'", t);
    ReadOne(s, '\'');
    assert Read(s, "'") == a;
    ReadLiterally(a, t);
    assert "" + t == t && [] + [t] == [t];
    ReadOne(a.Append(t), '\'');
  }

  lemma BackslashIsLiteral(c: char)
    requires c != '\n'
    ensures Fields(['\\', c]) == Some([[c]])
  {
    var s := Scan([], None, Unquoted);
    assert ['\\', c][1..] == [c] && [c][1..] == [];
    assert Read(s, ['\\', c]) == Read(s.(mode := Escaping), [c]);
    ReadOne(s.(mode := Escaping), c);
    assert "" + [c] == [c] && [] + [[c]] == [[c]];
  }

  lemma DollarIsNotLiteral(t: string)
    ensures Fields("$" + t).None?
  {
    var s := Scan([], None, Unquoted);
    ReadConcat(s, "$", t);
    ReadOne(s, '$');
    BadStays(Read(s, "$"), t);
  }

  lemma {:induction false} BadStays(s: Scan, t: string)
    requires s.mode == Bad
    ensures Read(s, t) == s
    decreases |t|
  {
    if t != [] {
      BadStays(s, t[1..]);
    }
  }

  lemma {:induction false} SubstitutedPlain(arg: string)
    requires '\'' !in arg
    ensures Substituted(arg) == arg
    decreases |arg|
  {
    if arg != [] {
      SubstitutedPlain(arg[1..]);
    }
  }

  /** How an argument is written: one without a single quote and without a newline at its end
      between single quotes, and a single quote as four characters. */
  lemma QuotedPlain(arg: string)
    requires '\'' !in arg && (arg != "" ==> arg[|arg| - 1] != '\n')
    ensures Quoted(arg) == "'" + arg + "'" && Rendered([arg]) == "'" + arg + "'"
  {
    QuotedIs(arg);
    SubstitutedPlain(arg);
    assert [arg][..0] == [] && Rendered([]) + "" == "";
    assert "" + Quoted(arg) == Quoted(arg);
  }

  lemma QuotedQuote()
    ensures Quoted("'") == "''\\'''"
  {
    QuotedIs("'");
    assert "'"[1..] == "" && Substituted("") == "";
    assert Substituted("'") == "'\\''";
  }

  // ---- the loop over configure's arguments

  datatype Outcome = Kept(text: string) | Unsupported(arg: string)

  function Unknown(args: seq<string>, known: string -> bool): seq<string> {
    if args == [] then []
    else
      var before, last := args[..|args| - 1], args[|args| - 1];
      Unknown(before, known) + (if known(last) then [] else [last])
  }

  /** The unknown arguments: in order, each as often as it was given, and no known one. */
  lemma {:induction false} UnknownConcat(a: seq<string>, b: seq<string>, known: string -> bool)
    ensures Unknown(a + b, known) == Unknown(a, known) + Unknown(b, known)
    decreases |b|
  {
    if b == [] {
      assert a + b == a;
    } else {
      var before := b[..|b| - 1];
      UnknownConcat(a, before, known);
      assert (a + b)[..|a + b| - 1] == a + before && (a + b)[|a + b| - 1] == b[|b| - 1];
    }
  }

  lemma UnknownOne(arg: string, known: string -> bool)
    ensures Unknown([arg], known) == if known(arg) then [] else [arg]
  {
    assert [arg][..0] == [];
  }

  lemma UnknownNone(known: string -> bool)
    ensures Unknown([], known) == []
  {}

  lemma UnknownNext(args: seq<string>, known: string -> bool, i: nat)
    requires i < |args|
    ensures Unknown(args[..i + 1], known)
         == if known(args[i]) then Unknown(args[..i], known) else Unknown(args[..i], known) + [args[i]]
  {
    assert args[..i + 1][..i] == args[..i];
  }

  lemma RenderedNone()
    ensures Rendered([]) == ""
  {}

  // `known`: the arguments that another branch of the case statement takes.
  method Collect(args: seq<string>, known: string -> bool, useCustomCfgdefs: bool) returns (r: Outcome)
    ensures r.Kept? <==> useCustomCfgdefs || Unknown(args, known) == []
    ensures r.Kept? ==> Fields(Line(r.text)) == Some([COMMAND] + Delivered(Unknown(args, known)))
    ensures r.Kept? ==> r.text == Rendered(Unknown(args, known))
    ensures r.Unsupported? ==> Unknown(args, known)[0] == r.arg
  {
    hide Rendered, Fields, Quoted, Unknown, Delivered, Line;
    RenderedNone();
    UnknownNone(known);
    var customArgs, space := "", "";
    var i := 0;
    while i < |args|
      invariant 0 <= i <= |args|
      invariant customArgs == Rendered(Unknown(args[..i], known))
      invariant space == if Unknown(args[..i], known) == [] then "" else " "
      invariant useCustomCfgdefs || Unknown(args[..i], known) == []
    {
      ghost var kept := Unknown(args[..i], known);
      UnknownNext(args, known, i);
      if !known(args[i]) {
        if useCustomCfgdefs {
          RenderedSnoc(kept, args[i]);
          var escaped := Quoted(args[i]);
          escaped := space + escaped;
          customArgs := customArgs + escaped;
          space := " ";
        } else {
          UnknownPrefix(args, known, i + 1);
          return Unsupported(args[i]);
        }
      }
      i := i + 1;
    }
    assert args[..i] == args;
    LineReadsBack(Unknown(args, known));
    return Kept(customArgs);
  }

  lemma {:induction false} UnknownPrefix(args: seq<string>, known: string -> bool, i: nat)
    requires i <= |args|
    ensures Unknown(args[..i], known) <= Unknown(args, known)
    decreases |args|
  {
    if i == |args| {
      assert args[..i] == args;
    } else {
      assert args[..|args| - 1][..i] == args[..i];
      UnknownPrefix(args[..|args| - 1], known, i);
    }
  }
}
