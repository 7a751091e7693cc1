/** The remote command line of the SSH bridge (apps/email_agent/client/ssh_bridge.py),
    read back by the token and quoting rules of sections 2.2.1, 2.2.2 and 2.3 of the
    POSIX.1-2017 Shell Command Language. */
module ShellQuoting {
  import opened Wrappers

  /******* Building the command *******/

  // a.replace("'", "'\\''")
  function Escaped(a: string): string {
    if a == "" then ""
    else (if a[0] == '\'' then "'\\''" else [a[0]]) + Escaped(a[1..])
  }

  function Joined(parts: seq<string>): string {
    if parts == [] then ""
    else if |parts| == 1 then parts[0]
    else Joined(parts[..|parts| - 1]) + " " + parts[|parts| - 1]
  }

  const PREFIX := "/opt/nexus-mail-admin/"

  function Parts(script: string, args: seq<string>): seq<string> {
    ["sudo " + (PREFIX + script)] + seq(|args|, i requires 0 <= i < |args| => "'" + Escaped(args[i]) + "'")
  }

  method BuildCommand(script: string, args: seq<string>) returns (cmd: string)
    ensures cmd == Joined(Parts(script, args))
  {
    var parts := ["sudo " + (PREFIX + script)];
    for i := 0 to |args|
      invariant parts == Parts(script, args[..i])
    {
      parts := parts + ["'" + Escaped(args[i]) + "'"];
    }
    assert args[..|args|] == args;
    cmd := Joined(parts);
  }

  /******* Reading it back *******/

  // Where the reader is: between tokens, in a token outside quotes, in a token between
  // single quotes.
  datatype Mode = Gap | Bare(word: string) | Single(word: string)

  // Unquoted, these have a meaning of their own or may have one; the reader gives up.
  predicate Special(c: char) {
    c in "\n|&;<>()$`\"*?[#~=%!{}"
  }

  predicate Blank(c: char) {
    c == ' ' || c == '\t'
  }

  // The words of the rest of a command, or None if it is not made of plain words and
  // quoting alone, or a quotation is not closed.
  function Tokens(s: string, mode: Mode): Option<seq<string>>
    decreases |s|
  {
    if s == "" then
      match mode
      case Gap => Some([])
      case Bare(w) => Some([w])
      case Single(_) => None
    else
      var c, rest := s[0], s[1..];
      if mode.Single? then
        if c == '\'' then Tokens(rest, Bare(mode.word)) else Tokens(rest, Single(mode.word + [c]))
      else
        var word := if mode.Gap? then "" else mode.word;
        if Blank(c) then
          match mode
          case Gap => Tokens(rest, Gap)
          case Bare(w) =>
            match Tokens(rest, Gap)
            case None => None
            case Some(words) => Some([w] + words)
        else if c == '\'' then Tokens(rest, Single(word))
        else if c == '\\' then
          if rest == "" then None
          else if rest[0] == '\n' then Tokens(rest[1..], mode)
          else Tokens(rest[1..], Bare(word + [rest[0]]))
        else if Special(c) then None
        else Tokens(rest, Bare(word + [c]))
  }

  /******* Round trip *******/

  predicate Plain(s: string) {
    forall i :: 0 <= i < |s| ==> s[i] != '\'' && s[i] != '\\' && !Blank(s[i]) && !Special(s[i])
  }

  lemma {:induction false} PlainRun(p: string, rest: string, w: string)
    requires Plain(p)
    ensures Tokens(p + rest, Bare(w)) == Tokens(rest, Bare(w + p))
    decreases |p|
  {
    if p == "" {
      assert p + rest == rest && w + p == w;
    } else {
      assert (p + rest)[1..] == p[1..] + rest && (p + rest)[0] == p[0];
      assert w + p == (w + [p[0]]) + p[1..];
      PlainRun(p[1..], rest, w + [p[0]]);
    }
  }

  // An escaped argument inside quotes reads as the argument.
  lemma {:induction false} QuotedRun(a: string, rest: string, w: string)
    ensures Tokens(Escaped(a) + "'" + rest, Single(w)) == Tokens(rest, Bare(w + a))
    decreases |a|
  {
    if a == "" {
      assert Escaped(a) + "'" + rest == "'" + rest;
      assert ("'" + rest)[1..] == rest && w + a == w;
    } else {
      var tail := Escaped(a[1..]) + "'" + rest;
      assert w + a == (w + [a[0]]) + a[1..];
      QuotedRun(a[1..], rest, w + [a[0]]);
      if a[0] == '\'' {
        var s := "'\\''" + tail;
        assert Escaped(a) + "'" + rest == s;
        assert s[0] == '\'' && s[1..][0] == '\\' && s[1..][1..][0] == '\'' && s[1..][1..][1..][0] == '\'';
        assert s[1..][1..][1..][1..] == tail;
        assert Tokens(s, Single(w)) == Tokens(s[1..], Bare(w));
        assert Tokens(s[1..], Bare(w)) == Tokens(s[1..][1..][1..], Bare(w + ['\'']));
      } else {
        assert Escaped(a) + "'" + rest == [a[0]] + tail;
        assert ([a[0]] + tail)[1..] == tail;
      }
    }
  }

  // The quoted arguments, each after a space.
  function Tail(args: seq<string>): string {
    if args == [] then "" else " '" + Escaped(args[0]) + "'" + Tail(args[1..])
  }

  lemma {:induction false} JoinedIs(script: string, args: seq<string>)
    ensures Joined(Parts(script, args)) == Parts(script, [])[0] + Tail(args)
  {
    var parts := Parts(script, args);
    if args == [] {
      assert parts == Parts(script, []);
      assert parts[0] + "" == parts[0];
    } else {
      var n := |args| - 1;
      assert parts[..|parts| - 1] == Parts(script, args[..n]);
      JoinedIs(script, args[..n]);
      TailAppend(args[..n], args[n]);
      assert args == args[..n] + [args[n]];
      Quoted(args[n]);
    }
  }

  lemma {:induction false} Quoted(a: string)
    ensures " '" + Escaped(a) + "'" == " " + ("'" + Escaped(a) + "'")
  {
  }

  lemma {:induction false} TailAppend(args: seq<string>, a: string)
    ensures Tail(args + [a]) == Tail(args) + (" '" + Escaped(a) + "'")
  {
    if args == [] {
      assert ([a])[1..] == [];
      assert Tail([a]) == " '" + Escaped(a) + "'" + "";
    } else {
      assert (args + [a])[1..] == args[1..] + [a];
      TailAppend(args[1..], a);
    }
  }

  lemma {:induction false} TailTokens(args: seq<string>, w: string)
    ensures Tokens(Tail(args), Bare(w)) == Some([w] + args)
  {
    if args == [] {
      assert [w] + args == [w];
    } else {
      var rest := Tail(args[1..]);
      var quoted := Escaped(args[0]) + "'" + rest;
      assert Tail(args) == [' ', '\''] + quoted;
      assert Tail(args)[1..] == ['\''] + quoted && (['\''] + quoted)[1..] == quoted;
      assert Tokens(['\''] + quoted, Gap) == Tokens(quoted, Single(""));
      QuotedRun(args[0], rest, "");
      assert "" + args[0] == args[0];
      TailTokens(args[1..], args[0]);
      assert [args[0]] + args[1..] == args;
    }
  }

  // The first part is read as `sudo` and the script's path, whatever follows it.
  lemma {:induction false} SudoTokens(script: string, tail: string)
    requires Plain(script)
    ensures var rest := Tokens(tail, Bare(PREFIX + script));
            Tokens(Parts(script, [])[0] + tail, Gap)
            == (if rest.None? then None else Some(["sudo"] + rest.value))
  {
    var path := PREFIX + script;
    PlainPath(script);
    Parenthesised(path, tail);
    WordTokens("sudo", [' '] + (path + tail));
    SpaceEndsWord("sudo", path + tail);
    WordTokens(path, tail);
  }

  lemma {:induction false} PlainPath(script: string)
    requires Plain(script)
    ensures Plain("sudo") && Plain(PREFIX + script)
  {
    PlainPrefix();
    var path := PREFIX + script;
    assert forall i :: |PREFIX| <= i < |path| ==> path[i] == script[i - |PREFIX|];
  }

  predicate Lower(c: char) {
    'a' <= c <= 'z' || c == '/' || c == '-'
  }

  lemma {:induction false} LowerIsPlain(s: string)
    requires forall i :: 0 <= i < |s| ==> Lower(s[i])
    ensures Plain(s)
  {
    assert forall c :: Lower(c) ==> c != '\'' && c != '\\' && !Blank(c) && !Special(c);
  }

  lemma {:induction false} PlainPrefix()
    ensures Plain("sudo") && Plain(PREFIX)
  {
    LowerIsPlain("sudo");
    LowerIsPlain(PREFIX);
  }

  lemma {:induction false} Parenthesised(path: string, tail: string)
    ensures ("sudo " + path) + tail == "sudo" + ([' '] + (path + tail))
  {
  }

  lemma {:induction false} SpaceEndsWord(w: string, s: string)
    ensures var rest := Tokens(s, Gap);
            Tokens([' '] + s, Bare(w)) == (if rest.None? then None else Some([w] + rest.value))
  {
    assert ([' '] + s)[1..] == s;
  }

  lemma {:induction false} WordTokens(path: string, tail: string)
    requires Plain(path) && path != ""
    ensures Tokens(path + tail, Gap) == Tokens(tail, Bare(path))
  {
    assert (path + tail)[0] == path[0] && (path + tail)[1..] == path[1..] + tail;
    assert "" + [path[0]] == [path[0]];
    PlainRun(path[1..], tail, [path[0]]);
    assert [path[0]] + path[1..] == path;
  }

  // For a plain script name and any arguments that a command line can carry, which is to say
  // NUL-free ones (empty ones, quotes, backslashes, newlines and every shell metacharacter
  // included; the proof does not look for NUL), the shell reads exactly `sudo`, the
  // script's path, and the arguments.
  lemma {:induction false} CommandRoundTrip(script: string, args: seq<string>)
    requires Plain(script)
    ensures Tokens(Joined(Parts(script, args)), Gap) == Some(["sudo", PREFIX + script] + args)
  {
    JoinedIs(script, args);
    SudoTokens(script, Tail(args));
    TailTokens(args, PREFIX + script);
    assert ["sudo"] + ([PREFIX + script] + args) == ["sudo", PREFIX + script] + args;
  }

  // So no two argument lists ever give the same command line.
  lemma {:induction false} CommandsAreDistinct(script: string, args: seq<string>, other: seq<string>)
    requires Plain(script) && Joined(Parts(script, args)) == Joined(Parts(script, other))
    ensures args == other
  {
    CommandRoundTrip(script, args);
    CommandRoundTrip(script, other);
    var head := ["sudo", PREFIX + script];
    assert (head + args)[2..] == args && (head + other)[2..] == other;
  }

  // With the path in full.
  lemma {:induction false} CommandReads(script: string, args: seq<string>)
    requires Plain(script)
    ensures Tokens(Joined(Parts(script, args)), Gap) == Some(["sudo", "/opt/nexus-mail-admin/" + script] + args)
  {
    CommandRoundTrip(script, args);
  }
}
