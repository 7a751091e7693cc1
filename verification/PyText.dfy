/** The Python string operations the listing parser uses. */
module PyText {
  import opened Wrappers

  // str.isspace
  predicate Space(c: char) {
    var n := c as int;
    9 <= n <= 13 || 28 <= n <= 32 || n in {0x85, 0xA0, 0x1680, 0x2028, 0x2029, 0x202F, 0x205F, 0x3000}
    || 0x2000 <= n <= 0x200A
  }

  // Where str.splitlines breaks.
  predicate Break(c: char) {
    var n := c as int;
    10 <= n <= 13 || 28 <= n <= 30 || n in {0x85, 0x2028, 0x2029}
  }

  predicate Unbroken(s: string) {
    forall i :: 0 <= i < |s| ==> !Break(s[i])
  }

  // str.splitlines
  function Lines(s: string): seq<string>
    decreases |s|
  {
    if s == "" then []
    else
      var n := LineEnd(s);
      if n == |s| then [s]
      else [s[..n]] + Lines(s[n + (if s[n] == '\r' && n + 1 < |s| && s[n + 1] == '\n' then 2 else 1)..])
  }

  function LineEnd(s: string): (n: nat)
    ensures n <= |s| && (n < |s| ==> Break(s[n]))
    ensures forall i :: 0 <= i < n ==> !Break(s[i])
  {
    if s == "" || Break(s[0]) then 0 else 1 + LineEnd(s[1..])
  }

  function LeftStripped(s: string): string {
    if s != "" && Space(s[0]) then LeftStripped(s[1..]) else s
  }

  function RightStripped(s: string): string {
    if s != "" && Space(s[|s| - 1]) then RightStripped(s[..|s| - 1]) else s
  }

  // str.strip
  function Strip(s: string): string {
    RightStripped(LeftStripped(s))
  }

  predicate Word(s: string) {
    s != "" && forall i :: 0 <= i < |s| ==> !Space(s[i])
  }

  function WordEnd(s: string): (n: nat)
    ensures n <= |s|
    ensures forall i :: 0 <= i < n ==> !Space(s[i])
    ensures n < |s| ==> Space(s[n])
  {
    if s == "" || Space(s[0]) then 0 else 1 + WordEnd(s[1..])
  }

  // str.split with no separator
  function Words(s: string): (words: seq<string>)
    ensures forall i :: 0 <= i < |words| ==> Word(words[i])
    decreases |s|
  {
    if s == "" then []
    else if Space(s[0]) then Words(s[1..])
    else [s[..WordEnd(s)]] + Words(s[WordEnd(s)..])
  }

  // line.split(":", 1)[1], for a line with a colon
  function AfterColon(line: string): string {
    if line == "" then ""
    else if line[0] == ':' then line[1..]
    else AfterColon(line[1..])
  }

  predicate Digit(c: char) { '0' <= c <= '9' }

  // Decimal digits, single underscores allowed between two of them.
  function Digits(s: string, value: nat, afterDigit: bool): Option<nat>
    decreases |s|
  {
    if s == "" then if afterDigit then Some(value) else None
    else if Digit(s[0]) then Digits(s[1..], value * 10 + (s[0] as int - '0' as int), true)
    else if s[0] == '_' && afterDigit then Digits(s[1..], value, false)
    else None
  }

  // int(s), None where it raises
  function Int(s: string): Option<int> {
    var t := Strip(s);
    if t != "" && t[0] == '-' then
      var r := Digits(t[1..], 0, false);
      if r.Some? then Some(0 - r.value) else None
    else
      var r := Digits(if t != "" && t[0] == '+' then t[1..] else t, 0, false);
      if r.Some? then Some(r.value) else None
  }

  // str(n)
  function Decimal(n: nat): (s: string)
    ensures Word(s)
    ensures forall i :: 0 <= i < |s| ==> Digit(s[i])
  {
    var last := ['0' + (n % 10) as char];
    if n < 10 then last else Decimal(n / 10) + last
  }

  // s[i:j]
  function Slice<T>(s: seq<T>, i: int, j: int): seq<T> {
    var from, upto := Index(i, |s|), Index(j, |s|);
    if from <= upto then s[from..upto] else []
  }

  function Index(i: int, n: nat): (k: nat)
    ensures k <= n
  {
    if i < 0 then (if n + i < 0 then 0 else n + i) else if i > n then n else i
  }

  /******* Laws *******/

  lemma {:induction false} LineEndsAt(s: string, n: nat)
    requires n < |s| && Break(s[n]) && forall i :: 0 <= i < n ==> !Break(s[i])
    ensures LineEnd(s) == n
  {
    assert !(n < LineEnd(s)) && !(LineEnd(s) < n);
  }

  lemma {:induction false} LineRead(line: string, rest: string)
    requires Unbroken(line)
    ensures Lines(line + "\n" + rest) == [line] + Lines(rest)
  {
    var n := |line|;
    var s := line + "\n" + rest;
    assert s[..n] == line && s[n] == '\n' && s[n + 1..] == rest;
    assert forall i :: 0 <= i < n ==> s[i] == line[i];
    LineEndsAt(s, n);
  }

  function Unlines(lines: seq<string>): string {
    if lines == [] then "" else lines[0] + "\n" + Unlines(lines[1..])
  }

  lemma {:induction false} Regroup<T>(a: seq<T>, b: seq<T>, c: seq<T>)
    ensures (a + b) + c == a + (b + c)
  {
  }

  lemma {:induction false} LinesRead(lines: seq<string>, rest: string)
    requires forall i :: 0 <= i < |lines| ==> Unbroken(lines[i])
    ensures Lines(Unlines(lines) + rest) == lines + Lines(rest)
  {
    if lines == [] {
      assert Unlines(lines) + rest == rest;
    } else {
      var head, tail := lines[0], lines[1..];
      LinesRead(tail, rest);
      Regroup(head + "\n", Unlines(tail), rest);
      LineRead(head, Unlines(tail) + rest);
      Regroup([head], tail, Lines(rest));
      assert [head] + tail == lines;
    }
  }

  // One blank before it does not matter to strip.
  lemma {:induction false} StripAfterBlank(s: string)
    ensures Strip(" " + s) == Strip(s)
  {
    assert (" " + s)[1..] == s;
  }

  lemma {:induction false} StripNothing(s: string)
    requires s != "" ==> !Space(s[0]) && !Space(s[|s| - 1])
    ensures Strip(s) == s
  {
  }

  lemma {:induction false} AfterLabel(name: string, rest: string)
    requires ':' !in name
    ensures AfterColon(name + ":" + rest) == rest
  {
    if name == "" {
      assert (name + ":" + rest)[0] == ':' && (name + ":" + rest)[1..] == rest;
    } else {
      assert (name + ":" + rest)[0] == name[0] && (name + ":" + rest)[1..] == name[1..] + ":" + rest;
      AfterLabel(name[1..], rest);
    }
  }

  function Spaced(words: seq<string>): string {
    if words == [] then "" else if |words| == 1 then words[0] else words[0] + " " + Spaced(words[1..])
  }

  lemma {:induction false} WordThen(w: string, rest: string)
    requires Word(w) && (rest != "" ==> Space(rest[0]))
    ensures Words(w + rest) == [w] + Words(rest)
  {
    var s := w + rest;
    var n := WordEnd(s);
    assert s[0] == w[0];
    assert n >= |w|;
    assert rest != "" ==> s[|w|] == rest[0];
    assert s[..n] == w && s[n..] == rest;
  }

  lemma {:induction false} WordsOfSpaced(words: seq<string>)
    requires forall i :: 0 <= i < |words| ==> Word(words[i])
    ensures Words(Spaced(words)) == words && Strip(Spaced(words)) == Spaced(words)
  {
    SpacedEnds(words);
    StripNothing(Spaced(words));
    if |words| == 1 {
      WordThen(words[0], "");
      assert words[0] + "" == words[0];
    } else if |words| > 1 {
      var rest := " " + Spaced(words[1..]);
      assert Spaced(words) == words[0] + rest && rest[1..] == Spaced(words[1..]);
      WordThen(words[0], rest);
      WordsOfSpaced(words[1..]);
    }
  }

  lemma {:induction false} SpacedEnds(words: seq<string>)
    requires forall i :: 0 <= i < |words| ==> Word(words[i])
    ensures var s := Spaced(words); s == "" <==> words == []
    ensures var s := Spaced(words); s != "" ==> !Space(s[0]) && !Space(s[|s| - 1])
  {
    if |words| > 1 {
      SpacedEnds(words[1..]);
    }
  }

  lemma {:induction false} DigitsAppend(s: string, value: nat, afterDigit: bool, d: char)
    requires Digit(d) && Digits(s, value, afterDigit).Some?
    ensures Digits(s + [d], value, afterDigit)
         == Some(Digits(s, value, afterDigit).value * 10 + (d as int - '0' as int))
    decreases |s|
  {
    if s == "" {
      assert (s + [d])[1..] == "";
    } else {
      assert (s + [d])[1..] == s[1..] + [d];
      if Digit(s[0]) {
        DigitsAppend(s[1..], value * 10 + (s[0] as int - '0' as int), true, d);
      } else {
        DigitsAppend(s[1..], value, false, d);
      }
    }
  }

  lemma {:induction false} DigitsOfDecimal(n: nat)
    ensures Digits(Decimal(n), 0, false) == Some(n)
  {
    var last := '0' + (n % 10) as char;
    if n < 10 {
      assert Decimal(n) == [last] && [last][1..] == "";
    } else {
      DigitsOfDecimal(n / 10);
      DigitsAppend(Decimal(n / 10), 0, false, last);
    }
  }

  lemma {:induction false} IntOfDecimal(n: nat)
    ensures Int(Decimal(n)) == Some(n) && Strip(Decimal(n)) == Decimal(n)
  {
    StripNothing(Decimal(n));
    assert Digit(Decimal(n)[0]);
    DigitsOfDecimal(n);
  }

  /******* What the operations mean *******/

  // Every line break ends a line, a carriage return and line feed together only one.
  lemma {:induction false} BreaksEndLines(line: string, c: char, rest: string)
    requires Unbroken(line)
    requires c in {'\n', '\r', '\U{000b}', '\U{000c}', '\U{001c}', '\U{001d}', '\U{001e}',
                   '\U{0085}', '\U{2028}', '\U{2029}'}
    ensures Lines(line + [c] + rest)
         == [line] + if c == '\r' && rest != "" && rest[0] == '\n' then Lines(rest[1..]) else Lines(rest)
  {
    var n := |line|;
    var s := line + [c] + rest;
    assert s[..n] == line && s[n] == c && s[n + 1..] == rest;
    assert forall i :: 0 <= i < n ==> s[i] == line[i];
    LineEndsAt(s, n);
    assert rest != "" ==> s[n + 1] == rest[0] && s[n + 2..] == rest[1..];
  }

  predicate Blanks(s: string) {
    forall i :: 0 <= i < |s| ==> s[i] in {' ', '\t', '\n', '\r'}
  }

  // Blanks are stripped at both ends.
  lemma {:induction false} StripsBlanks(l: string, s: string, r: string)
    requires Blanks(l) && Blanks(r) && s != "" && !Space(s[0]) && !Space(s[|s| - 1])
    ensures Strip(l + s + r) == s
    decreases |l| + |r|
  {
    if l != "" {
      var all := l + s + r;
      assert all[1..] == l[1..] + s + r && all[0] == l[0];
      StripsBlanks(l[1..], s, r);
    } else {
      assert l + s + r == s + r;
      StripsRight(s, r);
    }
  }

  lemma {:induction false} StripsRight(s: string, r: string)
    requires Blanks(r) && s != "" && !Space(s[0]) && !Space(s[|s| - 1])
    ensures LeftStripped(s + r) == s + r && RightStripped(s + r) == s
    decreases |r|
  {
    assert (s + r)[0] == s[0];
    if r == "" {
      assert s + r == s;
    } else {
      var n := |r| - 1;
      assert (s + r)[..|s + r| - 1] == s + r[..n] && (s + r)[|s + r| - 1] == r[n];
      StripsRight(s, r[..n]);
    }
  }

  // A sign is read; and what is read has digits and underscores only.
  lemma {:induction false} IntOfSigned(n: nat)
    ensures Int("-" + Decimal(n)) == Some(0 - n) && Int("+" + Decimal(n)) == Some(n)
  {
    Signed("-", n);
    Signed("+", n);
    DigitsOfDecimal(n);
  }

  lemma {:induction false} Signed(sign: string, n: nat)
    requires sign in {"-", "+"}
    ensures Strip(sign + Decimal(n)) == sign + Decimal(n) && (sign + Decimal(n))[1..] == Decimal(n)
  {
    var s := sign + Decimal(n);
    assert s[0] == sign[0] && s[|s| - 1] == Decimal(n)[|Decimal(n)| - 1];
    StripNothing(s);
  }

  lemma {:induction false} DigitsOnly(s: string, value: nat, afterDigit: bool)
    requires Digits(s, value, afterDigit).Some?
    ensures forall i :: 0 <= i < |s| ==> Digit(s[i]) || s[i] == '_'
    decreases |s|
  {
    if s != "" {
      if Digit(s[0]) {
        DigitsOnly(s[1..], value * 10 + (s[0] as int - '0' as int), true);
      } else {
        DigitsOnly(s[1..], value, false);
      }
    }
  }

  lemma {:induction false} IntIsOfDigits(s: string)
    requires Int(s).Some?
    ensures var t := Strip(s);
      t != "" && forall i :: 0 <= i < |t| ==> Digit(t[i]) || t[i] == '_' || (i == 0 && t[i] in {'+', '-'})
  {
    var t := Strip(s);
    var rest := if t != "" && (t[0] == '-' || t[0] == '+') then t[1..] else t;
    DigitsOnly(rest, 0, false);
    assert forall i :: 0 < i < |t| ==> t[i] == if rest == t then rest[i] else rest[i - 1];
  }

  // Negative bounds count from the end.
  lemma {:induction false} SliceFromEnd<T>(s: seq<T>, k: nat)
    requires 0 < k <= |s|
    ensures Slice(s, 0 - k, |s|) == s[|s| - k..] && Slice(s, 0, 0 - k) == s[..|s| - k]
  {
  }
}
