/** The mailbox listing (apps/email_agent/services/admin_imap.py): reading the output of
    doveadm fetch, newest first, one page at a time. */
module MailListing {
  import opened Wrappers
  import opened PyText

  // The dict built from one block; None is an absent key.
  datatype Message = Message(
    uid: Option<string>, flags: Option<seq<string>>, isRead: Option<bool>, date: Option<string>,
    subject: Option<string>, fromAddr: Option<string>, toAddr: Option<string>, sizeBytes: Option<int>)

  const EMPTY := Message(None, None, None, None, None, None, None, None)

  /******* The parser *******/

  datatype Field = Uid | Flags | Date | Subject | From | To | Size

  function Name(f: Field): string {
    match f
    case Uid => "uid"
    case Flags => "flags"
    case Date => "date.received"
    case Subject => "hdr.subject"
    case From => "hdr.from"
    case To => "hdr.to"
    case Size => "size.virtual"
  }

  predicate StartsWith(line: string, prefix: string) {
    |prefix| <= |line| && line[..|prefix|] == prefix
  }

  predicate Bears(line: string, f: Field) {
    StartsWith(line, Name(f) + ":")
  }

  function Cleaned(words: seq<string>): seq<string> {
    if words == [] then []
    else (if Strip(words[0]) != "" then [Strip(words[0])] else []) + Cleaned(words[1..])
  }

  // A line that sets a key of the current dict.
  function Set(current: Message, f: Field, text: string): Message {
    match f
    case Uid => EMPTY.(uid := Some(text))
    case Flags =>
      var flags := Cleaned(Words(text));
      current.(flags := Some(flags), isRead := Some("\\Seen" in flags))
    case Date => current.(date := Some(text))
    case Subject => current.(subject := Some(text))
    case From => current.(fromAddr := Some(text))
    case To => current.(toAddr := Some(text))
    case Size => current.(sizeBytes := Some(if Int(text).Some? then Int(text).value else 0))
  }

  predicate HasUid(m: Message) {
    m.uid.Some? && m.uid.value != ""
  }

  datatype Reading = Reading(messages: seq<Message>, current: Message)

  // The messages read so far, the current one included.
  function Closed(r: Reading): seq<Message> {
    if HasUid(r.current) then r.messages + [r.current] else r.messages
  }

  function FieldOf(line: string): Option<Field> {
    if Bears(line, Uid) then Some(Uid)
    else if Bears(line, Flags) then Some(Flags)
    else if Bears(line, Date) then Some(Date)
    else if Bears(line, Subject) then Some(Subject)
    else if Bears(line, From) then Some(From)
    else if Bears(line, To) then Some(To)
    else if Bears(line, Size) then Some(Size)
    else None
  }

  function Read(r: Reading, line: string): Reading {
    match FieldOf(line)
    case None => r
    case Some(f) =>
      Reading(if f == Uid then Closed(r) else r.messages, Set(r.current, f, Strip(AfterColon(line))))
  }

  function ReadAll(r: Reading, lines: seq<string>): Reading {
    if lines == [] then r else Read(ReadAll(r, lines[..|lines| - 1]), lines[|lines| - 1])
  }

  const START := Reading([], EMPTY)

  function Parsed(raw: string): seq<Message> {
    Closed(ReadAll(START, Lines(raw)))
  }

  method Parse(raw: string) returns (messages: seq<Message>)
    ensures messages == Parsed(raw)
  {
    var lines := Lines(raw);
    messages := [];
    var current := EMPTY;
    for i := 0 to |lines|
      invariant Reading(messages, current) == ReadAll(START, lines[..i])
    {
      var line := lines[i];
      ReadNext(lines, i);
      if Bears(line, Uid) {
        if HasUid(current) {
          messages := messages + [current];
        }
        current := EMPTY.(uid := Some(Strip(AfterColon(line))));
      } else if Bears(line, Flags) {
        var flags := Cleaned(Words(Strip(AfterColon(line))));
        current := current.(flags := Some(flags));
        current := current.(isRead := Some("\\Seen" in flags));
      } else if Bears(line, Date) {
        current := current.(date := Some(Strip(AfterColon(line))));
      } else if Bears(line, Subject) {
        current := current.(subject := Some(Strip(AfterColon(line))));
      } else if Bears(line, From) {
        current := current.(fromAddr := Some(Strip(AfterColon(line))));
      } else if Bears(line, To) {
        current := current.(toAddr := Some(Strip(AfterColon(line))));
      } else if Bears(line, Size) {
        var size := Int(Strip(AfterColon(line)));
        current := current.(sizeBytes := Some(if size.Some? then size.value else 0));
      }
    }
    assert lines[..|lines|] == lines;
    if HasUid(current) {
      messages := messages + [current];
    }
  }

  /******* Sorting and paging *******/

  predicate Numbered(m: Message) {
    m.uid.Some? && Int(m.uid.value).Some?
  }

  // int(m.get("uid", 0)) of a numbered message
  function Key(m: Message): int {
    if Numbered(m) then Int(m.uid.value).value else 0
  }

  // A stable sort, largest key first.
  function Sorted(ms: seq<Message>): seq<Message> {
    if ms == [] then [] else Insert(ms[0], Sorted(ms[1..]))
  }

  function Insert(m: Message, ms: seq<Message>): seq<Message> {
    if ms == [] || Key(m) >= Key(ms[0]) then [m] + ms
    else [ms[0]] + Insert(m, ms[1..])
  }

  // The whole listing, or None where some uid is not a number and int raises.
  function Listing(raw: string): Option<seq<Message>> {
    if forall i :: 0 <= i < |Parsed(raw)| ==> Numbered(Parsed(raw)[i]) then Some(Sorted(Parsed(raw))) else None
  }

  method ListMessages(raw: string, limit: int, offset: int) returns (page: Option<seq<Message>>)
    ensures page == (match Listing(raw)
                     case None => None
                     case Some(all) => Some(Slice(all, offset, offset + limit)))
  {
    var messages := Parse(raw);
    if exists i :: 0 <= i < |messages| && !Numbered(messages[i]) {
      return None;
    }
    messages := Sorted(messages);
    return Some(Slice(messages, offset, offset + limit));
  }

  /******* The sort is the stable descending one *******/

  predicate Descending(ms: seq<Message>) {
    forall i, j :: 0 <= i < j < |ms| ==> Key(ms[i]) >= Key(ms[j])
  }

  function WithKey(ms: seq<Message>, k: int): seq<Message> {
    if ms == [] then []
    else (if Key(ms[0]) == k then [ms[0]] else []) + WithKey(ms[1..], k)
  }

  lemma {:induction false} WithKeyCons(m: Message, ms: seq<Message>, k: int)
    ensures WithKey([m] + ms, k) == (if Key(m) == k then [m] else []) + WithKey(ms, k)
  {
    assert ([m] + ms)[1..] == ms;
  }

  lemma {:induction false} InsertKeepsOrder(m: Message, ms: seq<Message>, k: int)
    ensures WithKey(Insert(m, ms), k) == WithKey([m] + ms, k)
  {
    WithKeyCons(m, ms, k);
    if !(ms == [] || Key(m) >= Key(ms[0])) {
      InsertKeepsOrder(m, ms[1..], k);
      WithKeyCons(m, ms[1..], k);
      WithKeyCons(ms[0], Insert(m, ms[1..]), k);
    }
  }

  lemma {:induction false} InsertAdds(m: Message, ms: seq<Message>)
    ensures multiset(Insert(m, ms)) == multiset{m} + multiset(ms)
  {
    if !(ms == [] || Key(m) >= Key(ms[0])) {
      InsertAdds(m, ms[1..]);
      assert ms == [ms[0]] + ms[1..];
    }
  }

  lemma {:induction false} InsertDescends(m: Message, ms: seq<Message>)
    requires Descending(ms)
    ensures Descending(Insert(m, ms))
  {
    if !(ms == [] || Key(m) >= Key(ms[0])) {
      var after := Insert(m, ms[1..]);
      InsertDescends(m, ms[1..]);
      InsertAdds(m, ms[1..]);
      forall i | 0 <= i < |after|
        ensures Key(after[i]) <= Key(ms[0])
      {
        assert after[i] in multiset(after);
        assert after[i] == m || after[i] in ms[1..];
      }
    }
  }

  // The same messages, by descending uid.
  lemma {:induction false} SortedDescends(ms: seq<Message>)
    ensures Descending(Sorted(ms)) && multiset(Sorted(ms)) == multiset(ms)
  {
    if ms != [] {
      SortedDescends(ms[1..]);
      InsertDescends(ms[0], Sorted(ms[1..]));
      InsertAdds(ms[0], Sorted(ms[1..]));
      assert ms == [ms[0]] + ms[1..];
    }
  }

  // Ties stay in the order they were read.
  lemma {:induction false} SortedIsStable(ms: seq<Message>, k: int)
    ensures WithKey(Sorted(ms), k) == WithKey(ms, k)
  {
    if ms != [] {
      SortedIsStable(ms[1..], k);
      InsertKeepsOrder(ms[0], Sorted(ms[1..]), k);
      WithKeyCons(ms[0], Sorted(ms[1..]), k);
    }
  }

  lemma {:induction false} FirstWithKey(ms: seq<Message>, k: int)
    requires Descending(ms) && WithKey(ms, k) != []
    ensures ms != [] && Key(ms[0]) >= k
  {
    if Key(ms[0]) != k {
      FirstWithKey(ms[1..], k);
    }
  }

  ghost predicate SameByKey(a: seq<Message>, b: seq<Message>) {
    forall k :: WithKey(a, k) == WithKey(b, k)
  }

  lemma {:induction false} SameHead(a: seq<Message>, b: seq<Message>)
    requires Descending(a) && Descending(b) && SameByKey(a, b) && a != []
    ensures b != [] && a[0] == b[0] && SameByKey(a[1..], b[1..])
  {
    var k := Key(a[0]);
    assert WithKey(a, k)[0] == a[0] && WithKey(b, k) == WithKey(a, k);
    FirstWithKey(b, k);
    var l := Key(b[0]);
    assert WithKey(b, l)[0] == b[0] && WithKey(b, l) == WithKey(a, l);
    FirstWithKey(a, l);
    forall j
      ensures WithKey(a[1..], j) == WithKey(b[1..], j)
    {
      assert WithKey(a, j) == WithKey(b, j);
      WithKeyCons(a[0], a[1..], j);
      WithKeyCons(b[0], b[1..], j);
      assert a == [a[0]] + a[1..] && b == [b[0]] + b[1..];
      var first := if Key(a[0]) == j then [a[0]] else [];
      assert WithKey(a[1..], j) == (first + WithKey(a[1..], j))[|first|..];
    }
  }

  // Those properties leave no choice.
  lemma {:induction false} OnlyOneOrder(a: seq<Message>, b: seq<Message>)
    requires Descending(a) && Descending(b) && SameByKey(a, b)
    ensures a == b
  {
    if a != [] {
      SameHead(a, b);
      OnlyOneOrder(a[1..], b[1..]);
      assert a == [a[0]] + a[1..] && b == [b[0]] + b[1..];
    } else if b != [] {
      SameHead(b, a);
    }
  }

  lemma {:induction false} SortedIff(ms: seq<Message>, r: seq<Message>)
    ensures r == Sorted(ms) <==> Descending(r) && SameByKey(r, ms)
  {
    SortedDescends(ms);
    forall k
      ensures WithKey(Sorted(ms), k) == WithKey(ms, k)
    {
      SortedIsStable(ms, k);
    }
    if Descending(r) && SameByKey(r, ms) {
      OnlyOneOrder(r, Sorted(ms));
    }
  }

  /******* Pages *******/

  // The first pages of a listing, one after the other.
  function Pages(all: seq<Message>, limit: int, count: nat): seq<Message> {
    if count == 0 then []
    else Pages(all, limit, count - 1) + Slice(all, (count - 1) * limit, (count - 1) * limit + limit)
  }

  // Consecutive pages lose and repeat nothing.
  lemma {:induction false} PagesCover(all: seq<Message>, limit: int, count: nat)
    requires limit > 0
    ensures Pages(all, limit, count) == Front(all, count * limit)
  {
    if count > 0 {
      PagesCover(all, limit, count - 1);
      PageEnd(count, limit);
      OnePageMore(all, limit, count, (count - 1) * limit);
    }
  }

  lemma {:induction false} OnePageMore(all: seq<Message>, limit: nat, count: nat, from: nat)
    requires count > 0 && from == (count - 1) * limit && Pages(all, limit, count - 1) == Front(all, from)
    ensures Pages(all, limit, count) == Front(all, from + limit)
  {
    NextPage(all, from, limit);
  }

  lemma {:induction false} PageEnd(count: nat, limit: int)
    requires count > 0 && limit > 0
    ensures 0 <= (count - 1) * limit && (count - 1) * limit + limit == count * limit
  {
  }

  // Enough pages are the whole listing.
  lemma {:induction false} PagesAreAll(all: seq<Message>, limit: int, count: nat)
    requires limit > 0 && count * limit >= |all|
    ensures Pages(all, limit, count) == all
  {
    PagesCover(all, limit, count);
  }

  function Front(all: seq<Message>, n: int): seq<Message> {
    if n >= |all| then all else if n < 0 then [] else all[..n]
  }

  lemma {:induction false} NextPage(all: seq<Message>, from: nat, limit: nat)
    ensures Front(all, from) + Slice(all, from, from + limit) == Front(all, from + limit)
  {
    if from < |all| {
      assert all[..from] + all[from..] == all;
    }
  }

  /******* Round trip *******/

  datatype Envelope = Envelope(
    uid: nat, flags: seq<string>, date: string, subject: string, fromAddr: string, toAddr: string, size: nat)

  // One field a line: no line break inside a field, no blank inside a flag.
  predicate WellFormed(e: Envelope) {
    && (forall i :: 0 <= i < |e.flags| ==> Word(e.flags[i]))
    && Unbroken(e.date) && Unbroken(e.subject) && Unbroken(e.fromAddr) && Unbroken(e.toAddr)
  }

  function Line(f: Field, text: string): string {
    Name(f) + ":" + (" " + text)
  }

  function BlockLines(e: Envelope): seq<string> {
    [Line(Uid, Decimal(e.uid)), Line(Flags, Spaced(e.flags)), Line(Date, e.date), Line(Subject, e.subject),
     Line(From, e.fromAddr), Line(To, e.toAddr), Line(Size, Decimal(e.size))]
  }

  // The labels in full.
  function Label(f: Field): string {
    match f
    case Uid => "uid: "
    case Flags => "flags: "
    case Date => "date.received: "
    case Subject => "hdr.subject: "
    case From => "hdr.from: "
    case To => "hdr.to: "
    case Size => "size.virtual: "
  }

  lemma {:induction false} LabelOf(f: Field)
    ensures Name(f) + ": " == Label(f)
  {
  }

  lemma {:induction false} LineText(f: Field, text: string)
    ensures Line(f, text) == Label(f) + text
  {
    LabelOf(f);
    assert Line(f, text) == (Name(f) + ": ") + text;
  }

  // The fields, one a line, then a form feed on a line of its own.
  function Printed(es: seq<Envelope>): string {
    if es == [] then "" else Unlines(BlockLines(es[0])) + ("\U{000c}\n" + Printed(es[1..]))
  }

  function MessageOf(e: Envelope): Message {
    Message(Some(Decimal(e.uid)), Some(e.flags), Some("\\Seen" in e.flags), Some(Strip(e.date)),
            Some(Strip(e.subject)), Some(Strip(e.fromAddr)), Some(Strip(e.toAddr)), Some(e.size))
  }

  function MessagesOf(es: seq<Envelope>): seq<Message> {
    if es == [] then [] else [MessageOf(es[0])] + MessagesOf(es[1..])
  }

  // No field's name begins another's: they differ in the first or the fifth letter.
  predicate Differ(a: string, b: string) {
    |a| > 0 && |b| > 0 && (a[0] != b[0] || (|a| > 4 && |b| > 4 && a[4] != b[4]))
  }

  lemma {:induction false} NamesDiffer(f: Field, g: Field)
    requires f != g
    ensures Differ(Name(f), Name(g))
  {
  }

  lemma {:induction false} LabelsDiffer(f: Field, g: Field, rest: string)
    ensures Bears(Name(f) + ":" + rest, g) <==> f == g
  {
    var s, p := Name(f) + ":" + rest, Name(g) + ":";
    if f == g {
      assert s[..|p|] == p;
    } else {
      NamesDiffer(f, g);
      PrefixesAgree(s, Name(f), p, Name(g));
    }
  }

  lemma {:induction false} PrefixesAgree(s: string, a: string, p: string, b: string)
    requires |a| <= |s| && s[..|a|] == a && |b| <= |p| && p[..|b|] == b && Differ(a, b)
    ensures !StartsWith(s, p)
  {
    assert s[0] == a[0] && p[0] == b[0];
    assert |a| > 4 && |b| > 4 ==> s[4] == a[4] && p[4] == b[4];
    assert |p| <= |s| ==> s[..|p|][0] == s[0];
    assert 4 < |p| <= |s| ==> s[..|p|][4] == s[4];
  }

  lemma {:induction false} OnlyBears(f: Field, text: string)
    ensures forall g: Field :: Bears(Line(f, text), g) <==> f == g
  {
    forall g: Field
      ensures Bears(Line(f, text), g) <==> f == g
    {
      LabelsDiffer(f, g, " " + text);
    }
  }

  lemma {:induction false} LineField(f: Field, text: string)
    ensures FieldOf(Line(f, text)) == Some(f) && Strip(AfterColon(Line(f, text))) == Strip(text)
  {
    OnlyBears(f, text);
    NoColon(f);
    AfterLabel(Name(f), " " + text);
    StripAfterBlank(text);
  }

  lemma {:induction false} NoColon(f: Field)
    ensures ':' !in Name(f)
  {
  }

  lemma {:induction false} CleanedWords(words: seq<string>)
    requires forall i :: 0 <= i < |words| ==> Word(words[i])
    ensures Cleaned(words) == words
  {
    if words != [] {
      StripNothing(words[0]);
      CleanedWords(words[1..]);
    }
  }

  // What reading one printed line does.
  lemma {:induction false} ReadLine(r: Reading, f: Field, text: string)
    ensures Read(r, Line(f, text))
         == Reading(if f == Uid then Closed(r) else r.messages, Set(r.current, f, Strip(text)))
  {
    LineField(f, text);
  }

  lemma {:induction false} ReadAppend(r: Reading, a: seq<string>, b: seq<string>)
    ensures ReadAll(r, a + b) == ReadAll(ReadAll(r, a), b)
  {
    if b == [] {
      assert a + b == a;
    } else {
      assert (a + b)[..|a + b| - 1] == a + b[..|b| - 1];
      ReadAppend(r, a, b[..|b| - 1]);
    }
  }

  lemma {:induction false} ReadNext(lines: seq<string>, i: nat)
    requires i < |lines|
    ensures ReadAll(START, lines[..i + 1]) == Read(ReadAll(START, lines[..i]), lines[i])
  {
    assert lines[..i + 1][..i] == lines[..i];
  }

  lemma {:induction false} ReadOne(r: Reading, lines: seq<string>, line: string)
    ensures ReadAll(r, lines + [line]) == Read(ReadAll(r, lines), line)
  {
    assert (lines + [line])[..|lines|] == lines;
  }

  // Reading a block ends the message before it and leaves its own.
  lemma {:induction false} BlockRead(r: Reading, e: Envelope)
    requires WellFormed(e)
    ensures ReadAll(r, BlockLines(e) + ["", ""]) == Reading(Closed(r), MessageOf(e))
  {
    var lines := BlockLines(e);
    AddressesRead(r, e);
    ReadLine(ReadAll(r, lines[..6]), Size, Decimal(e.size));
    IntOfDecimal(e.size);
    ReadOne(r, lines[..6], lines[6]);
    assert lines == lines[..6] + [lines[6]];
    BlanksRead(r, lines);
  }

  // All but the size.
  lemma {:induction false} AddressesRead(r: Reading, e: Envelope)
    requires WellFormed(e)
    ensures ReadAll(r, BlockLines(e)[..6]) == Reading(Closed(r), MessageOf(e).(sizeBytes := None))
  {
    var lines := BlockLines(e);
    HeaderRead(r, e);
    var front := ReadAll(r, lines[..4]);
    ReadLine(front, From, e.fromAddr);
    ReadLine(Read(front, lines[4]), To, e.toAddr);
    ReadOne(r, lines[..4], lines[4]);
    ReadOne(r, lines[..4] + [lines[4]], lines[5]);
    assert lines[..6] == lines[..4] + [lines[4]] + [lines[5]];
  }

  lemma {:induction false} BlanksRead(r: Reading, lines: seq<string>)
    ensures ReadAll(r, lines + ["", ""]) == ReadAll(r, lines)
  {
    assert FieldOf("").None?;
    ReadOne(r, lines, "");
    ReadOne(r, lines + [""], "");
    assert lines + ["", ""] == lines + [""] + [""];
  }

  // The first four lines.
  lemma {:induction false} HeaderRead(r: Reading, e: Envelope)
    requires WellFormed(e)
    ensures ReadAll(r, BlockLines(e)[..4])
         == Reading(Closed(r), MessageOf(e).(fromAddr := None, toAddr := None, sizeBytes := None))
  {
    var lines := BlockLines(e);
    UidAndFlagsRead(r, e);
    var r2 := ReadAll(r, lines[..2]);
    ReadLine(r2, Date, e.date);
    var r3 := Read(r2, lines[2]);
    ReadLine(r3, Subject, e.subject);
    ReadOne(r, lines[..2], lines[2]);
    ReadOne(r, lines[..2] + [lines[2]], lines[3]);
    assert lines[..4] == lines[..2] + [lines[2]] + [lines[3]];
  }

  lemma {:induction false} SetFlags(m: Message, flags: seq<string>)
    requires forall i :: 0 <= i < |flags| ==> Word(flags[i])
    ensures Set(m, Flags, Strip(Spaced(flags))) == m.(flags := Some(flags), isRead := Some("\\Seen" in flags))
  {
    WordsOfSpaced(flags);
    CleanedWords(flags);
  }

  lemma {:induction false} UidAndFlagsRead(r: Reading, e: Envelope)
    requires WellFormed(e)
    ensures ReadAll(r, BlockLines(e)[..2])
         == Reading(Closed(r), EMPTY.(uid := Some(Decimal(e.uid)), flags := Some(e.flags),
                                      isRead := Some("\\Seen" in e.flags)))
  {
    var lines := BlockLines(e);
    UidRead(r, e);
    var r1 := ReadAll(r, lines[..1]);
    ReadLine(r1, Flags, Spaced(e.flags));
    SetFlags(r1.current, e.flags);
    ReadOne(r, lines[..1], lines[1]);
    assert lines[..2] == lines[..1] + [lines[1]];
  }

  lemma {:induction false} UidRead(r: Reading, e: Envelope)
    ensures ReadAll(r, BlockLines(e)[..1]) == Reading(Closed(r), EMPTY.(uid := Some(Decimal(e.uid))))
  {
    ReadLine(r, Uid, Decimal(e.uid));
    IntOfDecimal(e.uid);
    ReadOne(r, [], BlockLines(e)[0]);
    assert BlockLines(e)[..1] == [] + [BlockLines(e)[0]];
  }

  lemma {:induction false} LineUnbroken(f: Field, text: string)
    requires Unbroken(text)
    ensures Unbroken(Line(f, text))
  {
    assert Unbroken(Name(f));
  }

  lemma {:induction false} BlockLinesOf(e: Envelope, rest: string)
    requires WellFormed(e)
    ensures Lines(Unlines(BlockLines(e)) + ("\U{000c}\n" + rest)) == BlockLines(e) + ["", ""] + Lines(rest)
  {
    SpacedUnbroken(e.flags);
    LineUnbroken(Uid, Decimal(e.uid));
    LineUnbroken(Flags, Spaced(e.flags));
    LineUnbroken(Date, e.date);
    LineUnbroken(Subject, e.subject);
    LineUnbroken(From, e.fromAddr);
    LineUnbroken(To, e.toAddr);
    LineUnbroken(Size, Decimal(e.size));
    LinesRead(BlockLines(e), "\U{000c}\n" + rest);
    FeedRead(rest);
    Regroup(BlockLines(e), ["", ""], Lines(rest));
  }

  lemma {:induction false} FeedRead(rest: string)
    ensures Lines("\U{000c}\n" + rest) == ["", ""] + Lines(rest)
  {
    var s := "\U{000c}\n" + rest;
    LineEndsAt(s, 0);
    assert s[..0] == "" && s[1..] == "" + "\n" + rest;
    LineRead("", rest);
    assert [""] + ([""] + Lines(rest)) == ["", ""] + Lines(rest);
  }

  lemma {:induction false} SpacedUnbroken(words: seq<string>)
    requires forall i :: 0 <= i < |words| ==> Word(words[i])
    ensures Unbroken(Spaced(words))
  {
    if |words| > 0 {
      assert forall i :: 0 <= i < |words[0]| ==> !Space(words[0][i]);
      SpacedUnbroken(words[1..]);
    }
  }

  lemma {:induction false} PrintedRead(r: Reading, es: seq<Envelope>)
    requires forall i :: 0 <= i < |es| ==> WellFormed(es[i])
    ensures Closed(ReadAll(r, Lines(Printed(es)))) == Closed(r) + MessagesOf(es)
    decreases |es|
  {
    if es == [] {
      assert Closed(r) + [] == Closed(r);
    } else {
      var rest := Printed(es[1..]);
      var block := BlockLines(es[0]) + ["", ""];
      BlockLinesOf(es[0], rest);
      ReadAppend(r, block, Lines(rest));
      BlockRead(r, es[0]);
      var next := Reading(Closed(r), MessageOf(es[0]));
      PrintedRead(next, es[1..]);
      assert HasUid(next.current);
      Regroup(Closed(r), [MessageOf(es[0])], MessagesOf(es[1..]));
    }
  }

  lemma {:induction false} NothingBefore(ms: seq<Message>)
    ensures Closed(START) + ms == ms
  {
    assert Closed(START) == [];
  }

  // Any printed listing is read as one message per block, with the printed fields.
  lemma {:induction false} ParsePrinted(es: seq<Envelope>)
    requires forall i :: 0 <= i < |es| ==> WellFormed(es[i])
    ensures Parsed(Printed(es)) == MessagesOf(es)
  {
    PrintedRead(START, es);
    NothingBefore(MessagesOf(es));
  }

  lemma {:induction false} MessagesAt(es: seq<Envelope>, i: nat)
    requires i < |es|
    ensures |MessagesOf(es)| == |es| && MessagesOf(es)[i] == MessageOf(es[i])
  {
    if i > 0 {
      MessagesAt(es[1..], i - 1);
    } else if |es| > 1 {
      MessagesAt(es[1..], 0);
    }
  }

  // End to end: for a printed mailbox the listing never raises, is the stable descending
  // sort of its messages, and any positive page size walks all of it.
  lemma {:induction false} PrintedMailbox(es: seq<Envelope>, limit: int, count: nat)
    requires forall i :: 0 <= i < |es| ==> WellFormed(es[i])
    requires limit > 0 && count * limit >= |es|
    ensures var all := Listing(Printed(es));
            && all.Some? && Descending(all.value) && SameByKey(all.value, MessagesOf(es))
            && multiset(all.value) == multiset(MessagesOf(es))
            && Pages(all.value, limit, count) == all.value
  {
    ParsePrinted(es);
    var ms := MessagesOf(es);
    assert es == [] ==> ms == [];
    forall i | 0 <= i < |ms|
      ensures Numbered(ms[i])
    {
      if es != [] {
        MessagesAt(es, 0);
        MessagesAt(es, i);
        IntOfDecimal(es[i].uid);
      }
    }
    SortedDescends(ms);
    SortedIff(ms, Sorted(ms));
    if es != [] {
      MessagesAt(es, 0);
    }
    assert |multiset(ms)| == |ms| && |multiset(Sorted(ms))| == |Sorted(ms)|;
    PagesAreAll(Sorted(ms), limit, count);
  }

  /******* Any output at all *******/

  // Every message read has a uid that is not empty.
  lemma {:induction false} MessagesHaveUids(lines: seq<string>)
    ensures forall m :: m in ReadAll(START, lines).messages ==> m.uid.Some? && m.uid.value != ""
  {
    if lines != [] {
      MessagesHaveUids(lines[..|lines| - 1]);
    }
  }

  lemma {:induction false} ParsedHaveUids(raw: string)
    ensures forall m :: m in Parsed(raw) ==> m.uid.Some? && m.uid.value != ""
  {
    MessagesHaveUids(Lines(raw));
  }

  // The listing raises exactly if some uid read is not a number; otherwise it holds the
  // messages read, the greatest uid first.
  lemma {:induction false} NewestFirst(raw: string)
    ensures Listing(raw).None? <==> exists m :: m in Parsed(raw) && m.uid.Some? && Int(m.uid.value).None?
    ensures Listing(raw).Some? ==>
      var all := Listing(raw).value;
      && multiset(all) == multiset(Parsed(raw))
      && (forall m :: m in all ==> m.uid.Some? && Int(m.uid.value).Some?)
      && forall i, j :: 0 <= i < j < |all| ==> Int(all[i].uid.value).value >= Int(all[j].uid.value).value
  {
    ParsedHaveUids(raw);
    var ms := Parsed(raw);
    assert forall i :: 0 <= i < |ms| ==> ms[i] in ms;
    if Listing(raw).Some? {
      SortedDescends(ms);
      NumbersDescend(ms, Sorted(ms));
    }
  }

  lemma {:induction false} NumbersDescend(ms: seq<Message>, sorted: seq<Message>)
    requires multiset(sorted) == multiset(ms) && Descending(sorted)
    requires forall m :: m in ms ==> m.uid.Some? && Int(m.uid.value).Some?
    ensures forall m :: m in sorted ==> m.uid.Some? && Int(m.uid.value).Some?
    ensures forall i, j :: 0 <= i < j < |sorted| ==> Int(sorted[i].uid.value).value >= Int(sorted[j].uid.value).value
  {
    forall m | m in sorted ensures m in ms {
      assert m in multiset(sorted);
    }
    forall i, j | 0 <= i < j < |sorted|
      ensures Int(sorted[i].uid.value).value >= Int(sorted[j].uid.value).value
    {
      assert Key(sorted[i]) >= Key(sorted[j]);
    }
  }

  // A size that is not a number reads as 0.
  lemma {:induction false} BadSizeIsZero(r: Reading, text: string)
    requires Int(Strip(text)).None?
    ensures Read(r, Label(Size) + text).current == r.current.(sizeBytes := Some(0))
  {
    LineText(Size, text);
    ReadLine(r, Size, text);
  }
}
