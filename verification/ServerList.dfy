/** The list of reporting servers in the configuration (`get_reporting_config_info` in `config.py`):
    comma-separated entries of the form address:port:url. */
module ServerList {
  import opened Wrappers

  datatype Server = Server(addr: string, port: int, url: string)

  predicate IsSpace(ch: char) {
    ch in {' ', '\t', '\n', '\r', '\U{000B}', '\U{000C}'}
  }

  // Python's `split` at one character.
  function Split(s: string, sep: char): (pieces: seq<string>)
    ensures pieces != []
  {
    if s == "" then [""]
    else
      var rest := Split(s[1..], sep);
      if s[0] == sep then [""] + rest else [[s[0]] + rest[0]] + rest[1..]
  }

  function StripLeft(s: string): string {
    if s != "" && IsSpace(s[0]) then StripLeft(s[1..]) else s
  }

  function StripRight(s: string): string {
    if s != "" && IsSpace(s[|s| - 1]) then StripRight(s[..|s| - 1]) else s
  }

  function Strip(s: string): string {
    StripRight(StripLeft(s))
  }

  predicate IsDigit(ch: char) {
    '0' <= ch <= '9'
  }

  predicate AllDigits(s: string) {
    forall i :: 0 <= i < |s| ==> IsDigit(s[i])
  }

  function DigitsValue(s: string): int {
    if s == "" then 0 else 10 * DigitsValue(s[..|s| - 1]) + (s[|s| - 1] as int - '0' as int)
  }

  // Python's `int` of a stripped text: an optional sign and decimal digits.
  function ParseInt(s: string): Option<int> {
    var digits := if s != "" && s[0] in {'-', '+'} then s[1..] else s;
    if digits == "" || !AllDigits(digits) then None
    else Some(if s[0] == '-' then -DigitsValue(digits) else DigitsValue(digits))
  }

  function ParseEntry(s: string): Result<Server> {
    var pieces := Split(s, ':');
    if |pieces| != 3 then Raised("unable to parse")
    else if ParseInt(Strip(pieces[1])).None? then Raised("unable to convert to an integer port")
    else Ok(Server(Strip(pieces[0]), ParseInt(Strip(pieces[1])).value, Strip(pieces[2])))
  }

  // One entry after the other, in order; the first that raises decides.
  function All<T>(parse: string -> Result<T>, entries: seq<string>): Result<seq<T>> {
    if entries == [] then Ok([])
    else
      var n := |entries| - 1;
      match All(parse, entries[..n])
      case Raised(why) => Raised(why)
      case Ok(before) =>
        match parse(entries[n])
        case Raised(why) => Raised(why)
        case Ok(x) => Ok(before + [x])
  }

  function ParseEntries(entries: seq<string>): Result<seq<Server>> {
    All(ParseEntry, entries)
  }

  // An empty option is not split, so that `servers` is never assigned.
  method ParseServers(text: string) returns (r: Result<seq<Server>>)
    ensures text == "" ==> r.Raised?
    ensures text != "" ==> r == ParseEntries(Split(text, ','))
  {
    if text == "" {
      return Raised("local variable 'servers' referenced before assignment");
    }
    var entries := Split(text, ',');
    var servers: seq<Server> := [];
    for i := 0 to |entries|
      invariant ParseEntries(entries[..i]) == Ok(servers)
    {
      assert entries[..i + 1][..i] == entries[..i];
      var pieces := Split(entries[i], ':');
      if |pieces| != 3 {
        FirstFailureDecides(ParseEntry, entries, i);
        return Raised("unable to parse");
      }
      var addr := Strip(pieces[0]);
      var port := ParseInt(Strip(pieces[1]));
      if port.None? {
        FirstFailureDecides(ParseEntry, entries, i);
        return Raised("unable to convert to an integer port");
      }
      var url := Strip(pieces[2]);
      servers := servers + [Server(addr, port.value, url)];
    }
    assert entries[..|entries|] == entries;
    return Ok(servers);
  }

  lemma {:induction false} FirstFailureDecides<T>(parse: string -> Result<T>, entries: seq<string>, i: nat)
    requires i < |entries| && All(parse, entries[..i]).Ok? && parse(entries[i]).Raised?
    ensures All(parse, entries) == Raised(parse(entries[i]).reason)
    decreases entries
  {
    var n := |entries| - 1;
    if i < n {
      assert entries[..n][..i] == entries[..i];
      FirstFailureDecides(parse, entries[..n], i);
    }
  }

  lemma {:induction false} AllOkIffEach<T>(parse: string -> Result<T>, entries: seq<string>)
    ensures All(parse, entries).Ok? <==> forall i :: 0 <= i < |entries| ==> parse(entries[i]).Ok?
    ensures All(parse, entries).Ok? ==>
              var xs := All(parse, entries).value;
              |xs| == |entries| && forall i :: 0 <= i < |entries| ==> Ok(xs[i]) == parse(entries[i])
    decreases entries
  {
    if entries != [] {
      AllOkIffEach(parse, entries[..|entries| - 1]);
    }
  }

  /** A text is accepted exactly when each of its entries has three pieces, the second an integer; any other entry
      rejects the whole text. */
  lemma AcceptedIffAllParse(entries: seq<string>)
    ensures ParseEntries(entries).Ok? <==> forall i :: 0 <= i < |entries| ==>
      |Split(entries[i], ':')| == 3 && ParseInt(Strip(Split(entries[i], ':')[1])).Some?
  {
    AllOkIffEach(ParseEntry, entries);
  }

  // ---------------------------------------------------------------------------------------------
  // Printing

  function Join(pieces: seq<string>, sep: char): string
    requires pieces != []
  {
    if |pieces| == 1 then pieces[0] else pieces[0] + [sep] + Join(pieces[1..], sep)
  }

  function Digit(n: nat): char
    requires n < 10
  {
    ('0' as int + n) as char
  }

  function Digits(n: nat): string {
    if n < 10 then [Digit(n)] else Digits(n / 10) + [Digit(n % 10)]
  }

  function PrintInt(n: int): string {
    if n < 0 then "-" + Digits(-n) else Digits(n)
  }

  // An entry with any whitespace around its pieces.
  datatype Entry = Entry(server: Server, pad0: string, pad1: string, pad2: string, pad3: string, pad4: string,
                         pad5: string)

  function Padded(s: string, before: string, after: string): string {
    before + s + after
  }

  function PrintEntry(e: Entry): string {
    Join([Padded(e.server.addr, e.pad0, e.pad1), Padded(PrintInt(e.server.port), e.pad2, e.pad3),
          Padded(e.server.url, e.pad4, e.pad5)], ':')
  }

  function PrintEntries(es: seq<Entry>): seq<string> {
    seq(|es|, i requires 0 <= i < |es| => PrintEntry(es[i]))
  }

  function Servers(es: seq<Entry>): seq<Server> {
    seq(|es|, i requires 0 <= i < |es| => es[i].server)
  }

  predicate AllSpace(s: string) {
    forall i :: 0 <= i < |s| ==> IsSpace(s[i])
  }

  // No outer whitespace, no comma and no colon.
  predicate Plain(s: string) {
    && ',' !in s && ':' !in s
    && (s != "" ==> !IsSpace(s[0]) && !IsSpace(s[|s| - 1]))
  }

  predicate Printable(e: Entry) {
    && Plain(e.server.addr) && Plain(e.server.url)
    && AllSpace(e.pad0) && AllSpace(e.pad1) && AllSpace(e.pad2)
    && AllSpace(e.pad3) && AllSpace(e.pad4) && AllSpace(e.pad5)
  }

  // ---------------------------------------------------------------------------------------------
  // Splitting undoes joining, stripping undoes padding

  lemma {:induction false} SplitPlain(s: string, sep: char)
    requires sep !in s
    ensures Split(s, sep) == [s]
    decreases s
  {
    if s != "" {
      SplitPlain(s[1..], sep);
      assert [s[0]] + s[1..] == s;
    }
  }

  lemma {:induction false} SplitFirst(s: string, rest: string, sep: char)
    requires sep !in s
    ensures Split(s + [sep] + rest, sep) == [s] + Split(rest, sep)
    decreases s
  {
    var all := s + [sep] + rest;
    if s == "" {
      assert all[1..] == rest;
    } else {
      assert all[1..] == s[1..] + [sep] + rest;
      SplitFirst(s[1..], rest, sep);
      assert [s[0]] + s[1..] == s;
    }
  }

  lemma {:induction false} SplitUndoesJoin(pieces: seq<string>, sep: char)
    requires pieces != [] && forall i :: 0 <= i < |pieces| ==> sep !in pieces[i]
    ensures Split(Join(pieces, sep), sep) == pieces
    decreases pieces
  {
    if |pieces| == 1 {
      SplitPlain(pieces[0], sep);
    } else {
      SplitUndoesJoin(pieces[1..], sep);
      SplitFirst(pieces[0], Join(pieces[1..], sep), sep);
      assert [pieces[0]] + pieces[1..] == pieces;
    }
  }

  lemma {:induction false} JoinAvoids(pieces: seq<string>, sep: char, ch: char)
    requires pieces != [] && ch != sep && forall i :: 0 <= i < |pieces| ==> ch !in pieces[i]
    ensures ch !in Join(pieces, sep)
    decreases pieces
  {
    if |pieces| > 1 {
      JoinAvoids(pieces[1..], sep, ch);
    }
  }

  lemma {:induction false} StripLeftPad(pad: string, s: string)
    requires AllSpace(pad)
    ensures StripLeft(pad + s) == StripLeft(s)
    decreases pad
  {
    if pad == "" {
      assert pad + s == s;
    } else {
      assert (pad + s)[1..] == pad[1..] + s;
      StripLeftPad(pad[1..], s);
    }
  }

  lemma {:induction false} StripRightPad(s: string, pad: string)
    requires AllSpace(pad)
    ensures StripRight(s + pad) == StripRight(s)
    decreases pad
  {
    if pad == "" {
      assert s + pad == s;
    } else {
      var n := |pad| - 1;
      assert (s + pad)[..|s + pad| - 1] == s + pad[..n];
      StripRightPad(s, pad[..n]);
    }
  }

  lemma StripUndoesPad(s: string, before: string, after: string)
    requires AllSpace(before) && AllSpace(after)
    requires s != "" ==> !IsSpace(s[0]) && !IsSpace(s[|s| - 1])
    ensures Strip(Padded(s, before, after)) == s
  {
    assert Padded(s, before, after) == before + (s + after);
    StripLeftPad(before, s + after);
    if s == "" {
      assert s + after == after + "";
      StripLeftPad(after, "");
    } else {
      StripRightPad(s, after);
    }
  }

  lemma {:induction false} DigitsRoundTrip(n: nat)
    ensures Digits(n) != "" && AllDigits(Digits(n))
    ensures DigitsValue(Digits(n)) == n
    decreases n
  {
    var s := Digits(n);
    if n < 10 {
      assert s[..0] == "";
    } else {
      DigitsRoundTrip(n / 10);
      assert s[..|s| - 1] == Digits(n / 10);
    }
  }

  lemma ParseDigits(digits: string)
    requires digits != "" && AllDigits(digits)
    ensures ParseInt(digits) == Some(DigitsValue(digits))
    ensures ParseInt("-" + digits) == Some(-DigitsValue(digits))
  {
    assert IsDigit(digits[0]);
    assert ("-" + digits)[1..] == digits;
  }

  lemma DigitsArePlain(digits: string)
    requires digits != "" && AllDigits(digits)
    ensures Plain(digits) && Plain("-" + digits)
  {
    var signed := "-" + digits;
    assert IsDigit(digits[0]) && signed[|signed| - 1] == digits[|digits| - 1];
    forall ch | ch in digits
      ensures IsDigit(ch)
    {
    }
  }

  lemma IntRoundTrip(n: int)
    ensures ParseInt(PrintInt(n)) == Some(n) && Plain(PrintInt(n))
  {
    var size: nat := if n < 0 then -n else n;
    DigitsRoundTrip(size);
    ParseDigits(Digits(size));
    DigitsArePlain(Digits(size));
  }

  lemma PaddedAvoids(s: string, before: string, after: string, ch: char)
    requires AllSpace(before) && AllSpace(after) && ch !in s && !IsSpace(ch)
    ensures ch !in Padded(s, before, after)
  {
  }

  // A piece can be told apart from its padding and from the separators.
  lemma PieceRoundTrip(s: string, before: string, after: string)
    requires Plain(s) && AllSpace(before) && AllSpace(after)
    ensures Strip(Padded(s, before, after)) == s
    ensures ',' !in Padded(s, before, after) && ':' !in Padded(s, before, after)
  {
    StripUndoesPad(s, before, after);
    PaddedAvoids(s, before, after, ',');
    PaddedAvoids(s, before, after, ':');
  }

  lemma ThreePieces(pieces: seq<string>)
    requires |pieces| == 3 && forall i :: 0 <= i < 3 ==> ',' !in pieces[i] && ':' !in pieces[i]
    ensures var text := Join(pieces, ':'); Split(text, ':') == pieces && ',' !in text && ':' in text
  {
    SplitUndoesJoin(pieces, ':');
    JoinAvoids(pieces, ':', ',');
    assert Join(pieces, ':') == pieces[0] + [':'] + Join(pieces[1..], ':');
  }

  lemma EntryRoundTrip(e: Entry)
    requires Printable(e)
    ensures ParseEntry(PrintEntry(e)) == Ok(e.server) && ',' !in PrintEntry(e) && ':' in PrintEntry(e)
  {
    var port := PrintInt(e.server.port);
    IntRoundTrip(e.server.port);
    PieceRoundTrip(e.server.addr, e.pad0, e.pad1);
    PieceRoundTrip(port, e.pad2, e.pad3);
    PieceRoundTrip(e.server.url, e.pad4, e.pad5);
    ThreePieces([Padded(e.server.addr, e.pad0, e.pad1), Padded(port, e.pad2, e.pad3),
                 Padded(e.server.url, e.pad4, e.pad5)]);
  }

  /** Round trip: parsing the printed form of a non-empty list of servers, with any whitespace around the pieces,
      gives the list back, in order. */
  lemma ParseUndoesPrint(es: seq<Entry>)
    requires es != [] && forall i :: 0 <= i < |es| ==> Printable(es[i])
    ensures var text := Join(PrintEntries(es), ',');
      text != "" && ParseEntries(Split(text, ',')) == Ok(Servers(es))
  {
    var texts := PrintEntries(es);
    forall i | 0 <= i < |texts|
      ensures ',' !in texts[i] && texts[i] != ""
    {
      EntryRoundTrip(es[i]);
    }
    SplitUndoesJoin(texts, ',');
    AllOkIffEach(ParseEntry, texts);
    forall i | 0 <= i < |texts|
      ensures ParseEntry(texts[i]) == Ok(es[i].server)
    {
      EntryRoundTrip(es[i]);
    }
    assert ParseEntries(texts).value == Servers(es);
  }

  // ---------------------------------------------------------------------------------------------
  // The same, by the characters themselves

  // Blank, tab, line feed, carriage return, vertical tab and form feed.
  predicate OnlyWhitespace(s: string) {
    forall ch :: ch in s ==> ch == ' ' || ch == '\t' || ch == '\n' || ch == '\r' || ch == '\U{000B}' || ch == '\U{000C}'
  }

  // Neither comma nor colon, and no whitespace at either end.
  predicate PlainText(s: string) {
    && ',' !in s && ':' !in s
    && (s != "" ==> !OnlyWhitespace(s[..1]) && !OnlyWhitespace(s[|s| - 1..]))
  }

  lemma WhitespaceIsSpace(s: string)
    ensures OnlyWhitespace(s) <==> AllSpace(s)
    ensures PlainText(s) <==> Plain(s)
  {
    if s != "" {
      assert s[..1] == [s[0]] && s[|s| - 1..] == [s[|s| - 1]];
      assert s[0] in s[..1] && s[|s| - 1] in s[|s| - 1..];
    }
    forall i | 0 <= i < |s|
      ensures s[i] in s
    {
    }
  }

  /** Round trip: any of the six whitespace characters may stand around the pieces, and no other character is taken away
      from their ends. */
  lemma PaddingIsWhitespace(addr: string, port: int, url: string, pads: seq<string>)
    requires PlainText(addr) && PlainText(url) && |pads| == 6 && forall i :: 0 <= i < 6 ==> OnlyWhitespace(pads[i])
    ensures var first, second, third := pads[0] + addr + pads[1], pads[2] + PrintInt(port) + pads[3],
                                        pads[4] + url + pads[5];
      ParseEntries(Split(first + ":" + (second + ":" + third), ',')) == Ok([Server(addr, port, url)])
  {
    var e := Entry(Server(addr, port, url), pads[0], pads[1], pads[2], pads[3], pads[4], pads[5]);
    WhitespaceIsSpace(addr);
    WhitespaceIsSpace(url);
    forall i | 0 <= i < 6
      ensures AllSpace(pads[i])
    {
      WhitespaceIsSpace(pads[i]);
    }
    ParseUndoesPrint([e]);
    JoinThree(Padded(addr, pads[0], pads[1]), Padded(PrintInt(port), pads[2], pads[3]), Padded(url, pads[4], pads[5]));
    assert PrintEntries([e]) == [PrintEntry(e)] && Servers([e]) == [e.server];
  }

  lemma JoinThree(a: string, b: string, c: string)
    ensures Join([a, b, c], ':') == a + ":" + (b + ":" + c)
  {
    assert [a, b, c][1..] == [b, c] && [b, c][1..] == [c];
    assert Join([c], ':') == c && Join([b, c], ':') == b + [':'] + c;
  }

  /** The texts taken for an integer are decimal digits with at most one sign before them. */
  lemma IntegerTexts(s: string)
    ensures ParseInt(s).Some? <==>
            var digits := if s != "" && (s[0] == '-' || s[0] == '+') then s[1..] else s;
            digits != "" && forall ch :: ch in digits ==> '0' <= ch <= '9'
  {
    var digits := if s != "" && (s[0] == '-' || s[0] == '+') then s[1..] else s;
    DigitsByCharacter(digits);
  }

  lemma DigitsByCharacter(s: string)
    ensures AllDigits(s) <==> forall ch :: ch in s ==> '0' <= ch <= '9'
  {
    forall i | 0 <= i < |s|
      ensures s[i] in s
    {
    }
  }

  /** A plus sign changes nothing. */
  lemma PlusIsAccepted(n: nat)
    ensures ParseInt("+" + Digits(n)) == ParseInt(Digits(n)) == Some(n)
  {
    IntRoundTrip(n);
    DigitsRoundTrip(n);
    assert ("+" + Digits(n))[1..] == Digits(n);
  }
}
