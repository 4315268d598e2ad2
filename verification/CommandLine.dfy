/** The command tokenizer (splitCommandLine in acp_backend.go) and its laws. */
module CommandLine {
  import opened Types
  import opened Spaces

  // quote is the open quote character, '\0' for none, as in the source.
  datatype Scanner = Scanner(tokens: seq<string>, current: string, quote: char, escaped: bool, hasToken: bool)

  const BEGIN := Scanner([], "", '\0', false, false)

  function Step(s: Scanner, c: char): Scanner {
    if s.escaped then s.(current := s.current + [c], escaped := false, hasToken := true)
    else if c == '\\' then s.(escaped := true)
    else if s.quote != '\0' then
      if c == s.quote then s.(quote := '\0', hasToken := true)
      else s.(current := s.current + [c], hasToken := true)
    else if c == '"' || c == '\'' then s.(quote := c, hasToken := true)
    else if IsSpace(c) then
      if s.hasToken then s.(tokens := s.tokens + [s.current], current := "", hasToken := false) else s
    else s.(current := s.current + [c], hasToken := true)
  }

  function Scan(s: Scanner, text: string): Scanner
    decreases |text|
  {
    if text == "" then s else Scan(Step(s, text[0]), text[1..])
  }

  function Finish(s: Scanner): Result<seq<string>> {
    if s.escaped || s.quote != '\0' then Err
    else Ok(if s.hasToken then s.tokens + [s.current] else s.tokens)
  }

  function Split(text: string): Result<seq<string>> {
    Finish(Scan(BEGIN, text))
  }

  method SplitCommandLine(cmd: string) returns (r: Result<seq<string>>)
    ensures r == Split(cmd)
  {
    var tokens: seq<string> := [];
    var current := "";
    var inQuote := '\0';
    var escaped, hasToken := false, false;
    for i := 0 to |cmd|
      invariant Scan(Scanner(tokens, current, inQuote, escaped, hasToken), cmd[i..]) == Scan(BEGIN, cmd)
    {
      var c := cmd[i];
      assert cmd[i..][0] == c && cmd[i..][1..] == cmd[i + 1..];
      if escaped {
        current, escaped, hasToken := current + [c], false, true;
        continue;
      }
      if c == '\\' {
        escaped := true;
        continue;
      }
      if inQuote != '\0' {
        if c == inQuote {
          inQuote := '\0';
        } else {
          current := current + [c];
        }
        hasToken := true;
        continue;
      }
      if c == '"' || c == '\'' {
        inQuote, hasToken := c, true;
        continue;
      }
      if IsSpace(c) {
        if hasToken {
          tokens, current, hasToken := tokens + [current], "", false;
        }
        continue;
      }
      current, hasToken := current + [c], true;
    }
    if escaped || inQuote != '\0' {
      return Err;
    }
    if hasToken {
      tokens := tokens + [current];
    }
    return Ok(tokens);
  }

  lemma {:induction false} ScanAppends(s: Scanner, a: string, b: string)
    ensures Scan(s, a + b) == Scan(Scan(s, a), b)
    decreases |a|
  {
    if a == "" {
      assert a + b == b;
    } else {
      assert (a + b)[0] == a[0] && (a + b)[1..] == a[1..] + b;
      ScanAppends(Step(s, a[0]), a[1..], b);
    }
  }

  function After(before: seq<string>, s: Scanner): Scanner {
    s.(tokens := before + s.tokens)
  }

  /** Tokens already collected only stand in front. */
  lemma {:induction false} ScanAfter(before: seq<string>, s: Scanner, text: string)
    ensures Scan(After(before, s), text) == After(before, Scan(s, text))
    decreases |text|
  {
    if text != "" {
      assert before + (s.tokens + [s.current]) == (before + s.tokens) + [s.current];
      ScanAfter(before, Step(s, text[0]), text[1..]);
    }
  }

  /** Between tokens the scanner holds no characters. */
  lemma {:induction false} NothingBetweenTokens(s: Scanner, text: string)
    requires !s.hasToken ==> s.current == ""
    ensures !Scan(s, text).hasToken ==> Scan(s, text).current == ""
    decreases |text|
  {
    if text != "" {
      NothingBetweenTokens(Step(s, text[0]), text[1..]);
    }
  }

  /** Splitting two command lines with a space between them is splitting each. */
  lemma SplitDistributes(a: string, b: string)
    requires Split(a).Ok? && Split(b).Ok?
    ensures Split(a + " " + b) == Ok(Split(a).value + Split(b).value)
  {
    var sa, sb := Scan(BEGIN, a), Scan(BEGIN, b);
    ScanAppends(BEGIN, a + " ", b);
    ScanAppends(BEGIN, a, " ");
    NothingBetweenTokens(BEGIN, a);
    assert Scan(sa, " ") == Step(sa, ' ') by { assert " "[1..] == ""; }
    assert Step(sa, ' ') == After(Split(a).value, BEGIN);
    ScanAfter(Split(a).value, BEGIN, b);
    assert Split(a).value + (sb.tokens + [sb.current]) == (Split(a).value + sb.tokens) + [sb.current];
  }

  // A printer the tokenizer undoes.

  function Escape(token: string): string {
    if token == "" then "" else ['\\', token[0]] + Escape(token[1..])
  }

  function Print(token: string): string {
    if token == "" then "\"\"" else Escape(token)
  }

  function PrintAll(tokens: seq<string>): string {
    if tokens == [] then ""
    else if |tokens| == 1 then Print(tokens[0])
    else Print(tokens[0]) + " " + PrintAll(tokens[1..])
  }

  lemma {:induction false} EscapeScans(s: Scanner, token: string)
    requires !s.escaped && s.quote == '\0' && token != ""
    ensures Scan(s, Escape(token)) == s.(current := s.current + token, hasToken := true)
    decreases |token|
  {
    var text, next := Escape(token), s.(current := s.current + [token[0]], hasToken := true);
    assert text[0] == '\\' && text[1..][0] == token[0] && text[1..][1..] == Escape(token[1..]);
    assert Step(Step(s, '\\'), token[0]) == next;
    assert Scan(s, text) == Scan(next, Escape(token[1..]));
    if token[1..] != "" {
      EscapeScans(next, token[1..]);
      assert s.current + [token[0]] + token[1..] == s.current + token;
    } else {
      assert token == [token[0]];
    }
  }

  lemma PrintSplits(token: string)
    ensures Split(Print(token)) == Ok([token])
  {
    if token == "" {
      var text := "\"\"";
      assert text[1..][0] == '"' && text[1..][1..] == "";
      assert Scan(BEGIN, text) == Scan(Step(Step(BEGIN, '"'), '"'), "");
    } else {
      EscapeScans(BEGIN, token);
      assert "" + token == token;
      assert [] + [token] == [token];
    }
  }

  /** Whatever the tokens contain, splitting their print gives them back. */
  lemma {:induction false} PrintRoundTrips(tokens: seq<string>)
    ensures Split(PrintAll(tokens)) == Ok(tokens)
  {
    if tokens != [] {
      PrintSplits(tokens[0]);
      if |tokens| > 1 {
        PrintRoundTrips(tokens[1..]);
        SplitDistributes(Print(tokens[0]), PrintAll(tokens[1..]));
        assert [tokens[0]] + tokens[1..] == tokens;
      } else {
        assert tokens == [tokens[0]];
      }
    }
  }

  // The language of command lines: white space, bare and escaped characters, quoted stretches.

  datatype Quoted = Plain(c: char) | Backslashed(c: char)

  datatype Item = Space(c: char) | Bare(c: char) | Escaped(c: char) | Quote(mark: char, body: seq<Quoted>)

  predicate IsMark(c: char) {
    c == '"' || c == '\''
  }

  /** A bare character means nothing special; in quotes only the mark and the backslash do. */
  predicate ValidItem(item: Item) {
    match item
    case Space(c) => IsSpace(c)
    case Bare(c) => !IsSpace(c) && !IsMark(c) && c != '\\'
    case Escaped(_) => true
    case Quote(mark, body) => IsMark(mark) && forall x | x in body :: x.Plain? ==> x.c != mark && x.c != '\\'
  }

  function WriteBody(body: seq<Quoted>): string {
    if body == [] then ""
    else (if body[0].Plain? then [body[0].c] else ['\\', body[0].c]) + WriteBody(body[1..])
  }

  function SayBody(body: seq<Quoted>): string {
    if body == [] then "" else [body[0].c] + SayBody(body[1..])
  }

  function Write(item: Item): string {
    match item
    case Space(c) => [c]
    case Bare(c) => [c]
    case Escaped(c) => ['\\', c]
    case Quote(mark, body) => [mark] + WriteBody(body) + [mark]
  }

  function Say(item: Item): string {
    match item
    case Space(_) => ""
    case Bare(c) => [c]
    case Escaped(c) => [c]
    case Quote(_, body) => SayBody(body)
  }

  function WriteAll(items: seq<Item>): string {
    if items == [] then "" else Write(items[0]) + WriteAll(items[1..])
  }

  /** The tokens of a line: what adjoining items say, white space between them; empty quotes are a token too. */
  function Tokens(open: Option<string>, items: seq<Item>): seq<string>
    decreases |items|
  {
    var closed := if open.Some? then [open.value] else [];
    if items == [] then closed
    else if items[0].Space? then closed + Tokens(None, items[1..])
    else Tokens(Some((if open.Some? then open.value else "") + Say(items[0])), items[1..])
  }

  predicate Clean(s: Scanner) {
    !s.escaped && s.quote == '\0' && (!s.hasToken ==> s.current == "")
  }

  function OpenToken(s: Scanner): Option<string> {
    if s.hasToken then Some(s.current) else None
  }

  lemma {:induction false} BodyScans(s: Scanner, body: seq<Quoted>)
    requires IsMark(s.quote) && !s.escaped && s.hasToken
    requires forall x | x in body :: x.Plain? ==> x.c != s.quote && x.c != '\\'
    ensures Scan(s, WriteBody(body)) == s.(current := s.current + SayBody(body))
    decreases |body|
  {
    if body == [] {
      assert s.current + "" == s.current;
    } else {
      var x, text := body[0], WriteBody(body);
      var next := s.(current := s.current + [x.c]);
      assert x in body;
      if x.Plain? {
        assert text[0] == x.c && text[1..] == WriteBody(body[1..]);
      } else {
        assert text[0] == '\\' && text[1..][0] == x.c && text[1..][1..] == WriteBody(body[1..]);
        assert Step(Step(s, '\\'), x.c) == next;
      }
      assert Scan(s, text) == Scan(next, WriteBody(body[1..]));
      BodyScans(next, body[1..]);
      assert s.current + [x.c] + SayBody(body[1..]) == s.current + ([x.c] + SayBody(body[1..]));
    }
  }

  function Taken(s: Scanner, item: Item): Scanner {
    if !item.Space? then s.(current := s.current + Say(item), hasToken := true)
    else if s.hasToken then s.(tokens := s.tokens + [s.current], current := "", hasToken := false)
    else s
  }

  lemma TokensTaken(s: Scanner, items: seq<Item>)
    requires Clean(s) && items != []
    ensures var next := Taken(s, items[0]);
      Clean(next) && s.tokens + Tokens(OpenToken(s), items) == next.tokens + Tokens(OpenToken(next), items[1..])
  {
    var rest := Tokens(None, items[1..]);
    if items[0].Space? {
      assert s.tokens + [s.current] + rest == s.tokens + ([s.current] + rest);
      assert [] + rest == rest;
    } else {
      assert !s.hasToken ==> s.current + Say(items[0]) == "" + Say(items[0]);
    }
  }

  /** An item is scanned from a clean state to a clean state, closing the open token or adding to it. */
  lemma ItemScans(s: Scanner, item: Item)
    requires Clean(s) && ValidItem(item)
    ensures Scan(s, Write(item)) == Taken(s, item)
  {
    var text := Write(item);
    match item
    case Quote(mark, body) =>
      var inside := s.(quote := mark, hasToken := true);
      ScanAppends(s, [mark] + WriteBody(body), [mark]);
      ScanAppends(s, [mark], WriteBody(body));
      OneCharacter(s, mark);
      BodyScans(inside, body);
      OneCharacter(inside.(current := inside.current + SayBody(body)), mark);
    case Escaped(c) =>
      assert text[0] == '\\' && text[1..] == [c];
      OneCharacter(Step(s, '\\'), c);
    case _ => OneCharacter(s, item.c);
  }

  lemma OneCharacter(s: Scanner, c: char)
    ensures Scan(s, [c]) == Step(s, c)
  {
    assert [c][1..] == "";
  }

  lemma {:induction false} ItemsScan(s: Scanner, items: seq<Item>)
    requires Clean(s) && forall x | x in items :: ValidItem(x)
    ensures Finish(Scan(s, WriteAll(items))) == Ok(s.tokens + Tokens(OpenToken(s), items))
    decreases |items|
  {
    if items == [] {
      assert s.tokens + [] == s.tokens;
    } else {
      hide Step, Scan, Write, Say, ValidItem, Finish, Tokens, Taken, Clean;
      assert items[0] in items;
      ItemScans(s, items[0]);
      TokensTaken(s, items);
      ScanAppends(s, Write(items[0]), WriteAll(items[1..]));
      ItemsScan(Taken(s, items[0]), items[1..]);
    }
  }

  /** Reading a quoted stretch up to its closing mark. */
  function ReadBody(mark: char, text: string): Option<(seq<Quoted>, string)> {
    if text == "" then None
    else if text[0] == mark then Some(([], text[1..]))
    else
      var x :=
        if text[0] != '\\' then Some(Plain(text[0])) else if |text| > 1 then Some(Backslashed(text[1])) else None;
      if x.None? then None
      else
        match ReadBody(mark, text[if x.value.Plain? then 1 else 2..])
        case None => None
        case Some((body, rest)) => Some(([x.value] + body, rest))
  }

  lemma QuotedScans(s: Scanner, text: string) returns (after: Scanner)
    requires IsMark(s.quote) && !s.escaped && text != "" && text[0] != s.quote && (text[0] == '\\' ==> |text| > 1)
    ensures after.quote == s.quote && !after.escaped
    ensures Scan(s, text) == Scan(after, text[if text[0] == '\\' then 2 else 1..])
  {
    after := Step(s, text[0]);
    if text[0] == '\\' {
      assert text[1..][0] == text[1] && text[1..][1..] == text[2..];
      after := Step(after, text[1]);
    }
  }

  lemma {:induction false} ReadBodyScans(s: Scanner, text: string)
    requires IsMark(s.quote) && !s.escaped
    ensures match ReadBody(s.quote, text)
      case None => Finish(Scan(s, text)).Err?
      case Some((body, rest)) =>
        && |rest| < |text| && text == WriteBody(body) + [s.quote] + rest
        && ValidItem(Quote(s.quote, body))
    decreases |text|
  {
    if text != "" && text[0] != s.quote {
      if text[0] == '\\' && |text| == 1 {
        OneCharacter(s, '\\');
        assert text == ['\\'];
      } else {
        var after := QuotedScans(s, text);
        hide Scan, Step, Finish;
        ReadBodyScans(after, text[if text[0] == '\\' then 2 else 1..]);
      }
    }
  }

  /** The first item of a line that splits. */
  lemma FirstItem(s: Scanner, text: string) returns (item: Item, rest: string)
    requires !s.escaped && s.quote == '\0' && text != "" && Finish(Scan(s, text)).Ok?
    ensures ValidItem(item) && text == Write(item) + rest && |rest| < |text|
    ensures var after := Scan(s, Write(item));
      !after.escaped && after.quote == '\0' && Scan(after, rest) == Scan(s, text)
  {
    var c := text[0];
    if c == '\\' {
      item, rest := EscapedFirst(s, text);
    } else if IsMark(c) {
      ReadBodyScans(Step(s, c), text[1..]);
      var (body, after) := ReadBody(c, text[1..]).value;
      item, rest := Quote(c, body), after;
      QuoteScans(s, c, body);
      assert text == Write(item) + rest;
    } else {
      item, rest := if IsSpace(c) then Space(c) else Bare(c), text[1..];
      OneCharacter(s, c);
    }
    ScanAppends(s, Write(item), rest);
  }

  lemma EscapedFirst(s: Scanner, text: string) returns (item: Item, rest: string)
    requires !s.escaped && s.quote == '\0' && text != "" && text[0] == '\\' && Finish(Scan(s, text)).Ok?
    ensures ValidItem(item) && text == Write(item) + rest && |rest| < |text|
    ensures var after := Scan(s, Write(item)); !after.escaped && after.quote == '\0'
  {
    OneCharacter(s, '\\');
    assert text == ['\\'] + text[1..] && text[1..] != "";
    item, rest := Escaped(text[1]), text[2..];
    ScanAppends(s, ['\\'], [text[1]]);
    OneCharacter(Step(s, '\\'), text[1]);
    assert Write(item) == ['\\'] + [text[1]];
  }

  /** A line that splits is written by items: nothing outside the language is accepted. */
  lemma {:induction false} AcceptedIsWritten(s: Scanner, text: string) returns (items: seq<Item>)
    requires !s.escaped && s.quote == '\0' && Finish(Scan(s, text)).Ok?
    ensures WriteAll(items) == text && forall x | x in items :: ValidItem(x)
    decreases |text|
  {
    hide Scan, Finish, Write, ValidItem;
    items := [];
    if text != "" {
      var item, rest := FirstItem(s, text);
      var later := AcceptedIsWritten(Scan(s, Write(item)), rest);
      items := [item] + later;
    }
  }

  lemma QuoteScans(s: Scanner, mark: char, body: seq<Quoted>)
    requires !s.escaped && s.quote == '\0' && ValidItem(Quote(mark, body))
    ensures var s' := Scan(s, Write(Quote(mark, body))); !s'.escaped && s'.quote == '\0'
  {
    var inside := s.(quote := mark, hasToken := true);
    ScanAppends(s, [mark] + WriteBody(body), [mark]);
    ScanAppends(s, [mark], WriteBody(body));
    OneCharacter(s, mark);
    OneCharacter(Step(s, mark), mark);
    BodyScans(inside, body);
    OneCharacter(inside.(current := inside.current + SayBody(body)), mark);
  }

  /**
   The tokenizer decides the language: a command line is accepted if and only if items write it,
   and then its tokens are what the items say.
   */
  lemma SplitExactly(text: string)
    ensures Split(text).Ok? <==> exists items :: Writes(items, text)
    ensures forall items | Writes(items, text) :: Split(text) == Ok(Tokens(None, items))
  {
    if Split(text).Ok? {
      var items := AcceptedIsWritten(BEGIN, text);
      assert Writes(items, text);
    }
    forall items | Writes(items, text)
      ensures Split(text) == Ok(Tokens(None, items))
    {
      ItemsScan(BEGIN, items);
      assert [] + Tokens(None, items) == Tokens(None, items);
    }
  }

  ghost predicate Writes(items: seq<Item>, text: string) {
    WriteAll(items) == text && forall x | x in items :: ValidItem(x)
  }
}
