/**
 `jsonObjectAt` of `room_info.go` (lines 447-480): cut the JSON object out of a page that starts at a given
 brace. A character stands for a byte of the page.
 */
module JsonScan {
  // ----- the scanner

  datatype Mode = Outside | InString | Escaped

  datatype State = State(depth: int, mode: Mode)

  function Next(st: State, ch: char): State {
    match st.mode
    case Escaped => st.(mode := InString)
    case InString => if ch == '\\' then st.(mode := Escaped) else if ch == '"' then st.(mode := Outside) else st
    case Outside =>
      if ch == '"' then st.(mode := InString)
      else if ch == '{' then st.(depth := st.depth + 1)
      else if ch == '}' then st.(depth := st.depth - 1)
      else st
  }

  /** Whether this character closes the brace that opened the object. */
  predicate Closes(st: State, ch: char) {
    st.mode.Outside? && ch == '}' && st.depth == 1
  }

  /** The rest of a scan that began at `open` and stands before `idx`. */
  function ScannedFrom(body: string, open: nat, idx: nat, st: State): string
    requires open <= idx <= |body|
    decreases |body| - idx
  {
    if idx == |body| then ""
    else if Closes(st, body[idx]) then body[open..idx + 1]
    else ScannedFrom(body, open, idx + 1, Next(st, body[idx]))
  }

  function ObjectAt(body: string, open: int): string {
    if open < 0 || open >= |body| || body[open] != '{' then "" else ScannedFrom(body, open, open, State(0, Outside))
  }

  method JsonObjectAt(body: string, open: int) returns (r: string)
    ensures r == ObjectAt(body, open)
  {
    if open < 0 || open >= |body| || body[open] != '{' { return ""; }
    var depth := 0;
    var inString, escaped := false, false;
    var idx := open;
    while idx < |body|
      invariant open <= idx <= |body| && (escaped ==> inString)
      invariant ScannedFrom(body, open, idx,
                            State(depth, if escaped then Escaped else if inString then InString else Outside))
                == ObjectAt(body, open)
    {
      var ch := body[idx];
      if inString {
        if escaped {
          escaped := false;
        } else if ch == '\\' {
          escaped := true;
        } else if ch == '"' {
          inString := false;
        }
      } else if ch == '"' {
        inString := true;
      } else if ch == '{' {
        depth := depth + 1;
      } else if ch == '}' {
        depth := depth - 1;
        if depth == 0 { return body[open..idx + 1]; }
      }
      idx := idx + 1;
    }
    return "";
  }

  // ----- what it computes: the shortest balanced prefix

  /** What follows the string literal whose opening quote has just been read. */
  function AfterString(text: string): (r: string)
    ensures |r| <= |text|
  {
    if text == "" then ""
    else if text[0] == '\\' then (if |text| == 1 then "" else AfterString(text[2..]))
    else if text[0] == '"' then text[1..]
    else AfterString(text[1..])
  }

  /** The text without its string literals. */
  function Unquoted(text: string): string
    decreases |text|
  {
    if text == "" then ""
    else if text[0] == '"' then Unquoted(AfterString(text[1..]))
    else [text[0]] + Unquoted(text[1..])
  }

  /** Opening minus closing braces. */
  function Balance(text: string): int {
    if text == "" then 0
    else (if text[0] == '{' then 1 else if text[0] == '}' then -1 else 0) + Balance(text[1..])
  }

  /** The state after a text. */
  function Fed(st: State, text: string): State
    decreases |text|
  {
    if text == "" then st else Fed(Next(st, text[0]), text[1..])
  }

  lemma {:induction false} FedInString(st: State, text: string)
    requires !st.mode.Outside?
    ensures var rest :=
              if st.mode.InString? then AfterString(text) else if text == "" then "" else AfterString(text[1..]);
            if rest == "" then Fed(st, text).depth == st.depth
            else Fed(st, text) == Fed(State(st.depth, Outside), rest)
    decreases |text|
  {
    if text != "" {
      var next := Next(st, text[0]);
      if !next.mode.Outside? {
        FedInString(next, text[1..]);
        if st.mode.InString? && text[0] == '\\' && |text| > 1 {
          assert text[1..][1..] == text[2..];
        }
      }
    }
  }

  lemma BalanceUnfolds(c: char, text: string)
    ensures Balance([c] + text) == (if c == '{' then 1 else if c == '}' then -1 else 0) + Balance(text)
  {
    assert ([c] + text)[1..] == text;
  }

  /** The depth of the scan is the balance of what it has read outside strings. */
  lemma {:induction false} DepthIsBalance(st: State, text: string)
    requires st.mode.Outside?
    ensures Fed(st, text).depth == st.depth + Balance(Unquoted(text))
    decreases |text|
  {
    if text != "" {
      if text[0] == '"' {
        FedInString(State(st.depth, InString), text[1..]);
        DepthIsBalance(st, AfterString(text[1..]));
      } else {
        BalanceUnfolds(text[0], Unquoted(text[1..]));
        DepthIsBalance(Next(st, text[0]), text[1..]);
      }
    }
  }

  lemma {:induction false} FedConcat(st: State, a: string, b: string)
    ensures Fed(st, a + b) == Fed(Fed(st, a), b)
    decreases |a|
  {
    if a == "" {
      assert a + b == b;
    } else {
      FedConcat(Next(st, a[0]), a[1..], b);
      assert (a + b)[1..] == a[1..] + b;
    }
  }

  lemma FedOne(st: State, text: string, ch: char)
    ensures Fed(st, text + [ch]) == Next(Fed(st, text), ch)
  {
    FedConcat(st, text, [ch]);
    assert [ch][1..] == "";
  }

  /** The object starting at `open` is the text up to `end`. */
  predicate EndsAt(body: string, open: nat, end: nat, r: string) {
    open < end <= |body| && r == body[open..end]
  }

  /** Depths of the prefixes from `from` to before `to` are positive. */
  predicate PositiveBetween(body: string, open: nat, from: nat, to: nat)
    requires open <= from <= to <= |body| + 1
  {
    forall k :: from <= k < to ==> Fed(State(0, Outside), body[open..k]).depth > 0
  }

  lemma {:induction false} ScanStopsAtZero(body: string, open: nat, idx: nat, st: State)
    requires open <= idx <= |body| && st == Fed(State(0, Outside), body[open..idx]) && st.depth > 0
    ensures var r := ScannedFrom(body, open, idx, st);
            if r == "" then PositiveBetween(body, open, idx, |body| + 1)
            else EndsAt(body, open, open + |r|, r) && idx < open + |r|
                 && PositiveBetween(body, open, idx, open + |r|) && Fed(State(0, Outside), r).depth == 0
    decreases |body| - idx
  {
    hide Fed;
    if idx < |body| {
      assert body[open..idx + 1] == body[open..idx] + [body[idx]];
      FedOne(State(0, Outside), body[open..idx], body[idx]);
      if !Closes(st, body[idx]) {
        ScanStopsAtZero(body, open, idx + 1, Next(st, body[idx]));
      }
    }
  }

  /** Opening minus closing braces outside the string literals of the first `k` characters from `open` on. */
  function BalanceOf(body: string, open: nat, k: nat): int
    requires open + k <= |body|
  {
    Balance(Unquoted(body[open..open + k]))
  }

  /** The result is the shortest prefix of the text at `open` whose braces outside string literals balance;
      it is empty exactly if no prefix does. */
  lemma ObjectIsShortestBalanced(body: string, open: nat)
    requires open < |body| && body[open] == '{'
    ensures var r := ObjectAt(body, open);
            && (r != "" ==> |r| <= |body| - open && r == body[open..open + |r|] && BalanceOf(body, open, |r|) == 0)
            && forall k :: 1 <= k <= |body| - open && (r == "" || k < |r|) ==> BalanceOf(body, open, k) > 0
  {
    hide Fed, Unquoted, Balance;
    var start := State(0, Outside);
    assert body[open..open + 1] == "" + [body[open]];
    FedOne(start, "", body[open]);
    FedNothing(start);
    ScanStopsAtZero(body, open, open + 1, Next(start, body[open]));
    var r := ObjectAt(body, open);
    assert r == ScannedFrom(body, open, open + 1, Next(start, body[open]));
    if r != "" {
      assert EndsAt(body, open, open + |r|, r);
      DepthIsBalance(start, r);
    }
    forall k | 1 <= k <= |body| - open && (r == "" || k < |r|)
      ensures BalanceOf(body, open, k) > 0
    {
      DepthIsBalance(start, body[open..open + k]);
      var end := open + k;
      assert Fed(start, body[open..end]).depth > 0;
    }
  }

  lemma FedNothing(st: State)
    ensures Fed(st, "") == st
  {
  }

  // ----- JSON texts: sections 2 to 7 of RFC 8259

  predicate IsSpace(text: string) {
    forall i :: 0 <= i < |text| ==> text[i] in {' ', '\t', '\n', '\r'}
  }

  predicate IsDigits(text: string) {
    text != "" && forall i :: 0 <= i < |text| ==> '0' <= text[i] <= '9'
  }

  predicate IsHex(ch: char) {
    '0' <= ch <= '9' || 'a' <= ch <= 'f' || 'A' <= ch <= 'F'
  }

  /** A character of a string: as it is, escaped by one character, or escaped by four hexadecimal digits. */
  datatype Unit = Plain(ch: char) | Escape(ch: char) | Unicode(hex: string) {
    predicate Valid() {
      match this
      case Plain(ch) => ch >= ' ' && ch != '"' && ch != '\\'
      case Escape(ch) => ch in {'"', '\\', '/', 'b', 'f', 'n', 'r', 't'}
      case Unicode(hex) => |hex| == 4 && IsHex(hex[0]) && IsHex(hex[1]) && IsHex(hex[2]) && IsHex(hex[3])
    }

    function Text(): string {
      match this
      case Plain(ch) => [ch]
      case Escape(ch) => ['\\', ch]
      case Unicode(hex) => ['\\', 'u'] + hex
    }
  }

  /** `[ minus ] int [ frac ] [ exp ]`: an absent part is empty. */
  datatype Number = Number(minus: bool, whole: string, frac: string, exp: string) {
    predicate Valid() {
      && IsDigits(whole) && (whole[0] == '0' ==> |whole| == 1)
      && (frac != "" ==> frac[0] == '.' && IsDigits(frac[1..]))
      && (exp != "" ==> exp[0] in {'e', 'E'} && |exp| > 1
                        && (if exp[1] in {'+', '-'} then IsDigits(exp[2..]) else IsDigits(exp[1..])))
    }

    function Text(): string {
      (if minus then "-" else "") + whole + frac + exp
    }
  }

  /** Values with the white space around their structural characters. */
  datatype Value =
    | Literal(name: string)
    | Num(number: Number)
    | Str(units: seq<Unit>)
    | EmptyArray(space: string)
    | Array(items: Items)
    | EmptyObject(space: string)
    | Object(members: Members)

  datatype Items =
    | LastItem(before: string, value: Value, after: string)
    | Item(before: string, value: Value, after: string, rest: Items)

  /** `inside` are the spaces on either side of the colon. */
  datatype Members =
    | LastMember(before: string, name: seq<Unit>, inside: (string, string), value: Value, after: string)
    | Member(before: string, name: seq<Unit>, inside: (string, string), value: Value, after: string, rest: Members)

  predicate ValidUnits(units: seq<Unit>) {
    forall i :: 0 <= i < |units| ==> units[i].Valid()
  }

  predicate ValidValue(v: Value) {
    match v
    case Literal(name) => name in {"true", "false", "null"}
    case Num(number) => number.Valid()
    case Str(units) => ValidUnits(units)
    case EmptyArray(space) => IsSpace(space)
    case Array(items) => ValidItems(items)
    case EmptyObject(space) => IsSpace(space)
    case Object(members) => ValidMembers(members)
  }

  predicate ValidItems(items: Items) {
    IsSpace(items.before) && ValidValue(items.value) && IsSpace(items.after) && (items.Item? ==> ValidItems(items.rest))
  }

  predicate ValidMembers(m: Members) {
    && IsSpace(m.before) && ValidUnits(m.name) && IsSpace(m.inside.0) && IsSpace(m.inside.1) && ValidValue(m.value)
      && IsSpace(m.after)
    && (m.Member? ==> ValidMembers(m.rest))
  }

  function UnitsText(units: seq<Unit>): string {
    if units == [] then "" else units[0].Text() + UnitsText(units[1..])
  }

  function Quoted(units: seq<Unit>): string {
    "\"" + UnitsText(units) + "\""
  }

  function Text(v: Value): string {
    match v
    case Literal(name) => name
    case Num(number) => number.Text()
    case Str(units) => Quoted(units)
    case EmptyArray(space) => "[" + space + "]"
    case Array(items) => "[" + ItemsText(items) + "]"
    case EmptyObject(space) => "{" + space + "}"
    case Object(members) => "{" + MembersText(members) + "}"
  }

  function ItemsText(items: Items): string {
    var first := items.before + Text(items.value) + items.after;
    if items.LastItem? then first else first + "," + ItemsText(items.rest)
  }

  function MembersText(m: Members): string {
    var first := m.before + Quoted(m.name) + m.inside.0 + ":" + m.inside.1 + Text(m.value) + m.after;
    if m.LastMember? then first else first + "," + MembersText(m.rest)
  }

  /** Reading the text from outside strings at this depth leaves the scan there, and never closes on the way. */
  predicate Passes(depth: int, text: string) {
    Fed(State(depth, Outside), text) == State(depth, Outside)
    && forall k :: 0 <= k < |text| ==> !Closes(Fed(State(depth, Outside), text[..k]), text[k])
  }

  lemma PassesConcat(depth: int, a: string, b: string)
    requires Passes(depth, a) && Passes(depth, b)
    ensures Passes(depth, a + b)
  {
    hide Fed, Closes;
    var st := State(depth, Outside);
    FedConcat(st, a, b);
    forall k | 0 <= k < |a + b|
      ensures !Closes(Fed(st, (a + b)[..k]), (a + b)[k])
    {
      if k < |a| {
        assert (a + b)[..k] == a[..k];
      } else {
        assert (a + b)[..k] == a + b[..k - |a|];
        FedConcat(st, a, b[..k - |a|]);
      }
    }
  }

  predicate NoBraces(text: string) {
    forall i :: 0 <= i < |text| ==> text[i] !in {'"', '{', '}'}
  }

  lemma {:induction false} NoBracesPass(depth: int, text: string)
    requires NoBraces(text)
    ensures Passes(depth, text)
  {
    var n := |text|;
    if n > 0 {
      NoBracesPass(depth, text[..n - 1]);
      OnePasses(depth, text[n - 1]);
      PassesConcat(depth, text[..n - 1], [text[n - 1]]);
      assert text == text[..n - 1] + [text[n - 1]];
    }
  }

  lemma OnePasses(depth: int, ch: char)
    requires ch !in {'"', '{', '}'}
    ensures Passes(depth, [ch])
  {
    assert [ch][1..] == "" && [ch][..0] == "";
  }

  /** Inside a string nothing closes, and each unit leaves the scan inside the string. */
  predicate StaysInString(depth: int, text: string) {
    Fed(State(depth, InString), text) == State(depth, InString)
    && forall k :: 0 <= k < |text| ==> !Fed(State(depth, InString), text[..k]).mode.Outside?
  }

  lemma StaysConcat(depth: int, a: string, b: string)
    requires StaysInString(depth, a) && StaysInString(depth, b)
    ensures StaysInString(depth, a + b)
  {
    hide Fed;
    var st := State(depth, InString);
    FedConcat(st, a, b);
    forall k | 0 <= k < |a + b|
      ensures !Fed(st, (a + b)[..k]).mode.Outside?
    {
      if k < |a| {
        assert (a + b)[..k] == a[..k];
      } else {
        assert (a + b)[..k] == a + b[..k - |a|];
        FedConcat(st, a, b[..k - |a|]);
      }
    }
  }

  lemma PlainStays(depth: int, ch: char)
    requires ch != '"' && ch != '\\'
    ensures StaysInString(depth, [ch])
  {
    assert [ch][1..] == "" && [ch][..0] == "";
  }

  lemma EscapeStays(depth: int, ch: char)
    ensures StaysInString(depth, ['\\', ch])
  {
    var st, text := State(depth, InString), ['\\', ch];
    FedNothing(st);
    FedOne(st, "", '\\');
    FedOne(st, ['\\'], ch);
    assert "" + ['\\'] == ['\\'] && text == ['\\'] + [ch];
    forall k | 0 <= k < |text| ensures !Fed(st, text[..k]).mode.Outside? {
      assert text[..k] == if k == 0 then "" else ['\\'];
    }
  }

  lemma UnitStays(depth: int, u: Unit)
    requires u.Valid()
    ensures StaysInString(depth, u.Text())
  {
    hide StaysInString;
    match u
    case Plain(ch) => PlainStays(depth, ch);
    case Escape(ch) => EscapeStays(depth, ch);
    case Unicode(hex) =>
      EscapeStays(depth, 'u');
      PlainStays(depth, hex[0]);
      PlainStays(depth, hex[1]);
      PlainStays(depth, hex[2]);
      PlainStays(depth, hex[3]);
      StaysConcat(depth, [hex[0]], [hex[1]]);
      StaysConcat(depth, [hex[2]], [hex[3]]);
      StaysConcat(depth, [hex[0]] + [hex[1]], [hex[2]] + [hex[3]]);
      StaysConcat(depth, ['\\', 'u'], ([hex[0]] + [hex[1]]) + ([hex[2]] + [hex[3]]));
      assert hex == ([hex[0]] + [hex[1]]) + ([hex[2]] + [hex[3]]);
  }

  lemma {:induction false} UnitsStay(depth: int, units: seq<Unit>)
    requires ValidUnits(units)
    ensures StaysInString(depth, UnitsText(units))
  {
    if units == [] {
      FedNothing(State(depth, InString));
    } else {
      UnitStays(depth, units[0]);
      UnitsStay(depth, units[1..]);
      StaysConcat(depth, units[0].Text(), UnitsText(units[1..]));
    }
  }

  /** A string literal passes, whatever braces, quotes and backslashes it stands for. */
  lemma QuotedPasses(depth: int, units: seq<Unit>)
    requires ValidUnits(units)
    ensures Passes(depth, Quoted(units))
  {
    UnitsStay(depth, units);
    QuotedTextPasses(depth, UnitsText(units));
  }

  lemma QuotedTextPasses(depth: int, inner: string)
    requires StaysInString(depth, inner)
    ensures Passes(depth, "\"" + inner + "\"")
  {
    var out, inside := State(depth, Outside), State(depth, InString);
    var text := "\"" + inner + "\"";
    FedQuote(out);
    FedQuote(inside);
    hide Fed;
    FedConcat(out, "\"", inner);
    FedConcat(out, "\"" + inner, "\"");
    forall k | 0 <= k < |text|
      ensures !Closes(Fed(out, text[..k]), text[k])
    {
      if k > 0 {
        assert text[..k] == "\"" + inner[..k - 1];
        FedConcat(out, "\"", inner[..k - 1]);
        if k - 1 == |inner| {
          assert inner[..k - 1] == inner;
        }
      }
    }
  }

  lemma FedQuote(st: State)
    ensures Fed(st, "\"") == Next(st, '"')
  {
    assert "\""[1..] == "";
  }

  /** A matched pair of braces around a text that passes one level deeper passes. */
  lemma BracesPass(depth: int, inner: string)
    requires depth > 0 && Passes(depth + 1, inner)
    ensures Passes(depth, "{" + inner + "}")
  {
    var st := State(depth, Outside);
    var text := "{" + inner + "}";
    FedBrace(st);
    FedClose(State(depth + 1, Outside));
    hide Fed;
    FedConcat(st, "{", inner);
    FedConcat(st, "{" + inner, "}");
    forall k | 0 <= k < |text|
      ensures !Closes(Fed(st, text[..k]), text[k])
    {
      if k > 0 {
        assert text[..k] == "{" + inner[..k - 1];
        FedConcat(st, "{", inner[..k - 1]);
        if k - 1 == |inner| {
          assert inner[..k - 1] == inner;
        }
      }
    }
  }

  lemma FedBrace(st: State)
    ensures Fed(st, "{") == Next(st, '{')
  {
    assert "{"[1..] == "";
  }

  lemma FedClose(st: State)
    ensures Fed(st, "}") == Next(st, '}')
  {
    assert "}"[1..] == "";
  }

  lemma Around(depth: int, before: string, inner: string, after: string)
    requires NoBraces(before) && Passes(depth, inner) && NoBraces(after)
    ensures Passes(depth, before + inner + after)
  {
    hide Passes;
    NoBracesPass(depth, before);
    NoBracesPass(depth, after);
    PassesConcat(depth, before, inner);
    PassesConcat(depth, before + inner, after);
  }

  lemma NumberHasNoBraces(number: Number)
    requires number.Valid()
    ensures NoBraces(number.Text())
  {
    NumberPart(number.frac, 1);
    NumberPart(number.exp, if number.exp != "" && number.exp[1] in {'+', '-'} then 2 else 1);
  }

  lemma NumberPart(text: string, n: nat)
    requires text != "" ==>
               && 0 < n <= 2 && n <= |text| && IsDigits(text[n..]) && text[0] in {'.', 'e', 'E'}
               && (n == 2 ==> text[1] in {'+', '-'})
    ensures NoBraces(text)
  {
    forall i | 0 <= i < |text| ensures text[i] !in {'"', '{', '}'} {
      if i >= n {
        assert text[i] == text[n..][i - n];
      }
    }
  }

  /** The text of every value passes at every depth inside the object. */
  lemma {:induction false} ValuePasses(depth: int, v: Value)
    requires depth > 0 && ValidValue(v)
    ensures Passes(depth, Text(v))
    decreases v
  {
    hide Passes, NoBraces, IsSpace;
    match v
    case Literal(name) =>
      NameHasNoBraces(name);
      NoBracesPass(depth, name);
    case Num(number) =>
      NumberHasNoBraces(number);
      NoBracesPass(depth, number.Text());
    case Str(units) => QuotedPasses(depth, units);
    case EmptyArray(space) =>
      SpaceHasNoBraces(space);
      NoBracesPass(depth, space);
      BracketsPass(depth, space);
    case Array(items) =>
      ItemsPass(depth, items);
      BracketsPass(depth, ItemsText(items));
    case EmptyObject(space) =>
      SpaceHasNoBraces(space);
      NoBracesPass(depth + 1, space);
      BracesPass(depth, space);
    case Object(members) =>
      MembersPass(depth + 1, members);
      BracesPass(depth, MembersText(members));
  }

  lemma NameHasNoBraces(name: string)
    requires name in {"true", "false", "null"}
    ensures NoBraces(name)
  {
  }

  lemma SpaceHasNoBraces(space: string)
    requires IsSpace(space)
    ensures NoBraces(space)
  {
  }

  lemma BracketsPass(depth: int, inner: string)
    requires Passes(depth, inner)
    ensures Passes(depth, "[" + inner + "]")
  {
    Around(depth, "[", inner, "]");
  }

  lemma {:induction false} ItemsPass(depth: int, items: Items)
    requires depth > 0 && ValidItems(items)
    ensures Passes(depth, ItemsText(items))
    decreases items
  {
    hide Passes, NoBraces, IsSpace, Text;
    ValuePasses(depth, items.value);
    SpaceHasNoBraces(items.before);
    SpaceHasNoBraces(items.after);
    Around(depth, items.before, Text(items.value), items.after);
    if items.Item? {
      ItemsPass(depth, items.rest);
      CommaPasses(depth, items.before + Text(items.value) + items.after, ItemsText(items.rest));
    }
  }

  lemma CommaPasses(depth: int, first: string, rest: string)
    requires Passes(depth, first) && Passes(depth, rest)
    ensures Passes(depth, first + "," + rest)
  {
    hide Passes;
    NoBracesPass(depth, ",");
    PassesConcat(depth, first, ",");
    PassesConcat(depth, first + ",", rest);
  }

  lemma NamePasses(depth: int, m: Members)
    requires ValidUnits(m.name) && IsSpace(m.before) && IsSpace(m.inside.0) && IsSpace(m.inside.1)
    ensures Passes(depth, m.before + Quoted(m.name) + m.inside.0 + ":" + m.inside.1)
  {
    hide Passes, Quoted;
    QuotedPasses(depth, m.name);
    Around(depth, m.before, Quoted(m.name), m.inside.0);
    NoBracesPass(depth, ":");
    NoBracesPass(depth, m.inside.1);
    PassesConcat(depth, m.before + Quoted(m.name) + m.inside.0, ":");
    PassesConcat(depth, m.before + Quoted(m.name) + m.inside.0 + ":", m.inside.1);
  }

  lemma {:induction false} MembersPass(depth: int, m: Members)
    requires depth > 0 && ValidMembers(m)
    ensures Passes(depth, MembersText(m))
    decreases m
  {
    hide Passes, NoBraces, IsSpace, Text, Quoted;
    ValuePasses(depth, m.value);
    NamePasses(depth, m);
    var name := m.before + Quoted(m.name) + m.inside.0 + ":" + m.inside.1;
    SpaceHasNoBraces(m.after);
    NoBracesPass(depth, m.after);
    PassesConcat(depth, name, Text(m.value));
    PassesConcat(depth, name + Text(m.value), m.after);
    if m.Member? {
      MembersPass(depth, m.rest);
      CommaPasses(depth, name + Text(m.value) + m.after, MembersText(m.rest));
    }
  }

  // ----- the object is found

  lemma {:induction false} ScanPasses(body: string, open: nat, idx: nat, depth: int, inner: string)
    requires open <= idx && idx + |inner| <= |body| && body[idx..idx + |inner|] == inner
    requires Passes(depth, inner)
    ensures ScannedFrom(body, open, idx, State(depth, Outside))
      == ScannedFrom(body, open, idx + |inner|, State(depth, Outside))
  {
    ScanAlong(body, open, idx, State(depth, Outside), inner);
  }

  lemma {:induction false} ScanAlong(body: string, open: nat, idx: nat, st: State, inner: string)
    requires open <= idx && idx + |inner| <= |body| && body[idx..idx + |inner|] == inner
    requires forall k :: 0 <= k < |inner| ==> !Closes(Fed(st, inner[..k]), inner[k])
    ensures ScannedFrom(body, open, idx, st) == ScannedFrom(body, open, idx + |inner|, Fed(st, inner))
    decreases |inner|
  {
    if inner != "" {
      var rest := inner[1..];
      assert inner[..0] == "" && body[idx] == inner[0] && body[idx + 1..idx + 1 + |rest|] == rest;
      forall k | 0 <= k < |rest| ensures !Closes(Fed(Next(st, inner[0]), rest[..k]), rest[k]) {
        assert inner[..k + 1][1..] == rest[..k];
      }
      ScanAlong(body, open, idx + 1, Next(st, inner[0]), rest);
    }
  }

  /** Wherever the text of a JSON object stands in a page, the scan returns exactly that text. */
  lemma FindsEveryObject(before: string, v: Value, after: string)
    requires ValidValue(v) && (v.Object? || v.EmptyObject?)
    ensures ObjectAt(before + Text(v) + after, |before|) == Text(v)
  {
    var inner := if v.Object? then MembersText(v.members) else v.space;
    if v.Object? {
      MembersPass(1, v.members);
    } else {
      SpaceHasNoBraces(v.space);
      NoBracesPass(1, v.space);
    }
    hide Passes, MembersText, ValidValue;
    FindsBraced(before, inner, after);
  }

  lemma FindsBraced(before: string, inner: string, after: string)
    requires Passes(1, inner)
    ensures ObjectAt(before + ("{" + inner + "}") + after, |before|) == "{" + inner + "}"
  {
    hide Passes;
    var body := before + ("{" + inner + "}") + after;
    var open, close := |before|, |before| + 1 + |inner|;
    assert body[open] == '{' && body[close] == '}' && body[open + 1..close] == inner;
    assert body[open..close + 1] == "{" + inner + "}";
    ScanPasses(body, open, open + 1, 1, inner);
  }
}
