/**
 The cookie header of a listener: `ParseCookies` of `sign/cookie_manager.go` (lines 105-124), `getCookieParts`,
 `getCookieString` and `cookieValue` of `cookie_context.go` (lines 18-79), and `cookieParts` of
 `protocol_profile.go` (lines 134-152). A character stands for a code point. The fixed cookies of a profile are
 any list of clean cookies; the code lists thirteen.
 */
module Cookies {
  import opened Options
  import opened Text

  datatype Cookie = Cookie(name: string, value: string)

  // ----- the text functions of the Go library that the code uses

  /** `strings.Split(s, ";")`. */
  function Split(s: string): (r: seq<string>)
    ensures r != []
  {
    if s == "" then [""]
    else
      var rest := Split(s[1..]);
      if s[0] == ';' then [""] + rest else [[s[0]] + rest[0]] + rest[1..]
  }

  /** `strings.SplitN(s, "=", 2)`, if it finds the sign. */
  function Cut(s: string): Option<(string, string)> {
    if s == "" then None
    else if s[0] == '=' then Some(("", s[1..]))
    else
      match Cut(s[1..])
      case None => None
      case Some((name, value)) => Some(([s[0]] + name, value))
  }

  /** `strings.Join(parts, "; ")`. */
  function Join(parts: seq<string>): string {
    if parts == [] then "" else if |parts| == 1 then parts[0] else parts[0] + "; " + Join(parts[1..])
  }

  // ----- parsing

  function ParsedPair(pair: string): Option<Cookie> {
    match Cut(Trim(pair))
    case None => None
    case Some((name, value)) => Some(Cookie(Trim(name), Trim(value)))
  }

  function ParsedPairs(pairs: seq<string>): seq<Cookie> {
    if pairs == [] then []
    else
      var rest := ParsedPairs(pairs[1..]);
      match ParsedPair(pairs[0])
      case None => rest
      case Some(cookie) => [cookie] + rest
  }

  function Parsed(text: string): seq<Cookie> {
    if text == "" then [] else ParsedPairs(Split(text))
  }

  method ParseCookies(text: string) returns (cookies: seq<Cookie>)
    ensures cookies == Parsed(text)
  {
    hide Split, Trim, Cut;
    cookies := [];
    if text == "" { return; }
    var pairs := Split(text);
    var i := 0;
    while i < |pairs|
      invariant 0 <= i <= |pairs| && cookies + ParsedPairs(pairs[i..]) == ParsedPairs(pairs)
    {
      var rest := pairs[i..];
      assert rest[1..] == pairs[i + 1..];
      var parts := Cut(Trim(pairs[i]));
      if parts.Some? {
        var (name, value) := parts.value;
        cookies := cookies + [Cookie(Trim(name), Trim(value))];
      }
      i := i + 1;
    }
  }

  // ----- printing

  function Part(c: Cookie): string {
    c.name + "=" + c.value
  }

  function Parts(cookies: seq<Cookie>): seq<string> {
    if cookies == [] then [] else [Part(cookies[0])] + Parts(cookies[1..])
  }

  /** A cookie as parsing leaves it: it prints to a part that parses to itself. */
  predicate Clean(c: Cookie) {
    '=' !in c.name && ';' !in c.name && ';' !in c.value && Tight(c.name) && Tight(c.value)
  }

  type CleanCookie = c: Cookie | Clean(c) witness Cookie("", "")

  /** The protocol profile: a desktop client always carries some fixed cookies, a browser none. */
  datatype Profile = Pc(seeds: seq<CleanCookie>) | Web

  function Seeds(profile: Profile): seq<CleanCookie> {
    if profile.Pc? then profile.seeds else []
  }

  function Absent(seeds: seq<Cookie>, present: set<string>): seq<Cookie> {
    if seeds == [] then []
    else (if seeds[0].name in present then [] else [seeds[0]]) + Absent(seeds[1..], present)
  }

  function Names(cookies: seq<Cookie>): set<string> {
    set c | c in cookies :: c.name
  }

  /** The loop of `cookieParts`. */
  method MissingParts(seeds: seq<Cookie>, existing: set<string>) returns (parts: seq<string>)
    ensures parts == Parts(Absent(seeds, existing))
  {
    parts := [];
    var i := 0;
    while i < |seeds|
      invariant 0 <= i <= |seeds| && parts + Parts(Absent(seeds[i..], existing)) == Parts(Absent(seeds, existing))
    {
      var rest := seeds[i..];
      assert rest[1..] == seeds[i + 1..];
      assert [] + Absent(rest[1..], existing) == Absent(rest[1..], existing);
      if seeds[i].name !in existing {
        PartsConcat([seeds[i]], Absent(rest[1..], existing));
        parts := parts + [Part(seeds[i])];
      }
      i := i + 1;
    }
  }

  /** `cookieParts` of the protocol profile. */
  method CookieParts(profile: Profile, existing: set<string>) returns (parts: seq<string>)
    ensures parts == Parts(Absent(Seeds(profile), existing))
  {
    if profile.Web? { return []; }
    parts := MissingParts(profile.seeds, existing);
  }

  /** The cookies in effect for a configured cookie: its own, then the profile's fixed ones it does not name. */
  function Effective(config: string, profile: Profile): seq<Cookie> {
    Parsed(config) + Absent(Seeds(profile), Names(Parsed(config)))
  }

  /** The cookies of a map in the order of their names. */
  function Listed(names: seq<string>, cookies: map<string, string>): seq<Cookie>
    requires forall i :: 0 <= i < |names| ==> names[i] in cookies
  {
    seq(|names|, i requires 0 <= i < |names| => Cookie(names[i], cookies[names[i]]))
  }

  /** Without a configured cookie: ttwid, the other cookies of its response sorted by name, and the fixed
      ones not among them. */
  ghost predicate Automatic(ttwid: string, additional: map<string, string>, profile: Profile, cookies: seq<Cookie>) {
    exists names ::
      IsOrderOf(names, additional.Keys) &&
      var anonymous := [Cookie("ttwid", ttwid)] + Listed(names, additional);
      cookies == anonymous + Absent(Seeds(profile), Names(anonymous))
  }

  /** Every part, and every name. */
  method AllParts(cookies: seq<Cookie>) returns (parts: seq<string>, present: set<string>)
    ensures parts == Parts(cookies) && present == Names(cookies)
  {
    parts, present := [], {};
    var i := 0;
    while i < |cookies|
      invariant 0 <= i <= |cookies| && parts == Parts(cookies[..i]) && present == Names(cookies[..i])
    {
      assert cookies[..i + 1] == cookies[..i] + [cookies[i]];
      PartsConcat(cookies[..i], [cookies[i]]);
      parts := parts + [Part(cookies[i])];
      present := present + {cookies[i].name};
      i := i + 1;
    }
    assert cookies[..i] == cookies;
  }

  method GetCookieParts(config: string, ttwid: string, additional: map<string, string>, profile: Profile)
    returns (parts: seq<string>)
    ensures config != "" ==> parts == Parts(Effective(config, profile))
    ensures config == "" ==> exists cookies :: Automatic(ttwid, additional, profile, cookies) && parts == Parts(cookies)
  {
    hide Parsed, Absent, Seeds, Parts;
    var cookies;
    if config != "" {
      cookies := ParseCookies(config);
    } else {
      var names := SortedNames(additional.Keys);
      cookies := [Cookie("ttwid", ttwid)] + Listed(names, additional);
    }
    var present;
    parts, present := AllParts(cookies);
    var more := CookieParts(profile, present);
    PartsConcat(cookies, Absent(Seeds(profile), present));
    parts := parts + more;
    if config == "" {
      assert Automatic(ttwid, additional, profile, cookies + Absent(Seeds(profile), present));
    }
  }

  lemma {:induction false} PartsConcat(a: seq<Cookie>, b: seq<Cookie>)
    ensures Parts(a + b) == Parts(a) + Parts(b)
  {
    hide Part;
    if a == [] {
      assert a + b == b && [] + Parts(b) == Parts(b);
    } else {
      PartsConcat(a[1..], b);
      assert (a + b)[1..] == a[1..] + b;
      assert [Part(a[0])] + (Parts(a[1..]) + Parts(b)) == ([Part(a[0])] + Parts(a[1..])) + Parts(b);
    }
  }

  /** getCookieString for a configured cookie. */
  function Header(config: string, profile: Profile): string
    requires config != ""
  {
    Join(Parts(Effective(config, profile)))
  }

  /** The value of the first cookie of this name. */
  function FirstValue(cookies: seq<Cookie>, name: string): string {
    if cookies == [] then "" else if cookies[0].name == name then cookies[0].value else FirstValue(cookies[1..], name)
  }

  /** `cookieValue`: of the configured cookies if there are any, else of ttwid and its companions. */
  method CookieValue(config: string, ttwid: string, additional: map<string, string>, name: string)
    returns (value: string)
    ensures var wanted := Trim(name);
            value == if wanted == "" then "" else if config != "" then FirstValue(Parsed(config), wanted)
                     else if wanted == "ttwid" then ttwid else if wanted in additional then additional[wanted] else ""
  {
    hide Parsed;
    var wanted := Trim(name);
    if wanted == "" { return ""; }
    if config == "" {
      if wanted == "ttwid" { return ttwid; }
      return if wanted in additional then additional[wanted] else "";
    }
    var cookies := ParseCookies(config);
    var i := 0;
    while i < |cookies|
      invariant 0 <= i <= |cookies| && FirstValue(cookies[i..], wanted) == FirstValue(cookies, wanted)
    {
      var rest := cookies[i..];
      assert rest[1..] == cookies[i + 1..];
      if cookies[i].name == wanted { return cookies[i].value; }
      i := i + 1;
    }
    return "";
  }

  // ----- what parsing leaves

  predicate AllClean(cookies: seq<Cookie>) {
    forall i :: 0 <= i < |cookies| ==> Clean(cookies[i])
  }

  lemma {:induction false} CutParts(s: string)
    ensures Cut(s).Some? ==>
              '=' !in Cut(s).value.0 && (forall c :: c in Cut(s).value.0 ==> c in s)
                && (forall c :: c in Cut(s).value.1 ==> c in s)
  {
    if s != "" && s[0] != '=' {
      CutParts(s[1..]);
    }
  }

  lemma ParsedPairIsClean(pair: string)
    requires ';' !in pair
    ensures ParsedPair(pair).Some? ==> Clean(ParsedPair(pair).value)
  {
    TrimIsTight(pair);
    CutParts(Trim(pair));
    if Cut(Trim(pair)).Some? {
      TrimIsTight(Cut(Trim(pair)).value.0);
      TrimIsTight(Cut(Trim(pair)).value.1);
    }
  }

  lemma {:induction false} SplitHasNoSemicolon(s: string)
    ensures forall i :: 0 <= i < |Split(s)| ==> ';' !in Split(s)[i]
  {
    if s != "" {
      SplitHasNoSemicolon(s[1..]);
    }
  }

  lemma {:induction false} ParsedPairsAreClean(pairs: seq<string>)
    requires forall i :: 0 <= i < |pairs| ==> ';' !in pairs[i]
    ensures AllClean(ParsedPairs(pairs))
  {
    if pairs != [] {
      ParsedPairIsClean(pairs[0]);
      ParsedPairsAreClean(pairs[1..]);
    }
  }

  lemma ParsedIsClean(text: string)
    ensures AllClean(Parsed(text))
  {
    SplitHasNoSemicolon(text);
    ParsedPairsAreClean(Split(text));
  }

  // ----- a clean cookie survives printing and parsing

  lemma {:induction false} CutOfPart(name: string, value: string)
    requires '=' !in name
    ensures Cut(name + "=" + value) == Some((name, value))
  {
    var s := name + "=" + value;
    if name == "" {
      assert s[1..] == value;
    } else {
      CutOfPart(name[1..], value);
      assert s[1..] == name[1..] + "=" + value;
      assert [name[0]] + name[1..] == name;
    }
  }

  lemma PartIsTight(c: Cookie)
    requires Clean(c)
    ensures Tight(Part(c)) && Part(c) != "" && ';' !in Part(c)
  {
    var s := Part(c);
    assert s[0] == if c.name == "" then '=' else c.name[0];
    assert s[|s| - 1] == if c.value == "" then '=' else c.value[|c.value| - 1];
  }

  /** A printed cookie parses to itself, also behind the blank that joins it to the one before. */
  lemma PartParses(c: Cookie, blank: bool)
    requires Clean(c)
    ensures ParsedPair((if blank then " " else "") + Part(c)) == Some(c)
  {
    PartIsTight(c);
    TightIsTrimmed(Part(c));
    if blank {
      assert (" " + Part(c))[1..] == Part(c);
      assert TrimLeft(" " + Part(c)) == TrimLeft(Part(c));
    } else {
      assert "" + Part(c) == Part(c);
    }
    assert Trim((if blank then " " else "") + Part(c)) == Part(c);
    CutOfPart(c.name, c.value);
    TightIsTrimmed(c.name);
    TightIsTrimmed(c.value);
  }

  // ----- splitting what was joined

  lemma {:induction false} SplitAtSemicolon(piece: string, rest: string)
    requires ';' !in piece
    ensures Split(piece + ";" + rest) == [piece] + Split(rest)
    ensures Split(piece) == [piece]
  {
    var s := piece + ";" + rest;
    if piece == "" {
      assert s[1..] == rest;
    } else {
      SplitAtSemicolon(piece[1..], rest);
      assert s[1..] == piece[1..] + ";" + rest;
      assert [piece[0]] + piece[1..] == piece;
    }
  }

  /** The parts with the blanks that joining puts before all but the first. */
  function Spaced(parts: seq<string>, blank: bool): seq<string> {
    if parts == [] then [] else [(if blank then " " else "") + parts[0]] + Spaced(parts[1..], true)
  }

  lemma {:induction false} SplitJoined(parts: seq<string>, blank: bool)
    requires parts != [] && forall i :: 0 <= i < |parts| ==> ';' !in parts[i]
    ensures Split((if blank then " " else "") + Join(parts)) == Spaced(parts, blank)
  {
    var lead := if blank then " " else "";
    if |parts| == 1 {
      SplitAtSemicolon(lead + parts[0], "");
    } else {
      SplitJoined(parts[1..], true);
      SplitAtSemicolon(lead + parts[0], " " + Join(parts[1..]));
      assert lead + Join(parts) == (lead + parts[0]) + ";" + (" " + Join(parts[1..]));
    }
  }

  lemma {:induction false} SpacedParse(cookies: seq<Cookie>, blank: bool)
    requires AllClean(cookies)
    ensures ParsedPairs(Spaced(Parts(cookies), blank)) == cookies
  {
    hide Part, ParsedPair, Clean;
    if cookies != [] {
      SpacedParse(cookies[1..], true);
      PartParses(cookies[0], blank);
      var parts := Parts(cookies);
      assert parts[1..] == Parts(cookies[1..]);
      assert Spaced(parts, blank)[1..] == Spaced(parts[1..], true);
      assert cookies == [cookies[0]] + cookies[1..];
    }
  }

  lemma {:induction false} PartsHaveNoSemicolon(cookies: seq<Cookie>)
    requires AllClean(cookies)
    ensures |Parts(cookies)| == |cookies| && forall i :: 0 <= i < |Parts(cookies)| ==> ';' !in Parts(cookies)[i]
  {
    if cookies != [] {
      PartIsTight(cookies[0]);
      PartsHaveNoSemicolon(cookies[1..]);
    }
  }

  /** Printing clean cookies and parsing the text gives them back. */
  lemma PrintedParses(cookies: seq<Cookie>)
    requires AllClean(cookies)
    ensures Parsed(Join(Parts(cookies))) == cookies
  {
    if cookies != [] {
      PartsHaveNoSemicolon(cookies);
      PartIsTight(cookies[0]);
      assert Parts(cookies)[0] == Part(cookies[0]);
      SplitJoined(Parts(cookies), false);
      SpacedParse(cookies, false);
      assert "" + Join(Parts(cookies)) == Join(Parts(cookies));
    }
  }

  // ----- main results, for every configured cookie

  lemma {:induction false} AbsentSubset(seeds: seq<Cookie>, present: set<string>)
    requires AllClean(seeds)
    ensures AllClean(Absent(seeds, present)) && Names(Absent(seeds, present)) == Names(seeds) - present
  {
    if seeds != [] {
      AbsentSubset(seeds[1..], present);
      assert Names(seeds) == {seeds[0].name} + Names(seeds[1..]);
      NamesConcat(if seeds[0].name in present then [] else [seeds[0]], Absent(seeds[1..], present));
    }
  }

  lemma NamesConcat(a: seq<Cookie>, b: seq<Cookie>)
    ensures Names(a + b) == Names(a) + Names(b)
  {
  }

  /** Parsing the emitted header gives the configured cookies followed by exactly the profile's fixed cookies
      that they do not name, in order. */
  lemma HeaderParses(config: string, profile: Profile)
    requires config != ""
    ensures Parsed(Header(config, profile)) == Parsed(config) + Absent(Seeds(profile), Names(Parsed(config)))
  {
    ParsedIsClean(config);
    AbsentSubset(Seeds(profile), Names(Parsed(config)));
    hide Parsed, Absent, Seeds;
    PrintedParses(Effective(config, profile));
  }

  lemma {:induction false} NoneAbsent(seeds: seq<Cookie>, present: set<string>)
    requires Names(seeds) <= present
    ensures Absent(seeds, present) == []
  {
    if seeds != [] {
      assert seeds[0].name in Names(seeds);
      assert Names(seeds[1..]) <= Names(seeds);
      NoneAbsent(seeds[1..], present);
    }
  }

  /** Nothing is emitted exactly for a configured text without cookies in a profile without fixed ones. */
  lemma HeaderIsEmptyIff(config: string, profile: Profile)
    requires config != ""
    ensures Header(config, profile) == "" <==> Parsed(config) == [] && Seeds(profile) == []
  {
    HeaderParses(config, profile);
    var seeds := Seeds(profile);
    if Parsed(config) == [] && seeds != [] {
      assert Names(Parsed(config)) == {};
      assert Absent(seeds, {})[0] == seeds[0];
    }
  }

  /** The emitted header is a normal form: configuring it again emits it unchanged. */
  lemma HeaderIsNormalForm(config: string, profile: Profile)
    requires config != "" && Header(config, profile) != ""
    ensures Header(Header(config, profile), profile) == Header(config, profile)
  {
    HeaderParses(config, profile);
    AbsentSubset(Seeds(profile), Names(Parsed(config)));
    hide Parsed, Absent, Seeds, AllClean;
    NamesConcat(Parsed(config), Absent(Seeds(profile), Names(Parsed(config))));
    NoneAbsent(Seeds(profile), Names(Effective(config, profile)));
    assert Effective(Header(config, profile), profile) == Effective(config, profile) + [];
    assert Effective(config, profile) + [] == Effective(config, profile);
  }

  lemma {:induction false} FirstOfConcat(a: seq<Cookie>, b: seq<Cookie>, name: string)
    ensures FirstValue(a + b, name) == if name in Names(a) then FirstValue(a, name) else FirstValue(b, name)
  {
    if a == [] {
      assert a + b == b;
    } else {
      assert (a + b)[1..] == a[1..] + b;
      assert Names(a) == {a[0].name} + Names(a[1..]);
      FirstOfConcat(a[1..], b, name);
    }
  }

  /** A fixed cookie never shadows a configured one: looking a name up in the emitted header gives the
      configured value if there is one, else the profile's. */
  lemma ConfiguredValuesWin(config: string, profile: Profile, name: string)
    requires config != ""
    ensures FirstValue(Parsed(Header(config, profile)), name) ==
            if name in Names(Parsed(config)) then FirstValue(Parsed(config), name) else FirstValue(Seeds(profile), name)
  {
    HeaderParses(config, profile);
    hide Parsed, Seeds;
    FirstOfConcat(Parsed(config), Absent(Seeds(profile), Names(Parsed(config))), name);
    if name !in Names(Parsed(config)) {
      FirstOfAbsent(Seeds(profile), Names(Parsed(config)), name);
    }
  }

  lemma {:induction false} FirstOfAbsent(seeds: seq<Cookie>, present: set<string>, name: string)
    requires name !in present
    ensures FirstValue(Absent(seeds, present), name) == FirstValue(seeds, name)
  {
    if seeds != [] {
      FirstOfAbsent(seeds[1..], present, name);
      assert ([seeds[0]] + Absent(seeds[1..], present))[1..] == Absent(seeds[1..], present);
      assert [] + Absent(seeds[1..], present) == Absent(seeds[1..], present);
    }
  }
}