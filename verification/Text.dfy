/** White space and trimming as in Go's `strings.TrimSpace`. A character stands for a code point. */
module Text {

  /** `unicode.IsSpace`. */
  predicate IsSpace(c: char) {
    c in {'\t', '\n', '\U{0b}', '\U{0c}', '\r', ' ', '\U{85}', '\U{a0}', '\U{1680}', '\U{2028}', '\U{2029}',
          '\U{202f}', '\U{205f}', '\U{3000}'}
    || '\U{2000}' <= c <= '\U{200a}'
  }

  function TrimLeft(s: string): (r: string)
    ensures r != "" ==> !IsSpace(r[0])
    ensures forall c :: c in r ==> c in s
  {
    if s != "" && IsSpace(s[0]) then TrimLeft(s[1..]) else s
  }

  function TrimRight(s: string): (r: string)
    ensures |r| <= |s| && r == s[..|r|] && (r != "" ==> !IsSpace(r[|r| - 1]))
    ensures forall c :: c in r ==> c in s
  {
    if s != "" && IsSpace(s[|s| - 1]) then TrimRight(s[..|s| - 1]) else s
  }

  function Trim(s: string): string {
    TrimRight(TrimLeft(s))
  }

  /** Without white space at either end. */
  predicate Tight(s: string) {
    s != "" ==> !IsSpace(s[0]) && !IsSpace(s[|s| - 1])
  }

  /** Trimming leaves characters of the text, without white space at either end. */
  lemma TrimIsTight(s: string)
    ensures Tight(Trim(s)) && forall c :: c in Trim(s) ==> c in s
  {
    var left := TrimLeft(s);
    assert Trim(s) != "" ==> Trim(s)[0] == left[0];
  }

  lemma TightIsTrimmed(s: string)
    requires Tight(s)
    ensures Trim(s) == s
  {
  }

  // ----- the order of texts, as `sort.Strings` has it

  predicate Less(a: string, b: string) {
    b != "" && (a == "" || a[0] < b[0] || (a[0] == b[0] && Less(a[1..], b[1..])))
  }

  lemma {:induction false} LessIsTransitive(a: string, b: string, c: string)
    requires Less(a, b) && Less(b, c)
    ensures Less(a, c)
  {
    if a != "" && a[0] == b[0] == c[0] {
      LessIsTransitive(a[1..], b[1..], c[1..]);
    }
  }

  /** Of two texts exactly one is less, or they are equal. */
  lemma {:induction false} LessIsTotal(a: string, b: string)
    ensures Less(a, b) || Less(b, a) || a == b
    ensures !(Less(a, b) && Less(b, a)) && (a == b ==> !Less(a, b))
  {
    if a != "" && b != "" && a[0] == b[0] {
      LessIsTotal(a[1..], b[1..]);
      assert a == [a[0]] + a[1..] && b == [b[0]] + b[1..];
    }
  }

  predicate Ascending(names: seq<string>) {
    forall i, j :: 0 <= i < j < |names| ==> Less(names[i], names[j])
  }

  ghost predicate IsOrderOf(names: seq<string>, keys: set<string>) {
    Ascending(names) && forall k :: k in keys <==> k in names
  }

  /** Puts a new name into its place. */
  method Insert(names: seq<string>, name: string) returns (r: seq<string>)
    requires Ascending(names) && name !in names
    ensures Ascending(r) && forall k :: k in r <==> k in names || k == name
  {
    hide Less;
    var at := 0;
    while at < |names| && Less(names[at], name)
      invariant 0 <= at <= |names| && forall i :: 0 <= i < at ==> Less(names[i], name)
    {
      at := at + 1;
    }
    forall i | at <= i < |names|
      ensures Less(name, names[i])
    {
      LessIsTotal(names[at], name);
      if at < i {
        LessIsTransitive(name, names[at], names[i]);
      }
    }
    r := names[..at] + [name] + names[at..];
  }

  method SortedNames(keys: set<string>) returns (names: seq<string>)
    ensures IsOrderOf(names, keys)
  {
    hide Ascending;
    names := [];
    EmptyAscends();
    var left := keys;
    while left != {}
      invariant left <= keys && Ascending(names) && forall k :: k in names <==> k in keys - left
    {
      var k :| k in left;
      names := Insert(names, k);
      left := left - {k};
    }
  }

  lemma EmptyAscends()
    ensures Ascending([])
  {
  }

  /** A set of names has one order only. */
  lemma {:induction false} OrderIsUnique(a: seq<string>, b: seq<string>, keys: set<string>)
    requires IsOrderOf(a, keys) && IsOrderOf(b, keys)
    ensures a == b
  {
    OrderOfNone(a, keys);
    OrderOfNone(b, keys);
    if a != [] {
      FirstIsLeast(a, b, keys);
      RestIsOrder(a, keys);
      RestIsOrder(b, keys);
      OrderIsUnique(a[1..], b[1..], keys - {a[0]});
      assert a == [a[0]] + a[1..] && b == [b[0]] + b[1..];
    }
  }

  lemma OrderOfNone(a: seq<string>, keys: set<string>)
    requires IsOrderOf(a, keys)
    ensures a == [] <==> keys == {}
  {
    if a != [] {
      assert a[0] in keys;
    }
  }

  lemma FirstIsLeast(a: seq<string>, b: seq<string>, keys: set<string>)
    requires IsOrderOf(a, keys) && IsOrderOf(b, keys) && a != [] && b != []
    ensures a[0] == b[0]
  {
    hide Less;
    assert a[0] in keys && b[0] in keys;
    var i :| 0 <= i < |b| && b[i] == a[0];
    var j :| 0 <= j < |a| && a[j] == b[0];
    LessIsTotal(a[0], b[0]);
  }

  lemma RestIsOrder(a: seq<string>, keys: set<string>)
    requires IsOrderOf(a, keys) && a != []
    ensures IsOrderOf(a[1..], keys - {a[0]})
  {
    hide Less;
    LessIsTotal(a[0], a[0]);
    forall k
      ensures k in keys - {a[0]} <==> k in a[1..]
    {
      if k in a[1..] {
        var i :| 0 <= i < |a[1..]| && a[1..][i] == k;
        assert k == a[i + 1] && Less(a[0], a[i + 1]);
      } else if k in keys {
        var i :| 0 <= i < |a| && a[i] == k;
        assert i > 0 ==> a[1..][i - 1] == k;
      }
    }
  }
}
