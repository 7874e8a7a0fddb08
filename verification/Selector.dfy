/** Printing a label map as a PromQL selector, and reading it back. */
module Selector {
  import opened Wrappers

  const MAX_VALUE := 255

  // ---------------------------------------------------------------- escaping

  /** Every occurrence of one character replaced, as str.replace does. */
  function Replace(s: string, c: char, sub: string): string {
    if s == "" then "" else (if s[0] == c then sub else [s[0]]) + Replace(s[1..], c, sub)
  }

  /** Three passes over the whole value: backslash, newline, quote. */
  function EscapeLabel(s: string): string {
    Replace(Replace(Replace(s, '\\', "\\\\"), '\n', "\\n"), '"', "\\\"")
  }

  function EscapeChar(c: char): string {
    match c
    case '\\' => "\\\\"
    case '\n' => "\\n"
    case '"' => "\\\""
    case _ => [c]
  }

  /** One pass, character by character. */
  function Escape(s: string): string {
    if s == "" then "" else EscapeChar(s[0]) + Escape(s[1..])
  }

  lemma {:induction false} ReplaceConcat(a: string, b: string, c: char, sub: string)
    ensures Replace(a + b, c, sub) == Replace(a, c, sub) + Replace(b, c, sub)
  {
    if a == "" {
      assert a + b == b;
    } else {
      assert (a + b)[1..] == a[1..] + b;
      ReplaceConcat(a[1..], b, c, sub);
    }
  }

  lemma ReplaceShort(s: string, c: char, sub: string)
    requires 1 <= |s| <= 2
    ensures Replace(s, c, sub) == (if s[0] == c then sub else [s[0]])
                                 + (if |s| == 2 then (if s[1] == c then sub else [s[1]]) else "")
  {
    assert Replace(s[1..], c, sub) == if |s| == 2 then (if s[1] == c then sub else [s[1]]) + Replace(s[2..], c, sub) else "";
  }

  lemma EscapeOneChar(c: char)
    ensures EscapeLabel([c]) == EscapeChar(c)
  {
    hide Replace;
    var once := Replace([c], '\\', "\\\\");
    ReplaceShort([c], '\\', "\\\\");
    ReplaceShort(once, '\n', "\\n");
    ReplaceShort(Replace(once, '\n', "\\n"), '"', "\\\"");
  }

  /** No pass touches what an earlier pass wrote. */
  lemma {:induction false} PassesDoNotInterfere(s: string)
    ensures EscapeLabel(s) == Escape(s)
  {
    if s != "" {
      assert s == [s[0]] + s[1..];
      EscapeOneChar(s[0]);
      PassesDoNotInterfere(s[1..]);
      EscapeConcat([s[0]], s[1..]);
    }
  }

  lemma EscapeConcat(a: string, b: string)
    ensures EscapeLabel(a + b) == EscapeLabel(a) + EscapeLabel(b)
  {
    hide Replace;
    ReplaceConcat(a, b, '\\', "\\\\");
    var a1, b1 := Replace(a, '\\', "\\\\"), Replace(b, '\\', "\\\\");
    ReplaceConcat(a1, b1, '\n', "\\n");
    ReplaceConcat(Replace(a1, '\n', "\\n"), Replace(b1, '\n', "\\n"), '"', "\\\"");
  }

  // ---------------------------------------------------------------- reading

  /** The text of a quoted string, and what follows its closing quote. */
  function ReadValue(s: string): Option<(string, string)>
    ensures ReadValue(s).Some? ==> |ReadValue(s).value.1| < |s|
  {
    if s == "" || s[0] == '\n' then None
    else if s[0] == '"' then Some(("", s[1..]))
    else if s[0] != '\\' then Prepend(s[0], ReadValue(s[1..]))
    else if |s| == 1 then None
    else if s[1] == '\\' || s[1] == '"' then Prepend(s[1], ReadValue(s[2..]))
    else if s[1] == 'n' then Prepend('\n', ReadValue(s[2..]))
    else None
  }

  function Prepend(c: char, r: Option<(string, string)>): Option<(string, string)> {
    if r == None then None else Some(([c] + r.value.0, r.value.1))
  }

  predicate NameChar(c: char, first: bool) {
    'A' <= c <= 'Z' || 'a' <= c <= 'z' || c == '_' || (!first && '0' <= c <= '9')
  }

  predicate ValidName(name: string) {
    name != "" && forall i | 0 <= i < |name| :: NameChar(name[i], i == 0)
  }

  ghost function From(first: char, n: nat): (r: string)
    requires first as int + n <= 128
    ensures forall c :: c in r <==> first as int <= c as int < first as int + n
  {
    if n == 0 then "" else From(first, n - 1) + [(first as int + n - 1) as char]
  }

  /** A name begins with one of the 52 letters or an underscore; one of the 10 digits may
      follow. */
  lemma NameCharMeans(c: char)
    ensures NameChar(c, true) <==> c in From('A', 26) || c in From('a', 26) || c == '_'
    ensures NameChar(c, false) <==> c in From('A', 26) || c in From('a', 26) || c == '_' || c in From('0', 10)
  {
  }

  lemma ValidNameMeans(name: string)
    ensures ValidName(name)
            <==> name != ""
                 && (forall i :: 0 <= i < |name| ==>
                       || name[i] in From('A', 26) || name[i] in From('a', 26) || name[i] == '_'
                       || (i > 0 && name[i] in From('0', 10)))
  {
    hide NameChar, From;
    forall i | 0 <= i < |name|
      ensures NameChar(name[i], i == 0) <==> name[i] in From('A', 26) || name[i] in From('a', 26) || name[i] == '_'
                                             || (i > 0 && name[i] in From('0', 10))
    {
      NameCharMeans(name[i]);
    }
  }

  /** The length of the longest run of characters other than an equals sign. */
  function NameLength(s: string): (n: nat)
    ensures n <= |s|
  {
    if s == "" || s[0] == '=' then 0 else 1 + NameLength(s[1..])
  }

  type Pair = (string, string)

  function ReadPair(s: string): Option<(Pair, string)>
    ensures ReadPair(s).Some? ==> |ReadPair(s).value.1| < |s|
  {
    var n := NameLength(s);
    if !ValidName(s[..n]) || |s| < n + 2 || s[n + 1] != '"' then None
    else
      var v := ReadValue(s[n + 2..]);
      if v == None then None else Some(((s[..n], v.value.0), v.value.1))
  }

  function ReadPairs(s: string): Option<seq<Pair>>
    decreases |s|
  {
    var p := ReadPair(s);
    if p == None || p.value.1 == "" then None
    else if p.value.1[0] == '}' then if |p.value.1| == 1 then Some([p.value.0]) else None
    else if p.value.1[0] != ',' then None
    else
      var more := ReadPairs(p.value.1[1..]);
      if more == None then None else Some([p.value.0] + more.value)
  }

  function Parse(s: string): Option<seq<Pair>> {
    if s == "" || s[0] != '{' then None else ReadPairs(s[1..])
  }

  lemma {:induction false} ReadEscaped(v: string, rest: string)
    ensures ReadValue(Escape(v) + "\"" + rest) == Some((v, rest))
  {
    if v != "" {
      var tail := Escape(v[1..]) + "\"" + rest;
      var all := Escape(v) + "\"" + rest;
      ReadEscaped(v[1..], rest);
      assert all == EscapeChar(v[0]) + tail;
      assert v == [v[0]] + v[1..];
      assert all[|EscapeChar(v[0])|..] == tail;
    } else {
      assert Escape(v) + "\"" + rest == "\"" + rest;
    }
  }

  /** Unescaping undoes the three passes. */
  lemma UnescapeEscapeLabel(v: string)
    ensures ReadValue(EscapeLabel(v) + "\"") == Some((v, ""))
  {
    PassesDoNotInterfere(v);
    ReadEscaped(v, "");
    assert Escape(v) + "\"" + "" == Escape(v) + "\"";
  }

  lemma {:induction false} NameEnds(name: string, rest: string)
    requires forall i | 0 <= i < |name| :: name[i] != '='
    ensures NameLength(name + "=" + rest) == |name|
  {
    var s := name + "=" + rest;
    if name != "" {
      assert s[1..] == name[1..] + "=" + rest;
      NameEnds(name[1..], rest);
    }
  }

  // ---------------------------------------------------------------- printing

  function Item(p: Pair): string {
    p.0 + "=\"" + EscapeLabel(p.1) + "\""
  }

  function Join(items: seq<string>): string {
    if items == [] then ""
    else if |items| == 1 then items[0]
    else items[0] + "," + Join(items[1..])
  }

  ghost predicate ItemsOf(items: seq<string>, pairs: seq<Pair>) {
    |items| == |pairs| && forall i :: 0 <= i < |items| ==> items[i] == Item(pairs[i])
  }

  lemma ReadSplit(name: string, value: string)
    requires ValidName(name) && NameLength(name + "=" + ("\"" + value)) == |name| && ReadValue(value).Some?
    ensures ReadPair(name + "=" + ("\"" + value)) == Some(((name, ReadValue(value).value.0), ReadValue(value).value.1))
  {
    hide ValidName, ReadValue, NameLength;
    var s := name + "=" + ("\"" + value);
    assert s[..|name|] == name;
    assert s[|name| + 2..] == value;
  }

  lemma ReadItem(p: Pair, rest: string)
    requires ValidName(p.0)
    ensures ReadPair(Item(p) + rest) == Some((p, rest))
  {
    hide EscapeLabel, ReadValue;
    var value := EscapeLabel(p.1) + "\"" + rest;
    PassesDoNotInterfere(p.1);
    ReadEscaped(p.1, rest);
    assert Item(p) + rest == p.0 + "=" + ("\"" + value);
    NameEnds(p.0, "\"" + value);
    ReadSplit(p.0, value);
  }

  lemma {:induction false} ReadJoined(items: seq<string>, pairs: seq<Pair>)
    requires pairs != [] && ItemsOf(items, pairs)
    requires forall p :: p in pairs ==> ValidName(p.0)
    ensures ReadPairs(Join(items) + "}") == Some(pairs)
  {
    hide ReadPair, ValidName;
    if |pairs| == 1 {
      ReadItem(pairs[0], "}");
      assert pairs == [pairs[0]] && Join(items) == Item(pairs[0]);
    } else {
      var rest := "," + (Join(items[1..]) + "}");
      assert Join(items) + "}" == Item(pairs[0]) + rest;
      ReadItem(pairs[0], rest);
      ReadJoined(items[1..], pairs[1..]);
      assert rest[1..] == Join(items[1..]) + "}";
      assert pairs == [pairs[0]] + pairs[1..];
    }
  }

  // ---------------------------------------------------------------- sorting the keys

  predicate Less(a: string, b: string) {
    b != "" && (a == "" || a[0] < b[0] || (a[0] == b[0] && Less(a[1..], b[1..])))
  }

  /** The order of two texts is that of their first difference; a beginning comes first. */
  ghost predicate ComesFirst(a: string, b: string) {
    exists i :: 0 <= i <= |a| && i < |b| && a[..i] == b[..i] && (i == |a| || a[i] < b[i])
  }

  lemma DifferentStart(a: string, b: string, i: nat)
    requires 0 < i <= |a| && i <= |b| && a[0] != b[0]
    ensures a[..i] != b[..i]
  {
    assert a[..i][0] == a[0] && b[..i][0] == b[0];
  }

  lemma {:induction false} LessMeans(a: string, b: string)
    ensures Less(a, b) <==> ComesFirst(a, b)
  {
    if b == "" {
    } else if a == "" {
      assert a[..0] == b[..0];
    } else if a[0] != b[0] {
      assert a[..0] == b[..0];
      forall i | 0 < i <= |a| && i < |b|
        ensures a[..i] != b[..i]
      {
        DifferentStart(a, b, i);
      }
    } else {
      LessMeans(a[1..], b[1..]);
      if ComesFirst(a[1..], b[1..]) {
        var i :| 0 <= i <= |a[1..]| && i < |b[1..]| && a[1..][..i] == b[1..][..i]
                 && (i == |a[1..]| || a[1..][i] < b[1..][i]);
        assert a[..i + 1] == [a[0]] + a[1..][..i] && b[..i + 1] == [b[0]] + b[1..][..i];
        assert ComesFirst(a, b);
      }
      if ComesFirst(a, b) {
        var i :| 0 <= i <= |a| && i < |b| && a[..i] == b[..i] && (i == |a| || a[i] < b[i]);
        assert i > 0;
        assert a[1..][..i - 1] == a[..i][1..] && b[1..][..i - 1] == b[..i][1..];
      }
    }
  }

  lemma {:induction false} LessTotal(a: string, b: string)
    ensures a == b || Less(a, b) || Less(b, a)
  {
    if a != "" && b != "" && a[0] == b[0] {
      LessTotal(a[1..], b[1..]);
      assert a == [a[0]] + a[1..] && b == [b[0]] + b[1..];
    }
  }

  lemma {:induction false} LessTransitive(a: string, b: string, c: string)
    requires Less(a, b) && Less(b, c)
    ensures Less(a, c)
  {
    if a != "" && a[0] == b[0] == c[0] {
      LessTransitive(a[1..], b[1..], c[1..]);
    }
  }

  lemma {:induction false} LessIrreflexive(a: string)
    ensures !Less(a, a)
  {
    if a != "" {
      LessIrreflexive(a[1..]);
    }
  }

  ghost predicate Ascending(keys: seq<string>) {
    forall i, j :: 0 <= i < j < |keys| ==> Less(keys[i], keys[j])
  }

  method Insert(keys: seq<string>, key: string) returns (r: seq<string>)
    requires Ascending(keys) && key !in keys
    ensures Ascending(r)
    ensures forall k :: k in r <==> k in keys || k == key
  {
    hide Less;
    var i := 0;
    while i < |keys| && Less(keys[i], key)
      invariant i <= |keys|
      invariant forall j :: 0 <= j < i ==> Less(keys[j], key)
    {
      i := i + 1;
    }
    r := keys[..i] + [key] + keys[i..];
    if i < |keys| {
      LessTotal(keys[i], key);
      forall j | i < j < |keys| ensures Less(key, keys[j]) {
        LessTransitive(key, keys[i], keys[j]);
      }
    }
  }

  method SortKeys(keys: set<string>) returns (r: seq<string>)
    ensures Ascending(r)
    ensures forall i, j :: 0 <= i < j < |r| ==> ComesFirst(r[i], r[j])
    ensures forall k :: k in r <==> k in keys
  {
    hide Ascending;
    r := [];
    NothingAscending();
    var rest := keys;
    while rest != {}
      invariant rest <= keys && Ascending(r)
      invariant forall k :: k in r <==> k in keys && k !in rest
    {
      var key :| key in rest;
      r := Insert(r, key);
      rest := rest - {key};
    }
    KeysComeFirst(r);
  }

  lemma KeysComeFirst(keys: seq<string>)
    requires Ascending(keys)
    ensures forall i, j :: 0 <= i < j < |keys| ==> ComesFirst(keys[i], keys[j])
  {
    hide Less, ComesFirst;
    forall i, j | 0 <= i < j < |keys|
      ensures ComesFirst(keys[i], keys[j])
    {
      LessMeans(keys[i], keys[j]);
    }
  }

  lemma NothingAscending()
    ensures Ascending([])
  {
  }

  // ---------------------------------------------------------------- the selector

  datatype SelectorError = NoLabels | InvalidLabel | InvalidValue

  predicate ValidValue(v: string) {
    0 < |v| <= MAX_VALUE
  }

  ghost predicate Good(labels: map<string, string>, clean: string -> string, key: string)
    requires key in labels
  {
    ValidName(key) && ValidValue(clean(labels[key]))
  }

  /** The pairs are the map, cleaned, in ascending order of the names. */
  ghost predicate Lists(pairs: seq<Pair>, labels: map<string, string>, clean: string -> string) {
    && (forall i, j :: 0 <= i < j < |pairs| ==> Less(pairs[i].0, pairs[j].0))
    && (forall p :: p in pairs ==> p.0 in labels && p.1 == clean(labels[p.0]))
    && (forall k :: k in labels ==> (k, clean(labels[k])) in pairs)
  }

  /** Reading this text gives the map, cleaned. */
  ghost predicate Reads(text: string, labels: map<string, string>, clean: string -> string) {
    Parse(text).Some? && Lists(Parse(text).value, labels, clean)
  }

  /** Why a map is refused: its first bad pair. */
  ghost predicate Explains(e: SelectorError, labels: map<string, string>, clean: string -> string) {
    if labels == map[] then e == NoLabels
    else
      exists k :: k in labels && !Good(labels, clean, k)
        && (forall j :: j in labels && Less(j, k) ==> Good(labels, clean, j))
        && e == if !ValidName(k) then InvalidLabel else InvalidValue
  }

  /** A selector is printed exactly for a nonempty map of good pairs, and reading it gives
      that map, cleaned, back. */
  method PrintSelector(labels: map<string, string>, clean: string -> string)
    returns (r: Result<string, SelectorError>)
    ensures r.Success? <==> labels != map[] && forall k :: k in labels ==> Good(labels, clean, k)
    ensures r.Success? ==> forall k :: k in labels ==> ValidName(k) && 0 < |clean(labels[k])| <= 255
    ensures labels != map[] && (forall k :: k in labels ==> ValidName(k) && 0 < |clean(labels[k])| <= 255) ==> r.Success?
    ensures r.Success? ==> Reads(r.value, labels, clean)
    ensures r.Failure? ==> Explains(r.error, labels, clean)
  {
    hide ValidName, Item, Less, ReadPairs, ComesFirst, Lists;
    if labels == map[] {
      return Failure(NoLabels);
    }
    var keys := SortKeys(labels.Keys);
    var items: seq<string> := [];
    ghost var pairs: seq<Pair> := [];
    for i := 0 to |keys|
      invariant ItemsOf(items, pairs) && |pairs| == i
      invariant forall j :: 0 <= j < i ==>
                  Good(labels, clean, keys[j]) && pairs[j] == (keys[j], clean(labels[keys[j]]))
    {
      var key := keys[i];
      var value := clean(labels[key]);
      if !ValidName(key) || !ValidValue(value) {
        FirstBad(labels, clean, keys, i);
        return Failure(if !ValidName(key) then InvalidLabel else InvalidValue);
      }
      items := items + [Item((key, value))];
      pairs := pairs + [(key, value)];
    }
    r := Success("{" + Join(items) + "}");
    assert r.value[1..] == Join(items) + "}";
    AllListed(labels, clean, keys, pairs);
    ReadJoined(items, pairs);
  }

  lemma FirstBad(labels: map<string, string>, clean: string -> string, keys: seq<string>, i: nat)
    requires Ascending(keys) && (forall k :: k in keys <==> k in labels)
    requires i < |keys| && !Good(labels, clean, keys[i])
    requires forall j :: 0 <= j < i ==> Good(labels, clean, keys[j])
    ensures Explains(if !ValidName(keys[i]) then InvalidLabel else InvalidValue, labels, clean)
  {
    hide ValidName, ValidValue, Less, Good;
    assert keys[i] in labels;
    forall k | k in labels && Less(k, keys[i])
      ensures Good(labels, clean, k)
    {
      var j :| 0 <= j < |keys| && keys[j] == k;
      LessIrreflexive(k);
      if j > i {
        LessTransitive(k, keys[i], k);
      }
    }
  }

  lemma AllListed(labels: map<string, string>, clean: string -> string, keys: seq<string>, pairs: seq<Pair>)
    requires Ascending(keys) && (forall k :: k in keys <==> k in labels)
    requires |pairs| == |keys|
    requires forall i :: 0 <= i < |keys| ==> pairs[i] == (keys[i], clean(labels[keys[i]]))
    ensures Lists(pairs, labels, clean)
  {
    hide Less;
    forall k | k in labels
      ensures (k, clean(labels[k])) in pairs
    {
      var i :| 0 <= i < |keys| && keys[i] == k;
      assert pairs[i] == (k, clean(labels[k]));
    }
  }

  /** A text that reads as two maps reads as one: maps that print the same text are equal,
      once cleaned. */
  lemma SelectorDeterminesLabels(text: string, a: map<string, string>, b: map<string, string>, clean: string -> string)
    requires Reads(text, a, clean) && Reads(text, b, clean)
    ensures a.Keys == b.Keys && forall k :: k in a ==> clean(a[k]) == clean(b[k])
  {
    hide Less, Parse;
    var pairs := Parse(text).value;
    forall k | k in a
      ensures k in b && clean(a[k]) == clean(b[k])
    {
      assert (k, clean(a[k])) in pairs;
    }
    forall k | k in b
      ensures k in a
    {
      assert (k, clean(b[k])) in pairs;
    }
  }
}
