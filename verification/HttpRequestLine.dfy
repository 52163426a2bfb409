/** A written request line is reported as what it was written from, in order, and consumed
    to its end: the method, the path elements, the query's names and values, the fragment
    and the version. */
module HttpRequestLine {
  import opened Wrappers
  import opened HttpScan
  import opened HttpSpec
  import opened HttpCut

  // ------------------------------------------------------------------------ the text

  predicate IsWide(c: char) { c == '/' || c == '?' }

  /** Path characters and escapes; where `wide`, slashes and question marks too. */
  predicate IsText(t: string, wide: bool) {
    if t == "" then true
    else if IsPChar(t[0]) || (wide && IsWide(t[0])) then IsText(t[1..], wide)
    else 3 <= |t| && t[0] == '%' && IsHexDigit(t[1]) && IsHexDigit(t[2]) && IsText(t[3..], wide)
  }

  /** A part of a query: a name with its value, or a part without an equals sign. */
  datatype Item = Named(name: string, value: string) | Bare(text: string)

  predicate GoodItem(q: Item) {
    match q
    case Named(name, value) =>
      IsText(name, true) && '&' !in name && IsText(value, true) && '&' !in value && '=' !in value
    case Bare(text) => IsText(text, true) && '&' !in text && '=' !in text
  }

  function ItemText(q: Item): string {
    match q
    case Named(name, value) => name + "=" + value
    case Bare(text) => text
  }

  function QueryText(items: seq<Item>): string
    requires items != []
  {
    if |items| == 1 then ItemText(items[0]) else ItemText(items[0]) + ("&" + QueryText(items[1..]))
  }

  function PathText(elements: seq<string>): string {
    if elements == [] then "" else "/" + elements[0] + PathText(elements[1..])
  }

  /** A request target and what stands around it. */
  datatype RequestLine = RequestLine(verb: string, path: seq<string>, query: seq<Item>, fragment: Option<string>, major: char, minor: char)

  predicate GoodLine(r: RequestLine) {
    && r.verb != "" && (forall i :: 0 <= i < |r.verb| ==> IsTokenChar(r.verb[i]))
    && r.path != [] && (forall i :: 0 <= i < |r.path| ==> IsText(r.path[i], false))
    && (forall i :: 0 <= i < |r.query| ==> GoodItem(r.query[i]))
    && (r.fragment.Some? ==> IsText(r.fragment.value, true))
    && IsDigit(r.major) && IsDigit(r.minor)
  }

  function VersionText(major: char, minor: char): string { "HTTP/" + [major, '.', minor] + "\r\n" }

  function FragmentPart(fragment: Option<string>): string { if fragment.Some? then "#" + fragment.value else "" }

  function Ending(r: RequestLine): string { FragmentPart(r.fragment) + (" " + VersionText(r.major, r.minor)) }

  function QueryPart(items: seq<Item>): string { if items == [] then "" else "?" + QueryText(items) }

  function LineText(r: RequestLine): string {
    r.verb + (" " + (PathText(r.path) + (QueryPart(r.query) + Ending(r))))
  }

  // --------------------------------------------------------------------- the reports

  function PathAtoms(elements: seq<string>): seq<Atom> {
    if elements == [] then [] else [PathElement(elements[0])] + PathAtoms(elements[1..])
  }

  /** A part without an equals sign is passed over. */
  function ItemAtoms(q: Item): seq<Atom> { if q.Named? then [QueryElement(q.name, q.value)] else [] }

  function QueryAtoms(items: seq<Item>): seq<Atom> {
    if items == [] then []
    else ItemAtoms(items[0]) + QueryAtoms(items[1..])
  }

  function FragmentAtoms(fragment: Option<string>): seq<Atom> {
    if fragment.Some? && fragment.value != "" then [FragmentText(fragment.value)] else []
  }

  function LineAtoms(names: Names, r: RequestLine): seq<Atom>
    requires GoodLine(r)
  {
    [MethodName(names.verb(r.verb))] + (PathAtoms(r.path) + (QueryAtoms(r.query) + LastAtoms(r)))
  }

  function LastAtoms(r: RequestLine): seq<Atom>
    requires GoodLine(r)
  {
    FragmentAtoms(r.fragment) + [VersionNumber(DigitOf(r.major), DigitOf(r.minor))]
  }

  // ------------------------------------------------------------------------ the scans

  /** `t` stands at `i`. */
  predicate StandsAt(b: string, i: nat, t: string) { i + |t| <= |b| && b[i..i + |t|] == t }

  lemma Stands(b: string, i: nat, t: string, k: nat)
    requires StandsAt(b, i, t) && k <= |t|
    ensures StandsAt(b, i + k, t[k..]) && (k < |t| ==> b[i + k] == t[k])
  {
    if k < |t| { assert b[i..i + |t|][k] == t[k]; }
    assert b[i + k..i + |t|] == b[i..i + |t|][k..];
  }

  /** A character at which text ends. */
  predicate Ends(c: char, wide: bool) { !IsPChar(c) && c != '%' && !(wide && IsWide(c)) }

  lemma CharRead(b: string, i: nat, wide: bool)
    requires i < |b| && (IsPChar(b[i]) || (wide && IsWide(b[i])))
    ensures TextEnd(b, i, wide) == TextEnd(b, i + 1, wide)
  {
  }

  lemma EscapeRead(b: string, i: nat, wide: bool)
    requires i + 3 <= |b| && b[i] == '%' && IsHexDigit(b[i + 1]) && IsHexDigit(b[i + 2])
    ensures TextEnd(b, i, wide) == TextEnd(b, i + 3, wide)
  {
  }

  lemma TextStops(b: string, i: nat, wide: bool)
    requires i < |b| && Ends(b[i], wide)
    ensures TextEnd(b, i, wide) == Done(i)
  {
  }

  /** The escape at the front of a text stands where the text does. */
  lemma EscapeStands(b: string, i: nat, t: string)
    requires 3 <= |t| && StandsAt(b, i, t)
    ensures i + 3 <= |b| && b[i] == t[0] && b[i + 1] == t[1] && b[i + 2] == t[2] && StandsAt(b, i + 3, t[3..])
  {
    Stands(b, i, t, 0);
    Stands(b, i, t, 1);
    Stands(b, i, t, 2);
    Stands(b, i, t, 3);
  }

  lemma {:induction false} TextRead(b: string, i: nat, t: string, wide: bool)
    requires IsText(t, wide) && StandsAt(b, i, t) && i + |t| < |b| && Ends(b[i + |t|], wide)
    ensures TextEnd(b, i, wide) == Done(i + |t|)
    decreases |t|
  {
    if t == "" {
      TextStops(b, i, wide);
    } else if IsPChar(t[0]) || (wide && IsWide(t[0])) {
      Stands(b, i, t, 0);
      Stands(b, i, t, 1);
      CharRead(b, i, wide);
      TextRead(b, i + 1, t[1..], wide);
    } else {
      EscapeStands(b, i, t);
      EscapeRead(b, i, wide);
      TextRead(b, i + 3, t[3..], wide);
    }
  }

  lemma {:induction false} VerbRead(b: string, i: nat, n: nat)
    requires i <= n < |b| && 0 < n && (forall k :: i <= k < n ==> IsTokenChar(b[k])) && b[n] == ' '
    ensures Token(b, i, ' ') == Done(n)
    decreases n - i
  {
    if i < n { VerbRead(b, i + 1, n); }
  }

  lemma CharScanned(b: string, i: nat, pair: Pair)
    requires i < |b| && PairOk(pair, i) && b[i] != '&' && (IsPChar(b[i]) || IsWide(b[i]))
    ensures QueryEnd(b, i, pair) == QueryEnd(b, i + 1, if b[i] == '=' then Pair(pair.name, i - pair.name, i + 1, true) else pair)
  {
  }

  lemma EscapeScanned(b: string, i: nat, pair: Pair)
    requires i + 3 <= |b| && PairOk(pair, i) && b[i] == '%' && IsHexDigit(b[i + 1]) && IsHexDigit(b[i + 2])
    ensures QueryEnd(b, i, pair) == QueryEnd(b, i + 3, pair)
  {
  }

  lemma Inherits(t: string, k: nat, c: char)
    requires k <= |t| && c !in t
    ensures c !in t[k..]
  {
  }

  /** The scan has gone over the text: it knows where the name starts, and no value of an
      equals sign that was not there. */
  ghost predicate Scanned(b: string, i: nat, t: string, pair: Pair, after: Pair) {
    && PairOk(pair, i) && i + |t| <= |b| && PairOk(after, i + |t|) && after.name == pair.name
    && QueryEnd(b, i, pair) == QueryEnd(b, i + |t|, after)
    && ('=' !in t ==> after == pair)
  }

  /** Text without ampersands moves the query scan on and leaves the name's start. */
  lemma {:induction false} NameScanned(b: string, i: nat, t: string, pair: Pair) returns (after: Pair)
    requires IsText(t, true) && '&' !in t && StandsAt(b, i, t) && PairOk(pair, i)
    ensures Scanned(b, i, t, pair, after)
    decreases |t|
  {
    if t == "" {
      after := pair;
    } else {
      Stands(b, i, t, 0);
      if IsPChar(t[0]) || IsWide(t[0]) { after := CharThen(b, i, t, pair); } else { after := EscapeThen(b, i, t, pair); }
    }
  }

  lemma {:induction false} CharThen(b: string, i: nat, t: string, pair: Pair) returns (after: Pair)
    requires IsText(t, true) && '&' !in t && StandsAt(b, i, t) && PairOk(pair, i) && t != "" && (IsPChar(t[0]) || IsWide(t[0])) && b[i] == t[0]
    ensures Scanned(b, i, t, pair, after)
    decreases |t|, 0
  {
    Stands(b, i, t, 1);
    Inherits(t, 1, '&');
    assert t[0] in t;
    CharScanned(b, i, pair);
    after := NameScanned(b, i + 1, t[1..], if t[0] == '=' then Pair(pair.name, i - pair.name, i + 1, true) else pair);
    if '=' !in t { Inherits(t, 1, '='); }
  }

  lemma {:induction false} EscapeThen(b: string, i: nat, t: string, pair: Pair) returns (after: Pair)
    requires IsText(t, true) && '&' !in t && StandsAt(b, i, t) && PairOk(pair, i) && t != "" && !IsPChar(t[0]) && !IsWide(t[0]) && b[i] == t[0]
    ensures Scanned(b, i, t, pair, after)
    decreases |t|, 0
  {
    EscapeStands(b, i, t);
    Inherits(t, 3, '&');
    EscapeScanned(b, i, pair);
    after := NameScanned(b, i + 3, t[3..], pair);
    if '=' !in t { Inherits(t, 3, '='); }
  }

  lemma Halves(b: string, i: nat, k: nat, n: nat)
    requires k <= n && i + n <= |b|
    ensures b[i..i + n][..k] == b[i..i + k] && b[i..i + n][k..] == b[i + k..i + n]
  {
  }

  lemma StandsSplit(b: string, i: nat, t: string, u: string)
    requires StandsAt(b, i, t + u)
    ensures StandsAt(b, i, t) && StandsAt(b, i + |t|, u)
  {
    Halves(b, i, |t|, |t + u|);
    assert (t + u)[..|t|] == t && (t + u)[|t|..] == u;
  }

  lemma Within(b: string, i: nat, name: string, value: string)
    requires StandsAt(b, i, name + "=" + value)
    ensures StandsAt(b, i, name) && i + |name| < |b| && b[i + |name|] == '=' && StandsAt(b, i + |name| + 1, value)
  {
    assert name + "=" + value == name + ("=" + value);
    StandsSplit(b, i, name, "=" + value);
    StandsSplit(b, i + |name|, "=", value);
    Stands(b, i + |name|, "=", 0);
  }

  lemma Chain(b: string, i: nat, name: string, value: string, before: Pair, after: Pair)
    requires Scanned(b, i, name, Pair(i, 0, 0, false), before) && i + |name| < |b| && b[i + |name|] == '='
    requires Scanned(b, i + |name| + 1, value, Pair(i, |name|, i + |name| + 1, true), after) && '=' !in value
    ensures var e, pair := i + |name| + 1 + |value|, Pair(i, |name|, i + |name| + 1, true);
      e <= |b| && PairOk(pair, e) && QueryEnd(b, i, Pair(i, 0, 0, false)) == QueryEnd(b, e, pair)
  {
    CharScanned(b, i + |name|, before);
  }

  lemma {:induction false} NamedScanned(b: string, i: nat, name: string, value: string)
    requires GoodItem(Named(name, value)) && StandsAt(b, i, name + "=" + value)
    ensures var e, pair := i + |name| + 1 + |value|, Pair(i, |name|, i + |name| + 1, true);
      e <= |b| && PairOk(pair, e) && QueryEnd(b, i, Pair(i, 0, 0, false)) == QueryEnd(b, e, pair)
    ensures StandsAt(b, i, name) && StandsAt(b, i + |name| + 1, value)
  {
    Within(b, i, name, value);
    var before := NameScanned(b, i, name, Pair(i, 0, 0, false));
    var after := NameScanned(b, i + |name| + 1, value, Pair(i, |name|, i + |name| + 1, true));
    Chain(b, i, name, value, before, after);
  }

  lemma {:induction false} BareScanned(b: string, i: nat, text: string)
    requires GoodItem(Bare(text)) && StandsAt(b, i, text)
    ensures QueryEnd(b, i, Pair(i, 0, 0, false)) == QueryEnd(b, i + |text|, Pair(i, 0, 0, false))
  {
    var after := NameScanned(b, i, text, Pair(i, 0, 0, false));
  }

  /** What the scan knows of an item that it has gone over. */
  function PairOf(i: nat, q: Item): Pair {
    if q.Named? then Pair(i, |q.name|, i + |q.name| + 1, true) else Pair(i, 0, 0, false)
  }

  lemma {:induction false} ItemScanned(b: string, i: nat, q: Item)
    requires GoodItem(q) && StandsAt(b, i, ItemText(q))
    ensures var e := i + |ItemText(q)|;
      PairOk(PairOf(i, q), e) && QueryEnd(b, i, Pair(i, 0, 0, false)) == QueryEnd(b, e, PairOf(i, q))
  {
    if q.Named? { NamedScanned(b, i, q.name, q.value); } else { BareScanned(b, i, q.text); }
  }

  lemma ElementIs(b: string, i: nat, q: Item)
    requires StandsAt(b, i, ItemText(q))
    ensures PairOk(PairOf(i, q), i + |ItemText(q)|) && ElementOf(b, i + |ItemText(q)|, PairOf(i, q)) == ItemAtoms(q)
  {
    if q.Named? { Within(b, i, q.name, q.value); }
  }

  lemma ScanStops(b: string, e: nat, pair: Pair)
    requires e < |b| && PairOk(pair, e)
    ensures Ends(b[e], true) ==> QueryEnd(b, e, pair) == AtEnd(e, pair)
    ensures b[e] == '&' && pair.hasValue ==> QueryEnd(b, e, pair) == AtNext(e, pair)
  {
  }

  // ------------------------------------------------------------------------ the query

  /** The scan of the unit has come to `i` and finds the items there. */
  ghost predicate AtItems(b: string, i: nat, items: seq<Item>, rest: string) {
    && items != [] && (forall k :: 0 <= k < |items| ==> GoodItem(items[k]))
    && i <= |b| && b[i..] == QueryText(items) + rest && rest != "" && Ends(rest[0], true)
    && QueryEnd(b, 0, Pair(0, 0, 0, false)) == QueryEnd(b, i, Pair(i, 0, 0, false))
  }

  lemma SplitAt(b: string, i: nat, t: string, u: string)
    requires i <= |b| && b[i..] == t + u
    ensures StandsAt(b, i, t) && i + |t| <= |b| && b[i + |t|..] == u && (u != "" ==> i + |t| < |b| && b[i + |t|] == u[0])
  {
    assert b[i..][..|t|] == t && b[i..][|t|..] == u;
    assert b[i..i + |t|] == b[i..][..|t|] && b[i + |t|..] == b[i..][|t|..];
    if u != "" { assert b[i..][|t|] == u[0]; }
  }

  /** The last item. */
  lemma {:induction false} LastUnit(b: string, i: nat, q: Item, rest: string)
    requires GoodItem(q) && i <= |b| && b[i..] == ItemText(q) + rest && rest != "" && Ends(rest[0], true)
    requires QueryEnd(b, 0, Pair(0, 0, 0, false)) == QueryEnd(b, i, Pair(i, 0, 0, false))
    ensures var e := i + |ItemText(q)|; e <= |b| && b[e..] == rest && QueryStep(b) == Go(Fragment, e, ItemAtoms(q))
  {
    SplitAt(b, i, ItemText(q), rest);
    ItemScanned(b, i, q);
    ElementIs(b, i, q);
    ScanStops(b, i + |ItemText(q)|, PairOf(i, q));
  }

  lemma {:induction false} LastItem(m: Machine, names: Names, kind: Kind, b: string, i: nat, items: seq<Item>, rest: string)
    requires m == MachineOf(kind, names) && Progresses(m) && AtItems(b, i, items, rest) && |items| == 1
    ensures QueryRead(m, b, i, items, rest)
  {
    LastUnit(b, i, items[0], rest);
    OneAtom(items);
    FeedGoes(m, Query, b, QueryStep(b), rest);
  }

  lemma OneAtom(items: seq<Item>)
    requires |items| == 1
    ensures QueryAtoms(items) == ItemAtoms(items[0])
  {
    assert QueryAtoms(items[1..]) == [];
  }

  /** An item without a value belongs to the same unit as the next. */
  lemma {:induction false} BareItem(b: string, i: nat, items: seq<Item>, rest: string)
    requires AtItems(b, i, items, rest) && |items| > 1 && items[0].Bare?
    ensures AtItems(b, i + |items[0].text| + 1, items[1..], rest)
  {
    var t := items[0].text;
    Joined(t, QueryText(items[1..]), rest);
    SplitAt(b, i, t, "&" + (QueryText(items[1..]) + rest));
    BareScanned(b, i, t);
    assert b[i + |t| + 1..] == b[i + |t|..][1..] == QueryText(items[1..]) + rest;
  }

  lemma Joined(t: string, u: string, rest: string)
    ensures (t + ("&" + u)) + rest == t + ("&" + (u + rest))
  {
  }

  /** An item with its value is a unit. */
  lemma {:induction false} NamedUnit(b: string, i: nat, q: Item, next: string)
    requires GoodItem(q) && q.Named? && i <= |b| && b[i..] == ItemText(q) + next && next != "" && next[0] == '&'
    requires QueryEnd(b, 0, Pair(0, 0, 0, false)) == QueryEnd(b, i, Pair(i, 0, 0, false))
    ensures var e := i + |ItemText(q)|;
      e <= |b| && b[e..] == next && QueryStep(b) == Go(Query, e, ItemAtoms(q))
  {
    SplitAt(b, i, ItemText(q), next);
    ItemScanned(b, i, q);
    ElementIs(b, i, q);
    ScanStops(b, i + |ItemText(q)|, PairOf(i, q));
  }

  lemma {:induction false} NamedItem(m: Machine, names: Names, kind: Kind, b: string, i: nat, items: seq<Item>, rest: string, next: string)
    requires m == MachineOf(kind, names) && Progresses(m) && AtItems(b, i, items, rest) && |items| > 1 && items[0].Named?
    requires next == "&" + (QueryText(items[1..]) + rest)
    ensures Feed(m, Query, b)
         == After(i + |ItemText(items[0])|, ItemAtoms(items[0]), Feed(m, Query, next))
    ensures AtItems(next, 1, items[1..], rest)
  {
    Joined(ItemText(items[0]), QueryText(items[1..]), rest);
    NamedUnit(b, i, items[0], next);
    FeedGoes(m, Query, b, QueryStep(b), next);
    assert next[1..] == QueryText(items[1..]) + rest;
  }

  /** One item more in front. */
  lemma MoreItems(items: seq<Item>)
    requires |items| > 1
    ensures |QueryText(items)| == |ItemText(items[0])| + 1 + |QueryText(items[1..])|
    ensures QueryAtoms(items) == ItemAtoms(items[0]) + QueryAtoms(items[1..])
    ensures items[0].Bare? ==> QueryAtoms(items) == QueryAtoms(items[1..])
  {
  }

  ghost predicate QueryRead(m: Machine, b: string, i: nat, items: seq<Item>, rest: string)
    requires Progresses(m) && items != []
  {
    Feed(m, Query, b) == After(i + |QueryText(items)|, QueryAtoms(items), Feed(m, Fragment, rest))
  }

  lemma AfterBare(m: Machine, b: string, i: nat, items: seq<Item>, rest: string)
    requires Progresses(m) && |items| > 1 && items[0].Bare? && QueryRead(m, b, i + |items[0].text| + 1, items[1..], rest)
    ensures QueryRead(m, b, i, items, rest)
  {
    MoreItems(items);
  }

  lemma AfterNamed(m: Machine, b: string, i: nat, items: seq<Item>, rest: string, next: string)
    requires Progresses(m) && |items| > 1 && items[0].Named? && QueryRead(m, next, 1, items[1..], rest)
    requires Feed(m, Query, b)
          == After(i + |ItemText(items[0])|, ItemAtoms(items[0]), Feed(m, Query, next))
    ensures QueryRead(m, b, i, items, rest)
  {
    MoreItems(items);
    AfterTwice(i + |ItemText(items[0])|, ItemAtoms(items[0]),
               1 + |QueryText(items[1..])|, QueryAtoms(items[1..]), Feed(m, Fragment, rest));
  }

  lemma {:induction false} QueryReports(m: Machine, names: Names, kind: Kind, b: string, i: nat, items: seq<Item>, rest: string)
    requires m == MachineOf(kind, names) && Progresses(m) && AtItems(b, i, items, rest)
    ensures QueryRead(m, b, i, items, rest)
    decreases |items|, 1
  {
    if |items| == 1 {
      LastItem(m, names, kind, b, i, items, rest);
    } else if items[0].Bare? {
      BareReports(m, names, kind, b, i, items, rest);
    } else {
      NamedReports(m, names, kind, b, i, items, rest);
    }
  }

  lemma {:induction false} BareReports(m: Machine, names: Names, kind: Kind, b: string, i: nat, items: seq<Item>, rest: string)
    requires m == MachineOf(kind, names) && Progresses(m) && AtItems(b, i, items, rest) && |items| > 1 && items[0].Bare?
    ensures QueryRead(m, b, i, items, rest)
    decreases |items|, 0
  {
    BareItem(b, i, items, rest);
    QueryReports(m, names, kind, b, i + |items[0].text| + 1, items[1..], rest);
    AfterBare(m, b, i, items, rest);
  }

  lemma {:induction false} NamedReports(m: Machine, names: Names, kind: Kind, b: string, i: nat, items: seq<Item>, rest: string)
    requires m == MachineOf(kind, names) && Progresses(m) && AtItems(b, i, items, rest) && |items| > 1 && items[0].Named?
    ensures QueryRead(m, b, i, items, rest)
    decreases |items|, 0
  {
    var next := "&" + (QueryText(items[1..]) + rest);
    NamedItem(m, names, kind, b, i, items, rest, next);
    QueryReports(m, names, kind, next, 1, items[1..], rest);
    AfterNamed(m, b, i, items, rest, next);
  }

  // ------------------------------------------------------------------------- the path

  /** What a path leads to: the query behind a question mark, or the fragment phase. */
  ghost function AfterPath(m: Machine, rest: string): Outcome
    requires Progresses(m) && rest != ""
  {
    if rest[0] == '?' then After(1, [], Feed(m, Query, rest[1..])) else Feed(m, Fragment, rest)
  }

  lemma {:induction false} ElementUnit(e: string, rest: string, b: string)
    requires IsText(e, false) && rest != "" && Ends(rest[0], false) && b == "/" + e + rest
    ensures 1 + |e| < |b| && b[1 + |e|..] == rest
    ensures PathStep(b) == if rest[0] == '/' then Go(Path, 1 + |e|, [PathElement(e)])
                           else if rest[0] == '?' then Go(Query, 2 + |e|, [PathElement(e)])
                           else Go(Fragment, 1 + |e|, [PathElement(e)])
  {
    assert b[1..] == e + rest;
    SplitAt(b, 1, e, rest);
    TextRead(b, 1, e, false);
  }

  lemma {:induction false} LastElement(m: Machine, names: Names, kind: Kind, e: string, rest: string)
    requires m == MachineOf(kind, names) && Progresses(m) && IsText(e, false) && rest != "" && Ends(rest[0], false) && rest[0] != '/'
    ensures Feed(m, Path, "/" + e + rest) == After(1 + |e|, [PathElement(e)], AfterPath(m, rest))
  {
    var b := "/" + e + rest;
    ElementUnit(e, rest, b);
    if rest[0] == '?' {
      assert b[2 + |e|..] == b[1 + |e|..][1..] == rest[1..];
      FeedGoes(m, Path, b, PathStep(b), rest[1..]);
      AfterTwice(1 + |e|, [PathElement(e)], 1, [], Feed(m, Query, rest[1..]));
      assert [PathElement(e)] + [] == [PathElement(e)];
    } else {
      FeedGoes(m, Path, b, PathStep(b), rest);
    }
  }

  lemma {:induction false} OneElement(m: Machine, names: Names, kind: Kind, e: string, rest: string)
    requires m == MachineOf(kind, names) && Progresses(m) && IsText(e, false) && rest != "" && rest[0] == '/'
    ensures Feed(m, Path, "/" + e + rest) == After(1 + |e|, [PathElement(e)], Feed(m, Path, rest))
  {
    var b := "/" + e + rest;
    ElementUnit(e, rest, b);
    FeedGoes(m, Path, b, PathStep(b), rest);
  }

  ghost predicate PathRead(m: Machine, elements: seq<string>, rest: string)
    requires Progresses(m) && rest != ""
  {
    Feed(m, Path, PathText(elements) + rest) == After(|PathText(elements)|, PathAtoms(elements), AfterPath(m, rest))
  }

  lemma ElementFirst(elements: seq<string>, rest: string)
    requires elements != []
    ensures PathText(elements) + rest == "/" + elements[0] + (PathText(elements[1..]) + rest)
    ensures |PathText(elements)| == 1 + |elements[0]| + |PathText(elements[1..])|
    ensures PathAtoms(elements) == [PathElement(elements[0])] + PathAtoms(elements[1..])
  {
    var e, others := "/" + elements[0], PathText(elements[1..]);
    assert PathText(elements) == e + others;
    assert (e + others) + rest == e + (others + rest);
  }

  lemma MoreElements(m: Machine, elements: seq<string>, rest: string, next: string)
    requires Progresses(m) && elements != [] && rest != "" && next == PathText(elements[1..]) + rest && PathRead(m, elements[1..], rest)
    requires Feed(m, Path, "/" + elements[0] + next) == After(1 + |elements[0]|, [PathElement(elements[0])], Feed(m, Path, next))
    ensures PathRead(m, elements, rest)
  {
    ElementFirst(elements, rest);
    TwoReads(m, Path, "/" + elements[0] + next, next, 1 + |elements[0]|, [PathElement(elements[0])],
             |PathText(elements[1..])|, PathAtoms(elements[1..]), AfterPath(m, rest));
  }

  /** One read and then the rest make one. */
  lemma TwoReads(m: Machine, phase: Phase, b: string, next: string, n: nat, atoms: seq<Atom>, n': nat, atoms': seq<Atom>, o: Outcome)
    requires Progresses(m)
    requires Feed(m, phase, b) == After(n, atoms, Feed(m, phase, next)) && Feed(m, phase, next) == After(n', atoms', o)
    ensures Feed(m, phase, b) == After(n + n', atoms + atoms', o)
  {
    AfterTwice(n, atoms, n', atoms', o);
  }

  lemma {:induction false} OnlyElement(m: Machine, elements: seq<string>, rest: string)
    requires Progresses(m) && |elements| == 1 && rest != ""
    requires Feed(m, Path, "/" + elements[0] + rest) == After(1 + |elements[0]|, [PathElement(elements[0])], AfterPath(m, rest))
    ensures PathRead(m, elements, rest)
  {
    assert PathText(elements[1..]) == "" && PathAtoms(elements[1..]) == [];
    assert PathText(elements) == "/" + elements[0] && PathAtoms(elements) == [PathElement(elements[0])];
  }

  lemma {:induction false} PathReports(m: Machine, names: Names, kind: Kind, elements: seq<string>, rest: string)
    requires m == MachineOf(kind, names) && Progresses(m) && elements != [] && (forall i :: 0 <= i < |elements| ==> IsText(elements[i], false))
    requires rest != "" && Ends(rest[0], false) && rest[0] != '/'
    ensures PathRead(m, elements, rest)
    decreases |elements|
  {
    if |elements| == 1 {
      LastElement(m, names, kind, elements[0], rest);
      OnlyElement(m, elements, rest);
    } else {
      var next := PathText(elements[1..]) + rest;
      PathReports(m, names, kind, elements[1..], rest);
      PathStarts(elements[1..], rest);
      OneElement(m, names, kind, elements[0], next);
      MoreElements(m, elements, rest, next);
    }
  }

  lemma PathStarts(elements: seq<string>, rest: string)
    requires elements != []
    ensures PathText(elements) + rest != "" && (PathText(elements) + rest)[0] == '/'
  {
  }

  // ------------------------------------------------------------- fragment and version

  lemma {:induction false} VersionReports(m: Machine, names: Names, kind: Kind, major: char, minor: char, after: string)
    requires m == MachineOf(kind, names) && Progresses(m) && IsDigit(major) && IsDigit(minor)
    ensures Feed(m, Version, VersionText(major, minor) + after)
         == After(10, [VersionNumber(DigitOf(major), DigitOf(minor))], Feed(m, Header(UNFRAMED), after))
  {
    var b := VersionText(major, minor) + after;
    assert |VersionText(major, minor)| == 10 && b[..5] == "HTTP/" && b[5] == major && b[6] == '.' && b[7] == minor && CrLfAt(b, 8);
    assert b[10..] == after;
    FeedGoes(m, Version, b, Go(Header(UNFRAMED), 10, [VersionNumber(DigitOf(major), DigitOf(minor))]), after);
  }

  lemma SpaceEnds(c: char)
    requires c == ' ' || c == '#'
    ensures Ends(c, true) && Ends(c, false) && c != '/' && c != '?'
  {
  }

  lemma {:induction false} FragmentUnit(t: string, rest: string, b: string)
    requires IsText(t, true) && b == "#" + t + (" " + rest)
    ensures 2 + |t| <= |b| && b[2 + |t|..] == rest
    ensures FragmentStep(b) == Go(Version, 2 + |t|, if t == "" then [] else [FragmentText(t)])
  {
    var u := " " + rest;
    assert b[1..] == t + u && u[0] == ' ';
    SplitAt(b, 1, t, u);
    SpaceEnds(u[0]);
    TextRead(b, 1, t, true);
    assert b[2 + |t|..] == b[1 + |t|..][1..] == rest;
  }

  lemma {:induction false} FragmentReports(m: Machine, names: Names, kind: Kind, fragment: Option<string>, rest: string)
    requires m == MachineOf(kind, names) && Progresses(m) && (fragment.Some? ==> IsText(fragment.value, true))
    ensures Feed(m, Fragment, FragmentPart(fragment) + (" " + rest))
         == After(|FragmentPart(fragment)| + 1, FragmentAtoms(fragment), Feed(m, Version, rest))
  {
    var b := FragmentPart(fragment) + (" " + rest);
    if fragment.Some? {
      FragmentUnit(fragment.value, rest, b);
    } else {
      assert b == " " + rest && b[1..] == rest;
    }
    FeedGoes(m, Fragment, b, FragmentStep(b), rest);
  }

  lemma {:induction false} EndingReports(m: Machine, names: Names, kind: Kind, r: RequestLine, after: string)
    requires m == MachineOf(kind, names) && Progresses(m) && GoodLine(r)
    ensures Feed(m, Fragment, Ending(r) + after)
         == After(|Ending(r)|, LastAtoms(r), Feed(m, Header(UNFRAMED), after))
  {
    var version := VersionText(r.major, r.minor);
    assert Ending(r) + after == FragmentPart(r.fragment) + (" " + (version + after));
    FragmentReports(m, names, kind, r.fragment, version + after);
    VersionReports(m, names, kind, r.major, r.minor, after);
    AfterTwice(|FragmentPart(r.fragment)| + 1, FragmentAtoms(r.fragment), 10, [VersionNumber(DigitOf(r.major), DigitOf(r.minor))],
               Feed(m, Header(UNFRAMED), after));
  }

  // ------------------------------------------------------------------- the whole line

  lemma EndingStarts(r: RequestLine, after: string)
    requires GoodLine(r)
    ensures Ending(r) + after != "" && ((Ending(r) + after)[0] == '#' || (Ending(r) + after)[0] == ' ')
    ensures Ends((Ending(r) + after)[0], true) && Ends((Ending(r) + after)[0], false) && (Ending(r) + after)[0] != '/' && (Ending(r) + after)[0] != '?'
  {
    SpaceEnds((Ending(r) + after)[0]);
  }

  /** From the end of the path on. */
  lemma {:induction false} TargetReports(m: Machine, names: Names, kind: Kind, r: RequestLine, after: string, rest: string)
    requires m == MachineOf(kind, names) && Progresses(m) && GoodLine(r) && rest == QueryPart(r.query) + (Ending(r) + after)
    ensures rest != "" && Ends(rest[0], false) && rest[0] != '/'
    ensures AfterPath(m, rest) == After(|QueryPart(r.query)| + |Ending(r)|, QueryAtoms(r.query) + LastAtoms(r), Feed(m, Header(UNFRAMED), after))
  {
    EndingStarts(r, after);
    EndingReports(m, names, kind, r, after);
    QueryTarget(m, names, kind, r.query, Ending(r) + after, rest);
    AfterTwice(|QueryPart(r.query)|, QueryAtoms(r.query), |Ending(r)|, LastAtoms(r), Feed(m, Header(UNFRAMED), after));
  }

  lemma {:induction false} QueryTarget(m: Machine, names: Names, kind: Kind, items: seq<Item>, ending: string, rest: string)
    requires m == MachineOf(kind, names) && Progresses(m) && (forall i :: 0 <= i < |items| ==> GoodItem(items[i]))
    requires ending != "" && Ends(ending[0], true) && ending[0] != '?' && rest == QueryPart(items) + ending
    ensures rest != "" && (rest[0] == '?' || rest[0] == ending[0])
    ensures AfterPath(m, rest) == After(|QueryPart(items)|, QueryAtoms(items), Feed(m, Fragment, ending))
  {
    if items == [] {
      assert rest == ending;
      AfterNone(Feed(m, Fragment, ending));
    } else {
      QuestionFirst(items, ending, rest);
      ItemsTarget(m, names, kind, items, ending, rest[1..]);
    }
  }

  lemma AfterNone(o: Outcome)
    ensures After(0, [], o) == o
  {
    assert [] + o.atoms == o.atoms;
  }

  lemma {:induction false} ItemsTarget(m: Machine, names: Names, kind: Kind, items: seq<Item>, ending: string, b: string)
    requires m == MachineOf(kind, names) && Progresses(m) && items != [] && (forall i :: 0 <= i < |items| ==> GoodItem(items[i]))
    requires ending != "" && Ends(ending[0], true) && b == QueryText(items) + ending
    ensures After(1, [], Feed(m, Query, b)) == After(1 + |QueryText(items)|, QueryAtoms(items), Feed(m, Fragment, ending))
  {
    StartsItems(b, items, ending);
    QueryReports(m, names, kind, b, 0, items, ending);
    BehindQuestion(m, b, |QueryText(items)|, QueryAtoms(items), Feed(m, Fragment, ending));
  }

  lemma StartsItems(b: string, items: seq<Item>, ending: string)
    requires items != [] && (forall i :: 0 <= i < |items| ==> GoodItem(items[i]))
    requires ending != "" && Ends(ending[0], true) && b == QueryText(items) + ending
    ensures AtItems(b, 0, items, ending)
  {
    assert b[0..] == b;
  }

  lemma QuestionFirst(items: seq<Item>, ending: string, rest: string)
    requires items != [] && rest == QueryPart(items) + ending
    ensures rest != "" && rest[0] == '?' && rest[1..] == QueryText(items) + ending
  {
  }

  lemma BehindQuestion(m: Machine, b: string, n: nat, atoms: seq<Atom>, o: Outcome)
    requires Progresses(m) && Feed(m, Query, b) == After(n, atoms, o)
    ensures After(1, [], Feed(m, Query, b)) == After(1 + n, atoms, o)
  {
    AfterTwice(1, [], n, atoms, o);
    assert [] + atoms == atoms;
  }

  lemma {:induction false} VerbReports(m: Machine, names: Names, kind: Kind, verb: string, rest: string)
    requires m == MachineOf(kind, names) && Progresses(m) && verb != "" && (forall i :: 0 <= i < |verb| ==> IsTokenChar(verb[i]))
    ensures Feed(m, Method, verb + (" " + rest)) == After(|verb| + 1, [MethodName(names.verb(verb))], Feed(m, Path, rest))
  {
    var b := verb + (" " + rest);
    assert b[..|verb|] == verb && b[|verb|] == ' ' && b[|verb| + 1..] == rest;
    assert forall k :: 0 <= k < |verb| ==> b[k] == verb[k];
    VerbRead(b, 0, |verb|);
    assert MethodStep(names, b) == Go(Path, |verb| + 1, [MethodName(names.verb(verb))]);
    FeedGoes(m, Method, b, MethodStep(names, b), rest);
  }

  /** A written request line is reported as it was written, whatever follows it. */
  lemma {:induction false} RequestLineReports(names: Names, r: RequestLine, after: string)
    requires GoodLine(r)
    ensures Progresses(MachineOf(Request, names))
    ensures Feed(MachineOf(Request, names), Method, LineText(r) + after)
         == After(|LineText(r)|, LineAtoms(names, r), Feed(MachineOf(Request, names), Header(UNFRAMED), after))
  {
    var m := MachineOf(Request, names);
    ParserProgresses(Request, names);
    var rest := QueryPart(r.query) + (Ending(r) + after);
    var target := PathText(r.path) + rest;
    assert LineText(r) + after == r.verb + (" " + target);
    TargetReports(m, names, Request, r, after, rest);
    PathReports(m, names, Request, r.path, rest);
    VerbReports(m, names, Request, r.verb, target);
    LineJoins(names, r, Feed(m, Header(UNFRAMED), after));
  }

  lemma LineJoins(names: Names, r: RequestLine, o: Outcome)
    requires GoodLine(r)
    ensures After(|r.verb| + 1, [MethodName(names.verb(r.verb))],
              After(|PathText(r.path)|, PathAtoms(r.path), After(|QueryPart(r.query)| + |Ending(r)|, QueryAtoms(r.query) + LastAtoms(r), o)))
         == After(|LineText(r)|, LineAtoms(names, r), o)
  {
    var tail, n := QueryAtoms(r.query) + LastAtoms(r), |QueryPart(r.query)| + |Ending(r)|;
    AfterTwice(|PathText(r.path)|, PathAtoms(r.path), n, tail, o);
    AfterTwice(|r.verb| + 1, [MethodName(names.verb(r.verb))], |PathText(r.path)| + n, PathAtoms(r.path) + tail, o);
  }
}
