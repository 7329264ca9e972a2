/** The text that stands for the arguments of a call in the evaluator's memo: canonical JSON, with the
    elements of a set in sorted order. */
module ConstText {
  import opened ConstSemantics

  // ----- numbers -----

  const DIGITS := "0123456789"

  function NatText(n: nat): (s: string)
    ensures s != []
  {
    if n < 10 then [DIGITS[n]] else NatText(n / 10) + [DIGITS[n % 10]]
  }

  function IntText(n: int): string {
    if n < 0 then "-" + NatText(-n) else NatText(n)
  }

  predicate IsDigit(c: char) {
    '0' <= c <= '9'
  }

  function DigitValue(c: char): nat
    requires IsDigit(c)
  {
    c as int - '0' as int
  }

  predicate AllDigits(s: string) {
    forall i :: 0 <= i < |s| ==> IsDigit(s[i])
  }

  function NatOf(s: string): nat
    requires AllDigits(s)
  {
    if s == [] then 0 else 10 * NatOf(s[..|s| - 1]) + DigitValue(s[|s| - 1])
  }

  lemma {:induction false} NatBack(n: nat)
    ensures AllDigits(NatText(n)) && NatOf(NatText(n)) == n
    decreases n
  {
    if n < 10 {
      DigitBack(n);
      assert NatText(n)[..0] == [];
    } else {
      NatBack(n / 10);
      DigitBack(n % 10);
      var s := NatText(n);
      assert s[..|s| - 1] == NatText(n / 10) && s[|s| - 1] == DIGITS[n % 10];
    }
  }

  lemma DigitBack(n: nat)
    requires n < 10
    ensures IsDigit(DIGITS[n]) && DigitValue(DIGITS[n]) == n
  {
  }

  /** The text ends where the digits end. */
  predicate Bounded(x: string) {
    x == [] || !IsDigit(x[0])
  }

  lemma NatUnique(m: nat, n: nat, x: string, y: string)
    requires NatText(m) + x == NatText(n) + y && Bounded(x) && Bounded(y)
    ensures m == n && x == y
  {
    NatBack(m);
    NatBack(n);
    hide NatText, NatOf;
    SameLength(NatText(m), NatText(n), x, y);
    SameHead(NatText(m), NatText(n), x, y);
  }

  lemma SameLength(s: string, t: string, x: string, y: string)
    requires s + x == t + y && AllDigits(s) && AllDigits(t) && Bounded(x) && Bounded(y)
    ensures |s| == |t|
  {
    hide AllDigits, Bounded;
    if |s| < |t| {
      Overrun(s, t, x, y);
    } else if |t| < |s| {
      Overrun(t, s, y, x);
    }
  }

  lemma Overrun(s: string, t: string, x: string, y: string)
    requires s + x == t + y && |s| < |t| && AllDigits(t)
    ensures !Bounded(x)
  {
    assert (s + x)[|s|] == t[|s|];
  }

  lemma SameHead<T>(s: seq<T>, t: seq<T>, x: seq<T>, y: seq<T>)
    requires s + x == t + y && |s| == |t|
    ensures s == t && x == y
  {
    assert s == (s + x)[..|s|] && t == (t + y)[..|t|];
    assert x == (s + x)[|s|..] && y == (t + y)[|t|..];
  }

  lemma IntUnique(m: int, n: int, x: string, y: string)
    requires IntText(m) + x == IntText(n) + y && Bounded(x) && Bounded(y)
    ensures m == n && x == y
  {
    IntStart(m, x);
    IntStart(n, y);
    hide NatText;
    if m < 0 {
      Signed(-m, x);
      Signed(-n, y);
      NatUnique(-m, -n, x, y);
    } else {
      NatUnique(m, n, x, y);
    }
  }

  lemma Signed(n: nat, x: string)
    ensures ("-" + NatText(n) + x)[1..] == NatText(n) + x
  {
    hide NatText;
  }

  lemma IntStart(n: int, x: string)
    ensures var s := IntText(n) + x; s != [] && (if n < 0 then s[0] == '-' else IsDigit(s[0]))
  {
    if n >= 0 { NatBack(n); }
  }

  // ----- strings -----

  const HEX := "0123456789abcdef"

  function EscapeChar(c: char): string {
    if c == '\"' then "\\\"" else if c == '\\' then "\\\\"
    else if c as int == 8 then "\\b" else if c as int == 12 then "\\f"
    else if c == '\n' then "\\n" else if c == '\r' then "\\r" else if c == '\t' then "\\t"
    else if c as int < 32 then "\\u00" + [HEX[c as int / 16], HEX[c as int % 16]]
    else [c]
  }

  /** What stands after the opening quote. */
  function Quoted(s: string): string {
    if s == [] then "\"" else EscapeChar(s[0]) + Quoted(s[1..])
  }

  lemma EscapeUnique(c: char, d: char, x: string, y: string)
    requires EscapeChar(c) + x == EscapeChar(d) + y
    ensures c == d && x == y
  {
    var s, t := EscapeChar(c), EscapeChar(d);
    assert (s + x)[0] == s[0] && (t + y)[0] == t[0];
    if |s| > 1 && |t| > 1 {
      assert (s + x)[1] == s[1] && (t + y)[1] == t[1];
      if |s| == 6 && |t| == 6 {
        SameHead(s, t, x, y);
        assert s[4] == HEX[c as int / 16] && s[5] == HEX[c as int % 16] && t[4] == HEX[d as int / 16] && t[5] == HEX[d as int % 16];
        HexDistinct(c as int / 16, d as int / 16);
        HexDistinct(c as int % 16, d as int % 16);
      }
    }
    SameHead(s, t, x, y);
  }

  lemma HexDistinct(i: nat, j: nat)
    requires i < 16 && j < 16 && HEX[i] == HEX[j]
    ensures i == j
  {
  }

  lemma EscapeStart(c: char)
    ensures EscapeChar(c) != [] && EscapeChar(c)[0] != '\"'
  {
  }

  lemma {:induction false} QuotedUnique(s: string, t: string, x: string, y: string)
    requires Quoted(s) + x == Quoted(t) + y
    ensures s == t && x == y
    decreases |s|
  {
    QuotedStart(s, x);
    QuotedStart(t, y);
    hide EscapeChar, Quoted;
    if s == [] {
      assert t == [];
      SameHead(Quoted(s), Quoted(t), x, y);
    } else {
      QuotedStep(s, x);
      QuotedStep(t, y);
      EscapeUnique(s[0], t[0], Quoted(s[1..]) + x, Quoted(t[1..]) + y);
      QuotedUnique(s[1..], t[1..], x, y);
      assert s == [s[0]] + s[1..] && t == [t[0]] + t[1..];
    }
  }

  /** A quote at the start is the closing one. */
  lemma QuotedStart(s: string, x: string)
    ensures var w := Quoted(s) + x; w != [] && (w[0] == '\"' <==> s == [])
  {
    if s != [] { EscapeStart(s[0]); }
  }

  lemma QuotedStep(s: string, x: string)
    requires s != []
    ensures Quoted(s) + x == EscapeChar(s[0]) + (Quoted(s[1..]) + x)
    ensures EscapeChar(s[0]) != [] ==> (Quoted(s) + x) != [] && (Quoted(s) + x)[0] == EscapeChar(s[0])[0]
  {
  }

  // ----- the order of set elements -----

  function Tag(k: SetKey): nat {
    match k case BoolKey(_) => 0 case NumKey(_) => 1 case TextKey(_) => 2
  }

  function KeyText(k: SetKey): string {
    match k
    case BoolKey(b) => if b then "true" else "false"
    case NumKey(n) => IntText(n)
    case TextKey(s) => s
  }

  predicate TextLeq(a: string, b: string) {
    a == [] || (b != [] && (a[0] < b[0] || (a[0] == b[0] && TextLeq(a[1..], b[1..]))))
  }

  predicate KeyLeq(a: SetKey, b: SetKey) {
    Tag(a) < Tag(b) || (Tag(a) == Tag(b) && TextLeq(KeyText(a), KeyText(b)))
  }

  function Place(k: SetKey, s: seq<SetKey>): seq<SetKey> {
    if s == [] || KeyLeq(k, s[0]) then [k] + s else [s[0]] + Place(k, s[1..])
  }

  function SortKeys(s: seq<SetKey>): seq<SetKey> {
    if s == [] then [] else Place(s[0], SortKeys(s[1..]))
  }

  lemma {:induction false} TextTotal(a: string, b: string)
    ensures TextLeq(a, b) || TextLeq(b, a)
    ensures TextLeq(a, b) && TextLeq(b, a) ==> a == b
    decreases |a|
  {
    if a != [] && b != [] {
      TextTotal(a[1..], b[1..]);
      assert a == [a[0]] + a[1..] && b == [b[0]] + b[1..];
    }
  }

  lemma {:induction false} TextTransitive(a: string, b: string, c: string)
    requires TextLeq(a, b) && TextLeq(b, c)
    ensures TextLeq(a, c)
    decreases |a|
  {
    if a != [] && a[0] == b[0] && b[0] == c[0] { TextTransitive(a[1..], b[1..], c[1..]); }
  }

  lemma KeyOrder(a: SetKey, b: SetKey)
    ensures KeyLeq(a, b) || KeyLeq(b, a)
    ensures KeyLeq(a, b) && KeyLeq(b, a) ==> a == b
  {
    TextTotal(KeyText(a), KeyText(b));
    if a.NumKey? && b.NumKey? && KeyText(a) == KeyText(b) { IntUnique(a.n, b.n, "", ""); }
  }

  predicate SortedFrom(k: SetKey, s: seq<SetKey>) {
    forall i :: 0 <= i < |s| ==> KeyLeq(k, s[i])
  }

  predicate Sorted(s: seq<SetKey>) {
    s != [] ==> SortedFrom(s[0], s[1..]) && Sorted(s[1..])
  }

  lemma {:induction false} PlaceSorted(k: SetKey, s: seq<SetKey>)
    requires Sorted(s)
    ensures Sorted(Place(k, s)) && multiset(Place(k, s)) == multiset(s) + multiset{k}
    decreases |s|
  {
    hide KeyLeq;
    if s == [] {
    } else if KeyLeq(k, s[0]) {
      assert ([k] + s)[1..] == s;
      forall i | 0 <= i < |s| ensures KeyLeq(k, s[i]) {
        if i > 0 { assert s[1..][i - 1] == s[i]; LeqTransitive(k, s[0], s[i]); }
      }
    } else {
      KeyOrder(k, s[0]);
      PlaceSorted(k, s[1..]);
      var t := Place(k, s[1..]);
      assert s == [s[0]] + s[1..] && ([s[0]] + t)[1..] == t;
      forall i | 0 <= i < |t| ensures KeyLeq(s[0], t[i]) {
        assert t[i] in multiset(t);
        if t[i] != k { assert t[i] in multiset(s[1..]); assert t[i] in s[1..]; }
      }
    }
  }

  lemma LeqTransitive(a: SetKey, b: SetKey, c: SetKey)
    requires KeyLeq(a, b) && KeyLeq(b, c)
    ensures KeyLeq(a, c)
  {
    if Tag(a) == Tag(b) == Tag(c) { TextTransitive(KeyText(a), KeyText(b), KeyText(c)); }
  }

  /** Sorting is sorting. */
  lemma {:induction false} SortKeysSorts(s: seq<SetKey>)
    ensures Sorted(SortKeys(s)) && multiset(SortKeys(s)) == multiset(s)
    decreases |s|
  {
    if s != [] {
      SortKeysSorts(s[1..]);
      PlaceSorted(s[0], SortKeys(s[1..]));
      assert s == [s[0]] + s[1..];
    }
  }

  lemma {:induction false} SortedOnce(s: seq<SetKey>, t: seq<SetKey>)
    requires Sorted(s) && Sorted(t) && multiset(s) == multiset(t)
    ensures s == t
    decreases |s|
  {
    hide SortedFrom;
    assert |s| == |multiset(s)| && |t| == |multiset(t)|;
    if s != [] {
      SameFirst(s, t);
      SortedOnce(s[1..], t[1..]);
    }
  }

  lemma SameFirst(s: seq<SetKey>, t: seq<SetKey>)
    requires s != [] && t != [] && Sorted(s) && Sorted(t) && multiset(s) == multiset(t)
    ensures s[0] == t[0] && multiset(s[1..]) == multiset(t[1..])
  {
    hide KeyLeq, Sorted;
    WithoutFirst(s);
    WithoutFirst(t);
    Least(s, t[0]);
    Least(t, s[0]);
    KeyOrder(s[0], t[0]);
  }

  lemma WithoutFirst(s: seq<SetKey>)
    requires s != []
    ensures multiset(s) == multiset{s[0]} + multiset(s[1..]) && s[0] in multiset(s)
    ensures multiset(s[1..]) == multiset(s) - multiset{s[0]}
  {
    assert s == [s[0]] + s[1..];
  }

  lemma Least(s: seq<SetKey>, k: SetKey)
    requires Sorted(s) && k in multiset(s)
    ensures KeyLeq(s[0], k)
  {
    var i :| 0 <= i < |s| && s[i] == k;
    if i > 0 { assert s[1..][i - 1] == k; } else { KeyOrder(k, k); }
  }

  /** Two sets are sorted alike exactly when they have the same elements. */
  lemma SortedAlike(s: seq<SetKey>, t: seq<SetKey>)
    ensures SortKeys(s) == SortKeys(t) <==> multiset(s) == multiset(t)
  {
    SortKeysSorts(s);
    SortKeysSorts(t);
    if multiset(s) == multiset(t) { SortedOnce(SortKeys(s), SortKeys(t)); }
  }

  // ----- values -----

  datatype Kind = NoneKind | BoolKind | IntKind | NumKind | TextKind | TupleKind | ListKind | SetKind

  function Opening(k: Kind): string {
    match k
    case NoneKind => "{\"kind\":\"none\"}"
    case BoolKind => "{\"kind\":\"bool\",\"value\":"
    case IntKind => "{\"kind\":\"int\",\"value\":"
    case NumKind => "{\"kind\":\"num\",\"value\":"
    case TextKind => "{\"kind\":\"text\",\"value\":"
    case TupleKind => "{\"kind\":\"tuple\",\"value\":"
    case ListKind => "{\"kind\":\"frozen_list\",\"value\":"
    case SetKind => "{\"kind\":\"frozen_set\",\"value\":"
  }

  /** The first, second and, after `frozen_`, the first letter of the kind. */
  lemma OpeningLetters(k: Kind, x: string)
    ensures var w := Opening(k) + x;
            && |Opening(k)| > 10 && w[0] == '{'
            && w[9] == (match k case NoneKind => 'n' case BoolKind => 'b' case IntKind => 'i' case NumKind => 'n' case TextKind => 't'
                        case TupleKind => 't' case _ => 'f')
            && w[10] == (match k case NoneKind => 'o' case BoolKind => 'o' case IntKind => 'n' case NumKind => 'u' case TextKind => 'e'
                         case TupleKind => 'u' case _ => 'r')
            && (k.ListKind? || k.SetKind? ==> |Opening(k)| > 16 && w[16] == if k.ListKind? then 'l' else 's')
  {
  }

  lemma OpeningUnique(j: Kind, k: Kind, x: string, y: string)
    requires Opening(j) + x == Opening(k) + y
    ensures j == k && x == y
  {
    OpeningLetters(j, x);
    OpeningLetters(k, y);
    hide Opening;
    assert j == k;
    SameHead(Opening(j), Opening(k), x, y);
  }

  const MIN_SMALL := -0x8000_0000_0000_0000
  const MAX_SMALL := 0x7fff_ffff_ffff_ffff

  predicate IsSmall(q: Rational) {
    q.den == 1 && MIN_SMALL <= q.num <= MAX_SMALL
  }

  /** The digits of a whole number, or numerator and denominator. */
  function NumText(q: Rational): string {
    if q.den == 1 then IntText(q.num) else IntText(q.num) + ("/" + NatText(q.den))
  }

  function KindOf(v: Value): Kind {
    match v
    case Unit => NoneKind
    case Bool(_) => BoolKind
    case Num(q) => if IsSmall(q) then IntKind else NumKind
    case Text(_) => TextKind
    case Tuple(_) => TupleKind
    case List(_) => ListKind
    case FrozenSet(_) => SetKind
  }

  /** What stands after the opening of a value without parts. */
  function AtomRest(v: Value): string {
    match v
    case Unit => ""
    case Bool(b) => if b then "true}" else "false}"
    case Num(q) => if IsSmall(q) then IntText(q.num) + "}" else "\"" + (NumText(q) + "\"}")
    case Text(s) => "\"" + (Quoted(s) + "}")
    case _ => ""
  }

  function KeyWritten(k: SetKey): string {
    Opening(KindOf(KeyValue(k))) + AtomRest(KeyValue(k))
  }

  /** What stands after the opening bracket of an array. */
  function KeysRest(ks: seq<SetKey>): string {
    if ks == [] then "]"
    else KeyWritten(ks[0]) + (if |ks| == 1 then "]" else "," + KeysRest(ks[1..]))
  }

  function Rest(v: Value): string
    decreases v, 0
  {
    match v
    case Tuple(items) => "[" + (ItemsRest(items) + "}")
    case List(items) => "[" + (ItemsRest(items) + "}")
    case FrozenSet(keys) => "[" + (KeysRest(SortKeys(keys)) + "}")
    case _ => AtomRest(v)
  }

  function Written(v: Value): string
    decreases v, 1
  {
    Opening(KindOf(v)) + Rest(v)
  }

  function ItemsRest(items: seq<Value>): string
    decreases items
  {
    if items == [] then "]"
    else Written(items[0]) + (if |items| == 1 then "]" else "," + ItemsRest(items[1..]))
  }

  /** The key under which the value of a call is remembered, beside the name of the function. */
  function ArgsText(args: seq<Value>): string {
    "[" + ItemsRest(args)
  }

  // ----- what the text tells -----

  /** The elements of every set in sorted order. */
  function Ordered(v: Value): Value
    decreases v
  {
    match v
    case Tuple(items) => Tuple(OrderedAll(items))
    case List(items) => List(OrderedAll(items))
    case FrozenSet(keys) => FrozenSet(SortKeys(keys))
    case _ => v
  }

  function OrderedAll(items: seq<Value>): seq<Value>
    decreases items
  {
    if items == [] then [] else [Ordered(items[0])] + OrderedAll(items[1..])
  }

  lemma NumUnique(p: Rational, q: Rational, x: string, y: string)
    requires NumText(p) + ("\"}" + x) == NumText(q) + ("\"}" + y)
    ensures p == q && x == y
  {
    NumParts(p, x);
    NumParts(q, y);
    hide NumText, NatText, IntText;
    IntUnique(p.num, q.num, AfterNum(p, x), AfterNum(q, y));
    AfterUnique(p, q, x, y);
  }

  /** What comes after the numerator. */
  function AfterNum(q: Rational, x: string): string {
    if q.den == 1 then "\"}" + x else "/" + (NatText(q.den) + ("\"}" + x))
  }

  lemma AfterUnique(p: Rational, q: Rational, x: string, y: string)
    requires AfterNum(p, x) == AfterNum(q, y)
    ensures p.den == q.den && x == y
  {
    hide NatText;
    assert AfterNum(p, x)[0] == AfterNum(q, y)[0];
    if p.den != 1 {
      assert AfterNum(p, x)[1..] == NatText(p.den) + ("\"}" + x) && AfterNum(q, y)[1..] == NatText(q.den) + ("\"}" + y);
      NatUnique(p.den, q.den, "\"}" + x, "\"}" + y);
    }
    SameHead("\"}", "\"}", x, y);
  }

  lemma NumParts(q: Rational, x: string)
    ensures NumText(q) + ("\"}" + x) == IntText(q.num) + AfterNum(q, x) && Bounded(AfterNum(q, x))
  {
    hide IntText, NatText;
    if q.den != 1 {
      var a, b, c := IntText(q.num), "/" + NatText(q.den), "\"}" + x;
      assert (a + b) + c == a + (b + c);
    }
  }

  lemma AtomUnique(a: Value, b: Value, x: string, y: string)
    requires Atom(a) && Atom(b) && KindOf(a) == KindOf(b) && AtomRest(a) + x == AtomRest(b) + y
    ensures a == b && x == y
  {
    hide NumText, IntText, Quoted;
    match a
    case Unit => assert "" + x == x && "" + y == y;
    case Bool(c) =>
      assert (AtomRest(a) + x)[0] == (if c then 't' else 'f') && (AtomRest(b) + y)[0] == (if b.b then 't' else 'f');
      SameHead(AtomRest(a), AtomRest(b), x, y);
    case Num(q) =>
      if IsSmall(q) {
        assert (IntText(q.num) + "}") + x == IntText(q.num) + ("}" + x) && (IntText(b.q.num) + "}") + y == IntText(b.q.num) + ("}" + y);
        IntUnique(q.num, b.q.num, "}" + x, "}" + y);
        SameHead("}", "}", x, y);
      } else {
        Unquote(NumText(q), "\"}", x);
        Unquote(NumText(b.q), "\"}", y);
        NumUnique(q, b.q, x, y);
      }
    case Text(s) =>
      Unquote(Quoted(s), "}", x);
      Unquote(Quoted(b.s), "}", y);
      QuotedUnique(s, b.s, "}" + x, "}" + y);
      SameHead("}", "}", x, y);
  }

  lemma Unquote(s: string, close: string, x: string)
    ensures (("\"" + (s + close)) + x)[1..] == s + (close + x)
  {
  }

  lemma KeyUnique(j: SetKey, k: SetKey, x: string, y: string)
    requires KeyWritten(j) + x == KeyWritten(k) + y
    ensures j == k && x == y
  {
    var a, b := KeyValue(j), KeyValue(k);
    hide Opening, AtomRest;
    assert (Opening(KindOf(a)) + AtomRest(a)) + x == Opening(KindOf(a)) + (AtomRest(a) + x);
    assert (Opening(KindOf(b)) + AtomRest(b)) + y == Opening(KindOf(b)) + (AtomRest(b) + y);
    OpeningUnique(KindOf(a), KindOf(b), AtomRest(a) + x, AtomRest(b) + y);
    AtomUnique(a, b, x, y);
    KeyFromValue(j, k);
  }

  lemma KeyFromValue(j: SetKey, k: SetKey)
    requires KeyValue(j) == KeyValue(k)
    ensures j == k
  {
  }

  /** What comes after the first element of an array. */
  function More(last: bool, rest: string): string {
    if last then "]" else "," + rest
  }

  lemma MoreUnique(p: bool, q: bool, s: string, t: string, x: string, y: string)
    requires More(p, s) + x == More(q, t) + y
    ensures p == q && (if p then x == y else s + x == t + y)
  {
    assert (More(p, s) + x)[0] == More(p, s)[0] && (More(q, t) + y)[0] == More(q, t)[0];
    if p {
      assert (More(p, s) + x)[1..] == x && (More(q, t) + y)[1..] == y;
    } else {
      assert (More(p, s) + x)[1..] == s + x && (More(q, t) + y)[1..] == t + y;
    }
  }

  lemma KeysStep(ks: seq<SetKey>, x: string)
    ensures ks != [] ==> KeysRest(ks) + x == KeyWritten(ks[0]) + (More(|ks| == 1, KeysRest(ks[1..])) + x)
    ensures KeysRest(ks) + x != [] && ((KeysRest(ks) + x)[0] == ']' <==> ks == [])
  {
    hide Opening, AtomRest, KindOf, KeyValue;
    if ks != [] {
      OpeningLetters(KindOf(KeyValue(ks[0])), AtomRest(KeyValue(ks[0])));
      var a, b := KeyWritten(ks[0]), More(|ks| == 1, KeysRest(ks[1..]));
      assert (a + b) + x == a + (b + x);
    }
  }

  lemma {:induction false} KeysUnique(js: seq<SetKey>, ks: seq<SetKey>, x: string, y: string)
    requires KeysRest(js) + x == KeysRest(ks) + y
    ensures js == ks && x == y
    decreases |js|
  {
    KeysStep(js, x);
    KeysStep(ks, y);
    hide KeysRest, KeyWritten, More;
    if js == [] {
      assert ks == [];
      SameHead(KeysRest(js), KeysRest(ks), x, y);
    } else {
      KeyUnique(js[0], ks[0], More(|js| == 1, KeysRest(js[1..])) + x, More(|ks| == 1, KeysRest(ks[1..])) + y);
      MoreUnique(|js| == 1, |ks| == 1, KeysRest(js[1..]), KeysRest(ks[1..]), x, y);
      assert js == [js[0]] + js[1..] && ks == [ks[0]] + ks[1..];
      if |js| > 1 { KeysUnique(js[1..], ks[1..], x, y); }
    }
  }

  lemma ItemsStep(items: seq<Value>, x: string)
    ensures items != [] ==> ItemsRest(items) + x == Written(items[0]) + (More(|items| == 1, ItemsRest(items[1..])) + x)
    ensures ItemsRest(items) + x != [] && ((ItemsRest(items) + x)[0] == ']' <==> items == [])
  {
    hide Opening, Rest, KindOf;
    if items != [] {
      OpeningLetters(KindOf(items[0]), Rest(items[0]));
      var a, b := Written(items[0]), More(|items| == 1, ItemsRest(items[1..]));
      assert (a + b) + x == a + (b + x);
    }
  }

  /** What is written alike is alike up to the order of set elements, and the text says where it ends. */
  lemma {:induction false} WrittenUnique(a: Value, b: Value, x: string, y: string)
    requires Written(a) + x == Written(b) + y
    ensures Ordered(a) == Ordered(b) && x == y
    decreases a, 1
  {
    hide Opening, AtomRest, KeysRest, ItemsRest, OrderedAll, Rest;
    assert Written(a) + x == Opening(KindOf(a)) + (Rest(a) + x);
    assert Written(b) + y == Opening(KindOf(b)) + (Rest(b) + y);
    OpeningUnique(KindOf(a), KindOf(b), Rest(a) + x, Rest(b) + y);
    if Atom(a) {
      AtomRests(a);
      AtomRests(b);
      AtomUnique(a, b, x, y);
    } else {
      ArrayRest(a, x);
      ArrayRest(b, y);
      ArrayUnique(a, b, x, y);
    }
  }

  lemma AtomRests(v: Value)
    requires Atom(v)
    ensures Rest(v) == AtomRest(v) && Ordered(v) == v
  {
  }

  /** The text of the elements of a collection. */
  function Inside(v: Value): string
    requires !Atom(v)
  {
    match v
    case Tuple(items) => ItemsRest(items)
    case List(items) => ItemsRest(items)
    case FrozenSet(keys) => KeysRest(SortKeys(keys))
  }

  lemma ArrayRest(v: Value, x: string)
    requires !Atom(v)
    ensures (Rest(v) + x)[1..] == Inside(v) + ("}" + x)
  {
    hide ItemsRest, KeysRest;
  }

  lemma ArrayUnique(a: Value, b: Value, x: string, y: string)
    requires !Atom(a) && KindOf(a) == KindOf(b) && Inside(a) + ("}" + x) == Inside(b) + ("}" + y)
    ensures Ordered(a) == Ordered(b) && x == y
    decreases a, 0
  {
    hide KeysRest, ItemsRest;
    match a
    case Tuple(items) => ItemsUnique(items, b.items, "}" + x, "}" + y); SameHead("}", "}", x, y);
    case List(items) => ItemsUnique(items, b.items, "}" + x, "}" + y); SameHead("}", "}", x, y);
    case FrozenSet(keys) => KeysUnique(SortKeys(keys), SortKeys(b.keys), "}" + x, "}" + y); SameHead("}", "}", x, y);
  }

  lemma {:induction false} ItemsUnique(xs: seq<Value>, bs: seq<Value>, x: string, y: string)
    requires ItemsRest(xs) + x == ItemsRest(bs) + y
    ensures OrderedAll(xs) == OrderedAll(bs) && x == y
    decreases xs
  {
    ItemsStep(xs, x);
    ItemsStep(bs, y);
    hide ItemsRest, Written, More, Ordered;
    if xs == [] {
      assert bs == [];
      SameHead(ItemsRest(xs), ItemsRest(bs), x, y);
    } else {
      WrittenUnique(xs[0], bs[0], More(|xs| == 1, ItemsRest(xs[1..])) + x, More(|bs| == 1, ItemsRest(bs[1..])) + y);
      MoreUnique(|xs| == 1, |bs| == 1, ItemsRest(xs[1..]), ItemsRest(bs[1..]), x, y);
      if |xs| > 1 { ItemsUnique(xs[1..], bs[1..], x, y); } else { assert xs[1..] == [] && bs[1..] == []; }
    }
  }

  lemma {:induction false} SameWritten(a: Value, b: Value)
    requires Ordered(a) == Ordered(b)
    ensures Written(a) == Written(b)
    decreases a
  {
    match a
    case Tuple(items) => SameItems(items, b.items);
    case List(items) => SameItems(items, b.items);
    case _ =>
  }

  lemma {:induction false} SameItems(xs: seq<Value>, bs: seq<Value>)
    requires OrderedAll(xs) == OrderedAll(bs)
    ensures ItemsRest(xs) == ItemsRest(bs)
    decreases xs
  {
    OrderedStep(xs);
    OrderedStep(bs);
    hide Written, Ordered;
    if xs != [] {
      SameWritten(xs[0], bs[0]);
      SameItems(xs[1..], bs[1..]);
    }
  }

  lemma {:induction false} OrderedStep(items: seq<Value>)
    ensures |OrderedAll(items)| == |items|
    ensures items != [] ==> OrderedAll(items)[0] == Ordered(items[0]) && OrderedAll(items)[1..] == OrderedAll(items[1..])
    decreases |items|
  {
    hide Ordered;
    if items != [] { OrderedStep(items[1..]); }
  }

  /** Two lists of arguments are written alike exactly when they are the same up to the order of set
      elements. */
  lemma TextExactly(a: seq<Value>, b: seq<Value>)
    ensures ArgsText(a) == ArgsText(b) <==> OrderedAll(a) == OrderedAll(b)
  {
    hide ItemsRest, OrderedAll;
    if ArgsText(a) == ArgsText(b) {
      assert ArgsText(a)[1..] == ItemsRest(a) && ArgsText(b)[1..] == ItemsRest(b);
      ItemsUnique(a, b, "", "");
    }
    if OrderedAll(a) == OrderedAll(b) { SameItems(a, b); }
  }

  // ----- values without unsorted sets -----

  /** Nothing in it was put out of order. */
  predicate InOrder(items: seq<Value>) {
    OrderedAll(items) == items
  }

  /** Where sets are sorted, and in particular where there are none, arguments written alike are the same. */
  lemma OrderedTextsTell(a: seq<Value>, b: seq<Value>)
    requires InOrder(a) && InOrder(b)
    ensures ArgsText(a) == ArgsText(b) <==> a == b
  {
    TextExactly(a, b);
  }
}
