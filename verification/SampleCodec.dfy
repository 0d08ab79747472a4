/**
 That the assumptions on a codec can be met: a printer for JSON values whose texts can be
 told apart even when more text follows, and the parser that it determines.
 */
module SampleCodec {
  import opened Wrappers
  import opened Json

  // ----- The printer -----

  /** One character of a string, without bare line ends. */
  function Code(c: char): (code: string)
    ensures |code| == 2 && code[0] != '"' && '\n' !in code && '\r' !in code
  {
    if c == '\n' then "!n" else if c == '\r' then "!r" else "." + [c]
  }

  /** The characters of a string and a closing quote. */
  function Escaped(s: string): string {
    if s == "" then "\"" else Code(s[0]) + Escaped(s[1..])
  }

  function Tally(n: nat): string {
    if n == 0 then ";" else "1" + Tally(n - 1)
  }

  function Signed(n: int): string {
    if n < 0 then "-" + Tally(-n) else "+" + Tally(n)
  }

  /** Some key of an object; the same object always gives the same key. */
  ghost function Key(m: Object): (key: string)
    requires m != map[]
    ensures key in m
  {
    assert m.Keys != {};
    var key :| key in m;
    key
  }

  /** The character that tells the kind of a value. */
  function Mark(v: Value): char {
    match v
    case JNull => 'n'
    case JBool(b) => if b then 't' else 'f'
    case JInt(_) => 'i'
    case JDecimal(_, _) => 'e'
    case JStr(_) => '"'
    case JArr(_) => 'a'
    case JObj(_) => '{'
  }

  ghost function Print(v: Value): string
    decreases v, 1, 0
  {
    [Mark(v)] + match v
                case JNull => ""
                case JBool(b) => ""
                case JInt(n) => Signed(n)
                case JDecimal(mantissa, exponent) => Signed(mantissa) + Signed(exponent)
                case JStr(s) => Escaped(s)
                case JArr(_) => PrintItems(v, 0)
                case JObj(fields) => PrintFields(v, fields)
  }

  /** The items of the array `v` from the `k`-th on. */
  ghost function PrintItems(v: Value, k: nat): string
    requires v.JArr? && k <= |v.items|
    decreases v, 0, |v.items| - k
  {
    if k == |v.items| then "]" else "," + (Print(v.items[k]) + PrintItems(v, k + 1))
  }

  /** The fields `m`, which are some of the fields of the object `v`. */
  ghost predicate FieldsOf(v: Value, m: Object) {
    v.JObj? && forall key :: key in m ==> key in v.fields && v.fields[key] == m[key]
  }

  ghost function PrintFields(v: Value, m: Object): string
    requires FieldsOf(v, m)
    decreases v, 0, |m|
  {
    if m == map[] then "}"
    else
      var key := Key(m);
      "," + (Escaped(key) + (Print(m[key]) + PrintFields(v, m - {key})))
  }

  // ----- No two values share a text -----

  lemma Shift(head: string, a: string, x: string)
    ensures (head + a) + x == head + (a + x)
  {
  }

  lemma Cut(head: string, other: string, a: string, b: string)
    requires head + a == other + b && |head| == |other|
    ensures head == other && a == b
  {
    assert head == (head + a)[..|head|] && other == (other + b)[..|head|];
    assert a == (head + a)[|head|..] && b == (other + b)[|head|..];
  }

  lemma {:induction false} TallyUnique(m: nat, n: nat, x: string, y: string)
    requires Tally(m) + x == Tally(n) + y
    ensures m == n && x == y
  {
    assert (Tally(m) + x)[0] == Tally(m)[0] && (Tally(n) + y)[0] == Tally(n)[0];
    if m == 0 || n == 0 {
      Cut(";", ";", x, y);
    } else {
      Shift("1", Tally(m - 1), x);
      Shift("1", Tally(n - 1), y);
      Cut("1", "1", Tally(m - 1) + x, Tally(n - 1) + y);
      TallyUnique(m - 1, n - 1, x, y);
    }
  }

  lemma SignedUnique(m: int, n: int, x: string, y: string)
    requires Signed(m) + x == Signed(n) + y
    ensures m == n && x == y
  {
    var s, t := if m < 0 then "-" else "+", if n < 0 then "-" else "+";
    var a: nat, b: nat := if m < 0 then -m else m, if n < 0 then -n else n;
    Shift(s, Tally(a), x);
    Shift(t, Tally(b), y);
    Cut(s, t, Tally(a) + x, Tally(b) + y);
    assert s[0] == t[0];
    TallyUnique(a, b, x, y);
  }

  lemma {:induction false} EscapedUnique(s: string, t: string, x: string, y: string)
    requires Escaped(s) + x == Escaped(t) + y
    ensures s == t && x == y
  {
    assert (Escaped(s) + x)[0] == Escaped(s)[0] && (Escaped(t) + y)[0] == Escaped(t)[0];
    if s == "" || t == "" {
      Cut("\"", "\"", x, y);
    } else {
      Shift(Code(s[0]), Escaped(s[1..]), x);
      Shift(Code(t[0]), Escaped(t[1..]), y);
      Cut(Code(s[0]), Code(t[0]), Escaped(s[1..]) + x, Escaped(t[1..]) + y);
      assert Code(s[0])[1] == Code(t[0])[1] && Code(s[0])[0] == Code(t[0])[0];
      EscapedUnique(s[1..], t[1..], x, y);
      assert s == [s[0]] + s[1..] && t == [t[0]] + t[1..];
    }
  }

  lemma {:induction false} PrintUnique(v: Value, w: Value, x: string, y: string)
    requires Print(v) + x == Print(w) + y
    ensures v == w && x == y
    decreases v, 1, 0
  {
    var s, t := Print(v)[1..], Print(w)[1..];
    assert Print(v) == [Mark(v)] + s && Print(w) == [Mark(w)] + t;
    Shift([Mark(v)], s, x);
    Shift([Mark(w)], t, y);
    Cut([Mark(v)], [Mark(w)], s + x, t + y);
    assert [Mark(v)][0] == [Mark(w)][0];
    match v {
      case JNull =>
        Cut("", "", x, y);
      case JBool(_) =>
        Cut("", "", x, y);
      case JInt(n) => SignedUnique(n, w.n, x, y);
      case JDecimal(m, e) =>
        Shift(Signed(m), Signed(e), x);
        Shift(Signed(w.mantissa), Signed(w.exponent), y);
        SignedUnique(m, w.mantissa, Signed(e) + x, Signed(w.exponent) + y);
        SignedUnique(e, w.exponent, x, y);
      case JStr(a) => EscapedUnique(a, w.s, x, y);
      case JArr(items) =>
        ItemsUnique(v, w, 0, x, y);
        assert items == items[0..] && w.items == w.items[0..];
      case JObj(fields) => FieldsUnique(v, w, fields, w.fields, x, y);
    }
  }

  lemma {:induction false} ItemsUnique(v: Value, w: Value, k: nat, x: string, y: string)
    requires v.JArr? && w.JArr? && k <= |v.items| && k <= |w.items|
    requires PrintItems(v, k) + x == PrintItems(w, k) + y
    ensures v.items[k..] == w.items[k..] && x == y
    decreases v, 0, |v.items| - k
  {
    var a, b := PrintItems(v, k), PrintItems(w, k);
    assert (a + x)[0] == a[0] && (b + y)[0] == b[0];
    if k == |v.items| || k == |w.items| {
      Cut("]", "]", x, y);
    } else {
      var p, q, more, rest := Print(v.items[k]), Print(w.items[k]), PrintItems(v, k + 1), PrintItems(w, k + 1);
      Shift(",", p + more, x);
      Shift(",", q + rest, y);
      Cut(",", ",", (p + more) + x, (q + rest) + y);
      Shift(p, more, x);
      Shift(q, rest, y);
      PrintUnique(v.items[k], w.items[k], more + x, rest + y);
      ItemsUnique(v, w, k + 1, x, y);
      assert v.items[k..] == [v.items[k]] + v.items[k + 1..] && w.items[k..] == [w.items[k]] + w.items[k + 1..];
    }
  }

  lemma {:induction false} FieldsUnique(v: Value, w: Value, m: Object, n: Object, x: string, y: string)
    requires FieldsOf(v, m) && FieldsOf(w, n)
    requires PrintFields(v, m) + x == PrintFields(w, n) + y
    ensures m == n && x == y
    decreases v, 0, |m|
  {
    var a, b := PrintFields(v, m), PrintFields(w, n);
    assert (a + x)[0] == a[0] && (b + y)[0] == b[0];
    if m == map[] || n == map[] {
      Cut("}", "}", x, y);
    } else {
      var j, k := Key(m), Key(n);
      var more, rest := Print(m[j]) + PrintFields(v, m - {j}), Print(n[k]) + PrintFields(w, n - {k});
      Shift(",", Escaped(j) + more, x);
      Shift(",", Escaped(k) + rest, y);
      Cut(",", ",", (Escaped(j) + more) + x, (Escaped(k) + rest) + y);
      Shift(Escaped(j), more, x);
      Shift(Escaped(k), rest, y);
      EscapedUnique(j, k, more + x, rest + y);
      Shift(Print(m[j]), PrintFields(v, m - {j}), x);
      Shift(Print(n[k]), PrintFields(w, n - {k}), y);
      PrintUnique(m[j], n[k], PrintFields(v, m - {j}) + x, PrintFields(w, n - {k}) + y);
      FieldsUnique(v, w, m - {j}, n - {j}, x, y);
      assert m == (m - {j})[j := m[j]] && n == (n - {j})[j := n[j]];
    }
  }

  // ----- No line ends -----

  predicate OneLine(s: string) {
    '\n' !in s && '\r' !in s
  }

  lemma {:induction false} TallyOneLine(n: nat)
    ensures OneLine(Tally(n))
  {
    if n > 0 {
      TallyOneLine(n - 1);
    }
  }

  lemma SignedOneLine(n: int)
    ensures OneLine(Signed(n))
  {
    TallyOneLine(if n < 0 then -n else n);
  }

  lemma {:induction false} EscapedOneLine(s: string)
    ensures OneLine(Escaped(s))
  {
    if s != "" {
      EscapedOneLine(s[1..]);
    }
  }

  lemma {:induction false} PrintOneLine(v: Value)
    ensures OneLine(Print(v))
    decreases v, 1, 0
  {
    match v {
      case JNull =>
      case JBool(_) =>
      case JInt(n) => SignedOneLine(n);
      case JDecimal(m, e) =>
        SignedOneLine(m);
        SignedOneLine(e);
      case JStr(s) => EscapedOneLine(s);
      case JArr(_) => ItemsOneLine(v, 0);
      case JObj(fields) => FieldsOneLine(v, fields);
    }
  }

  lemma {:induction false} ItemsOneLine(v: Value, k: nat)
    requires v.JArr? && k <= |v.items|
    ensures OneLine(PrintItems(v, k))
    decreases v, 0, |v.items| - k
  {
    if k < |v.items| {
      PrintOneLine(v.items[k]);
      ItemsOneLine(v, k + 1);
    }
  }

  lemma {:induction false} FieldsOneLine(v: Value, m: Object)
    requires FieldsOf(v, m)
    ensures OneLine(PrintFields(v, m))
    decreases v, 0, |m|
  {
    if m != map[] {
      var key := Key(m);
      EscapedOneLine(key);
      PrintOneLine(m[key]);
      FieldsOneLine(v, m - {key});
    }
  }

  // ----- The codec -----

  ghost predicate IsText(s: string, v: Value) {
    Print(v) == s
  }

  ghost function Parsed(s: string): Option<Value> {
    if exists v :: IsText(s, v) then
      var v :| IsText(s, v);
      Some(v)
    else None
  }

  /** A codec as the theorems about bytes ask for it exists. */
  lemma SoundCodecExists() returns (codec: Codec)
    ensures codec.Sound()
  {
    codec := Codec((s: string) => Parsed(s), (v: Value) => Print(v));
    forall v ensures codec.SoundAt(v) {
      var s := Print(v);
      assert IsText(s, v);
      var w :| Parsed(s) == Some(w) && IsText(s, w);
      assert Print(v) + "" == Print(w) + "";
      PrintUnique(v, w, "", "");
      PrintOneLine(v);
    }
    forall v ensures !IsText("[DONE]", v) {
      assert Print(v)[0] == Mark(v) != '[';
    }
  }
}
