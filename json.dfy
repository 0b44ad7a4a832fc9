/** JSON-like values as Python's `json` module sees them, the key order that
    `json.dumps(..., sort_keys=True)` imposes on objects, and equality up to the
    order of object members (objects compare as dicts). */
module Json {
  import Text

  /** A JSON value. An object keeps its members in insertion order, as a Python
      dict does; the numbers of the payloads are integers. */
  datatype Value =
    | JNull
    | JBool(b: bool)
    | JInt(n: int)
    | JStr(s: string)
    | JArr(items: seq<Value>)
    | JObj(members: seq<(string, Value)>)

  /** Python truthiness: `not v` holds for None, False, 0, "", [] and {}. */
  predicate Falsy(v: Value)
  {
    match v
    case JNull => true
    case JBool(b) => !b
    case JInt(n) => n == 0
    case JStr(s) => s == []
    case JArr(items) => items == []
    case JObj(members) => members == []
  }

  // ---------------------------------------------------------------------------
  // Python's order on str: code point by code point, a prefix first
  // ---------------------------------------------------------------------------

  predicate StrLt(a: string, b: string)
  {
    if a == [] then b != []
    else b != [] && (a[0] < b[0] || (a[0] == b[0] && StrLt(a[1..], b[1..])))
  }

  lemma {:induction false} StrLtIrreflexive(a: string)
    ensures !StrLt(a, a)
  {
    if a != [] { StrLtIrreflexive(a[1..]); }
  }

  lemma {:induction false} StrLtTransitive(a: string, b: string, c: string)
    requires StrLt(a, b) && StrLt(b, c)
    ensures StrLt(a, c)
  {
    if a != [] && a[0] == b[0] && b[0] == c[0] {
      StrLtTransitive(a[1..], b[1..], c[1..]);
    }
  }

  lemma {:induction false} StrLtTotal(a: string, b: string)
    requires a != b
    ensures StrLt(a, b) || StrLt(b, a)
  {
    if a != [] && b != [] && a[0] == b[0] {
      assert a == [a[0]] + a[1..] && b == [b[0]] + b[1..];
      StrLtTotal(a[1..], b[1..]);
    }
  }

  lemma StrLtAsymmetric(a: string, b: string)
    requires StrLt(a, b)
    ensures !StrLt(b, a)
  {
    if StrLt(b, a) {
      StrLtTransitive(a, b, a);
      StrLtIrreflexive(a);
    }
  }

  // ---------------------------------------------------------------------------
  // Object members sorted by key
  // ---------------------------------------------------------------------------

  type Member = (string, Value)

  predicate DistinctKeys(ms: seq<Member>)
  {
    forall i, j :: 0 <= i < j < |ms| ==> ms[i].0 != ms[j].0
  }

  predicate SortedByKey(ms: seq<Member>)
  {
    forall i, j :: 0 <= i < j < |ms| ==> StrLt(ms[i].0, ms[j].0)
  }

  function Keys(ms: seq<Member>): set<string>
  {
    set i | 0 <= i < |ms| :: ms[i].0
  }

  /** Inserts `m` before the first member whose key is not smaller than its own. */
  function Insert(m: Member, ms: seq<Member>): (r: seq<Member>)
    ensures multiset(r) == multiset(ms) + multiset{m}
  {
    if ms == [] then [m]
    else if StrLt(ms[0].0, m.0) then
      assert ms == [ms[0]] + ms[1..];
      [ms[0]] + Insert(m, ms[1..])
    else [m] + ms
  }

  lemma {:induction false} InsertSorted(m: Member, ms: seq<Member>)
    requires SortedByKey(ms)
    requires forall i :: 0 <= i < |ms| ==> ms[i].0 != m.0
    ensures SortedByKey(Insert(m, ms))
  {
    if ms == [] {
    } else if StrLt(ms[0].0, m.0) {
      InsertSorted(m, ms[1..]);
      var r := Insert(m, ms[1..]);
      forall i | 0 <= i < |r| ensures StrLt(ms[0].0, r[i].0) {
        assert r[i] in multiset(r);
        if r[i] != m {
          assert r[i] in multiset(ms[1..]);
          var j :| 0 <= j < |ms[1..]| && ms[1..][j] == r[i];
          assert ms[j + 1] == r[i];
        }
      }
    } else {
      StrLtTotal(m.0, ms[0].0);
      forall j | 0 < j < |ms| ensures StrLt(m.0, ms[j].0) {
        StrLtTransitive(m.0, ms[0].0, ms[j].0);
      }
    }
  }

  /** The members in the order `sort_keys=True` writes them. */
  function SortByKey(ms: seq<Member>): (r: seq<Member>)
    ensures multiset(r) == multiset(ms)
  {
    if ms == [] then []
    else
      assert ms == [ms[0]] + ms[1..];
      Insert(ms[0], SortByKey(ms[1..]))
  }

  /** Sorting members with distinct keys puts every key strictly before the next. */
  lemma {:induction false} SortByKeySorted(ms: seq<Member>)
    requires DistinctKeys(ms)
    ensures SortedByKey(SortByKey(ms))
  {
    if ms != [] {
      var rest := SortByKey(ms[1..]);
      SortByKeySorted(ms[1..]);
      forall i | 0 <= i < |rest| ensures rest[i].0 != ms[0].0 {
        assert rest[i] in multiset(ms[1..]);
        var j :| 0 <= j < |ms[1..]| && ms[1..][j] == rest[i];
        assert ms[j + 1] == rest[i];
      }
      InsertSorted(ms[0], rest);
    }
  }

  /** Two strictly key-sorted member lists holding the same members are equal. */
  lemma {:induction false} SortedUnique(a: seq<Member>, b: seq<Member>)
    requires SortedByKey(a) && SortedByKey(b)
    requires forall m :: m in a <==> m in b
    ensures a == b
  {
    if a != [] { assert a[0] in b; }
    if b != [] { assert b[0] in a; }
    if a != [] && b != [] {
      var i :| 0 <= i < |a| && a[i] == b[0];
      var j :| 0 <= j < |b| && b[j] == a[0];
      if i > 0 && j > 0 {
        StrLtAsymmetric(a[0].0, b[0].0);
        assert false;
      }
      assert a[0] == b[0];
      forall m ensures m in a[1..] <==> m in b[1..] {
        if m in a[1..] {
          var p :| 1 <= p < |a| && a[p] == m;
          StrLtIrreflexive(a[0].0);
          assert m != b[0];
          assert m in b;
          var q :| 0 <= q < |b| && b[q] == m;
        }
        if m in b[1..] {
          var q :| 1 <= q < |b| && b[q] == m;
          StrLtIrreflexive(b[0].0);
          assert m != a[0];
          assert m in a;
          var p :| 0 <= p < |a| && a[p] == m;
        }
      }
      SortedUnique(a[1..], b[1..]);
      assert a == [a[0]] + a[1..] && b == [b[0]] + b[1..];
    }
  }

  // ---------------------------------------------------------------------------
  // Canonical form and Python equality
  // ---------------------------------------------------------------------------

  /** The value with every object's members in key order, as `sort_keys=True`
      serialises it. */
  function Canon(v: Value): Value
  {
    match v
    case JArr(items) => JArr(seq(|items|, i requires 0 <= i < |items| => Canon(items[i])))
    case JObj(ms) => JObj(SortByKey(seq(|ms|, i requires 0 <= i < |ms| => (ms[i].0, Canon(ms[i].1)))))
    case _ => v
  }

  /** The members of an object with each value in canonical form, in their original order. */
  function CanonMembers(v: Value): (r: seq<Member>)
    requires v.JObj?
    ensures |r| == |v.members|
    ensures forall i :: 0 <= i < |r| ==> r[i] == (v.members[i].0, Canon(v.members[i].1))
    ensures Canon(v) == JObj(SortByKey(r))
  {
    var ms := v.members;
    seq(|ms|, i requires 0 <= i < |ms| => (ms[i].0, Canon(ms[i].1)))
  }

  /** Equality up to the order of object members: two objects are equal when
      they have the same keys and equal values at each key, as Python's `==` on
      dicts has it. Unlike Python's `==`, a boolean never equals an integer
      (`True == 1` holds in Python), because the two serialise differently. */
  predicate Equal(a: Value, b: Value)
  {
    match a
    case JArr(xs) =>
      b.JArr? && |xs| == |b.items| &&
      forall i :: 0 <= i < |xs| ==> Equal(xs[i], b.items[i])
    case JObj(ms) =>
      b.JObj? && DistinctKeys(ms) && DistinctKeys(b.members) && Keys(ms) == Keys(b.members) &&
      forall i, j :: 0 <= i < |ms| && 0 <= j < |b.members| && ms[i].0 == b.members[j].0 ==>
        Equal(ms[i].1, b.members[j].1)
    case _ => a == b
  }

  /** Values equal up to the order of object members have the same canonical form, so
      `json.dumps(..., sort_keys=True)` writes the same text for both. */
  lemma {:induction false} EqualSameCanon(a: Value, b: Value)
    requires Equal(a, b)
    decreases a, 1
    ensures Canon(a) == Canon(b)
  {
    match a
    case JArr(xs) =>
      var ys := b.items;
      forall i | 0 <= i < |xs| ensures Canon(xs[i]) == Canon(ys[i]) {
        EqualSameCanon(xs[i], ys[i]);
      }
    case JObj(ms) =>
      var ca, cb := CanonMembers(a), CanonMembers(b);
      CanonMembersForward(a, b);
      CanonMembersBackward(a, b);
      SortedSameMembers(ca, cb);
    case _ =>
  }

  lemma {:induction false} CanonMembersForward(a: Value, b: Value)
    requires a.JObj? && Equal(a, b)
    decreases a, 0
    ensures forall m :: m in CanonMembers(a) ==> m in CanonMembers(b)
  {
    var ms, ns := a.members, b.members;
    var ca, cb := CanonMembers(a), CanonMembers(b);
    forall m | m in ca ensures m in cb {
      var i :| 0 <= i < |ca| && ca[i] == m;
      assert ms[i].0 in Keys(ms);
      var j :| 0 <= j < |ns| && ns[j].0 == ms[i].0;
      assert Equal(ms[i].1, ns[j].1);
      EqualSameCanon(ms[i].1, ns[j].1);
      assert cb[j] == m;
    }
  }

  lemma {:induction false} CanonMembersBackward(a: Value, b: Value)
    requires a.JObj? && Equal(a, b)
    decreases a, 0
    ensures forall m :: m in CanonMembers(b) ==> m in CanonMembers(a)
  {
    var ms, ns := a.members, b.members;
    var ca, cb := CanonMembers(a), CanonMembers(b);
    forall m | m in cb ensures m in ca {
      var j :| 0 <= j < |cb| && cb[j] == m;
      assert ns[j].0 in Keys(ns);
      var i :| 0 <= i < |ms| && ms[i].0 == ns[j].0;
      assert Equal(ms[i].1, ns[j].1);
      EqualSameCanon(ms[i].1, ns[j].1);
      assert ca[i] == m;
    }
  }

  /** Every object, at any depth, has distinct keys: the value is a Python dict tree. */
  predicate WellFormed(v: Value)
  {
    match v
    case JArr(xs) => forall i :: 0 <= i < |xs| ==> WellFormed(xs[i])
    case JObj(ms) => DistinctKeys(ms) && forall i :: 0 <= i < |ms| ==> WellFormed(ms[i].1)
    case _ => true
  }

  /** Sorting the keys only reorders: the canonical form is equal, up to the
      order of object members, to the value it came from. */
  lemma {:induction false} CanonEqual(v: Value)
    requires WellFormed(v)
    decreases v, 1
    ensures Equal(v, Canon(v))
  {
    match v
    case JArr(xs) =>
      forall i | 0 <= i < |xs| ensures Equal(xs[i], Canon(xs[i])) {
        CanonEqual(xs[i]);
      }
    case JObj(ms) =>
      CanonObjectEqual(v);
    case _ =>
  }

  lemma {:induction false} CanonObjectEqual(v: Value)
    requires v.JObj? && WellFormed(v)
    decreases v, 0
    ensures Equal(v, Canon(v))
  {
    var ms := v.members;
    var c := CanonMembers(v);
    var s := SortByKey(c);
    SortByKeySorted(c);
    SortedDistinct(s);
    SameMembersSameKeys(c, s);
    assert Keys(c) == Keys(ms);
    forall i, j | 0 <= i < |ms| && 0 <= j < |s| && ms[i].0 == s[j].0
      ensures Equal(ms[i].1, s[j].1)
    {
      assert s[j] in multiset(c);
      var k :| 0 <= k < |c| && c[k] == s[j];
      assert k == i;
      CanonEqual(ms[i].1);
    }
  }

  lemma SortedDistinct(s: seq<Member>)
    requires SortedByKey(s)
    ensures DistinctKeys(s)
  {
    forall i, j | 0 <= i < j < |s| ensures s[i].0 != s[j].0 {
      StrLtIrreflexive(s[i].0);
    }
  }

  lemma SameMembersSameKeys(c: seq<Member>, s: seq<Member>)
    requires multiset(c) == multiset(s)
    ensures Keys(c) == Keys(s)
  {
    forall k | k in Keys(c) ensures k in Keys(s) {
      var i :| 0 <= i < |c| && c[i].0 == k;
      assert c[i] in multiset(s);
      var j :| 0 <= j < |s| && s[j] == c[i];
    }
    forall k | k in Keys(s) ensures k in Keys(c) {
      var j :| 0 <= j < |s| && s[j].0 == k;
      assert s[j] in multiset(c);
      var i :| 0 <= i < |c| && c[i] == s[j];
    }
  }

  lemma SortedSameMembers(ca: seq<Member>, cb: seq<Member>)
    requires DistinctKeys(ca) && DistinctKeys(cb)
    requires forall m :: m in ca <==> m in cb
    ensures SortByKey(ca) == SortByKey(cb)
  {
    var sa, sb := SortByKey(ca), SortByKey(cb);
    SortByKeySorted(ca);
    SortByKeySorted(cb);
    forall m ensures m in sa <==> m in sb {
      assert m in sa <==> m in multiset(sa);
      assert m in sb <==> m in multiset(sb);
      assert m in ca <==> m in multiset(ca);
      assert m in cb <==> m in multiset(cb);
    }
    SortedUnique(sa, sb);
  }

  // ---------------------------------------------------------------------------
  // Serialisation
  // ---------------------------------------------------------------------------

  /** One character of a string literal as `json.dumps(..., ensure_ascii=False)`
      writes it: the quote, the backslash and the control characters are escaped,
      everything else is kept. */
  function EscapeChar(c: char): string
  {
    if c == '"' then "\\\""
    else if c == '\\' then "\\\\"
    else if c == '\n' then "\\n"
    else if c == '\r' then "\\r"
    else if c == '\t' then "\\t"
    else if c == '\U{8}' then "\\b"
    else if c == '\U{C}' then "\\f"
    else if c < ' ' then "\\u00" + [HexDigit(c as int / 16), HexDigit(c as int % 16)]
    else [c]
  }

  function HexDigit(d: nat): char
    requires d < 16
  {
    "0123456789abcdef"[d]
  }

  function Escape(s: string): (r: string)
    ensures |r| >= |s|
  {
    if s == [] then [] else EscapeChar(s[0]) + Escape(s[1..])
  }

  function Join(parts: seq<string>, sep: string): (r: string)
    ensures parts != [] ==> |r| >= |parts[0]|
  {
    if parts == [] then []
    else if |parts| == 1 then parts[0]
    else parts[0] + sep + Join(parts[1..], sep)
  }

  /** The text `json.dumps` writes for `v`, members in the order they are given,
      with the default separators ", " and ": ". */
  function Serialize(v: Value): (r: string)
    ensures r != []
  {
    match v
    case JNull => "null"
    case JBool(b) => if b then "true" else "false"
    case JInt(n) => Text.IntToString(n)
    case JStr(s) => "\"" + Escape(s) + "\""
    case JArr(items) =>
      "[" + Join(seq(|items|, i requires 0 <= i < |items| => Serialize(items[i])), ", ") + "]"
    case JObj(ms) =>
      "{" + Join(seq(|ms|, i requires 0 <= i < |ms| =>
                   "\"" + Escape(ms[i].0) + "\": " + Serialize(ms[i].1)), ", ") + "}"
  }

  /** `json.dumps(v, sort_keys=True, ensure_ascii=False)`. */
  function DumpsSorted(v: Value): string
  {
    Serialize(Canon(v))
  }

  /** Reordering the members of an object, at any depth, does not change the
      sorted serialisation. */
  lemma DumpsSortedIgnoresKeyOrder(a: Value, b: Value)
    requires Equal(a, b)
    ensures DumpsSorted(a) == DumpsSorted(b)
  {
    EqualSameCanon(a, b);
  }

  // ---------------------------------------------------------------------------
  // Reading a string literal back
  // ---------------------------------------------------------------------------

  function HexValue(c: char): (d: nat)
    ensures d < 16
  {
    if '0' <= c <= '9' then c as int - '0' as int
    else if 'a' <= c <= 'f' then c as int - 'a' as int + 10
    else if 'A' <= c <= 'F' then c as int - 'A' as int + 10
    else 0
  }

  /** Decodes the string literals `Escape` writes: each escape stands for one
      character, any other character for itself. Surrogate pairs, and the
      rejection of raw control characters and unknown escapes, are not modelled. */
  function Unescape(t: string): string
    decreases |t|
  {
    if t == [] then []
    else if t[0] == '\\' && |t| >= 6 && t[1] == 'u' then
      var n := HexValue(t[2]) * 0x1000 + HexValue(t[3]) * 0x100 + HexValue(t[4]) * 0x10 + HexValue(t[5]);
      (if Text.IsScalar(n) then [n as char] else []) + Unescape(t[6..])
    else if t[0] == '\\' && |t| >= 2 && t[1] in "\"\\nrtbf" then [ShortEscape(t[1])] + Unescape(t[2..])
    else [t[0]] + Unescape(t[1..])
  }

  /** The character a two-character escape stands for. */
  function ShortEscape(e: char): char
  {
    if e == 'n' then '\n' else if e == 'r' then '\r' else if e == 't' then '\t'
    else if e == 'b' then '\U{8}' else if e == 'f' then '\U{C}' else e
  }

  lemma HexDigitValue(d: nat)
    requires d < 16
    ensures HexValue(HexDigit(d)) == d
  {
  }

  lemma UnescapeShort(e: char, rest: string)
    requires e in "\"\\nrtbf"
    ensures Unescape(['\\', e] + rest) == [ShortEscape(e)] + Unescape(rest)
  {
    assert (['\\', e] + rest)[2..] == rest;
  }

  lemma UnescapeControl(c: char, rest: string)
    requires c < ' '
    ensures Unescape("\\u00" + [HexDigit(c as int / 16), HexDigit(c as int % 16)] + rest) == [c] + Unescape(rest)
  {
    var hi, lo := c as int / 16, c as int % 16;
    var t := "\\u00" + [HexDigit(hi), HexDigit(lo)] + rest;
    HexDigitValue(hi);
    HexDigitValue(lo);
    assert t[2] == '0' && t[3] == '0' && t[4] == HexDigit(hi) && t[5] == HexDigit(lo);
    assert t[6..] == rest;
    assert (c as int) as char == c;
  }

  lemma UnescapePlain(c: char, rest: string)
    requires c != '\\'
    ensures Unescape([c] + rest) == [c] + Unescape(rest)
  {
    assert ([c] + rest)[1..] == rest;
  }

  lemma EscapeCharUnescapes(c: char, rest: string)
    ensures Unescape(EscapeChar(c) + rest) == [c] + Unescape(rest)
  {
    if c == '"' {
      UnescapeShort('"', rest);
    } else if c == '\\' {
      UnescapeShort('\\', rest);
    } else if c == '\n' {
      UnescapeShort('n', rest);
    } else if c == '\r' {
      UnescapeShort('r', rest);
    } else if c == '\t' {
      UnescapeShort('t', rest);
    } else if c == '\U{8}' {
      UnescapeShort('b', rest);
    } else if c == '\U{C}' {
      UnescapeShort('f', rest);
    } else if c < ' ' {
      UnescapeControl(c, rest);
    } else {
      UnescapePlain(c, rest);
    }
  }

  /** Every string literal `json.dumps` writes reads back as the string it came
      from. */
  lemma {:induction false} EscapeUnescapes(s: string)
    ensures Unescape(Escape(s)) == s
  {
    if s != [] {
      EscapeCharUnescapes(s[0], Escape(s[1..]));
      EscapeUnescapes(s[1..]);
    }
  }

  // ---------------------------------------------------------------------------
  // The canonical form is key-sorted, and canonical
  // ---------------------------------------------------------------------------

  /** Every object, at any depth, lists its keys in strictly increasing order. */
  predicate KeySortedDeep(v: Value)
  {
    match v
    case JArr(xs) => forall i :: 0 <= i < |xs| ==> KeySortedDeep(xs[i])
    case JObj(ms) => SortedByKey(ms) && forall i :: 0 <= i < |ms| ==> KeySortedDeep(ms[i].1)
    case _ => true
  }

  /** `sort_keys=True` writes every object of a dict tree with its keys in
      strictly increasing order, at every depth. */
  lemma {:induction false} CanonSorted(v: Value)
    requires WellFormed(v)
    ensures KeySortedDeep(Canon(v))
  {
    match v
    case JArr(xs) =>
      forall i | 0 <= i < |xs| ensures KeySortedDeep(Canon(v).items[i]) {
        CanonSorted(xs[i]);
      }
    case JObj(ms) =>
      var c := CanonMembers(v);
      var s := SortByKey(c);
      SortByKeySorted(c);
      forall j | 0 <= j < |s| ensures KeySortedDeep(s[j].1) {
        assert s[j] in multiset(c);
        var k :| 0 <= k < |c| && c[k] == s[j];
        CanonSorted(ms[k].1);
      }
    case _ =>
  }

  /** Sorting an already sorted dict tree changes nothing. */
  lemma CanonIdempotent(v: Value)
    requires WellFormed(v)
    ensures Canon(Canon(v)) == Canon(v)
  {
    CanonEqual(v);
    EqualSameCanon(v, Canon(v));
  }

  // ---------------------------------------------------------------------------
  // Falsy payloads
  // ---------------------------------------------------------------------------

  /** `not v` holds exactly for the values whose JSON text is one of the six
      empty texts. */
  lemma FalsyIffEmptyText(v: Value)
    ensures Falsy(v) <==> Serialize(v) in {"null", "false", "0", "\"\"", "[]", "{}"}
  {
    match v
    case JInt(n) =>
      var r := Text.IntToString(n);
      if n > 0 {
        assert r[0] != '0' && '0' <= r[0] <= '9';
      }
    case JStr(t) =>
      var r := Serialize(v);
      assert r == "\"" + Escape(t) + "\"";
      if t == [] {
        assert r == "\"\"";
      } else {
        assert |r| >= 3 && r[0] == '"';
      }
    case JArr(xs) =>
      var parts := seq(|xs|, i requires 0 <= i < |xs| => Serialize(xs[i]));
      var r := Serialize(v);
      assert r == "[" + Join(parts, ", ") + "]";
      if xs != [] {
        assert |parts[0]| >= 1;
        assert |r| >= 3 && r[0] == '[';
      } else {
        assert parts == [];
        assert r == "[]";
      }
    case JObj(ms) =>
      var parts := seq(|ms|, i requires 0 <= i < |ms| => "\"" + Escape(ms[i].0) + "\": " + Serialize(ms[i].1));
      var r := Serialize(v);
      assert r == "{" + Join(parts, ", ") + "}";
      if ms != [] {
        assert |parts[0]| >= 1;
        assert |r| >= 3 && r[0] == '{';
      } else {
        assert parts == [];
        assert r == "{}";
      }
    case _ =>
  }
}
