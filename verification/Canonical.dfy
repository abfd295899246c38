/**
 The idempotency pre-image of internal/wagering/hash.go: JSON text of nested string
 maps with sorted keys and no whitespace. Strings are sequences of Unicode scalar
 values, that is, valid UTF-8. SHA-256 is taken to be injective, so the pre-image
 itself stands for the hash.
 */
module Canonical {
  import opened Wrappers

  datatype Json = Str(text: string) | Obj(fields: map<string, Json>)

  // ---------------------------------------------------------------- strings

  function Hex(n: nat): (c: char)
    requires n < 16
    ensures n < 10 ==> c == n as char + '0'
    ensures n >= 10 ==> c == (n - 10) as char + 'a'
  {
    if n < 10 then n as char + '0' else (n - 10) as char + 'a'
  }

  /** Go's JSON string escaping with HTML escaping switched off. */
  function Escape(c: char): (e: string)
    ensures e != []
  {
    if c == '\"' then ['\\', '\"']
    else if c == '\\' then ['\\', '\\']
    else if c == '\U{8}' then ['\\', 'b']
    else if c == '\U{C}' then ['\\', 'f']
    else if c == '\n' then ['\\', 'n']
    else if c == '\r' then ['\\', 'r']
    else if c == '\t' then ['\\', 't']
    else if c < ' ' then ['\\', 'u', '0', '0', Hex(c as int / 16), Hex(c as int % 16)]
    else if c == '\U{2028}' then ['\\', 'u', '2', '0', '2', '8']
    else if c == '\U{2029}' then ['\\', 'u', '2', '0', '2', '9']
    else [c]
  }

  /** The escaped text of `s`, followed by `tail`. */
  function EmitText(s: string, tail: string): string {
    if s == [] then tail else Escape(s[0]) + EmitText(s[1..], tail)
  }

  /** The quoted JSON string of `s`, followed by `tail`. */
  function EmitString(s: string, tail: string): string {
    ['\"'] + EmitText(s, ['\"'] + tail)
  }

  lemma EscapeIsPrefixFree(c: char, d: char, x: string, y: string)
    requires Escape(c) + x == Escape(d) + y
    ensures c == d && x == y
  {
    var e, f := Escape(c), Escape(d);
    assert e[0] == (e + x)[0] == (f + y)[0] == f[0];
    if |e| > 1 {
      assert e[1] == (e + x)[1] == (f + y)[1] == f[1];
      if |e| > 2 {
        assert |f| == 6;
        assert forall i :: 0 <= i < 6 ==> e[i] == (e + x)[i] == (f + y)[i] == f[i];
        assert e[5] == f[5] && e[4] == f[4] && e[2] == f[2];
      }
    }
    assert c == d;
    assert x == (e + x)[|e|..] == (f + y)[|f|..] == y;
  }

  lemma Peel(c: char, a: string, d: char, b: string)
    requires [c] + a == [d] + b
    ensures c == d && a == b
  {
    assert a == ([c] + a)[1..] && b == ([d] + b)[1..];
    assert c == ([c] + a)[0] && d == ([d] + b)[0];
  }

  lemma EscapeNeverStartsWithQuote(c: char, x: string, y: string)
    ensures Escape(c) + x != ['\"'] + y
  {
    assert (Escape(c) + x)[0] == Escape(c)[0] != '\"';
    assert (['\"'] + y)[0] == '\"';
  }

  /** A quoted string is self-delimiting and determines its text. */
  lemma {:induction false} TextIsUnique(s: string, t: string, x: string, y: string)
    requires EmitText(s, ['\"'] + x) == EmitText(t, ['\"'] + y)
    ensures s == t && x == y
  {
    if s == [] && t == [] {
      Peel('\"', x, '\"', y);
    } else if s == [] {
      EscapeNeverStartsWithQuote(t[0], EmitText(t[1..], ['\"'] + y), x);
    } else if t == [] {
      EscapeNeverStartsWithQuote(s[0], EmitText(s[1..], ['\"'] + x), y);
    } else {
      EscapeIsPrefixFree(s[0], t[0], EmitText(s[1..], ['\"'] + x), EmitText(t[1..], ['\"'] + y));
      TextIsUnique(s[1..], t[1..], x, y);
      assert s == [s[0]] + s[1..] && t == [t[0]] + t[1..];
    }
  }

  lemma StringIsUnique(s: string, t: string, x: string, y: string)
    requires EmitString(s, x) == EmitString(t, y)
    ensures s == t && x == y
  {
    Peel('\"', EmitText(s, ['\"'] + x), '\"', EmitText(t, ['\"'] + y));
    TextIsUnique(s, t, x, y);
  }

  // ---------------------------------------------------------------- reading strings back

  function HexValue(c: char): (r: Option<nat>)
    ensures r.Some? ==> r.value < 16
  {
    if '0' <= c <= '9' then Some((c - '0') as nat)
    else if 'a' <= c <= 'f' then Some((c - 'a') as nat + 10)
    else if 'A' <= c <= 'F' then Some((c - 'A') as nat + 10)
    else None
  }

  /** The character a JSON string text starts with, and the text after it (section 7 of RFC 8259). */
  function Unescape(s: string): (r: Option<(char, string)>)
    ensures r.Some? ==> |r.value.1| < |s|
  {
    if s == [] || s[0] < ' ' || s[0] == '\"' then None
    else if s[0] != '\\' then Some((s[0], s[1..]))
    else if |s| == 1 then None
    else if s[1] == '\"' then Some(('\"', s[2..]))
    else if s[1] == '\\' then Some(('\\', s[2..]))
    else if s[1] == '/' then Some(('/', s[2..]))
    else if s[1] == 'b' then Some(('\U{8}', s[2..]))
    else if s[1] == 'f' then Some(('\U{C}', s[2..]))
    else if s[1] == 'n' then Some(('\n', s[2..]))
    else if s[1] == 'r' then Some(('\r', s[2..]))
    else if s[1] == 't' then Some(('\t', s[2..]))
    else if s[1] != 'u' || |s| < 6 then None
    else
      var h0, h1, h2, h3 := HexValue(s[2]), HexValue(s[3]), HexValue(s[4]), HexValue(s[5]);
      if h0.None? || h1.None? || h2.None? || h3.None? then None
      else
        var n := h0.value * 4096 + h1.value * 256 + h2.value * 16 + h3.value;
        if 0xD800 <= n < 0xE000 then None else Some((n as char, s[6..]))
  }

  /** The text of a quoted string whose opening quote was read, and what follows its closing quote. */
  function Unquoted(s: string): Option<(string, string)>
    decreases |s|
  {
    if s == [] then None
    else if s[0] == '\"' then Some(("", s[1..]))
    else
      var first := Unescape(s);
      if first.None? then None
      else
        var rest := Unquoted(first.value.1);
        if rest.None? then None else Some(([first.value.0] + rest.value.0, rest.value.1))
  }

  lemma HexReadsBack(n: nat)
    requires n < 16
    ensures HexValue(Hex(n)) == Some(n)
  {
  }

  lemma EscapeReadsBack(c: char, rest: string)
    ensures Unescape(Escape(c) + rest) == Some((c, rest))
    ensures (Escape(c) + rest)[0] != '\"'
  {
    var e := Escape(c);
    var s := e + rest;
    assert s[|e|..] == rest;
    assert forall k :: 0 <= k < |e| ==> s[k] == e[k];
    if c < ' ' {
      HexReadsBack(c as int / 16);
      HexReadsBack(c as int % 16);
    }
  }

  lemma {:induction false} TextReadsBack(s: string, tail: string)
    ensures Unquoted(EmitText(s, ['\"'] + tail)) == Some((s, tail))
  {
    hide Escape, Unescape;
    if s == [] {
      assert (['\"'] + tail)[1..] == tail;
    } else {
      var rest := EmitText(s[1..], ['\"'] + tail);
      EscapeReadsBack(s[0], rest);
      TextReadsBack(s[1..], tail);
      assert s == [s[0]] + s[1..];
    }
  }

  /** A JSON reader gets back exactly the string that was written, and what follows it. */
  lemma StringReadsBack(s: string, tail: string)
    ensures EmitString(s, tail) != [] && EmitString(s, tail)[0] == '\"'
    ensures Unquoted(EmitString(s, tail)[1..]) == Some((s, tail))
  {
    TextReadsBack(s, tail);
    assert EmitString(s, tail)[1..] == EmitText(s, ['\"'] + tail);
  }

  /** Only what must be escaped is: quotes, backslashes, controls and the two line separators. */
  lemma OnlyNeededEscapes(c: char)
    ensures Escape(c) == [c] <==>
              c != '\"' && c != '\\' && c >= ' ' && c != '\U{2028}' && c != '\U{2029}'
  {
  }

  // ---------------------------------------------------------------- key order

  /** sort.Strings order: lexicographic by code point. */
  predicate Less(a: string, b: string) {
    b != [] && (a == [] || a[0] < b[0] || (a[0] == b[0] && Less(a[1..], b[1..])))
  }

  lemma {:induction false} LessIsTotal(a: string, b: string)
    ensures a == b || Less(a, b) || Less(b, a)
    ensures !(Less(a, b) && Less(b, a)) && !Less(a, a)
  {
    if a != [] && b != [] {
      LessIsTotal(a[1..], b[1..]);
      assert a == [a[0]] + a[1..] && b == [b[0]] + b[1..];
    }
    if a != [] {
      LessIsTotal(a[1..], a[1..]);
    }
  }

  lemma {:induction false} LessIsTransitive(a: string, b: string, c: string)
    requires Less(a, b) && Less(b, c)
    ensures Less(a, c)
  {
    if a != [] && a[0] == b[0] == c[0] {
      LessIsTransitive(a[1..], b[1..], c[1..]);
    }
  }

  predicate Ascending(ks: seq<string>) {
    forall i, j :: 0 <= i < j < |ks| ==> Less(ks[i], ks[j])
  }

  function Elements(ks: seq<string>): set<string> {
    set k | k in ks
  }

  function Insert(k: string, ks: seq<string>): seq<string> {
    if ks == [] || Less(k, ks[0]) then [k] + ks else [ks[0]] + Insert(k, ks[1..])
  }

  lemma {:induction false} InsertKeepsOrder(k: string, ks: seq<string>)
    requires Ascending(ks) && k !in ks
    ensures Ascending(Insert(k, ks))
    ensures Elements(Insert(k, ks)) == Elements(ks) + {k}
  {
    if ks != [] && !Less(k, ks[0]) {
      LessIsTotal(k, ks[0]);
      InsertKeepsOrder(k, ks[1..]);
      var r := Insert(k, ks[1..]);
      forall j | 0 <= j < |r|
        ensures Less(ks[0], r[j])
      {
        assert r[j] in Elements(r);
      }
      assert Elements(ks) == Elements(ks[1..]) + {ks[0]};
      assert Elements([ks[0]] + r) == Elements(r) + {ks[0]};
    } else if ks != [] {
      forall j | 0 <= j < |ks|
        ensures Less(k, ks[j])
      {
        if j > 0 {
          LessIsTransitive(k, ks[0], ks[j]);
        }
      }
      assert Elements([k] + ks) == Elements(ks) + {k};
    }
  }

  /** An ascending sequence is determined by its set of elements. */
  lemma {:induction false} AscendingIsUnique(a: seq<string>, b: seq<string>)
    requires Ascending(a) && Ascending(b) && Elements(a) == Elements(b)
    ensures a == b
  {
    NoElements(a);
    NoElements(b);
    if a != [] {
      HeadIsLeast(a, b);
      HeadIsLeast(b, a);
      LessIsTotal(a[0], b[0]);
      TailElements(a);
      TailElements(b);
      AscendingIsUnique(a[1..], b[1..]);
    }
  }

  lemma NoElements(a: seq<string>)
    ensures a == [] <==> Elements(a) == {}
  {
    assert a != [] ==> a[0] in Elements(a);
  }

  lemma HeadIsLeast(a: seq<string>, b: seq<string>)
    requires Ascending(b) && a != [] && b != [] && Elements(a) == Elements(b)
    ensures a[0] == b[0] || Less(b[0], a[0])
  {
    assert a[0] in Elements(b);
    var j :| 0 <= j < |b| && b[j] == a[0];
  }

  lemma TailElements(a: seq<string>)
    requires Ascending(a) && a != []
    ensures Elements(a[1..]) == Elements(a) - {a[0]}
  {
    forall k | k in a[1..]
      ensures k != a[0]
    {
      var j :| 0 < j < |a| && a[j] == k;
      LessIsTotal(a[0], a[0]);
    }
    forall k | k in Elements(a) && k != a[0]
      ensures k in a[1..]
    {
      var j :| 0 <= j < |a| && a[j] == k;
      assert a[1..][j - 1] == k;
    }
  }

  /** The keys of a map in canonical order. */
  ghost predicate IsKeyOrder(ks: seq<string>, keys: set<string>) {
    Ascending(ks) && Elements(ks) == keys
  }

  ghost function KeyOrder(keys: set<string>): (ks: seq<string>)
    ensures IsKeyOrder(ks, keys)
  {
    if keys == {} then []
    else
      var k :| k in keys;
      InsertKeepsOrder(k, KeyOrder(keys - {k}));
      Insert(k, KeyOrder(keys - {k}))
  }

  // ---------------------------------------------------------------- documents

  /** The canonical text of `v`, followed by `tail`. */
  ghost function Emit(v: Json, tail: string): string
    decreases v, 2, 0
  {
    match v
    case Str(text) => EmitString(text, tail)
    case Obj(fields) => ['{'] + EmitMembers(v, KeyOrder(fields.Keys), tail)
  }

  ghost function EmitMembers(v: Json, ks: seq<string>, tail: string): string
    requires v.Obj? && Elements(ks) <= v.fields.Keys
    decreases v, 1, |ks|, 0
  {
    if ks == [] then ['}'] + tail
    else
      assert ks[0] in Elements(ks);
      EmitString(ks[0], [':'] + Emit(v.fields[ks[0]], EmitMore(v, ks[1..], tail)))
  }

  ghost function EmitMore(v: Json, ks: seq<string>, tail: string): string
    requires v.Obj? && Elements(ks) <= v.fields.Keys
    decreases v, 1, |ks|, 1
  {
    if ks == [] then ['}'] + tail else [','] + EmitMembers(v, ks, tail)
  }

  /** The canonical text of a document. */
  ghost function Canon(v: Json): string {
    Emit(v, [])
  }

  lemma EmitHead(v: Json, x: string)
    ensures Emit(v, x) != [] && Emit(v, x)[0] == if v.Str? then '\"' else '{'
  {
  }

  lemma MembersHead(v: Json, ks: seq<string>, x: string)
    requires v.Obj? && Elements(ks) <= v.fields.Keys
    ensures EmitMembers(v, ks, x) != [] && EmitMembers(v, ks, x)[0] == if ks == [] then '}' else '\"'
  {
  }

  /** The text is self-delimiting and determines the document: no two trees share a pre-image. */
  lemma {:induction false} EmitIsUnique(v: Json, u: Json, x: string, y: string)
    requires Emit(v, x) == Emit(u, y)
    ensures v == u && x == y
    decreases v, 2, 0
  {
    EmitHead(v, x);
    EmitHead(u, y);
    if v.Str? {
      StringIsUnique(v.text, u.text, x, y);
    } else {
      var ks, js := KeyOrder(v.fields.Keys), KeyOrder(u.fields.Keys);
      Peel('{', EmitMembers(v, ks, x), '{', EmitMembers(u, js, y));
      MembersAreUnique(v, ks, u, js, x, y);
      assert v.fields.Keys == Elements(ks) == u.fields.Keys;
      assert v.fields == u.fields;
    }
  }

  lemma {:induction false} MembersAreUnique(v: Json, ks: seq<string>, u: Json, js: seq<string>, x: string, y: string)
    requires v.Obj? && Elements(ks) <= v.fields.Keys
    requires u.Obj? && Elements(js) <= u.fields.Keys
    requires EmitMembers(v, ks, x) == EmitMembers(u, js, y)
    ensures ks == js && x == y
    ensures forall k :: k in ks ==> v.fields[k] == u.fields[k]
    decreases v, 1, |ks|, 0
  {
    MembersHead(v, ks, x);
    MembersHead(u, js, y);
    if ks == [] {
      Peel('}', x, '}', y);
    } else {
      var k, j := ks[0], js[0];
      assert k in Elements(ks) && j in Elements(js);
      var p, q := EmitMore(v, ks[1..], x), EmitMore(u, js[1..], y);
      StringIsUnique(k, j, [':'] + Emit(v.fields[k], p), [':'] + Emit(u.fields[j], q));
      Peel(':', Emit(v.fields[k], p), ':', Emit(u.fields[j], q));
      EmitIsUnique(v.fields[k], u.fields[j], p, q);
      MoreIsUnique(v, ks[1..], u, js[1..], x, y);
      assert ks == [k] + ks[1..] && js == [j] + js[1..];
    }
  }

  lemma {:induction false} MoreIsUnique(v: Json, ks: seq<string>, u: Json, js: seq<string>, x: string, y: string)
    requires v.Obj? && Elements(ks) <= v.fields.Keys
    requires u.Obj? && Elements(js) <= u.fields.Keys
    requires EmitMore(v, ks, x) == EmitMore(u, js, y)
    ensures ks == js && x == y
    ensures forall k :: k in ks ==> v.fields[k] == u.fields[k]
    decreases v, 1, |ks|, 1
  {
    assert EmitMore(v, ks, x)[0] == if ks == [] then '}' else ',';
    assert EmitMore(u, js, y)[0] == if js == [] then '}' else ',';
    if ks == [] {
      Peel('}', x, '}', y);
    } else {
      Peel(',', EmitMembers(v, ks, x), ',', EmitMembers(u, js, y));
      MembersAreUnique(v, ks, u, js, x, y);
    }
  }

  // ---------------------------------------------------------------- the encoder

  lemma {:induction false} TextThenTail(s: string, t: string, tail: string)
    ensures EmitText(s, t + tail) == EmitText(s, t) + tail
  {
    if s != [] {
      TextThenTail(s[1..], t, tail);
    }
  }

  lemma StringThenTail(s: string, t: string, tail: string)
    ensures EmitString(s, t + tail) == EmitString(s, t) + tail
  {
    TextThenTail(s, ['\"'] + t, tail);
    assert ['\"'] + (t + tail) == (['\"'] + t) + tail;
  }

  lemma {:induction false} EmitThenTail(v: Json, t: string, tail: string)
    ensures Emit(v, t + tail) == Emit(v, t) + tail
    decreases v, 2, 0, 0
  {
    match v
    case Str(text) => StringThenTail(text, t, tail);
    case Obj(fields) => MembersThenTail(v, KeyOrder(fields.Keys), t, tail);
  }

  lemma {:induction false} MembersThenTail(v: Json, ks: seq<string>, t: string, tail: string)
    requires v.Obj? && Elements(ks) <= v.fields.Keys
    ensures EmitMembers(v, ks, t + tail) == EmitMembers(v, ks, t) + tail
    decreases v, 1, |ks|, 0
  {
    hide EmitMore, EmitString, Emit;
    if ks != [] {
      var k := ks[0];
      assert k in Elements(ks);
      var more := EmitMore(v, ks[1..], t);
      MoreThenTail(v, ks[1..], t, tail);
      EmitThenTail(v.fields[k], more, tail);
      Regroup([':'], Emit(v.fields[k], more), tail);
      StringThenTail(k, [':'] + Emit(v.fields[k], more), tail);
    }
  }

  lemma {:induction false} MoreThenTail(v: Json, ks: seq<string>, t: string, tail: string)
    requires v.Obj? && Elements(ks) <= v.fields.Keys
    ensures EmitMore(v, ks, t + tail) == EmitMore(v, ks, t) + tail
    decreases v, 1, |ks|, 1
  {
    hide EmitMembers;
    if ks != [] {
      MembersThenTail(v, ks, t, tail);
      Regroup([','], EmitMembers(v, ks, t), tail);
    } else {
      Regroup(['}'], t, tail);
    }
  }

  method CanonicalString(s: string) returns (out: string)
    ensures out == EmitString(s, [])
  {
    out := ['\"'];
    assert s[0..] == s && ['\"'] + [] == ['\"'];
    for i := 0 to |s|
      invariant out + EmitText(s[i..], ['\"']) == EmitString(s, [])
    {
      assert s[i..][1..] == s[i + 1..];
      out := out + Escape(s[i]);
    }
    out := out + ['\"'];
  }

  /** Collects the keys in whatever order the map yields them, keeping them sorted. */
  method SortedKeys(m: map<string, Json>) returns (keys: seq<string>)
    ensures keys == KeyOrder(m.Keys)
  {
    keys := [];
    var pending := m.Keys;
    while pending != {}
      invariant pending <= m.Keys
      invariant IsKeyOrder(keys, m.Keys - pending)
      decreases pending
    {
      var k :| k in pending;
      assert k !in Elements(keys);
      InsertKeepsOrder(k, keys);
      keys := Insert(k, keys);
      pending := pending - {k};
      assert m.Keys - pending == Elements(keys);
    }
    AscendingIsUnique(keys, KeyOrder(m.Keys));
  }

  /** canonicalValue: the result does not depend on the order in which a map yields its keys. */
  method CanonicalValue(v: Json) returns (out: string)
    ensures out == Canon(v)
    decreases v
  {
    match v {
      case Str(text) =>
        out := CanonicalString(text);
      case Obj(fields) =>
        var keys := SortedKeys(fields);
        out := ['{'];
        for i := 0 to |keys|
          invariant i == 0 ==> out + EmitMembers(v, keys, []) == Canon(v)
          invariant i > 0 ==> out + EmitMore(v, keys[i..], []) == Canon(v)
        {
          if i == 0 {
            assert keys[0..] == keys;
          } else {
            Regroup(out, [','], EmitMembers(v, keys[i..], []));
            out := out + [','];
          }
          MembersUnfold(v, keys, i);
          var kb := CanonicalString(keys[i]);
          var vb := CanonicalValue(fields[keys[i]]);
          Regroup(out, kb + [':'] + vb, EmitMore(v, keys[i + 1..], []));
          out := out + (kb + [':'] + vb);
        }
        out := out + ['}'];
    }
  }

  lemma Regroup(a: string, b: string, c: string)
    ensures a + (b + c) == (a + b) + c
  {
  }

  lemma MembersUnfold(v: Json, ks: seq<string>, i: nat)
    requires v.Obj? && ks == KeyOrder(v.fields.Keys) && i < |ks|
    ensures ks[i] in v.fields && Elements(ks[i..]) <= v.fields.Keys && Elements(ks[i + 1..]) <= v.fields.Keys
    ensures EmitMembers(v, ks[i..], []) ==
            (EmitString(ks[i], []) + [':'] + Canon(v.fields[ks[i]])) + EmitMore(v, ks[i + 1..], [])
  {
    assert ks[i] in Elements(ks);
    assert ks[i..][1..] == ks[i + 1..];
    var child, more := v.fields[ks[i]], EmitMore(v, ks[i + 1..], []);
    assert EmitMembers(v, ks[i..], []) == EmitString(ks[i], [':'] + Emit(child, more));
    MemberRegroups(ks[i], child, more);
  }

  lemma MemberRegroups(k: string, child: Json, more: string)
    ensures EmitString(k, [':'] + Emit(child, more)) == (EmitString(k, []) + [':'] + Canon(child)) + more
  {
    hide EmitString, Emit;
    EmitThenTail(child, [], more);
    assert [] + more == more;
    var body := [':'] + Emit(child, more);
    StringThenTail(k, [], body);
    assert [] + body == body;
    assert EmitString(k, []) + body == (EmitString(k, []) + [':'] + Canon(child)) + more;
  }

  // ---------------------------------------------------------------- the business fields

  datatype Business = Business(
    provider: string, external: string, player: string, wallet: string, round: string,
    game: string, kind: string, amount: string, currency: string, reference: string)

  const PROVIDER := "providerId"
  const EXTERNAL := "externalTransactionId"
  const PLAYER := "playerId"
  const WALLET := "walletId"
  const ROUND := "roundId"
  const GAME := "gameId"
  const KIND := "kind"
  const MONEY := "money"
  const AMOUNT := "amount"
  const CURRENCY := "currency"
  const REFERENCE := "referenceExternalTransactionId"

  /** The document hashed by PayloadHash; an absent reference is an absent field. */
  function Document(b: Business): Json {
    var doc := map[
      PROVIDER := Str(b.provider),
      EXTERNAL := Str(b.external),
      PLAYER := Str(b.player),
      WALLET := Str(b.wallet),
      ROUND := Str(b.round),
      GAME := Str(b.game),
      KIND := Str(b.kind),
      MONEY := Obj(map[AMOUNT := Str(b.amount), CURRENCY := Str(b.currency)])
    ];
    Obj(if b.reference == "" then doc else doc[REFERENCE := Str(b.reference)])
  }

  /** The document by its field names. */
  lemma DocumentNames(b: Business)
    ensures var doc := map[
              "providerId" := Str(b.provider), "externalTransactionId" := Str(b.external), "playerId" := Str(b.player),
              "walletId" := Str(b.wallet), "roundId" := Str(b.round), "gameId" := Str(b.game), "kind" := Str(b.kind),
              "money" := Obj(map["amount" := Str(b.amount), "currency" := Str(b.currency)])];
            Document(b) ==
              Obj(if b.reference == "" then doc else doc["referenceExternalTransactionId" := Str(b.reference)])
  {
  }

  ghost function PayloadHash(b: Business): string {
    Canon(Document(b))
  }

  method HashPayload(b: Business) returns (hash: string)
    ensures hash == PayloadHash(b)
  {
    hash := CanonicalValue(Document(b));
  }

  lemma DocumentFields(b: Business)
    ensures var m := Document(b).fields;
            && m.Keys >= {PROVIDER, EXTERNAL, PLAYER, WALLET, ROUND, GAME, KIND, MONEY}
            && m[PROVIDER] == Str(b.provider) && m[EXTERNAL] == Str(b.external) && m[PLAYER] == Str(b.player)
            && m[WALLET] == Str(b.wallet) && m[ROUND] == Str(b.round) && m[GAME] == Str(b.game)
            && m[KIND] == Str(b.kind)
            && m[MONEY] == Obj(map[AMOUNT := Str(b.amount), CURRENCY := Str(b.currency)])
            && (REFERENCE in m <==> b.reference != "")
            && (REFERENCE in m ==> m[REFERENCE] == Str(b.reference))
  {
    assert |PROVIDER| == 10 && |EXTERNAL| == 21 && |PLAYER| == 8 && |WALLET| == 8 && |ROUND| == 7;
    assert |GAME| == 6 && |KIND| == 4 && |MONEY| == 5 && |REFERENCE| == 30;
    assert PLAYER[0] != WALLET[0];
  }

  /** Two operations share a hash exactly when all ten business fields agree. */
  lemma PayloadHashIsInjective(a: Business, b: Business)
    ensures PayloadHash(a) == PayloadHash(b) <==> a == b
  {
    if PayloadHash(a) == PayloadHash(b) {
      EmitIsUnique(Document(a), Document(b), [], []);
      DocumentFields(a);
      DocumentFields(b);
      var m, n := map[AMOUNT := Str(a.amount), CURRENCY := Str(a.currency)],
                  map[AMOUNT := Str(b.amount), CURRENCY := Str(b.currency)];
      assert |AMOUNT| == 6 && |CURRENCY| == 8;
      assert m[AMOUNT] == n[AMOUNT] && m[CURRENCY] == n[CURRENCY];
    }
  }
}
