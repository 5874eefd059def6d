/** Deterministic JSON as `json.dumps(ensure_ascii=False, separators=(",", ":"),
    sort_keys=True)` writes it (section 7 of RFC 8259 for the escapes), and the proof that the
    text can be read in only one way. Characters are Unicode scalar values. */
module Json {
  import opened Digits

  datatype Json =
    | JNull
    | JBool(b: bool)
    | JInt(n: nat)
    | JStr(s: string)
    | JArr(items: seq<Json>)
    | JObj(members: seq<Member>)

  datatype Member = Member(key: string, value: Json)

  // ----- Text

  function Hex(d: nat): char
    requires d < 16
  {
    if d < 10 then DigitOf(d) else 'a' + (d - 10) as char
  }

  function EscapeChar(c: char): string {
    if c == '"' then "\\\""
    else if c == '\\' then "\\\\"
    else if c as int == 0x08 then "\\b"
    else if c as int == 0x0c then "\\f"
    else if c as int == 0x0a then "\\n"
    else if c as int == 0x0d then "\\r"
    else if c as int == 0x09 then "\\t"
    else if c as int < 0x20 then "\\u00" + [Hex(c as int / 16), Hex(c as int % 16)]
    else [c]
  }

  function Body(s: string): string {
    if s == "" then "" else EscapeChar(s[0]) + Body(s[1..])
  }

  function Quoted(s: string): string {
    "\"" + Body(s) + "\""
  }

  function Text(j: Json): string
    decreases j, 0
  {
    match j
    case JNull => "null"
    case JBool(b) => if b then "true" else "false"
    case JInt(n) => Decimal(n)
    case JStr(s) => Quoted(s)
    case JArr(items) => "[" + (if items == [] then "]" else Text(items[0]) + MoreItems(items[1..]))
    case JObj(members) => "{" + (if members == [] then "}" else MemberText(members[0]) + MoreMembers(members[1..]))
  }

  function MoreItems(items: seq<Json>): string
    decreases items, 1
  {
    if items == [] then "]" else "," + Text(items[0]) + MoreItems(items[1..])
  }

  function MemberText(m: Member): string
    decreases m, 0
  {
    Quoted(m.key) + ":" + Text(m.value)
  }

  function MoreMembers(members: seq<Member>): string
    decreases members, 1
  {
    if members == [] then "}" else "," + MemberText(members[0]) + MoreMembers(members[1..])
  }

  // ----- Unique readability

  /** What may follow a value inside a document, or nothing. */
  predicate Ends(rest: string) {
    rest == "" || rest[0] == ',' || rest[0] == ']' || rest[0] == '}'
  }

  /** Escapes form a prefix code. */
  lemma EscapeCode(c: char, d: char, r: string, s: string)
    requires EscapeChar(c) + r == EscapeChar(d) + s
    ensures c == d && r == s
  {
    var x, y := EscapeChar(c) + r, EscapeChar(d) + s;
    assert x[0] == EscapeChar(c)[0] && y[0] == EscapeChar(d)[0];
    if x[0] != '\\' {
      assert x[1..] == r && y[1..] == s;
    } else {
      assert x[1] == EscapeChar(c)[1] && y[1] == EscapeChar(d)[1];
      if x[1] == 'u' {
        assert x[4] == Hex(c as int / 16) && x[5] == Hex(c as int % 16);
        assert y[4] == Hex(d as int / 16) && y[5] == Hex(d as int % 16);
        assert c as int == d as int;
        assert x[6..] == r && y[6..] == s;
      } else {
        assert c == d;
        assert x[2..] == r && y[2..] == s;
      }
    }
  }

  lemma NoQuote(c: char)
    ensures |EscapeChar(c)| > 0 && EscapeChar(c)[0] != '"'
  {
  }

  lemma BodyStarts(a: string, r: string)
    ensures (Body(a) + "\"" + r)[0] == '"' <==> a == ""
  {
    hide EscapeChar;
    if a != "" {
      NoQuote(a[0]);
      assert (Body(a) + "\"" + r)[0] == EscapeChar(a[0])[0];
    }
  }

  /** A string body ends at its closing quote and nowhere else. */
  lemma {:induction false} ReadBody(a: string, b: string, r: string, s: string)
    requires Body(a) + "\"" + r == Body(b) + "\"" + s
    ensures a == b && r == s
    decreases |a|
  {
    hide EscapeChar;
    var x, y := Body(a) + "\"" + r, Body(b) + "\"" + s;
    BodyStarts(a, r);
    BodyStarts(b, s);
    if a == "" {
      assert x == "\"" + r && y == "\"" + s;
      assert x[1..] == r && y[1..] == s;
    } else {
      var r', s' := Body(a[1..]) + "\"" + r, Body(b[1..]) + "\"" + s;
      assert x == EscapeChar(a[0]) + r' && y == EscapeChar(b[0]) + s';
      EscapeCode(a[0], b[0], r', s');
      ReadBody(a[1..], b[1..], r, s);
      assert a == [a[0]] + a[1..] && b == [b[0]] + b[1..];
    }
  }

  lemma ReadQuoted(a: string, b: string, r: string, s: string)
    requires Quoted(a) + r == Quoted(b) + s
    ensures a == b && r == s
  {
    hide Body;
    var x, y := Body(a) + "\"" + r, Body(b) + "\"" + s;
    assert Quoted(a) + r == "\"" + x && Quoted(b) + s == "\"" + y;
    assert x == ("\"" + x)[1..] && y == ("\"" + y)[1..];
    ReadBody(a, b, r, s);
  }

  /** The first character of a value tells its kind. */
  function Kind(j: Json): nat {
    match j
    case JNull => 0
    case JInt(_) => 1
    case JStr(_) => 2
    case JArr(_) => 3
    case JObj(_) => 4
    case JBool(b) => if b then 6 else 7
  }

  function KindOf(c: char): nat {
    if c == 'n' then 0 else if IsDigit(c) then 1 else if c == '"' then 2 else if c == '[' then 3 else if c == '{' then 4 else if c == 't' then 6 else if c == 'f' then 7 else 5
  }

  lemma FirstChar(j: Json)
    ensures |Text(j)| > 0 && KindOf(Text(j)[0]) == Kind(j)
  {
  }

  lemma SameKind(a: Json, b: Json, r: string, s: string)
    requires Text(a) + r == Text(b) + s
    ensures Kind(a) == Kind(b)
  {
    hide Text;
    FirstChar(a);
    FirstChar(b);
    assert (Text(a) + r)[0] == Text(a)[0] && (Text(b) + s)[0] == Text(b)[0];
  }

  /** Unique readability: a text starts with at most one value, and that value ends at one
      place. */
  lemma {:induction false} ReadValue(a: Json, b: Json, r: string, s: string)
    requires Text(a) + r == Text(b) + s && Ends(r) && Ends(s)
    ensures a == b && r == s
    decreases a, 0
  {
    hide Quoted, Decimal, MoreItems, MoreMembers, MemberText;
    SameKind(a, b, r, s);
    match a
    case JNull =>
      assert (Text(a) + r)[4..] == r && (Text(b) + s)[4..] == s;
    case JBool(v) =>
      assert (Text(a) + r)[|Text(a)|..] == r && (Text(b) + s)[|Text(b)|..] == s;
    case JInt(n) =>
      ReadDigits(Decimal(n), Decimal(b.n), r, s);
      DecimalInjective(n, b.n);
    case JStr(t) =>
      ReadQuoted(t, b.s, r, s);
    case JArr(items) =>
      ReadArray(items, b.items, r, s);
    case JObj(members) =>
      ReadObject(members, b.members, r, s);
  }

  lemma ArrayStarts(xs: seq<Json>, r: string)
    ensures var x := Text(JArr(xs)) + r; |x| >= 2 && (x[1] == ']' <==> xs == [])
  {
    if xs != [] {
      FirstChar(xs[0]);
      assert (Text(JArr(xs)) + r)[1] == Text(xs[0])[0];
    }
  }

  lemma ObjectStarts(xs: seq<Member>, r: string)
    ensures var x := Text(JObj(xs)) + r; |x| >= 2 && (x[1] == '}' <==> xs == [])
  {
    if xs != [] {
      MemberStarts(xs[0]);
      assert (Text(JObj(xs)) + r)[1] == MemberText(xs[0])[0];
    }
  }

  lemma MoreStarts(xs: seq<Json>, ys: seq<Json>, r: string, s: string)
    requires MoreItems(xs) + r == MoreItems(ys) + s
    ensures xs == [] <==> ys == []
  {
    assert (MoreItems(xs) + r)[0] == MoreItems(xs)[0] && (MoreItems(ys) + s)[0] == MoreItems(ys)[0];
  }

  lemma MoreMembersStart(xs: seq<Member>, ys: seq<Member>, r: string, s: string)
    requires MoreMembers(xs) + r == MoreMembers(ys) + s
    ensures xs == [] <==> ys == []
  {
    assert (MoreMembers(xs) + r)[0] == MoreMembers(xs)[0] && (MoreMembers(ys) + s)[0] == MoreMembers(ys)[0];
  }

  lemma {:induction false} ReadArray(xs: seq<Json>, ys: seq<Json>, r: string, s: string)
    requires Text(JArr(xs)) + r == Text(JArr(ys)) + s
    ensures xs == ys && r == s
    decreases xs, 2
  {
    var x, y := Text(JArr(xs)) + r, Text(JArr(ys)) + s;
    ArrayStarts(xs, r);
    ArrayStarts(ys, s);
    if xs == [] {
      assert x[2..] == r && y[2..] == s;
    } else {
      var r', s' := MoreItems(xs[1..]) + r, MoreItems(ys[1..]) + s;
      assert x == "[" + (Text(xs[0]) + r') && y == "[" + (Text(ys[0]) + s');
      assert x[1..] == Text(xs[0]) + r' && y[1..] == Text(ys[0]) + s';
      ReadValue(xs[0], ys[0], r', s');
      ReadItems(xs[1..], ys[1..], r, s);
      assert xs == [xs[0]] + xs[1..] && ys == [ys[0]] + ys[1..];
    }
  }

  lemma {:induction false} ReadItems(xs: seq<Json>, ys: seq<Json>, r: string, s: string)
    requires MoreItems(xs) + r == MoreItems(ys) + s
    ensures xs == ys && r == s
    decreases xs, 1
  {
    hide Text;
    var x, y := MoreItems(xs) + r, MoreItems(ys) + s;
    MoreStarts(xs, ys, r, s);
    if xs == [] {
      assert x[1..] == r && y[1..] == s;
    } else {
      var r', s' := MoreItems(xs[1..]) + r, MoreItems(ys[1..]) + s;
      assert x == "," + (Text(xs[0]) + r') && y == "," + (Text(ys[0]) + s');
      assert x[1..] == Text(xs[0]) + r' && y[1..] == Text(ys[0]) + s';
      ReadValue(xs[0], ys[0], r', s');
      ReadItems(xs[1..], ys[1..], r, s);
      assert xs == [xs[0]] + xs[1..] && ys == [ys[0]] + ys[1..];
    }
  }

  lemma {:induction false} ReadMember(a: Member, b: Member, r: string, s: string)
    requires MemberText(a) + r == MemberText(b) + s && Ends(r) && Ends(s)
    ensures a == b && r == s
    decreases a, 1
  {
    hide Quoted, Text;
    var r', s' := ":" + (Text(a.value) + r), ":" + (Text(b.value) + s);
    assert MemberText(a) + r == Quoted(a.key) + r' && MemberText(b) + s == Quoted(b.key) + s';
    ReadQuoted(a.key, b.key, r', s');
    assert r'[1..] == Text(a.value) + r && s'[1..] == Text(b.value) + s;
    ReadValue(a.value, b.value, r, s);
  }

  lemma {:induction false} ReadObject(xs: seq<Member>, ys: seq<Member>, r: string, s: string)
    requires Text(JObj(xs)) + r == Text(JObj(ys)) + s
    ensures xs == ys && r == s
    decreases xs, 2
  {
    hide Quoted;
    var x, y := Text(JObj(xs)) + r, Text(JObj(ys)) + s;
    ObjectStarts(xs, r);
    ObjectStarts(ys, s);
    if xs == [] {
      assert x[2..] == r && y[2..] == s;
    } else {
      var r', s' := MoreMembers(xs[1..]) + r, MoreMembers(ys[1..]) + s;
      assert x == "{" + (MemberText(xs[0]) + r') && y == "{" + (MemberText(ys[0]) + s');
      assert x[1..] == MemberText(xs[0]) + r' && y[1..] == MemberText(ys[0]) + s';
      ReadMember(xs[0], ys[0], r', s');
      ReadMembers(xs[1..], ys[1..], r, s);
      assert xs == [xs[0]] + xs[1..] && ys == [ys[0]] + ys[1..];
    }
  }

  lemma MemberStarts(m: Member)
    ensures |MemberText(m)| > 0 && MemberText(m)[0] == '"'
  {
  }

  lemma {:induction false} ReadMembers(xs: seq<Member>, ys: seq<Member>, r: string, s: string)
    requires MoreMembers(xs) + r == MoreMembers(ys) + s
    ensures xs == ys && r == s
    decreases xs, 1
  {
    hide MemberText;
    var x, y := MoreMembers(xs) + r, MoreMembers(ys) + s;
    MoreMembersStart(xs, ys, r, s);
    if xs == [] {
      assert x[1..] == r && y[1..] == s;
    } else {
      var r', s' := MoreMembers(xs[1..]) + r, MoreMembers(ys[1..]) + s;
      assert x == "," + (MemberText(xs[0]) + r') && y == "," + (MemberText(ys[0]) + s');
      assert x[1..] == MemberText(xs[0]) + r' && y[1..] == MemberText(ys[0]) + s';
      ReadMember(xs[0], ys[0], r', s');
      ReadMembers(xs[1..], ys[1..], r, s);
      assert xs == [xs[0]] + xs[1..] && ys == [ys[0]] + ys[1..];
    }
  }

  /** Two documents with the same text are the same document. */
  lemma TextInjective(a: Json, b: Json)
    requires Text(a) == Text(b)
    ensures a == b
  {
    hide Text;
    assert Text(a) + "" == Text(a) && Text(b) + "" == Text(b);
    ReadValue(a, b, "", "");
  }

  // ----- Key order

  /** Python's order on strings: by code points, a proper prefix first. */
  predicate LexBefore(a: string, b: string) {
    b != "" && (a == "" || (if a[0] == b[0] then LexBefore(a[1..], b[1..]) else a[0] < b[0]))
  }

  lemma {:induction false} LexTotal(a: string, b: string)
    ensures a == b || LexBefore(a, b) || LexBefore(b, a)
  {
    if a != "" && b != "" && a[0] == b[0] {
      LexTotal(a[1..], b[1..]);
      assert a == [a[0]] + a[1..] && b == [b[0]] + b[1..];
    }
  }

  lemma {:induction false} LexAsymmetric(a: string, b: string)
    requires LexBefore(a, b)
    ensures !LexBefore(b, a) && a != b
  {
    if a != "" && a[0] == b[0] {
      LexAsymmetric(a[1..], b[1..]);
    }
  }

  lemma {:induction false} LexTransitive(a: string, b: string, c: string)
    requires LexBefore(a, b) && LexBefore(b, c)
    ensures LexBefore(a, c)
  {
    if a != "" && a[0] == b[0] && b[0] == c[0] {
      LexTransitive(a[1..], b[1..], c[1..]);
    }
  }

  predicate DistinctKeys(ms: seq<Member>) {
    forall i, j :: 0 <= i < j < |ms| ==> ms[i].key != ms[j].key
  }

  predicate KeysAscend(ms: seq<Member>) {
    forall i, j :: 0 <= i < j < |ms| ==> LexBefore(ms[i].key, ms[j].key)
  }

  function InsertMember(m: Member, ms: seq<Member>): seq<Member> {
    if ms == [] || LexBefore(m.key, ms[0].key) then [m] + ms else [ms[0]] + InsertMember(m, ms[1..])
  }

  function SortMembers(ms: seq<Member>): seq<Member> {
    if ms == [] then [] else InsertMember(ms[0], SortMembers(ms[1..]))
  }

  lemma {:induction false} InsertKeeps(m: Member, ms: seq<Member>)
    requires KeysAscend(ms) && forall i :: 0 <= i < |ms| ==> ms[i].key != m.key
    ensures KeysAscend(InsertMember(m, ms)) && multiset(InsertMember(m, ms)) == multiset(ms) + multiset{m}
  {
    if ms == [] {
    } else if LexBefore(m.key, ms[0].key) {
      forall i | 0 <= i < |ms| ensures LexBefore(m.key, ms[i].key) {
        if i > 0 {
          LexTransitive(m.key, ms[0].key, ms[i].key);
        }
      }
      assert multiset([m] + ms) == multiset{m} + multiset(ms);
    } else {
      LexTotal(m.key, ms[0].key);
      InsertKeeps(m, ms[1..]);
      var tail := InsertMember(m, ms[1..]);
      assert ms == [ms[0]] + ms[1..];
      forall k | 0 <= k < |tail| ensures LexBefore(ms[0].key, tail[k].key) {
        assert tail[k] in multiset(tail);
        assert tail[k] in multiset(ms[1..]) || tail[k] == m;
      }
    }
  }

  /** Sorting puts the members in key order and loses none. */
  lemma {:induction false} SortKeeps(ms: seq<Member>)
    requires DistinctKeys(ms)
    ensures KeysAscend(SortMembers(ms)) && multiset(SortMembers(ms)) == multiset(ms)
  {
    if ms != [] {
      SortKeeps(ms[1..]);
      var tail := SortMembers(ms[1..]);
      forall i | 0 <= i < |tail| ensures tail[i].key != ms[0].key {
        assert tail[i] in multiset(ms[1..]);
      }
      InsertKeeps(ms[0], tail);
      assert ms == [ms[0]] + ms[1..];
    }
  }

  lemma SameFirst(xs: seq<Member>, ys: seq<Member>)
    requires KeysAscend(xs) && KeysAscend(ys) && multiset(xs) == multiset(ys) && xs != [] && ys != []
    ensures xs[0] == ys[0]
  {
    hide LexBefore;
    assert xs[0] in multiset(ys) && ys[0] in multiset(xs);
    var i :| 0 <= i < |ys| && ys[i] == xs[0];
    var j :| 0 <= j < |xs| && xs[j] == ys[0];
    if i > 0 && j > 0 {
      LexAsymmetric(xs[0].key, ys[0].key);
    }
  }

  /** There is only one way to put members in key order. */
  lemma {:induction false} OrderUnique(xs: seq<Member>, ys: seq<Member>)
    requires KeysAscend(xs) && KeysAscend(ys) && multiset(xs) == multiset(ys)
    ensures xs == ys
  {
    hide LexBefore;
    assert |multiset(xs)| == |multiset(ys)|;
    if xs != [] {
      SameFirst(xs, ys);
      RestOf(xs);
      RestOf(ys);
      OrderUnique(xs[1..], ys[1..]);
    }
  }

  lemma RestOf(xs: seq<Member>)
    requires xs != []
    ensures xs == [xs[0]] + xs[1..] && multiset(xs[1..]) == multiset(xs) - multiset{xs[0]}
  {
    assert xs == [xs[0]] + xs[1..];
  }

  /** The document with the members of every object in key order. */
  function Sorted(j: Json): Json
    decreases j, 0
  {
    match j
    case JArr(items) => JArr(SortedItems(items))
    case JObj(members) => JObj(SortMembers(SortedValues(members)))
    case _ => j
  }

  function SortedItems(items: seq<Json>): (r: seq<Json>)
    ensures |r| == |items| && forall i :: 0 <= i < |r| ==> r[i] == Sorted(items[i])
    decreases items, 1
  {
    if items == [] then [] else [Sorted(items[0])] + SortedItems(items[1..])
  }

  function SortedMember(m: Member): Member
    decreases m, 0
  {
    Member(m.key, Sorted(m.value))
  }

  function SortedValues(members: seq<Member>): (r: seq<Member>)
    ensures |r| == |members| && forall i :: 0 <= i < |r| ==> r[i] == SortedMember(members[i])
    decreases members, 1
  {
    if members == [] then [] else [SortedMember(members[0])] + SortedValues(members[1..])
  }

  function Dumps(j: Json): string {
    Text(Sorted(j))
  }

  /** What a Python value is: no object has a key twice. */
  predicate Dictionaries(j: Json) {
    match j
    case JArr(items) => forall i :: 0 <= i < |items| ==> Dictionaries(items[i])
    case JObj(members) => DistinctKeys(members) && forall i :: 0 <= i < |members| ==> Dictionaries(members[i].value)
    case _ => true
  }

  /** Equality of Python values: lists item by item, dictionaries key by key. */
  predicate Same(a: Json, b: Json) {
    match a
    case JArr(xs) => b.JArr? && |xs| == |b.items| && forall i :: 0 <= i < |xs| ==> Same(xs[i], b.items[i])
    case JObj(xs) => b.JObj? && |xs| == |b.members| && forall i :: 0 <= i < |xs| ==> SameMember(xs[i], b.members)
    case _ => a == b
  }

  predicate SameMember(m: Member, ys: seq<Member>) {
    exists j :: 0 <= j < |ys| && ys[j].key == m.key && Same(m.value, ys[j].value)
  }

  /** The text of a value depends on the value alone, not on the order in which members were
      given at any depth, and determines it. */
  lemma DumpsExactly(a: Json, b: Json)
    requires Dictionaries(a) && Dictionaries(b)
    ensures Dumps(a) == Dumps(b) <==> Same(a, b)
  {
    hide Text, Sorted, Same, Dictionaries;
    if Dumps(a) == Dumps(b) {
      TextInjective(Sorted(a), Sorted(b));
    }
    SortedExactly(a, b);
  }

  lemma {:induction false} SortedExactly(a: Json, b: Json)
    requires Dictionaries(a) && Dictionaries(b)
    ensures Sorted(a) == Sorted(b) <==> Same(a, b)
    decreases a
  {
    match a
    case JArr(xs) =>
      if b.JArr? && |xs| == |b.items| {
        forall i | 0 <= i < |xs| ensures Sorted(xs[i]) == Sorted(b.items[i]) <==> Same(xs[i], b.items[i]) {
          SortedExactly(xs[i], b.items[i]);
        }
        SortedArrays(xs, b.items);
      } else if b.JArr? {
        assert |SortedItems(xs)| != |SortedItems(b.items)|;
      }
    case JObj(xs) =>
      if b.JObj? {
        forall i, j | 0 <= i < |xs| && 0 <= j < |b.members|
          ensures Sorted(xs[i].value) == Sorted(b.members[j].value) <==> Same(xs[i].value, b.members[j].value)
        {
          SortedExactly(xs[i].value, b.members[j].value);
        }
        SortedObjects(xs, b.members);
      }
    case _ =>
  }

  lemma SortedArrays(xs: seq<Json>, ys: seq<Json>)
    requires |xs| == |ys|
    ensures Sorted(JArr(xs)) == Sorted(JArr(ys)) <==> forall i :: 0 <= i < |xs| ==> Sorted(xs[i]) == Sorted(ys[i])
  {
    var s, t := SortedItems(xs), SortedItems(ys);
    assert Sorted(JArr(xs)) == JArr(s) && Sorted(JArr(ys)) == JArr(t);
    hide Sorted, SortedItems;
    if forall i :: 0 <= i < |xs| ==> Sorted(xs[i]) == Sorted(ys[i]) {
      assert s == t;
    } else {
      var i :| 0 <= i < |xs| && Sorted(xs[i]) != Sorted(ys[i]);
      assert s[i] != t[i];
    }
  }

  /** Sorted objects agree exactly when each member of one has its like in the other. */
  lemma SortedObjects(xs: seq<Member>, ys: seq<Member>)
    requires DistinctKeys(xs) && DistinctKeys(ys)
    requires forall i, j :: 0 <= i < |xs| && 0 <= j < |ys| ==>
               (Sorted(xs[i].value) == Sorted(ys[j].value) <==> Same(xs[i].value, ys[j].value))
    ensures Sorted(JObj(xs)) == Sorted(JObj(ys)) <==> |xs| == |ys| && forall i :: 0 <= i < |xs| ==> SameMember(xs[i], ys)
  {
    hide Sorted, Same, SortedValues, SortMembers, DistinctKeys, SameMember;
    if Sorted(JObj(xs)) == Sorted(JObj(ys)) {
      SortedToSame(xs, ys);
    } else if |xs| == |ys| && forall i :: 0 <= i < |xs| ==> SameMember(xs[i], ys) {
      SameToSorted(xs, ys);
    }
  }

  lemma SortedToSame(xs: seq<Member>, ys: seq<Member>)
    requires DistinctKeys(xs) && DistinctKeys(ys) && Sorted(JObj(xs)) == Sorted(JObj(ys))
    requires forall i, j :: 0 <= i < |xs| && 0 <= j < |ys| ==>
               (Sorted(xs[i].value) == Sorted(ys[j].value) <==> Same(xs[i].value, ys[j].value))
    ensures |xs| == |ys| && forall i :: 0 <= i < |xs| ==> SameMember(xs[i], ys)
  {
    var s, t := SortedValues(xs), SortedValues(ys);
    SameSorted(xs, ys);
    hide Sorted, Same, SortedValues, DistinctKeys, SameMember;
    assert |multiset(s)| == |s| && |multiset(t)| == |t|;
    forall i | 0 <= i < |xs| ensures SameMember(xs[i], ys) {
      assert s[i] in multiset(t);
      var j :| 0 <= j < |t| && t[j] == s[i];
      LikeMember(xs[i], ys, j);
    }
  }

  lemma SameSorted(xs: seq<Member>, ys: seq<Member>)
    requires DistinctKeys(xs) && DistinctKeys(ys) && Sorted(JObj(xs)) == Sorted(JObj(ys))
    ensures multiset(SortedValues(xs)) == multiset(SortedValues(ys))
  {
    SortedObject(xs);
    SortedObject(ys);
    assert DistinctKeys(SortedValues(xs)) && DistinctKeys(SortedValues(ys));
    hide Sorted, SortedValues, SortMembers, DistinctKeys, KeysAscend;
    SortKeeps(SortedValues(xs));
    SortKeeps(SortedValues(ys));
  }

  lemma LikeMember(m: Member, ys: seq<Member>, j: nat)
    requires j < |ys| && SortedMember(ys[j]) == SortedMember(m)
    requires Sorted(m.value) == Sorted(ys[j].value) <==> Same(m.value, ys[j].value)
    ensures SameMember(m, ys)
  {
    hide Sorted, Same;
  }

  lemma SameToSorted(xs: seq<Member>, ys: seq<Member>)
    requires DistinctKeys(xs) && DistinctKeys(ys) && |xs| == |ys| && forall i :: 0 <= i < |xs| ==> SameMember(xs[i], ys)
    requires forall i, j :: 0 <= i < |xs| && 0 <= j < |ys| ==>
               (Sorted(xs[i].value) == Sorted(ys[j].value) <==> Same(xs[i].value, ys[j].value))
    ensures Sorted(JObj(xs)) == Sorted(JObj(ys))
  {
    var s, t := SortedValues(xs), SortedValues(ys);
    assert DistinctKeys(s) && DistinctKeys(t);
    LikeValues(xs, ys);
    hide Sorted, Same, SortedValues, SortMembers, DistinctKeys, KeysAscend, SameMember;
    SortedObject(xs);
    SortedObject(ys);
    SortKeeps(s);
    SortKeeps(t);
    SameMembers(s, t);
    OrderUnique(SortMembers(s), SortMembers(t));
  }

  lemma LikeValues(xs: seq<Member>, ys: seq<Member>)
    requires forall i :: 0 <= i < |xs| ==> SameMember(xs[i], ys)
    requires forall i, j :: 0 <= i < |xs| && 0 <= j < |ys| ==>
               (Sorted(xs[i].value) == Sorted(ys[j].value) <==> Same(xs[i].value, ys[j].value))
    ensures forall i :: 0 <= i < |xs| ==> SortedValues(xs)[i] in SortedValues(ys)
  {
    hide Sorted, Same;
    forall i | 0 <= i < |xs| ensures SortedValues(xs)[i] in SortedValues(ys) {
      assert SameMember(xs[i], ys);
      var j :| 0 <= j < |ys| && ys[j].key == xs[i].key && Same(xs[i].value, ys[j].value);
      assert SortedValues(ys)[j] == SortedMember(ys[j]);
    }
  }

  /** As many different members, all of them in the other list: the same members. */
  lemma {:induction false} SameMembers(xs: seq<Member>, ys: seq<Member>)
    requires DistinctKeys(xs) && |xs| == |ys| && forall i :: 0 <= i < |xs| ==> xs[i] in ys
    ensures multiset(xs) == multiset(ys)
  {
    if xs != [] {
      assert xs[0] in ys;
      var j :| 0 <= j < |ys| && ys[j] == xs[0];
      var rest := ys[..j] + ys[j + 1..];
      forall i | 0 <= i < |xs| - 1 ensures xs[1..][i] in rest {
        var k :| 0 <= k < |ys| && ys[k] == xs[i + 1];
        assert xs[0].key != xs[i + 1].key;
        assert k != j;
        assert rest[if k < j then k else k - 1] == ys[k];
      }
      SameMembers(xs[1..], rest);
      assert xs == [xs[0]] + xs[1..] && ys == ys[..j] + [ys[j]] + ys[j + 1..];
    }
  }

  lemma SortedObject(ms: seq<Member>)
    ensures Sorted(JObj(ms)) == JObj(SortMembers(SortedValues(ms)))
  {
  }

  /** Every member is in the sorted object, under its key. */
  lemma SortedHas(ms: seq<Member>, i: nat)
    requires DistinctKeys(ms) && i < |ms|
    ensures SortedMember(ms[i]) in SortMembers(SortedValues(ms)) && KeysAscend(SortMembers(SortedValues(ms)))
  {
    SortKeeps(SortedValues(ms));
    assert SortedValues(ms)[i] in multiset(SortedValues(ms));
    assert SortedMember(ms[i]) in multiset(SortMembers(SortedValues(ms)));
  }

  /** Objects whose sorted texts agree have the same value under every key both have. */
  lemma SameUnderKey(xs: seq<Member>, ys: seq<Member>, i: nat, j: nat)
    requires DistinctKeys(xs) && DistinctKeys(ys) && Sorted(JObj(xs)) == Sorted(JObj(ys))
    requires i < |xs| && j < |ys| && xs[i].key == ys[j].key
    ensures Sorted(xs[i].value) == Sorted(ys[j].value)
  {
    hide Sorted;
    SortedObject(xs);
    SortedObject(ys);
    SortedHas(xs, i);
    SortedHas(ys, j);
    var out := SortMembers(SortedValues(xs));
    var a :| 0 <= a < |out| && out[a] == SortedMember(xs[i]);
    var b :| 0 <= b < |out| && out[b] == SortedMember(ys[j]);
    KeyOnce(out, a, b);
  }

  lemma KeyOnce(ms: seq<Member>, a: nat, b: nat)
    requires KeysAscend(ms) && a < |ms| && b < |ms| && ms[a].key == ms[b].key
    ensures a == b
  {
    if a < b {
      LexAsymmetric(ms[a].key, ms[b].key);
    } else if b < a {
      LexAsymmetric(ms[b].key, ms[a].key);
    }
  }
}
