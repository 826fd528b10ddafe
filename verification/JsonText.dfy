/**
 JSON objects as text (sections 2, 4, 5 and 7 of RFC 8259) against the brace
 scanner: which texts it extracts, and how deep they may nest.
 */
module JsonText {
  import opened Prelude
  import opened Accumulator

  // ------------------------------------------------------------------
  // Derivations of the grammar, and the text each one stands for.
  // ------------------------------------------------------------------

  datatype StringUnit =
    | Plain(c: char)
    | Escape(c: char)
    | Unicode(hex: string)

  predicate ValidUnit(u: StringUnit) {
    match u
    case Plain(c) => c != '"' && c != '\\' && c as int >= 0x20
    case Escape(c) => c in "\"\\/bfnrt"
    case Unicode(hex) => |hex| == 4 && forall h <- hex :: h in "0123456789abcdefABCDEF"
  }

  function UnitText(u: StringUnit): string {
    match u
    case Plain(c) => [c]
    case Escape(c) => ['\\', c]
    case Unicode(hex) => "\\u" + hex
  }

  function UnitsText(units: seq<StringUnit>): string {
    if units == [] then "" else UnitText(units[0]) + UnitsText(units[1..])
  }

  function StringText(units: seq<StringUnit>): string {
    "\"" + UnitsText(units) + "\""
  }

  predicate ValidString(units: seq<StringUnit>) {
    forall u <- units :: ValidUnit(u)
  }

  predicate Whitespace(s: string) {
    forall c <- s :: c in " \t\n\r"
  }

  /** `true`, `false`, `null` and every number are such tokens. */
  predicate ScalarToken(s: string) {
    s != "" && forall c <- s :: 'a' <= c <= 'z' || '0' <= c <= '9' || c in "E+-."
  }

  datatype Json =
    | Scalar(token: string)
    | Text(units: seq<StringUnit>)
    | Array(open: string, items: Items)
    | Object(open: string, members: Members)

  datatype Items =
    | NoItems
    | Items(before: string, value: Json, after: string, rest: Items)

  datatype Members =
    | NoMembers
    | Members(before: string, key: seq<StringUnit>, preColon: string, postColon: string,
              value: Json, after: string, rest: Members)

  predicate Valid(j: Json) {
    match j
    case Scalar(token) => ScalarToken(token)
    case Text(units) => ValidString(units)
    case Array(open, items) => Whitespace(open) && ValidItems(items)
    case Object(open, members) => Whitespace(open) && ValidMembers(members)
  }

  predicate ValidItems(items: Items) {
    match items
    case NoItems => true
    case Items(before, value, after, rest) =>
      Whitespace(before) && Valid(value) && Whitespace(after) && ValidItems(rest)
  }

  predicate ValidMembers(members: Members) {
    match members
    case NoMembers => true
    case Members(before, key, preColon, postColon, value, after, rest) =>
      && Whitespace(before) && ValidString(key) && Whitespace(preColon) && Whitespace(postColon)
      && Valid(value) && Whitespace(after) && ValidMembers(rest)
  }

  function JsonString(j: Json): string {
    match j
    case Scalar(token) => token
    case Text(units) => StringText(units)
    case Array(open, items) => ("[" + open) + ItemsText(items) + "]"
    case Object(open, members) => "{" + (open + MembersText(members) + "}")
  }

  function ItemsText(items: Items): string {
    match items
    case NoItems => ""
    case Items(before, value, after, rest) =>
      before + JsonString(value) + (after + (if rest.NoItems? then "" else ",")) + ItemsText(rest)
  }

  function MembersText(members: Members): string {
    match members
    case NoMembers => ""
    case Members(before, key, preColon, postColon, value, after, rest) =>
      before + StringText(key) + (preColon + ":" + postColon) + JsonString(value)
      + (after + (if rest.NoMembers? then "" else ",")) + MembersText(rest)
  }

  function Max(a: nat, b: nat): nat {
    if a < b then b else a
  }

  /** How many objects are open at once at the deepest point. */
  function Nesting(j: Json): nat {
    match j
    case Scalar(_) => 0
    case Text(_) => 0
    case Array(_, items) => ItemsNesting(items)
    case Object(_, members) => 1 + MembersNesting(members)
  }

  function ItemsNesting(items: Items): nat {
    match items
    case NoItems => 0
    case Items(_, value, _, rest) => Max(Nesting(value), ItemsNesting(rest))
  }

  function MembersNesting(members: Members): nat {
    match members
    case NoMembers => 0
    case Members(_, _, _, _, value, _, rest) => Max(Nesting(value), MembersNesting(rest))
  }

  // ------------------------------------------------------------------
  // The two things text can do to a scanner inside an object.
  // ------------------------------------------------------------------

  function Inside(t: Depth): Extraction {
    Extraction([], InObject(t), "")
  }

  /** All of `text` is absorbed; the tracked depth goes from `t` to `u`. */
  predicate Passes(t: Depth, text: string, u: Depth) {
    ConsumeAll(Inside(t), text) == Extraction([], InObject(u), text)
  }

  /** The object is taken to be complete after `k` characters of `text`. */
  predicate BreaksAt(t: Depth, text: string, k: nat) {
    k <= |text| && ConsumeAll(Inside(t), text[..k]) == Extraction([text[..k]], Outside, "")
  }

  /** `x` with `objects` before it and `partial` in front of its first object. */
  function Framed(objects: seq<string>, partial: string, x: Extraction): Extraction {
    if x.objects == [] then Extraction(objects, x.state, partial + x.partial)
    else Extraction(objects + [partial + x.objects[0]] + x.objects[1..], x.state, x.partial)
  }

  lemma {:induction false} ConsumeFramed(objects: seq<string>, partial: string, x: Extraction, text: string)
    requires x.objects != [] || !x.state.Outside?
    ensures ConsumeAll(Framed(objects, partial, x), text) == Framed(objects, partial, ConsumeAll(x, text))
    decreases |text|
  {
    if text != "" {
      var y := Consume(x, text[0]);
      assert partial + x.partial + [text[0]] == partial + (x.partial + [text[0]]);
      if x.objects != [] && Closes(x.state, text[0]) {
        assert y.objects[1..] == x.objects[1..] + [x.partial + [text[0]]];
      }
      assert Consume(Framed(objects, partial, x), text[0]) == Framed(objects, partial, y);
      ConsumeFramed(objects, partial, y, text[1..]);
    }
  }

  lemma {:induction false} PassesThen(t: Depth, a: string, u: Depth, b: string, v: Depth)
    requires Passes(t, a, u) && Passes(u, b, v)
    ensures Passes(t, a + b, v)
  {
    ConsumeConcat(Inside(t), a, b);
    ConsumeFramed([], a, Inside(u), b);
    assert a + "" == a;
  }

  lemma {:induction false} PassesThenBreaks(t: Depth, a: string, u: Depth, b: string, k: nat)
    requires Passes(t, a, u) && BreaksAt(u, b, k)
    ensures BreaksAt(t, a + b, |a| + k)
  {
    assert (a + b)[..|a| + k] == a + b[..k];
    ConsumeConcat(Inside(t), a, b[..k]);
    ConsumeFramed([], a, Inside(u), b[..k]);
    assert a + "" == a;
  }

  lemma {:induction false} BreaksThenAnything(t: Depth, a: string, k: nat, b: string)
    requires BreaksAt(t, a, k)
    ensures BreaksAt(t, a + b, k)
  {
    assert (a + b)[..k] == a[..k];
  }

  predicate Neutral(text: string) {
    forall c <- text :: c !in "{}\""
  }

  lemma {:induction false} NeutralPasses(t: Depth, text: string)
    requires Neutral(text)
    ensures Passes(t, text, t)
    decreases |text|
  {
    if text != "" {
      var c := text[0];
      assert c in text;
      NeutralPasses(t, text[1..]);
      ConsumeOne(Inside(t), c);
      PassesThen(t, [c], t, text[1..], t);
      assert [c] + text[1..] == text;
    }
  }

  /** `text` keeps the scanner inside a string literal. */
  ghost predicate StaysInString(t: Depth, partial: string, text: string) {
    ConsumeAll(Extraction([], InString(t), partial), text) == Extraction([], InString(t), partial + text)
  }

  lemma {:induction false} StaysThen(t: Depth, partial: string, a: string, b: string)
    requires StaysInString(t, partial, a) && StaysInString(t, partial + a, b)
    ensures StaysInString(t, partial, a + b)
  {
    ConsumeConcat(Extraction([], InString(t), partial), a, b);
    assert (partial + a) + b == partial + (a + b);
  }

  lemma {:induction false} UnitsPass(t: Depth, partial: string, units: seq<StringUnit>)
    requires ValidString(units)
    ensures StaysInString(t, partial, UnitsText(units))
    decreases |units|
  {
    if units == [] {
      assert partial + UnitsText(units) == partial;
    } else {
      var u := units[0];
      assert u in units;
      UnitPasses(t, partial, u);
      UnitsPass(t, partial + UnitText(u), units[1..]);
      StaysThen(t, partial, UnitText(u), UnitsText(units[1..]));
    }
  }

  lemma {:induction false} UnitPasses(t: Depth, partial: string, u: StringUnit)
    requires ValidUnit(u)
    ensures StaysInString(t, partial, UnitText(u))
  {
    var x := Extraction([], InString(t), partial);
    match u {
      case Plain(c) =>
        ConsumeOne(x, c);
      case Escape(c) =>
        ConsumeTwo(x, '\\', c);
        assert partial + ['\\'] + [c] == partial + ['\\', c];
      case Unicode(hex) =>
        ConsumeTwo(x, '\\', 'u');
        assert partial + ['\\'] + ['u'] == partial + ['\\', 'u'];
        assert "\\u" == ['\\', 'u'];
        HexPasses(t, partial + "\\u", hex);
        StaysThen(t, partial, "\\u", hex);
    }
  }

  lemma ConsumeTwo(x: Extraction, a: char, b: char)
    ensures ConsumeAll(x, [a, b]) == Consume(Consume(x, a), b)
  {
    assert [a, b][1..] == [b];
    assert ConsumeAll(Consume(x, a), [b]) == ConsumeAll(Consume(Consume(x, a), b), []);
  }

  lemma {:induction false} HexPasses(t: Depth, partial: string, hex: string)
    requires forall h <- hex :: h in "0123456789abcdefABCDEF"
    ensures StaysInString(t, partial, hex)
    decreases |hex|
  {
    if hex == "" {
      assert partial + hex == partial;
    } else {
      assert hex[0] in hex;
      ConsumeOne(Extraction([], InString(t), partial), hex[0]);
      HexPasses(t, partial + [hex[0]], hex[1..]);
      StaysThen(t, partial, [hex[0]], hex[1..]);
      assert [hex[0]] + hex[1..] == hex;
    }
  }

  /** Whatever a string literal holds, it leaves the depth as it was. */
  lemma {:induction false} StringPasses(t: Depth, units: seq<StringUnit>)
    requires ValidString(units)
    ensures Passes(t, StringText(units), t)
  {
    var body := UnitsText(units);
    ConsumeOne(Inside(t), '"');
    UnitsPass(t, "\"", units);
    ConsumeConcat(Inside(t), "\"", body);
    ConsumeOne(Extraction([], InString(t), "\"" + body), '"');
    ConsumeConcat(Inside(t), "\"" + body, "\"");
    assert "" + ['"'] == "\"" && "\"" + body + ['"'] == StringText(units);
  }

  lemma ConsumeOne(x: Extraction, c: char)
    ensures ConsumeAll(x, [c]) == Consume(x, c)
  {
    assert [c][1..] == [];
    assert ConsumeAll(x, [c]) == ConsumeAll(Consume(x, c), []);
  }

  // ------------------------------------------------------------------
  // Values nested less than MAX_DEPTH deep pass; deeper ones break.
  // ------------------------------------------------------------------

  /** The tracked depth after balanced text that nests `d` deep: saturation
      forgets exactly what went over the maximum. */
  function After(t: Depth, d: nat): Depth
    requires d < MAX_DEPTH
  {
    if t <= MAX_DEPTH - d then t else MAX_DEPTH - d
  }

  lemma {:induction false} BracePasses(t: Depth)
    ensures Passes(t, "{", SaturatingSucc(t))
    ensures t > 1 ==> Passes(t, "}", t - 1)
    ensures t == 1 ==> BreaksAt(t, "}", 1)
  {
    ConsumeOne(Inside(t), '{');
    ConsumeOne(Inside(t), '}');
    assert "}"[..1] == "}" && "" + ['}'] == "}" && "" + ['{'] == "{";
  }

  lemma {:induction false} ValuePasses(t: Depth, j: Json)
    requires Valid(j) && Nesting(j) < MAX_DEPTH
    ensures Passes(t, JsonString(j), After(t, Nesting(j)))
    decreases j
  {
    match j {
      case Scalar(token) =>
        NeutralPasses(t, token);
      case Text(units) =>
        StringPasses(t, units);
      case Array(open, items) =>
        var u := After(t, ItemsNesting(items));
        NeutralPasses(t, "[" + open);
        ItemsPass(t, items);
        NeutralPasses(u, "]");
        PassesThen(t, "[" + open, t, ItemsText(items), u);
        PassesThen(t, ("[" + open) + ItemsText(items), u, "]", u);
      case Object(open, members) =>
        ObjectPasses(t, open, members);
    }
  }

  lemma BracedPasses(t: Depth, body: string, u: Depth)
    requires Passes(SaturatingSucc(t), body, u) && u > 1
    ensures Passes(t, "{" + (body + "}"), u - 1)
  {
    BracePasses(t);
    BracePasses(u);
    PassesThen(SaturatingSucc(t), body, u, "}", u - 1);
    PassesThen(t, "{", SaturatingSucc(t), body + "}", u - 1);
  }

  lemma {:induction false} ObjectPasses(t: Depth, open: string, members: Members)
    requires Whitespace(open) && ValidMembers(members) && MembersNesting(members) + 1 < MAX_DEPTH
    ensures Passes(t, "{" + (open + MembersText(members) + "}"), After(t, MembersNesting(members) + 1))
    decreases members, 2
  {
    var s := SaturatingSucc(t);
    ObjectBodyPasses(s, open, members);
    BracedPasses(t, open + MembersText(members), After(s, MembersNesting(members)));
  }

  lemma {:induction false} ObjectBodyPasses(t: Depth, open: string, members: Members)
    requires Whitespace(open) && ValidMembers(members) && MembersNesting(members) < MAX_DEPTH
    ensures Passes(t, open + MembersText(members), After(t, MembersNesting(members)))
    decreases members, 1
  {
    NeutralPasses(t, open);
    MembersPass(t, members);
    PassesThen(t, open, t, MembersText(members), After(t, MembersNesting(members)));
  }

  /** An array element or object member and all that follow it. */
  lemma ElementPasses(
    t: Depth, head: string, value: string, u: Depth, sep: string, rest: string, v: Depth)
    requires Passes(t, head, t) && Passes(t, value, u) && Neutral(sep) && Passes(u, rest, v)
    ensures Passes(t, head + value + sep + rest, v)
  {
    NeutralPasses(u, sep);
    PassesThen(t, head, t, value, u);
    PassesThen(t, head + value, u, sep, u);
    PassesThen(t, head + value + sep, u, rest, v);
  }

  lemma {:induction false} ItemsPass(t: Depth, items: Items)
    requires ValidItems(items) && ItemsNesting(items) < MAX_DEPTH
    ensures Passes(t, ItemsText(items), After(t, ItemsNesting(items)))
    decreases items
  {
    match items {
      case NoItems =>
        NeutralPasses(t, "");
      case Items(before, value, after, rest) =>
        var u := After(t, Nesting(value));
        NeutralPasses(t, before);
        ValuePasses(t, value);
        ItemsPass(u, rest);
        ElementPasses(t, before, JsonString(value), u, after + (if rest.NoItems? then "" else ","),
                      ItemsText(rest), After(u, ItemsNesting(rest)));
    }
  }

  /** Everything of a member up to its value. */
  function MemberHead(m: Members): string
    requires m.Members?
  {
    m.before + StringText(m.key) + (m.preColon + ":" + m.postColon)
  }

  lemma {:induction false} MemberHeadPasses(t: Depth, m: Members)
    requires m.Members? && ValidMembers(m)
    ensures Passes(t, MemberHead(m), t)
  {
    NeutralPasses(t, m.before);
    StringPasses(t, m.key);
    PassesThen(t, m.before, t, StringText(m.key), t);
    NeutralPasses(t, m.preColon + ":" + m.postColon);
    PassesThen(t, m.before + StringText(m.key), t, m.preColon + ":" + m.postColon, t);
  }

  lemma {:induction false} MembersPass(t: Depth, members: Members)
    requires ValidMembers(members) && MembersNesting(members) < MAX_DEPTH
    ensures Passes(t, MembersText(members), After(t, MembersNesting(members)))
    decreases members, 0
  {
    match members {
      case NoMembers =>
        NeutralPasses(t, "");
      case Members(before, key, preColon, postColon, value, after, rest) =>
        var u := After(t, Nesting(value));
        MemberHeadPasses(t, members);
        ValuePasses(t, value);
        MembersPass(u, rest);
        ElementPasses(t, MemberHead(members), JsonString(value), u, after + (if rest.NoMembers? then "" else ","),
                      MembersText(rest), After(u, MembersNesting(rest)));
    }
  }

  lemma {:induction false} ValueBreaks(t: Depth, j: Json) returns (k: nat)
    requires Valid(j) && Nesting(j) >= MAX_DEPTH
    ensures BreaksAt(t, JsonString(j), k)
    decreases j
  {
    match j {
      case Array(open, items) =>
        NeutralPasses(t, "[" + open);
        var i := ItemsBreak(t, items);
        PassesThenBreaks(t, "[" + open, t, ItemsText(items), i);
        k := |"[" + open| + i;
        BreaksThenAnything(t, ("[" + open) + ItemsText(items), k, "]");
      case Object(open, members) =>
        var s := SaturatingSucc(t);
        BracePasses(t);
        var i := ObjectBodyBreaks(s, open, members);
        PassesThenBreaks(t, "{", s, open + MembersText(members) + "}", i);
        k := 1 + i;
    }
  }

  /** The body of an object whose braces are too deep, or one too deep. */
  lemma {:induction false} ObjectBodyBreaks(t: Depth, open: string, members: Members) returns (k: nat)
    requires Whitespace(open) && ValidMembers(members) && MembersNesting(members) >= MAX_DEPTH - 1
    ensures BreaksAt(t, open + MembersText(members) + "}", k)
    ensures MembersNesting(members) >= MAX_DEPTH ==> k <= |open + MembersText(members)|
    decreases members, 2
  {
    if MembersNesting(members) < MAX_DEPTH {
      ObjectBodyPasses(t, open, members);
      BracePasses(1);
      PassesThenBreaks(t, open + MembersText(members), 1, "}", 1);
      k := |open + MembersText(members)| + 1;
    } else {
      NeutralPasses(t, open);
      var i := MembersBreak(t, members);
      PassesThenBreaks(t, open, t, MembersText(members), i);
      k := |open| + i;
      BreaksThenAnything(t, open + MembersText(members), k, "}");
    }
  }

  lemma ElementBreaks(t: Depth, head: string, value: string, i: nat, sep: string, rest: string)
    requires Passes(t, head, t) && BreaksAt(t, value, i)
    ensures BreaksAt(t, head + value + sep + rest, |head| + i)
  {
    PassesThenBreaks(t, head, t, value, i);
    BreaksThenAnything(t, head + value, |head| + i, sep);
    BreaksThenAnything(t, head + value + sep, |head| + i, rest);
  }

  lemma ElementThenBreaks(t: Depth, head: string, value: string, u: Depth, sep: string, rest: string, i: nat)
    requires Passes(t, head, t) && Passes(t, value, u) && Neutral(sep) && BreaksAt(u, rest, i)
    ensures BreaksAt(t, head + value + sep + rest, |head + value + sep| + i)
  {
    NeutralPasses(u, sep);
    PassesThen(t, head, t, value, u);
    PassesThen(t, head + value, u, sep, u);
    PassesThenBreaks(t, head + value + sep, u, rest, i);
  }

  lemma {:induction false} ItemsBreak(t: Depth, items: Items) returns (k: nat)
    requires ValidItems(items) && ItemsNesting(items) >= MAX_DEPTH
    ensures BreaksAt(t, ItemsText(items), k)
    decreases items, 1
  {
    NeutralPasses(t, items.before);
    if Nesting(items.value) >= MAX_DEPTH {
      var i := ValueBreaks(t, items.value);
      ElementBreaks(t, items.before, JsonString(items.value), i, ItemSeparator(items), ItemsText(items.rest));
      k := |items.before| + i;
    } else {
      k := LaterItemsBreak(t, items);
    }
  }

  function ItemSeparator(items: Items): (sep: string)
    requires items.Items?
  {
    items.after + (if items.rest.NoItems? then "" else ",")
  }

  lemma {:induction false} LaterItemsBreak(t: Depth, items: Items) returns (k: nat)
    requires items.Items? && ValidItems(items) && Nesting(items.value) < MAX_DEPTH <= ItemsNesting(items.rest)
    requires Passes(t, items.before, t)
    ensures BreaksAt(t, ItemsText(items), k)
    decreases items, 0
  {
    var head, value, sep := items.before, JsonString(items.value), ItemSeparator(items);
    var u := After(t, Nesting(items.value));
    ValuePasses(t, items.value);
    var i := ItemsBreak(u, items.rest);
    ElementThenBreaks(t, head, value, u, sep, ItemsText(items.rest), i);
    k := |head + value + sep| + i;
  }

  lemma {:induction false} MembersBreak(t: Depth, members: Members) returns (k: nat)
    requires ValidMembers(members) && MembersNesting(members) >= MAX_DEPTH
    ensures BreaksAt(t, MembersText(members), k)
    decreases members, 1
  {
    MemberHeadPasses(t, members);
    if Nesting(members.value) >= MAX_DEPTH {
      var i := ValueBreaks(t, members.value);
      ElementBreaks(t, MemberHead(members), JsonString(members.value), i, MemberSeparator(members),
                    MembersText(members.rest));
      k := |MemberHead(members)| + i;
    } else {
      k := LaterMembersBreak(t, members);
    }
  }

  function MemberSeparator(members: Members): (sep: string)
    requires members.Members?
  {
    members.after + (if members.rest.NoMembers? then "" else ",")
  }

  lemma {:induction false} LaterMembersBreak(t: Depth, members: Members) returns (k: nat)
    requires members.Members? && ValidMembers(members)
    requires Nesting(members.value) < MAX_DEPTH <= MembersNesting(members.rest)
    requires Passes(t, MemberHead(members), t)
    ensures BreaksAt(t, MembersText(members), k)
    decreases members, 0
  {
    var head, value, sep := MemberHead(members), JsonString(members.value), MemberSeparator(members);
    var u := After(t, Nesting(members.value));
    ValuePasses(t, members.value);
    var i := MembersBreak(u, members.rest);
    ElementThenBreaks(t, head, value, u, sep, MembersText(members.rest), i);
    k := |head + value + sep| + i;
  }

  // ------------------------------------------------------------------
  // Whole objects.
  // ------------------------------------------------------------------

  ghost predicate IsObject(j: Json) {
    j.Object? && Valid(j)
  }

  /** Past its opening brace, an object's text is read from depth one. */
  lemma {:induction false} AfterOpening(objects: seq<string>, rest: string)
    ensures ConsumeAll(Extraction(objects, Outside, ""), "{" + rest)
         == Framed(objects, "{", ConsumeAll(Inside(1), rest))
  {
    var start := Extraction(objects, Outside, "");
    ConsumeConcat(start, "{", rest);
    ConsumeOne(start, '{');
    assert "{" + "" == "{" == "" + ['{'];
    ConsumeFramed(objects, "{", Inside(1), rest);
  }

  lemma {:induction false} ObjectCompletes(objects: seq<string>, j: Json)
    requires IsObject(j) && Nesting(j) <= MAX_DEPTH
    ensures var text := JsonString(j);
            && ConsumeAll(Extraction(objects, Outside, ""), text) == Extraction(objects + [text], Outside, "")
            && ConsumeAll(Extraction(objects, Outside, ""), text[..|text| - 1]).objects == objects
  {
    var body := j.open + MembersText(j.members);
    ObjectBodyPasses(1, j.open, j.members);
    BracePasses(1);
    PassesThenBreaks(1, body, 1, "}", 1);
    assert (body + "}")[..|body| + 1] == body + "}";
    AfterOpening(objects, body + "}");
    AfterOpening(objects, body);
    assert JsonString(j)[..|JsonString(j)| - 1] == "{" + body;
  }

  /** Longer text completes at least the objects of its prefixes. */
  lemma PrefixObjects(x: Extraction, text: string, i: nat, j: nat)
    requires i <= j <= |text|
    ensures ConsumeAll(x, text[..i]).objects <= ConsumeAll(x, text[..j]).objects
  {
    assert text[..j] == text[..i] + text[i..j];
    ConsumeConcat(x, text[..i], text[i..j]);
    ObjectsGrow(ConsumeAll(x, text[..i]), text[i..j]);
  }

  /** An object that nests too deep is cut off before its closing brace. */
  lemma {:induction false} TooDeepIsCut(j: Json) returns (k: nat)
    requires IsObject(j) && Nesting(j) > MAX_DEPTH
    ensures k < |JsonString(j)| && ConsumeAll(NOTHING, JsonString(j)[..k]).objects == [JsonString(j)[..k]]
  {
    var body := j.open + MembersText(j.members) + "}";
    var i := ObjectBodyBreaks(1, j.open, j.members);
    AfterOpening([], body[..i]);
    k := i + 1;
    assert JsonString(j)[..k] == "{" + body[..i];
  }

  /** A well-formed object is extracted at its own closing brace exactly when it
      nests at most 2^32 - 1 objects; otherwise a shorter text is cut out. */
  lemma {:induction false} CompletesAtOwnBrace(j: Json)
    requires IsObject(j)
    ensures Nesting(j) <= MAX_DEPTH <==>
            ConsumeAll(NOTHING, JsonString(j)[..|JsonString(j)| - 1]).objects == []
            && ConsumeAll(NOTHING, JsonString(j)) == Extraction([JsonString(j)], Outside, "")
  {
    if Nesting(j) <= MAX_DEPTH {
      ObjectCompletes([], j);
    } else {
      var k := TooDeepIsCut(j);
      PrefixObjects(NOTHING, JsonString(j), k, |JsonString(j)| - 1);
    }
  }

  /** `n` objects, each the only member of the one around it. */
  function Nested(n: nat): Json
    requires n > 0
  {
    Object("", if n == 1 then NoMembers else Members("", [], "", "", Nested(n - 1), "", NoMembers))
  }

  lemma {:induction false} NestedNests(n: nat)
    requires n > 0
    ensures IsObject(Nested(n)) && Nesting(Nested(n)) == n
  {
    if n > 1 {
      NestedNests(n - 1);
    }
  }

  /** Such a text with 2^32 objects or more is cut off inside. */
  lemma {:induction false} DeepObjectIsCut(n: nat) returns (k: nat)
    requires n > MAX_DEPTH
    ensures k < |JsonString(Nested(n))|
    ensures ConsumeAll(NOTHING, JsonString(Nested(n))[..k]).objects == [JsonString(Nested(n))[..k]]
  {
    NestedNests(n);
    k := TooDeepIsCut(Nested(n));
  }

  /** No proper prefix of an object's text completes anything. */
  lemma {:induction false} NeverEarlier(objects: seq<string>, j: Json, k: nat)
    requires IsObject(j) && Nesting(j) <= MAX_DEPTH && k < |JsonString(j)|
    ensures ConsumeAll(Extraction(objects, Outside, ""), JsonString(j)[..k]).objects == objects
  {
    var start, text := Extraction(objects, Outside, ""), JsonString(j);
    ObjectCompletes(objects, j);
    ObjectsGrow(start, text[..k]);
    PrefixObjects(start, text, k, |text| - 1);
  }

  // ------------------------------------------------------------------
  // Streams of prose and objects, under every schedule.
  // ------------------------------------------------------------------

  predicate Prose(text: string) {
    '{' !in text
  }

  /** Prose before each object, and prose after the last. */
  datatype Stream = End(prose: string) | Call(prose: string, json: Json, rest: Stream)

  ghost predicate ValidStream(s: Stream) {
    && Prose(s.prose)
    && (s.Call? ==> IsObject(s.json) && Nesting(s.json) <= MAX_DEPTH && ValidStream(s.rest))
  }

  function StreamText(s: Stream): string {
    match s
    case End(prose) => prose
    case Call(prose, json, rest) => prose + (JsonString(json) + StreamText(rest))
  }

  function StreamObjects(s: Stream): seq<string> {
    match s
    case End(_) => []
    case Call(_, json, rest) => [JsonString(json)] + StreamObjects(rest)
  }

  lemma {:induction false} ProseIgnored(objects: seq<string>, text: string)
    requires Prose(text)
    ensures ConsumeAll(Extraction(objects, Outside, ""), text) == Extraction(objects, Outside, "")
    decreases |text|
  {
    if text != "" {
      ProseIgnored(objects, text[1..]);
    }
  }

  lemma CallExtracts(objects: seq<string>, prose: string, json: Json, rest: string)
    requires Prose(prose) && IsObject(json) && Nesting(json) <= MAX_DEPTH
    ensures ConsumeAll(Extraction(objects, Outside, ""), prose + (JsonString(json) + rest))
         == ConsumeAll(Extraction(objects + [JsonString(json)], Outside, ""), rest)
  {
    var start, text := Extraction(objects, Outside, ""), JsonString(json);
    ProseIgnored(objects, prose);
    ConsumeConcat(start, prose, text + rest);
    ObjectCompletes(objects, json);
    ConsumeConcat(start, text, rest);
  }

  lemma {:induction false} StreamExtracts(objects: seq<string>, s: Stream)
    requires ValidStream(s)
    ensures ConsumeAll(Extraction(objects, Outside, ""), StreamText(s))
         == Extraction(objects + StreamObjects(s), Outside, "")
    decreases s
  {
    match s {
      case End(prose) =>
        ProseIgnored(objects, prose);
        assert objects + [] == objects;
      case Call(prose, json, rest) =>
        CallExtracts(objects, prose, json, StreamText(rest));
        StreamExtracts(objects + [JsonString(json)], rest);
        assert objects + [JsonString(json)] + StreamObjects(rest) == objects + StreamObjects(s);
    }
  }

  /** The reassembler's promise: for every stream of prose and well-formed
      objects that parse, every fragmentation and every schedule of appends and
      takes, the raws taken are the objects in order, none of them withheld. */
  lemma {:induction false} SchedulesTakeTheObjects(
    decode: string -> Result<Wire, string>, s: Stream, ops: seq<Op>)
    requires ValidStream(s) && Input(ops) == StreamText(s)
    requires AllParse(decode, StreamObjects(s))
    ensures var session := Run(decode, ops);
            && session.taken <= StreamObjects(s)
            && (session.fields.finished.None? ==> session.taken == StreamObjects(s))
            && Run(decode, ops + seq(|StreamObjects(s)|, _ => Take)).taken == StreamObjects(s)
  {
    StreamExtracts([], s);
    assert [] + StreamObjects(s) == StreamObjects(s);
    assert Extract(Input(ops)) == StreamObjects(s);
    TakenIsPrefix(decode, ops);
    NothingWithheld(decode, ops);
    TakesDrain(decode, ops, |StreamObjects(s)|);
  }

  ghost predicate AllCalls(decode: string -> Result<Wire, string>, raws: seq<string>) {
    forall i :: 0 <= i < |raws| ==> IsCall(decode, raws[i])
  }

  /** The calls that payloads carry. */
  ghost function Calls(decode: string -> Result<Wire, string>, raws: seq<string>): (r: seq<ToolCall>)
    requires AllCalls(decode, raws)
    ensures |r| == |raws|
  {
    seq(|raws|, i requires 0 <= i < |raws| =>
      ToolCall(decode(raws[i]).value.id, decode(raws[i]).value.name, decode(raws[i]).value.arguments))
  }

  lemma CallsParse(decode: string -> Result<Wire, string>, raws: seq<string>)
    requires AllCalls(decode, raws)
    ensures AllParse(decode, raws)
    ensures forall i :: 0 <= i < |raws| ==> ParseToolCall(decode, raws[i]) == Success(Calls(decode, raws)[i])
  {
    forall i | 0 <= i < |raws| ensures ParseToolCall(decode, raws[i]) == Success(Calls(decode, raws)[i]) {
      assert IsCall(decode, raws[i]);
    }
  }

  /** And the answers handed out are, in order, the calls in those objects: each with
      its own id, name and arguments, whatever the fragmentation and the schedule. */
  lemma {:induction false} SchedulesHandOutTheCalls(
    decode: string -> Result<Wire, string>, s: Stream, ops: seq<Op>)
    requires ValidStream(s) && Input(ops) == StreamText(s)
    requires AllCalls(decode, StreamObjects(s))
    ensures var answers := Reported(Run(decode, ops + seq(|StreamObjects(s)|, _ => Take)).outcomes);
            && |answers| == |StreamObjects(s)|
            && forall i :: 0 <= i < |answers| ==> answers[i] == Success(Calls(decode, StreamObjects(s))[i])
  {
    CallsParse(decode, StreamObjects(s));
    SchedulesTakeTheObjects(decode, s, ops);
    OutcomesMatchRaws(decode, ops + seq(|StreamObjects(s)|, _ => Take));
  }
}
