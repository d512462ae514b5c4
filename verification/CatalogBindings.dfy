// internal/material/bindings.go: the scanner that refuses unpaired UTF-16
// escapes before decoding, the strict parser over the decoder's tokens and the
// map of bindings it must be able to build.
module CatalogBindings {
  import opened Wrappers
  import opened Bytes
  import opened Text
  import opened MaterialCatalog

  const BACKSLASH: byte := 92
  const LETTER_U: byte := 117

  // ---- What a byte string says, item by item ----

  // An escape \uXXXX with the 16-bit unit it denotes, any other escape, or a
  // byte outside escapes.
  datatype Item = Byte(b: byte) | Escape(c: byte) | Unit(value: nat)

  function HexDigit(b: byte): Option<nat>
  {
    if 48 <= b <= 57 then Some(b - 48)
    else if 65 <= b <= 70 then Some(b - 55)
    else if 97 <= b <= 102 then Some(b - 87)
    else None
  }

  // strconv.ParseUint of four characters in base 16.
  function HexUnit(bs: seq<byte>): (v: Option<nat>)
    requires |bs| == 4
    ensures v.Some? ==> v.value < 0x1_0000
  {
    var a, b, c, d := HexDigit(bs[0]), HexDigit(bs[1]), HexDigit(bs[2]), HexDigit(bs[3]);
    if a.Some? && b.Some? && c.Some? && d.Some? then Some(((a.value * 16 + b.value) * 16 + c.value) * 16 + d.value) else None
  }

  predicate IsUnitEscape(bs: seq<byte>)
  {
    |bs| >= 6 && bs[0] == BACKSLASH && bs[1] == LETTER_U && HexUnit(bs[2..6]).Some?
  }

  // None if an escape is cut short or not hexadecimal.
  function Lex(bs: seq<byte>): Option<seq<Item>>
  {
    if bs == [] then Some([])
    else if bs[0] != BACKSLASH then Prepend(Byte(bs[0]), Lex(bs[1..]))
    else if |bs| < 2 then None
    else if bs[1] != LETTER_U then Prepend(Escape(bs[1]), Lex(bs[2..]))
    else if !IsUnitEscape(bs) then None
    else Prepend(Unit(HexUnit(bs[2..6]).value), Lex(bs[6..]))
  }

  function Prepend(x: Item, rest: Option<seq<Item>>): Option<seq<Item>>
  {
    if rest.Some? then Some([x] + rest.value) else None
  }

  predicate High(x: Item)
  {
    x.Unit? && 0xD800 <= x.value <= 0xDBFF
  }

  predicate Low(x: Item)
  {
    x.Unit? && 0xDC00 <= x.value <= 0xDFFF
  }

  // Section 7 of RFC 8259: a character outside the basic plane is a high
  // surrogate directly followed by a low one; neither stands alone.
  predicate Paired(items: seq<Item>)
  {
    (forall i | 0 <= i < |items| && High(items[i]) :: i + 1 < |items| && Low(items[i + 1]))
    && forall i | 0 <= i < |items| && Low(items[i]) :: i > 0 && High(items[i - 1])
  }

  ghost predicate Sound(bs: seq<byte>)
  {
    Lex(bs).Some? && Paired(Lex(bs).value)
  }

  lemma PairedSkip(x: Item, rest: seq<Item>)
    requires !High(x) && !Low(x)
    ensures Paired([x] + rest) <==> Paired(rest)
  {
    var items := [x] + rest;
    assert forall i | 0 <= i < |rest| :: items[i + 1] == rest[i];
    if Paired(rest) {
      assert forall i | 0 < i < |items| :: items[i] == rest[i - 1];
    }
    if Paired(items) {
      forall i | 0 <= i < |rest| && High(rest[i])
        ensures i + 1 < |rest| && Low(rest[i + 1])
      {
        assert High(items[i + 1]);
        assert rest[i + 1] == items[i + 1 + 1];
      }
      forall i | 0 <= i < |rest| && Low(rest[i])
        ensures i > 0 && High(rest[i - 1])
      {
        assert Low(items[i + 1]);
        assert High(items[i + 1 - 1]);
      }
    }
  }

  lemma PairedSkipTwo(x: Item, y: Item, rest: seq<Item>)
    requires High(x) && Low(y)
    ensures Paired([x] + ([y] + rest)) <==> Paired(rest)
  {
    var items := [x] + ([y] + rest);
    assert items[0] == x && items[1] == y;
    assert forall i | 0 <= i < |rest| :: items[i + 2] == rest[i];
    if Paired(rest) {
      assert forall i | 1 < i < |items| :: items[i] == rest[i - 2];
    }
    if Paired(items) {
      forall i | 0 <= i < |rest| && High(rest[i])
        ensures i + 1 < |rest| && Low(rest[i + 1])
      {
        assert High(items[i + 2]);
        assert rest[i + 1] == items[i + 2 + 1];
      }
      forall i | 0 <= i < |rest| && Low(rest[i])
        ensures i > 0 && High(rest[i - 1])
      {
        assert Low(items[i + 2]);
        assert High(items[i + 2 - 1]);
      }
    }
  }

  // How each branch of the scanner moves on.
  lemma Plain(bs: seq<byte>)
    requires |bs| > 0 && bs[0] != BACKSLASH
    ensures Sound(bs) <==> Sound(bs[1..])
  {
    if Lex(bs[1..]).Some? {
      PairedSkip(Byte(bs[0]), Lex(bs[1..]).value);
    }
  }

  lemma Escaped(bs: seq<byte>)
    requires |bs| > 1 && bs[0] == BACKSLASH && bs[1] != LETTER_U
    ensures Sound(bs) <==> Sound(bs[2..])
  {
    if Lex(bs[2..]).Some? {
      PairedSkip(Escape(bs[1]), Lex(bs[2..]).value);
    }
  }

  lemma LexUnit(bs: seq<byte>)
    requires IsUnitEscape(bs)
    ensures Lex(bs) == Prepend(Unit(HexUnit(bs[2..6]).value), Lex(bs[6..]))
  {
  }

  lemma SingleUnit(bs: seq<byte>)
    requires IsUnitEscape(bs)
    ensures var x := Unit(HexUnit(bs[2..6]).value);
            (Low(x) ==> !Sound(bs)) && (!High(x) && !Low(x) ==> (Sound(bs) <==> Sound(bs[6..])))
  {
    LexUnit(bs);
    var x := Unit(HexUnit(bs[2..6]).value);
    hide Lex, Paired;
    if Lex(bs[6..]).Some? {
      LowFirst(x, Lex(bs[6..]).value);
      if !High(x) && !Low(x) {
        PairedSkip(x, Lex(bs[6..]).value);
      }
    }
  }

  lemma LowFirst(x: Item, rest: seq<Item>)
    ensures Low(x) ==> !Paired([x] + rest)
  {
    assert ([x] + rest)[0] == x;
  }

  predicate LowNext(bs: seq<byte>)
  {
    IsUnitEscape(bs) && Low(Unit(HexUnit(bs[2..6]).value))
  }

  lemma HighUnit(bs: seq<byte>)
    requires IsUnitEscape(bs) && High(Unit(HexUnit(bs[2..6]).value))
    ensures Sound(bs) <==> LowNext(bs[6..]) && Sound(bs[12..])
  {
    LexUnit(bs);
    var x, rest := Unit(HexUnit(bs[2..6]).value), bs[6..];
    if LowNext(rest) {
      LexUnit(rest);
      assert rest[6..] == bs[12..];
      hide Lex;
      if Lex(bs[12..]).Some? {
        PairedSkipTwo(x, Unit(HexUnit(rest[2..6]).value), Lex(bs[12..]).value);
      }
    } else if Lex(rest).Some? {
      FirstIsNotLow(rest);
      var items := [x] + Lex(rest).value;
      assert items[0] == x;
      assert |Lex(rest).value| > 0 ==> items[0 + 1] == Lex(rest).value[0];
    }
  }

  lemma FirstIsNotLow(bs: seq<byte>)
    requires Lex(bs).Some? && !LowNext(bs)
    ensures |Lex(bs).value| > 0 ==> !Low(Lex(bs).value[0])
  {
  }

  // bindings.go:72-104: accepts exactly the byte strings whose escapes are
  // complete and whose surrogates are all paired.
  method PairedUnicodeEscapes(data: seq<byte>) returns (ok: bool)
    ensures ok <==> Lex(data).Some? && Paired(Lex(data).value)
  {
    hide Lex, Paired, HexUnit;
    var i := 0;
    while i < |data|
      invariant 0 <= i <= |data|
      invariant Sound(data) <==> Sound(data[i..])
    {
      if data[i] != BACKSLASH {
        Plain(data[i..]);
        i := i + 1;
        continue;
      }
      if i + 1 >= |data| {
        CutShort(data[i..]);
        return false;
      }
      if data[i + 1] != LETTER_U {
        Escaped(data[i..]);
        assert data[i..][2..] == data[i + 2..];
        i := i + 2;
        continue;
      }
      if i + 6 > |data| {
        CutShort(data[i..]);
        return false;
      }
      var v := HexUnit(data[i + 2..i + 6]);
      assert data[i..][2..6] == data[i + 2..i + 6] && data[i..][6..] == data[i + 6..];
      if v.None? {
        CutShort(data[i..]);
        return false;
      }
      SingleUnit(data[i..]);
      if 0xDC00 <= v.value <= 0xDFFF {
        return false;
      }
      if 0xD800 <= v.value <= 0xDBFF {
        HighUnit(data[i..]);
        if i + 12 > |data| || data[i + 6] != BACKSLASH || data[i + 7] != LETTER_U {
          return false;
        }
        var low := HexUnit(data[i + 8..i + 12]);
        assert data[i + 6..][2..6] == data[i + 8..i + 12] && data[i..][12..] == data[i + 12..];
        if low.None? || low.value < 0xDC00 || low.value > 0xDFFF {
          return false;
        }
        i := i + 6;
      }
      i := i + 6;
    }
    assert data[i..] == [];
    Nothing();
    return true;
  }

  lemma Nothing()
    ensures Sound([])
  {
  }

  lemma CutShort(bs: seq<byte>)
    requires |bs| > 0 && bs[0] == BACKSLASH && (|bs| < 2 || (bs[1] == LETTER_U && !IsUnitEscape(bs)))
    ensures !Sound(bs)
  {
  }

  // ---- The bindings ----

  datatype Binding = Binding(platform: string, kind: string, terminal: string, scene: string, mediaId: string)

  datatype BindingScope = BindingScope(platform: string, kind: string, terminal: string, scene: string)

  function ScopeOf(b: Binding): BindingScope
  {
    BindingScope(b.platform, b.kind, b.terminal, b.scene)
  }

  predicate ValidBinding(b: Binding)
  {
    PlatformKind(b.platform, b.kind) && Terminal(b.terminal) && ValidLabel(b.scene, 80, false)
      && ValidLabel(b.mediaId, 128, false)
  }

  // Every binding is valid and none repeats a scope.
  predicate Consistent(bs: seq<Binding>)
  {
    (forall i | 0 <= i < |bs| :: ValidBinding(bs[i])) && forall i, j | 0 <= i < j < |bs| :: ScopeOf(bs[i]) != ScopeOf(bs[j])
  }

  // bindings.go:106-119
  method BindingMap(bs: seq<Binding>) returns (result: Option<map<BindingScope, string>>)
    ensures result.Some? <==> Consistent(bs)
    ensures result.Some? ==>
              (forall k :: k in result.value <==> exists i :: 0 <= i < |bs| && ScopeOf(bs[i]) == k)
              && forall i | 0 <= i < |bs| :: result.value[ScopeOf(bs[i])] == bs[i].mediaId
  {
    hide ValidBinding;
    var m: map<BindingScope, string> := map[];
    for i := 0 to |bs|
      invariant forall j | 0 <= j < i :: ValidBinding(bs[j]) && ScopeOf(bs[j]) in m && m[ScopeOf(bs[j])] == bs[j].mediaId
      invariant forall k :: k in m <==> exists j :: 0 <= j < i && ScopeOf(bs[j]) == k
      invariant forall j, k | 0 <= j < k < i :: ScopeOf(bs[j]) != ScopeOf(bs[k])
    {
      if !ValidBinding(bs[i]) || ScopeOf(bs[i]) in m {
        return None;
      }
      m := m[ScopeOf(bs[i]) := bs[i].mediaId];
    }
    return Some(m);
  }

  // ---- The token parser ----

  // What the JSON decoder yields; names and string values are both `Text`.
  datatype Token = OpenArray | CloseArray | OpenObject | CloseObject | Text(value: string) | OtherValue

  const FIELDS := {"platform", "type", "terminal", "scene", "mediaId"}

  const BLANK := Binding("", "", "", "", "")

  function With(b: Binding, name: string, value: string): Binding
  {
    if name == "platform" then b.(platform := value)
    else if name == "type" then b.(kind := value)
    else if name == "terminal" then b.(terminal := value)
    else if name == "scene" then b.(scene := value)
    else if name == "mediaId" then b.(mediaId := value)
    else b
  }

  // An object as its members in the order they are written.
  type Members = seq<(string, string)>

  predicate Names(o: Members, names: set<string>)
  {
    (forall i, j | 0 <= i < j < |o| :: o[i].0 != o[j].0) && (forall i | 0 <= i < |o| :: o[i].0 in names)
    && forall n | n in names :: exists i | 0 <= i < |o| :: o[i].0 == n
  }

  function Written(o: Members): seq<Token>
  {
    if o == [] then [] else [Text(o[0].0), Text(o[0].1)] + Written(o[1..])
  }

  function Read(b: Binding, o: Members): Binding
    decreases |o|
  {
    if o == [] then b else Read(With(b, o[0].0, o[0].1), o[1..])
  }

  function Objects(os: seq<Members>): seq<Token>
  {
    if os == [] then [] else [OpenObject] + Written(os[0]) + [CloseObject] + Objects(os[1..])
  }

  function Document(os: seq<Members>): seq<Token>
  {
    [OpenArray] + Objects(os) + [CloseArray]
  }

  function ReadAll(os: seq<Members>): seq<Binding>
  {
    seq(|os|, i requires 0 <= i < |os| => Read(BLANK, os[i]))
  }

  function ParseFields(ts: seq<Token>, missing: set<string>, b: Binding): (r: Option<(Binding, seq<Token>)>)
    ensures r.Some? ==> |r.value.1| < |ts|
    decreases |ts|
  {
    if ts == [] then None
    else if ts[0].CloseArray? || ts[0].CloseObject? then
      (if ts[0].CloseObject? && missing == {} then Some((b, ts[1..])) else None)
    else if !ts[0].Text? || ts[0].value !in missing || |ts| < 2 || !ts[1].Text? then None
    else ParseFields(ts[2..], missing - {ts[0].value}, With(b, ts[0].value, ts[1].value))
  }

  function ParseObjects(ts: seq<Token>, done: seq<Binding>): Option<seq<Binding>>
    decreases |ts|
  {
    if ts == [] then None
    else if ts[0].CloseArray? || ts[0].CloseObject? then (if ts == [CloseArray] then Some(done) else None)
    else if ts[0] != OpenObject then None
    else
      var o := ParseFields(ts[1..], FIELDS, BLANK);
      if o.None? then None else ParseObjects(o.value.1, done + [o.value.0])
  }

  // bindings.go:19-64; `clean` says that nothing but white space followed.
  function ParseSpec(ts: seq<Token>, clean: bool): Option<seq<Binding>>
  {
    if ts == [] || ts[0] != OpenArray || !clean then None
    else
      var bs := ParseObjects(ts[1..], []);
      if bs.Some? && Consistent(bs.value) then bs else None
  }

  method ParseTokens(ts: seq<Token>, clean: bool) returns (out: Option<seq<Binding>>)
    ensures out == ParseSpec(ts, clean)
  {
    hide Consistent, With;
    if |ts| == 0 || ts[0] != OpenArray {
      return None;
    }
    var i := 1;
    var bindings: seq<Binding> := [];
    while i < |ts| && !ts[i].CloseArray? && !ts[i].CloseObject?
      invariant 1 <= i <= |ts|
      invariant ParseObjects(ts[1..], []) == ParseObjects(ts[i..], bindings)
    {
      if ts[i] != OpenObject {
        return None;
      }
      ghost var start := ts[i + 1..];
      assert ts[i..][1..] == start;
      i := i + 1;
      var b, missing := BLANK, FIELDS;
      while i < |ts| && !ts[i].CloseArray? && !ts[i].CloseObject?
        invariant |ts| - |start| <= i <= |ts|
        invariant ParseFields(start, FIELDS, BLANK) == ParseFields(ts[i..], missing, b)
      {
        if !ts[i].Text? || ts[i].value !in missing || i + 1 >= |ts| || !ts[i + 1].Text? {
          return None;
        }
        assert ts[i..][2..] == ts[i + 2..];
        b := With(b, ts[i].value, ts[i + 1].value);
        missing := missing - {ts[i].value};
        i := i + 2;
      }
      if i >= |ts| || ts[i] != CloseObject || |missing| != 0 {
        return None;
      }
      assert ts[i..][1..] == ts[i + 1..];
      i := i + 1;
      bindings := bindings + [b];
    }
    if i >= |ts| || ts[i] != CloseArray {
      return None;
    }
    if i + 1 != |ts| || !clean {
      return None;
    }
    assert ts[i..] == [CloseArray];
    var m := BindingMap(bindings);
    return if m.Some? then Some(bindings) else None;
  }

  lemma {:induction false} FieldsAccepted(o: Members, missing: set<string>, b: Binding, rest: seq<Token>)
    requires Names(o, missing)
    ensures ParseFields(Written(o) + ([CloseObject] + rest), missing, b) == Some((Read(b, o), rest))
    decreases |o|
  {
    var ts := Written(o) + ([CloseObject] + rest);
    if o == [] {
      assert missing == {};
      assert ts[0] == CloseObject && ts[1..] == rest;
    } else {
      var name, value := o[0].0, o[0].1;
      assert ts[0] == Text(name) && ts[1] == Text(value) && ts[2..] == Written(o[1..]) + ([CloseObject] + rest);
      var fewer := missing - {name};
      assert Names(o[1..], fewer) by {
        forall n | n in fewer
          ensures exists i | 0 <= i < |o[1..]| :: o[1..][i].0 == n
        {
          var i :| 0 <= i < |o| && o[i].0 == n;
          assert o[1..][i - 1].0 == n;
        }
      }
      FieldsAccepted(o[1..], fewer, With(b, name, value), rest);
    }
  }

  lemma {:induction false} FieldsOnly(ts: seq<Token>, missing: set<string>, b: Binding) returns (o: Members)
    requires ParseFields(ts, missing, b).Some?
    ensures Names(o, missing) && ts == Written(o) + ([CloseObject] + ParseFields(ts, missing, b).value.1)
    ensures ParseFields(ts, missing, b).value.0 == Read(b, o)
    decreases |ts|
  {
    if ts[0].CloseObject? {
      o := [];
      assert ts == [] + ([CloseObject] + ts[1..]);
    } else {
      var name, value := ts[0].value, ts[1].value;
      var rest := FieldsOnly(ts[2..], missing - {name}, With(b, name, value));
      o := [(name, value)] + rest;
      assert o[1..] == rest;
      assert Names(o, missing) by {
        forall n | n in missing
          ensures exists i | 0 <= i < |o| :: o[i].0 == n
        {
          if n == name {
            assert o[0].0 == n;
          } else {
            assert n in missing - {name};
            var i :| 0 <= i < |rest| && rest[i].0 == n;
            assert o[i + 1].0 == n;
          }
        }
      }
      assert ts == [Text(name), Text(value)] + ts[2..];
    }
  }

  predicate Complete(os: seq<Members>)
  {
    forall i | 0 <= i < |os| :: Names(os[i], FIELDS)
  }

  lemma {:induction false} ObjectsAccepted(os: seq<Members>, done: seq<Binding>)
    requires Complete(os)
    ensures ParseObjects(Objects(os) + [CloseArray], done) == Some(done + ReadAll(os))
    decreases |os|
  {
    var ts := Objects(os) + [CloseArray];
    if os == [] {
      assert ts == [CloseArray] && done + ReadAll(os) == done;
    } else {
      ObjectFirst(os, done);
      assert Complete(os[1..]);
      hide *;
      ObjectsAccepted(os[1..], done + [Read(BLANK, os[0])]);
      AddFirst(os, done);
    }
  }

  lemma ObjectFirst(os: seq<Members>, done: seq<Binding>)
    requires Complete(os) && os != []
    ensures ParseObjects(Objects(os) + [CloseArray], done)
         == ParseObjects(Objects(os[1..]) + [CloseArray], done + [Read(BLANK, os[0])])
  {
    var ts, rest := Objects(os) + [CloseArray], Objects(os[1..]) + [CloseArray];
    assert Names(os[0], FIELDS);
    hide ParseFields, Names, Read, Complete, ParseObjects;
    FirstObject(os);
    FieldsAccepted(os[0], FIELDS, BLANK, rest);
    ParseNext(ts, done, Read(BLANK, os[0]), rest);
  }

  lemma FirstObject(os: seq<Members>)
    requires os != []
    ensures var ts := Objects(os) + [CloseArray];
            |ts| > 0 && ts[0] == OpenObject && ts[1..] == Written(os[0]) + ([CloseObject] + (Objects(os[1..]) + [CloseArray]))
  {
    hide Written;
  }

  lemma ParseNext(ts: seq<Token>, done: seq<Binding>, b: Binding, rest: seq<Token>)
    requires |ts| > 0 && ts[0] == OpenObject && ParseFields(ts[1..], FIELDS, BLANK) == Some((b, rest))
    ensures ParseObjects(ts, done) == ParseObjects(rest, done + [b])
  {
    hide ParseFields;
  }

  lemma AddFirst(os: seq<Members>, done: seq<Binding>)
    requires os != []
    ensures (done + [Read(BLANK, os[0])]) + ReadAll(os[1..]) == done + ReadAll(os)
  {
    hide Read;
    assert ReadAll(os) == [Read(BLANK, os[0])] + ReadAll(os[1..]);
  }

  lemma {:induction false} ObjectsOnly(ts: seq<Token>, done: seq<Binding>) returns (os: seq<Members>)
    requires ParseObjects(ts, done).Some?
    ensures Complete(os) && ts == Objects(os) + [CloseArray] && ParseObjects(ts, done).value == done + ReadAll(os)
    decreases |ts|
  {
    ParseOne(ts, done);
    hide ParseObjects, Names, Written, Read, ReadAll, Complete;
    if ts == [CloseArray] {
      os := [];
      NoObjects(done);
    } else {
      var parsed := ParseFields(ts[1..], FIELDS, BLANK).value;
      var first := FieldsOnly(ts[1..], FIELDS, BLANK);
      var rest := ObjectsOnly(parsed.1, done + [parsed.0]);
      os := [first] + rest;
      ObjectsSplit(ts, first, parsed.1, rest, done);
    }
  }

  lemma ParseOne(ts: seq<Token>, done: seq<Binding>)
    requires ParseObjects(ts, done).Some?
    ensures ts == [CloseArray] ==> ParseObjects(ts, done).value == done
    ensures ts != [CloseArray] ==>
              |ts| > 0 && ts[0] == OpenObject && ParseFields(ts[1..], FIELDS, BLANK).Some?
              && var o := ParseFields(ts[1..], FIELDS, BLANK).value; ParseObjects(ts, done) == ParseObjects(o.1, done + [o.0])
  {
  }

  lemma NoObjects(done: seq<Binding>)
    ensures Complete([]) && Objects([]) + [CloseArray] == [CloseArray] && done + ReadAll([]) == done
  {
  }

  lemma ObjectsSplit(ts: seq<Token>, first: Members, tail: seq<Token>, rest: seq<Members>, done: seq<Binding>)
    requires |ts| > 0 && ts[0] == OpenObject && ts[1..] == Written(first) + ([CloseObject] + tail)
             && tail == Objects(rest) + [CloseArray]
    requires Names(first, FIELDS) && Complete(rest)
    ensures ts == Objects([first] + rest) + [CloseArray] && Complete([first] + rest)
    ensures (done + [Read(BLANK, first)]) + ReadAll(rest) == done + ReadAll([first] + rest)
  {
    hide Names, Written, Read;
    assert ([first] + rest)[1..] == rest;
    assert ts == [OpenObject] + ts[1..];
    assert ReadAll([first] + rest) == [Read(BLANK, first)] + ReadAll(rest);
  }

  // Accepted are exactly the arrays of objects with the five string members,
  // each once, in any order, whose bindings are consistent; the result is what
  // the members say.
  lemma ParsesExactlyDocuments(ts: seq<Token>, clean: bool, bs: seq<Binding>)
    ensures ParseSpec(ts, clean) == Some(bs)
            <==> clean && Consistent(bs) && exists os :: Complete(os) && ts == Document(os) && bs == ReadAll(os)
  {
    hide Complete, Objects, ReadAll, ParseObjects, Consistent;
    if ParseSpec(ts, clean) == Some(bs) {
      var os := ObjectsOnly(ts[1..], []);
      assert ts == [OpenArray] + ts[1..];
      assert ts == Document(os) && [] + ReadAll(os) == ReadAll(os);
    }
    if os :| Complete(os) && ts == Document(os) && bs == ReadAll(os) {
      ObjectsAccepted(os, []);
      assert ts[1..] == Objects(os) + [CloseArray];
      assert [] + ReadAll(os) == ReadAll(os);
    }
  }

  // ---- The file ----

  const MAX_BYTES := 65536

  // encoding/json as a tokenizer: the tokens up to the end or the first error,
  // and whether nothing but white space followed.
  type Tokenizer = seq<byte> -> (seq<Token>, bool)

  // A file of these bindings: short enough, text, with all surrogates paired, and
  // a document of them.
  ghost predicate Denotes(tokens: Tokenizer, data: seq<byte>, bs: seq<Binding>)
  {
    |data| <= MAX_BYTES && IsText(data) && Sound(data)
    && tokens(data).1 && Consistent(bs) && exists os :: Complete(os) && tokens(data).0 == Document(os) && bs == ReadAll(os)
  }

  ghost predicate IsText(data: seq<byte>)
  {
    exists s :: data == Utf8(s)
  }

  // bindings.go:16-68: accepts exactly such files, and returns their bindings.
  method ParseCatalogBindings(tokens: Tokenizer, data: seq<byte>) returns (out: Option<seq<Binding>>)
    ensures forall bs :: out == Some(bs) <==> Denotes(tokens, data, bs)
  {
    hide Lex, Paired, Consistent, Complete, ReadAll, Document, ParseSpec, IsText;
    ValidIsText(data);
    if |data| > MAX_BYTES || DecodeUtf8(data).None? {
      return None;
    }
    var paired := PairedUnicodeEscapes(data);
    assert paired <==> Sound(data);
    if !paired {
      return None;
    }
    var (ts, clean) := tokens(data);
    out := ParseTokens(ts, clean);
    forall bs
      ensures out == Some(bs) <==> Denotes(tokens, data, bs)
    {
      ParsesExactlyDocuments(ts, clean, bs);
    }
  }

  lemma ValidIsText(data: seq<byte>)
    ensures DecodeUtf8(data).Some? <==> IsText(data)
  {
    if DecodeUtf8(data).Some? {
      DecodesOnlyUtf8(data, DecodeUtf8(data).value);
    }
    if s :| data == Utf8(s) {
      DecodesOnlyUtf8(data, s);
    }
  }
}
