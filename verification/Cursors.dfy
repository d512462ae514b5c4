// Page cursors: the canonical JSON cursor of the material catalog
// (internal/material/query.go) and the NUL-joined cursors of the coupon lists
// (internal/coupon/catalog.go and detail.go).
module Cursors {
  import opened Wrappers
  import opened Text
  import opened Bytes
  import opened NulJoined
  import opened MaterialCatalog
  import CouponSync

  // ---- encoding/json strings ----

  function HexChar(n: nat): char
    requires n < 16
  {
    if n < 10 then ('0' as int + n) as char else ('a' as int + n - 10) as char
  }

  // \u followed by four lower-case digits.
  function UnicodeEscape(n: nat): (s: string)
    requires n < 0x1_0000
    ensures ByteLen(s) == 6
  {
    var s := ['\\', 'u', HexChar(n / 4096), HexChar(n / 256 % 16), HexChar(n / 16 % 16), HexChar(n % 16)];
    AsciiLen(s);
    s
  }

  // json.Marshal with HTML escaping, as it is by default.
  function JsonChar(c: char): (s: string)
    ensures !IsControl(c) ==> ByteLen(s) <= 6 * Utf8Len(c)
  {
    if c == '"' then AsciiLen("\\\""); "\\\""
    else if c == '\\' then AsciiLen("\\\\"); "\\\\"
    else if c == '\n' then "\\n"
    else if c == '\r' then "\\r"
    else if c == '\t' then "\\t"
    else if c as int == 8 then "\\b"
    else if c as int == 12 then "\\f"
    else if (c as int) < 0x20 || c in {'<', '>', '&'} || c as int == 0x2028 || c as int == 0x2029 then UnicodeEscape(c as int)
    else assert ByteLen([c]) == Utf8Len(c) by { assert [c][1..] == ""; } [c]
  }

  function JsonText(s: string): string
  {
    if s == "" then "" else JsonChar(s[0]) + JsonText(s[1..])
  }

  lemma {:induction false} JsonTextBound(s: string)
    requires forall i | 0 <= i < |s| :: !IsControl(s[i])
    ensures ByteLen(JsonText(s)) <= 6 * ByteLen(s)
  {
    if s != "" {
      ByteLenAppend(JsonChar(s[0]), JsonText(s[1..]));
      JsonTextBound(s[1..]);
    }
  }

  function Decimal(n: nat): (s: string)
  {
    if n < 10 then [HexChar(n)] else Decimal(n / 10) + [HexChar(n % 10)]
  }

  function Number(n: int): string
  {
    if n < 0 then "-" + Decimal(-n) else Decimal(n)
  }

  // ---- The material cursor ----

  datatype Query = Query(ownerId: string, scope: Scope, limit: int, cursor: string)

  datatype Cursor = Cursor(version: int, ownerId: string, scope: Scope, afterId: string)

  // json.Marshal(queryCursor)
  function Marshal(c: Cursor): string
  {
    Field("{\"version\":", Number(c.version),
      Field(",\"ownerId\":\"", JsonText(c.ownerId),
        Field("\",\"scope\":{\"Platform\":\"", JsonText(c.scope.platform),
          Field("\",\"Type\":\"", JsonText(c.scope.kind),
            Field("\",\"CityCode\":\"", JsonText(c.scope.cityCode),
              Field("\",\"Business\":\"", JsonText(c.scope.business),
                Field("\",\"Terminal\":\"", JsonText(c.scope.terminal),
                  Field("\"},\"afterId\":\"", JsonText(c.afterId), "\"}"))))))))
  }

  function Field(name: string, value: string, rest: string): string
  {
    name + value + rest
  }

  predicate UuidChar(c: char)
  {
    '0' <= c <= '9' || 'a' <= c <= 'f'
  }

  // The canonical lower-case form; the nil UUID is refused.
  predicate ValidUuid(id: string)
  {
    |id| == 36 && id != "00000000-0000-0000-0000-000000000000"
    && forall i | 0 <= i < 36 :: if i in {8, 13, 18, 23} then id[i] == '-' else UuidChar(id[i])
  }

  predicate ValidQuery(q: Query)
  {
    ValidUuid(q.ownerId) && ValidContext(q.scope) && 1 <= q.limit <= 100
  }

  // Any decoder of JSON into a cursor that accepts what Marshal writes.
  type Decoder = seq<byte> -> Option<Cursor>

  ghost predicate ReadsMarshalled(decode: Decoder)
  {
    forall c: Cursor :: decode(Utf8(Marshal(c))) == Some(c)
  }

  // query.go:36-60; Ok("") is the first page.
  function ParseQuery(decode: Decoder, q: Query): Result<string, ()>
  {
    if !ValidQuery(q) then Err(())
    else if q.cursor == "" then Ok("")
    else if ByteLen(q.cursor) > 1024 then Err(())
    else
      var raw := Decode(q.cursor, true);
      if raw.None? || Encode(raw.value) != q.cursor || decode(raw.value).None? then Err(())
      else
        var c := decode(raw.value).value;
        if raw.value != Utf8(Marshal(c)) || c.version != 1 || c.ownerId != q.ownerId || c.scope != q.scope
          || !ValidUuid(c.afterId)
        then Err(()) else Ok(c.afterId)
  }

  // query.go:62-71
  function EncodeCursor(decode: Decoder, q: Query, afterId: string): Result<string, ()>
  {
    if ParseQuery(decode, q).Err? || !ValidUuid(afterId) then Err(())
    else Ok(Encode(Utf8(Marshal(Cursor(1, q.ownerId, q.scope, afterId)))))
  }

  lemma {:induction false} JsonTextPlain(s: string)
    requires forall i | 0 <= i < |s| :: UuidChar(s[i]) || s[i] == '-'
    ensures JsonText(s) == s
  {
    if s != "" {
      JsonTextPlain(s[1..]);
      assert s == [s[0]] + s[1..];
    }
  }

  lemma UuidText(id: string)
    requires ValidUuid(id)
    ensures ByteLen(JsonText(id)) == 36
  {
    JsonTextPlain(id);
    AsciiLen(id);
  }

  lemma LabelBound(s: string, max: nat)
    requires ValidLabel(s, max, true)
    ensures ByteLen(JsonText(s)) <= 6 * max
  {
    if s != "" {
      JsonTextBound(s);
    }
  }

  lemma FieldLen(name: string, value: string, rest: string)
    requires forall i | 0 <= i < |name| :: name[i] as int < 0x80
    ensures ByteLen(Field(name, value, rest)) == |name| + ByteLen(value) + ByteLen(rest)
  {
    AsciiLen(name);
    ByteLenAppend(name, value);
    ByteLenAppend(name + value, rest);
  }

  // The fixed words of a scope are short.
  lemma WordBound(scope: Scope)
    requires ValidContext(scope)
    ensures ByteLen(JsonText(scope.platform)) <= 12 && ByteLen(JsonText(scope.kind)) <= 48
            && ByteLen(JsonText(scope.terminal)) <= 42
  {
    hide JsonText, ByteLen;
    ShortWord("JD");
    ShortWord("TB");
    ShortWord("MT");
    ShortWord("PRODUCT");
    ShortWord("ACTIVITY");
    ShortWord("H5");
    ShortWord("WX_MINI");
  }

  lemma ShortWord(s: string)
    requires forall i | 0 <= i < |s| :: 0x20 <= s[i] as int < 0x7F
    ensures ByteLen(JsonText(s)) <= 6 * |s|
  {
    AsciiLen(s);
    JsonTextBound(s);
  }

  lemma MarshalBound(q: Query, afterId: string)
    requires ValidQuery(q) && ValidUuid(afterId)
    ensures ByteLen(Marshal(Cursor(1, q.ownerId, q.scope, afterId))) <= 768
  {
    UuidText(q.ownerId);
    UuidText(afterId);
    WordBound(q.scope);
    LabelBound(q.scope.cityCode, 32);
    LabelBound(q.scope.business, 40);
    hide *;
    assert ByteLen(Number(1)) == 1 by { OneDigit(); }
    MarshalLen(Cursor(1, q.ownerId, q.scope, afterId));
  }

  lemma OneDigit()
    ensures ByteLen(Number(1)) == 1
  {
    assert Number(1) == "1";
    AsciiLen("1");
  }

  lemma MarshalLen(c: Cursor)
    ensures ByteLen(Marshal(c))
            == 114 + ByteLen(Number(c.version)) + ByteLen(JsonText(c.ownerId)) + ByteLen(JsonText(c.scope.platform))
               + ByteLen(JsonText(c.scope.kind)) + ByteLen(JsonText(c.scope.cityCode)) + ByteLen(JsonText(c.scope.business))
               + ByteLen(JsonText(c.scope.terminal)) + ByteLen(JsonText(c.afterId))
  {
    hide JsonText, ByteLen, Field, Number;
    var h := "\"}";
    var g := Field("\"},\"afterId\":\"", JsonText(c.afterId), h);
    var f := Field("\",\"Terminal\":\"", JsonText(c.scope.terminal), g);
    var e := Field("\",\"Business\":\"", JsonText(c.scope.business), f);
    var d := Field("\",\"CityCode\":\"", JsonText(c.scope.cityCode), e);
    var b := Field("\",\"Type\":\"", JsonText(c.scope.kind), d);
    var a := Field("\",\"scope\":{\"Platform\":\"", JsonText(c.scope.platform), b);
    AsciiLen(h);
    FieldLen("\"},\"afterId\":\"", JsonText(c.afterId), h);
    FieldLen("\",\"Terminal\":\"", JsonText(c.scope.terminal), g);
    FieldLen("\",\"Business\":\"", JsonText(c.scope.business), f);
    FieldLen("\",\"CityCode\":\"", JsonText(c.scope.cityCode), e);
    FieldLen("\",\"Type\":\"", JsonText(c.scope.kind), d);
    FieldLen("\",\"scope\":{\"Platform\":\"", JsonText(c.scope.platform), b);
    FieldLen(",\"ownerId\":\"", JsonText(c.ownerId), a);
    FieldLen("{\"version\":", Number(c.version), Field(",\"ownerId\":\"", JsonText(c.ownerId), a));
  }

  // Every cursor fits into the 1024 characters that ParseQuery accepts, even
  // when every character of city and business is escaped.
  lemma CursorFits(decode: Decoder, q: Query, afterId: string)
    requires EncodeCursor(decode, q, afterId).Ok?
    ensures ByteLen(EncodeCursor(decode, q, afterId).value) == |EncodeCursor(decode, q, afterId).value| <= 1024
  {
    MarshalBound(q, afterId);
    var raw := Utf8(Marshal(Cursor(1, q.ownerId, q.scope, afterId)));
    EncodedAscii(raw);
    AsciiLen(Encode(raw));
  }

  lemma {:induction false} EncodedAscii(bs: seq<byte>)
    ensures forall i | 0 <= i < |Encode(bs)| :: Encode(bs)[i] as int < 0x80
  {
    hide Unpack;
    if |bs| > 2 {
      EncodedAscii(bs[3..]);
      assert forall i | 4 <= i < |Encode(bs)| :: Encode(bs)[i] == Encode(bs[3..])[i - 4];
    }
  }

  // A cursor parses back to the ID it was made for, in a query of the same
  // owner and scope with any limit.
  lemma CursorRoundTrip(decode: Decoder, q: Query, afterId: string, next: Query)
    requires ReadsMarshalled(decode) && EncodeCursor(decode, q, afterId).Ok?
    requires ValidQuery(next) && next.ownerId == q.ownerId && next.scope == q.scope
    requires next.cursor == EncodeCursor(decode, q, afterId).value
    ensures ParseQuery(decode, next) == Ok(afterId)
  {
    CursorFits(decode, q, afterId);
    var c := Cursor(1, q.ownerId, q.scope, afterId);
    DecodeEncode(Utf8(Marshal(c)), true);
    assert decode(Utf8(Marshal(c))) == Some(c);
    hide Marshal, Utf8, ValidQuery, ByteLen;
    assert next.cursor != "" by { MarshalNotEmpty(c); }
  }

  lemma MarshalNotEmpty(c: Cursor)
    ensures Encode(Utf8(Marshal(c))) != ""
  {
    MarshalLen(c);
  }

  // Whatever decoder is used, the only cursor that leads to an ID is the one
  // EncodeCursor makes for it on the first page of the same owner and scope: no
  // second spelling is accepted. A decoder that reads what was written accepts it.
  lemma CursorIsCanonical(decode: Decoder, q: Query, id: string)
    requires q.cursor != ""
    ensures ParseQuery(decode, q) == Ok(id) ==> EncodeCursor(decode, q.(cursor := ""), id) == Ok(q.cursor)
    ensures ReadsMarshalled(decode) && EncodeCursor(decode, q.(cursor := ""), id) == Ok(q.cursor) ==> ParseQuery(decode, q) == Ok(id)
  {
    var first := q.(cursor := "");
    if ReadsMarshalled(decode) && EncodeCursor(decode, first, id) == Ok(q.cursor) {
      CursorRoundTrip(decode, first, id, q);
    }
  }

  // ---- The coupon cursors ----

  // catalog.go:79-88
  function ParseCouponList(platform: string, city: string, business: string, raw: string): Option<string>
  {
    var parts := Split(raw);
    if ByteLen(raw) > 210 || |parts| != 4 || parts[0] != platform || parts[1] != city || parts[2] != business
       || parts[3] == "" || ByteLen(parts[3]) > 128 || !Trimmed(parts[3]) then None
    else Some(parts[3])
  }

  // detail.go:72-81
  function ParseCouponProducts(id: string, city: string, business: string, raw: string): Option<string>
  {
    var parts := Split(raw);
    if ByteLen(raw) > 335 || |parts| != 4 || parts[0] != id || parts[1] != city || parts[2] != business
       || !ValidLine(parts[3], 128) then None
    else Some(parts[3])
  }

  lemma ContextIsNulFree(city: string, business: string)
    requires CouponSync.ValidContext(city, business)
    ensures NulFree(city) && NulFree(business) && ByteLen(city) <= 32 && ByteLen(business) <= 40
  {
    assert forall i | 0 <= i < |city| :: (city + business)[i] == city[i];
    assert forall i | 0 <= i < |business| :: (city + business)[|city| + i] == business[i];
  }

  lemma LineIsNulFree(s: string)
    ensures ValidLine(s, 128) ==> NulFree(s) && ByteLen(s) <= 128
  {
  }

  lemma FourParts(a: string, b: string, c: string, d: string)
    ensures Join([a, b, c, d]) == a + "\0" + (b + "\0" + (c + "\0" + d))
    ensures ByteLen(Join([a, b, c, d])) == ByteLen(a) + ByteLen(b) + ByteLen(c) + ByteLen(d) + 3
    ensures NulFree(a) && NulFree(b) && NulFree(c) && NulFree(d) ==> Split(Join([a, b, c, d])) == [a, b, c, d]
  {
    JoinFour(a, b, c, d);
    assert ByteLen("\0") == 1 by { assert "\0"[1..] == ""; }
    hide Join, ByteLen;
    ByteLenAppend(a + "\0", b + "\0" + (c + "\0" + d));
    ByteLenAppend(a, "\0");
    ByteLenAppend(b + "\0", c + "\0" + d);
    ByteLenAppend(b, "\0");
    ByteLenAppend(c + "\0", d);
    ByteLenAppend(c, "\0");
    if NulFree(a) && NulFree(b) && NulFree(c) && NulFree(d) {
      SplitJoin([a, b, c, d]);
    }
  }

  lemma JoinFour(a: string, b: string, c: string, d: string)
    ensures Join([a, b, c, d]) == a + "\0" + (b + "\0" + (c + "\0" + d))
  {
    assert [a, b, c, d][1..] == [b, c, d] && [b, c, d][1..] == [c, d] && [c, d][1..] == [d];
    assert Join([c, d]) == c + "\0" + d;
    assert Join([b, c, d]) == b + "\0" + Join([c, d]);
  }

  lemma SplitFour(raw: string)
    requires |Split(raw)| == 4
    ensures var p := Split(raw); raw == Join([p[0], p[1], p[2], p[3]]) && NulFree(p[3])
  {
    JoinSplit(raw);
    var p := Split(raw);
    assert p == [p[0], p[1], p[2], p[3]];
  }

  // Base64 is decoded leniently here. A text that is not UTF-8 leads nowhere: the
  // database would not take it as an argument.
  function CursorText(cursor: string): Option<string>
  {
    var bs := Decode(cursor, false);
    if bs.None? then None else DecodeUtf8(bs.value)
  }

  predicate ListContext(platform: string, city: string, business: string)
  {
    platform in {"", "JD", "TB", "MT"} && CouponSync.ValidContext(city, business)
  }

  // An ID as a list cursor may carry it.
  predicate ListId(id: string)
  {
    id != "" && ByteLen(id) <= 128 && Trimmed(id) && NulFree(id)
  }

  // catalog.go:74-89; Ok("") is the first page.
  function FollowList(platform: string, city: string, business: string, cursor: string): Result<string, ()>
  {
    if !ListContext(platform, city, business) then Err(())
    else if cursor == "" then Ok("")
    else
      var text := CursorText(cursor);
      var id := if text.None? then None else ParseCouponList(platform, city, business, text.value);
      if id.None? then Err(()) else Ok(id.value)
  }

  // catalog.go:119
  function NextList(platform: string, city: string, business: string, id: string): string
  {
    Encode(Utf8(Join([platform, city, business, id])))
  }

  // detail.go:60-82, apart from looking up the coupon.
  function FollowProducts(coupon: string, city: string, business: string, cursor: string): Result<string, ()>
  {
    if !ValidLine(coupon, 128) || !CouponSync.ValidContext(city, business) then Err(())
    else if cursor == "" then Ok("")
    else
      var text := CursorText(cursor);
      var product := if text.None? then None else ParseCouponProducts(coupon, city, business, text.value);
      if product.None? then Err(()) else Ok(product.value)
  }

  // detail.go:103
  function NextProducts(coupon: string, city: string, business: string, product: string): string
  {
    Encode(Utf8(Join([coupon, city, business, product])))
  }

  // A list cursor leads to an ID exactly when it decodes to the text written for
  // that ID in the same context.
  lemma CouponListCursor(platform: string, city: string, business: string, cursor: string, id: string)
    requires cursor != ""
    ensures FollowList(platform, city, business, cursor) == Ok(id)
            <==> ListContext(platform, city, business) && ListId(id)
                 && Decode(cursor, false) == Some(Utf8(Join([platform, city, business, id])))
  {
    hide CursorText, ListContext, ListId, Join, Utf8, Decode, ParseCouponList;
    var joined := Join([platform, city, business, id]);
    CursorTextIs(cursor, joined);
    var text := CursorText(cursor);
    if ListContext(platform, city, business) && text.Some? {
      ListTextIs(platform, city, business, text.value, id);
    }
  }

  lemma CursorTextIs(cursor: string, s: string)
    ensures CursorText(cursor) == Some(s) <==> Decode(cursor, false) == Some(Utf8(s))
  {
    if Decode(cursor, false).Some? {
      DecodesOnlyUtf8(Decode(cursor, false).value, s);
    }
  }

  lemma ListTextIs(platform: string, city: string, business: string, raw: string, id: string)
    requires ListContext(platform, city, business)
    ensures ParseCouponList(platform, city, business, raw) == Some(id)
            <==> ListId(id) && raw == Join([platform, city, business, id])
    ensures ListId(id) ==> ByteLen(Join([platform, city, business, id])) <= 205
  {
    assert ByteLen(platform) <= 2 && NulFree(platform) by { AsciiLen(platform); }
    ContextIsNulFree(city, business);
    hide ByteLen, NulFree, Trimmed, Join, Split, ListContext, CouponSync.ValidContext;
    FourParts(platform, city, business, id);
    if |Split(raw)| == 4 {
      SplitFour(raw);
    }
  }

  // What a page hands out leads on from its last ID, and is short.
  lemma CouponListRoundTrip(platform: string, city: string, business: string, id: string)
    requires ListContext(platform, city, business) && ListId(id)
    ensures FollowList(platform, city, business, NextList(platform, city, business, id)) == Ok(id)
    ensures 0 < |NextList(platform, city, business, id)| <= 274
  {
    var raw := Join([platform, city, business, id]);
    ListTextIs(platform, city, business, raw, id);
    assert ByteLen(raw) >= 3 by { FourParts(platform, city, business, id); }
    DecodeEncode(Utf8(raw), false);
    hide Encode, Utf8, ByteLen, Decode, ListContext, ListId, Join, FollowList;
    CouponListCursor(platform, city, business, NextList(platform, city, business, id), id);
  }

  // No cursor is the only spelling: a line end may follow each one.
  lemma ListCursorRespelled(platform: string, city: string, business: string, cursor: string)
    requires cursor != ""
    ensures FollowList(platform, city, business, cursor + "\n") == FollowList(platform, city, business, cursor)
  {
    LineEndIgnored(cursor, false);
    hide Decode, ParseCouponList, ListContext;
  }

  // And unless its bytes fill the last symbol, the cursor a page hands out has
  // another spelling of the same length.
  lemma ListCursorRepadded(platform: string, city: string, business: string, id: string) returns (other: string)
    requires ListContext(platform, city, business) && ListId(id)
    requires ByteLen(Join([platform, city, business, id])) % 3 != 0
    ensures other != NextList(platform, city, business, id) && |other| == |NextList(platform, city, business, id)|
    ensures FollowList(platform, city, business, other) == Ok(id)
  {
    CouponListRoundTrip(platform, city, business, id);
    other := SecondSpelling(Utf8(Join([platform, city, business, id])));
    hide Encode, Utf8, ByteLen, Decode, ListContext, ListId, Join, FollowList;
    CouponListCursor(platform, city, business, other, id);
  }

  // The same of product cursors.
  lemma CouponProductsCursor(coupon: string, city: string, business: string, cursor: string, product: string)
    requires cursor != ""
    ensures FollowProducts(coupon, city, business, cursor) == Ok(product)
            <==> ValidLine(coupon, 128) && CouponSync.ValidContext(city, business) && ValidLine(product, 128)
                 && Decode(cursor, false) == Some(Utf8(Join([coupon, city, business, product])))
  {
    hide CursorText, CouponSync.ValidContext, ValidLine, Join, Utf8, Decode, ParseCouponProducts;
    CursorTextIs(cursor, Join([coupon, city, business, product]));
    var text := CursorText(cursor);
    if ValidLine(coupon, 128) && CouponSync.ValidContext(city, business) && text.Some? {
      ProductsTextIs(coupon, city, business, text.value, product);
    }
  }

  lemma ProductsTextIs(coupon: string, city: string, business: string, raw: string, product: string)
    requires ValidLine(coupon, 128) && CouponSync.ValidContext(city, business)
    ensures ParseCouponProducts(coupon, city, business, raw) == Some(product)
            <==> ValidLine(product, 128) && raw == Join([coupon, city, business, product])
    ensures ValidLine(product, 128) ==> ByteLen(Join([coupon, city, business, product])) <= 331
  {
    ContextIsNulFree(city, business);
    LineIsNulFree(coupon);
    LineIsNulFree(product);
    hide ByteLen, NulFree, Trimmed, Join, Split, CouponSync.ValidContext, ValidLine, ValidText;
    FourParts(coupon, city, business, product);
    if |Split(raw)| == 4 {
      SplitFour(raw);
    }
  }

  lemma CouponProductsRoundTrip(coupon: string, city: string, business: string, product: string)
    requires ValidLine(coupon, 128) && CouponSync.ValidContext(city, business) && ValidLine(product, 128)
    ensures FollowProducts(coupon, city, business, NextProducts(coupon, city, business, product)) == Ok(product)
    ensures 0 < |NextProducts(coupon, city, business, product)| <= 442
  {
    var raw := Join([coupon, city, business, product]);
    ProductsTextIs(coupon, city, business, raw, product);
    assert ByteLen(raw) >= 3 by { FourParts(coupon, city, business, product); }
    DecodeEncode(Utf8(raw), false);
    hide Encode, Utf8, ByteLen, Decode, CouponSync.ValidContext, ValidLine, Join, FollowProducts;
    CouponProductsCursor(coupon, city, business, NextProducts(coupon, city, business, product), product);
  }

  lemma ProductCursorRespelled(coupon: string, city: string, business: string, cursor: string)
    requires cursor != ""
    ensures FollowProducts(coupon, city, business, cursor + "\n") == FollowProducts(coupon, city, business, cursor)
  {
    LineEndIgnored(cursor, false);
    hide Decode, ParseCouponProducts, CouponSync.ValidContext, ValidLine;
  }
}
