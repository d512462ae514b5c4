// internal/coupon/sync.go: publishing and revoking one coupon from verified
// snapshots. The advisory lock on the coupon's ID makes each transaction one
// atomic step on that coupon's rows. Times are nanoseconds since Go's zero time.
module CouponSync {
  import opened Wrappers
  import opened Text

  datatype Item = Item(id: string, platform: string, claimMode: string, title: string, scope: string,
    scopeExternalId: string, scopeName: string, currency: string, discountMinor: int, thresholdMinor: int,
    cityCode: string, cityName: string, business: string, ruleVersion: string, updatedAt: int, expiresAt: int)

  datatype Product = Product(externalProductId: string, title: string, updatedAt: int, expiresAt: int)

  datatype Snapshot = Snapshot(item: Item, products: seq<Product>, evidenceRef: string, verifiedAt: int, active: bool)

  datatype Error = Invalid | VerifierFailed | StaleEvidence | NotFound | Storage

  // Stored rows.
  datatype Coupon = Coupon(item: Item, evidenceRef: string, verifiedAt: int, enabled: bool)

  datatype CouponProduct = CouponProduct(title: string, enabled: bool, verifiedAt: int, updatedAt: int, expiresAt: int)

  datatype SyncEvent = SyncEvent(evidenceRef: string, verifiedAt: int, publish: bool)

  // Everything stored about one coupon ID.
  datatype Entry = Entry(coupon: Option<Coupon>, products: map<string, CouponProduct>, events: seq<SyncEvent>)

  const NOTHING := Entry(None, map[], [])

  // Truncate(time.Microsecond)
  function Truncate(t: int): int
  {
    t - t % 1000
  }

  function Truncated(s: Snapshot): Snapshot
  {
    s.(verifiedAt := Truncate(s.verifiedAt),
       item := s.item.(updatedAt := Truncate(s.item.updatedAt), expiresAt := Truncate(s.item.expiresAt)),
       products := seq(|s.products|, i requires 0 <= i < |s.products| =>
         s.products[i].(updatedAt := Truncate(s.products[i].updatedAt), expiresAt := Truncate(s.products[i].expiresAt))))
  }

  predicate KnownMode(mode: string)
  {
    mode in {"IN_SITE_VERIFIED", "PLATFORM_CLAIM", "BUNDLED_OFFER", "PLATFORM_ACTIVITY"}
  }

  predicate HasScheme(s: string)
  {
    exists i | 0 <= i < |s| - 2 :: s[i] == ':' && s[i + 1] == '/' && s[i + 2] == '/'
  }

  // catalog.go:48-52
  predicate ValidContext(city: string, business: string)
  {
    ByteLen(city) <= 32 && ByteLen(business) <= 40 && Trimmed(city) && Trimmed(business)
    && forall i | 0 <= i < |city + business| :: (city + business)[i] !in {'\0', '\r', '\n'}
  }

  predicate ValidIdentity(id: string, s: Snapshot, now: int)
  {
    s.item.id == id && s.item.platform in {"JD", "TB", "MT"} && s.item.platform + ":" <= id
    && ByteLen(id) > ByteLen(s.item.platform) + 1
    && ValidLine(s.evidenceRef, 256) && !HasScheme(s.evidenceRef) && s.verifiedAt != 0 && s.verifiedAt <= now
  }

  predicate ValidItem(i: Item, verifiedAt: int, products: nat)
  {
    KnownMode(i.claimMode) && i.scope in {"PRODUCT", "CATEGORY", "SHOP", "ACTIVITY"} && ValidLine(i.title, 256)
    && ValidLine(i.ruleVersion, 80) && ValidContext(i.cityCode, i.business) && i.discountMinor >= 0 && i.thresholdMinor >= 0
    && i.currency == "CNY" && i.updatedAt != 0 && i.updatedAt <= verifiedAt < i.expiresAt && products <= 500
    && (i.scope == "SHOP" || i.scope == "CATEGORY" ==> ValidLine(i.scopeExternalId, 128) && ValidLine(i.scopeName, 256))
    && (if i.cityCode == "" then i.cityName == "" else ValidLine(i.cityName, 80))
    && (i.scope == "PRODUCT" ==> products > 0)
  }

  predicate ValidProduct(p: Product, verifiedAt: int)
  {
    ValidLine(p.externalProductId, 128) && ValidLine(p.title, 256) && p.updatedAt != 0
      && p.updatedAt <= verifiedAt < p.expiresAt
  }

  predicate ValidProducts(products: seq<Product>, verifiedAt: int)
  {
    (forall i | 0 <= i < |products| :: ValidProduct(products[i], verifiedAt))
    && forall i, j | 0 <= i < j < |products| :: products[i].externalProductId != products[j].externalProductId
  }

  predicate ValidSnapshot(id: string, s: Snapshot, now: int)
  {
    ValidIdentity(id, s, now)
    && (s.active ==> ValidItem(s.item, s.verifiedAt, |s.products|) && ValidProducts(s.products, s.verifiedAt))
  }

  // sync.go:158-167
  method CheckProducts(products: seq<Product>, verifiedAt: int) returns (ok: bool)
    ensures ok <==> ValidProducts(products, verifiedAt)
  {
    hide ValidProduct;
    var seen: set<string> := {};
    for i := 0 to |products|
      invariant forall j | 0 <= j < i :: ValidProduct(products[j], verifiedAt)
      invariant forall x :: x in seen <==> exists j :: 0 <= j < i && products[j].externalProductId == x
      invariant forall j, k | 0 <= j < k < i :: products[j].externalProductId != products[k].externalProductId
    {
      var p := products[i];
      if !ValidProduct(p, verifiedAt) || p.externalProductId in seen {
        return false;
      }
      seen := seen + {p.externalProductId};
    }
    return true;
  }

  // ---- What one valid snapshot does ----

  // Rows for a publication: the last product wins should two share an ID.
  function Shelved(products: seq<Product>, verifiedAt: int): map<string, CouponProduct>
  {
    if products == [] then map[]
    else
      var p := products[|products| - 1];
      Shelved(products[..|products| - 1], verifiedAt)[p.externalProductId :=
        CouponProduct(p.title, true, verifiedAt, p.updatedAt, p.expiresAt)]
  }

  function Disabled(products: map<string, CouponProduct>, verifiedAt: int): map<string, CouponProduct>
  {
    map k | k in products :: products[k].(enabled := false, verifiedAt := verifiedAt)
  }

  predicate Recorded(events: seq<SyncEvent>, evidenceRef: string)
  {
    exists i | 0 <= i < |events| :: events[i].evidenceRef == evidenceRef
  }

  // sync.go:57-131, for a snapshot that passed validation.
  function Apply(e: Entry, s: Snapshot): (Result<(), Error>, Entry)
  {
    if e.coupon.Some? && (e.coupon.value.item.platform != s.item.platform || s.verifiedAt < e.coupon.value.verifiedAt) then
      (Err(StaleEvidence), e)
    else if e.coupon.Some? && s.verifiedAt == e.coupon.value.verifiedAt then
      (if e.coupon.value.evidenceRef == s.evidenceRef && e.coupon.value.enabled == s.active then Ok(())
        else Err(StaleEvidence), e)
    else if !s.active && e.coupon.None? then (Err(NotFound), e)
    else if Recorded(e.events, s.evidenceRef) then (Err(Storage), e)
    else
      var event := SyncEvent(s.evidenceRef, s.verifiedAt, s.active);
      if s.active then
        (Ok(()), Entry(Some(Coupon(s.item, s.evidenceRef, s.verifiedAt, true)), Shelved(s.products, s.verifiedAt),
          e.events + [event]))
      else
        (Ok(()), Entry(Some(e.coupon.value.(enabled := false, verifiedAt := s.verifiedAt, evidenceRef := s.evidenceRef)),
                       Disabled(e.products, s.verifiedAt), e.events + [event]))
  }

  function SyncSpec(e: Entry, id: string, answer: Option<Snapshot>, now: int): (Result<(), Error>, Entry)
  {
    if !ValidLine(id, 128) then (Err(Invalid), e)
    else if answer.None? then (Err(VerifierFailed), e)
    else if !ValidSnapshot(id, Truncated(answer.value), now) then (Err(Invalid), e)
    else Apply(e, Truncated(answer.value))
  }

  // ---- In the form of the source ----

  class Synchronizer {
    var catalog: map<string, Coupon>
    var products: map<string, map<string, CouponProduct>>
    var events: map<string, seq<SyncEvent>>

    function View(id: string): Entry
      reads this
    {
      Entry(if id in catalog then Some(catalog[id]) else None, if id in products then products[id] else map[],
            if id in events then events[id] else [])
    }

    constructor ()
      ensures forall id :: View(id) == NOTHING
    {
      catalog, products, events := map[], map[], map[];
    }

    // sync.go:34-131; `answer` is what the verifier said, None if it failed.
    method Sync(id: string, answer: Option<Snapshot>, now: int) returns (out: Result<(), Error>)
      modifies this
      ensures (out, View(id)) == SyncSpec(old(View(id)), id, answer, now)
      ensures forall other | other != id :: View(other) == old(View(other))
    {
      hide ValidSnapshot, ValidLine;
      if !ValidLine(id, 128) {
        return Err(Invalid);
      }
      if answer.None? {
        return Err(VerifierFailed);
      }
      var s := answer.value;
      s := s.(verifiedAt := Truncate(s.verifiedAt), item := s.item.(updatedAt := Truncate(s.item.updatedAt),
        expiresAt := Truncate(s.item.expiresAt)));
      for i := 0 to |s.products|
        invariant s == Truncated(answer.value).(products := s.products) && |s.products| == |answer.value.products|
        invariant forall j | 0 <= j < i :: s.products[j] == Truncated(answer.value).products[j]
        invariant forall j | i <= j < |s.products| :: s.products[j] == answer.value.products[j]
      {
        var p := s.products[i];
        s := s.(products := s.products[i := p.(updatedAt := Truncate(p.updatedAt), expiresAt := Truncate(p.expiresAt))]);
      }
      assert s.products == Truncated(answer.value).products;
      var valid := Check(id, s, now);
      if !valid {
        return Err(Invalid);
      }
      out := Store(id, s);
    }

    method Check(id: string, s: Snapshot, now: int) returns (ok: bool)
      ensures ok <==> ValidSnapshot(id, s, now)
    {
      hide ValidIdentity, ValidItem;
      if !ValidIdentity(id, s, now) {
        return false;
      }
      if !s.active {
        return true;
      }
      if !ValidItem(s.item, s.verifiedAt, |s.products|) {
        return false;
      }
      ok := CheckProducts(s.products, s.verifiedAt);
    }

    // The transaction.
    method Store(id: string, s: Snapshot) returns (out: Result<(), Error>)
      modifies this
      ensures (out, View(id)) == Apply(old(View(id)), s)
      ensures forall other | other != id :: View(other) == old(View(other))
    {
      var log := if id in events then events[id] else [];
      if id in catalog {
        if catalog[id].item.platform != s.item.platform || s.verifiedAt < catalog[id].verifiedAt {
          return Err(StaleEvidence);
        }
        if s.verifiedAt == catalog[id].verifiedAt {
          if catalog[id].evidenceRef == s.evidenceRef && catalog[id].enabled == s.active {
            return Ok(());
          }
          return Err(StaleEvidence);
        }
      }
      if !s.active && id !in catalog {
        return Err(NotFound);
      }
      // The primary key of coupon_sync_events would undo everything below.
      if Recorded(log, s.evidenceRef) {
        return Err(Storage);
      }
      if !s.active {
        catalog := catalog[id := catalog[id].(enabled := false, verifiedAt := s.verifiedAt, evidenceRef := s.evidenceRef)];
        products := products[id := Disabled(if id in products then products[id] else map[], s.verifiedAt)];
      } else {
        catalog := catalog[id := Coupon(s.item, s.evidenceRef, s.verifiedAt, true)];
        ReplaceProducts(id, s);
      }
      events := events[id := log + [SyncEvent(s.evidenceRef, s.verifiedAt, s.active)]];
      return Ok(());
    }

    // The old products are deleted and the new ones inserted one by one.
    method ReplaceProducts(id: string, s: Snapshot)
      modifies this`products
      ensures products == old(products)[id := Shelved(s.products, s.verifiedAt)]
    {
      products := products[id := map[]];
      for i := 0 to |s.products|
        invariant products == old(products)[id := Shelved(s.products[..i], s.verifiedAt)]
      {
        var p := s.products[i];
        assert s.products[..i + 1][..i] == s.products[..i];
        products := products[id := products[id][p.externalProductId :=
          CouponProduct(p.title, true, s.verifiedAt, p.updatedAt, p.expiresAt)]];
      }
      assert s.products[..|s.products|] == s.products;
    }
  }
}
