// internal/dbmigrate/runner.go: applying numbered migrations in order. A
// version is the number of its six digits, so that comparing versions as texts
// is comparing numbers. The advisory lock makes runs exclude each other; a
// migration and its ledger row commit together.
module Migrations {
  import opened Wrappers

  datatype Migration = Migration(version: nat, name: string, checksum: string)

  type Ledger = map<nat, string>

  datatype Report = Report(applied: seq<string>, already: seq<string>)

  datatype Failure = ChecksumDiffers | MissingFromDirectory | OutOfOrder | ApplyFailed

  // What readMigrations returns: one migration per version, in order.
  predicate Sorted(items: seq<Migration>)
  {
    forall i, j | 0 <= i < j < |items| :: items[i].version < items[j].version
  }

  function LedgerOf(items: seq<Migration>): Ledger
  {
    if items == [] then map[]
    else LedgerOf(items[..|items| - 1])[items[|items| - 1].version := items[|items| - 1].checksum]
  }

  predicate PrefixAt(ledger: Ledger, items: seq<Migration>, n: nat)
  {
    n <= |items| && ledger == LedgerOf(items[..n])
  }

  // The ledger records the first migrations of the directory, and nothing else.
  predicate IsPrefix(ledger: Ledger, items: seq<Migration>)
  {
    exists n | 0 <= n <= |items| :: PrefixAt(ledger, items, n)
  }

  function Names(items: seq<Migration>): seq<string>
  {
    seq(|items|, i requires 0 <= i < |items| => items[i].name)
  }

  lemma {:induction false} LedgerOfIs(items: seq<Migration>)
    requires Sorted(items)
    ensures forall v :: v in LedgerOf(items) <==> exists i :: 0 <= i < |items| && items[i].version == v
    ensures forall i | 0 <= i < |items| :: LedgerOf(items)[items[i].version] == items[i].checksum
  {
    if items != [] {
      var init := items[..|items| - 1];
      LedgerOfIs(init);
      assert forall i | 0 <= i < |init| :: init[i] == items[i];
    }
  }

  // A ledger that agrees with the directory wherever it speaks and contains
  // exactly the first n versions is the prefix of length n.
  lemma AgreesIsPrefix(ledger: Ledger, items: seq<Migration>, n: nat)
    requires Sorted(items) && n <= |items|
    requires forall i | 0 <= i < |items| :: items[i].version in ledger ==> i < n && ledger[items[i].version] == items[i].checksum
    requires forall i | 0 <= i < n :: items[i].version in ledger
    requires forall v | v in ledger :: exists i :: 0 <= i < |items| && items[i].version == v
    ensures PrefixAt(ledger, items, n)
  {
    var init := items[..n];
    LedgerOfIs(init);
    assert forall i | 0 <= i < n :: init[i] == items[i];
    forall v | v in ledger
      ensures v in LedgerOf(init) && LedgerOf(init)[v] == ledger[v]
    {
      var i :| 0 <= i < |items| && items[i].version == v;
      assert init[i].version == v;
    }
    assert ledger.Keys == LedgerOf(init).Keys;
  }

  lemma PrefixHas(ledger: Ledger, items: seq<Migration>, n: nat)
    requires Sorted(items) && PrefixAt(ledger, items, n)
    ensures forall i | 0 <= i < |items| :: items[i].version in ledger <==> i < n
    ensures forall i | 0 <= i < n :: ledger[items[i].version] == items[i].checksum
    ensures forall v | v in ledger :: exists i :: 0 <= i < n && items[i].version == v
  {
    var init := items[..n];
    LedgerOfIs(init);
    assert forall i | 0 <= i < n :: init[i] == items[i];
    forall i | 0 <= i < |items| && items[i].version in ledger
      ensures i < n
    {
      var k :| 0 <= k < |init| && init[k].version == items[i].version;
      assert items[k].version == items[i].version;
    }
  }

  lemma NextPrefix(ledger: Ledger, items: seq<Migration>, n: nat)
    requires Sorted(items) && PrefixAt(ledger, items, n) && n < |items|
    ensures PrefixAt(ledger[items[n].version := items[n].checksum], items, n + 1)
  {
    assert items[..n + 1][..n] == items[..n];
  }

  class Database {
    // None until the ledger table exists.
    var ledger: Option<Ledger>

    function Recorded(): Ledger
      reads this
    {
      if ledger.Some? then ledger.value else map[]
    }

    constructor ()
      ensures ledger == None
    {
      ledger := None;
    }

    // runner.go:107-118: does the ledger contradict the directory?
    method Compare(items: seq<Migration>) returns (bad: Option<Failure>)
      requires Sorted(items)
      ensures bad.None? <==> (forall i | 0 <= i < |items|
              && items[i].version in Recorded() :: Recorded()[items[i].version] == items[i].checksum)
                             && forall v | v in Recorded() :: exists i :: 0 <= i < |items| && items[i].version == v
    {
      var applied := Recorded();
      var known: set<nat> := {};
      for i := 0 to |items|
        invariant forall v :: v in known <==> exists j :: 0 <= j < i && items[j].version == v
        invariant forall j | 0 <= j < i && items[j].version in applied :: applied[items[j].version] == items[j].checksum
      {
        known := known + {items[i].version};
        if items[i].version in applied && applied[items[i].version] != items[i].checksum {
          return Some(ChecksumDiffers);
        }
      }
      var rest := applied.Keys;
      while rest != {}
        invariant rest <= applied.Keys
        invariant forall v | v in applied && v !in rest :: v in known
      {
        var version :| version in rest;
        if version !in known {
          return Some(MissingFromDirectory);
        }
        rest := rest - {version};
      }
      return None;
    }

    // runner.go:119-124; 0 stands for no version.
    method Latest() returns (latest: nat)
      ensures forall v | v in Recorded() :: v <= latest
      ensures latest > 0 ==> latest in Recorded()
    {
      latest := 0;
      var rest := Recorded().Keys;
      while rest != {}
        invariant rest <= Recorded().Keys
        invariant forall v | v in Recorded() && v !in rest :: v <= latest
        invariant latest > 0 ==> latest in Recorded()
      {
        var version :| version in rest;
        if version > latest {
          latest := version;
        }
        rest := rest - {version};
      }
    }

    // runner.go:65-152. `fails` says which migrations cannot be applied, or
    // where the process stops; nothing of such a migration remains.
    method Run(items: seq<Migration>, fails: nat -> bool) returns (out: Result<Report, (Failure, Report)>)
      requires Sorted(items)
      modifies this
      ensures ledger.Some?
      ensures Recorded() != old(Recorded()) ==> IsPrefix(old(Recorded()), items)
      ensures IsPrefix(old(Recorded()), items) ==> IsPrefix(Recorded(), items) && old(Recorded()).Keys <= Recorded().Keys
      ensures out.Ok? ==>
                PrefixAt(Recorded(), items, |items|)
                && exists n | 0 <= n <= |items| ::
                     PrefixAt(old(Recorded()), items, n) && out.value == Report(Names(items[n..]), Names(items[..n]))
      ensures IsPrefix(old(Recorded()), items) && (forall i | 0 <= i < |items| :: !fails(items[i].version)) ==> out.Ok?
      ensures PrefixAt(old(Recorded()), items, |items|) ==> out == Ok(Report([], Names(items))) && Recorded() == old(Recorded())
    {
      if ledger.None? {
        ledger := Some(map[]);
      }
      ghost var before := Recorded();
      assert before == old(Recorded());
      var bad := Compare(items);
      if bad.Some? {
        PrefixAgrees(before, items);
        assert PrefixAt(before, items, |items|) ==> IsPrefix(before, items);
        return Err((bad.value, Report([], [])));
      }
      out := Apply(items, fails);
    }

    // runner.go:119-151, after the comparison.
    method Apply(items: seq<Migration>, fails: nat -> bool) returns (out: Result<Report, (Failure, Report)>)
      requires Sorted(items) && ledger.Some?
      requires forall i | 0 <= i < |items|
               && items[i].version in Recorded() :: Recorded()[items[i].version] == items[i].checksum
      requires forall v | v in Recorded() :: exists i :: 0 <= i < |items| && items[i].version == v
      modifies this
      ensures ledger.Some?
      ensures Recorded() != old(Recorded()) ==> IsPrefix(old(Recorded()), items)
      ensures IsPrefix(old(Recorded()), items) ==> IsPrefix(Recorded(), items) && old(Recorded()).Keys <= Recorded().Keys
      ensures out.Ok? ==>
                PrefixAt(Recorded(), items, |items|)
                && exists n | 0 <= n <= |items| ::
                     PrefixAt(old(Recorded()), items, n) && out.value == Report(Names(items[n..]), Names(items[..n]))
      ensures IsPrefix(old(Recorded()), items) && (forall i | 0 <= i < |items| :: !fails(items[i].version)) ==> out.Ok?
      ensures PrefixAt(old(Recorded()), items, |items|) ==> out == Ok(Report([], Names(items))) && Recorded() == old(Recorded())
    {
      hide PrefixAt, LedgerOf, Names, Sorted;
      var latest := Latest();
      ghost var was := Recorded();
      var applied := ledger.value;
      var report := Report([], []);
      var i := 0;
      // First the migrations that are there already.
      ghost var n := 0;
      NoNames(items);
      if PrefixAt(was, items, |items|) {
        PrefixHas(was, items, |items|);
      }
      while i < |items|
        invariant 0 <= n <= i <= |items| && ledger.Some? && was.Keys <= Recorded().Keys
        invariant forall j | 0 <= j < n :: items[j].version in was
        invariant n == i ==> Recorded() == was
        invariant n < i ==> PrefixAt(was, items, n) && PrefixAt(Recorded(), items, i) && items[n].version !in was
        invariant report == Report(Names(items[n..i]), Names(items[..n]))
      {
        var item := items[i];
        if item.version in applied {
          if n < i {
            PrefixHas(was, items, n);
          }
          assert n == i;
          SkipName(items, n);
          report := report.(already := report.already + [item.name]);
          n := n + 1;
          i := i + 1;
          continue;
        }
        if item.version < latest {
          StaysWhole(was, items, i, latest);
          return Err((OutOfOrder, report));
        }
        if n == i {
          FirstMissing(was, items, n, latest);
        }
        if fails(item.version) {
          return Err((ApplyFailed, report));
        }
        NextPrefix(Recorded(), items, i);
        ledger := Some(ledger.value[item.version := item.checksum]);
        AddName(items, n, i);
        report := report.(applied := report.applied + [item.name]);
        i := i + 1;
      }
      if n == i {
        AgreesIsPrefix(was, items, n);
      }
      WholeNames(items, n);
      return Ok(report);
    }

    // runner.go:156-191
    method Verify(items: seq<Migration>) returns (ok: bool)
      requires Sorted(items)
      ensures ok <==> ledger.Some? && PrefixAt(Recorded(), items, |items|)
    {
      if ledger.None? {
        return false;
      }
      var known := ledger.value;
      if PrefixAt(Recorded(), items, |items|) {
        PrefixHas(Recorded(), items, |items|);
      }
      for i := 0 to |items|
        invariant forall j | 0 <= j < i :: items[j].version in ledger.value && ledger.value[items[j].version] == items[j].checksum
        invariant forall v :: v in known <==> v in ledger.value && forall j | 0 <= j < i :: items[j].version != v
        invariant forall v | v in known :: known[v] == ledger.value[v]
      {
        if items[i].version !in known {
          return false;
        }
        if known[items[i].version] != items[i].checksum {
          return false;
        }
        known := known - {items[i].version};
      }
      if known != map[] {
        EmptyWithoutKeys(known);
        return false;
      }
      AgreesIsPrefix(ledger.value, items, |items|);
      return true;
    }
  }

  lemma EmptyWithoutKeys(ledger: Ledger)
    ensures (forall v :: v !in ledger) ==> ledger == map[]
  {
  }

  lemma PrefixAgrees(ledger: Ledger, items: seq<Migration>)
    requires Sorted(items)
    ensures IsPrefix(ledger, items) ==>
              (forall i | 0 <= i < |items| && items[i].version in ledger :: ledger[items[i].version] == items[i].checksum)
              && forall v | v in ledger :: exists i :: 0 <= i < |items| && items[i].version == v
  {
    if IsPrefix(ledger, items) {
      var n :| 0 <= n <= |items| && PrefixAt(ledger, items, n);
      PrefixHas(ledger, items, n);
    }
  }

  lemma NoNames(items: seq<Migration>)
    ensures Names(items[0..0]) == [] == Names(items[..0])
  {
  }

  lemma WholeNames(items: seq<Migration>, n: nat)
    requires n <= |items|
    ensures items[n..|items|] == items[n..] && items[..|items|] == items && (n == |items| ==> Names(items[n..]) == [])
  {
  }

  lemma SkipName(items: seq<Migration>, n: nat)
    requires n < |items|
    ensures Names(items[..n + 1]) == Names(items[..n]) + [items[n].name] && Names(items[n + 1..n + 1]) == Names(items[n..n])
  {
  }

  lemma AddName(items: seq<Migration>, n: nat, i: nat)
    requires n <= i < |items|
    ensures Names(items[n..i + 1]) == Names(items[n..i]) + [items[i].name]
  {
  }

  // The first migration that is missing is later than all recorded ones, so
  // the ledger is a prefix.
  lemma FirstMissing(ledger: Ledger, items: seq<Migration>, n: nat, latest: nat)
    requires Sorted(items) && n < |items| && items[n].version !in ledger && latest <= items[n].version
    requires forall i | 0 <= i < n :: items[i].version in ledger
    requires forall i | 0 <= i < |items| && items[i].version in ledger :: ledger[items[i].version] == items[i].checksum
    requires forall v | v in ledger :: v <= latest && exists i :: 0 <= i < |items| && items[i].version == v
    ensures PrefixAt(ledger, items, n)
  {
    AgreesIsPrefix(ledger, items, n);
  }

  // A missing migration below a recorded one means the ledger is no prefix.
  lemma StaysWhole(ledger: Ledger, items: seq<Migration>, i: nat, latest: nat)
    requires Sorted(items) && i < |items| && latest in ledger && items[i].version < latest && items[i].version !in ledger
    ensures !IsPrefix(ledger, items)
  {
    if IsPrefix(ledger, items) {
      var k :| 0 <= k <= |items| && PrefixAt(ledger, items, k);
      PrefixHas(ledger, items, k);
    }
  }
}
