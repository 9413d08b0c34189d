/** Fetchers per account of an AWS organization (resources/fetching/preset/aws_org_preset.go), kept
    across refreshes in a cache, and the registry they end up in under flattened names
    (flavors/benchmark/aws_org.go, resources/fetching/registry/registry.go). */
module OrgFetchers {
  import opened Sequences
  import opened CloudIdentity
  import FanIn

  datatype Fetcher = Fetcher(name: string)

  /** The fetchers of one account. `serial` is the number of the factory call that made them, so equal
      values are the identical fetchers. `cell` is the variable whose address the factory was given and
      the fetchers keep: the loop variable of the refresh number `cell`. */
  datatype FetcherSet = FetcherSet(serial: nat, cell: nat, entries: map<string, Fetcher>)

  /** The factory: what its n-th call makes for an account. It never returns nil. */
  type Factory = (nat, string) -> map<string, Fetcher>

  /** The cache, the accounts the factory was called for, in order, and the loop variables of the
      refreshes: one for all iterations of a refresh, and still there when its loop has ended. */
  datatype Org = Org(cache: map<string, FetcherSet>, built: seq<string>, cells: seq<string>)

  // --- specification of a refresh ---

  /** The loop of a refresh begins with a new variable. */
  function Opened(o: Org): (r: Org)
    ensures r.cells != []
  {
    o.(cells := o.cells + [""])
  }

  /** One iteration: the account is assigned to the loop variable, and if it is not cached its fetchers
      are made with the address of that variable. */
  function Visit(factory: Factory, o: Org, account: string): (r: Org)
    requires o.cells != []
    ensures |r.cells| == |o.cells|
  {
    var at := |o.cells| - 1;
    var next := o.(cells := o.cells[at := account]);
    if account in o.cache then next
    else
      var made := FetcherSet(|o.built|, at, factory(|o.built|, account));
      next.(cache := o.cache[account := made], built := o.built + [account])
  }

  function VisitAll(factory: Factory, o: Org, accounts: seq<string>): (r: Org)
    requires o.cells != []
    ensures |r.cells| == |o.cells|
  {
    if accounts == [] then o
    else Visit(factory, VisitAll(factory, o, accounts[..|accounts| - 1]), accounts[|accounts| - 1])
  }

  function Only(cache: map<string, FetcherSet>, accounts: seq<string>): (r: map<string, FetcherSet>) {
    map account | account in cache && account in accounts :: cache[account]
  }

  function Refreshed(factory: Factory, o: Org, accounts: seq<string>): (r: Org) {
    var v := VisitAll(factory, Opened(o), accounts);
    v.(cache := Only(v.cache, accounts))
  }

  /** Refreshes one after the other, starting with nothing. */
  function RefreshedAll(factory: Factory, lists: seq<seq<string>>): (r: Org) {
    if lists == [] then Org(map[], [], [])
    else Refreshed(factory, RefreshedAll(factory, lists[..|lists| - 1]), lists[|lists| - 1])
  }

  lemma {:induction false} VisitAllKeys(factory: Factory, o: Org, accounts: seq<string>)
    requires o.cells != []
    ensures VisitAll(factory, o, accounts).cache.Keys == o.cache.Keys + (set a | a in accounts)
  {
    if accounts != [] {
      var init, last := accounts[..|accounts| - 1], accounts[|accounts| - 1];
      VisitAllKeys(factory, o, init);
      assert accounts == init + [last];
      assert (set a | a in accounts) == (set a | a in init) + {last};
    }
  }

  /** Visiting one more account: what the loop of `Refresh` does to cache and result. */
  lemma VisitStep(factory: Factory, o: Org, accounts: seq<string>, account: string)
    requires o.cells != []
    ensures var v, w := VisitAll(factory, o, accounts), VisitAll(factory, o, accounts + [account]);
            && w == Visit(factory, v, account)
            && account in w.cache
            && Only(w.cache, accounts + [account]) == Only(v.cache, accounts)[account := w.cache[account]]
  {
    hide VisitAll;
    VisitAllSnoc(factory, o, accounts, account);
    VisitAllKeys(factory, o, accounts);
  }

  lemma StartOfVisits(factory: Factory, o: Org)
    requires o.cells != []
    ensures VisitAll(factory, o, []) == o && Only(o.cache, []) == map[]
  {
  }

  lemma OnlyMeans(cache: map<string, FetcherSet>, accounts: seq<string>, kept: map<string, FetcherSet>)
    requires kept.Keys <= cache.Keys && forall a :: a in kept ==> kept[a] == cache[a]
    requires forall a :: a in cache ==> (a in kept <==> a in accounts)
    ensures kept == Only(cache, accounts)
  {
  }

  lemma VisitAllSnoc(factory: Factory, o: Org, accounts: seq<string>, account: string)
    requires o.cells != []
    ensures VisitAll(factory, o, accounts + [account]) == Visit(factory, VisitAll(factory, o, accounts), account)
  {
    assert (accounts + [account])[..|accounts|] == accounts;
  }

  // --- the refresh itself ---

  class OrgCache {
    const factory: Factory
    var cache: map<string, FetcherSet>
    var built: seq<string>
    var cells: seq<string>

    constructor (factory: Factory)
      ensures this.factory == factory && Value() == Org(map[], [], [])
    {
      this.factory := factory;
      cache, built, cells := map[], [], [];
    }

    function Value(): (o: Org)
      reads this
    {
      Org(cache, built, cells)
    }

    /** Lists the fetchers of all accounts, making those of accounts not in the cache and dropping
        from the cache those of accounts no longer listed. */
    method Refresh(accounts: seq<string>) returns (m: map<string, FetcherSet>)
      modifies this
      ensures Value() == Refreshed(factory, old(Value()), accounts)
      ensures m == cache
    {
      hide VisitAll, Only;
      var at := |cells|;
      cells := cells + [""];
      ghost var start := Value();
      assert start == Opened(old(Value()));
      StartOfVisits(factory, start);
      var seen: map<string, bool> := map key | key in cache :: false;
      m := map[];
      var i := 0;
      while i < |accounts|
        invariant 0 <= i <= |accounts|
        invariant Value() == VisitAll(factory, start, accounts[..i])
        invariant m == Only(cache, accounts[..i])
        invariant start.cache.Keys <= seen.Keys
        invariant forall key :: key in seen ==> (seen[key] <==> key in accounts[..i] || key !in start.cache)
      {
        cells := cells[at := accounts[i]];
        var account := accounts[i];
        assert accounts[..i + 1] == accounts[..i] + [account];
        VisitStep(factory, start, accounts[..i], account);
        VisitAllKeys(factory, start, accounts[..i]);
        if account in cache {
          m := m[account := cache[account]];
          seen := seen[account := true];
        } else {
          var f := FetcherSet(|built|, at, factory(|built|, account));
          m := m[account := f];
          cache, built := cache[account := f], built + [account];
        }
        i := i + 1;
      }
      assert accounts[..i] == accounts;
      VisitAllKeys(factory, start, accounts);
      DropUnseen(seen);
      OnlyMeans(VisitAll(factory, start, accounts).cache, accounts, cache);
    }

    /** The last loop: entries whose key was not seen are deleted, in any order. */
    method DropUnseen(seen: map<string, bool>)
      modifies this
      ensures built == old(built) && cells == old(cells)
      ensures cache == map key | key in old(cache) && (key in seen ==> seen[key]) :: old(cache)[key]
    {
      var left := seen.Keys;
      while left != {}
        invariant left <= seen.Keys && built == old(built) && cells == old(cells)
        invariant cache == map key | key in old(cache) && (key in seen && key !in left ==> seen[key]) :: old(cache)[key]
        decreases left
      {
        var key :| key in left;
        if !seen[key] {
          cache := cache - {key};
        }
        left := left - {key};
      }
    }
  }

  // --- what a refresh keeps ---

  /** Every cached set was made by the factory, for its account. */
  ghost predicate WellMade(factory: Factory, o: Org) {
    forall account :: account in o.cache ==>
      var set_ := o.cache[account];
      set_.serial < |o.built| && o.built[set_.serial] == account && set_.entries == factory(set_.serial, account)
  }

  function CountIn(xs: seq<string>, x: string): (n: nat) {
    if xs == [] then 0 else CountIn(xs[..|xs| - 1], x) + (if xs[|xs| - 1] == x then 1 else 0)
  }

  /** How often an account is built. */
  lemma {:induction false} CountInMeans(xs: seq<string>, x: string)
    ensures CountIn(xs, x) == multiset(xs)[x]
  {
    if xs != [] {
      CountInMeans(xs[..|xs| - 1], x);
      assert xs == xs[..|xs| - 1] + [xs[|xs| - 1]];
    }
  }

  lemma CountInSnoc(xs: seq<string>, x: string, y: string)
    ensures CountIn(xs + [y], x) == CountIn(xs, x) + (if y == x then 1 else 0)
  {
    assert (xs + [y])[..|xs|] == xs;
  }

  /** One visit in front of a list of visits. */
  lemma VisitKeeps(factory: Factory, o: Org, account: string)
    requires WellMade(factory, o) && o.cells != []
    ensures var v := Visit(factory, o, account);
            && WellMade(factory, v)
            && (forall a :: a in o.cache ==> a in v.cache && v.cache[a] == o.cache[a])
            && (forall a :: CountIn(v.built, a)
                         == CountIn(o.built, a) + (if a == account && a !in o.cache then 1 else 0))
  {
    hide CountIn;
    forall a {
      CountInSnoc(o.built, a, account);
    }
  }

  lemma {:induction false} VisitAllKeeps(factory: Factory, o: Org, accounts: seq<string>)
    requires WellMade(factory, o) && o.cells != []
    ensures var v := VisitAll(factory, o, accounts);
            && WellMade(factory, v)
            && v.cache.Keys == o.cache.Keys + (set a | a in accounts)
            && (forall a :: a in o.cache ==> v.cache[a] == o.cache[a])
            && (forall a :: CountIn(v.built, a)
                         == CountIn(o.built, a) + (if a in accounts && a !in o.cache then 1 else 0))
  {
    hide WellMade, CountIn, Visit;
    VisitAllKeys(factory, o, accounts);
    if accounts != [] {
      var init, last := accounts[..|accounts| - 1], accounts[|accounts| - 1];
      assert accounts == init + [last];
      VisitAllKeys(factory, o, init);
      VisitAllKeeps(factory, o, init);
      VisitKeeps(factory, VisitAll(factory, o, init), last);
    }
  }

  /** One refresh: the cache holds exactly the listed accounts, sets already there are the identical
      ones, and the factory is called once per newly listed account, however often it is listed. */
  lemma RefreshKeeps(factory: Factory, o: Org, accounts: seq<string>)
    requires WellMade(factory, o)
    ensures var r := Refreshed(factory, o, accounts);
            && WellMade(factory, r)
            && r.cache.Keys == (set a | a in accounts)
            && (forall a :: a in o.cache && a in accounts ==> r.cache[a] == o.cache[a])
            && (forall a :: CountIn(r.built, a)
                         == CountIn(o.built, a) + (if a in accounts && a !in o.cache then 1 else 0))
  {
    hide VisitAll, CountIn;
    assert WellMade(factory, Opened(o));
    VisitAllKeeps(factory, Opened(o), accounts);
  }

  /** In how many refreshes the account is listed without having been listed in the one before. */
  function Appearances(lists: seq<seq<string>>, account: string): (n: nat) {
    if lists == [] then 0
    else
      var n := |lists| - 1;
      Appearances(lists[..n], account)
      + (if account in lists[n] && (n == 0 || account !in lists[n - 1]) then 1 else 0)
  }

  /** Any sequence of refreshes: the cache afterwards holds exactly the accounts of the last list, and
      the factory was called for an account exactly once per appearance. */
  lemma {:induction false} RefreshSequence(factory: Factory, lists: seq<seq<string>>)
    ensures var o := RefreshedAll(factory, lists);
            && WellMade(factory, o)
            && (forall a :: a in o.cache <==> lists != [] && a in lists[|lists| - 1])
            && forall a :: CountIn(o.built, a) == Appearances(lists, a)
  {
    if lists != [] {
      var n := |lists| - 1;
      RefreshSequence(factory, lists[..n]);
      RefreshKeeps(factory, RefreshedAll(factory, lists[..n]), lists[n]);
    }
  }

  /** An account listed in two consecutive refreshes keeps the identical fetchers. */
  lemma IdenticalFetchers(factory: Factory, lists: seq<seq<string>>, accounts: seq<string>, account: string)
    requires lists != [] && account in lists[|lists| - 1] && account in accounts
    ensures account in RefreshedAll(factory, lists).cache && account in RefreshedAll(factory, lists + [accounts]).cache
    ensures RefreshedAll(factory, lists + [accounts]).cache[account] == RefreshedAll(factory, lists).cache[account]
  {
    RefreshSequence(factory, lists);
    RefreshKeeps(factory, RefreshedAll(factory, lists), accounts);
    assert (lists + [accounts])[..|lists|] == lists;
  }

  // --- the identity the fetchers see ---

  /** The refresh in which the account's present fetchers were made: since then it has always been
      listed. */
  function MadeAt(lists: seq<seq<string>>, account: string): (at: nat)
    requires lists != [] && account in lists[|lists| - 1]
    ensures at < |lists| && forall i :: at <= i < |lists| ==> account in lists[i]
    ensures at > 0 ==> account !in lists[at - 1]
  {
    var n := |lists| - 1;
    if n == 0 || account !in lists[n - 1] then n else MadeAt(lists[..n], account)
  }

  function LastOf(accounts: seq<string>): (account: string)
    requires accounts != []
  {
    accounts[|accounts| - 1]
  }

  /** The account that a cached account's fetchers find when they follow the address they were given. */
  function SeenBy(o: Org, account: string): (seen: string)
    requires account in o.cache && o.cache[account].cell < |o.cells|
  {
    o.cells[o.cache[account].cell]
  }

  lemma VisitCells(factory: Factory, o: Org, account: string)
    requires o.cells != []
    ensures var v, at := Visit(factory, o, account), |o.cells| - 1;
            && v.cells == o.cells[at := account]
            && v.cache.Keys == o.cache.Keys + {account}
            && forall a :: a in v.cache ==> v.cache[a].cell == (if a in o.cache then o.cache[a].cell else at)
  {
  }

  lemma {:induction false} VisitAllCells(factory: Factory, o: Org, accounts: seq<string>)
    requires o.cells != []
    ensures var v, at := VisitAll(factory, o, accounts), |o.cells| - 1;
            && v.cells == (if accounts == [] then o.cells else o.cells[at := LastOf(accounts)])
            && o.cache.Keys <= v.cache.Keys
            && forall a :: a in v.cache ==> v.cache[a].cell == (if a in o.cache then o.cache[a].cell else at)
  {
    hide VisitAll, Visit;
    if accounts == [] {
      StartOfVisits(factory, o);
    } else {
      var init, last := accounts[..|accounts| - 1], LastOf(accounts);
      VisitAllCells(factory, o, init);
      VisitAllSnoc(factory, o, init, last);
      assert accounts == init + [last];
      VisitCells(factory, VisitAll(factory, o, init), last);
    }
  }

  /** After a refresh its loop variable holds the last listed account, the earlier variables are as they
      were, and the sets made in it point to it. */
  lemma RefreshCells(factory: Factory, o: Org, accounts: seq<string>)
    ensures var r := Refreshed(factory, o, accounts);
            && |r.cells| == |o.cells| + 1 && r.cells[..|o.cells|] == o.cells
            && (accounts != [] ==> r.cells[|o.cells|] == LastOf(accounts))
            && forall a :: a in r.cache ==> r.cache[a].cell == if a in o.cache then o.cache[a].cell else |o.cells|
  {
    hide VisitAll;
    VisitAllCells(factory, Opened(o), accounts);
  }

  ghost predicate CellsInv(lists: seq<seq<string>>, o: Org) {
    && |o.cells| == |lists|
    && (forall i :: 0 <= i < |lists| && lists[i] != [] ==> o.cells[i] == LastOf(lists[i]))
    && (forall a :: a in o.cache ==>
          lists != [] && a in lists[|lists| - 1] && o.cache[a].cell == MadeAt(lists, a))
  }

  lemma NoCells()
    ensures CellsInv([], Org(map[], [], []))
  {
  }

  lemma CellsStep(factory: Factory, lists: seq<seq<string>>, accounts: seq<string>, o: Org)
    requires lists != [] && CellsInv(lists[..|lists| - 1], o) && accounts == lists[|lists| - 1]
    requires forall a :: a in o.cache <==> |lists| > 1 && a in lists[|lists| - 2]
    requires forall a :: a in Refreshed(factory, o, accounts).cache <==> a in accounts
    ensures CellsInv(lists, Refreshed(factory, o, accounts))
  {
    hide Refreshed;
    var n := |lists| - 1;
    var r := Refreshed(factory, o, accounts);
    RefreshCells(factory, o, accounts);
    forall i | 0 <= i < n && lists[i] != [] ensures r.cells[i] == LastOf(lists[i]) {
      assert r.cells[i] == r.cells[..n][i] && lists[..n][i] == lists[i];
    }
  }

  lemma {:induction false} CellsOfRefreshes(factory: Factory, lists: seq<seq<string>>)
    ensures CellsInv(lists, RefreshedAll(factory, lists))
  {
    hide WellMade, CountIn, Appearances, Refreshed, CellsInv;
    if lists == [] {
      NoCells();
    } else {
      var n := |lists| - 1;
      CellsOfRefreshes(factory, lists[..n]);
      RefreshSequence(factory, lists);
      RefreshSequence(factory, lists[..n]);
      CellsStep(factory, lists, lists[n], RefreshedAll(factory, lists[..n]));
    }
  }

  /** After any sequence of refreshes: all fetchers of an account find the last account of the list in
      which they were made, whichever account that is. */
  lemma SharedIdentity(factory: Factory, lists: seq<seq<string>>, account: string)
    requires lists != [] && account in lists[|lists| - 1]
    ensures var o := RefreshedAll(factory, lists);
            && account in o.cache && o.cache[account].cell < |o.cells|
            && SeenBy(o, account) == LastOf(lists[MadeAt(lists, account)])
  {
    hide RefreshedAll;
    CellsOfRefreshes(factory, lists);
    RefreshSequence(factory, lists);
  }

  /** The trail resource of an account's monitoring fetcher, whose id is built from what it finds. */
  function Trail(o: Org, account: string): (r: FanIn.Resource)
    requires account in o.cache && o.cache[account].cell < |o.cells|
  {
    var id := "cloudtrail-" + SeenBy(o, account);
    FanIn.Resource(Some(FanIn.Metadata(id, "", "", "", "")), "")
  }

  /** The wrapper puts the account right, but not the id: that is the account's own exactly if the
      account was the last of the list in which its fetchers were made. */
  lemma TrailIdentity(factory: Factory, lists: seq<seq<string>>, identity: Identity)
    requires lists != [] && identity.account in lists[|lists| - 1]
    ensures var o := RefreshedAll(factory, lists);
            && identity.account in o.cache && o.cache[identity.account].cell < |o.cells|
            && var metadata := FanIn.Wrapped(Trail(o, identity.account), identity).metadata.value;
            && metadata.accountId == identity.account
            && (metadata.id == "cloudtrail-" + identity.account <==>
                  identity.account == LastOf(lists[MadeAt(lists, identity.account)]))
  {
    hide RefreshedAll, MadeAt;
    SharedIdentity(factory, lists, identity.account);
    var seen := SeenBy(RefreshedAll(factory, lists), identity.account);
    assert ("cloudtrail-" + seen)[11..] == seen;
    assert ("cloudtrail-" + identity.account)[11..] == identity.account;
  }

  /** For instance, after a first listing of a and b, the trail reported for a has the id of b. */
  lemma TrailOfAnother(factory: Factory, a: string, b: string)
    ensures var o := RefreshedAll(factory, [[a, b]]);
            && a in o.cache && o.cache[a].cell < |o.cells|
            && Trail(o, a).metadata.value.id == "cloudtrail-" + b
  {
    hide RefreshedAll;
    SharedIdentity(factory, [[a, b]], a);
  }

  // --- flattened names ---

  function FlatName(account: string, key: string): (r: string) { account + "-" + key }

  predicate NoDash(s: string) { '-' !in s }

  /** One account id continued by a dash starts another one. */
  predicate DashPrefix(a: string, b: string) { a + "-" <= b }

  predicate Separate(accounts: set<string>) {
    forall a, b :: a in accounts && b in accounts ==> !DashPrefix(a, b)
  }

  /** Names of different account and key never collide, whatever the keys. */
  ghost predicate NoCollision(accounts: set<string>) {
    forall a, k, b, l :: a in accounts && b in accounts && FlatName(a, k) == FlatName(b, l) ==> a == b && k == l
  }

  lemma ShorterPrefix(name: string, a: string, b: string)
    requires b <= name && a + "-" <= name && !DashPrefix(a, b)
    ensures |b| <= |a|
  {
    assert a + "-" == name[..|a + "-"|] && b == name[..|b|];
  }

  lemma FlatNamesAreUnique(a: string, k: string, b: string, l: string)
    requires !DashPrefix(a, b) && !DashPrefix(b, a) && FlatName(a, k) == FlatName(b, l)
    ensures a == b && k == l
  {
    var name := FlatName(a, k);
    assert a == name[..|a|] && b == name[..|b|] && a + "-" == name[..|a| + 1] && b + "-" == name[..|b| + 1];
    ShorterPrefix(name, a, b);
    ShorterPrefix(name, b, a);
    assert k == name[|a| + 1..] && l == name[|b| + 1..];
  }

  /** One account id starting another, up to a dash, is enough for a collision. */
  lemma PrefixCollides(a: string, b: string) returns (k: string, l: string)
    requires DashPrefix(a, b)
    ensures a != b && FlatName(a, k) == FlatName(b, l)
  {
    l := "key";
    k := b[|a| + 1..] + "-" + l;
    assert b == a + "-" + b[|a| + 1..];
    assert a + "-" + (b[|a| + 1..] + "-" + l) == (a + "-" + b[|a| + 1..]) + "-" + l;
  }

  /** The flattened names of a set of accounts never collide exactly if no account id is another one
      up to a dash. */
  lemma CollisionFree(accounts: set<string>)
    ensures NoCollision(accounts) <==> Separate(accounts)
  {
    if Separate(accounts) {
      forall a, k, b, l | a in accounts && b in accounts && FlatName(a, k) == FlatName(b, l)
        ensures a == b && k == l
      {
        FlatNamesAreUnique(a, k, b, l);
      }
    } else {
      var a, b :| a in accounts && b in accounts && DashPrefix(a, b);
      var k, l := PrefixCollides(a, b);
    }
  }

  /** In particular they never collide if account ids contain no dash, as those of AWS. */
  lemma NoDashIsSeparate(accounts: set<string>)
    requires forall a :: a in accounts ==> NoDash(a)
    ensures Separate(accounts) && NoCollision(accounts)
  {
    forall a, b | a in accounts && b in accounts ensures !DashPrefix(a, b) {
      assert NoDash(b);
      assert (a + "-")[|a|] == '-';
    }
    CollisionFree(accounts);
  }

  /** The registry entry for a name comes from some account's fetcher of that name. */
  ghost predicate Source(m: map<string, FetcherSet>, name: string, f: Fetcher) {
    exists a, k :: a in m && k in m[a].entries && name == FlatName(a, k) && f == m[a].entries[k]
  }

  ghost predicate FlatOf(m: map<string, FetcherSet>, accounts: set<string>, flat: map<string, Fetcher>) {
    && (forall name :: name in flat ==> Source(m, name, flat[name]))
    && (forall a, k :: a in m && a in accounts && k in m[a].entries ==> FlatName(a, k) in flat)
  }

  /** Every account's fetcher is found under its name. */
  ghost predicate Retrievable(m: map<string, FetcherSet>, flat: map<string, Fetcher>) {
    forall a, k :: a in m && k in m[a].entries ==>
      FlatName(a, k) in flat && flat[FlatName(a, k)] == m[a].entries[k]
  }

  /** With separate accounts, the entries of the registry are where they belong. */
  lemma SeparateNames(m: map<string, FetcherSet>, flat: map<string, Fetcher>)
    requires FlatOf(m, m.Keys, flat) && Separate(m.Keys)
    ensures Retrievable(m, flat)
  {
    forall a, k | a in m && k in m[a].entries ensures flat[FlatName(a, k)] == m[a].entries[k] {
      assert Source(m, FlatName(a, k), flat[FlatName(a, k)]);
      var b, l :| b in m && l in m[b].entries && FlatName(a, k) == FlatName(b, l)
        && flat[FlatName(a, k)] == m[b].entries[l];
      FlatNamesAreUnique(a, k, b, l);
    }
  }

  /** Two nested loops over maps, in any order. */
  method Flatten(m: map<string, FetcherSet>) returns (flat: map<string, Fetcher>)
    ensures FlatOf(m, m.Keys, flat)
    ensures Separate(m.Keys) ==> Retrievable(m, flat)
  {
    flat := map[];
    var accounts := m.Keys;
    while accounts != {}
      invariant accounts <= m.Keys && FlatOf(m, m.Keys - accounts, flat)
      decreases accounts
    {
      var account :| account in accounts;
      flat := FlattenOne(m, account, m.Keys - accounts, flat);
      accounts := accounts - {account};
    }
    if Separate(m.Keys) {
      SeparateNames(m, flat);
    }
  }

  /** The inner loop, for one account. */
  method FlattenOne(m: map<string, FetcherSet>, account: string, ghost done: set<string>, before: map<string, Fetcher>)
    returns (flat: map<string, Fetcher>)
    requires account in m && FlatOf(m, done, before)
    ensures FlatOf(m, done + {account}, flat)
  {
    flat := before;
    var keys := m[account].entries.Keys;
    while keys != {}
      invariant keys <= m[account].entries.Keys
      invariant FlatOf(m, done, flat)
      invariant forall k :: k in m[account].entries && k !in keys ==> FlatName(account, k) in flat
      decreases keys
    {
      var key :| key in keys;
      flat := flat[FlatName(account, key) := m[account].entries[key]];
      keys := keys - {key};
    }
  }

  lemma RefreshedIsSeparate(factory: Factory, o: Org, accounts: seq<string>)
    ensures Separate(set a | a in accounts) ==> Separate(Refreshed(factory, o, accounts).cache.Keys)
  {
    hide VisitAll, DashPrefix;
  }

  // --- the registry ---

  class Registry {
    const org: OrgCache
    var reg: map<string, Fetcher>

    constructor (org: OrgCache)
      ensures this.org == org && reg == map[]
    {
      this.org := org;
      reg := map[];
    }

    /** `Update` with the organization updater: a failed account listing leaves the registry and the
        cache unchanged; otherwise the registry is replaced by the flattened fetchers. */
    method Update(listing: Option<seq<string>>)
      modifies this, org
      ensures listing.None? ==> reg == old(reg) && org.Value() == old(org.Value())
      ensures listing.Some? ==> org.Value() == Refreshed(org.factory, old(org.Value()), listing.value)
      ensures listing.Some? ==> FlatOf(org.cache, org.cache.Keys, reg)
      ensures listing.Some? && Separate(set a | a in listing.value) ==> Retrievable(org.cache, reg)
    {
      hide VisitAll, FlatOf, Separate, Retrievable;
      if listing.None? {
        return;
      }
      ghost var before := org.Value();
      var m := org.Refresh(listing.value);
      reg := Flatten(m);
      RefreshedIsSeparate(org.factory, before, listing.value);
    }

    /** The registered keys, each once, in any order. */
    method Keys() returns (keys: seq<string>)
      ensures forall k :: k in keys <==> k in reg
      ensures |keys| == |reg|
    {
      keys := [];
      var left := reg.Keys;
      while left != {}
        invariant left <= reg.Keys
        invariant forall k :: k in keys <==> k in reg && k !in left
        invariant |keys| + |left| == |reg.Keys|
        decreases left
      {
        var key :| key in left;
        keys := keys + [key];
        left := left - {key};
      }
    }
  }
}
