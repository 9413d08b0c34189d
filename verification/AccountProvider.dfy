/** Listing the accounts of an AWS organization page by page, with a cache of organizational-unit
    names (resources/providers/awslib/account_provider.go). */
module AccountProvider {
  import opened Sequences
  import opened CloudIdentity

  datatype Status = Active | Suspended | PendingClosure
  datatype Account = Account(status: Status, id: Option<string>, name: Option<string>)
  datatype Parent = Root(rootId: string) | Unit(unitId: Option<string>)
  datatype UnitInfo = UnitInfo(id: string, name: string)

  /** A paged answer: the pages that come, and whether an error follows instead of the end. */
  datatype Paged<T> = Paged(pages: seq<seq<T>>, fails: bool)

  function Dereference(s: Option<string>): (r: string) { if s.Some? then s.value else "" }

  /** What the service says of a unit at its n-th description: an error, or a name that may be missing. */
  type Describe = (string, nat) -> Option<Option<string>>

  /** The organizations service. Descriptions may differ from call to call; `described` lists the
      units it was asked to describe, `succeeded` those it described. */
  class Service {
    const accounts: Paged<Account>
    const parents: string -> Paged<Parent>
    const describe: Describe
    var described: seq<string>
    var succeeded: seq<string>

    constructor (accounts: Paged<Account>, parents: string -> Paged<Parent>, describe: Describe)
      ensures this.accounts == accounts && this.parents == parents && this.describe == describe
      ensures described == [] && succeeded == []
    {
      this.accounts, this.parents, this.describe := accounts, parents, describe;
      described, succeeded := [], [];
    }

    method DescribeOrganizationalUnit(id: string) returns (name: Option<Option<string>>)
      modifies this
      ensures name == describe(id, |old(described)|)
      ensures described == old(described) + [id]
      ensures succeeded == if name.Some? then old(succeeded) + [id] else old(succeeded)
    {
      name := describe(id, |described|);
      described := described + [id];
      if name.Some? {
        succeeded := succeeded + [id];
      }
    }
  }

  // --- specification: no cache ---

  /** The service gives the same description every time. */
  ghost predicate Consistent(describe: Describe) {
    forall id: string, n: nat :: describe(id, n) == describe(id, 0)
  }

  function UnitById(describe: Describe, id: Option<string>): (r: UnitInfo) {
    if id.None? then UnitInfo("", "")
    else if describe(id.value, 0).Some? then UnitInfo(id.value, Dereference(describe(id.value, 0).value))
    else UnitInfo(id.value, "")
  }

  /** The first parent on the first page that has one. */
  function FirstParent(pages: seq<seq<Parent>>): (r: Option<Parent>) {
    if pages == [] then None else if pages[0] != [] then Some(pages[0][0]) else FirstParent(pages[1..])
  }

  function UnitOf(describe: Describe, parents: Paged<Parent>): (r: UnitInfo) {
    match FirstParent(parents.pages)
    case None => UnitInfo("", "")
    case Some(Root(id)) => UnitInfo(id, "Root")
    case Some(Unit(id)) => UnitById(describe, id)
  }

  predicate Listed(account: Account) { account.status.Active? && account.id.Some? }

  function IdentityOf(account: Account, info: UnitInfo): (r: Identity)
    requires Listed(account)
  {
    Identity(account.id.value, Dereference(account.name), info.id, info.name)
  }

  function IdentitiesOf(describe: Describe, parents: string -> Paged<Parent>,
                        account: Account): (r: seq<Identity>)
  {
    if Listed(account) then [IdentityOf(account, UnitOf(describe, parents(account.id.value)))] else []
  }

  /** The listed accounts in order, each with its unit described afresh. */
  function Uncached(describe: Describe, parents: string -> Paged<Parent>,
                    accounts: seq<Account>): (r: seq<Identity>)
  {
    if accounts == [] then []
    else IdentitiesOf(describe, parents, accounts[0]) + Uncached(describe, parents, accounts[1..])
  }

  /** The id of an account's unit, which takes no description. */
  function UnitIdOf(parents: Paged<Parent>): (r: string) {
    match FirstParent(parents.pages)
    case None => ""
    case Some(Root(id)) => id
    case Some(Unit(id)) => Dereference(id)
  }

  function ListingOf(parents: string -> Paged<Parent>, account: Account): (r: seq<Identity>) {
    if Listed(account) then [IdentityOf(account, UnitInfo(UnitIdOf(parents(account.id.value)), ""))] else []
  }

  /** Whatever the service answers: the listed accounts in order, with their units' ids. */
  function Listing(parents: string -> Paged<Parent>, accounts: seq<Account>): (r: seq<Identity>) {
    if accounts == [] then [] else ListingOf(parents, accounts[0]) + Listing(parents, accounts[1..])
  }

  /** Identities without the names of their units. */
  function Unnamed(identities: seq<Identity>): (r: seq<Identity>) {
    seq(|identities|, i requires 0 <= i < |identities| => identities[i].(organizationName := ""))
  }

  // --- what is listed ---

  /** Page number `k` is the first with a parent. */
  predicate FirstPageAt(pages: seq<seq<Parent>>, k: nat) {
    k < |pages| && pages[k] != [] && forall j :: 0 <= j < k ==> pages[j] == []
  }

  /** These are the id and, if the service is asked each time, the name of a child's unit. */
  ghost predicate IsUnit(describe: Describe, parents: Paged<Parent>, id: string, name: string) {
    && ((forall k :: 0 <= k < |parents.pages| ==> parents.pages[k] == []) ==> id == "" && name == "")
    && forall k: nat :: FirstPageAt(parents.pages, k) ==>
         match parents.pages[k][0]
         case Root(root) => id == root && name == "Root"
         case Unit(None) => id == "" && name == ""
         case Unit(Some(unit)) =>
           id == unit && name == match describe(unit, 0) { case Some(Some(given)) => given case _ => "" }
  }

  /** What one account contributes: nothing unless it is active and has an id; otherwise its identity. */
  ghost predicate Contributes(
    describe: Describe, parents: string -> Paged<Parent>, account: Account, piece: seq<Identity>)
  {
    if account.status == Active && account.id != None
    then
      && |piece| == 1 && piece[0].account == account.id.value
      && piece[0].alias == (match account.name case None => "" case Some(name) => name)
      && IsUnit(describe, parents(account.id.value), piece[0].organizationId, piece[0].organizationName)
    else piece == []
  }

  lemma {:induction false} FirstParentMeans(pages: seq<seq<Parent>>)
    ensures (forall k :: 0 <= k < |pages| ==> pages[k] == []) ==> FirstParent(pages) == None
    ensures forall k: nat :: FirstPageAt(pages, k) ==> FirstParent(pages) == Some(pages[k][0])
  {
    if pages != [] {
      var rest := pages[1..];
      FirstParentMeans(rest);
      assert forall k :: 0 < k < |pages| ==> pages[k] == rest[k - 1];
      assert forall k :: 0 <= k < |rest| ==> rest[k] == pages[k + 1];
      forall k: nat | FirstPageAt(pages, k) ensures FirstParent(pages) == Some(pages[k][0]) {
        if k > 0 {
          assert FirstPageAt(rest, k - 1);
        }
      }
    }
  }

  lemma IdentitiesContribute(describe: Describe, parents: string -> Paged<Parent>, account: Account)
    ensures Contributes(describe, parents, account, IdentitiesOf(describe, parents, account))
  {
    hide FirstParent;
    if account.id.Some? {
      FirstParentMeans(parents(account.id.value).pages);
    }
  }

  /** The listing with every unit described afresh: what the accounts contribute, in order. */
  lemma {:induction false} UncachedMeans(describe: Describe, parents: string -> Paged<Parent>, accounts: seq<Account>)
    returns (pieces: seq<seq<Identity>>)
    ensures |pieces| == |accounts| && Uncached(describe, parents, accounts) == Concat(pieces)
    ensures forall i :: 0 <= i < |accounts| ==> Contributes(describe, parents, accounts[i], pieces[i])
  {
    hide Contributes, IdentitiesOf;
    if accounts == [] {
      pieces := [];
    } else {
      var rest := UncachedMeans(describe, parents, accounts[1..]);
      var first := IdentitiesOf(describe, parents, accounts[0]);
      IdentitiesContribute(describe, parents, accounts[0]);
      pieces := [first] + rest;
      assert pieces[1..] == rest;
      forall i | 0 <= i < |accounts| ensures Contributes(describe, parents, accounts[i], pieces[i]) {
        assert i > 0 ==> accounts[i] == accounts[1..][i - 1] && pieces[i] == rest[i - 1];
      }
    }
  }

  /** Whatever the service answers, everything but the names is as in that listing. */
  lemma {:induction false} ListingMeans(describe: Describe, parents: string -> Paged<Parent>, accounts: seq<Account>)
    ensures Listing(parents, accounts) == Unnamed(Uncached(describe, parents, accounts))
  {
    hide Listed, FirstParent;
    if accounts != [] {
      ListingMeans(describe, parents, accounts[1..]);
      var first, rest := IdentitiesOf(describe, parents, accounts[0]), Uncached(describe, parents, accounts[1..]);
      assert Unnamed(first + rest) == Unnamed(first) + Unnamed(rest);
      assert Unnamed(first) == ListingOf(parents, accounts[0]);
    }
  }

  lemma {:induction false} UncachedAppend(describe: Describe, parents: string -> Paged<Parent>,
                                          xs: seq<Account>, ys: seq<Account>)
    ensures Uncached(describe, parents, xs + ys) == Uncached(describe, parents, xs) + Uncached(describe, parents, ys)
  {
    hide IdentitiesOf;
    if xs == [] {
      assert xs + ys == ys;
    } else {
      UncachedAppend(describe, parents, xs[1..], ys);
      AppendAssoc(IdentitiesOf(describe, parents, xs[0]), Uncached(describe, parents, xs[1..]),
                  Uncached(describe, parents, ys));
      assert (xs + ys)[1..] == xs[1..] + ys;
    }
  }

  lemma {:induction false} ListingAppend(parents: string -> Paged<Parent>, xs: seq<Account>, ys: seq<Account>)
    ensures Listing(parents, xs + ys) == Listing(parents, xs) + Listing(parents, ys)
  {
    hide ListingOf;
    if xs == [] {
      assert xs + ys == ys;
    } else {
      ListingAppend(parents, xs[1..], ys);
      AppendAssoc(ListingOf(parents, xs[0]), Listing(parents, xs[1..]), Listing(parents, ys));
      assert (xs + ys)[1..] == xs[1..] + ys;
    }
  }

  lemma OnePageMore(describe: Describe, parents: string -> Paged<Parent>,
                    pages: seq<seq<Account>>, i: nat)
    requires i < |pages|
    ensures Uncached(describe, parents, Concat(pages[..i + 1]))
         == Uncached(describe, parents, Concat(pages[..i])) + Uncached(describe, parents, pages[i])
    ensures Listing(parents, Concat(pages[..i + 1]))
         == Listing(parents, Concat(pages[..i])) + Listing(parents, pages[i])
  {
    assert pages[..i + 1] == pages[..i] + [pages[i]];
    ConcatSnoc(pages[..i], pages[i]);
    UncachedAppend(describe, parents, Concat(pages[..i]), pages[i]);
    ListingAppend(parents, Concat(pages[..i]), pages[i]);
  }

  lemma NoPages(describe: Describe, parents: string -> Paged<Parent>)
    ensures Uncached(describe, parents, Concat([])) == [] && Listing(parents, Concat([])) == []
  {
  }

  // --- the cache ---

  ghost predicate NoRepeats(xs: seq<string>) {
    forall i, j :: 0 <= i < j < |xs| ==> xs[i] != xs[j]
  }

  /** The cache holds the units described successfully since `start`, no unit was described
      successfully twice, and the names are the service's if it is consistent. */
  ghost predicate CacheInv(service: Service, start: nat, cache: map<string, string>)
    reads service
  {
    && start <= |service.succeeded|
    && NoRepeats(service.succeeded[start..])
    && (forall id :: id in cache <==> id in service.succeeded[start..])
    && (Consistent(service.describe) ==>
          forall id :: id in cache ==>
            service.describe(id, 0).Some? && cache[id] == Dereference(service.describe(id, 0).value))
  }

  /** A unit's information, the cache afterwards, and the descriptions asked for. */
  datatype Resolution = Resolution(info: UnitInfo, cache: map<string, string>, asked: seq<string>)

  /** With the cache: after `n` descriptions so far, a unit is described only if it is not cached, and
      a failed description is not cached. */
  function Resolve(describe: Describe, n: nat, cache: map<string, string>, id: Option<string>): (r: Resolution) {
    match id
    case None => Resolution(UnitInfo("", ""), cache, [])
    case Some(unit) =>
      if unit in cache then Resolution(UnitInfo(unit, cache[unit]), cache, [])
      else match describe(unit, n)
        case None => Resolution(UnitInfo(unit, ""), cache, [unit])
        case Some(name) => Resolution(UnitInfo(unit, Dereference(name)), cache[unit := Dereference(name)], [unit])
  }

  /** The unit of an account with these parents. */
  function ResolveFor(describe: Describe, n: nat, cache: map<string, string>, parents: Paged<Parent>)
    : (r: Resolution)
  {
    match FirstParent(parents.pages)
    case None => Resolution(UnitInfo("", ""), cache, [])
    case Some(Root(id)) => Resolution(UnitInfo(id, "Root"), cache, [])
    case Some(Unit(id)) => Resolve(describe, n, cache, id)
  }

  /** The id does not depend on descriptions, and with a consistent service neither does the name. */
  lemma ResolveForMeans(service: Service, start: nat, n: nat, cache: map<string, string>, parents: Paged<Parent>)
    requires CacheInv(service, start, cache)
    ensures ResolveFor(service.describe, n, cache, parents).info.id == UnitIdOf(parents)
    ensures Consistent(service.describe) ==>
              ResolveFor(service.describe, n, cache, parents).info == UnitOf(service.describe, parents)
  {
    hide NoRepeats, FirstParent;
  }

  /** For any service. */
  method DescribeUnit(service: Service, ghost start: nat, cache: map<string, string>, id: Option<string>)
    returns (info: UnitInfo, newCache: map<string, string>)
    requires CacheInv(service, start, cache)
    modifies service
    ensures CacheInv(service, start, newCache)
    ensures var r := Resolve(service.describe, |old(service.described)|, cache, id);
            info == r.info && newCache == r.cache && service.described == old(service.described) + r.asked
  {
    newCache := cache;
    if id.None? {
      return UnitInfo("", ""), cache;
    }
    if id.value in cache {
      return UnitInfo(id.value, cache[id.value]), cache;
    }
    ghost var before := service.succeeded[start..];
    var name := service.DescribeOrganizationalUnit(id.value);
    if name.None? {
      return UnitInfo(id.value, ""), cache;
    }
    assert service.succeeded[start..] == before + [id.value];
    newCache := cache[id.value := Dereference(name.value)];
    info := UnitInfo(id.value, Dereference(name.value));
  }

  /** For any service and any paging of the parents. */
  method UnitForAccount(service: Service, ghost start: nat, cache: map<string, string>, accountId: string)
    returns (info: UnitInfo, newCache: map<string, string>)
    requires CacheInv(service, start, cache)
    modifies service
    ensures CacheInv(service, start, newCache)
    ensures var r := ResolveFor(service.describe, |old(service.described)|, cache, service.parents(accountId));
            info == r.info && newCache == r.cache && service.described == old(service.described) + r.asked
  {
    var parents := service.parents(accountId);
    var page := 0;
    while page < |parents.pages|
      invariant 0 <= page <= |parents.pages|
      invariant FirstParent(parents.pages[page..]) == FirstParent(parents.pages)
      invariant CacheInv(service, start, cache) && service.described == old(service.described)
    {
      var found := parents.pages[page];
      page := page + 1;
      if |found| == 0 {
        continue;
      }
      match found[0] {
        case Root(id) =>
          return UnitInfo(id, "Root"), cache;
        case Unit(id) =>
          info, newCache := DescribeUnit(service, start, cache, id);
          return;
      }
    }
    return UnitInfo("", ""), cache;
  }

  /** All pages; `None` if a page fails. The accounts are the active ones with an id, in order, over
      all pages, with the ids of their units. Each unit is described successfully at most once, and
      with a consistent service the result is that of describing every unit afresh. */
  method ListAccounts(service: Service) returns (r: Option<seq<Identity>>)
    modifies service
    ensures r.None? <==> service.accounts.fails
    ensures |old(service.succeeded)| <= |service.succeeded|
    ensures NoRepeats(service.succeeded[|old(service.succeeded)|..])
    ensures r.Some? ==>
              Unnamed(r.value) == Unnamed(Uncached(service.describe, service.parents, Concat(service.accounts.pages)))
    ensures r.Some? && Consistent(service.describe) ==>
              r.value == Uncached(service.describe, service.parents, Concat(service.accounts.pages))
  {
    hide Uncached, Listing, Concat;
    ghost var start := |service.succeeded|;
    NoPages(service.describe, service.parents);
    var cache: map<string, string> := map[];
    var accounts: seq<Identity> := [];
    var pages := service.accounts.pages;
    var i := 0;
    while i < |pages|
      invariant 0 <= i <= |pages|
      invariant CacheInv(service, start, cache)
      invariant Unnamed(accounts) == Listing(service.parents, Concat(pages[..i]))
      invariant Consistent(service.describe) ==>
                  accounts == Uncached(service.describe, service.parents, Concat(pages[..i]))
    {
      var more;
      more, cache := ListPage(service, start, cache, pages[i]);
      OnePageMore(service.describe, service.parents, pages, i);
      assert Unnamed(accounts + more) == Unnamed(accounts) + Unnamed(more);
      accounts := accounts + more;
      i := i + 1;
    }
    assert pages[..i] == pages;
    if service.accounts.fails {
      return None;
    }
    ListingMeans(service.describe, service.parents, Concat(pages));
    r := Some(accounts);
  }

  /** The inner loop, for one page. */
  method ListPage(service: Service, ghost start: nat, cache: map<string, string>, page: seq<Account>)
    returns (accounts: seq<Identity>, newCache: map<string, string>)
    requires CacheInv(service, start, cache)
    modifies service
    ensures CacheInv(service, start, newCache)
    ensures Unnamed(accounts) == Listing(service.parents, page)
    ensures Consistent(service.describe) ==> accounts == Uncached(service.describe, service.parents, page)
  {
    hide CacheInv, ResolveFor, UnitOf, UnitIdOf, Consistent;
    accounts, newCache := [], cache;
    var i := 0;
    while i < |page|
      invariant 0 <= i <= |page|
      invariant CacheInv(service, start, newCache)
      invariant Unnamed(accounts) == Listing(service.parents, page[..i])
      invariant Consistent(service.describe) ==> accounts == Uncached(service.describe, service.parents, page[..i])
    {
      var account := page[i];
      assert page[..i + 1] == page[..i] + [account];
      UncachedAppend(service.describe, service.parents, page[..i], [account]);
      ListingAppend(service.parents, page[..i], [account]);
      assert Uncached(service.describe, service.parents, [account])
          == IdentitiesOf(service.describe, service.parents, account);
      i := i + 1;
      if !account.status.Active? || account.id.None? {
        continue;
      }
      var info;
      ResolveForMeans(service, start, |service.described|, newCache, service.parents(account.id.value));
      info, newCache := UnitForAccount(service, start, newCache, account.id.value);
      var identity := IdentityOf(account, info);
      assert Unnamed(accounts + [identity]) == Unnamed(accounts) + [identity.(organizationName := "")];
      accounts := accounts + [identity];
    }
    assert page[..i] == page;
  }
}
