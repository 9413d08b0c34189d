/** Security rules joined onto virtual machines through their network interfaces
    (resources/fetching/fetchers/azure/assets_enrincher_virtual_machine.go): first an index from
    interface to rules, then one look-up per interface of each machine. */
module NetworkRules {
  import opened Sequences

  datatype Rule = Rule(fields: map<string, seq<string>>)

  datatype Kind = SecurityGroup | VirtualMachine | OtherKind

  datatype Extension = SecurityRules(rules: seq<Rule>) | Something(text: string)

  const EXTENSION_NETWORK := "network"

  /** An asset, with what decoding its properties gives: a group's interfaces and rules, a machine's
      interfaces; `None` is a decoding error. */
  datatype Asset = Asset(
    id: string,
    kind: Kind,
    groupInterfaces: Option<seq<string>>,
    groupRules: Option<seq<Rule>>,
    profile: Option<seq<string>>,
    extension: map<string, Extension>)

  // --- specification: the nested-loop join ---

  predicate Decodable(a: Asset) { a.groupInterfaces.Some? && a.groupRules.Some? }

  /** A group's rules, once for each time it lists the interface. */
  function RulesPerMention(interfaces: seq<string>, nic: string, rules: seq<Rule>): (r: seq<Rule>) {
    if interfaces == [] then []
    else (if interfaces[0] == nic then rules else []) + RulesPerMention(interfaces[1..], nic, rules)
  }

  function GroupRulesFor(a: Asset, nic: string): (r: seq<Rule>) {
    if a.kind.SecurityGroup? && Decodable(a)
    then RulesPerMention(a.groupInterfaces.value, nic, a.groupRules.value) else []
  }

  /** The rules of one interface, over all groups in asset order. */
  function RulesFor(assets: seq<Asset>, nic: string): (r: seq<Rule>) {
    if assets == [] then [] else GroupRulesFor(assets[0], nic) + RulesFor(assets[1..], nic)
  }

  /** The rules of a machine, over its interfaces in order. */
  function RulesForAll(assets: seq<Asset>, nics: seq<string>): (r: seq<Rule>) {
    if nics == [] then [] else RulesFor(assets, nics[0]) + RulesForAll(assets, nics[1..])
  }

  /** A machine that can be decoded and has rules. */
  predicate HasRules(assets: seq<Asset>, a: Asset) {
    a.kind.VirtualMachine? && a.profile.Some? && RulesForAll(assets, a.profile.value) != []
  }

  function AddExtension(a: Asset, rules: seq<Rule>): (r: Asset) {
    a.(extension := a.extension[EXTENSION_NETWORK := SecurityRules(rules)])
  }

  /** What becomes of one asset. */
  function Joined(assets: seq<Asset>, a: Asset): (r: Asset) {
    if HasRules(assets, a) then AddExtension(a, RulesForAll(assets, a.profile.value)) else a
  }

  /** Positions of the groups that cannot be decoded, and of the machines that cannot. */
  function BadGroups(assets: seq<Asset>, from: nat): (r: seq<nat>)
    decreases |assets| - from
  {
    if from >= |assets| then []
    else (if assets[from].kind.SecurityGroup? && !Decodable(assets[from]) then [from] else [])
         + BadGroups(assets, from + 1)
  }

  function BadMachines(assets: seq<Asset>, from: nat): (r: seq<nat>)
    decreases |assets| - from
  {
    if from >= |assets| then []
    else (if assets[from].kind.VirtualMachine? && assets[from].profile.None? then [from] else [])
         + BadMachines(assets, from + 1)
  }

  lemma BadGroupsStep(assets: seq<Asset>, from: nat)
    requires from <= |assets|
    ensures BadGroups(assets, from) ==
            if from == |assets| then []
            else (if assets[from].kind.SecurityGroup? && !Decodable(assets[from]) then [from] else [])
                 + BadGroups(assets, from + 1)
  {
  }

  lemma BadMachinesStep(assets: seq<Asset>, from: nat)
    requires from <= |assets|
    ensures BadMachines(assets, from) ==
            if from == |assets| then []
            else (if assets[from].kind.VirtualMachine? && assets[from].profile.None? then [from] else [])
                 + BadMachines(assets, from + 1)
  {
  }

  // --- the index ---

  /** From interface to rules. */
  type Index = map<string, seq<Rule>>

  /** The index after interface `nic` has been mentioned by a group with these rules. */
  function Extended(index: Index, nic: string, rules: seq<Rule>): (r: Index) {
    index[nic := ListAt(index, nic) + rules]
  }

  lemma {:induction false} RulesPerMentionSnoc(interfaces: seq<string>, last: string, nic: string, rules: seq<Rule>)
    ensures RulesPerMention(interfaces + [last], nic, rules)
         == RulesPerMention(interfaces, nic, rules) + (if last == nic then rules else [])
  {
    if interfaces != [] {
      RulesPerMentionSnoc(interfaces[1..], last, nic, rules);
      assert (interfaces + [last])[1..] == interfaces[1..] + [last];
    }
  }

  lemma {:induction false} RulesForSnoc(assets: seq<Asset>, a: Asset, nic: string)
    ensures RulesFor(assets + [a], nic) == RulesFor(assets, nic) + GroupRulesFor(a, nic)
  {
    hide GroupRulesFor;
    if assets != [] {
      RulesForSnoc(assets[1..], a, nic);
      assert (assets + [a])[1..] == assets[1..] + [a];
    }
  }

  lemma {:induction false} RulesForAllSnoc(assets: seq<Asset>, nics: seq<string>, nic: string)
    ensures RulesForAll(assets, nics + [nic]) == RulesForAll(assets, nics) + RulesFor(assets, nic)
  {
    hide RulesFor;
    if nics != [] {
      RulesForAllSnoc(assets, nics[1..], nic);
      assert (nics + [nic])[1..] == nics[1..] + [nic];
    }
  }

  /** `newIndex` is `index` with the rules added under each mention of an interface. */
  ghost predicate Mentioned(newIndex: Index, index: Index, nics: seq<string>, rules: seq<Rule>) {
    forall nic: string :: ListAt(newIndex, nic) == ListAt(index, nic) + RulesPerMention(nics, nic, rules)
  }

  /** The index of a list of assets. */
  ghost predicate IsIndex(index: Index, assets: seq<Asset>) {
    forall nic: string :: ListAt(index, nic) == RulesFor(assets, nic)
  }

  lemma Mention(newIndex: Index, index: Index, nics: seq<string>, last: string, nic: string,
                rules: seq<Rule>)
    requires ListAt(newIndex, nic) == ListAt(index, nic) + RulesPerMention(nics, nic, rules)
    ensures ListAt(Extended(newIndex, last, rules), nic)
         == ListAt(index, nic) + RulesPerMention(nics + [last], nic, rules)
  {
    RulesPerMentionSnoc(nics, last, nic, rules);
  }

  lemma MentionOne(newIndex: Index, index: Index, nics: seq<string>, last: string, rules: seq<Rule>)
    requires Mentioned(newIndex, index, nics, rules)
    ensures Mentioned(Extended(newIndex, last, rules), index, nics + [last], rules)
  {
    hide ListAt, Extended, RulesPerMention;
    forall nic: string
      ensures ListAt(Extended(newIndex, last, rules), nic)
         == ListAt(index, nic) + RulesPerMention(nics + [last], nic, rules)
    {
      Mention(newIndex, index, nics, last, nic, rules);
    }
  }

  lemma NothingMentioned(index: Index, rules: seq<Rule>)
    ensures Mentioned(index, index, [], rules)
  {
  }

  lemma IndexOneMore(newIndex: Index, index: Index, assets: seq<Asset>, a: Asset)
    requires IsIndex(index, assets)
    requires if a.kind.SecurityGroup? && Decodable(a)
             then Mentioned(newIndex, index, a.groupInterfaces.value, a.groupRules.value) else newIndex == index
    ensures IsIndex(newIndex, assets + [a])
  {
    hide RulesPerMention;
    forall nic: string ensures ListAt(newIndex, nic) == RulesFor(assets + [a], nic) {
      RulesForSnoc(assets, a, nic);
      assert ListAt(index, nic) == RulesFor(assets, nic);
    }
  }

  /** One group's contribution: its rules are appended under each of its interfaces, in order. */
  method ExtractRules(a: Asset, index: Index) returns (newIndex: Index, ok: bool)
    ensures ok == Decodable(a)
    ensures if ok then Mentioned(newIndex, index, a.groupInterfaces.value, a.groupRules.value) else newIndex == index
  {
    hide Mentioned, Extended;
    newIndex := index;
    if a.groupInterfaces.None? || a.groupRules.None? {
      return newIndex, false;
    }
    var nics, rules := a.groupInterfaces.value, a.groupRules.value;
    NothingMentioned(index, rules);
    var j := 0;
    while j < |nics|
      invariant 0 <= j <= |nics|
      invariant Mentioned(newIndex, index, nics[..j], rules)
    {
      assert nics[..j + 1] == nics[..j] + [nics[j]];
      MentionOne(newIndex, index, nics[..j], nics[j], rules);
      newIndex := Extended(newIndex, nics[j], rules);
      j := j + 1;
    }
    assert nics[..j] == nics;
    ok := true;
  }

  /** The first pass: the index holds every interface's rules. */
  method BuildIndex(assets: array<Asset>) returns (index: Index, errors: seq<nat>)
    ensures IsIndex(index, assets[..])
    ensures errors == BadGroups(assets[..], 0)
  {
    hide Mentioned, RulesFor, IsIndex, BadGroups;
    index, errors := map[], [];
    var i := 0;
    NoAssets();
    while i < assets.Length
      invariant 0 <= i <= assets.Length
      invariant IsIndex(index, assets[..i])
      invariant errors + BadGroups(assets[..], i) == BadGroups(assets[..], 0)
    {
      BadGroupsStep(assets[..], i);
      var asset := assets[i];
      assert assets[..i + 1] == assets[..i] + [asset];
      ghost var before := index;
      if asset.kind.SecurityGroup? {
        var ok;
        index, ok := ExtractRules(asset, index);
        if !ok {
          errors := errors + [i];
        }
      }
      IndexOneMore(index, before, assets[..i], asset);
      i := i + 1;
    }
    BadGroupsStep(assets[..], i);
    assert assets[..i] == assets[..];
  }

  lemma NoAssets()
    ensures IsIndex(map[], [])
  {
  }

  /** A machine's rules from the index. */
  method CollectRules(index: Index, nics: seq<string>, ghost assets: seq<Asset>) returns (rules: seq<Rule>)
    requires IsIndex(index, assets)
    ensures rules == RulesForAll(assets, nics)
  {
    rules := [];
    var j := 0;
    while j < |nics|
      invariant 0 <= j <= |nics|
      invariant rules == RulesForAll(assets, nics[..j])
    {
      assert nics[..j + 1] == nics[..j] + [nics[j]];
      RulesForAllSnoc(assets, nics[..j], nics[j]);
      rules := rules + ListAt(index, nics[j]);
      j := j + 1;
    }
    assert nics[..j] == nics;
  }

  /** The second pass on one machine; `ok` is false if its profile cannot be decoded. */
  method AddNetworkRules(index: Index, vm: Asset, ghost assets: seq<Asset>) returns (r: Asset, ok: bool)
    requires IsIndex(index, assets) && vm.kind.VirtualMachine?
    ensures r == Joined(assets, vm) && ok == vm.profile.Some?
    ensures Extends(assets, vm, r)
  {
    hide RulesForAll, IsIndex;
    JoinExtends(assets, vm);
    if vm.profile.None? {
      return vm, false;
    }
    var rules := CollectRules(index, vm.profile.value, assets);
    if |rules| == 0 {
      return vm, true;
    }
    return AddExtension(vm, rules), true;
  }

  /** `after` is `before` but for its network extension. */
  predicate SameButNetwork(before: Asset, after: Asset) {
    && after.(extension := before.extension) == before
    && before.extension - {EXTENSION_NETWORK} == after.extension - {EXTENSION_NETWORK}
  }

  /** What is to become of an asset: a machine that can be decoded and whose interfaces have rules gets
      exactly these as its network extension, and nothing else happens to it; any other asset stays. */
  ghost predicate Extends(assets: seq<Asset>, before: Asset, after: Asset) {
    if before.kind.VirtualMachine? && before.profile.Some? && RulesForAll(assets, before.profile.value) != []
    then
      && SameButNetwork(before, after)
      && EXTENSION_NETWORK in after.extension
      && after.extension[EXTENSION_NETWORK] == SecurityRules(RulesForAll(assets, before.profile.value))
    else after == before
  }

  lemma NoMachine(assets: seq<Asset>, a: Asset)
    requires !a.kind.VirtualMachine?
    ensures Joined(assets, a) == a
  {
  }

  lemma JoinExtends(assets: seq<Asset>, a: Asset)
    ensures Extends(assets, a, Joined(assets, a))
  {
    hide RulesForAll;
  }

  /** Both passes, in place: every asset becomes what it is to become; the errors are those of the
      undecodable groups and then of the undecodable machines, each in order. */
  method Enrich(assets: array<Asset>) returns (errors: seq<nat>)
    modifies assets
    ensures forall k :: 0 <= k < assets.Length ==> Extends(old(assets[..]), old(assets[k]), assets[k])
    ensures errors == BadGroups(old(assets[..]), 0) + BadMachines(old(assets[..]), 0)
  {
    hide RulesForAll, IsIndex, BadGroups, BadMachines, Extends, Joined;
    var index;
    index, errors := BuildIndex(assets);
    ghost var was := assets[..];
    ghost var groupErrors := errors;
    var idx := 0;
    while idx < assets.Length
      invariant 0 <= idx <= assets.Length
      invariant forall k :: 0 <= k < idx ==> assets[k] == Joined(was, was[k])
      invariant forall k :: idx <= k < assets.Length ==> assets[k] == was[k]
      invariant errors + BadMachines(was, idx) == groupErrors + BadMachines(was, 0)
    {
      if !was[idx].kind.VirtualMachine? {
        NoMachine(was, was[idx]);
      }
      BadMachinesStep(was, idx);
      var asset := assets[idx];
      if asset.kind.VirtualMachine? {
        var ok;
        asset, ok := AddNetworkRules(index, asset, was);
        if !ok {
          errors := errors + [idx];
        }
        assets[idx] := asset;
      }
      idx := idx + 1;
    }
    BadMachinesStep(was, idx);
    forall k | 0 <= k < assets.Length ensures Extends(was, was[k], assets[k]) {
      JoinExtends(was, was[k]);
    }
  }

  // --- what the join means ---

  function Times(rules: seq<Rule>, n: nat): (r: seq<Rule>) {
    if n == 0 then [] else rules + Times(rules, n - 1)
  }

  function Mentions(interfaces: seq<string>, nic: string): (n: nat) {
    if interfaces == [] then 0 else (if interfaces[0] == nic then 1 else 0) + Mentions(interfaces[1..], nic)
  }

  lemma MentionsStep(interfaces: seq<string>, nic: string, rules: seq<Rule>)
    requires interfaces != []
    ensures interfaces[0] == nic ==>
              && RulesPerMention(interfaces, nic, rules) == rules + RulesPerMention(interfaces[1..], nic, rules)
              && Times(rules, Mentions(interfaces, nic)) == rules + Times(rules, Mentions(interfaces[1..], nic))
    ensures interfaces[0] != nic ==>
              && RulesPerMention(interfaces, nic, rules) == RulesPerMention(interfaces[1..], nic, rules)
              && Mentions(interfaces, nic) == Mentions(interfaces[1..], nic)
  {
  }

  /** Multiplicity: a group that mentions an interface n times contributes its rules n times. */
  lemma {:induction false} MentionsCount(interfaces: seq<string>, nic: string, rules: seq<Rule>)
    ensures RulesPerMention(interfaces, nic, rules) == Times(rules, Mentions(interfaces, nic))
  {
    if interfaces != [] {
      hide RulesPerMention, Mentions, Times;
      MentionsCount(interfaces[1..], nic, rules);
      MentionsStep(interfaces, nic, rules);
    }
  }

  /** A rule reaches a machine exactly if some decodable group lists both the rule and one of the
      machine's interfaces. */
  ghost predicate Reaches(assets: seq<Asset>, nic: string, rule: Rule) {
    exists i :: 0 <= i < |assets| && assets[i].kind.SecurityGroup? && Decodable(assets[i])
      && nic in assets[i].groupInterfaces.value && rule in assets[i].groupRules.value
  }

  lemma {:induction false} RuleOfMention(interfaces: seq<string>, nic: string, rules: seq<Rule>, rule: Rule)
    ensures rule in RulesPerMention(interfaces, nic, rules) <==> nic in interfaces && rule in rules
  {
    if interfaces != [] {
      RuleOfMention(interfaces[1..], nic, rules, rule);
      assert interfaces == [interfaces[0]] + interfaces[1..];
    }
  }

  lemma {:induction false} RuleReaches(assets: seq<Asset>, nic: string, rule: Rule)
    ensures rule in RulesFor(assets, nic) <==> Reaches(assets, nic, rule)
  {
    if assets != [] {
      var rest := assets[1..];
      RuleReaches(rest, nic, rule);
      if Decodable(assets[0]) {
        RuleOfMention(assets[0].groupInterfaces.value, nic, assets[0].groupRules.value, rule);
      }
      assert forall i :: 0 < i < |assets| ==> assets[i] == rest[i - 1];
      assert forall i :: 0 <= i < |rest| ==> rest[i] == assets[i + 1];
    }
  }

  lemma {:induction false} MachineRules(assets: seq<Asset>, nics: seq<string>, rule: Rule)
    ensures rule in RulesForAll(assets, nics) <==> exists nic :: nic in nics && Reaches(assets, nic, rule)
  {
    hide Reaches;
    if nics != [] {
      RuleReaches(assets, nics[0], rule);
      MachineRules(assets, nics[1..], rule);
      assert nics == [nics[0]] + nics[1..];
    }
  }

  /** A group's rules for an interface, if it is a group that can be decoded. */
  lemma GroupRulesMean(a: Asset, nic: string)
    ensures GroupRulesFor(a, nic) ==
            if a.kind.SecurityGroup? && a.groupInterfaces.Some? && a.groupRules.Some?
            then Times(a.groupRules.value, Mentions(a.groupInterfaces.value, nic)) else []
  {
    hide RulesPerMention, Times, Mentions;
    if a.kind.SecurityGroup? && Decodable(a) {
      MentionsCount(a.groupInterfaces.value, nic, a.groupRules.value);
    }
  }

  /** How often an interface is mentioned: its multiplicity in the list. */
  lemma {:induction false} MentionsMean(interfaces: seq<string>, nic: string)
    ensures Mentions(interfaces, nic) == multiset(interfaces)[nic]
  {
    if interfaces != [] {
      MentionsMean(interfaces[1..], nic);
      assert interfaces == [interfaces[0]] + interfaces[1..];
    }
  }

  function RulesByAsset(assets: seq<Asset>, nic: string): (r: seq<seq<Rule>>) {
    seq(|assets|, i requires 0 <= i < |assets| => GroupRulesFor(assets[i], nic))
  }

  /** An interface's rules: the groups' in asset order. */
  lemma {:induction false} RulesInOrder(assets: seq<Asset>, nic: string)
    ensures RulesFor(assets, nic) == Concat(RulesByAsset(assets, nic))
  {
    hide GroupRulesFor;
    if assets != [] {
      RulesInOrder(assets[1..], nic);
      assert RulesByAsset(assets, nic) == [GroupRulesFor(assets[0], nic)] + RulesByAsset(assets[1..], nic);
    }
  }

  function RulesByInterface(assets: seq<Asset>, nics: seq<string>): (r: seq<seq<Rule>>) {
    seq(|nics|, i requires 0 <= i < |nics| => Concat(RulesByAsset(assets, nics[i])))
  }

  /** A machine's rules: those of its interfaces in order, and of each in asset order. */
  lemma {:induction false} MachineRulesInOrder(assets: seq<Asset>, nics: seq<string>)
    ensures RulesForAll(assets, nics) == Concat(RulesByInterface(assets, nics))
  {
    hide RulesByAsset, RulesFor;
    if nics != [] {
      MachineRulesInOrder(assets, nics[1..]);
      RulesInOrder(assets, nics[0]);
      assert RulesByInterface(assets, nics)
          == [Concat(RulesByAsset(assets, nics[0]))] + RulesByInterface(assets, nics[1..]);
    }
  }

  /** For each asset from number `from` on, in order: its number if it is bad. */
  function Flagged(assets: seq<Asset>, from: nat, bad: Asset -> bool): (r: seq<seq<nat>>)
    requires from <= |assets|
  {
    seq(|assets| - from, i requires 0 <= i < |assets| - from => if bad(assets[from + i]) then [from + i] else [])
  }

  lemma FlaggedStep(assets: seq<Asset>, from: nat, bad: Asset -> bool)
    requires from < |assets|
    ensures Concat(Flagged(assets, from, bad))
         == (if bad(assets[from]) then [from] else []) + Concat(Flagged(assets, from + 1, bad))
  {
    var first := if bad(assets[from]) then [from] else [];
    assert Flagged(assets, from, bad) == [first] + Flagged(assets, from + 1, bad);
  }

  function BadGroup(): Asset -> bool {
    (a: Asset) => a.kind.SecurityGroup? && (a.groupInterfaces.None? || a.groupRules.None?)
  }

  function BadMachine(): Asset -> bool { (a: Asset) => a.kind.VirtualMachine? && a.profile.None? }

  /** The errors: the numbers of the groups, and of the machines, that cannot be decoded, once each and in
      order. */
  lemma {:induction false} ErrorsMean(assets: seq<Asset>, from: nat)
    requires from <= |assets|
    ensures BadGroups(assets, from) == Concat(Flagged(assets, from, BadGroup()))
    ensures BadMachines(assets, from) == Concat(Flagged(assets, from, BadMachine()))
    decreases |assets| - from
  {
    hide BadGroups, BadMachines, Flagged;
    BadGroupsStep(assets, from);
    BadMachinesStep(assets, from);
    if from < |assets| {
      ErrorsMean(assets, from + 1);
      FlaggedStep(assets, from, BadGroup());
      FlaggedStep(assets, from, BadMachine());
    } else {
      NothingFlagged(assets);
    }
  }

  lemma NothingFlagged(assets: seq<Asset>)
    ensures Concat(Flagged(assets, |assets|, BadGroup())) == [] && Concat(Flagged(assets, |assets|, BadMachine())) == []
  {
  }
}
