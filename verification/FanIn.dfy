/** The per-account forwarders of an AWS organization (resources/fetching/preset/aws_org_preset.go):
    each passes what its account's fetchers send to the one root channel, with the account's identity
    stamped on it. */
module FanIn {
  import opened Sequences
  import opened CloudIdentity

  datatype Metadata = Metadata(
    id: string,
    accountId: string,
    accountName: string,
    organisationId: string,
    organizationName: string)

  /** A resource, reduced to what `GetMetadata` gives (`None` is an error) and its data. */
  datatype Resource = Resource(metadata: Option<Metadata>, data: string)

  datatype ResourceInfo = ResourceInfo(resource: Resource, sequence: int)

  /** The wrapper: metadata with the account's identity, an error passed on, data untouched. */
  function Wrapped(resource: Resource, identity: Identity): (r: Resource) {
    if resource.metadata.None? then resource
    else resource.(metadata := Some(resource.metadata.value.(
      accountName := identity.alias,
      accountId := identity.account,
      organisationId := identity.organizationId,
      organizationName := identity.organizationName)))
  }

  function Stamp(info: ResourceInfo, identity: Identity): (r: ResourceInfo) {
    ResourceInfo(Wrapped(info.resource, identity), info.sequence)
  }

  function StampAll(infos: seq<ResourceInfo>, identity: Identity): (r: seq<ResourceInfo>) {
    seq(|infos|, i requires 0 <= i < |infos| => Stamp(infos[i], identity))
  }

  datatype Control = Receiving | Sending(info: ResourceInfo) | Returned

  /** A forwarder, with everything it has received on its account's channel. */
  datatype Forwarder = Forwarder(identity: Identity, pc: Control, received: seq<ResourceInfo>)

  /** The root channel as the sequence of everything sent on it, with the sender. */
  datatype Message = Message(from: nat, info: ResourceInfo)

  datatype State = State(cancelled: bool, forwarders: seq<Forwarder>, root: seq<Message>)

  datatype Step =
    | Cancel
    | Receive(i: nat, info: ResourceInfo)   // a fetcher of account i sends
    | ChannelClosed(i: nat)
    | Forward(i: nat)
    | Leave(i: nat)                         // either select takes ctx.Done

  function Init(identities: seq<Identity>): (s: State) {
    State(false, seq(|identities|, i requires 0 <= i < |identities| => Forwarder(identities[i], Receiving, [])), [])
  }

  predicate Enabled(s: State, step: Step) {
    match step
    case Cancel => true
    case Receive(i, _) => i < |s.forwarders| && s.forwarders[i].pc.Receiving?
    case ChannelClosed(i) => i < |s.forwarders| && s.forwarders[i].pc.Receiving?
    case Forward(i) => i < |s.forwarders| && s.forwarders[i].pc.Sending?
    case Leave(i) => i < |s.forwarders| && !s.forwarders[i].pc.Returned? && s.cancelled
  }

  function Goto(s: State, i: nat, f: Forwarder): State
    requires i < |s.forwarders|
  {
    s.(forwarders := s.forwarders[i := f])
  }

  function Apply(s: State, step: Step): (r: State)
    requires Enabled(s, step)
  {
    match step
    case Cancel => s.(cancelled := true)
    case Receive(i, info) =>
      var f := s.forwarders[i];
      Goto(s, i, Forwarder(f.identity, Sending(Stamp(info, f.identity)), f.received + [info]))
    case ChannelClosed(i) => Goto(s, i, s.forwarders[i].(pc := Returned))
    case Forward(i) =>
      Goto(s, i, s.forwarders[i].(pc := Receiving)).(root := s.root + [Message(i, s.forwarders[i].pc.info)])
    case Leave(i) => Goto(s, i, s.forwarders[i].(pc := Returned))
  }

  function After(identities: seq<Identity>, steps: seq<Step>): (r: Option<State>) {
    if steps == [] then Some(Init(identities))
    else
      var before := After(identities, steps[..|steps| - 1]);
      if before.Some? && Enabled(before.value, steps[|steps| - 1])
      then Some(Apply(before.value, steps[|steps| - 1])) else None
  }

  /** What one forwarder has put on the root channel. */
  function From(root: seq<Message>, i: nat): (r: seq<ResourceInfo>) {
    if root == [] then []
    else From(root[..|root| - 1], i) + (if root[|root| - 1].from == i then [root[|root| - 1].info] else [])
  }

  /** Sent and in hand are what was received, stamped; only a forwarder that has returned may have
      dropped its last item. */
  ghost predicate ForwarderInv(s: State, i: nat, identity: Identity) {
    i < |s.forwarders| &&
    var f := s.forwarders[i];
    var stamped := StampAll(f.received, identity);
    && f.identity == identity
    && match f.pc {
         case Receiving => From(s.root, i) == stamped
         case Sending(info) => From(s.root, i) + [info] == stamped
         case Returned => From(s.root, i) <= stamped && |stamped| <= |From(s.root, i)| + 1
       }
  }

  lemma StampAllSnoc(infos: seq<ResourceInfo>, info: ResourceInfo, identity: Identity)
    ensures StampAll(infos + [info], identity) == StampAll(infos, identity) + [Stamp(info, identity)]
  {
  }

  lemma FromSnoc(root: seq<Message>, message: Message, i: nat)
    ensures From(root + [message], i) == From(root, i) + (if message.from == i then [message.info] else [])
  {
    assert (root + [message])[..|root|] == root;
  }

  lemma StepKeepsForwarder(s: State, step: Step, i: nat, identity: Identity)
    requires ForwarderInv(s, i, identity) && Enabled(s, step)
    ensures ForwarderInv(Apply(s, step), i, identity)
  {
    hide From, StampAll, Stamp;
    match step
    case Receive(j, info) => StampAllSnoc(s.forwarders[i].received, info, identity);
    case Forward(j) => FromSnoc(s.root, Message(j, s.forwarders[j].pc.info), i);
    case _ =>
  }

  /** What is forwarded for a resource: the same resource in the same cycle, with the account's identity
      in its metadata, or its error as it is. */
  ghost predicate ForwardedAs(info: ResourceInfo, of: ResourceInfo, identity: Identity) {
    && info.sequence == of.sequence
    && info.resource.data == of.resource.data
    && match of.resource.metadata {
         case None => info.resource.metadata == None
         case Some(m) =>
           info.resource.metadata == Some(
             Metadata(m.id, identity.account, identity.alias, identity.organizationId, identity.organizationName))
       }
  }

  lemma {:induction false} PrefixKept(identities: seq<Identity>, steps: seq<Step>, i: nat)
    requires After(identities, steps).Some? && i < |identities|
    ensures ForwarderInv(After(identities, steps).value, i, identities[i])
  {
    if steps != [] {
      PrefixKept(identities, steps[..|steps| - 1], i);
      StepKeepsForwarder(After(identities, steps[..|steps| - 1]).value, steps[|steps| - 1], i, identities[i]);
    } else {
      assert From([], i) == [];
    }
  }

  /** In every run, for every account: what has reached the root channel from it is a prefix of what
      its fetchers have sent, each stamped with that account's identity and with its cycle kept; and
      at most the last one is missing. */
  lemma PrefixPerAccount(identities: seq<Identity>, steps: seq<Step>, i: nat)
    requires After(identities, steps).Some? && i < |identities|
    ensures var s := After(identities, steps).value;
            && i < |s.forwarders|
            && var sent, received := From(s.root, i), ReceivedBy(steps, i);
            && |sent| <= |received| <= |sent| + 1
            && forall k :: 0 <= k < |sent| ==> ForwardedAs(sent[k], received[k], identities[i])
  {
    hide After, From, ReceivedBy, ForwardedAs;
    PrefixKept(identities, steps, i);
    HistoryMeans(identities, steps, i);
    var s := After(identities, steps).value;
    var sent, received := From(s.root, i), s.forwarders[i].received;
    forall k | 0 <= k < |sent| ensures ForwardedAs(sent[k], received[k], identities[i]) {
      StampMeans(received[k], identities[i]);
      assert sent[k] == StampAll(received, identities[i])[k];
    }
  }

  lemma StampMeans(info: ResourceInfo, identity: Identity)
    ensures ForwardedAs(Stamp(info, identity), info, identity)
  {
  }

  /** What the fetchers of account `i` send in a run. */
  function ReceivedBy(steps: seq<Step>, i: nat): (r: seq<ResourceInfo>) {
    if steps == [] then []
    else
      var last := steps[|steps| - 1];
      ReceivedBy(steps[..|steps| - 1], i) + (if last.Receive? && last.i == i then [last.info] else [])
  }

  lemma ReceivedNow(s: State, step: Step, i: nat)
    requires Enabled(s, step) && i < |s.forwarders|
    ensures i < |Apply(s, step).forwarders|
    ensures Apply(s, step).forwarders[i].received
         == s.forwarders[i].received + (if step.Receive? && step.i == i then [step.info] else [])
  {
  }

  /** What a forwarder has received is what its account's fetchers have sent. */
  lemma {:induction false} HistoryMeans(identities: seq<Identity>, steps: seq<Step>, i: nat)
    requires After(identities, steps).Some? && i < |identities|
    ensures var s := After(identities, steps).value;
            i < |s.forwarders| && s.forwarders[i].received == ReceivedBy(steps, i)
  {
    if steps != [] {
      hide Enabled, Apply;
      var init, last := steps[..|steps| - 1], steps[|steps| - 1];
      HistoryMeans(identities, init, i);
      ReceivedNow(After(identities, init).value, last, i);
    }
  }
}
