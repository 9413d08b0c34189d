/** What every step of the scan pipeline keeps. */
module ScanInvariants {
  import opened ScanModel
  import opened Publishing
  import opened ScanPipeline

  // --- control: channels, wait group, mailbox ---

  /** Number of stages the worker has started. */
  function Started(w: Worker): int {
    match w
    case Checking => 0
    case Refused => 0
    case Starting(n) => n
    case _ => 5
  }

  /** The worker is past `wg.Wait`. */
  predicate PastWait(w: Worker) {
    w.Cleaning? || w.Deleting? || w.ClosingMailbox? || w.Finished?
  }

  function CountAlive(ps: seq<Proc>): (n: nat) {
    if ps == [] then 0 else (if Alive(ps[0]) then 1 else 0) + CountAlive(ps[1..])
  }

  /** A channel is closed once, after its sender has left its loop. */
  ghost predicate ProcOk(c: Script, at: Stage, p: Proc, started: bool) {
    && (p.pc.Idle? <==> !started)
    && p.closes == (if p.pc.Shut? || p.pc.Gone? then 1 else 0)
    && (p.pc.Sending? ==> p.pc.todo != [])
    && (p.pc.Idle? ==> p.sent == [])
    && (at == FETCHER ==> !p.pc.Receiving?)
    && (at == FETCHER && p.pc.Working? ==> p.pc.item == Begin && p.pc.tries <= 1)
    && (at == VERIFIER && p.pc.Working? ==> p.pc.tries <= |PollsOf(c, p.pc.item)|)
  }

  ghost predicate ControlInv(c: Script, s: State) {
    && (s.worker.Starting? ==> s.worker.n < 5)
    && (forall i: Stage :: ProcOk(c, i, s.procs[i], i < Started(s.worker)))
    && s.wg == CountAlive(s.procs)
    && (PastWait(s.worker) ==> s.wg == 0)
    && (s.worker.Refused? ==> s.cancelled)
  }

  /** A stage stops consuming early only if the context is cancelled. */
  ghost predicate ChainInv(s: State) {
    && (forall i: Stage :: i > 0 && Over(s.procs[i]) ==> s.cancelled || s.procs[i - 1].closes > 0)
    && (s.pubStopped ==> s.cancelled || s.procs[CREATOR].closes > 0)
  }

  /** The list of created snapshots moves from the replicator to the mailbox to the deletions. */
  ghost predicate MailInv(s: State) {
    && (s.put ==> s.procs[REPLICATOR].pc.Shut? || s.procs[REPLICATOR].pc.Gone?)
    && (s.procs[REPLICATOR].pc.Gone? ==> s.put)
    && s.mailboxCloses == (if s.worker.Finished? then 1 else 0)
    && match s.worker {
         case Deleting(left) => left != [] && s.mailbox == [] && s.deleted + left == s.made
         case ClosingMailbox => Settled(s)
         case Finished => Settled(s)
         case _ => s.deleted == [] && s.mailbox == (if s.put then [s.made] else [])
       }
  }

  /** The cleaner is done: either every created snapshot was deleted, once and in order, or the
      context was cancelled and the list was left where it was. */
  ghost predicate Settled(s: State) {
    || (s.mailbox == [] && s.deleted == s.made)
    || (s.cancelled && s.mailbox == [s.made] && s.deleted == [])
  }

  lemma {:induction false} CountAliveUpdate(ps: seq<Proc>, i: nat, p: Proc)
    requires i < |ps|
    ensures CountAlive(ps[i := p]) ==
            CountAlive(ps) - (if Alive(ps[i]) then 1 else 0) + (if Alive(p) then 1 else 0)
  {
    if i == 0 {
      assert ps[i := p][1..] == ps[1..];
    } else {
      CountAliveUpdate(ps[1..], i - 1, p);
      assert ps[i := p][1..] == ps[1..][i - 1 := p];
    }
  }

  lemma {:induction false} CountAliveNone(ps: seq<Proc>, i: nat)
    requires i < |ps| && CountAlive(ps) == 0
    ensures !Alive(ps[i])
  {
    if i > 0 {
      CountAliveNone(ps[1..], i - 1);
    }
  }

  ghost predicate CoreInv(c: Script, s: State) {
    ControlInv(c, s) && ChainInv(s) && MailInv(s)
  }

  /** A stage that is alive before and after may change its control as long as its channel stays
      closed once closed, it leaves its loop only for a reason, and it does not reopen the mail. */
  lemma MoveKeepsCore(c: Script, s: State, at: Stage, p: Proc)
    requires CoreInv(c, s) && Alive(s.procs[at]) && Alive(p)
    requires ProcOk(c, at, p, at < Started(s.worker))
    requires s.procs[at].closes <= p.closes
    requires Over(p) && !Over(s.procs[at]) ==> s.cancelled || at == FETCHER || s.procs[at - 1].closes > 0
    requires at == REPLICATOR && s.put ==> p.pc.Shut?
    ensures CoreInv(c, s.(procs := s.procs[at := p]))
  {
    CountAliveUpdate(s.procs, at, p);
    if PastWait(s.worker) {
      CountAliveNone(s.procs, at);
    }
  }

  lemma SendHeadKeepsCore(c: Script, s: State, at: Stage)
    requires CoreInv(c, s) && CanSend(s.procs[at])
    ensures CoreInv(c, SendHead(s, at))
  {
    MoveKeepsCore(c, s, at, SendHead(s, at).procs[at]);
  }

  lemma TakeKeepsCore(c: Script, s: State, at: Stage, item: Item)
    requires CoreInv(c, s) && s.procs[at].pc.Receiving?
    ensures CoreInv(c, Goto(s, at, Working(item, 0)))
  {
    MoveKeepsCore(c, s, at, s.procs[at].(pc := Working(item, 0)));
  }

  lemma OfferKeepsCore(c: Script, s: State, at: Stage, todo: seq<Item>)
    requires CoreInv(c, s) && s.procs[at].pc.Working?
    ensures CoreInv(c, Goto(s, at, Offer(at, todo)))
  {
    MoveKeepsCore(c, s, at, s.procs[at].(pc := Offer(at, todo)));
  }

  lemma BookKeepsCore(c: Script, s: State, book: Book<Event>)
    requires CoreInv(c, s)
    ensures CoreInv(c, s.(book := book))
  {
  }

  /** Stepping out of a loop is covered by a reason; stepping back into it needs none. */
  lemma GotoKeepsCore(c: Script, s: State, at: Stage, pc: Control)
    requires CoreInv(c, s) && (s.procs[at].pc.Receiving? || s.procs[at].pc.Working? || s.procs[at].pc.Sending?)
    requires pc.Receiving? ==> at != FETCHER
    requires pc.Leaving? ==> s.cancelled || at == FETCHER || s.procs[at - 1].closes > 0
    requires pc.Working? ==> ProcOk(c, at, s.procs[at].(pc := pc), true)
    requires pc.Receiving? || pc.Leaving? || pc.Working?
    ensures CoreInv(c, Goto(s, at, pc))
  {
    MoveKeepsCore(c, s, at, s.procs[at].(pc := pc));
  }

  lemma CloseKeepsCore(c: Script, s: State, at: Stage)
    requires CoreInv(c, s) && s.procs[at].pc.Leaving?
    ensures CoreInv(c, CloseChannel(s, at))
  {
    MoveKeepsCore(c, s, at, Proc(Shut, s.procs[at].closes + 1, s.procs[at].sent));
  }

  lemma LaunchKeepsCore(c: Script, s: State)
    requires CoreInv(c, s) && s.worker.Starting?
    ensures CoreInv(c, Launched(s, s.worker.n))
  {
    CountAliveUpdate(s.procs, s.worker.n, Launched(s, s.worker.n).procs[s.worker.n]);
  }

  lemma ExitKeepsCore(c: Script, s: State, at: Stage)
    requires CoreInv(c, s) && s.procs[at].pc.Shut? && (at == REPLICATOR ==> s.put)
    ensures CoreInv(c, Goto(s, at, Gone).(wg := s.wg - 1))
  {
    CountAliveUpdate(s.procs, at, s.procs[at].(pc := Gone));
    if PastWait(s.worker) {
      CountAliveNone(s.procs, at);
    }
  }

  lemma MailKeepsCore(c: Script, s: State, step: Step)
    requires CoreInv(c, s) && Enabled(c, s, step)
    requires step.CleanCancelled? || step.CleanReceive? || step.PutList?
    ensures CoreInv(c, Apply(c, s, step))
  {
    hide PollsOf, CountAlive;
    if PastWait(s.worker) {
      CountAliveNone(s.procs, REPLICATOR);
    }
  }

  /** Steps of the worker past its wait: only the mail has to be looked at. */
  lemma CleanerKeepsCore(c: Script, s: State, t: State)
    requires CoreInv(c, s) && PastWait(s.worker) && PastWait(t.worker) && MailInv(t)
    requires t.procs == s.procs && t.wg == s.wg && t.cancelled == s.cancelled && t.pubStopped == s.pubStopped
    ensures CoreInv(c, t)
  {
    hide ProcOk, CountAlive, MailInv;
    assert Started(s.worker) == Started(t.worker);
  }

  /** One entry moves from those left to those deleted. */
  lemma MoveHead(deleted: seq<Job<Snapshot>>, left: seq<Job<Snapshot>>)
    requires left != []
    ensures (deleted + [left[0]]) + left[1..] == deleted + left
    ensures left[1..] == [] ==> deleted + [left[0]] == deleted + left
  {
    assert left == [left[0]] + left[1..];
  }

  lemma DeleteKeepsMail(c: Script, s: State)
    requires MailInv(s) && Enabled(c, s, Delete)
    ensures MailInv(Apply(c, s, Delete))
  {
    MoveHead(s.deleted, s.worker.left);
  }

  lemma CloseMailboxKeepsMail(c: Script, s: State)
    requires MailInv(s) && Enabled(c, s, CloseMailbox)
    ensures MailInv(Apply(c, s, CloseMailbox))
  {
  }

  lemma DeleteKeepsCore(c: Script, s: State, step: Step)
    requires CoreInv(c, s) && Enabled(c, s, step) && (step.Delete? || step.CloseMailbox?)
    ensures CoreInv(c, Apply(c, s, step))
  {
    hide ControlInv, ChainInv, MailInv;
    if step.Delete? {
      DeleteKeepsMail(c, s);
    } else {
      CloseMailboxKeepsMail(c, s);
    }
    CleanerKeepsCore(c, s, Apply(c, s, step));
  }

  lemma GateKeepsCore(c: Script, s: State, step: Step)
    requires CoreInv(c, s) && Enabled(c, s, step) && (step.Check? || step.Wait?)
    ensures CoreInv(c, Apply(c, s, step))
  {
    hide PollsOf, CountAlive;
  }

  lemma SideKeepsCore(c: Script, s: State, step: Step)
    requires CoreInv(c, s) && Enabled(c, s, step)
    requires step.Cancel? || step.Tick? || step.PublisherClosed? || step.PublisherCancelled?
    ensures CoreInv(c, Apply(c, s, step))
  {
    hide CountAlive, PollsOf, Flush;
  }

  lemma WorkKeepsCore(c: Script, s: State, at: Stage)
    requires CoreInv(c, s) && Enabled(c, s, Work(at))
    ensures CoreInv(c, Apply(c, s, Work(at)))
  {
    OfferKeepsCore(c, s, at, Images(c, at, s.procs[at].pc.item));
    if PastWait(s.worker) {
      CountAliveNone(s.procs, at);
    }
  }

  lemma DescribeKeepsCore(c: Script, s: State)
    requires CoreInv(c, s) && Enabled(c, s, Describe)
    ensures CoreInv(c, Apply(c, s, Describe))
  {
    GotoKeepsCore(c, s, FETCHER, Apply(c, s, Describe).procs[FETCHER].pc);
  }

  lemma PollKeepsCore(c: Script, s: State)
    requires CoreInv(c, s) && Enabled(c, s, Poll)
    ensures CoreInv(c, Apply(c, s, Poll))
  {
    var pc := Apply(c, s, Poll).procs[VERIFIER].pc;
    if pc.Working? {
      GotoKeepsCore(c, s, VERIFIER, pc);
    } else {
      var answer := PollsOf(c, s.procs[VERIFIER].pc.item)[s.procs[VERIFIER].pc.tries];
      OfferKeepsCore(c, s, VERIFIER, Snapshots(Children(s.procs[VERIFIER].pc.item.snapshot, answer.value)));
    }
  }

  lemma StepKeepsCore(c: Script, s: State, step: Step)
    requires CoreInv(c, s) && Enabled(c, s, step)
    ensures CoreInv(c, Apply(c, s, step))
  {
    hide CoreInv, Images, Verified;
    match step
    case Launch => LaunchKeepsCore(c, s);
    case Exit(at) => ExitKeepsCore(c, s, at);
    case Deliver(at) =>
      SendHeadKeepsCore(c, s, at);
      if at == CREATOR {
        BookKeepsCore(c, SendHead(s, at), Apply(c, s, step).book);
      } else {
        TakeKeepsCore(c, SendHead(s, at), at + 1, s.procs[at].pc.todo[0]);
      }
    case Describe => DescribeKeepsCore(c, s);
    case Work(at) => WorkKeepsCore(c, s, at);
    case Poll => PollKeepsCore(c, s);
    case PollTimeout => GotoKeepsCore(c, s, VERIFIER, Receiving);
    case PollCancelled => GotoKeepsCore(c, s, VERIFIER, Receiving);
    case Abandon(at) => GotoKeepsCore(c, s, at, AfterAbandon(at));
    case LeaveCancelled(at) => GotoKeepsCore(c, s, at, Leaving);
    case LeaveClosed(at) => GotoKeepsCore(c, s, at, Leaving);
    case Close(at) => CloseKeepsCore(c, s, at);
    case CleanCancelled => MailKeepsCore(c, s, step);
    case CleanReceive => MailKeepsCore(c, s, step);
    case PutList => MailKeepsCore(c, s, step);
    case Delete => DeleteKeepsCore(c, s, step);
    case CloseMailbox => DeleteKeepsCore(c, s, step);
    case Check => GateKeepsCore(c, s, step);
    case Wait => GateKeepsCore(c, s, step);
    case _ => SideKeepsCore(c, s, step);
  }
}
