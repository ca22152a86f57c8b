/** Starting, stopping and draining: the goroutines of a client as interleaved steps.

Each successful Start opens a session with its own contexts, heartbeat loop and completer. The three wait
groups and the completer field belong to the client and are shared by all sessions, so that sessions do
not overlap is something to prove.
*/
module Drain {

  datatype Session = Session(n: nat)
  datatype Loop = Dispatcher | Mover | Rescuer | Cleaner
  datatype Fetcher = Fetcher(session: Session, loop: Loop)
  datatype Ticket = Ticket(n: nat)

  /** The loops that Stop waits for first: those that have not returned, their wait group, and the
      sessions whose fetch context is cancelled. */
  datatype Fetching = Fetching(loops: set<Fetcher>, wg: int, cancelled: set<Session>)

  /** The same for the heartbeat loops. */
  datatype Living = Living(loops: set<Session>, wg: int, cancelled: set<Session>)

  /** Where the goroutine of a counted job is. Inside runJob it holds the completer it read on entry;
      pushing the outcome is the last thing it does there. */
  datatype Job = Spawned | Working(completer: Session) | Returned

  /** Claimed jobs: those still in a dispatcher's hands, and those that jobWg counts. */
  datatype InFlight = InFlight(held: map<Ticket, Session>, counted: map<Ticket, Job>, wg: int)

  /** The completers whose channel is closed, and those whose loop has returned. */
  datatype Channels = Channels(closed: set<Session>, done: set<Session>)

  /** Where Stop and the goroutine it spawns are. */
  datatype Phase = CancelFetch | WaitFetch | WaitJobs | CancelLive | WaitLive | CloseChannel | AwaitLoop | Settle

  datatype Draining = Idle | At(session: Session, phase: Phase)

  datatype Client = Client(
    started: bool, stopping: bool, fake: bool,
    session: Session,       // the session whose completer the client's field holds
    fetch: Fetching, live: Living, jobs: InFlight, channels: Channels,
    drain: Draining)

  function NewClient(): Client {
    Client(false, false, false, Session(0), Fetching({}, 0, {}), Living({}, 0, {}), InFlight(map[], map[], 0),
           Channels({Session(0)}, {}), Idle)
  }

  datatype Label =
    | StartCall | StopCall | FakeCall
    | ParentCancelled(session: Session)
    | Claims(session: Session, t: Ticket)
    | Counts(t: Ticket)
    | Begins(t: Ticket)
    | Pushes(t: Ticket, completer: Session)
    | Returns(t: Ticket)
    | Leaves(t: Ticket)
    | FetcherExits(f: Fetcher)
    | HeartbeatExits(session: Session)
    | LoopEnds(session: Session)
    | DrainMoves

  function LoopsOf(s: Session): set<Fetcher> {
    {Fetcher(s, Dispatcher), Fetcher(s, Mover), Fetcher(s, Rescuer), Fetcher(s, Cleaner)}
  }

  /** Start refuses a client that is started, stopping or fake-driven. */
  function Started(c: Client): Client {
    if c.started || c.stopping || c.fake then c
    else
      var s := Session(c.session.n + 1);
      c.(started := true, session := s,
         fetch := c.fetch.(loops := c.fetch.loops + LoopsOf(s), wg := c.fetch.wg + 4),
         live := c.live.(loops := c.live.loops + {s}, wg := c.live.wg + 1))
  }

  function Stopped(c: Client): Client {
    if !c.started then c else c.(started := false, stopping := true, drain := At(c.session, CancelFetch))
  }

  function Faked(c: Client): Client {
    if c.started || c.stopping then c else c.(fake := true)
  }

  /** What the next statement of Stop, or of the goroutine it spawned, waits for. */
  predicate MayMove(c: Client) {
    && c.drain.At?
    && (c.drain.phase == WaitFetch ==> c.fetch.wg == 0)
    && (c.drain.phase == WaitJobs ==> c.jobs.wg == 0)
    && (c.drain.phase == WaitLive ==> c.live.wg == 0)
    && (c.drain.phase == AwaitLoop ==> c.session in c.channels.done)
  }

  function Moved(c: Client): Client
    requires c.drain.At?
  {
    var s := c.drain.session;
    match c.drain.phase
    case CancelFetch => c.(fetch := c.fetch.(cancelled := c.fetch.cancelled + {s}), drain := At(s, WaitFetch))
    case WaitFetch => c.(drain := At(s, WaitJobs))
    case WaitJobs => c.(drain := At(s, CancelLive))
    case CancelLive => c.(live := c.live.(cancelled := c.live.cancelled + {s}), drain := At(s, WaitLive))
    case WaitLive => c.(drain := At(s, CloseChannel))
    case CloseChannel =>
      c.(channels := c.channels.(closed := c.channels.closed + {c.session}), drain := At(s, AwaitLoop))
    case AwaitLoop => c.(drain := At(s, Settle))
    case Settle => c.(stopping := false, drain := Idle)
  }

  /** A call of Start, Stop or Fake, or the next statement of Stop. */
  predicate Controls(c: Client, l: Label, c': Client) {
    match l
    case StartCall => c' == Started(c)
    case StopCall => c' == Stopped(c)
    case FakeCall => c' == Faked(c)
    case DrainMoves => MayMove(c) && c' == Moved(c)
    case _ => false
  }

  /** The fetch context of a session is cancelled by the caller, or one of its loops returns, a
      dispatcher only between passes, with nothing in its hands. */
  ghost predicate FetchStep(c: Client, l: Label, next: Fetching) {
    match l
    case ParentCancelled(s) => next == c.fetch.(cancelled := c.fetch.cancelled + {s})
    case FetcherExits(f) =>
      && f in c.fetch.loops && f.session in c.fetch.cancelled
      && (f.loop == Dispatcher ==> forall t :: t in c.jobs.held ==> c.jobs.held[t] != f.session)
      && next == c.fetch.(loops := c.fetch.loops - {f}, wg := c.fetch.wg - 1)
    case _ => false
  }

  predicate LiveStep(c: Client, l: Label, next: Living) {
    && l.HeartbeatExits? && l.session in c.live.loops && l.session in c.live.cancelled
    && next == c.live.(loops := c.live.loops - {l.session}, wg := c.live.wg - 1)
  }

  /** A dispatcher claims a job and counts it; the job's goroutine runs it, pushes its outcome unless it
      was fenced, and leaves. */
  predicate JobStep(c: Client, l: Label, next: InFlight) {
    var j := c.jobs;
    match l
    case Claims(s, t) =>
      Fetcher(s, Dispatcher) in c.fetch.loops && t !in j.held && t !in j.counted && next == j.(held := j.held[t := s])
    case Counts(t) =>
      && t in j.held && Fetcher(j.held[t], Dispatcher) in c.fetch.loops && t !in j.counted
      && next == InFlight(j.held - {t}, j.counted[t := Spawned], j.wg + 1)
    case Begins(t) =>
      t in j.counted && j.counted[t] == Spawned && next == j.(counted := j.counted[t := Working(c.session)])
    case Pushes(t, cp) =>
      t in j.counted && j.counted[t] == Working(cp) && next == j.(counted := j.counted[t := Returned])
    case Returns(t) => t in j.counted && j.counted[t].Working? && next == j.(counted := j.counted[t := Returned])
    case Leaves(t) =>
      t in j.counted && j.counted[t] == Returned && next == InFlight(j.held, j.counted - {t}, j.wg - 1)
    case _ => false
  }

  predicate LoopStep(c: Client, l: Label, next: Channels) {
    && l.LoopEnds? && l.session in c.channels.closed && l.session !in c.channels.done
    && next == c.channels.(done := c.channels.done + {l.session})
  }

  ghost predicate Step(c: Client, l: Label, c': Client) {
    || Controls(c, l, c')
    || (FetchStep(c, l, c'.fetch) && c' == c.(fetch := c'.fetch))
    || (LiveStep(c, l, c'.live) && c' == c.(live := c'.live))
    || (JobStep(c, l, c'.jobs) && c' == c.(jobs := c'.jobs))
    || (LoopStep(c, l, c'.channels) && c' == c.(channels := c'.channels))
  }

  ghost predicate IsRun(cs: seq<Client>, ls: seq<Label>) {
    && |cs| == |ls| + 1
    && cs[0] == NewClient()
    && forall i :: 0 <= i < |ls| ==> StepAt(cs, ls, i)
  }

  ghost predicate StepAt(cs: seq<Client>, ls: seq<Label>, i: int) {
    0 <= i < |ls| < |cs| && Step(cs[i], ls[i], cs[i + 1])
  }

  // ---------- What every state satisfies ----------

  function Rank(p: Phase): (r: nat)
    ensures r <= 7
  {
    match p
    case CancelFetch => 0
    case WaitFetch => 1
    case WaitJobs => 2
    case CancelLive => 3
    case WaitLive => 4
    case CloseChannel => 5
    case AwaitLoop => 6
    case Settle => 7
  }

  /** How far the current session has got: -1 while started, then the phase of its drain, and 8 when it
      is over. */
  function Stage(c: Client): int {
    if c.started then -1 else if c.drain.At? then Rank(c.drain.phase) else 8
  }

  ghost predicate FlagsOk(c: Client) {
    && !(c.started && c.stopping) && !(c.started && c.fake) && !(c.stopping && c.fake)
    && (c.drain.At? <==> c.stopping)
    && (c.drain.At? ==> c.drain.session == c.session)
  }

  // Whatever is alive belongs to the current session, and is gone once its drain has waited for it.

  ghost predicate FetchersOk(stage: int, s: Session, f: Fetching) {
    && f.wg == |f.loops|
    && (forall x :: x in f.loops ==> x.session == s && stage <= 1)
    && (stage == 1 ==> s in f.cancelled)
  }

  ghost predicate HeldOk(s: Session, f: Fetching, j: InFlight) {
    forall t :: t in j.held ==> j.held[t] == s && Fetcher(s, Dispatcher) in f.loops && t !in j.counted
  }

  ghost predicate CountedOk(stage: int, s: Session, j: InFlight) {
    && j.wg == |j.counted.Keys|
    && (forall t :: t in j.counted ==> stage <= 2 && (j.counted[t].Working? ==> j.counted[t].completer == s))
  }

  ghost predicate HeartbeatOk(stage: int, s: Session, h: Living) {
    && h.wg == |h.loops|
    && (forall x :: x in h.loops ==> x == s && stage <= 4)
    && (forall x :: x in h.cancelled ==> x.n <= s.n)
    && (stage <= 3 ==> s in h.loops && s !in h.cancelled)
    && (stage == 4 ==> s in h.cancelled)
  }

  ghost predicate ChannelOk(stage: int, s: Session, ch: Channels) {
    && (forall x :: x in ch.closed ==> x.n <= s.n)
    && (s in ch.closed <==> 6 <= stage)
    && (forall x: Session :: x.n < s.n ==> x in ch.closed)
    && (forall x: Session :: 1 <= x.n < s.n ==> x in ch.done)
    && (7 <= stage && 1 <= s.n ==> s in ch.done)
  }

  ghost predicate Ok(c: Client) {
    && FlagsOk(c)
    && FetchersOk(Stage(c), c.session, c.fetch) && HeldOk(c.session, c.fetch, c.jobs)
    && CountedOk(Stage(c), c.session, c.jobs)
    && HeartbeatOk(Stage(c), c.session, c.live) && ChannelOk(Stage(c), c.session, c.channels)
  }

  lemma LoopsAdd(fs: set<Fetcher>, s: Session)
    requires forall f :: f in fs ==> f.session != s
    ensures |fs + LoopsOf(s)| == |fs| + 4
  {
    assert fs !! LoopsOf(s);
    assert |LoopsOf(s)| == 4;
  }

  /** The next session takes over the wait groups and the completer field of one that is over. */
  lemma FetchersRestart(s: Session, s': Session, f: Fetching, j: InFlight)
    requires FetchersOk(8, s, f) && HeldOk(s, f, j)
    ensures var f' := f.(loops := f.loops + LoopsOf(s'), wg := f.wg + 4);
      FetchersOk(-1, s', f') && HeldOk(s', f', j)
  {
    LoopsAdd(f.loops, s');
  }

  lemma OthersRestart(s: Session, s': Session, h: Living, j: InFlight, ch: Channels)
    requires s'.n == s.n + 1 && HeartbeatOk(8, s, h) && CountedOk(8, s, j) && ChannelOk(8, s, ch)
    ensures HeartbeatOk(-1, s', h.(loops := h.loops + {s'}, wg := h.wg + 1))
    ensures CountedOk(-1, s', j) && ChannelOk(-1, s', ch)
  {
  }

  lemma StartKeepsOk(c: Client)
    requires Ok(c)
    ensures Ok(Started(c))
  {
    if !c.started && !c.stopping && !c.fake {
      var s' := Session(c.session.n + 1);
      assert Stage(c) == 8 && Stage(Started(c)) == -1 && Started(c).session == s';
      FetchersRestart(c.session, s', c.fetch, c.jobs);
      OthersRestart(c.session, s', c.live, c.jobs, c.channels);
    }
  }

  lemma ControlKeepsOk(c: Client, l: Label, c': Client)
    requires Ok(c) && Controls(c, l, c')
    ensures Ok(c')
  {
    if l.StartCall? { StartKeepsOk(c); }
    if l.DrainMoves? { MoveKeepsOk(c); }
  }

  lemma MoveKeepsOk(c: Client)
    requires Ok(c) && MayMove(c)
    ensures Ok(Moved(c))
  {
  }

  lemma FetchKeepsOk(stage: int, c: Client, l: Label, next: Fetching)
    requires FetchersOk(stage, c.session, c.fetch) && HeldOk(c.session, c.fetch, c.jobs) && FetchStep(c, l, next)
    ensures FetchersOk(stage, c.session, next) && HeldOk(c.session, next, c.jobs)
  {
  }

  lemma JobKeepsOk(stage: int, c: Client, l: Label, next: InFlight)
    requires FetchersOk(stage, c.session, c.fetch) && HeldOk(c.session, c.fetch, c.jobs)
    requires CountedOk(stage, c.session, c.jobs) && JobStep(c, l, next)
    ensures HeldOk(c.session, c.fetch, next) && CountedOk(stage, c.session, next)
  {
    if l.Counts? {
      assert next.counted.Keys == c.jobs.counted.Keys + {l.t};
    } else if l.Leaves? {
      assert next.counted.Keys == c.jobs.counted.Keys - {l.t};
    } else {
      assert next.counted.Keys == c.jobs.counted.Keys;
    }
  }

  lemma StepKeepsOk(c: Client, l: Label, c': Client)
    requires Ok(c) && Step(c, l, c')
    ensures Ok(c')
  {
    if Controls(c, l, c') {
      ControlKeepsOk(c, l, c');
    } else if FetchStep(c, l, c'.fetch) {
      FetchKeepsOk(Stage(c), c, l, c'.fetch);
    } else if JobStep(c, l, c'.jobs) {
      JobKeepsOk(Stage(c), c, l, c'.jobs);
    }
  }

  lemma {:induction false} RunKeepsOk(cs: seq<Client>, ls: seq<Label>, i: nat)
    requires IsRun(cs, ls) && i < |cs|
    ensures Ok(cs[i])
  {
    if i > 0 {
      var j := i - 1;
      RunKeepsOk(cs, ls, j);
      StepTo(cs, ls, j, i);
      StepKeepsOk(cs[j], ls[j], cs[i]);
    }
  }

  lemma StepTo(cs: seq<Client>, ls: seq<Label>, j: nat, i: nat)
    requires IsRun(cs, ls) && i == j + 1 && i < |cs|
    ensures j < |ls| && Step(cs[j], ls[j], cs[i])
  {
    assert StepAt(cs, ls, j);
  }

  // ---------- What the protocol promises ----------

  /** A client is never two of started, stopping and fake-driven. */
  lemma NeverTwoAtOnce(cs: seq<Client>, ls: seq<Label>, i: nat)
    requires IsRun(cs, ls) && i < |cs|
    ensures !(cs[i].started && cs[i].stopping)
    ensures !(cs[i].started && cs[i].fake)
    ensures !(cs[i].stopping && cs[i].fake)
  {
    RunKeepsOk(cs, ls, i);
  }

  lemma {:induction false} ClosedForGood(cs: seq<Client>, ls: seq<Label>, i: nat, j: nat)
    requires IsRun(cs, ls) && i <= j < |cs|
    ensures cs[i].channels.closed <= cs[j].channels.closed
  {
    if i < j {
      ClosedForGood(cs, ls, i, j - 1);
      assert StepAt(cs, ls, j - 1);
    }
  }

  /** Nothing is pushed to a completer from the moment its channel is closed. */
  lemma NoPushAfterClose(cs: seq<Client>, ls: seq<Label>, i: nat, j: nat)
    requires IsRun(cs, ls) && i <= j < |ls| && ls[j].Pushes?
    ensures ls[j].completer !in cs[i].channels.closed
  {
    RunKeepsOk(cs, ls, j);
    assert StepAt(cs, ls, j);
    ClosedForGood(cs, ls, i, j);
    assert ls[j].t in cs[j].jobs.counted;
  }

  /** As long as any claimed job is in flight, counted or not yet, the heartbeat loop of its session is
      alive and not cancelled. */
  lemma HeartbeatOutlivesJobs(cs: seq<Client>, ls: seq<Label>, i: nat, t: Ticket)
    requires IsRun(cs, ls) && i < |cs| && (t in cs[i].jobs.held || t in cs[i].jobs.counted)
    ensures cs[i].session in cs[i].live.loops && cs[i].session !in cs[i].live.cancelled
    ensures t in cs[i].jobs.held ==> cs[i].jobs.held[t] == cs[i].session
  {
    RunKeepsOk(cs, ls, i);
  }

  /** Once a session is over nothing of it, or of any earlier one, is left: its channel is closed, and its
      completer's loop has emptied it and returned. */
  lemma OverMeansOver(c: Client)
    requires Ok(c) && Stage(c) == 8
    ensures c.fetch.loops == {} && c.live.loops == {}
    ensures c.jobs.held == map[] && c.jobs.counted == map[]
    ensures forall s: Session :: s.n <= c.session.n ==> s in c.channels.closed
    ensures forall s: Session :: 1 <= s.n <= c.session.n ==> s in c.channels.done
  {
    forall s: Session | s.n <= c.session.n
      ensures s in c.channels.closed && (1 <= s.n ==> s in c.channels.done)
    {
      if s.n == c.session.n { assert s == c.session; }
    }
  }

  /** So a session starts only when nothing is left of the earlier ones, and on a channel of its own. */
  lemma SessionsDoNotOverlap(cs: seq<Client>, ls: seq<Label>, i: nat)
    requires IsRun(cs, ls) && i < |ls| && ls[i].StartCall? && cs[i + 1] != cs[i]
    ensures cs[i].fetch.loops == {} && cs[i].live.loops == {}
    ensures cs[i].jobs.held == map[] && cs[i].jobs.counted == map[]
    ensures forall s: Session :: s.n <= cs[i].session.n ==> s in cs[i].channels.closed
    ensures forall s: Session :: 1 <= s.n <= cs[i].session.n ==> s in cs[i].channels.done
    ensures cs[i + 1].session !in cs[i].channels.closed
  {
    RunKeepsOk(cs, ls, i);
    assert StepAt(cs, ls, i);
    OverMeansOver(cs[i]);
  }

  // ---------- The drain comes to an end ----------

  /** A step by which something that is under way gets further; claims and calls are not. */
  predicate Progress(l: Label) {
    !(l.StartCall? || l.StopCall? || l.FakeCall? || l.ParentCancelled? || l.Claims?)
  }

  /** How many such steps can still be taken. */
  function Left(c: Client): nat {
    JobStepsLeft(c.jobs) + |c.fetch.loops| + |c.live.loops| + DrainLeft(c.channels, c.drain)
  }

  function DrainLeft(ch: Channels, d: Draining): nat {
    |ch.closed - ch.done| + if d.At? then 2 * (8 - Rank(d.phase)) else 0
  }

  function JobStepsLeft(j: InFlight): nat {
    4 * |j.held.Keys| + |j.counted.Keys| + |Unreturned(j)| + |Unbegun(j)|
  }

  function Unreturned(j: InFlight): set<Ticket> { set t | t in j.counted && j.counted[t] != Returned }

  function Unbegun(j: InFlight): set<Ticket> { set t | t in j.counted && j.counted[t] == Spawned }

  lemma CountingSpends(j: InFlight, t: Ticket)
    requires t in j.held && t !in j.counted
    ensures JobStepsLeft(InFlight(j.held - {t}, j.counted[t := Spawned], j.wg + 1)) < JobStepsLeft(j)
  {
    var next := InFlight(j.held - {t}, j.counted[t := Spawned], j.wg + 1);
    assert next.held.Keys == j.held.Keys - {t} && next.counted.Keys == j.counted.Keys + {t};
    assert Unreturned(next) == Unreturned(j) + {t};
    assert Unbegun(next) == Unbegun(j) + {t};
    OneMovesOn(j.held.Keys, j.counted.Keys, Unreturned(j), Unbegun(j), t);
  }

  lemma OneMovesOn(held: set<Ticket>, counted: set<Ticket>, unreturned: set<Ticket>, unbegun: set<Ticket>, t: Ticket)
    requires t in held && t !in counted && t !in unreturned && t !in unbegun
    ensures 4 * |held - {t}| + |counted + {t}| + |unreturned + {t}| + |unbegun + {t}|
      < 4 * |held| + |counted| + |unreturned| + |unbegun|
  {
  }

  lemma BeginningSpends(j: InFlight, t: Ticket, s: Session)
    requires t in j.counted && j.counted[t] == Spawned
    ensures JobStepsLeft(j.(counted := j.counted[t := Working(s)])) < JobStepsLeft(j)
  {
    var next := j.(counted := j.counted[t := Working(s)]);
    assert next.counted.Keys == j.counted.Keys;
    assert Unreturned(next) == Unreturned(j);
    assert Unbegun(next) == Unbegun(j) - {t};
  }

  lemma ReturningSpends(j: InFlight, t: Ticket)
    requires t in j.counted && j.counted[t].Working?
    ensures JobStepsLeft(j.(counted := j.counted[t := Returned])) < JobStepsLeft(j)
  {
    var next := j.(counted := j.counted[t := Returned]);
    assert next.counted.Keys == j.counted.Keys;
    assert Unreturned(next) == Unreturned(j) - {t};
    assert Unbegun(next) == Unbegun(j);
  }

  lemma LeavingSpends(j: InFlight, t: Ticket)
    requires t in j.counted && j.counted[t] == Returned
    ensures JobStepsLeft(InFlight(j.held, j.counted - {t}, j.wg - 1)) < JobStepsLeft(j)
  {
    var next := InFlight(j.held, j.counted - {t}, j.wg - 1);
    assert next.counted.Keys == j.counted.Keys - {t};
    assert Unreturned(next) == Unreturned(j);
    assert Unbegun(next) == Unbegun(j);
  }

  lemma JobStepsSpend(c: Client, l: Label, next: InFlight)
    requires JobStep(c, l, next) && !l.Claims?
    ensures JobStepsLeft(next) < JobStepsLeft(c.jobs)
  {
    if l.Counts? { CountingSpends(c.jobs, l.t); }
    else if l.Begins? { BeginningSpends(c.jobs, l.t, c.session); }
    else if l.Leaves? { LeavingSpends(c.jobs, l.t); }
    else { ReturningSpends(c.jobs, l.t); }
  }

  lemma MoveSpends(c: Client)
    requires c.drain.At?
    ensures DrainLeft(Moved(c).channels, Moved(c).drain) < DrainLeft(c.channels, c.drain)
  {
    if c.drain.phase == CloseChannel { CloseSpends(c); }
  }

  lemma CloseSpends(c: Client)
    requires c.drain.At? && c.drain.phase == CloseChannel
    ensures DrainLeft(Moved(c).channels, Moved(c).drain) < DrainLeft(c.channels, c.drain)
  {
    var next := Moved(c);
    ClosingAddsOne(c.channels, c.session);
    assert next.channels.closed == c.channels.closed + {c.session} && next.channels.done == c.channels.done;
  }

  lemma MoveKeepsTheRest(c: Client)
    requires c.drain.At?
    ensures Moved(c).jobs == c.jobs && Moved(c).fetch.loops == c.fetch.loops && Moved(c).live.loops == c.live.loops
  {
  }

  lemma MovingSpends(c: Client, c': Client)
    requires c'.jobs == c.jobs && c'.fetch.loops == c.fetch.loops && c'.live.loops == c.live.loops
    requires DrainLeft(c'.channels, c'.drain) < DrainLeft(c.channels, c.drain)
    ensures Left(c') < Left(c)
  {
  }

  lemma LoopsSpend(c: Client, l: Label, c': Client)
    requires
      || (FetchStep(c, l, c'.fetch) && c' == c.(fetch := c'.fetch))
      || (LiveStep(c, l, c'.live) && c' == c.(live := c'.live))
    requires Progress(l)
    ensures Left(c') < Left(c)
  {
  }

  lemma ProgressSpends(c: Client, l: Label, c': Client)
    requires Step(c, l, c') && Progress(l)
    ensures Left(c') < Left(c)
  {
    if l.DrainMoves? {
      MoveSpends(c);
      MoveKeepsTheRest(c);
      MovingSpends(c, c');
    } else if l.FetcherExits? || l.HeartbeatExits? {
      LoopsSpend(c, l, c');
    } else if l.LoopEnds? {
      assert c'.channels.closed - c'.channels.done == (c.channels.closed - c.channels.done) - {l.session};
    } else {
      JobStepsSpend(c, l, c'.jobs);
    }
  }

  lemma ClosingAddsOne(ch: Channels, s: Session)
    ensures |(ch.closed + {s}) - ch.done| <= |ch.closed - ch.done| + 1
  {
    if s in ch.done || s in ch.closed {
      assert (ch.closed + {s}) - ch.done == ch.closed - ch.done;
    } else {
      assert (ch.closed + {s}) - ch.done == (ch.closed - ch.done) + {s};
    }
  }

  /** Steps of progress, one after the other. */
  ghost predicate IsPath(cs: seq<Client>, ls: seq<Label>) {
    && |cs| == |ls| + 1
    && forall i :: 0 <= i < |ls| ==> StepAt(cs, ls, i) && Progress(ls[i])
  }

  /** However they are interleaved, only so many can be taken. */
  lemma {:induction false} ProgressIsBounded(cs: seq<Client>, ls: seq<Label>)
    requires IsPath(cs, ls)
    ensures |ls| + Left(cs[|ls|]) <= Left(cs[0])
  {
    if ls != [] {
      var n := |ls| - 1;
      forall i | 0 <= i < n ensures StepAt(cs[..n + 1], ls[..n], i) && Progress(ls[..n][i]) {
        assert StepAt(cs, ls, i);
      }
      ProgressIsBounded(cs[..n + 1], ls[..n]);
      assert StepAt(cs, ls, n);
      ProgressSpends(cs[n], ls[n], cs[n + 1]);
    }
  }

  /** So when the dispatchers claim nothing more, whatever gets further brings the client closer to
      being stopped, and it can get no further only when it is: the stop always completes, and then nothing of
      the session is left. */
  lemma DrainEnds(cs: seq<Client>, ls: seq<Label>)
    requires IsPath(cs, ls) && Ok(cs[0])
    requires forall l, c' :: Progress(l) ==> !Step(cs[|ls|], l, c')
    ensures var end := cs[|ls|];
      && !end.stopping && |ls| <= Left(cs[0])
      && (!end.started ==>
            && end.fetch.loops == {} && end.live.loops == {}
            && end.jobs.held == map[] && end.jobs.counted == map[]
            && forall s: Session :: 1 <= s.n <= end.session.n ==> s in end.channels.closed && s in end.channels.done)
  {
    ProgressIsBounded(cs, ls);
    PathKeepsOk(cs, ls, |ls|);
    if cs[|ls|].stopping {
      var l, c' := DrainNeverSticks(cs[|ls|]);
    }
    if Stage(cs[|ls|]) == 8 { OverMeansOver(cs[|ls|]); }
  }

  lemma {:induction false} PathKeepsOk(cs: seq<Client>, ls: seq<Label>, i: nat)
    requires IsPath(cs, ls) && Ok(cs[0]) && i < |cs|
    ensures Ok(cs[i])
  {
    if i > 0 {
      PathKeepsOk(cs, ls, i - 1);
      assert StepAt(cs, ls, i - 1);
      StepKeepsOk(cs[i - 1], ls[i - 1], cs[i]);
    }
  }

  /** While a client is stopping, something can always get further. */
  lemma DrainNeverSticks(c: Client) returns (l: Label, c': Client)
    requires Ok(c) && c.stopping
    ensures Progress(l) && Step(c, l, c')
  {
    if MayMove(c) {
      l, c' := DrainMoves, Moved(c);
    } else if c.drain.phase == WaitFetch {
      l, c' := FetchersGoOn(c);
    } else if c.drain.phase == WaitJobs {
      l, c' := JobsGoOn(c);
    } else if c.drain.phase == WaitLive {
      assert c.live.loops != {};
      var s :| s in c.live.loops;
      l, c' := HeartbeatExits(s), c.(live := c.live.(loops := c.live.loops - {s}, wg := c.live.wg - 1));
    } else {
      l := LoopEnds(c.session);
      c' := c.(channels := c.channels.(done := c.channels.done + {c.session}));
    }
  }

  lemma FetchersGoOn(c: Client) returns (l: Label, c': Client)
    requires Ok(c) && c.drain == At(c.session, WaitFetch) && c.fetch.wg != 0
    ensures Progress(l) && Step(c, l, c')
  {
    assert c.fetch.loops != {};
    if t :| t in c.jobs.held {
      l := Counts(t);
      c' := c.(jobs := InFlight(c.jobs.held - {t}, c.jobs.counted[t := Spawned], c.jobs.wg + 1));
    } else {
      var f :| f in c.fetch.loops;
      l, c' := FetcherExits(f), c.(fetch := c.fetch.(loops := c.fetch.loops - {f}, wg := c.fetch.wg - 1));
    }
  }

  lemma JobsGoOn(c: Client) returns (l: Label, c': Client)
    requires Ok(c) && c.jobs.wg != 0
    ensures Progress(l) && Step(c, l, c')
  {
    var j := c.jobs;
    assert j.counted.Keys != {};
    var t :| t in j.counted;
    match j.counted[t]
    case Spawned => l, c' := Begins(t), c.(jobs := j.(counted := j.counted[t := Working(c.session)]));
    case Working(_) => l, c' := Returns(t), c.(jobs := j.(counted := j.counted[t := Returned]));
    case Returned => l, c' := Leaves(t), c.(jobs := InFlight(j.held, j.counted - {t}, j.wg - 1));
  }
}
