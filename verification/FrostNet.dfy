/**
 * The networked FROST rounds as a step system: one driver and one network endpoint per operator,
 * one first-in-first-out link per ordered pair. A step is one send on one link, one frame taken off
 * a link by a reader, one event taken by a driver, or one advance of a driver between phases; the
 * steps of different operators interleave freely.
 */
module FrostNet {
  import opened Bytes
  import opened Framing
  import opened Transport

  const INBOX_CAP: nat := 256
  const ERRS_CAP: nat := 8

  datatype Kind = Keygen | Sign

  /** What the last FROST call of a run says: a result, a named signer, or an unattributed error. */
  datatype Verdict = Produced(result: Bytes) | Culprit(id: nat) | Refused

  /**
   * A run is fixed by its participants and by the FROST calls they make, which are arbitrary
   * functions here: the package an operator opens with, the packages it answers the collected first
   * round with (per recipient), and the final call on both collected rounds. A corrupt signer
   * answers with whatever `reply` says for it and skips the second collection.
   */
  datatype Config = Config(
    ops: set<nat>,
    kind: Kind,
    session: Bytes,
    corrupt: set<nat>,
    open: nat -> Bytes,
    reply: (nat, map<nat, Bytes>) -> map<nat, Bytes>,
    judge: (nat, map<nat, Bytes>, map<nat, Bytes>) -> Verdict)

  function Peers(cfg: Config, i: nat): set<nat> {
    cfg.ops - {i}
  }

  function Tag(kind: Kind, round: nat): byte
    requires round == 1 || round == 2
  {
    match kind
    case Keygen => if round == 1 then 1 else 2
    case Sign => if round == 1 then 3 else 4
  }

  /** Global index to 1-based FROST number, and back. */
  function Num(i: nat): nat {
    i + 1
  }

  function Index(id: nat): nat {
    if id == 0 then 0 else id - 1
  }

  /** The number as it travels: in sixteen bits. */
  function Id(i: nat): U16 {
    Num(i) % 0x1_0000
  }

  // ---- the endpoint ------------------------------------------------------------------------

  /** The fields of `Network` that change during a run; `gone` holds the peers whose reader ended. */
  datatype Net = Net(inbox: seq<Envelope>, finCh: seq<nat>, errs: nat, finished: bool, gone: set<nat>)

  function Raise(n: Net): Net {
    if n.errs < ERRS_CAP then n.(errs := n.errs + 1) else n
  }

  /** One authenticated frame off the connection to `peer`; a full FIN channel drops the FIN. */
  function OnFrame(n: Net, session: Bytes, finCap: nat, peer: nat, e: Envelope): Net {
    if e.from != peer || e.session != session then Raise(n).(gone := n.gone + {peer})
    else if e.fin then (if |n.finCh| < finCap then n.(finCh := n.finCh + [e.from]) else n)
    else n.(inbox := n.inbox + [e])
  }

  /** The connection to `peer` ended: an error only while this operator has no result yet. */
  function OnClosed(n: Net, peer: nat): Net {
    if n.finished then n.(gone := n.gone + {peer}) else Raise(n).(gone := n.gone + {peer})
  }

  // ---- the driver --------------------------------------------------------------------------

  datatype Why = WrongSender | WrongTag | Duplicate | TransportError | TimedOut | SendFailed | Crypto | Killed

  datatype Accepted = Kept(got: map<nat, Bytes>) | Rejected(why: Why)

  /** What `collectRound` does with one envelope. */
  function Accept(want: set<nat>, tag: byte, got: map<nat, Bytes>, e: Envelope): Accepted {
    if e.from !in want then Rejected(WrongSender)
    else if e.payload == [] || e.payload[0] != tag then Rejected(WrongTag)
    else if e.from in got then Rejected(Duplicate)
    else Kept(got[e.from := e.payload[1..]])
  }

  datatype Driver =
    | Send1(todo: set<nat>)
    | Collect1(got: map<nat, Bytes>)
    | Send2(items1: seq<Item>, out: map<nat, Bytes>, todo: set<nat>)
    | Collect2(items1: seq<Item>, out: map<nat, Bytes>, got: map<nat, Bytes>)
    | SendFin(items1: seq<Item>, items2: seq<Item>, verdict: Verdict, todo: set<nat>)
    | WaitFin(items1: seq<Item>, items2: seq<Item>, verdict: Verdict, fins: set<nat>)
  {
    predicate Sending() { Send1? || Send2? || SendFin? }
    predicate Collecting() { Collect1? || Collect2? }
    predicate Finishing() { SendFin? || WaitFin? }
  }

  /** `Closed(true)` closed after every FIN arrived, `Closed(false)` after the barrier deadline. */
  datatype Life = Up | Closed(full: bool) | Failed(why: Why)

  /** `wire[j]` is the link towards peer `j`: what was written and not yet read there, oldest first. */
  datatype Op = Op(pc: Driver, net: Net, wire: map<nat, seq<Envelope>>, life: Life)
  type State = map<nat, Op>

  function Tagged(t: byte, payload: Bytes): Bytes {
    [t] + payload
  }

  function At(m: map<nat, Bytes>, k: nat): Bytes {
    if k in m then m[k] else []
  }

  function RoundFrame(cfg: Config, i: nat, to: int, round: nat, body: Bytes): Envelope
    requires round == 1 || round == 2
  {
    Envelope(cfg.session, i, to, to == -1, false, Tagged(Tag(cfg.kind, round), body))
  }

  function FinFrame(cfg: Config, i: nat): Envelope {
    Envelope(cfg.session, i, -1, true, true, [])
  }

  /** The frame the driver writes to peer `j` in a sending phase. */
  function Outgoing(cfg: Config, i: nat, pc: Driver, j: nat): Envelope
    requires pc.Sending()
  {
    match pc
    case Send1(_) => RoundFrame(cfg, i, -1, 1, cfg.open(i))
    case Send2(_, out, _) =>
      RoundFrame(cfg, i, if cfg.kind.Keygen? then j else -1, 2, At(out, j))
    case SendFin(_, _, _, _) => FinFrame(cfg, i)
  }

  ghost predicate Enumerates(order: seq<nat>, keys: set<nat>) {
    && (forall x <- order :: x in keys)
    && (forall k <- keys :: k in order)
    && (forall x, y :: 0 <= x < y < |order| ==> order[x] != order[y])
  }

  /** Items in the order Go ranged over the collected map. */
  function ListEach(got: map<nat, Bytes>, order: seq<nat>): (items: seq<Item>)
    ensures |items| == |order|
    ensures forall x :: 0 <= x < |order| ==> items[x] == Item(Id(order[x]), At(got, order[x]))
  {
    if order == [] then [] else [Item(Id(order[0]), At(got, order[0]))] + ListEach(got, order[1..])
  }

  /** A signer lists its own package before the collected ones. */
  function Listed(cfg: Config, i: nat, own: Bytes, got: map<nat, Bytes>, order: seq<nat>): seq<Item> {
    (if cfg.kind.Sign? then [Item(Id(i), own)] else []) + ListEach(got, order)
  }

  datatype Advance = Go(pc: Driver) | Stop(why: Why)

  /** The driver's move when its phase is complete; FROST receives the items through the framing. */
  function Advanced(cfg: Config, i: nat, pc: Driver, order: seq<nat>): Advance {
    match pc
    case Send1(_) => Go(Collect1(map[]))
    case Collect1(got) =>
      var items1 := Listed(cfg, i, cfg.open(i), got, order);
      (match Received(Encode(items1))
       case None => Stop(Crypto)
       case Some(view1) => Go(Send2(items1, cfg.reply(i, view1), Peers(cfg, i))))
    case Send2(items1, out, _) =>
      if i in cfg.corrupt then Go(SendFin(items1, [], Refused, Peers(cfg, i)))
      else Go(Collect2(items1, out, map[]))
    case Collect2(items1, out, got) =>
      var items2 := Listed(cfg, i, At(out, i), got, order);
      (match (Received(Encode(items1)), Received(Encode(items2)))
       case (Some(view1), Some(view2)) =>
         var verdict := cfg.judge(i, view1, view2);
         if verdict.Refused? then Stop(Crypto) else Go(SendFin(items1, items2, verdict, Peers(cfg, i)))
       case _ => Stop(Crypto))
    case SendFin(items1, items2, verdict, _) => Go(WaitFin(items1, items2, verdict, {}))
    case WaitFin(_, _, _, _) => Go(pc)
  }

  // ---- the steps ---------------------------------------------------------------------------

  datatype Action =
    | Write(i: nat, j: nat)              // i's driver sends its current frame to j
    | Step(i: nat, order: seq<nat>)      // i's driver moves to its next phase
    | Read(i: nat, j: nat)               // i's reader takes one frame from j
    | Eof(i: nat, j: nat)                // i's reader finds the connection to j ended
    | Take(i: nat)                       // i's driver takes an envelope in collectRound
    | TakeErr(i: nat)                    // i's driver takes a transport error in collectRound
    | TakeFin(i: nat)                    // i's driver takes a FIN in the barrier
    | Timeout(i: nat)                    // i's round deadline fires
    | Deadline(i: nat)                   // i's barrier deadline fires
    | WriteFails(i: nat, j: nat)         // a send to an operator that is down fails
    | Kill(i: nat)                       // i stops at any point, a failed FROST call included

  /** Deadlines and failures the environment injects. */
  predicate Fault(a: Action) {
    a.Timeout? || a.Deadline? || a.WriteFails? || a.Kill?
  }

  predicate Link(s: State, i: nat, j: nat) {
    i in s && j in s && i != j && j in s[i].wire
  }

  predicate PhaseDone(cfg: Config, i: nat, pc: Driver) {
    match pc
    case Send1(todo) => todo == {}
    case Collect1(got) => |got| >= |Peers(cfg, i)|
    case Send2(_, _, todo) => todo == {}
    case Collect2(_, _, got) => |got| >= |Peers(cfg, i)|
    case SendFin(_, _, _, todo) => todo == {}
    case WaitFin(_, _, _, fins) => |fins| >= |Peers(cfg, i)|
  }

  ghost predicate Enabled(cfg: Config, s: State, a: Action) {
    a.i in s && s[a.i].life.Up? &&
    var op := s[a.i];
    match a
    case Write(i, j) => Link(s, i, j) && op.pc.Sending() && j in op.pc.todo
    case Step(i, order) => PhaseDone(cfg, i, op.pc) && (op.pc.Collecting() ==> Enumerates(order, op.pc.got.Keys))
    case Read(i, j) =>
      Link(s, j, i) && j !in op.net.gone && s[j].wire[i] != []
      && (s[j].wire[i][0].fin || |op.net.inbox| < INBOX_CAP)
    case Eof(i, j) => Link(s, j, i) && j !in op.net.gone && s[j].wire[i] == [] && !s[j].life.Up?
    case Take(i) => op.pc.Collecting() && !PhaseDone(cfg, i, op.pc) && op.net.inbox != []
    case TakeErr(i) => op.pc.Collecting() && !PhaseDone(cfg, i, op.pc) && op.net.errs > 0
    case TakeFin(i) => op.pc.WaitFin? && !PhaseDone(cfg, i, op.pc) && op.net.finCh != []
    case Timeout(i) => op.pc.Collecting() && !PhaseDone(cfg, i, op.pc)
    case Deadline(i) => op.pc.WaitFin? && !PhaseDone(cfg, i, op.pc)
    case WriteFails(i, j) => Link(s, i, j) && (op.pc.Send1? || op.pc.Send2?) && j in op.pc.todo && !s[j].life.Up?
    case Kill(i) => true
  }

  function CurrentTag(cfg: Config, pc: Driver): byte {
    Tag(cfg.kind, if pc.Collect1? then 1 else 2)
  }

  /** The operator `a.i` after its step. */
  ghost function StepOp(cfg: Config, s: State, a: Action): Op
    requires Enabled(cfg, s, a)
  {
    var op := s[a.i];
    match a
    case Write(i, j) =>
      op.(pc := op.pc.(todo := op.pc.todo - {j}), wire := op.wire[j := op.wire[j] + [Outgoing(cfg, i, op.pc, j)]])
    case Step(i, order) =>
      if op.pc.WaitFin? then op.(life := Closed(true))
      else (match Advanced(cfg, i, op.pc, order)
            case Stop(why) => op.(life := Failed(why))
            case Go(pc) => op.(pc := pc, net := if pc.SendFin? then op.net.(finished := true) else op.net))
    case Read(i, j) => op.(net := OnFrame(op.net, cfg.session, |Peers(cfg, i)| + 1, j, s[j].wire[i][0]))
    case Eof(i, j) => op.(net := OnClosed(op.net, j))
    case Take(i) =>
      (match Accept(Peers(cfg, i), CurrentTag(cfg, op.pc), op.pc.got, op.net.inbox[0])
       case Rejected(why) => op.(life := Failed(why))
       case Kept(got) => op.(pc := op.pc.(got := got), net := op.net.(inbox := op.net.inbox[1..])))
    case TakeErr(i) => op.(life := Failed(TransportError))
    case TakeFin(i) =>
      op.(pc := op.pc.(fins := op.pc.fins + {op.net.finCh[0]}), net := op.net.(finCh := op.net.finCh[1..]))
    case Timeout(i) => op.(life := Failed(TimedOut))
    case Deadline(i) => op.(life := Closed(false))
    case WriteFails(i, j) => op.(life := Failed(SendFailed))
    case Kill(i) => op.(life := Failed(Killed))
  }

  /** A read also takes the frame off the sender's link. */
  ghost function Apply(cfg: Config, s: State, a: Action): State
    requires Enabled(cfg, s, a)
  {
    var t := s[a.i := StepOp(cfg, s, a)];
    if a.Read? then t[a.j := Shifted(s[a.j], a.i)] else t
  }

  function Shifted(op: Op, i: nat): Op
    requires i in op.wire && op.wire[i] != []
  {
    op.(wire := op.wire[i := op.wire[i][1..]])
  }

  function Start(cfg: Config, i: nat): Op {
    Op(Send1(Peers(cfg, i)), Net([], [], 0, false, {}), map j | j in Peers(cfg, i) :: [], Up)
  }

  function Init(cfg: Config): State {
    map i | i in cfg.ops :: Start(cfg, i)
  }

  ghost predicate Runs(cfg: Config, s: State, acts: seq<Action>, t: State)
    decreases |acts|
  {
    if acts == [] then s == t
    else Enabled(cfg, s, acts[0]) && Runs(cfg, Apply(cfg, s, acts[0]), acts[1..], t)
  }

  ghost predicate Reachable(cfg: Config, t: State) {
    exists acts :: Runs(cfg, Init(cfg), acts, t)
  }

  /** Reachable without any deadline or injected failure. */
  ghost predicate CalmReachable(cfg: Config, t: State) {
    exists acts :: Runs(cfg, Init(cfg), acts, t) && forall a <- acts :: !Fault(a)
  }
}
