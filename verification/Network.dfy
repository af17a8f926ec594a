/**
 * One operator's endpoint in the form the engine runs it: an object whose fields the readers and the
 * driver update. Every method is tied to the functions that the step system is made of.
 */
module Network {
  import opened Bytes
  import opened Transport
  import opened FrostNet
  import opened FrostInvariant

  /** What `readFrame` gives a read loop. */
  datatype Incoming = Delivered(m: Signed) | Broken

  /** Whether a read loop goes round again, returns, or is blocked on a full inbox. */
  datatype LoopMove = Continues | Returns | Blocks

  /** One more frame on every connection that is not lost. */
  function Extended(conns: map<nat, seq<Signed>>, m: Signed, lost: set<nat>): map<nat, seq<Signed>> {
    map p | p in conns :: if p in lost then conns[p] else conns[p] + [m]
  }

  class Network {
    const self: nat
    const session: Bytes
    const crypto: Ed25519
    const priv: Bytes
    const peers: map<nat, Bytes>      // pinned identity keys
    var conns: map<nat, seq<Signed>>  // by peer: every frame written on its connection, in order
    var inbox: seq<Envelope>
    var errs: nat
    var finished: bool
    var finCh: seq<nat>
    var gone: set<nat>                // peers whose read loop has returned

    /** The part of the state the step system has a record of. */
    ghost function View(): Net
      reads this
    {
      Net(inbox, finCh, errs, finished, gone)
    }

    /** A signed envelope of this operator; `to` is -1 on a broadcast. */
    function Sealed(to: int, fin: bool, payload: Bytes): Signed {
      SignedBy(crypto, priv, Envelope(session, self, to, to == -1, fin, payload))
    }

    constructor (self: nat, crypto: Ed25519, priv: Bytes, directory: map<nat, Bytes>, session: Bytes)
      ensures this.self == self && this.session == session && this.crypto == crypto && this.priv == priv
      ensures peers == directory - {self}
      ensures conns == map[] && View() == Net([], [], 0, false, {})
    {
      this.self, this.crypto, this.priv, this.session := self, crypto, priv, session;
      peers := directory - {self};
      conns := map[];
      inbox, errs, finished, finCh, gone := [], 0, false, [], {};
    }

    /** A verified connection replaces whatever there was to that peer, and gets a read loop of its own. */
    method Register(peer: nat)
      requires peer in peers
      modifies this`conns, this`gone
      ensures conns == old(conns)[peer := []] && gone == old(gone) - {peer}
    {
      conns := conns[peer := []];
      gone := gone - {peer};
    }

    /** The channel holds a few errors; one that finds it full is dropped. */
    method RaiseError()
      modifies this`errs
      ensures View() == Raise(old(View()))
      ensures errs == if old(errs) < 8 then old(errs) + 1 else old(errs)
    {
      if errs < ERRS_CAP {
        errs := errs + 1;
      }
    }

    method Quits(peer: nat)
      modifies this`errs, this`gone
      ensures View() == Raise(old(View())).(gone := old(gone) + {peer})
      ensures errs == if old(errs) < 8 then old(errs) + 1 else old(errs)
    {
      RaiseError();
      gone := gone + {peer};
    }

    /** One round of the read loop on the connection to `peer`. */
    method ReadLoopOnce(peer: nat, read: Incoming) returns (move: LoopMove)
      requires peer in peers && peer !in gone
      modifies this`inbox, this`errs, this`finCh, this`gone
      ensures read.Broken? ==> move == Returns && View() == OnClosed(old(View()), peer)
      ensures read.Delivered? && !Verify(crypto, peers[peer], read.m) ==>
                move == Returns && View() == Raise(old(View())).(gone := old(gone) + {peer})
      ensures read.Delivered? && Verify(crypto, peers[peer], read.m) && move != Blocks ==>
                View() == OnFrame(old(View()), session, |peers| + 1, peer, read.m.envelope)
      ensures move == Blocks ==> View() == old(View()) && |inbox| >= INBOX_CAP && read.Delivered? && !read.m.envelope.fin
      ensures move == Returns <==> peer in gone
      ensures (read.Broken? && !old(finished))
              || (read.Delivered?
                  && var e := read.m.envelope;
                     e.from != peer || e.session != session
                     || !crypto.verify(peers[peer], SigningBytes(e), read.m.sig)) ==>
                move == Returns && inbox == old(inbox) && finCh == old(finCh)
                && errs == if old(errs) < 8 then old(errs) + 1 else old(errs)
      ensures read.Broken? && old(finished) ==>
                move == Returns && inbox == old(inbox) && finCh == old(finCh) && errs == old(errs)
      ensures (read.Delivered?
               && var e := read.m.envelope;
                  e.from == peer && e.session == session && crypto.verify(peers[peer], SigningBytes(e), read.m.sig)) ==>
                var e := read.m.envelope;
                && errs == old(errs) && gone == old(gone)
                && (e.fin ==> move == Continues && inbox == old(inbox)
                              && finCh == if |old(finCh)| < |peers| + 1 then old(finCh) + [e.from] else old(finCh))
                && (!e.fin ==> finCh == old(finCh) && (move == Blocks <==> |old(inbox)| >= 256)
                               && inbox == if |old(inbox)| < 256 then old(inbox) + [e] else old(inbox))
    {
      if read.Broken? {
        if finished {
          gone := gone + {peer};
          return Returns;
        }
        Quits(peer);
        return Returns;
      }
      var e := read.m.envelope;
      if e.from != peer {
        Quits(peer);
        return Returns;
      }
      if e.session != session {
        Quits(peer);
        return Returns;
      }
      if !Verify(crypto, peers[peer], read.m) {
        Quits(peer);
        return Returns;
      }
      if e.fin {
        if |finCh| < |peers| + 1 {
          finCh := finCh + [e.from];
        }
        return Continues;
      }
      if |inbox| >= INBOX_CAP {
        return Blocks;
      }
      inbox := inbox + [e];
      return Continues;
    }

    /** Sends on every connection, in whatever order the map gives, up to the first that fails. */
    method Broadcast(payload: Bytes, down: set<nat>) returns (failed: Option<nat>)
      modifies this`conns
      ensures conns.Keys == old(conns.Keys) && (failed.None? <==> conns.Keys !! down)
      ensures failed.None? ==> conns == Extended(old(conns), Sealed(-1, false, payload), {})
      ensures var m := Sealed(-1, false, payload);
              forall p <- conns :: conns[p] == old(conns)[p] || (p !in down && conns[p] == old(conns)[p] + [m])
      ensures failed.Some? ==> failed.value in conns.Keys * down
      ensures failed.None? ==> forall p <- conns ::
                conns[p] == old(conns)[p] + [SignedBy(crypto, priv, Envelope(session, self, -1, true, false, payload))]
    {
      var m := Sealed(-1, false, payload);
      var todo := conns.Keys;
      while todo != {}
        invariant todo <= conns.Keys == old(conns.Keys)
        invariant forall p <- conns :: conns[p] == if p in todo then old(conns)[p] else old(conns)[p] + [m]
        invariant (conns.Keys - todo) !! down
        decreases |todo|
      {
        var p :| p in todo;
        if p in down {
          return Some(p);
        }
        conns := conns[p := conns[p] + [m]];
        todo := todo - {p};
      }
      return None;
    }

    method SendTo(to: nat, payload: Bytes, down: set<nat>) returns (ok: bool)
      modifies this`conns
      ensures ok <==> to in old(conns) && to !in down
      ensures ok ==>
                to in conns
                && conns[to] == old(conns)[to] + [SignedBy(crypto, priv, Envelope(session, self, to, false, false, payload))]
      ensures var m := Sealed(to, false, payload);
              conns == if ok then old(conns)[to := old(conns)[to] + [m]] else old(conns)
    {
      if to !in conns || to in down {
        return false;
      }
      var m := Sealed(to, false, payload);
      conns := conns[to := conns[to] + [m]];
      return true;
    }

    /** Sends the FIN on every connection; a send that fails is ignored. */
    method Announce(down: set<nat>)
      modifies this`conns
      ensures conns == Extended(old(conns), Sealed(-1, true, []), down)
    {
      var m := Sealed(-1, true, []);
      var todo := conns.Keys;
      while todo != {}
        invariant todo <= conns.Keys == old(conns.Keys)
        invariant forall p <- conns :: conns[p] == if p in todo || p in down then old(conns)[p] else old(conns)[p] + [m]
        decreases |todo|
      {
        var p :| p in todo;
        if p !in down {
          conns := conns[p := conns[p] + [m]];
        }
        todo := todo - {p};
      }
    }

    /** Takes FINs, the queued ones and then the `later` ones, until there are enough or no more. */
    method AwaitFins(later: seq<nat>) returns (full: bool)
      modifies this`finCh
      ensures full <==> |Members(old(finCh) + later)| >= |conns|
      ensures exists k :: 0 <= k <= |old(finCh) + later| && finCh == (old(finCh) + later)[k..]
    {
      ghost var all := finCh + later;
      finCh := finCh + later;
      var got: set<nat> := {};
      ghost var k := 0;
      while |got| < |conns| && finCh != []
        invariant 0 <= k <= |all| && finCh == all[k..] && got == Members(all[..k])
        decreases |finCh|
      {
        assert all[..k + 1] == all[..k] + [finCh[0]];
        got := got + {finCh[0]};
        finCh := finCh[1..];
        k := k + 1;
      }
      full := |got| >= |conns|;
      assert finCh == [] ==> all[..k] == all;
      Fewer(Members(all[..k]), Members(all));
    }

    /**
     * The completion barrier; `later` are the FINs the readers record until the deadline. It is
     * full when enough peers announced themselves, and as FINs come over connections only, that is
     * when every connected peer did.
     */
    method Fin(down: set<nat>, later: seq<nat>) returns (full: bool)
      modifies this`conns, this`finished, this`finCh
      ensures finished
      ensures conns == Extended(old(conns), Sealed(-1, true, []), down)
      ensures forall p <- conns ::
                conns[p] == if p in down then old(conns)[p]
                            else old(conns)[p] + [SignedBy(crypto, priv, Envelope(session, self, -1, true, true, []))]
      ensures full <==> |Members(old(finCh) + later)| >= |conns|
      ensures (forall f <- old(finCh) + later :: f in conns) ==>
                (full <==> forall p <- conns :: p in old(finCh) + later)
    {
      EveryFin(finCh + later, conns.Keys);
      finished := true;
      Announce(down);
      assert conns.Keys == old(conns.Keys);
      assert |conns.Keys| == |conns|;
      full := AwaitFins(later);
    }
  }

  ghost function Members(q: seq<nat>): set<nat> {
    set f | f in q
  }

  lemma EveryFin(all: seq<nat>, conns: set<nat>)
    ensures (forall f <- all :: f in conns) ==> (|Members(all)| >= |conns| <==> forall p <- conns :: p in all)
  {
    if forall f <- all :: f in conns {
      if |Members(all)| >= |conns| {
        SubsetFull(Members(all), conns);
        assert forall p <- conns :: p in Members(all);
      } else if forall p <- conns :: p in all {
        assert conns <= Members(all);
        Fewer(conns, Members(all));
      }
    }
  }
}
