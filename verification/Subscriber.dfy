/**
 The subscriber half of a participant: the set of tracks it is sent and the offer/answer
 machine that coalesces changes behind `pending` and `redo`.
 The peer connection is reduced to its signaling state and the track sets it last offered
 and last had answered; `wire` records what passed between server and browser.
 */
module Subscriber {
  import opened Media

  /** The peer connection: is an offer unanswered, what was offered last, what was answered last. */
  datatype Peer = Peer(unanswered: bool, local: Option<set<Track>>, remote: set<Track>)

  datatype Wire = Offer(tracks: set<Track>) | Resent(tracks: set<Track>) | Answer

  datatype Sub = Sub(closed: bool, senders: set<Track>, pending: bool, redo: bool, pc: Peer, wire: seq<Wire>)

  const FRESH := Sub(false, {}, false, false, Peer(false, None, {}), [])

  function Renegotiate(s: Sub): Sub {
    if s.closed then s
    else if s.pending then s.(redo := true)
    else s.(pending := true,
            pc := s.pc.(unanswered := true, local := Some(s.senders)),
            wire := s.wire + [Offer(s.senders)])
  }

  function Add(s: Sub, t: Track): Sub {
    if s.closed || t in s.senders then s else Renegotiate(s.(senders := s.senders + {t}))
  }

  function Remove(s: Sub, t: Track): Sub {
    if s.closed || t !in s.senders then s else Renegotiate(s.(senders := s.senders - {t}))
  }

  /** The peer connection refuses an answer when no offer of its own is outstanding. */
  function OnAnswer(s: Sub): Sub {
    if s.closed || !s.pc.unanswered || s.pc.local.None? then s
    else
      var s1 := s.(pending := false,
                   pc := s.pc.(unanswered := false, remote := s.pc.local.value),
                   wire := s.wire + [Answer]);
      if s1.redo then Renegotiate(s1.(redo := false)) else s1
  }

  function Resend(s: Sub): Sub {
    if s.closed || !s.pending || s.pc.local.None? then s
    else s.(wire := s.wire + [Resent(s.pc.local.value)])
  }

  function AddAll(s: Sub, ts: seq<Track>): Sub {
    if ts == [] then s else Add(AddAll(s, ts[..|ts| - 1]), ts[|ts| - 1])
  }

  function RemoveAll(s: Sub, ts: seq<Track>): Sub {
    if ts == [] then s else Remove(RemoveAll(s, ts[..|ts| - 1]), ts[|ts| - 1])
  }

  // ---- what passed over the wire ----

  /** Is the newest offer still unanswered? */
  predicate Open(w: seq<Wire>) {
    w != [] && match w[|w| - 1]
               case Offer(_) => true
               case Answer => false
               case Resent(_) => Open(w[..|w| - 1])
  }

  /** The newest offer created. */
  function LastOffer(w: seq<Wire>): Option<set<Track>> {
    if w == [] then None
    else match w[|w| - 1]
         case Offer(ts) => Some(ts)
         case Answer => LastOffer(w[..|w| - 1])
         case Resent(_) => LastOffer(w[..|w| - 1])
  }

  /** Offers are created only when none is unanswered; a resend repeats the newest, still open offer. */
  predicate Lawful(w: seq<Wire>) {
    w == [] ||
    var front := w[..|w| - 1];
    && Lawful(front)
    && match w[|w| - 1]
       case Offer(_) => !Open(front)
       case Answer => Open(front)
       case Resent(ts) => Open(front) && LastOffer(front) == Some(ts)
  }

  lemma AppendWire(w: seq<Wire>, x: Wire)
    ensures (w + [x])[..|w + [x]| - 1] == w
    ensures (w + [x])[|w + [x]| - 1] == x
  {
  }

  /** Between any two offers of a lawful exchange there is an answer (section 4 of RFC 3264). */
  lemma {:induction false} OffersNeverOverlap(w: seq<Wire>, i: nat, j: nat)
    requires Lawful(w) && i < j < |w| && w[i].Offer? && w[j].Offer?
    ensures exists k :: i < k < j && w[k] == Answer
  {
    if j < |w| - 1 {
      OffersNeverOverlap(w[..|w| - 1], i, j);
      var k :| i < k < j && w[..|w| - 1][k] == Answer;
      assert w[k] == Answer;
    } else {
      ClosedByAnswer(w[..j], i);
      var k :| i < k < j && w[..j][k] == Answer;
      assert w[k] == Answer;
    }
  }

  lemma {:induction false} ClosedByAnswer(w: seq<Wire>, i: nat)
    requires i < |w| && w[i].Offer? && !Open(w)
    ensures exists k :: i < k < |w| && w[k] == Answer
  {
    var last := |w| - 1;
    if w[last] != Answer {
      ClosedByAnswer(w[..last], i);
      var k :| i < k < last && w[..last][k] == Answer;
      assert w[k] == Answer;
    }
  }

  // ---- the invariant of the machine ----

  function Offered(s: Sub): set<Track> {
    if s.pc.local.None? then {} else s.pc.local.value
  }

  ghost predicate Inv(s: Sub) {
    && (s.pending <==> s.pc.unanswered)
    && (s.redo ==> s.pending)
    && (s.pending ==> s.pc.local.Some?)
    && (!s.redo ==> Offered(s) == s.senders)
    && (!s.pending ==> s.pc.remote == Offered(s))
    && Lawful(s.wire)
    && (Open(s.wire) <==> s.pending)
    && LastOffer(s.wire) == s.pc.local
  }

  lemma RenegotiateKeeps(s: Sub, senders: set<Track>)
    requires Inv(s)
    ensures Inv(Renegotiate(s.(senders := senders))) || s.closed
  {
    AppendWire(s.wire, Offer(senders));
  }

  datatype Event = Added(t: Track) | Removed(t: Track) | Answered | Reconnected

  function Step(s: Sub, e: Event): Sub {
    match e
    case Added(t) => Add(s, t)
    case Removed(t) => Remove(s, t)
    case Answered => OnAnswer(s)
    case Reconnected => Resend(s)
  }

  lemma StepKeeps(s: Sub, e: Event)
    requires Inv(s)
    ensures Inv(Step(s, e))
  {
    match e
    case Added(t) => RenegotiateKeeps(s, s.senders + {t});
    case Removed(t) => RenegotiateKeeps(s, s.senders - {t});
    case Reconnected =>
      if s.pc.local.Some? { AppendWire(s.wire, Resent(s.pc.local.value)); }
    case Answered =>
      if !s.closed && s.pc.unanswered {
        var w := s.wire + [Answer];
        AppendWire(s.wire, Answer);
        AppendWire(w, Offer(s.senders));
      }
  }

  lemma {:induction false} AddAllKeeps(s: Sub, ts: seq<Track>)
    requires Inv(s)
    ensures Inv(AddAll(s, ts)) && AddAll(s, ts).closed == s.closed
    ensures !s.closed ==> AddAll(s, ts).senders == s.senders + (set t | t in ts)
  {
    if ts != [] {
      var front, last := ts[..|ts| - 1], ts[|ts| - 1];
      AddAllKeeps(s, front);
      StepKeeps(AddAll(s, front), Added(last));
      assert ts == front + [last];
    }
  }

  lemma {:induction false} RemoveAllKeeps(s: Sub, ts: seq<Track>)
    requires Inv(s)
    ensures Inv(RemoveAll(s, ts)) && RemoveAll(s, ts).closed == s.closed
    ensures !s.closed ==> RemoveAll(s, ts).senders == s.senders - (set t | t in ts)
  {
    if ts != [] {
      var front, last := ts[..|ts| - 1], ts[|ts| - 1];
      RemoveAllKeeps(s, front);
      StepKeeps(RemoveAll(s, front), Removed(last));
      assert ts == front + [last];
    }
  }

  // ---- convergence ----

  /** How many answers the subscriber still has to give before it has everything it is sent. */
  function AnswersNeeded(s: Sub): nat {
    if !s.pending then 0 else if !s.redo then 1 else 2
  }

  /** Nothing outstanding, and the browser has answered an offer of exactly `senders`. */
  predicate Settled(s: Sub) {
    !s.pending && !s.redo && s.pc.remote == s.senders
  }

  predicate Quiet(es: seq<Event>) {
    forall i :: 0 <= i < |es| ==> es[i] == Answered || es[i] == Reconnected
  }

  function Run(s: Sub, es: seq<Event>): Sub
    decreases es
  {
    if es == [] then s else Run(Step(s, es[0]), es[1..])
  }

  function CountAnswers(es: seq<Event>): nat {
    if es == [] then 0 else (if es[0] == Answered then 1 else 0) + CountAnswers(es[1..])
  }

  lemma {:induction false} RunKeeps(s: Sub, es: seq<Event>)
    requires Inv(s)
    ensures Inv(Run(s, es)) && Run(s, es).closed == s.closed
    decreases es
  {
    if es != [] {
      StepKeeps(s, es[0]);
      RunKeeps(Step(s, es[0]), es[1..]);
    }
  }

  /**
   Once changes stop, the subscriber settles exactly when it has answered AnswersNeeded(s) times,
   which is never more than twice; resends in between change nothing.
   */
  lemma {:induction false} SettlesExactly(s: Sub, es: seq<Event>)
    requires Inv(s) && !s.closed && Quiet(es)
    ensures AnswersNeeded(s) <= 2
    ensures Run(s, es).senders == s.senders
    ensures Settled(Run(s, es)) <==> CountAnswers(es) >= AnswersNeeded(s)
    decreases es
  {
    if es != [] {
      var s1 := Step(s, es[0]);
      StepKeeps(s, es[0]);
      assert s1.senders == s.senders && !s1.closed;
      assert Quiet(es[1..]);
      SettlesExactly(s1, es[1..]);
    }
  }

  /** From a new subscriber, after any history whatever, two further answers are always enough. */
  lemma TwoAnswersSettle(history: seq<Event>, quiet: seq<Event>)
    requires Quiet(quiet) && CountAnswers(quiet) >= 2
    ensures var s := Run(FRESH, history);
            Settled(Run(s, quiet)) && Run(s, quiet).senders == s.senders
  {
    RunKeeps(FRESH, history);
    SettlesExactly(Run(FRESH, history), quiet);
  }

  // ---- what answers and reconnects achieve ----

  /** An answer is one to the open offer: the browser then holds that offer, and gets a new one if a redo was noted. */
  ghost predicate Answers(s: Sub, d: Sub) {
    if Open(s.wire) then
      && LastOffer(s.wire) == Some(d.pc.remote) && d.senders == s.senders && d.closed == s.closed
      && d.wire == s.wire + [Answer] + (if s.redo then [Offer(s.senders)] else []) && !d.redo && d.pending == s.redo
    else d == s
  }

  lemma AnswerOutcome(s: Sub)
    requires Inv(s) && !s.closed
    ensures Answers(s, Step(s, Answered))
  {
  }

  /** A change is offered at once, or noted while an offer is open; one that changes nothing is neither. */
  lemma ChangeOutcome(s: Sub, t: Track, added: bool)
    requires Inv(s) && !s.closed
    ensures var d := Step(s, if added then Added(t) else Removed(t));
            var now := if added then s.senders + {t} else s.senders - {t};
            && d.senders == now && !d.closed
            && if now == s.senders then d == s
               else if Open(s.wire) then d.wire == s.wire && d.redo && d.pc == s.pc
               else d.wire == s.wire + [Offer(now)] && !d.redo && d.pc.remote == s.pc.remote
  {
  }

  /** Once closed, nothing passes any more and nothing changes. */
  lemma {:induction false} ClosedForGood(s: Sub, es: seq<Event>)
    requires s.closed
    ensures Run(s, es) == s && Renegotiate(s) == s
    decreases es
  {
    if es != [] { ClosedForGood(Step(s, es[0]), es[1..]); }
  }

  /** A client that reconnects while an offer is open gets that offer again, and otherwise nothing. */
  lemma ReconnectOutcome(s: Sub)
    requires Inv(s) && !s.closed
    ensures var d, last := Step(s, Reconnected), LastOffer(s.wire);
            if Open(s.wire) then last.Some? && d == s.(wire := s.wire + [Resent(last.value)]) else d == s
  {
  }

  function Resends(w: seq<Wire>): nat {
    if w == [] then 0 else Resends(w[..|w| - 1]) + Bit(w[|w| - 1].Resent?)
  }

  /** How often the client reconnects while an offer is open. */
  function OpenReconnects(s: Sub, es: seq<Event>): nat
    decreases es
  {
    if es == [] then 0 else Bit(es[0] == Reconnected && Open(s.wire)) + OpenReconnects(Step(s, es[0]), es[1..])
  }

  lemma StepResends(s: Sub, e: Event)
    requires Inv(s) && !s.closed
    ensures Resends(Step(s, e).wire) == Resends(s.wire) + Bit(e == Reconnected && Open(s.wire))
  {
    AppendWire(s.wire, Answer);
    AppendWire(s.wire + [Answer], Offer(s.senders));
    match e
    case Added(t) => AppendWire(s.wire, Offer(s.senders + {t}));
    case Removed(t) => AppendWire(s.wire, Offer(s.senders - {t}));
    case Answered =>
    case Reconnected =>
      ReconnectOutcome(s);
      if Open(s.wire) { AppendWire(s.wire, Resent(LastOffer(s.wire).value)); }
  }

  /** Over any history, offers are repeated exactly as often as the client reconnects while one is open. */
  lemma {:induction false} EveryReconnectIsServed(s: Sub, es: seq<Event>)
    requires Inv(s) && !s.closed
    ensures Resends(Run(s, es).wire) == Resends(s.wire) + OpenReconnects(s, es)
    decreases es
  {
    if es != [] {
      hide Inv, Step;
      StepKeeps(s, es[0]);
      StaysOpen(s, es[0]);
      StepResends(s, es[0]);
      EveryReconnectIsServed(Step(s, es[0]), es[1..]);
    }
  }

  lemma StaysOpen(s: Sub, e: Event)
    ensures Step(s, e).closed == s.closed
  {
  }
}
